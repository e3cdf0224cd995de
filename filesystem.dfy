/** The documentation tree on disk: the text of every file, by path. */
module FileSystem {

  class Disk {
    var files: map<string, string>

    constructor (files: map<string, string>)
      ensures this.files == files
    {
      this.files := files;
    }
  }
}
