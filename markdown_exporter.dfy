/**
 * The flat Markdown exporter (`exporter/drivers/markdown/markdown.go`): routes a
 * source file like the hierarchical driver, then writes one Markdown file per
 * source file, a list item per field under a heading per struct, replacing
 * whatever the file held.
 */
module MarkdownExporter {
  import opened Text
  import opened Wrappers
  import opened Paths
  import opened Records
  import opened TextFile
  import opened FileSystem
  import opened Routing
  import opened Sections
  import opened Toml
  import opened SourceLinks

  /** The driver's configuration (`config`). */
  datatype Config = Config(docPaths: map<string, string>, referenceBase: string)

  /** A field's default as the list item shows it, and the record as the driver leaves it. */
  datatype Shown = Shown(field: FieldInfo, escaped: string)

  /**
   * Decodes a default: `url:x` shows as the Markdown link `[x](x)` and the
   * record's default becomes `x`; any other default is shown as it is.
   */
  function Decode(f: FieldInfo): (r: Shown)
    ensures HasPrefix(f.defaultValue, UrlPrefix) ==> UrlPrefix + r.field.defaultValue == f.defaultValue
    ensures !HasPrefix(f.defaultValue, UrlPrefix) ==> r == Shown(f, f.defaultValue)
    ensures r.field == f.(defaultValue := r.field.defaultValue)
  {
    if HasPrefix(f.defaultValue, UrlPrefix) then
      var x := TrimPrefix(f.defaultValue, UrlPrefix);
      Shown(f.(defaultValue := x), "[" + x + "](" + x + ")")
    else
      Shown(f, f.defaultValue)
  }

  /** A link default `url:x` decodes to the default `x`, shown as a link to `x`. */
  lemma DecodeLink(f: FieldInfo, x: string)
    requires f.defaultValue == UrlPrefix + x
    ensures Decode(f) == Shown(f.(defaultValue := x), "[" + x + "](" + x + ")")
  {
    assert HasPrefix(f.defaultValue, UrlPrefix);
  }

  /** The three lines of `configDefaultTemplate`. */
  function ItemLines(f: FieldInfo, ref: string, escaped: string): seq<string>
  {
    [ "- **" + f.fieldName + "** - " + f.dataType,
      "  - " + f.description + " " + ref,
      "  - Default: " + escaped ]
  }

  /** The rendered list item: its three lines joined by newlines, without a final one. */
  function Item(s: Shown, ref: string): string
  {
    Join(ItemLines(s.field, ref, s.escaped), "\n")
  }

  /** An item whose parts hold no newline reads back as its three lines once written with its newline. */
  lemma ItemReadBack(s: Shown, ref: string)
    requires SingleLines(ItemLines(s.field, ref, s.escaped))
    ensures Lines(Item(s, ref)) == ItemLines(s.field, ref, s.escaped)
    ensures Lines(Item(s, ref) + "\n") == ItemLines(s.field, ref, s.escaped)
  {
    var ls := ItemLines(s.field, ref, s.escaped);
    assert ls[2] != [] by { assert ls[2][0] == ' '; }
    LinesOfJoin(ls);
    RoundTrip(ls);
    JoinNewlines(ls);
  }

  /** Lines joined by newlines and ended by one are the lines as `Fprintln` writes them. */
  lemma {:induction false} JoinNewlines(ls: seq<string>)
    requires |ls| > 0
    ensures Join(ls, "\n") + "\n" == Unlines(ls)
  {
    if |ls| > 1 {
      JoinNewlines(ls[1..]);
    }
  }

  /** The line that opens a struct's section: an empty line, then `## struct: S`. */
  function SectionHeader(name: string): string
  {
    "\n## struct: " + name
  }

  /** One field: its default decoded, its link built, its list item rendered. */
  function RenderField(cfg: Config, reference: Option<string>, f: FieldInfo): (r: Result<Rendered, Error>)
    ensures r.Ok? <==> RefURL(cfg.referenceBase, reference, f.lineNumber).Ok?
    ensures r.Ok? ==> r.value.field == Decode(f).field
  {
    var s := Decode(f);
    match RefURL(cfg.referenceBase, reference, f.lineNumber)
    case Err(e) => Err(e)
    case Ok(ref) => Ok(Rendered(Item(s, ref), s.field))
  }

  /** The field renderer of one source file. */
  function Renderer(cfg: Config, reference: Option<string>): FieldInfo -> Result<Rendered, Error>
  {
    f => RenderField(cfg, reference, f)
  }

  /** The output file: the source file's name with `.go` replaced by `.md`, in the section directory. */
  function DocFile(mdDir: string, filePath: string): string
  {
    JoinPath(mdDir, TrimSuffix(Base(filePath), ".go") + ".md")
  }

  /** A source file `<name>.go` is documented in `<mdDir>/<name>.md`. */
  lemma DocFileName(mdDir: string, filePath: string, name: string)
    requires Trimmed(mdDir) && WalkableRoot(mdDir)
    requires Base(filePath) == name + ".go" && name != [] && name[0] != '/'
    ensures DocFile(mdDir, filePath) == mdDir + "/" + name + ".md"
  {
    assert TrimSuffix(name + ".go", ".go") == name;
    var file := name + ".md";
    assert file[|file| - 1] == 'd' && file[0] == name[0];
    JoinName(mdDir, file);
  }

  /** What `ExportConfigs` leaves on disk and returns, for the files on disk before it. */
  function Export(cfg: Config, groups: seq<Group>, filePath: string, rootPath: string, files: map<string, string>): Outcome
  {
    match Route(cfg.docPaths, filePath, rootPath)
    case Err(e) => Outcome(files, Err(e))
    case Ok(loc) =>
      match RenderGroups(SectionHeader, Renderer(cfg, Rel(rootPath, filePath)), groups)
      case Err(e) => Outcome(files, Err(e))
      case Ok(o) => Outcome(files[DocFile(loc.mdDir, filePath) := Unlines(o.lines)], Ok(o.groups))
  }

  /**
   * `ExportConfigs`: routes the file, renders a section per struct and a list
   * item per field, and writes the lines to the output file, replacing it.
   * Returns the groups with their `url:` defaults decoded.
   */
  method ExportConfigs(cfg: Config, groups: seq<Group>, filePath: string, rootPath: string, disk: Disk)
    returns (r: Result<seq<Group>, Error>)
    modifies disk
    ensures var out := Export(cfg, groups, filePath, rootPath, old(disk.files));
      disk.files == out.files && r == out.result
  {
    var docFileSuffix := Rel(rootPath, Dir(filePath));
    if docFileSuffix.None? {
      return Err(PathNotRelative);
    }
    var key := LongestPrefix(cfg.docPaths, docFileSuffix.value);
    var configName := Rel(key, docFileSuffix.value);
    if configName.None? {
      return Err(PathNotRelative);
    }
    var docsRoot := JoinPath(rootPath, DocPath(cfg.docPaths, key));
    var mdDir := JoinPath(docsRoot, configName.value);
    var sections := RenderSections(SectionHeader, Renderer(cfg, Rel(rootPath, filePath)), groups);
    if sections.Err? {
      return Err(sections.error);
    }
    var docFile := DocFile(mdDir, filePath);
    disk.files := disk.files[docFile := Unlines(sections.value.lines)];
    r := Ok(sections.value.groups);
  }

  /**
   * The output file is created afresh: what it held before has no influence on
   * what it holds afterwards, and no other file changes.
   */
  lemma ExportOverwrites(cfg: Config, groups: seq<Group>, filePath: string, rootPath: string,
                         files: map<string, string>, others: map<string, string>)
    requires Export(cfg, groups, filePath, rootPath, files).result.Ok?
    ensures var loc := Route(cfg.docPaths, filePath, rootPath).value;
      var doc := DocFile(loc.mdDir, filePath);
      var out := Export(cfg, groups, filePath, rootPath, files);
      var out' := Export(cfg, groups, filePath, rootPath, others);
      && out'.result == out.result
      && doc in out.files && out.files[doc] == out'.files[doc]
      && out.files == files[doc := out.files[doc]]
  {
  }

  /**
   * A successful export returns the groups in their order and with their names,
   * each field as decoding left it: the records the caller sees after the call.
   */
  lemma ExportDecodes(cfg: Config, groups: seq<Group>, filePath: string, rootPath: string, files: map<string, string>)
    ensures var out := Export(cfg, groups, filePath, rootPath, files);
      out.result.Ok? ==>
      && |out.result.value| == |groups|
      && forall i :: 0 <= i < |groups| ==>
           && out.result.value[i].name == groups[i].name
           && |out.result.value[i].fields| == |groups[i].fields|
           && forall j :: 0 <= j < |groups[i].fields| ==> out.result.value[i].fields[j] == Decode(groups[i].fields[j]).field
  {
    var out := Export(cfg, groups, filePath, rootPath, files);
    if out.result.Ok? {
      var render := Renderer(cfg, Rel(rootPath, filePath));
      RenderGroupsOk(SectionHeader, render, groups);
      RenderGroupsShape(SectionHeader, render, groups);
      forall i, j | 0 <= i < |groups| && 0 <= j < |groups[i].fields|
        ensures out.result.value[i].fields[j] == Decode(groups[i].fields[j]).field
      {
        assert render(groups[i].fields[j]) == RenderField(cfg, Rel(rootPath, filePath), groups[i].fields[j]);
      }
    }
  }

  /**
   * A successful export renders every struct, holds the groups in order with
   * their `url:` defaults decoded, and writes one line per struct and one per
   * field; it fails only where a link is configured but the source file is not
   * below the root path.
   */
  lemma ExportShape(cfg: Config, groups: seq<Group>, filePath: string, rootPath: string, files: map<string, string>)
    requires Route(cfg.docPaths, filePath, rootPath).Ok?
    requires cfg.referenceBase == "" || Rel(rootPath, filePath).Some?
    ensures var out := Export(cfg, groups, filePath, rootPath, files);
      && out.result.Ok?
      && |out.result.value| == |groups|
      && forall i :: 0 <= i < |groups| ==>
           && out.result.value[i].name == groups[i].name
           && |out.result.value[i].fields| == |groups[i].fields|
           && forall j :: 0 <= j < |groups[i].fields| ==> out.result.value[i].fields[j] == Decode(groups[i].fields[j]).field
  {
    var render := Renderer(cfg, Rel(rootPath, filePath));
    forall i | 0 <= i < |groups| ensures RenderFields(render, groups[i].fields).Ok? {
      forall j | 0 <= j < |groups[i].fields| ensures render(groups[i].fields[j]).Ok? {
        assert render(groups[i].fields[j]) == RenderField(cfg, Rel(rootPath, filePath), groups[i].fields[j]);
      }
    }
    RenderGroupsOk(SectionHeader, render, groups);
    RenderGroupsShape(SectionHeader, render, groups);
    forall i, j | 0 <= i < |groups| && 0 <= j < |groups[i].fields|
      ensures RenderFields(render, groups[i].fields).value.fields[j] == Decode(groups[i].fields[j]).field
    {
      assert render(groups[i].fields[j]) == RenderField(cfg, Rel(rootPath, filePath), groups[i].fields[j]);
    }
  }
}
