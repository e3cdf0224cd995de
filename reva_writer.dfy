/**
 * The older snapshot of the hierarchical "reva" driver
 * (`writer/drivers/reva/reva.go`): the same routing, walk and merge as the
 * exporter, but a `url:x` default becomes a Hugo `ref` link to `x`, and the
 * blocks carry no link to the source line.
 */
module RevaWriter {
  import opened Text
  import opened Wrappers
  import opened Paths
  import opened Records
  import opened TextFile
  import opened FileSystem
  import opened Routing
  import opened Sections
  import opened HugoIndex
  import opened Toml

  /** The driver's configuration (`config`). */
  datatype Config = Config(docPaths: map<string, string>)

  /** The example value of a `url:x` default: a quoted Markdown link to the Hugo page `x`. */
  function RefLink(x: string): string
  {
    "\"[" + x + "]({{< ref \"" + x + "\" >}})\""
  }

  /**
   * Decodes a default: `url:x` shows `x` as the default and a `ref` link to it
   * in the example, in the table nested under the field name; any other default
   * is shown unchanged in the configuration's own table.
   */
  function Decode(configName: string, f: FieldInfo): (r: Decoded)
    ensures r.pointer <==> HasPrefix(f.defaultValue, UrlPrefix)
    ensures r.pointer ==> UrlPrefix + r.field.defaultValue == f.defaultValue
    ensures !r.pointer ==> r.field == f
    ensures r.field == f.(defaultValue := r.field.defaultValue)
  {
    if HasPrefix(f.defaultValue, UrlPrefix) then
      var x := TrimPrefix(f.defaultValue, UrlPrefix);
      Decoded(f.(defaultValue := x), RefLink(x), TomlBase(configName) + "." + f.fieldName, true)
    else
      Decoded(f, f.defaultValue, TomlBase(configName), false)
  }

  /**
   * Encoding a target as `url:x` and decoding it gives back `x` as the default,
   * the `ref` link to `x` as the example value, and the table nested under the
   * field's name alone.
   */
  lemma DecodeReference(configName: string, f: FieldInfo, x: string)
    requires f.defaultValue == UrlPrefix + x
    ensures Decode(configName, f) == Decoded(f.(defaultValue := x), RefLink(x), TomlBase(configName) + "." + f.fieldName, true)
  {
    assert HasPrefix(f.defaultValue, UrlPrefix);
  }

  /** The lines of `configDefaultTemplate`, for defaults shown as they are. */
  function ScalarLines(f: FieldInfo, tomlPath: string, escaped: string): seq<string>
  {
    [ "{{% dir name=\"" + f.fieldName + "\" type=\"" + f.dataType + "\" default=" + f.defaultValue + " %}}",
      f.description,
      "{{< highlight toml >}}",
      "[" + tomlPath + "]",
      f.fieldName + " = " + escaped,
      "{{< /highlight >}}",
      "{{% /dir %}}" ]
  }

  /** The lines of `configPointerTemplate`, for `url:` defaults. */
  function PointerLines(f: FieldInfo, tomlPath: string, escaped: string): seq<string>
  {
    [ "{{% dir name=\"" + f.fieldName + "\" type=\"" + f.dataType + "\" default=\"" + f.defaultValue + "\" %}}",
      f.description,
      "{{< highlight toml >}}",
      "[" + tomlPath + "]",
      escaped,
      "{{< /highlight >}}",
      "{{% /dir %}}" ]
  }

  /**
   * The two templates differ only in the quoting of the default and in the
   * example line; neither carries anything but the description on its second
   * line.
   */
  lemma RenderModes(f: FieldInfo, tomlPath: string, escaped: string)
    ensures var s := ScalarLines(f, tomlPath, escaped);
      var p := PointerLines(f, tomlPath, escaped);
      && |s| == |p| == 7
      && (forall i :: 0 <= i < 7 && i != 0 && i != 4 ==> s[i] == p[i])
      && s[1] == f.description
      && HasSuffix(s[0], " default=" + f.defaultValue + " %}}")
      && HasSuffix(p[0], " default=\"" + f.defaultValue + "\" %}}")
      && s[4] == f.fieldName + " = " + p[4]
  {
    var s := ScalarLines(f, tomlPath, escaped);
    var p := PointerLines(f, tomlPath, escaped);
    assert s[0] == ("{{% dir name=\"" + f.fieldName + "\" type=\"" + f.dataType + "\"") + (" default=" + f.defaultValue + " %}}");
    assert p[0] == ("{{% dir name=\"" + f.fieldName + "\" type=\"" + f.dataType + "\"") + (" default=\"" + f.defaultValue + "\" %}}");
  }

  /** The rendered block of a decoded field: its template's lines, each ended by a newline. */
  function Block(d: Decoded): string
  {
    Unlines(if d.pointer then PointerLines(d.field, d.tomlPath, d.escaped)
            else ScalarLines(d.field, d.tomlPath, d.escaped))
  }

  /** A block whose parts hold no newline reads back as the seven lines of its template. */
  lemma BlockReadBack(d: Decoded)
    requires SingleLines(if d.pointer then PointerLines(d.field, d.tomlPath, d.escaped)
                         else ScalarLines(d.field, d.tomlPath, d.escaped))
    ensures Lines(Block(d)) == if d.pointer then PointerLines(d.field, d.tomlPath, d.escaped)
                               else ScalarLines(d.field, d.tomlPath, d.escaped)
  {
    RoundTrip(if d.pointer then PointerLines(d.field, d.tomlPath, d.escaped)
              else ScalarLines(d.field, d.tomlPath, d.escaped));
  }

  /** The header line of a struct's section, `# _struct: S_` and a newline. */
  function SectionHeader(name: string): string
  {
    "# _struct: " + name + "_\n"
  }

  /** One field: its default decoded and its block rendered; this snapshot has no failing field. */
  function RenderField(configName: string, f: FieldInfo): (r: Result<Rendered, Error>)
    ensures r.Ok? && r.value.field == Decode(configName, f).field
  {
    var d := Decode(configName, f);
    Ok(Rendered(Block(d), d.field))
  }

  /** The field renderer of one source file. */
  function Renderer(configName: string): FieldInfo -> Result<Rendered, Error>
  {
    f => RenderField(configName, f)
  }

  /** What `WriteConfigs` leaves on disk and returns, for the files on disk before it. */
  function Write(cfg: Config, groups: seq<Group>, filePath: string, rootPath: string, files: map<string, string>): Outcome
  {
    match Route(cfg.docPaths, filePath, rootPath)
    case Err(e) => Outcome(files, Err(e))
    case Ok(loc) => MergeOutcome(loc.docsRoot, loc.mdDir, files, RenderGroups(SectionHeader, Renderer(loc.configName), groups))
  }

  /**
   * `WriteConfigs`: routes the file, creates the missing index files, keeps the
   * index file's front matter and writes the rendered sections after it. Returns
   * the groups with their `url:` defaults decoded, as the caller sees them after
   * the call.
   */
  method WriteConfigs(cfg: Config, groups: seq<Group>, filePath: string, rootPath: string, disk: Disk)
    returns (r: Result<seq<Group>, Error>)
    modifies disk
    ensures var out := Write(cfg, groups, filePath, rootPath, old(disk.files));
      disk.files == out.files && r == out.result
  {
    var docFileSuffix := Rel(rootPath, Dir(filePath));
    if docFileSuffix.None? {
      return Err(PathNotRelative);
    }
    var key := LongestPrefix(cfg.docPaths, docFileSuffix.value);
    var configName := Rel(key, docFileSuffix.value);
    if configName.None? {
      return Err(PathNotRelative);
    }
    var docsRoot := JoinPath(rootPath, DocPath(cfg.docPaths, key));
    var mdDir := JoinPath(docsRoot, configName.value);
    r := MergeIndex(docsRoot, mdDir, SectionHeader, Renderer(configName.value), groups, disk);
  }

  /**
   * A routed write fails only where its walk never ends or its index file is
   * neither there nor created, which a root path other than "", `.` and `/`
   * rules out. A successful write decodes every `url:` default of every group
   * and touches nothing else: the groups keep their order, names and fields.
   */
  lemma WriteDecodes(cfg: Config, groups: seq<Group>, filePath: string, rootPath: string, files: map<string, string>)
    requires Route(cfg.docPaths, filePath, rootPath).Ok?
    ensures var out := Write(cfg, groups, filePath, rootPath, files);
      var loc := Route(cfg.docPaths, filePath, rootPath).value;
      && (out.result.Ok? <==> WalkEnds(loc.docsRoot, loc.mdDir) && (IndexPath(loc.mdDir) in files || HasPrefix(loc.mdDir, loc.docsRoot)))
      && (WalkableRoot(TrimSlashes(rootPath)) ==> out.result.Ok?)
    ensures var out := Write(cfg, groups, filePath, rootPath, files);
      var configName := Route(cfg.docPaths, filePath, rootPath).value.configName;
      out.result.Ok? ==>
      && |out.result.value| == |groups|
      && forall i :: 0 <= i < |groups| ==>
           && out.result.value[i].name == groups[i].name
           && |out.result.value[i].fields| == |groups[i].fields|
           && forall j :: 0 <= j < |groups[i].fields| ==>
                out.result.value[i].fields[j] == Decode(configName, groups[i].fields[j]).field
  {
    var loc := Route(cfg.docPaths, filePath, rootPath).value;
    var render := Renderer(loc.configName);
    forall i | 0 <= i < |groups| ensures RenderFields(render, groups[i].fields).Ok? {
      forall j | 0 <= j < |groups[i].fields| ensures render(groups[i].fields[j]).Ok? {
        assert render(groups[i].fields[j]) == RenderField(loc.configName, groups[i].fields[j]);
      }
    }
    RenderGroupsOk(SectionHeader, render, groups);
    RenderGroupsShape(SectionHeader, render, groups);
    forall i, j | 0 <= i < |groups| && 0 <= j < |groups[i].fields|
      ensures RenderFields(render, groups[i].fields).value.fields[j] == Decode(loc.configName, groups[i].fields[j]).field
    {
      assert render(groups[i].fields[j]) == RenderField(loc.configName, groups[i].fields[j]);
    }
    IndexAfterWalk(loc.docsRoot, loc.mdDir, files);
    if WalkableRoot(TrimSlashes(rootPath)) {
      RouteBelow(cfg.docPaths, filePath, rootPath);
      WalkableEnds(loc.docsRoot, loc.mdDir);
    }
  }

  /**
   * What a write puts after the front matter does not survive the next write:
   * once the section's index file has complete front matter, writing `groups2`
   * into the files a write of any `groups1` left gives what writing `groups2`
   * alone gives, since this snapshot renders every field. So the order in which
   * a run visits the structs leaves no trace in the next run.
   */
  lemma WriteReplaces(cfg: Config, groups1: seq<Group>, groups2: seq<Group>, filePath: string, rootPath: string,
                      files: map<string, string>)
    requires Route(cfg.docPaths, filePath, rootPath).Ok?
    requires var loc := Route(cfg.docPaths, filePath, rootPath).value;
      if IndexPath(loc.mdDir) in files then DelimiterCount(FrontMatter(Lines(files[IndexPath(loc.mdDir)]))) == 2
      else '\n' !in Base(loc.mdDir)
    ensures var first := Write(cfg, groups1, filePath, rootPath, files);
      Write(cfg, groups2, filePath, rootPath, first.files) == Write(cfg, groups2, filePath, rootPath, files)
  {
    var loc := Route(cfg.docPaths, filePath, rootPath).value;
    var render := Renderer(loc.configName);
    forall i | 0 <= i < |groups2| ensures RenderFields(render, groups2[i].fields).Ok? {
      forall j | 0 <= j < |groups2[i].fields| ensures render(groups2[i].fields[j]).Ok? {
        assert render(groups2[i].fields[j]) == RenderField(loc.configName, groups2[i].fields[j]);
      }
    }
    RenderGroupsOk(SectionHeader, render, groups2);
    CompleteAfterWalk(loc.docsRoot, loc.mdDir, files);
    MergeOutcomeReplaces(loc.docsRoot, loc.mdDir, files,
      RenderGroups(SectionHeader, render, groups1), RenderGroups(SectionHeader, render, groups2));
  }

  /** Writing the same groups again into the files a write produced changes nothing. */
  lemma WriteIdempotent(cfg: Config, groups: seq<Group>, filePath: string, rootPath: string, files: map<string, string>)
    requires Route(cfg.docPaths, filePath, rootPath).Ok?
    requires var loc := Route(cfg.docPaths, filePath, rootPath).value;
      if IndexPath(loc.mdDir) in files then DelimiterCount(FrontMatter(Lines(files[IndexPath(loc.mdDir)]))) == 2
      else '\n' !in Base(loc.mdDir)
    ensures var first := Write(cfg, groups, filePath, rootPath, files);
      Write(cfg, groups, filePath, rootPath, first.files) == first
  {
    WriteReplaces(cfg, groups, groups, filePath, rootPath, files);
  }
}
