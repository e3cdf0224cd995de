/**
 * The hierarchical "reva" exporter (`exporter/drivers/reva/reva.go`): routes a
 * source file to a section directory of a Hugo tree, decodes `url:` defaults,
 * renders each field as a `dir` shortcode with a TOML example and an optional
 * link to the source line, and merges the result into the section's index file.
 */
module RevaExporter {
  import opened Text
  import opened Wrappers
  import opened Paths
  import opened Records
  import opened TextFile
  import opened FileSystem
  import opened Routing
  import opened Sections
  import opened HugoIndex
  import opened Toml
  import opened SourceLinks

  /** The driver's configuration (`config`). */
  datatype Config = Config(docPaths: map<string, string>, referenceBase: string)

  /**
   * Decodes a default: `url:a:b` shows `a` as the default, `b` in the example,
   * and nests the table under the field name and `a`; any other default is shown
   * unchanged in the configuration's own table. A `url:` default without a
   * second colon is an error (the source indexes past the end of its split).
   */
  function Decode(configName: string, f: FieldInfo): (r: Result<Decoded, Error>)
    ensures r.Err? <==> HasPrefix(f.defaultValue, UrlPrefix) && ':' !in f.defaultValue[|UrlPrefix|..]
    ensures r.Err? ==> r.error == MalformedReference(f.defaultValue)
    ensures r.Ok? ==> (r.value.pointer <==> HasPrefix(f.defaultValue, UrlPrefix))
    ensures r.Ok? ==> r.value.field == f.(defaultValue := r.value.field.defaultValue)
  {
    if HasPrefix(f.defaultValue, UrlPrefix) then
      var rest := f.defaultValue[|UrlPrefix|..];
      var a := Before(rest, ':');
      if |a| == |rest| then Err(MalformedReference(f.defaultValue))
      else Ok(Decoded(f.(defaultValue := a), rest[|a| + 1..], TomlBase(configName) + "." + f.fieldName + "." + a, true))
    else
      Ok(Decoded(f, f.defaultValue, TomlBase(configName), false))
  }

  /** A reference default `url:a:b` decodes to display `a`, example value `b` and the table nested under `a`. */
  lemma DecodeReference(configName: string, f: FieldInfo, a: string, b: string)
    requires ':' !in a && f.defaultValue == UrlPrefix + a + ":" + b
    ensures Decode(configName, f) ==
      Ok(Decoded(f.(defaultValue := a), b, TomlBase(configName) + "." + f.fieldName + "." + a, true))
  {
    var rest := f.defaultValue[|UrlPrefix|..];
    assert rest == a + ":" + b;
    BeforeOf(a, b, ':');
    assert rest[|a| + 1..] == b;
  }

  /** Text before a separator that does not occur in it. */
  lemma {:induction false} BeforeOf(a: string, b: string, sep: char)
    requires sep !in a
    ensures Before(a + [sep] + b, sep) == a
  {
    if a != [] {
      assert (a + [sep] + b)[1..] == a[1..] + [sep] + b;
      BeforeOf(a[1..], b, sep);
    }
  }

  /** Any other default is shown as it is, in the configuration's own table. */
  lemma DecodePlain(configName: string, f: FieldInfo)
    requires !HasPrefix(f.defaultValue, UrlPrefix)
    ensures Decode(configName, f) == Ok(Decoded(f, f.defaultValue, TomlBase(configName), false))
  {
  }

  /** The lines of `configDefaultTemplate`, for defaults shown as they are. */
  function ScalarLines(f: FieldInfo, ref: string, tomlPath: string, escaped: string): seq<string>
  {
    [ "{{% dir name=\"" + f.fieldName + "\" type=\"" + f.dataType + "\" default=" + f.defaultValue + " %}}",
      f.description + " " + ref,
      "{{< highlight toml >}}",
      "[" + tomlPath + "]",
      f.fieldName + " = " + escaped,
      "{{< /highlight >}}",
      "{{% /dir %}}" ]
  }

  /** The lines of `configPointerTemplate`, for `url:` defaults. */
  function PointerLines(f: FieldInfo, ref: string, tomlPath: string, escaped: string): seq<string>
  {
    [ "{{% dir name=\"" + f.fieldName + "\" type=\"" + f.dataType + "\" default=\"" + f.defaultValue + "\" %}}",
      f.description + " " + ref,
      "{{< highlight toml >}}",
      "[" + tomlPath + "]",
      escaped,
      "{{< /highlight >}}",
      "{{% /dir %}}" ]
  }

  /**
   * The two templates differ only in the opening shortcode, which quotes the
   * default in the pointer form, and in the example line, which is the bare
   * value in the pointer form and `<name> = <value>` otherwise.
   */
  lemma RenderModes(f: FieldInfo, ref: string, tomlPath: string, escaped: string)
    ensures var s := ScalarLines(f, ref, tomlPath, escaped);
      var p := PointerLines(f, ref, tomlPath, escaped);
      && |s| == |p| == 7
      && (forall i :: 0 <= i < 7 && i != 0 && i != 4 ==> s[i] == p[i])
      && HasSuffix(s[0], " default=" + f.defaultValue + " %}}")
      && HasSuffix(p[0], " default=\"" + f.defaultValue + "\" %}}")
      && s[4] == f.fieldName + " = " + p[4]
  {
    var s := ScalarLines(f, ref, tomlPath, escaped);
    var p := PointerLines(f, ref, tomlPath, escaped);
    assert s[0] == ("{{% dir name=\"" + f.fieldName + "\" type=\"" + f.dataType + "\"") + (" default=" + f.defaultValue + " %}}");
    assert p[0] == ("{{% dir name=\"" + f.fieldName + "\" type=\"" + f.dataType + "\"") + (" default=\"" + f.defaultValue + "\" %}}");
  }

  /** The rendered block of a decoded field: its template's lines, each ended by a newline. */
  function Block(d: Decoded, ref: string): string
  {
    Unlines(if d.pointer then PointerLines(d.field, ref, d.tomlPath, d.escaped)
            else ScalarLines(d.field, ref, d.tomlPath, d.escaped))
  }

  /** A block whose parts hold no newline reads back as the seven lines of its template. */
  lemma BlockReadBack(d: Decoded, ref: string)
    requires SingleLines(if d.pointer then PointerLines(d.field, ref, d.tomlPath, d.escaped)
                         else ScalarLines(d.field, ref, d.tomlPath, d.escaped))
    ensures Lines(Block(d, ref)) == if d.pointer then PointerLines(d.field, ref, d.tomlPath, d.escaped)
                                    else ScalarLines(d.field, ref, d.tomlPath, d.escaped)
  {
    RoundTrip(if d.pointer then PointerLines(d.field, ref, d.tomlPath, d.escaped)
              else ScalarLines(d.field, ref, d.tomlPath, d.escaped));
  }

  /** The header line of a struct's section, `# _struct: S_` and a newline. */
  function SectionHeader(name: string): string
  {
    "# _struct: " + name + "_\n"
  }

  /** One field: its default decoded, its link built, its block rendered. */
  function RenderField(cfg: Config, configName: string, reference: Option<string>, f: FieldInfo): (r: Result<Rendered, Error>)
    ensures r.Ok? <==> Decode(configName, f).Ok? && RefURL(cfg.referenceBase, reference, f.lineNumber).Ok?
    ensures r.Ok? ==> r.value.field == Decode(configName, f).value.field
  {
    match Decode(configName, f)
    case Err(e) => Err(e)
    case Ok(d) =>
      match RefURL(cfg.referenceBase, reference, f.lineNumber)
      case Err(e) => Err(e)
      case Ok(ref) => Ok(Rendered(Block(d, ref), d.field))
  }

  /** The field renderer of one source file. */
  function Renderer(cfg: Config, configName: string, reference: Option<string>): FieldInfo -> Result<Rendered, Error>
  {
    f => RenderField(cfg, configName, reference, f)
  }

  /** What `ExportConfigs` leaves on disk and returns, for the files on disk before it. */
  function Export(cfg: Config, groups: seq<Group>, filePath: string, rootPath: string, files: map<string, string>): Outcome
  {
    match Route(cfg.docPaths, filePath, rootPath)
    case Err(e) => Outcome(files, Err(e))
    case Ok(loc) => MergeOutcome(loc.docsRoot, loc.mdDir, files, RenderedSections(cfg, groups, filePath, rootPath, loc))
  }

  /** The struct sections rendered for a routed source file. */
  function RenderedSections(cfg: Config, groups: seq<Group>, filePath: string, rootPath: string, loc: Location): Result<Output, Error>
  {
    RenderGroups(SectionHeader, Renderer(cfg, loc.configName, Rel(rootPath, filePath)), groups)
  }

  /**
   * `ExportConfigs`: routes the file, creates the missing index files, keeps the
   * index file's front matter and writes the rendered sections after it. Returns
   * the groups with their `url:` defaults decoded, as the caller sees them after
   * the call.
   */
  method ExportConfigs(cfg: Config, groups: seq<Group>, filePath: string, rootPath: string, disk: Disk)
    returns (r: Result<seq<Group>, Error>)
    modifies disk
    ensures var out := Export(cfg, groups, filePath, rootPath, old(disk.files));
      disk.files == out.files && r == out.result
  {
    var docFileSuffix := Rel(rootPath, Dir(filePath));
    if docFileSuffix.None? {
      return Err(PathNotRelative);
    }
    var key := LongestPrefix(cfg.docPaths, docFileSuffix.value);
    var configName := Rel(key, docFileSuffix.value);
    if configName.None? {
      return Err(PathNotRelative);
    }
    var docsRoot := JoinPath(rootPath, DocPath(cfg.docPaths, key));
    var mdDir := JoinPath(docsRoot, configName.value);
    var render := Renderer(cfg, configName.value, Rel(rootPath, filePath));
    r := MergeIndex(docsRoot, mdDir, SectionHeader, render, groups, disk);
  }

  /**
   * A successful export returns the groups in their order and with their names,
   * each field as decoding left it: the records the caller sees after the call.
   */
  lemma ExportDecodes(cfg: Config, groups: seq<Group>, filePath: string, rootPath: string, files: map<string, string>)
    ensures var out := Export(cfg, groups, filePath, rootPath, files);
      out.result.Ok? ==>
      && Route(cfg.docPaths, filePath, rootPath).Ok?
      && |out.result.value| == |groups|
      && forall i :: 0 <= i < |groups| ==>
           && out.result.value[i].name == groups[i].name
           && |out.result.value[i].fields| == |groups[i].fields|
           && forall j :: 0 <= j < |groups[i].fields| ==>
                var d := Decode(Route(cfg.docPaths, filePath, rootPath).value.configName, groups[i].fields[j]);
                d.Ok? && out.result.value[i].fields[j] == d.value.field
  {
    var out := Export(cfg, groups, filePath, rootPath, files);
    if out.result.Ok? {
      var loc := Route(cfg.docPaths, filePath, rootPath).value;
      var render := Renderer(cfg, loc.configName, Rel(rootPath, filePath));
      var sections := RenderedSections(cfg, groups, filePath, rootPath, loc);
      assert sections.Ok? && out.result.value == sections.value.groups;
      RenderGroupsOk(SectionHeader, render, groups);
      RenderGroupsShape(SectionHeader, render, groups);
      forall i, j | 0 <= i < |groups| && 0 <= j < |groups[i].fields|
        ensures Decode(loc.configName, groups[i].fields[j]).Ok?
        ensures out.result.value[i].fields[j] == Decode(loc.configName, groups[i].fields[j]).value.field
      {
        assert render(groups[i].fields[j]) == RenderField(cfg, loc.configName, Rel(rootPath, filePath), groups[i].fields[j]);
      }
    }
  }

  /**
   * What an export writes after the front matter does not survive the next
   * export: once the section's index file has complete front matter (it was
   * there with both delimiters, or the walk creates it), exporting `groups2`
   * into the files an export of `groups1` left gives what exporting `groups2`
   * alone gives, unless `groups1` rendered and `groups2` did not. So the order
   * in which a run visits the structs leaves no trace in the next run.
   */
  lemma ExportReplaces(cfg: Config, groups1: seq<Group>, groups2: seq<Group>, filePath: string, rootPath: string,
                       files: map<string, string>)
    requires Route(cfg.docPaths, filePath, rootPath).Ok?
    requires var loc := Route(cfg.docPaths, filePath, rootPath).value;
      if IndexPath(loc.mdDir) in files then DelimiterCount(FrontMatter(Lines(files[IndexPath(loc.mdDir)]))) == 2
      else '\n' !in Base(loc.mdDir)
    requires var loc := Route(cfg.docPaths, filePath, rootPath).value;
      RenderedSections(cfg, groups1, filePath, rootPath, loc).Err? || RenderedSections(cfg, groups2, filePath, rootPath, loc).Ok?
    ensures var first := Export(cfg, groups1, filePath, rootPath, files);
      Export(cfg, groups2, filePath, rootPath, first.files) == Export(cfg, groups2, filePath, rootPath, files)
  {
    var loc := Route(cfg.docPaths, filePath, rootPath).value;
    CompleteAfterWalk(loc.docsRoot, loc.mdDir, files);
    MergeOutcomeReplaces(loc.docsRoot, loc.mdDir, files,
      RenderedSections(cfg, groups1, filePath, rootPath, loc), RenderedSections(cfg, groups2, filePath, rootPath, loc));
  }

  /** Exporting the same groups again into the files an export wrote changes nothing. */
  lemma ExportIdempotent(cfg: Config, groups: seq<Group>, filePath: string, rootPath: string, files: map<string, string>)
    requires Route(cfg.docPaths, filePath, rootPath).Ok?
    requires var loc := Route(cfg.docPaths, filePath, rootPath).value;
      if IndexPath(loc.mdDir) in files then DelimiterCount(FrontMatter(Lines(files[IndexPath(loc.mdDir)]))) == 2
      else '\n' !in Base(loc.mdDir)
    ensures var first := Export(cfg, groups, filePath, rootPath, files);
      Export(cfg, groups, filePath, rootPath, first.files) == first
  {
    ExportReplaces(cfg, groups, groups, filePath, rootPath, files);
  }
}
