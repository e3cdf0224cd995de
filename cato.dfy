/**
 * The run (`cato.go`): finds the configured driver, extracts the documented
 * fields of every listed source file, hands the files with documented structs
 * to the driver, and returns the records of those files by path.
 */
module Cato {
  import opened Wrappers
  import opened Paths
  import opened Records
  import opened FileSystem
  import opened Sections
  import opened Extraction
  import opened Registry
  import Routing
  import RevaExporter
  import MarkdownExporter

  /** The constructors the drivers register (`reva.New`, `markdown.New`). */
  datatype DriverKind = RevaDriver | MarkdownDriver

  /** A driver's section of the configuration, as its `config` struct decodes it. */
  datatype DriverSettings = DriverSettings(docPaths: map<string, string>, referenceBase: string)

  /** A constructed driver. */
  datatype Driver =
    | Reva(reva: RevaExporter.Config)
    | Markdown(markdown: MarkdownExporter.Config)

  /** The run's configuration (`CatoConfig`), which the run updates in place. */
  class CatoConfig {
    var customTag: string
    var driver: string
    var driverConfig: map<string, DriverSettings>

    constructor (customTag: string, driver: string, driverConfig: map<string, DriverSettings>)
      ensures this.customTag == customTag && this.driver == driver && this.driverConfig == driverConfig
    {
      this.customTag := customTag;
      this.driver := driver;
      this.driverConfig := driverConfig;
    }
  }

  /** The registrations the driver packages make when they load. */
  method LoadDrivers() returns (reg: Registry<DriverKind>)
    ensures fresh(reg)
    ensures reg.newFuncs == map["reva" := RevaDriver, "markdown" := MarkdownDriver]
  {
    reg := new Registry<DriverKind>();
    reg.Register("reva", RevaDriver);
    reg.Register("markdown", MarkdownDriver);
  }

  /** The settings handed to a driver's constructor: its section, or an empty one when the section is missing. */
  function SettingsFor(driverConfig: map<string, DriverSettings>, name: string): (s: DriverSettings)
    ensures name !in driverConfig ==> s.docPaths == map[] && s.referenceBase == ""
    ensures name in driverConfig ==> s == driverConfig[name]
  {
    if name in driverConfig then driverConfig[name] else DriverSettings(map[], "")
  }

  /**
   * `getDriver`: the registered constructor of the configured driver applied to
   * its settings, or nothing when no driver of that name is registered.
   */
  function GetDriver(drivers: map<string, DriverKind>, name: string, driverConfig: map<string, DriverSettings>): (r: Option<Driver>)
    ensures r.Some? <==> name in drivers
    ensures r.Some? ==> (r.value.Reva? <==> drivers[name] == RevaDriver)
    ensures r.Some? && r.value.Reva? ==>
      r.value.reva.docPaths == SettingsFor(driverConfig, name).docPaths
      && r.value.reva.referenceBase == SettingsFor(driverConfig, name).referenceBase
    ensures r.Some? && r.value.Markdown? ==>
      r.value.markdown.docPaths == SettingsFor(driverConfig, name).docPaths
      && r.value.markdown.referenceBase == SettingsFor(driverConfig, name).referenceBase
  {
    if name !in drivers then None
    else
      var s := SettingsFor(driverConfig, name);
      match drivers[name]
      case RevaDriver => Some(Reva(RevaExporter.Config(s.docPaths, s.referenceBase)))
      case MarkdownDriver => Some(Markdown(MarkdownExporter.Config(s.docPaths, s.referenceBase)))
  }

  /** One driver call, `ExportConfigs`, on the files on disk before it. */
  function RunDriver(d: Driver, groups: seq<Group>, filePath: string, rootPath: string, files: map<string, string>): Outcome
  {
    match d
    case Reva(cfg) => RevaExporter.Export(cfg, groups, filePath, rootPath, files)
    case Markdown(cfg) => MarkdownExporter.Export(cfg, groups, filePath, rootPath, files)
  }

  /** A field as a driver leaves it: its default decoded the way that driver decodes it. */
  function DecodedField(d: Driver, filePath: string, rootPath: string, f: FieldInfo): FieldInfo
  {
    match d
    case Reva(cfg) =>
      (match Routing.Route(cfg.docPaths, filePath, rootPath)
       case Ok(loc) => (match RevaExporter.Decode(loc.configName, f) case Ok(x) => x.field case Err(_) => f)
       case Err(_) => f)
    case Markdown(_) => MarkdownExporter.Decode(f).field
  }

  /** `out` is `groups` as driver `d` leaves them: same order, names and field counts, each field decoded. */
  predicate DecodedGroups(d: Driver, filePath: string, rootPath: string, groups: seq<Group>, out: seq<Group>)
  {
    && |out| == |groups|
    && forall i :: 0 <= i < |groups| ==>
         && out[i].name == groups[i].name
         && |out[i].fields| == |groups[i].fields|
         && forall j :: 0 <= j < |groups[i].fields| ==>
              out[i].fields[j] == DecodedField(d, filePath, rootPath, groups[i].fields[j])
  }

  /** Whatever driver runs, a successful call returns the groups it was given, decoded. */
  lemma RunDriverDecodes(d: Driver, groups: seq<Group>, filePath: string, rootPath: string, files: map<string, string>)
    ensures var out := RunDriver(d, groups, filePath, rootPath, files);
      out.result.Ok? ==> DecodedGroups(d, filePath, rootPath, groups, out.result.value)
  {
    match d
    case Reva(cfg) => RevaExporter.ExportDecodes(cfg, groups, filePath, rootPath, files);
    case Markdown(cfg) => MarkdownExporter.ExportDecodes(cfg, groups, filePath, rootPath, files);
  }

  /** The run's files on disk and its result: the records of each documented file, by path. */
  datatype RunOutcome = RunOutcome(files: map<string, string>, result: Result<map<string, seq<Group>>, Error>)

  /**
   * The loop of `GenerateDocumentation` over the listed files: each file's
   * groups are extracted; when there is a driver and the file has documented
   * structs, the driver exports them and the groups it leaves are recorded
   * under the file's path. The first error ends the run.
   */
  function Documented(rootPath: string, catoTag: string, sources: seq<SourceFile>, driver: Option<Driver>,
                      files: map<string, string>): RunOutcome
    decreases |sources|
  {
    if sources == [] then RunOutcome(files, Ok(map[]))
    else
      var prev := Documented(rootPath, catoTag, sources[..|sources| - 1], driver, files);
      Step(rootPath, catoTag, driver, prev, sources[|sources| - 1])
  }

  /**
   * One turn of the loop: after an error nothing more happens; otherwise the
   * file is parsed and, when there is a driver and it has documented structs,
   * exported and recorded.
   */
  function Step(rootPath: string, catoTag: string, driver: Option<Driver>, prev: RunOutcome, file: SourceFile): (r: RunOutcome)
    ensures prev.result.Err? ==> r == prev
    ensures prev.result.Ok? && FileConfigs(file, catoTag).Err? ==> r.result == Err(FileConfigs(file, catoTag).error)
    ensures r.result.Ok? ==> prev.result.Ok? && FileConfigs(file, catoTag).Ok?
    ensures r.result.Ok? ==>
      var exported := driver.Some? && |FileConfigs(file, catoTag).value| > 0;
      r.result.value.Keys == prev.result.value.Keys + (if exported then {file.path} else {})
      && (forall p :: p in prev.result.value && p != file.path ==> r.result.value[p] == prev.result.value[p])
    ensures prev.result.Ok? && FileConfigs(file, catoTag).Ok? ==>
      var configs := FileConfigs(file, catoTag).value;
      if driver.Some? && |configs| > 0 then
        var out := RunDriver(driver.value, configs, file.path, rootPath, prev.files);
        && r.files == out.files
        && (r.result.Ok? <==> out.result.Ok?)
        && (out.result.Ok? ==> r.result.value[file.path] == out.result.value)
        && (out.result.Err? ==> r.result == Err(out.result.error))
      else r == prev
    ensures driver.None? ==> r.files == prev.files
    ensures driver.None? && prev.result.Ok? && FileConfigs(file, catoTag).Ok? ==> r == prev
  {
    if prev.result.Err? then prev
    else
      match FileConfigs(file, catoTag)
      case Err(e) => RunOutcome(prev.files, Err(e))
      case Ok(configs) =>
        if driver.Some? && |configs| > 0 then
          var out := RunDriver(driver.value, configs, file.path, rootPath, prev.files);
          match out.result
          case Err(e) => RunOutcome(out.files, Err(e))
          case Ok(exported) => RunOutcome(out.files, Ok(prev.result.value[file.path := exported]))
        else prev
  }

  /** What `GenerateDocumentation` leaves on disk and returns, once the tag has its default. */
  function Generate(rootPath: string, catoTag: string, listing: Option<seq<SourceFile>>, driver: Option<Driver>,
                    files: map<string, string>): RunOutcome
  {
    match listing
    case None => RunOutcome(files, Err(ListingFailed))
    case Some(sources) => Documented(rootPath, catoTag, sources, driver, files)
  }

  /** The tag the run reads when none is configured. */
  function EffectiveTag(customTag: string): (tag: string)
    ensures customTag == "" ==> tag == "docs"
    ensures customTag != "" ==> tag == customTag
  {
    if customTag == "" then "docs" else customTag
  }

  /**
   * `GenerateDocumentation`: refuses an empty root path; gives the custom tag
   * its default in the configuration; lists the source files (`listing`, or
   * nothing when the listing failed); looks up the driver; then documents the
   * files one by one.
   */
  method GenerateDocumentation(rootPath: string, conf: CatoConfig, listing: Option<seq<SourceFile>>,
                               drivers: map<string, DriverKind>, disk: Disk)
    returns (r: Result<map<string, seq<Group>>, Error>)
    modifies conf, disk
    ensures rootPath == "" ==>
      r == Err(EmptyRootPath) && disk.files == old(disk.files) && conf.customTag == old(conf.customTag)
    ensures rootPath != "" ==> conf.customTag == EffectiveTag(old(conf.customTag))
    ensures conf.driver == old(conf.driver) && conf.driverConfig == old(conf.driverConfig)
    ensures rootPath != "" ==>
      var driver := GetDriver(drivers, conf.driver, conf.driverConfig);
      var out := Generate(rootPath, conf.customTag, listing, driver, old(disk.files));
      disk.files == out.files && r == out.result
  {
    if rootPath == "" {
      return Err(EmptyRootPath);
    }
    if conf.customTag == "" {
      conf.customTag := "docs";
    }
    if listing.None? {
      return Err(ListingFailed);
    }
    var exporterDriver := GetDriver(drivers, conf.driver, conf.driverConfig);
    r := DocumentFiles(rootPath, conf.customTag, listing.value, exporterDriver, disk);
  }

  /** The loop of `GenerateDocumentation` over the listed files. */
  method DocumentFiles(rootPath: string, catoTag: string, fileList: seq<SourceFile>, exporterDriver: Option<Driver>, disk: Disk)
    returns (r: Result<map<string, seq<Group>>, Error>)
    modifies disk
    ensures var out := Documented(rootPath, catoTag, fileList, exporterDriver, old(disk.files));
      disk.files == out.files && r == out.result
  {
    var filesConfigs: map<string, seq<Group>> := map[];
    var i := 0;
    while i < |fileList|
      invariant 0 <= i <= |fileList|
      invariant Documented(rootPath, catoTag, fileList[..i], exporterDriver, old(disk.files))
                == RunOutcome(disk.files, Ok(filesConfigs))
    {
      DocumentedSnoc(rootPath, catoTag, fileList, exporterDriver, old(disk.files), i);
      var next := DocumentFile(rootPath, catoTag, exporterDriver, filesConfigs, fileList[i], disk);
      if next.Err? {
        DocumentedErrExtends(rootPath, catoTag, fileList, exporterDriver, old(disk.files), i + 1);
        return Err(next.error);
      }
      filesConfigs := next.value;
      i := i + 1;
    }
    assert fileList[..i] == fileList;
    r := Ok(filesConfigs);
  }

  /** One turn of the loop of `GenerateDocumentation`, after the files in `filesConfigs`. */
  method DocumentFile(rootPath: string, catoTag: string, exporterDriver: Option<Driver>,
                      filesConfigs: map<string, seq<Group>>, file: SourceFile, disk: Disk)
    returns (r: Result<map<string, seq<Group>>, Error>)
    modifies disk
    ensures var out := Step(rootPath, catoTag, exporterDriver, RunOutcome(old(disk.files), Ok(filesConfigs)), file);
      disk.files == out.files && r == out.result
  {
    var configs := GetConfigsToDocument(file, catoTag);
    if configs.Err? {
      return Err(configs.error);
    }
    r := Ok(filesConfigs);
    if exporterDriver.Some? && |configs.value| > 0 {
      var exported := ExportWith(exporterDriver.value, configs.value, file.path, rootPath, disk);
      if exported.Err? {
        return Err(exported.error);
      }
      r := Ok(filesConfigs[file.path := exported.value]);
    }
  }

  /** `exporterDriver.ExportConfigs`: the call goes to the driver's own method. */
  method ExportWith(d: Driver, groups: seq<Group>, filePath: string, rootPath: string, disk: Disk)
    returns (r: Result<seq<Group>, Error>)
    modifies disk
    ensures var out := RunDriver(d, groups, filePath, rootPath, old(disk.files));
      disk.files == out.files && r == out.result
  {
    match d {
      case Reva(cfg) =>
        r := RevaExporter.ExportConfigs(cfg, groups, filePath, rootPath, disk);
      case Markdown(cfg) =>
        r := MarkdownExporter.ExportConfigs(cfg, groups, filePath, rootPath, disk);
    }
  }

  /** The run over the first `i + 1` files is one step after the run over the first `i`. */
  lemma DocumentedSnoc(rootPath: string, catoTag: string, sources: seq<SourceFile>, driver: Option<Driver>,
                       files: map<string, string>, i: nat)
    requires i < |sources|
    ensures Documented(rootPath, catoTag, sources[..i + 1], driver, files)
      == Step(rootPath, catoTag, driver, Documented(rootPath, catoTag, sources[..i], driver, files), sources[i])
  {
    assert sources[..i + 1][..i] == sources[..i];
    assert sources[..i + 1][i] == sources[i];
  }

  lemma {:induction false} DocumentedErrExtends(rootPath: string, catoTag: string, sources: seq<SourceFile>,
                                                driver: Option<Driver>, files: map<string, string>, k: nat)
    requires k <= |sources| && Documented(rootPath, catoTag, sources[..k], driver, files).result.Err?
    ensures Documented(rootPath, catoTag, sources, driver, files) == Documented(rootPath, catoTag, sources[..k], driver, files)
    decreases |sources|
  {
    if k < |sources| {
      assert sources[..|sources| - 1][..k] == sources[..k];
      DocumentedErrExtends(rootPath, catoTag, sources[..|sources| - 1], driver, files, k);
    } else {
      assert sources[..k] == sources;
    }
  }

  /**
   * Without a driver the run writes nothing and records nothing; it fails
   * exactly when some listed file cannot be parsed.
   */
  lemma {:induction false} DocumentedWithoutDriver(rootPath: string, catoTag: string, sources: seq<SourceFile>,
                                                   files: map<string, string>)
    ensures var out := Documented(rootPath, catoTag, sources, None, files);
      && out.files == files
      && (out.result.Ok? <==> forall i :: 0 <= i < |sources| ==> FileConfigs(sources[i], catoTag).Ok?)
      && (out.result.Ok? ==> out.result.value == map[])
    decreases |sources|
  {
    if sources != [] {
      var init := sources[..|sources| - 1];
      DocumentedWithoutDriver(rootPath, catoTag, init, files);
      assert forall i :: 0 <= i < |init| ==> init[i] == sources[i];
    }
  }

  /** A successful run parsed every listed file. */
  lemma {:induction false} DocumentedParsed(rootPath: string, catoTag: string, sources: seq<SourceFile>,
                                            driver: Option<Driver>, files: map<string, string>)
    requires Documented(rootPath, catoTag, sources, driver, files).result.Ok?
    ensures forall i :: 0 <= i < |sources| ==> FileConfigs(sources[i], catoTag).Ok?
    decreases |sources|
  {
    if sources != [] {
      var init := sources[..|sources| - 1];
      DocumentedParsed(rootPath, catoTag, init, driver, files);
      assert forall i :: 0 <= i < |init| ==> init[i] == sources[i];
    }
  }

  /** Every path a successful run records is a listed file with documented structs, and there is a driver. */
  lemma {:induction false} DocumentedSound(rootPath: string, catoTag: string, sources: seq<SourceFile>,
                                           driver: Option<Driver>, files: map<string, string>)
    requires Documented(rootPath, catoTag, sources, driver, files).result.Ok?
    ensures var recorded := Documented(rootPath, catoTag, sources, driver, files).result.value;
      forall p :: p in recorded ==> driver.Some? && exists i :: Documents(sources, i, p, catoTag)
    decreases |sources|
  {
    if sources != [] {
      var n := |sources| - 1;
      var init := sources[..n];
      DocumentedSound(rootPath, catoTag, init, driver, files);
      var before := Documented(rootPath, catoTag, init, driver, files).result.value;
      var recorded := Documented(rootPath, catoTag, sources, driver, files).result.value;
      forall p | p in recorded
        ensures driver.Some? && exists i :: Documents(sources, i, p, catoTag)
      {
        if p in before {
          var i :| Documents(init, i, p, catoTag);
          assert sources[i] == init[i];
          assert Documents(sources, i, p, catoTag);
        } else {
          assert Documents(sources, n, p, catoTag);
        }
      }
    }
  }

  /** The listed file at `i` has path `p` and documented structs. */
  predicate Documents(sources: seq<SourceFile>, i: int, p: string, catoTag: string)
  {
    0 <= i < |sources| && sources[i].path == p
    && FileConfigs(sources[i], catoTag).Ok? && |FileConfigs(sources[i], catoTag).value| > 0
  }

  /** The listed file at `i` is the last one with path `p` that has documented structs. */
  predicate LastDocuments(sources: seq<SourceFile>, i: int, p: string, catoTag: string)
  {
    Documents(sources, i, p, catoTag) && forall k :: i < k < |sources| ==> !Documents(sources, k, p, catoTag)
  }

  /**
   * The groups `g` recorded under `p` are what driver `d` left of the groups of
   * the last listed file of path `p` with documented structs.
   */
  predicate RecordedFrom(d: Driver, rootPath: string, catoTag: string, sources: seq<SourceFile>, p: string, g: seq<Group>)
  {
    exists i :: 0 <= i < |sources| && LastDocuments(sources, i, p, catoTag) && DecodedGroups(d, p, rootPath, FileConfigs(sources[i], catoTag).value, g)
  }

  /**
   * A successful run records under each path the records the driver left for the
   * last listed file of that path with documented structs: that file's groups in
   * their order, with their names and field counts, each default decoded.
   */
  lemma {:induction false} DocumentedRecords(rootPath: string, catoTag: string, sources: seq<SourceFile>,
                                             driver: Option<Driver>, files: map<string, string>)
    requires Documented(rootPath, catoTag, sources, driver, files).result.Ok?
    ensures var recorded := Documented(rootPath, catoTag, sources, driver, files).result.value;
      forall p :: p in recorded ==> driver.Some? && RecordedFrom(driver.value, rootPath, catoTag, sources, p, recorded[p])
    decreases |sources|
  {
    if sources != [] {
      var n := |sources| - 1;
      var init := sources[..n];
      DocumentedRecords(rootPath, catoTag, init, driver, files);
      assert sources == init + [sources[n]];
      RecordsStep(rootPath, catoTag, driver, init, Documented(rootPath, catoTag, init, driver, files), sources[n]);
    }
  }

  /** One turn of the run keeps every recorded path recorded from its last documenting file. */
  lemma RecordsStep(rootPath: string, catoTag: string, driver: Option<Driver>, init: seq<SourceFile>,
                    prev: RunOutcome, file: SourceFile)
    requires prev.result.Ok?
    requires forall p :: p in prev.result.value ==>
      driver.Some? && RecordedFrom(driver.value, rootPath, catoTag, init, p, prev.result.value[p])
    requires Step(rootPath, catoTag, driver, prev, file).result.Ok?
    ensures var recorded := Step(rootPath, catoTag, driver, prev, file).result.value;
      forall p :: p in recorded ==> driver.Some? && RecordedFrom(driver.value, rootPath, catoTag, init + [file], p, recorded[p])
  {
    var before := prev.result.value;
    var recorded := Step(rootPath, catoTag, driver, prev, file).result.value;
    var sources := init + [file];
    forall p | p in recorded
      ensures driver.Some? && RecordedFrom(driver.value, rootPath, catoTag, sources, p, recorded[p])
    {
      if driver.Some? && Documents(sources, |init|, p, catoTag) {
        var configs := FileConfigs(file, catoTag).value;
        RunDriverDecodes(driver.value, configs, p, rootPath, prev.files);
        RecordedLast(driver.value, rootPath, catoTag, init, file, p, recorded[p]);
      } else {
        assert p in before && recorded[p] == before[p];
        RecordedExtends(driver.value, rootPath, catoTag, init, file, p, before[p]);
      }
    }
  }

  /** The groups the driver left for the newest file are recorded from it. */
  lemma RecordedLast(d: Driver, rootPath: string, catoTag: string, init: seq<SourceFile>, file: SourceFile,
                     p: string, g: seq<Group>)
    requires Documents(init + [file], |init|, p, catoTag)
    requires DecodedGroups(d, p, rootPath, FileConfigs(file, catoTag).value, g)
    ensures RecordedFrom(d, rootPath, catoTag, init + [file], p, g)
  {
    assert LastDocuments(init + [file], |init|, p, catoTag);
  }

  /** A file that documents nothing under `p` leaves what is recorded under `p` as it was recorded. */
  lemma RecordedExtends(d: Driver, rootPath: string, catoTag: string, init: seq<SourceFile>, file: SourceFile,
                        p: string, g: seq<Group>)
    requires RecordedFrom(d, rootPath, catoTag, init, p, g)
    requires !Documents(init + [file], |init|, p, catoTag)
    ensures RecordedFrom(d, rootPath, catoTag, init + [file], p, g)
  {
    var sources := init + [file];
    var i :| 0 <= i < |init| && LastDocuments(init, i, p, catoTag) && DecodedGroups(d, p, rootPath, FileConfigs(init[i], catoTag).value, g);
    assert sources[i] == init[i];
    forall k | i < k < |sources| ensures !Documents(sources, k, p, catoTag) {
      if k < |init| { assert sources[k] == init[k]; assert !Documents(init, k, p, catoTag); }
    }
    assert LastDocuments(sources, i, p, catoTag);
  }

  /** With a driver, a successful run records every listed file that has documented structs. */
  lemma {:induction false} DocumentedComplete(rootPath: string, catoTag: string, sources: seq<SourceFile>,
                                              driver: Option<Driver>, files: map<string, string>)
    requires driver.Some?
    requires Documented(rootPath, catoTag, sources, driver, files).result.Ok?
    ensures var recorded := Documented(rootPath, catoTag, sources, driver, files).result.value;
      forall i :: 0 <= i < |sources| && Documents(sources, i, sources[i].path, catoTag) ==> sources[i].path in recorded
    decreases |sources|
  {
    if sources != [] {
      var n := |sources| - 1;
      var init := sources[..n];
      DocumentedComplete(rootPath, catoTag, init, driver, files);
      var recorded := Documented(rootPath, catoTag, sources, driver, files).result.value;
      forall i | 0 <= i < |sources| && Documents(sources, i, sources[i].path, catoTag)
        ensures sources[i].path in recorded
      {
        if i < n {
          assert init[i] == sources[i];
          assert Documents(init, i, init[i].path, catoTag);
        }
      }
    }
  }
}
