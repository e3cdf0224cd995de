# cato — a verified model of the documentation generator

cato reads the Go source files below a root path. For every field of a struct that
carries the configured annotation tag (`docs` by default), it builds a record:
the field's name, type, default value, description and line number. The struct
tags (`xml`, `mapstructure`, `json`), the field identifier, the doc comment and
the `;`-separated annotation (`default`, `default;description` or
`name;default;description`) supply the parts. The configured driver then writes
the records out as documentation:

- the hierarchical "reva" exporter builds a Hugo tree. It routes each source
  file to a section directory, creates the missing `_index.md` files on the way
  up with a front-matter header, keeps the front matter of the section's index
  file, and writes a `dir` shortcode with a TOML example after it for every
  field. A `url:a:b` default becomes a nested table;
- an older snapshot of the same driver does the same, but turns `url:x` into a
  Hugo `ref` link;
- the flat "markdown" exporter writes one Markdown list per source file.

The run returns the records of every documented file, by path. The `url:`
defaults in those records are rewritten as the driver left them.

The model is written in Dafny:

| file | what it holds |
|---|---|
| `extraction.dfy` | the extraction: line-start table, line lookup, field names from tags, descriptions, the annotation grammar, per-struct and per-file records |
| `cato.dfy` | the run: driver registration and lookup, `GenerateDocumentation` with its configuration object updated in place |
| `reva_exporter.dfy`, `reva_writer.dfy`, `markdown_exporter.dfy` | the three drivers, each as a specification function of the files on disk and a method on a mutable `Disk` proved equal to it |
| `routing.dfy`, `hugo_index.dfy`, `sections.dfy`, `toml.dfy`, `links.dfy` | what the drivers share: longest-prefix routing, the index-file walk and front-matter merge, section rendering, TOML tables, source links |
| `registry.dfy` | the driver registry |
| `text.dfy`, `lines.dfy`, `paths.dfy`, `decimal.dfy` | the Go library behaviour the core relies on: `strings`, line scanning and `Fprintln`, `path`, `%d` |
| `records.dfy`, `filesystem.dfy`, `wrappers.dfy` | the records and errors, the disk, and `Option`/`Result` |

Loops of the source are methods with loop invariants. Each is proved equal to a
recursive specification function, and the properties are proved about that
function.

## Model

| member | source | states |
|---|---|---|
| Extraction.LineStarts | cato.go:58-64 | the table starts at position 1, has one entry more than there are lines, and each entry is the previous one plus that line's length and its newline |
| Extraction.LineStartsIncreasing | cato.go:58-64 | the line-start table is strictly increasing |
| Extraction.Climb | cato.go:58-64 | an earlier entry of the line-start table is smaller than any later one |
| Extraction.LineInitialPositions | cato.go:51-69 | the running character count produces exactly the line-start table |
| Extraction.LineIndex | cato.go:71-79 | the index found is the least whose entry is at or after the position; nothing is found exactly when every entry is before it |
| Extraction.GetLineNumber | cato.go:71-79 | returns the least index whose entry is at or after the position; fails with an out-of-range error exactly when the position is beyond every entry |
| Extraction.LineOfPosition | cato.go:139 | the first character of line k (0-based) maps to k; every later character of that line and its newline map to k + 1 |
| Extraction.TagNamePriority | cato.go:98-103 | the name comes from `json` if set, else from `mapstructure`, else from `xml`, and is the text before the first comma |
| Extraction.NameFromTags | cato.go:98-103 | the loop over the named tags computes the priority name above |
| Extraction.CleanComment | cato.go:112-115 | a cleaned comment line is normal: words separated by single spaces, with no leading or trailing space |
| Extraction.Describe | cato.go:108-119 | the description is the cleaned comment lines joined by spaces |
| Extraction.GrammarCases | cato.go:121-133 | with no `;` the annotation is the default; with one, default and description; with two, name, default and description (rejoining them with `;` gives the annotation back, and none holds a `;`); with more, the default is empty and the fallbacks stay |
| Extraction.FieldRecordShape | cato.go:85-150 | a documented field's record has the annotation's name and description, the printed type, the default quoted exactly when the type is `string`, and the line its position falls in |
| Extraction.FieldConfig | cato.go:85-150 | the statements for one field give exactly the field's record: none without an annotation, `MissingFieldName` for an unnamed embedded field that no tag names, the line lookup's error, or the record whose shape `FieldRecordShape` states |
| Extraction.StructRecordsTagged | cato.go:84-155 | a struct's records correspond one to one, in order, to its fields with a non-empty annotation |
| Extraction.StructRecordsErrExtends | cato.go:139-142 | once a field fails, the struct fails with that error |
| Extraction.ParseStruct | cato.go:81-156 | the loop over the fields returns the struct's records, or the first field's error |
| Extraction.StructGroups | cato.go:186-194 | the groups carry distinct struct names and none is empty |
| Extraction.StructGroupsComplete | cato.go:186-194 | a struct with at least one record has a group of its name |
| Extraction.StructGroupsSound | cato.go:186-194 | every group holds the records of a struct of that name |
| Extraction.PutGroup | cato.go:192 | storing a struct's records makes a group of its name present |
| Extraction.KeepsGroup | cato.go:186-194 | storing a struct's records, when it has any, keeps every struct name already stored |
| Extraction.StructGroupsErrExtends | cato.go:187-190 | once a struct fails, the file fails with that error |
| Extraction.GetConfigsToDocument | cato.go:158-196 | a file that does not parse is an error; otherwise the loop over the structs returns the file's groups |
| Records.Put | cato.go:192 | storing under a struct name keeps names distinct, makes the new entry the only one of that name, keeps every other entry, and adds an entry only for a new name |
| Cato.LoadDrivers | exporter/drivers/reva/reva.go:47-49 | after loading, the registry maps `reva` and `markdown` to their constructors and holds nothing else |
| Cato.SettingsFor | cato.go:200 | a driver gets its own section of the driver configuration, or empty settings when that section is missing |
| Cato.GetDriver | cato.go:198-203 | a driver exists exactly when its name is registered; it is of the registered kind and built from that driver's settings |
| Cato.EffectiveTag | cato.go:211-213 | an empty custom tag becomes `docs`; any other tag is kept |
| Cato.Step | cato.go:228-240 | after an error nothing changes; a parse error ends the run; with a driver and documented structs, the files and the success of the turn are the driver call's, and the records stored under the file's path are the groups the driver returned; otherwise nothing changes; the recorded paths grow by the file's path exactly in that case |
| Cato.GenerateDocumentation | cato.go:205-243 | an empty root path is an error and changes nothing; otherwise the tag gets its default in the configuration, and the files on disk and the result are those of the run over the listed files (a failed listing is an error) |
| Cato.DocumentFiles | cato.go:228-241 | the loop over the listed files leaves the disk and returns the result of the run over all of them |
| Cato.DocumentFile | cato.go:228-240 | one turn of that loop parses the file and, with a driver and documented structs, exports and records it: one step of the run |
| Cato.ExportWith | cato.go:234-235 | the driver call has the effect and the result of the chosen driver's own `ExportConfigs` |
| Cato.DocumentedErrExtends | cato.go:228-238 | once a file fails, the run fails with that error |
| Cato.DocumentedWithoutDriver | cato.go:220-241 | without a driver the run writes nothing and records nothing, and fails exactly when some file does not parse |
| Cato.DocumentedParsed | cato.go:228-232 | a successful run parsed every listed file |
| Cato.DocumentedSound | cato.go:234-240 | every recorded path is a listed file with documented structs, and a driver was found |
| Cato.DocumentedComplete | cato.go:234-240 | with a driver, every listed file with documented structs is recorded |
| Cato.DocumentedRecords | cato.go:227-242 | every recorded path holds the groups of the last listed file of that path with documented structs, as the driver left them: same order, names and field counts, each default decoded by that driver |
| Cato.RunDriverDecodes | cato.go:234-235 | a successful driver call returns the groups it was given with their order, names and field counts, each field decoded the way that driver decodes it |
| Registry.Registry.Register | writer/drivers/registry/registry.go:13-15 | the name maps to the new constructor, the set of names grows by that name only, and every other entry is kept |
| Registry.LastRegistrationWins | writer/drivers/registry/registry.go:13-15 | registering a name twice leaves the later constructor |
| Routing.MatchUpToIsLongest | exporter/drivers/reva/reva.go:152-157 | scanning prefix lengths downwards finds the longest key that is a prefix, or the empty string when none is |
| Routing.LongestMatchUnique | exporter/drivers/reva/reva.go:152-157 | the key chosen is the longest matching prefix and the only string with that property, so the map's iteration order cannot change it |
| Routing.LongestPrefix | exporter/drivers/reva/reva.go:152-157 | the loop over the keys, in any order, returns the longest key that is a prefix, or the empty string |
| Routing.Route | exporter/drivers/reva/reva.go:147-165 | the section directory is the configuration name joined below the documentation root |
| Routing.RouteBelow | exporter/drivers/reva/reva.go:164-168 | below a root path that an upward walk can stop at, the documentation root is such a path as well, and the section directory lies below it |
| Paths.JoinWalkable | exporter/drivers/reva/reva.go:164-165 | a path joined below a walkable root is walkable and starts with that root |
| Paths.DirClimbs | exporter/drivers/reva/reva.go:117 | `path.Dir` moves strictly upward on every path other than `.` and `/` |
| Paths.DirFixedPoints | exporter/drivers/reva/reva.go:117 | `path.Dir` stays put on `.` and `/` |
| Paths.RelJoin | exporter/drivers/reva/reva.go:147 | joining the relative part back to its base gives the target again |
| Paths.JoinName | exporter/drivers/markdown/markdown.go:141 | a plain file name joined below a directory is the directory, a slash and the name |
| HugoIndex.HeaderReadBack | exporter/drivers/reva/reva.go:38-44 | a new index file read back line by line gives the header's seven lines |
| HugoIndex.HeaderFrontMatter | exporter/drivers/reva/reva.go:38-44 | the header is exactly one complete front-matter block with two delimiters |
| HugoIndex.HeaderDelimiters | exporter/drivers/reva/reva.go:38-44 | the header's first and last lines are `---` and no line in between is a delimiter |
| HugoIndex.AncestorsShape | exporter/drivers/reva/reva.go:86-118 | the walk visits the section directory first when it starts with the root, each next directory is the parent of the previous one, every visited directory starts with the root, and the walk ends exactly when the parent of the last one no longer does |
| HugoIndex.WalkableEnds | exporter/drivers/reva/reva.go:86-117 | below a documentation root other than `""`, `.` and `/` the walk always ends |
| HugoIndex.WithHeadersEffect | exporter/drivers/reva/reva.go:86-118 | after the walk every visited directory has an index file; existing files are kept as they are; every new file is the header named after its directory |
| HugoIndex.WithHeadersPresent | exporter/drivers/reva/reva.go:88-91 | when every index file exists, the walk changes nothing |
| HugoIndex.WithHeadersIdempotent | exporter/drivers/reva/reva.go:86-118 | walking twice is the same as walking once |
| HugoIndex.CreateMDFiles | exporter/drivers/reva/reva.go:75-121 | the loop up from the section directory creates exactly the missing index files, each with its header, and reports whether it ends; it does not when it reaches `.` or `/` still under the root |
| HugoIndex.IndexAfterWalk | exporter/drivers/reva/reva.go:168-176 | after the walk the section's index file exists exactly when it existed or its directory starts with the root; it is what it was, or a fresh header |
| HugoIndex.KeepFrontMatter | exporter/drivers/reva/reva.go:179-192 | the scan keeps the lines up to and including the second delimiter |
| HugoIndex.FrontMatterShape | exporter/drivers/reva/reva.go:179-192 | the kept lines are a prefix of the file with at most two delimiters; unless the whole file is kept, exactly two, and the last kept line is one |
| HugoIndex.DelimiterCountAppend | exporter/drivers/reva/reva.go:186-188 | delimiter counts add up over concatenated lines |
| HugoIndex.FrontMatterStable | exporter/drivers/reva/reva.go:179-192 | complete front matter followed by anything scans back to itself |
| HugoIndex.MergeReplaces | exporter/drivers/reva/reva.go:179-259 | a merged file keeps the front matter it was merged into, so merging any sections into it gives what merging them into the original gives: nothing an earlier merge wrote survives |
| HugoIndex.MergeOutcomeFrame | exporter/drivers/reva/reva.go:168-259 | every file that existed stays, and every file other than the section's index file keeps its content |
| HugoIndex.MergeOutcomeReplaces | exporter/drivers/reva/reva.go:168-259 | once the index file has complete front matter, a walk and merge of new sections on what an earlier one produced gives what it gives on the original files, unless only the earlier sections rendered; with the same sections, repeating changes nothing |
| HugoIndex.CompleteAfterWalk | exporter/drivers/reva/reva.go:92-112 | an index file that the walk creates has complete front matter, and one that existed keeps its own |
| HugoIndex.MergeIndex | exporter/drivers/reva/reva.go:168-259 | the walk, scan, section rendering and write leave the files and the result that the merge specification gives: an error when the walk never ends or the index file cannot be opened, the first field's error, or the rewritten index file |
| Sections.RenderFields | exporter/drivers/reva/reva.go:203-246 | rendering a struct's fields succeeds exactly when every field renders; it then gives one text and one updated record per field, in order |
| Sections.RenderFieldsFirstError | exporter/drivers/reva/reva.go:203-246 | a failed rendering reports the error of the first failing field |
| Sections.RenderGroupsOk | exporter/drivers/reva/reva.go:200-247 | rendering succeeds exactly when every struct's fields render |
| Sections.RenderGroupsShape | exporter/drivers/reva/reva.go:200-247 | a successful rendering writes one header line per struct and one block per field, and keeps the structs' order and names with their updated records |
| Sections.RenderSections | exporter/drivers/reva/reva.go:200-247 | the nested loops over the structs and fields compute the rendering specification |
| Toml.TomlBase | exporter/drivers/reva/reva.go:214 | the TOML table has the configuration name's length, contains no `/`, and keeps every other character |
| RevaExporter.Decode | exporter/drivers/reva/reva.go:206-215 | a `url:` default without a second colon is an error; otherwise exactly `url:` defaults use the pointer template, and only the record's default can change |
| RevaExporter.DecodeReference | exporter/drivers/reva/reva.go:206-211 | `url:a:b` becomes the default `a` with the example value `b`, in the table nested under the field name and `a` |
| RevaExporter.DecodePlain | exporter/drivers/reva/reva.go:212-215 | any other default is kept and shown as it is, in the configuration's own table |
| RevaExporter.RenderModes | exporter/drivers/reva/reva.go:22-36 | the two templates differ only in the quoting of the default and in the example line |
| RevaExporter.BlockReadBack | exporter/drivers/reva/reva.go:22-36 | a rendered block read back line by line gives the template's seven lines |
| RevaExporter.RenderField | exporter/drivers/reva/reva.go:203-245 | a field renders exactly when its default decodes and its source link can be built; the record left behind is the decoded one |
| RevaExporter.ExportConfigs | exporter/drivers/reva/reva.go:136-260 | routing, the walk, the merge and the write leave the files and the result that the export specification gives |
| RevaExporter.ExportDecodes | exporter/drivers/reva/reva.go:200-246 | a successful export was routed and returns the groups in order with their names and field counts, each field the decoded record of the original |
| RevaExporter.ExportReplaces | exporter/drivers/reva/reva.go:179-260 | once the index file has complete front matter, exporting any groups into the files an earlier export left gives what exporting them into the original files gives (unless only the earlier groups rendered), so the struct order of one run leaves no trace in the next |
| RevaExporter.ExportIdempotent | exporter/drivers/reva/reva.go:136-260 | exporting the same groups again into the files an export produced changes nothing, once the index file has complete front matter |
| SourceLinks.RefURL | exporter/drivers/reva/reva.go:217-224 | no link without a reference base; with one, an error exactly when the source file is not below the root path, and otherwise `[[Ref]](base/path#L<line>)` |
| SourceLinks.RefURLLine | exporter/drivers/reva/reva.go:223 | the number after `#L` reads back as the field's line number |
| Decimal.ValueOfDigits | exporter/drivers/reva/reva.go:223 | the decimal text of a number reads back as the number |
| Decimal.DigitsInjective | exporter/drivers/reva/reva.go:223 | different line numbers give different decimal texts |
| RevaWriter.Decode | writer/drivers/reva/reva.go:203-212 | exactly `url:` defaults use the pointer template; for them the record's default is what follows `url:`, and only the default can change |
| RevaWriter.DecodeReference | writer/drivers/reva/reva.go:203-208 | `url:x` becomes the default `x` with a quoted Hugo `ref` link to `x` as the example, in the table nested under the field name |
| RevaWriter.RenderModes | writer/drivers/reva/reva.go:22-36 | the two templates differ only in the quoting of the default and in the example line; the second line is the description alone |
| RevaWriter.BlockReadBack | writer/drivers/reva/reva.go:22-36 | a rendered block read back line by line gives the template's seven lines |
| RevaWriter.RenderField | writer/drivers/reva/reva.go:200-231 | every field renders, leaving its decoded record behind |
| RevaWriter.WriteConfigs | writer/drivers/reva/reva.go:134-247 | routing, the walk, the merge and the write leave the files and the result that the write specification gives |
| RevaWriter.WriteDecodes | writer/drivers/reva/reva.go:162-233 | a routed write succeeds exactly when its walk ends and the index file exists or is created, which every root path ensures that is not `""`, `.` or `/` once its trailing slashes are dropped; a successful one keeps the structs' order and names and decodes every field's default |
| RevaWriter.WriteReplaces | writer/drivers/reva/reva.go:177-247 | once the index file has complete front matter, writing any groups into the files an earlier write left gives what writing them into the original files gives, so the struct order of one run leaves no trace in the next |
| RevaWriter.WriteIdempotent | writer/drivers/reva/reva.go:134-247 | writing the same groups again into the files a write produced changes nothing, once the index file has complete front matter |
| MarkdownExporter.Decode | exporter/drivers/markdown/markdown.go:101-108 | a `url:x` default leaves the default `x`; any other default is kept and shown as it is |
| MarkdownExporter.DecodeLink | exporter/drivers/markdown/markdown.go:101-105 | `url:x` is shown as the Markdown link `[x](x)` |
| MarkdownExporter.ItemReadBack | exporter/drivers/markdown/markdown.go:19-21 | a list item written with its newline reads back as the template's three lines |
| MarkdownExporter.JoinNewlines | exporter/drivers/markdown/markdown.go:148-150 | lines joined by newlines and ended by one are what writing them line by line produces |
| MarkdownExporter.RenderField | exporter/drivers/markdown/markdown.go:98-137 | a field renders exactly when its source link can be built, leaving its decoded record behind |
| MarkdownExporter.DocFileName | exporter/drivers/markdown/markdown.go:141 | `<name>.go` is documented in `<section directory>/<name>.md` |
| MarkdownExporter.ExportConfigs | exporter/drivers/markdown/markdown.go:62-152 | routing, rendering and the write leave the files and the result that the export specification gives |
| MarkdownExporter.ExportOverwrites | exporter/drivers/markdown/markdown.go:141-151 | the output file is written afresh: its old content has no influence, and no other file changes |
| MarkdownExporter.ExportShape | exporter/drivers/markdown/markdown.go:95-139 | a routed export fails only when a link is configured and the file is not below the root; otherwise it keeps the structs' order and names and decodes every default |
| MarkdownExporter.ExportDecodes | exporter/drivers/markdown/markdown.go:95-139 | a successful export returns the groups in order with their names and field counts, each field the decoded record of the original |
| TextFile.RoundTrip | exporter/drivers/reva/reva.go:255-258 | lines without newlines, written one per line, read back as the same lines |
| TextFile.LinesOfJoin | exporter/drivers/reva/reva.go:109 | text joined by newlines without a final one reads back as its lines |
| Text.SplitShape | cato.go:123 | splitting gives one piece more than there are separators, and no piece holds one |
| Text.SplitJoin | cato.go:123 | joining the pieces with the separator gives the text back |
| Text.BeforeIsFirstPiece | cato.go:101 | the text before the first comma is the first piece of the split |
| Text.CollapseIdempotent | cato.go:115 | collapsing white space twice is the same as once |
| Text.TrimSpaceKeeps | exporter/drivers/reva/reva.go:186 | trimming white space keeps every character that is not space |

## Left out

- Listing the source files (`listGoFiles`, a walk of the file system) is not modelled. The listing is a parameter of `GenerateDocumentation`: the paths in walk order, or nothing when the walk fails.
- Go's parser and printer are not modelled. A source file is given as its structs in syntax-tree order, each field with its identifiers, tag pairs, printed type, doc-comment lines and position, plus the length of each line; a file that does not parse has no structs. A type that fails to print is not modelled.
- The line scanner's handling of `\r\n`, and its 64 KiB line limit, are not modelled. Line lengths are counted in characters where Go counts bytes.
- Opening, creating and writing files (`os.Open`, `os.Create`, `bufio`) are modelled as updates of a map from path to content, and cannot fail. `os.MkdirAll` is not modelled, since directories are implicit in the paths. Template execution cannot fail.
- `filepath.Rel` and `path.Join` are simplified. Paths hold no `.` or `..` elements. A target that is not below its base is an error here, where Go returns a path climbing with `..`.
- Go's maps are iterated in random order. Struct groups are a sequence ordered by declaration: a struct of the same name replaces the earlier entry in place. The drivers render the groups in that order, where Go's order varies from run to run. The choice of the longest `DocPaths` key is proved independent of order. For the hierarchical drivers, a run's output is proved not to depend on the groups, in whatever order, that an earlier run wrote.
- `mapstructure` decoding of a driver's settings is modelled as a record of the two settings. A settings section that fails to decode is not modelled, so `getDriver` fails only for an unregistered name. Every error keeps its cause but not the wrapping message text.
- The hierarchical drivers climb from the section directory until it no longer starts with the documentation root. When the climb reaches `.` or `/` while that still starts with the documentation root (a documentation root of `""`, `.` or `/`, and a section directory under it), the source's loop never ends, because `path.Dir` stays put there. The model reports that case as the error `WalkDoesNotEnd`, with the index files the loop created before it began to spin.
- When the walk does not visit the section directory (it does not start with the documentation root) and the index file is missing, opening it fails; the model reports `FileNotFound`.
- Panics are modelled as errors: indexing the identifiers of an embedded field that no tag names (`MissingFieldName`), and a `url:` default without a second colon in the hierarchical exporter (`MalformedReference`).
- Cato.GetDriver: a driver constructor that fails, which `GenerateDocumentation` treats like a missing driver, is not modelled, because both constructors fail only when `mapstructure` fails.
- The writer snapshot's stub Markdown driver is not modelled: it has no behaviour to verify.
- The writer snapshot's own registry package is the same table as the exporter's; one `Registry` class models both.
- The writer snapshot's record type has no line number. It is modelled with the same record, whose line number that driver never reads.
- The annotation grammar with three parts takes the first part as the name even when it is empty, so the name can be empty.
- Updating the parsed comments in place (the source rewrites `c.Text`) is not modelled: nothing reads them again.
