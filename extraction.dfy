/**
 * The extraction side of `cato.go`: from the parsed structs of one Go source
 * file to the documented fields of each struct, read from the fields'
 * `docs` annotations, their other tags, their doc comments and their positions.
 */
module Extraction {
  import opened Text
  import opened Wrappers
  import opened Records

  /** A struct field as the Go parser gives it. */
  datatype Field = Field(
    names: seq<string>,          // the declared identifiers; none for an embedded field
    tag: map<string, string>,    // the struct tag's key/value pairs; empty when there is no tag
    typeText: string,            // the field's type as the Go printer renders it
    doc: seq<string>,            // the lines of the doc comment, comment markers included
    pos: int)                    // the position of the field, one more than its offset in the file

  /** A struct type declaration: its name and fields in declaration order. */
  datatype StructDecl = StructDecl(name: string, fields: seq<Field>)

  /**
   * One Go source file: its path, the length of each of its lines, and its
   * struct declarations in the order the syntax tree is walked, or None when it
   * does not parse.
   */
  datatype SourceFile = SourceFile(path: string, lineLengths: seq<nat>, structs: Option<seq<StructDecl>>)

  /** `reflect.StructTag.Get`: the value under `key`, or "" when there is none. */
  function TagGet(tag: map<string, string>, key: string): string
  {
    if key in tag then tag[key] else ""
  }

  // ---------------------------------------------------------------------------
  // Line numbers

  /**
   * The position of the first character of every line, and one past the last
   * line: positions count from 1, and each line takes its length and a newline.
   */
  function LineStarts(lengths: seq<nat>): (t: seq<int>)
    ensures |t| == |lengths| + 1 && t[0] == 1
    ensures forall i :: 0 <= i < |lengths| ==> t[i + 1] == t[i] + lengths[i] + 1
    decreases |lengths|
  {
    if lengths == [] then [1]
    else
      var t0 := LineStarts(lengths[..|lengths| - 1]);
      t0 + [t0[|t0| - 1] + lengths[|lengths| - 1] + 1]
  }

  /** The table is strictly increasing. */
  lemma LineStartsIncreasing(lengths: seq<nat>)
    ensures var t := LineStarts(lengths);
      forall i, j :: 0 <= i < j < |t| ==> t[i] < t[j]
  {
    var t := LineStarts(lengths);
    forall i, j | 0 <= i < j < |t| ensures t[i] < t[j] {
      Climb(lengths, i, j);
    }
  }

  lemma {:induction false} Climb(lengths: seq<nat>, i: nat, j: nat)
    requires i < j <= |lengths|
    ensures LineStarts(lengths)[i] < LineStarts(lengths)[j]
    decreases j - i
  {
    if i + 1 < j {
      Climb(lengths, i, j - 1);
    }
  }

  /** `getLineInitialPositions`: adds each line's length and its newline to a running count. */
  method LineInitialPositions(lengths: seq<nat>) returns (initPositions: seq<int>)
    ensures initPositions == LineStarts(lengths)
  {
    var charCount := 1;
    initPositions := [charCount];
    var i := 0;
    while i < |lengths|
      invariant 0 <= i <= |lengths|
      invariant initPositions == LineStarts(lengths[..i])
      invariant charCount == initPositions[|initPositions| - 1]
    {
      LineStartsStep(lengths, i);
      charCount := charCount + lengths[i] + 1;
      initPositions := initPositions + [charCount];
      i := i + 1;
    }
    assert lengths[..i] == lengths;
  }

  /** One more line adds one entry: the previous last entry plus that line's length and its newline. */
  lemma LineStartsStep(lengths: seq<nat>, i: nat)
    requires i < |lengths|
    ensures LineStarts(lengths[..i + 1]) == LineStarts(lengths[..i]) + [LineStarts(lengths[..i])[i] + lengths[i] + 1]
  {
    assert lengths[..i + 1][..i] == lengths[..i];
  }

  /** The least index whose entry is at or after `pos`, or None when `pos` lies beyond every entry. */
  function LineIndex(table: seq<int>, pos: int): (r: Option<nat>)
    ensures r.Some? ==>
      && r.value < |table| && pos <= table[r.value]
      && forall j :: 0 <= j < r.value ==> table[j] < pos
    ensures r.None? <==> forall j :: 0 <= j < |table| ==> table[j] < pos
  {
    if table == [] then None
    else if pos <= table[0] then Some(0)
    else match LineIndex(table[1..], pos)
      case None => None
      case Some(i) => Some(i + 1)
  }

  /**
   * `getLineNumber`: the first index whose entry is at or after `pos`; an error
   * when the position lies beyond the table.
   */
  method GetLineNumber(lineNos: seq<int>, pos: int) returns (r: Result<nat, Error>)
    ensures r.Ok? ==>
      && r.value < |lineNos| && pos <= lineNos[r.value]
      && forall j :: 0 <= j < r.value ==> lineNos[j] < pos
    ensures r.Err? <==> forall j :: 0 <= j < |lineNos| ==> lineNos[j] < pos
    ensures r.Err? ==> r.error == PositionOutOfRange
  {
    var i := 0;
    while i < |lineNos|
      invariant 0 <= i <= |lineNos|
      invariant forall j :: 0 <= j < i ==> lineNos[j] < pos
    {
      if pos <= lineNos[i] {
        return Ok(i);
      }
      i := i + 1;
    }
    return Err(PositionOutOfRange);
  }

  /**
   * What the lookup makes of the positions of a line: its first character maps to
   * the line's 0-based index, that is one less than its 1-based number, while every
   * later character of the line, and its newline, maps to the 1-based number.
   */
  lemma LineOfPosition(lengths: seq<nat>, k: nat, pos: int)
    requires k < |lengths|
    requires var t := LineStarts(lengths); t[k] <= pos <= t[k] + lengths[k]
    ensures var t := LineStarts(lengths);
      LineIndex(t, pos) == if pos == t[k] then Some(k) else Some(k + 1)
  {
    var t := LineStarts(lengths);
    LineStartsIncreasing(lengths);
    assert pos <= t[k + 1];
    if pos == t[k] {
      assert forall j :: 0 <= j < k ==> t[j] < pos;
    } else {
      assert forall j :: 0 <= j <= k ==> t[j] < pos;
    }
  }

  // ---------------------------------------------------------------------------
  // Field names

  /** The tags read for a field's name, in the order they are read (`namedTags`). */
  const NamedTags: seq<string> := ["xml", "mapstructure", "json"]

  /**
   * The name the tags in `keys` give: read in order with each non-empty one
   * replacing the previous name, the text before its first comma.
   */
  function TagName(tag: map<string, string>, keys: seq<string>): string
    decreases |keys|
  {
    if keys == [] then ""
    else
      var t := TagGet(tag, keys[|keys| - 1]);
      if t != "" then Before(t, ',') else TagName(tag, keys[..|keys| - 1])
  }

  /** The later tags take priority: `json` over `mapstructure` over `xml`. */
  lemma TagNamePriority(tag: map<string, string>)
    ensures TagName(tag, NamedTags) ==
      if TagGet(tag, "json") != "" then Before(TagGet(tag, "json"), ',')
      else if TagGet(tag, "mapstructure") != "" then Before(TagGet(tag, "mapstructure"), ',')
      else if TagGet(tag, "xml") != "" then Before(TagGet(tag, "xml"), ',')
      else ""
  {
    var ks := NamedTags;
    assert ks[|ks| - 1] == "json" && ks[..|ks| - 1] == ["xml", "mapstructure"];
    var two: seq<string> := ["xml", "mapstructure"];
    assert two[|two| - 1] == "mapstructure" && two[..|two| - 1] == ["xml"];
    var one: seq<string> := ["xml"];
    assert one[|one| - 1] == "xml" && one[..|one| - 1] == [];
  }

  /** The loop over `namedTags` in `parseStruct`. */
  method NameFromTags(tag: map<string, string>) returns (fieldName: string)
    ensures fieldName == TagName(tag, NamedTags)
  {
    fieldName := "";
    var i := 0;
    while i < |NamedTags|
      invariant 0 <= i <= |NamedTags|
      invariant fieldName == TagName(tag, NamedTags[..i])
    {
      assert NamedTags[..i + 1][..i] == NamedTags[..i];
      var t := TagGet(tag, NamedTags[i]);
      if t != "" {
        fieldName := Split(t, ',')[0];
        BeforeIsFirstPiece(t, ',');
      }
      i := i + 1;
    }
    assert NamedTags[..i] == NamedTags;
  }

  // ---------------------------------------------------------------------------
  // Descriptions

  /** One comment line with its comment markers removed and its white space collapsed. */
  function CleanComment(c: string): (r: string)
    ensures Normal(r)
  {
    CollapseNormal(RemoveAll(RemoveAll(RemoveAll(c, "//"), "/*"), "*/"));
    Collapse(RemoveAll(RemoveAll(RemoveAll(c, "//"), "/*"), "*/"))
  }

  /** The cleaned comment lines joined with single spaces. */
  function Description(doc: seq<string>): string
  {
    Join(seq(|doc|, i requires 0 <= i < |doc| => CleanComment(doc[i])), " ")
  }

  /** The loop over the doc comment in `parseStruct`. */
  method Describe(doc: seq<string>) returns (desc: string)
    ensures desc == Description(doc)
  {
    var comments: seq<string> := [];
    var i := 0;
    while i < |doc|
      invariant 0 <= i <= |doc|
      invariant comments == seq(i, k requires 0 <= k < i => CleanComment(doc[k]))
    {
      var text := RemoveAll(doc[i], "//");
      text := RemoveAll(text, "/*");
      text := RemoveAll(text, "*/");
      text := Join(Fields(text), " ");
      comments := comments + [text];
      i := i + 1;
    }
    desc := Join(comments, " ");
  }

  // ---------------------------------------------------------------------------
  // The annotation grammar

  /** A field's name, default and description once its annotation has been read. */
  datatype Annotation = Annotation(name: string, defaultValue: string, description: string)

  /**
   * The `;`-separated annotation: one part is the default; two are the default
   * and the description; three are the name, the default and the description;
   * with more, no part is used and the default stays empty.
   */
  function ApplyGrammar(configTag: string, name: string, desc: string): Annotation
  {
    var parts := Split(configTag, ';');
    if |parts| == 1 then Annotation(name, parts[0], desc)
    else if |parts| == 2 then Annotation(name, parts[0], parts[1])
    else if |parts| == 3 then Annotation(parts[0], parts[1], parts[2])
    else Annotation(name, "", desc)
  }

  /**
   * The grammar by number of separators: the parts it uses put back together
   * with `;` give the annotation again, none holds a `;`, and what it does not
   * set keeps the fallback.
   */
  lemma GrammarCases(configTag: string, name: string, desc: string)
    ensures var a := ApplyGrammar(configTag, name, desc);
      var c := Count(configTag, ';');
      && (c == 0 ==> a == Annotation(name, configTag, desc))
      && (c == 1 ==> a.name == name && configTag == a.defaultValue + ";" + a.description
                     && ';' !in a.defaultValue && ';' !in a.description)
      && (c == 2 ==> configTag == a.name + ";" + a.defaultValue + ";" + a.description
                     && ';' !in a.name && ';' !in a.defaultValue && ';' !in a.description)
      && (c >= 3 ==> a == Annotation(name, "", desc))
  {
    var parts := Split(configTag, ';');
    SplitShape(configTag, ';');
    SplitJoin(configTag, ';');
    if |parts| == 2 {
      assert Join(parts, ";") == parts[0] + ";" + Join(parts[1..], ";");
    } else if |parts| == 3 {
      assert Join(parts, ";") == parts[0] + ";" + Join(parts[1..], ";");
      assert Join(parts[1..], ";") == parts[1] + ";" + Join(parts[2..], ";");
    }
  }

  /** `"%s"` around the default of a field whose type is exactly `string`. */
  function Quote(typeText: string, value: string): string
  {
    if typeText == "string" then "\"" + value + "\"" else value
  }

  // ---------------------------------------------------------------------------
  // Records

  /**
   * The record of one field: none when its `catoTag` annotation is empty; an
   * error when no tag names it and it has no identifier, or when its position
   * lies beyond the file.
   */
  function FieldRecord(f: Field, catoTag: string, table: seq<int>): Result<Option<FieldInfo>, Error>
  {
    var configTag := TagGet(f.tag, catoTag);
    if configTag == "" then Ok(None)
    else
      var tagName := TagName(f.tag, NamedTags);
      if tagName == "" && f.names == [] then Err(MissingFieldName)
      else
        var fallback := if tagName != "" then tagName else f.names[0];
        var a := ApplyGrammar(configTag, fallback, Description(f.doc));
        match LineIndex(table, f.pos)
        case None => Err(PositionOutOfRange)
        case Some(line) =>
          Ok(Some(FieldInfo(a.name, f.typeText, Quote(f.typeText, a.defaultValue), a.description, line)))
  }

  /**
   * A documented field's record: its type as printed, the annotation's default
   * quoted exactly when the type is `string`, and the line its position falls
   * in; and the name and description the annotation gives, falling back on the
   * tags, the identifier and the doc comment.
   */
  lemma FieldRecordShape(f: Field, catoTag: string, table: seq<int>)
    requires TagGet(f.tag, catoTag) != ""
    requires TagName(f.tag, NamedTags) != "" || f.names != []
    requires LineIndex(table, f.pos).Some?
    ensures var r := FieldRecord(f, catoTag, table);
      var fallback := if TagName(f.tag, NamedTags) != "" then TagName(f.tag, NamedTags) else f.names[0];
      var a := ApplyGrammar(TagGet(f.tag, catoTag), fallback, Description(f.doc));
      && r.Ok? && r.value.Some?
      && r.value.value.fieldName == a.name
      && r.value.value.dataType == f.typeText
      && (f.typeText == "string" ==> r.value.value.defaultValue == "\"" + a.defaultValue + "\"")
      && (f.typeText != "string" ==> r.value.value.defaultValue == a.defaultValue)
      && r.value.value.description == a.description
      && LineIndex(table, f.pos) == Some(r.value.value.lineNumber)
  {
  }

  /** The fields that carry a non-empty `catoTag` annotation, in declaration order. */
  function Tagged(fields: seq<Field>, catoTag: string): seq<Field>
    decreases |fields|
  {
    if fields == [] then []
    else
      var init := Tagged(fields[..|fields| - 1], catoTag);
      if TagGet(fields[|fields| - 1].tag, catoTag) != "" then init + [fields[|fields| - 1]] else init
  }

  /** The records of a struct's fields, in declaration order; the first failing field decides the error. */
  function StructRecords(fields: seq<Field>, catoTag: string, table: seq<int>): Result<seq<FieldInfo>, Error>
    decreases |fields|
  {
    if fields == [] then Ok([])
    else
      match StructRecords(fields[..|fields| - 1], catoTag, table)
      case Err(e) => Err(e)
      case Ok(recs) =>
        match FieldRecord(fields[|fields| - 1], catoTag, table)
        case Err(e) => Err(e)
        case Ok(None) => Ok(recs)
        case Ok(Some(rec)) => Ok(recs + [rec])
  }

  /** A struct's records are exactly one per annotated field, in declaration order. */
  lemma {:induction false} StructRecordsTagged(fields: seq<Field>, catoTag: string, table: seq<int>)
    requires StructRecords(fields, catoTag, table).Ok?
    ensures var recs := StructRecords(fields, catoTag, table).value;
      var tagged := Tagged(fields, catoTag);
      && |recs| == |tagged|
      && forall i :: 0 <= i < |tagged| ==> FieldRecord(tagged[i], catoTag, table) == Ok(Some(recs[i]))
    decreases |fields|
  {
    if fields != [] {
      var init := fields[..|fields| - 1];
      var last := fields[|fields| - 1];
      StructRecordsTagged(init, catoTag, table);
      if TagGet(last.tag, catoTag) == "" {
        assert FieldRecord(last, catoTag, table) == Ok(None);
      }
    }
  }

  lemma {:induction false} StructRecordsErrExtends(fields: seq<Field>, catoTag: string, table: seq<int>, k: nat)
    requires k <= |fields| && StructRecords(fields[..k], catoTag, table).Err?
    ensures StructRecords(fields, catoTag, table) == StructRecords(fields[..k], catoTag, table)
    decreases |fields|
  {
    if k < |fields| {
      assert fields[..|fields| - 1][..k] == fields[..k];
      StructRecordsErrExtends(fields[..|fields| - 1], catoTag, table, k);
    } else {
      assert fields[..k] == fields;
    }
  }

  /** The records after the first `i + 1` fields, from the records after the first `i`. */
  lemma StructRecordsSnoc(fields: seq<Field>, catoTag: string, table: seq<int>, i: nat)
    requires i < |fields|
    ensures var prev := StructRecords(fields[..i], catoTag, table);
      var rec := FieldRecord(fields[i], catoTag, table);
      StructRecords(fields[..i + 1], catoTag, table) ==
        if prev.Err? then prev
        else if rec.Err? then Err(rec.error)
        else if rec.value.Some? then Ok(prev.value + [rec.value.value])
        else prev
  {
    assert fields[..i + 1][..i] == fields[..i];
    assert fields[..i + 1][i] == fields[i];
  }

  /** `parseStruct`: builds the record of each annotated field in turn. */
  method ParseStruct(s: StructDecl, catoTag: string, lineNos: seq<int>) returns (r: Result<seq<FieldInfo>, Error>)
    ensures r == StructRecords(s.fields, catoTag, lineNos)
  {
    var configs: seq<FieldInfo> := [];
    var i := 0;
    while i < |s.fields|
      invariant 0 <= i <= |s.fields|
      invariant StructRecords(s.fields[..i], catoTag, lineNos) == Ok(configs)
    {
      StructRecordsSnoc(s.fields, catoTag, lineNos, i);
      var rec := FieldConfig(s.fields[i], catoTag, lineNos);
      if rec.Err? {
        StructRecordsErrExtends(s.fields, catoTag, lineNos, i + 1);
        return Err(rec.error);
      }
      if rec.value.Some? {
        configs := configs + [rec.value.value];
      }
      i := i + 1;
    }
    assert s.fields[..i] == s.fields;
    r := Ok(configs);
  }

  /** The body of the loop of `parseStruct` for one field: its record, none when it is not annotated. */
  method FieldConfig(field: Field, catoTag: string, lineNos: seq<int>) returns (r: Result<Option<FieldInfo>, Error>)
    ensures r == FieldRecord(field, catoTag, lineNos)
  {
    var configTag := TagGet(field.tag, catoTag);
    if configTag == "" {
      return Ok(None);
    }
    var fieldName := NameFromTags(field.tag);
    if fieldName == "" {
      if field.names == [] {
        return Err(MissingFieldName);
      }
      fieldName := field.names[0];
    }
    var desc := Describe(field.doc);
    var a := ApplyGrammar(configTag, fieldName, desc);
    var lineNumber := GetLineNumber(lineNos, field.pos);
    if lineNumber.Err? {
      return Err(lineNumber.error);
    }
    r := Ok(Some(FieldInfo(a.name, field.typeText, Quote(field.typeText, a.defaultValue), a.description, lineNumber.value)));
  }

  // ---------------------------------------------------------------------------
  // Files

  /**
   * The groups of a file's structs: the records of every struct that has any,
   * stored under its name, a later struct replacing an earlier one of that name.
   */
  function StructGroups(structs: seq<StructDecl>, catoTag: string, table: seq<int>): (r: Result<seq<Group>, Error>)
    ensures r.Ok? ==> DistinctNames(r.value)
    ensures r.Ok? ==> forall g :: g in r.value ==> g.fields != []
    decreases |structs|
  {
    if structs == [] then Ok([])
    else
      var s := structs[|structs| - 1];
      match StructGroups(structs[..|structs| - 1], catoTag, table)
      case Err(e) => Err(e)
      case Ok(groups) =>
        match StructRecords(s.fields, catoTag, table)
        case Err(e) => Err(e)
        case Ok(recs) => if |recs| > 0 then Ok(Put(groups, s.name, recs)) else Ok(groups)
  }

  /** Every struct with records has a group of its name. */
  lemma {:induction false} StructGroupsComplete(structs: seq<StructDecl>, catoTag: string, table: seq<int>, i: nat)
    requires StructGroups(structs, catoTag, table).Ok?
    requires i < |structs| && HasRecords(structs[i], catoTag, table)
    ensures HasGroup(StructGroups(structs, catoTag, table).value, structs[i].name)
    decreases |structs|
  {
    var n := |structs| - 1;
    StructGroupsLast(structs, catoTag, table);
    var before := StructGroups(structs[..n], catoTag, table).value;
    var recs := StructRecords(structs[n].fields, catoTag, table).value;
    var after := if |recs| > 0 then Put(before, structs[n].name, recs) else before;
    assert StructGroups(structs, catoTag, table).value == after;
    if i < n {
      assert structs[..n][i] == structs[i];
      StructGroupsComplete(structs[..n], catoTag, table, i);
      KeepsGroup(before, structs[n].name, recs, structs[i].name);
    } else {
      assert i == n && HasRecords(structs[n], catoTag, table);
      assert recs != [];
      PutGroup(before, structs[n].name, recs);
    }
  }

  /** The last struct's step of `StructGroups`. */
  lemma StructGroupsLast(structs: seq<StructDecl>, catoTag: string, table: seq<int>)
    requires |structs| > 0 && StructGroups(structs, catoTag, table).Ok?
    ensures var n := |structs| - 1;
      && StructGroups(structs[..n], catoTag, table).Ok?
      && StructRecords(structs[n].fields, catoTag, table).Ok?
      && var before := StructGroups(structs[..n], catoTag, table).value;
         var recs := StructRecords(structs[n].fields, catoTag, table).value;
         StructGroups(structs, catoTag, table).value
           == if |recs| > 0 then Put(before, structs[n].name, recs) else before
  {
  }

  /** The struct has at least one record, or fails. */
  predicate HasRecords(s: StructDecl, catoTag: string, table: seq<int>)
  {
    StructRecords(s.fields, catoTag, table) != Ok([])
  }

  /** Some group is stored under `name`. */
  predicate HasGroup(groups: seq<Group>, name: string)
  {
    exists g :: g in groups && g.name == name
  }

  /** Storing a group makes its name present. */
  lemma PutGroup(groups: seq<Group>, name: string, recs: seq<FieldInfo>)
    requires DistinctNames(groups)
    ensures HasGroup(Put(groups, name, recs), name)
  {
    assert Group(name, recs) in Put(groups, name, recs);
  }

  /** Storing a struct's records, when there are any, keeps every name already present. */
  lemma KeepsGroup(groups: seq<Group>, name: string, recs: seq<FieldInfo>, other: string)
    requires DistinctNames(groups) && HasGroup(groups, other)
    ensures HasGroup(if |recs| > 0 then Put(groups, name, recs) else groups, other)
  {
    if |recs| > 0 {
      var g :| g in groups && g.name == other;
      if other == name {
        PutGroup(groups, name, recs);
      } else {
        assert g in Put(groups, name, recs);
      }
    }
  }

  /** Every group holds the records of a struct of its name. */
  lemma {:induction false} StructGroupsSound(structs: seq<StructDecl>, catoTag: string, table: seq<int>)
    requires StructGroups(structs, catoTag, table).Ok?
    ensures var groups := StructGroups(structs, catoTag, table).value;
      forall g :: g in groups ==>
        exists i :: 0 <= i < |structs| && structs[i].name == g.name
          && StructRecords(structs[i].fields, catoTag, table) == Ok(g.fields)
    decreases |structs|
  {
    if structs != [] {
      var n := |structs| - 1;
      var init := structs[..n];
      var s := structs[n];
      var groups := StructGroups(structs, catoTag, table).value;
      var before := StructGroups(init, catoTag, table).value;
      StructGroupsSound(init, catoTag, table);
      forall g | g in groups
        ensures exists i :: (0 <= i < |structs| && structs[i].name == g.name
                               && StructRecords(structs[i].fields, catoTag, table) == Ok(g.fields))
      {
        if g in before {
          var i :| 0 <= i < |init| && init[i].name == g.name
            && StructRecords(init[i].fields, catoTag, table) == Ok(g.fields);
          assert structs[i] == init[i];
        } else {
          assert structs[n] == s;
        }
      }
    }
  }

  lemma {:induction false} StructGroupsErrExtends(structs: seq<StructDecl>, catoTag: string, table: seq<int>, k: nat)
    requires k <= |structs| && StructGroups(structs[..k], catoTag, table).Err?
    ensures StructGroups(structs, catoTag, table) == StructGroups(structs[..k], catoTag, table)
    decreases |structs|
  {
    if k < |structs| {
      assert structs[..|structs| - 1][..k] == structs[..k];
      StructGroupsErrExtends(structs[..|structs| - 1], catoTag, table, k);
    } else {
      assert structs[..k] == structs;
    }
  }

  /** The groups after the first `i + 1` structs, from the groups after the first `i`. */
  lemma StructGroupsSnoc(structs: seq<StructDecl>, catoTag: string, table: seq<int>, i: nat)
    requires i < |structs|
    ensures var prev := StructGroups(structs[..i], catoTag, table);
      var recs := StructRecords(structs[i].fields, catoTag, table);
      StructGroups(structs[..i + 1], catoTag, table) ==
        if prev.Err? then prev
        else if recs.Err? then Err(recs.error)
        else if |recs.value| > 0 then Ok(Put(prev.value, structs[i].name, recs.value))
        else prev
  {
    assert structs[..i + 1][..i] == structs[..i];
    assert structs[..i + 1][i] == structs[i];
  }

  /** The groups of a source file, or the reason it has none. */
  function FileConfigs(file: SourceFile, catoTag: string): Result<seq<Group>, Error>
  {
    match file.structs
    case None => Err(ParseFailed(file.path))
    case Some(structs) => StructGroups(structs, catoTag, LineStarts(file.lineLengths))
  }

  /** `getConfigsToDocument`: parses every struct of the file and keeps those with records. */
  method GetConfigsToDocument(file: SourceFile, catoTag: string) returns (r: Result<seq<Group>, Error>)
    ensures r == FileConfigs(file, catoTag)
  {
    if file.structs.None? {
      return Err(ParseFailed(file.path));
    }
    var structList := file.structs.value;
    var lineNos := LineInitialPositions(file.lineLengths);
    var configs: seq<Group> := [];
    var i := 0;
    while i < |structList|
      invariant 0 <= i <= |structList|
      invariant StructGroups(structList[..i], catoTag, lineNos) == Ok(configs)
    {
      var s := structList[i];
      StructGroupsSnoc(structList, catoTag, lineNos, i);
      var c := ParseStruct(s, catoTag, lineNos);
      if c.Err? {
        StructGroupsErrExtends(structList, catoTag, lineNos, i + 1);
        return Err(c.error);
      }
      if |c.value| > 0 {
        configs := Put(configs, s.name, c.value);
      }
      i := i + 1;
    }
    assert structList[..i] == structList;
    r := Ok(configs);
  }
}
