/** The records the extraction produces and the drivers consume, and the run's errors. */
module Records {

  /** One documented configuration field (the `FieldInfo` record with its line number). */
  datatype FieldInfo = FieldInfo(
    fieldName: string,
    dataType: string,
    defaultValue: string,
    description: string,
    lineNumber: nat)

  /** The documented fields of one struct type, in declaration order. */
  datatype Group = Group(name: string, fields: seq<FieldInfo>)

  /** What can end a run, or one driver call, early. */
  datatype Error =
    | EmptyRootPath               // the root path was empty
    | ListingFailed               // the source files could not be listed
    | ParseFailed(path: string)   // a source file is not valid Go
    | PositionOutOfRange          // a field position lies beyond the file's last line
    | MissingFieldName            // a documented embedded field had no name to fall back on
    | PathNotRelative             // a path could not be made relative to its base
    | MalformedReference(value: string) // a `url:` default without its second part
    | WalkDoesNotEnd              // the walk up to the documentation root would climb forever
    | FileNotFound(path: string)  // the section's index file does not exist and was not created

  /** The struct names of an ordered collection of groups. */
  function Names(groups: seq<Group>): (names: seq<string>)
    ensures |names| == |groups|
    ensures forall i :: 0 <= i < |groups| ==> names[i] == groups[i].name
  {
    if groups == [] then [] else [groups[0].name] + Names(groups[1..])
  }

  /** No two groups carry the same struct name, as in a map keyed by struct name. */
  predicate DistinctNames(groups: seq<Group>)
  {
    forall i, j :: 0 <= i < j < |groups| ==> groups[i].name != groups[j].name
  }

  /** Stores a struct's records under its name: replaces an existing entry, or appends a new one. */
  function Put(groups: seq<Group>, name: string, fields: seq<FieldInfo>): (r: seq<Group>)
    requires DistinctNames(groups)
    ensures DistinctNames(r)
    ensures Group(name, fields) in r
    ensures forall g :: g in r && g.name == name ==> g == Group(name, fields)
    ensures forall g :: g in groups && g.name != name ==> g in r
    ensures forall g :: g in r ==> g.name == name || g in groups
    ensures |r| == |groups| + (if name in Names(groups) then 0 else 1)
  {
    if name in Names(groups) then
      var i :| 0 <= i < |groups| && Names(groups)[i] == name;
      ReplaceAt(groups, i, Group(name, fields));
      groups[i := Group(name, fields)]
    else
      groups + [Group(name, fields)]
  }

  lemma ReplaceAt(groups: seq<Group>, i: nat, g: Group)
    requires i < |groups|
    ensures g in groups[i := g]
    ensures forall h :: h in groups && h.name != groups[i].name ==> h in groups[i := g]
    ensures forall h :: h in groups[i := g] ==> h == g || h in groups
  {
    var r := groups[i := g];
    assert r[i] == g;
    forall h | h in groups && h.name != groups[i].name ensures h in r {
      var j :| 0 <= j < |groups| && groups[j] == h;
      assert r[j] == h;
    }
  }
}
