/** The link from a documented field back to the line of the source that declares it. */
module SourceLinks {
  import opened Text
  import opened Wrappers
  import opened Decimal
  import opened Records

  /**
   * `[[Ref]](<base>/<path>#L<line>)` when a reference base is configured, and
   * nothing otherwise; `reference` is the source file relative to the root
   * path, if it is below it.
   */
  function RefURL(base: string, reference: Option<string>, line: nat): (r: Result<string, Error>)
    ensures r.Err? <==> base != "" && reference.None?
    ensures r.Err? ==> r.error == PathNotRelative
    ensures r.Ok? ==> (r.value == "" <==> base == "")
    ensures r.Ok? && base != "" ==>
      HasPrefix(r.value, "[[Ref]](" + base + "/" + reference.value) && HasSuffix(r.value, "#L" + Digits(line) + ")")
    ensures r.Ok? && base != "" ==> r.value == "[[Ref]](" + base + "/" + reference.value + "#L" + Digits(line) + ")"
  {
    if base == "" then Ok("")
    else match reference
      case None => Err(PathNotRelative)
      case Some(rel) =>
        var head := "[[Ref]](" + base + "/" + rel;
        var tail := "#L" + Digits(line) + ")";
        ConcatEnds(head, tail);
        assert head + tail == "[[Ref]](" + base + "/" + rel + "#L" + Digits(line) + ")";
        Ok(head + tail)
  }

  /** The line number written after `#L` reads back as the field's line number. */
  lemma RefURLLine(base: string, rel: string, line: nat)
    requires base != ""
    ensures var u := RefURL(base, Some(rel), line).value;
      exists prefix :: u == prefix + "#L" + Digits(line) + ")" && Value(Digits(line)) == line
  {
    ValueOfDigits(line);
    var prefix := "[[Ref]](" + base + "/" + rel;
    assert RefURL(base, Some(rel), line).value == prefix + "#L" + Digits(line) + ")";
  }
}
