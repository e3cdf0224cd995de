/**
 * The loop every driver runs over the struct groups of one source file: a
 * header line per struct, then one rendered block per documented field, the
 * first failing field ending the run. What a header and a block look like is
 * the driver's; the order and the error handling are shared.
 */
module Sections {
  import opened Wrappers
  import opened Records

  /** One field as a driver renders it: the text block, and the record as the driver left it. */
  datatype Rendered = Rendered(text: string, field: FieldInfo)

  /** The blocks of a run of fields, and the records as the driver left them. */
  datatype Rendering = Rendering(texts: seq<string>, fields: seq<FieldInfo>)

  /** The lines a driver writes for a run of struct groups, and the groups as it left them. */
  datatype Output = Output(lines: seq<string>, groups: seq<Group>)

  /** What a driver run leaves on disk, and what it returns: the groups as it left them, or an error. */
  datatype Outcome = Outcome(files: map<string, string>, result: Result<seq<Group>, Error>)

  /** Renders the fields in order; the first field that fails decides the error. */
  function RenderFields(render: FieldInfo -> Result<Rendered, Error>, fields: seq<FieldInfo>): (r: Result<Rendering, Error>)
    ensures r.Ok? <==> forall i :: 0 <= i < |fields| ==> render(fields[i]).Ok?
    ensures r.Ok? ==>
      && |r.value.texts| == |fields| == |r.value.fields|
      && forall i :: 0 <= i < |fields| ==> render(fields[i]).value == Rendered(r.value.texts[i], r.value.fields[i])
    decreases |fields|
  {
    if fields == [] then Ok(Rendering([], []))
    else
      var init := fields[..|fields| - 1];
      match RenderFields(render, init)
      case Err(e) => Err(e)
      case Ok(done) =>
        match render(fields[|fields| - 1])
        case Err(e) => Err(e)
        case Ok(b) => Ok(Rendering(done.texts + [b.text], done.fields + [b.field]))
  }

  /** A failed rendering reports the error of the first field that fails. */
  lemma {:induction false} RenderFieldsFirstError(render: FieldInfo -> Result<Rendered, Error>, fields: seq<FieldInfo>)
    requires RenderFields(render, fields).Err?
    ensures exists i :: 0 <= i < |fields| && render(fields[i]) == Err(RenderFields(render, fields).error)
                      && forall j :: 0 <= j < i ==> render(fields[j]).Ok?
    decreases |fields|
  {
    var init := fields[..|fields| - 1];
    var e := RenderFields(render, fields).error;
    if RenderFields(render, init).Err? {
      RenderFieldsFirstError(render, init);
      var i :| 0 <= i < |init| && render(init[i]) == Err(e) && forall j :: 0 <= j < i ==> render(init[j]).Ok?;
      assert fields[i] == init[i];
      assert forall j :: 0 <= j < i ==> fields[j] == init[j];
    } else {
      assert forall j :: 0 <= j < |init| ==> fields[j] == init[j];
      assert render(fields[|fields| - 1]) == Err(e);
    }
  }

  /** Renders the groups in order: each struct's header line, then its field blocks. */
  function RenderGroups(header: string -> string, render: FieldInfo -> Result<Rendered, Error>, groups: seq<Group>): (r: Result<Output, Error>)
    decreases |groups|
  {
    if groups == [] then Ok(Output([], []))
    else
      var g := groups[|groups| - 1];
      match RenderGroups(header, render, groups[..|groups| - 1])
      case Err(e) => Err(e)
      case Ok(done) =>
        match RenderFields(render, g.fields)
        case Err(e) => Err(e)
        case Ok(b) => Ok(Output(done.lines + [header(g.name)] + b.texts, done.groups + [Group(g.name, b.fields)]))
  }

  /** Rendering the groups succeeds exactly when every group's fields render. */
  lemma {:induction false} RenderGroupsOk(header: string -> string, render: FieldInfo -> Result<Rendered, Error>, groups: seq<Group>)
    ensures RenderGroups(header, render, groups).Ok? <==>
      forall i :: 0 <= i < |groups| ==> RenderFields(render, groups[i].fields).Ok?
    decreases |groups|
  {
    if groups != [] {
      var init := groups[..|groups| - 1];
      RenderGroupsOk(header, render, init);
      assert forall i :: 0 <= i < |init| ==> init[i] == groups[i];
    }
  }

  /**
   * A successful rendering keeps the groups' order and names, holds each group's
   * fields as the driver left them, and writes one line per group and one per field.
   */
  lemma {:induction false} RenderGroupsShape(header: string -> string, render: FieldInfo -> Result<Rendered, Error>, groups: seq<Group>)
    requires forall i :: 0 <= i < |groups| ==> RenderFields(render, groups[i].fields).Ok?
    ensures RenderGroups(header, render, groups).Ok?
    ensures var o := RenderGroups(header, render, groups).value;
      && |o.groups| == |groups|
      && |o.lines| == |groups| + FieldCount(groups)
      && forall i :: 0 <= i < |groups| ==>
           o.groups[i] == Group(groups[i].name, RenderFields(render, groups[i].fields).value.fields)
    decreases |groups|
  {
    if groups != [] {
      var init := groups[..|groups| - 1];
      var n := |groups| - 1;
      assert forall i :: 0 <= i < n ==> init[i] == groups[i];
      RenderGroupsShape(header, render, init);
      FieldCountSnoc(groups);
      var o := RenderGroups(header, render, groups).value;
      var o0 := RenderGroups(header, render, init).value;
      assert o.groups == o0.groups + [Group(groups[n].name, RenderFields(render, groups[n].fields).value.fields)];
      forall i | 0 <= i < |groups|
        ensures o.groups[i] == Group(groups[i].name, RenderFields(render, groups[i].fields).value.fields)
      {
        if i < n { assert init[i] == groups[i]; }
      }
    }
  }

  /** The number of fields over all groups. */
  function FieldCount(groups: seq<Group>): nat
  {
    if groups == [] then 0 else |groups[0].fields| + FieldCount(groups[1..])
  }

  lemma {:induction false} FieldCountSnoc(groups: seq<Group>)
    requires groups != []
    ensures FieldCount(groups) == FieldCount(groups[..|groups| - 1]) + |groups[|groups| - 1].fields|
  {
    if |groups| > 1 {
      FieldCountSnoc(groups[1..]);
      assert groups[1..][..|groups| - 2] == groups[..|groups| - 1][1..];
    }
  }

  /** A group of one struct is its header line followed by its blocks. */
  lemma OneGroup(header: string -> string, render: FieldInfo -> Result<Rendered, Error>, g: Group)
    requires RenderFields(render, g.fields).Ok?
    ensures RenderGroups(header, render, [g]) ==
      Ok(Output([header(g.name)] + RenderFields(render, g.fields).value.texts, [Group(g.name, RenderFields(render, g.fields).value.fields)]))
  {
    var gs := [g];
    assert gs[..|gs| - 1] == [];
    var b := RenderFields(render, g.fields).value;
    assert RenderGroups(header, render, []) == Ok(Output([], []));
    assert [] + [header(g.name)] + b.texts == [header(g.name)] + b.texts;
    assert [] + [Group(g.name, b.fields)] == [Group(g.name, b.fields)];
  }

  lemma {:induction false} FieldsErrExtends(render: FieldInfo -> Result<Rendered, Error>, fields: seq<FieldInfo>, k: nat)
    requires k <= |fields| && RenderFields(render, fields[..k]).Err?
    ensures RenderFields(render, fields) == RenderFields(render, fields[..k])
    decreases |fields|
  {
    if k < |fields| {
      assert fields[..|fields| - 1][..k] == fields[..k];
      FieldsErrExtends(render, fields[..|fields| - 1], k);
    } else {
      assert fields[..k] == fields;
    }
  }

  lemma {:induction false} GroupsErrExtends(header: string -> string, render: FieldInfo -> Result<Rendered, Error>, groups: seq<Group>, k: nat)
    requires k <= |groups| && RenderGroups(header, render, groups[..k]).Err?
    ensures RenderGroups(header, render, groups) == RenderGroups(header, render, groups[..k])
    decreases |groups|
  {
    if k < |groups| {
      assert groups[..|groups| - 1][..k] == groups[..k];
      GroupsErrExtends(header, render, groups[..|groups| - 1], k);
    } else {
      assert groups[..k] == groups;
    }
  }

  /**
   * The nested loops of a driver's `ExportConfigs`: appends each struct's header
   * line and then each field's block, and returns at the first field that fails.
   */
  method RenderSections(header: string -> string, render: FieldInfo -> Result<Rendered, Error>, groups: seq<Group>)
    returns (r: Result<Output, Error>)
    ensures r == RenderGroups(header, render, groups)
  {
    var lines: seq<string> := [];
    var done: seq<Group> := [];
    var i := 0;
    while i < |groups|
      invariant 0 <= i <= |groups|
      invariant RenderGroups(header, render, groups[..i]) == Ok(Output(lines, done))
    {
      var g := groups[i];
      assert groups[..i + 1][..i] == groups[..i];
      ghost var before := lines;
      lines := lines + [header(g.name)];
      var texts: seq<string> := [];
      var fields: seq<FieldInfo> := [];
      var j := 0;
      while j < |g.fields|
        invariant 0 <= j <= |g.fields|
        invariant RenderFields(render, g.fields[..j]) == Ok(Rendering(texts, fields))
        invariant lines == before + [header(g.name)] + texts
      {
        assert g.fields[..j + 1][..j] == g.fields[..j];
        var b := render(g.fields[j]);
        if b.Err? {
          FieldsErrExtends(render, g.fields, j + 1);
          assert groups[..i + 1][i] == g;
          GroupsErrExtends(header, render, groups, i + 1);
          return Err(b.error);
        }
        lines := lines + [b.value.text];
        texts := texts + [b.value.text];
        fields := fields + [b.value.field];
        j := j + 1;
      }
      assert g.fields[..j] == g.fields;
      assert groups[..i + 1][i] == g;
      done := done + [Group(g.name, fields)];
      i := i + 1;
    }
    assert groups[..i] == groups;
    r := Ok(Output(lines, done));
  }
}
