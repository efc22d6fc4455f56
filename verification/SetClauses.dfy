/** The SET clause of an UPDATE from the fields of a struct. */
module SetClauses {
  import opened Wrappers
  import opened QueryBuilders

  // A struct field: its "db" tag, its value, and whether that is the zero value of its type.
  datatype Field = Field(tag: string, value: Value, isZero: bool)

  datatype Assignment = Assignment(column: string, value: Value)

  // strings.Split(s, ",")[0]
  function BeforeComma(s: string): (r: string)
    ensures r <= s && ',' !in r
    ensures r == s || s[|r|] == ','
  {
    if s == "" || s[0] == ',' then "" else [s[0]] + BeforeComma(s[1..])
  }

  // The fields that are set: tagged and not zero.
  function Kept(fields: seq<Field>): seq<Assignment> {
    if fields == [] then []
    else
      var last := fields[|fields| - 1];
      var column := BeforeComma(last.tag);
      Kept(fields[..|fields| - 1]) + if column == "" || last.isZero then [] else [Assignment(column, last.value)]
  }

  function Join(parts: seq<string>, separator: string): string {
    if parts == [] then ""
    else if |parts| == 1 then parts[0]
    else Join(parts[..|parts| - 1], separator) + separator + parts[|parts| - 1]
  }

  function Columns(kept: seq<Assignment>): (parts: seq<string>)
    ensures |parts| == |kept|
  {
    seq(|kept|, i requires 0 <= i < |kept| => kept[i].column + " = ?")
  }

  function ValuesOf(kept: seq<Assignment>): (values: seq<Value>)
    ensures |values| == |kept|
  {
    seq(|kept|, i requires 0 <= i < |kept| => kept[i].value)
  }

  /** A loop over the fields; a value that is no struct gives nothing. */
  method BuildSetClause(fields: Option<seq<Field>>) returns (clause: string, params: seq<Value>)
    ensures fields.None? ==> clause == "" && params == []
    ensures fields.Some? ==> clause == Join(Columns(Kept(fields.value)), ", ") && params == ValuesOf(Kept(fields.value))
  {
    if fields.None? {
      return "", [];
    }
    var setClauses: seq<string> := [];
    params := [];
    assert fields.value[..0] == [];
    for i := 0 to |fields.value|
      invariant setClauses == Columns(Kept(fields.value[..i]))
      invariant params == ValuesOf(Kept(fields.value[..i]))
    {
      var field := fields.value[i];
      var tag := BeforeComma(field.tag);
      assert fields.value[..i + 1][..i] == fields.value[..i];
      if tag == "" {
        continue;
      }
      if !field.isZero {
        setClauses := setClauses + [tag + " = ?"];
        params := params + [field.value];
      }
    }
    assert fields.value[..|fields.value|] == fields.value;
    clause := Join(setClauses, ", ");
  }

  // What the database sees of the clause.
  function SetMeaning(kept: seq<Assignment>): seq<Piece> {
    if kept == [] then []
    else
      var last := kept[|kept| - 1];
      (if |kept| == 1 then [] else SetMeaning(kept[..|kept| - 1]) + Bind(", ", [])) + Bind(last.column + " = ?", [last.value])
  }

  lemma AssignmentHoles(column: string)
    requires HOLE !in column
    ensures Holes(column + " = ?") == 1
  {
    hide Holes;
    NoHoles(column);
    NoHoles(" = ");
    OneHole();
    HolesConcat(column, " = ?");
    HolesConcat(" = ", "?");
    assert " = " + "?" == " = ?";
  }

  /** Each column is assigned its own field's value. */
  lemma {:induction false} SetClauseBinds(kept: seq<Assignment>)
    requires forall i :: 0 <= i < |kept| ==> HOLE !in kept[i].column
    ensures Holes(Join(Columns(kept), ", ")) == |kept|
    ensures Bind(Join(Columns(kept), ", "), ValuesOf(kept)) == SetMeaning(kept)
  {
    hide Holes, Bind;
    if kept == [] {
      NothingBinds();
    } else {
      var front, last := kept[..|kept| - 1], kept[|kept| - 1];
      AssignmentHoles(last.column);
      assert ValuesOf(kept) == ValuesOf(front) + [last.value];
      assert Columns(kept)[..|kept| - 1] == Columns(front);
      if front == [] {
        assert ValuesOf(kept) == [last.value];
      } else {
        SetClauseBinds(front);
        NoHoles(", ");
        BindText(Join(Columns(front), ", "), ValuesOf(front), ", ");
        BindMore(Join(Columns(front), ", ") + ", ", ValuesOf(front), last.column + " = ?", [last.value]);
      }
    }
  }

  lemma NothingBinds()
    ensures Holes("") == 0 && Bind("", []) == []
  {
  }

  lemma EmptyIffNothingKept(kept: seq<Assignment>)
    ensures Join(Columns(kept), ", ") == "" <==> kept == []
  {
    if kept != [] {
      assert |Columns(kept)[|kept| - 1]| > 0;
    }
  }
}
