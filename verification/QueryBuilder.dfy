/** The SQL query builder: a query text with placeholders and the values to bind to them. */
module QueryBuilders {

  datatype Value = Text(text: string) | Number(number: int) | Flag(flag: bool) | Array(items: seq<string>)

  const HOLE: char := '?'

  function Holes(q: string): nat {
    if q == "" then 0 else (if q[0] == HOLE then 1 else 0) + Holes(q[1..])
  }

  // ------------------------------------------------------------------------------- binding

  // A query as the database sees it: letters, and values in place of the placeholders.
  datatype Piece = Letter(c: char) | Bound(v: Value) | Unbound

  // Numbering the placeholders from left to right and sending the values in order comes to this.
  function Bind(q: string, values: seq<Value>): seq<Piece> {
    if q == "" then []
    else if q[0] != HOLE then [Letter(q[0])] + Bind(q[1..], values)
    else if values == [] then [Unbound] + Bind(q[1..], values)
    else [Bound(values[0])] + Bind(q[1..], values[1..])
  }

  lemma {:induction false} HolesConcat(a: string, b: string)
    ensures Holes(a + b) == Holes(a) + Holes(b)
  {
    if a == "" {
      assert a + b == b;
    } else {
      assert (a + b)[1..] == a[1..] + b;
      HolesConcat(a[1..], b);
    }
  }

  /** Two balanced texts one after the other bind each to its own values. */
  lemma {:induction false} BindConcat(a: string, values: seq<Value>, b: string, more: seq<Value>)
    requires Holes(a) == |values|
    ensures Bind(a + b, values + more) == Bind(a, values) + Bind(b, more)
  {
    if a == "" {
      assert a + b == b && values + more == more;
    } else {
      assert (a + b)[1..] == a[1..] + b;
      if a[0] == HOLE {
        assert (values + more)[1..] == values[1..] + more;
        BindConcat(a[1..], values[1..], b, more);
      } else {
        BindConcat(a[1..], values, b, more);
      }
    }
  }

  lemma {:induction false} NoHoles(q: string)
    requires HOLE !in q
    ensures Holes(q) == 0
  {
    if q != "" {
      assert q[0] in q;
      NoHoles(q[1..]);
    }
  }

  // -------------------------------------------------------------------------- what is to be built

  // A condition with its connective, and its own values.
  datatype Clause = Clause(text: string, values: seq<Value>)

  datatype Page = Page(limit: int, offset: int)

  // Everything that the calls on a builder have asked for.
  datatype Request = Request(base: string, clauses: seq<Clause>, groupBy: string, sorting: string, pages: seq<Page>, skipLocked: bool)

  const PAGINATION := "LIMIT ? OFFSET ?"

  function WhereText(clauses: seq<Clause>): string {
    if clauses == [] then "" else WhereText(clauses[..|clauses| - 1]) + " " + clauses[|clauses| - 1].text
  }

  function WhereValues(clauses: seq<Clause>): seq<Value> {
    if clauses == [] then [] else WhereValues(clauses[..|clauses| - 1]) + clauses[|clauses| - 1].values
  }

  function PageValues(pages: seq<Page>): (values: seq<Value>)
    ensures |values| == 2 * |pages|
  {
    if pages == [] then [] else
    PageValues(pages[..|pages| - 1]) + [Number(pages[|pages| - 1].limit), Number(pages[|pages| - 1].offset)]
  }

  // What the database is to see: each clause with its own values, in the order of SQL.
  function Meaning(r: Request): seq<Piece> {
    Bind(r.base, [])
    + (if r.clauses == [] then [] else Bind(" WHERE 1=1", []) + ClausesMeaning(r.clauses))
    + Bind(Spaced(r.groupBy), [])
    + Bind(Spaced(r.sorting), [])
    + (if r.pages == [] then [] else Bind(" " + PAGINATION, [Number(r.pages[0].limit), Number(r.pages[0].offset)]))
    + (if r.skipLocked then Bind(" FOR UPDATE SKIP LOCKED", []) else [])
  }

  function ClausesMeaning(clauses: seq<Clause>): seq<Piece> {
    if clauses == [] then []
    else ClausesMeaning(clauses[..|clauses| - 1]) + Bind(" ", []) + Bind(clauses[|clauses| - 1].text, clauses[|clauses| - 1].values)
  }

  // Conditions have as many placeholders as values, and nothing else has any.
  predicate Balanced(r: Request) {
    && Holes(r.base) == 0 && Holes(r.groupBy) == 0 && Holes(r.sorting) == 0
    && forall k :: 0 <= k < |r.clauses| ==> Holes(r.clauses[k].text) == |r.clauses[k].values|
  }

  function Spaced(s: string): string {
    if s == "" then "" else " " + s
  }

  function Append(q: string, s: string): string {
    if s == "" then q else q + " " + s
  }

  function Filtered(r: Request): string {
    if r.clauses == [] then r.base else r.base + " WHERE 1=1" + WhereText(r.clauses)
  }

  // The query up to the pagination, and the whole query.
  function Head(r: Request): string {
    Append(Append(Filtered(r), r.groupBy), r.sorting)
  }

  function Query(r: Request): string {
    var paged := if r.pages == [] then Head(r) else Head(r) + " " + PAGINATION;
    if r.skipLocked then paged + " FOR UPDATE SKIP LOCKED" else paged
  }

  function Params(r: Request): seq<Value> {
    WhereValues(r.clauses) + PageValues(r.pages)
  }

  // ------------------------------------------------------------------------------- alignment

  lemma {:induction false} WhereBalanced(clauses: seq<Clause>)
    requires forall k :: 0 <= k < |clauses| ==> Holes(clauses[k].text) == |clauses[k].values|
    ensures Holes(WhereText(clauses)) == |WhereValues(clauses)|
    ensures Bind(WhereText(clauses), WhereValues(clauses)) == ClausesMeaning(clauses)
  {
    if clauses != [] {
      var front, last := clauses[..|clauses| - 1], clauses[|clauses| - 1];
      WhereBalanced(front);
      HolesConcat(WhereText(front) + " ", last.text);
      HolesConcat(WhereText(front), " ");
      BindConcat(WhereText(front), WhereValues(front), " ", []);
      assert WhereValues(front) + [] == WhereValues(front);
      BindConcat(WhereText(front) + " ", WhereValues(front), last.text, last.values);
    }
  }

  // One more part at the end.
  lemma BindMore(a: string, values: seq<Value>, b: string, more: seq<Value>)
    requires Holes(a) == |values|
    ensures Holes(a + b) == |values| + Holes(b)
    ensures Bind(a + b, values + more) == Bind(a, values) + Bind(b, more)
  {
    HolesConcat(a, b);
    BindConcat(a, values, b, more);
  }

  lemma BindText(a: string, values: seq<Value>, b: string)
    requires Holes(a) == |values| && Holes(b) == 0
    ensures Holes(a + b) == |values| && Bind(a + b, values) == Bind(a, values) + Bind(b, [])
  {
    BindMore(a, values, b, []);
    assert values + [] == values;
  }

  // What the database sees of the query up to the pagination.
  function HeadMeaning(r: Request): seq<Piece> {
    Bind(r.base, [])
    + (if r.clauses == [] then [] else Bind(" WHERE 1=1", []) + ClausesMeaning(r.clauses))
    + Bind(Spaced(r.groupBy), [])
    + Bind(Spaced(r.sorting), [])
  }

  lemma WithWhere(base: string, clauses: seq<Clause>)
    requires Holes(base) == 0 && clauses != []
    requires forall k :: 0 <= k < |clauses| ==> Holes(clauses[k].text) == |clauses[k].values|
    ensures var q := base + " WHERE 1=1" + WhereText(clauses);
            && Holes(q) == |WhereValues(clauses)|
            && Bind(q, WhereValues(clauses)) == Bind(base, []) + (Bind(" WHERE 1=1", []) + ClausesMeaning(clauses))
  {
    hide WhereText, WhereValues, ClausesMeaning, Holes, Bind;
    WhereBalanced(clauses);
    NoHoles(" WHERE 1=1");
    BindText(base, [], " WHERE 1=1");
    BindMore(base + " WHERE 1=1", [], WhereText(clauses), WhereValues(clauses));
    assert [] + WhereValues(clauses) == WhereValues(clauses);
  }

  lemma HeadAligned(r: Request)
    requires Balanced(r)
    ensures Holes(Head(r)) == |WhereValues(r.clauses)|
    ensures Bind(Head(r), WhereValues(r.clauses)) == HeadMeaning(r)
  {
    hide Holes, Bind, WhereText, WhereValues, ClausesMeaning, Spaced, Append;
    var values := WhereValues(r.clauses);
    var q := if r.clauses == [] then r.base else r.base + " WHERE 1=1" + WhereText(r.clauses);
    WhereEmpty(r.clauses);
    if r.clauses != [] {
      WithWhere(r.base, r.clauses);
    }
    SpacedHoles(r.groupBy);
    SpacedHoles(r.sorting);
    BindText(q, values, Spaced(r.groupBy));
    BindText(q + Spaced(r.groupBy), values, Spaced(r.sorting));
    AppendSpaced(q, r.groupBy);
    AppendSpaced(q + Spaced(r.groupBy), r.sorting);
  }

  lemma AppendSpaced(q: string, s: string)
    ensures Append(q, s) == q + Spaced(s)
  {
  }

  lemma SpacedHoles(s: string)
    ensures Holes(Spaced(s)) == Holes(s)
  {
    if s != "" {
      HolesConcat(" ", s);
    }
  }

  lemma LockHoles()
    ensures Holes(" FOR UPDATE SKIP LOCKED") == 0
  {
    NoHoles(" FOR UPDATE SKIP LOCKED");
  }

  lemma PaginationHoles()
    ensures Holes(" ") == 0 && Holes(PAGINATION) == 2
  {
    hide Holes;
    NoHoles("LIMIT ");
    NoHoles(" OFFSET ");
    NoHoles(" ");
    OneHole();
    HolesConcat("LIMIT ", "?");
    HolesConcat("LIMIT " + "?", " OFFSET ");
    HolesConcat("LIMIT " + "?" + " OFFSET ", "?");
    assert PAGINATION == "LIMIT " + "?" + " OFFSET " + "?";
  }

  lemma OneHole()
    ensures Holes("?") == 1
  {
    assert "?"[1..] == "";
  }

  /**
   With balanced conditions and at most one page asked for, the built query has as many placeholders as
   values and means what was asked for: every condition gets its own values, clauses in SQL's order.
   */
  lemma BuiltMeansAsked(r: Request)
    requires Balanced(r) && |r.pages| <= 1
    ensures Holes(Query(r)) == |Params(r)|
    ensures Bind(Query(r), Params(r)) == Meaning(r)
  {
    hide Head, HeadMeaning, Holes, Bind, Balanced, PAGINATION, WhereValues;
    HeadAligned(r);
    MeaningIsHead(r);
    LockHoles();
    PaginationHoles();
    var values := WhereValues(r.clauses);
    var paged := if r.pages == [] then Head(r) else Head(r) + " " + PAGINATION;
    if r.pages == [] {
      assert Params(r) == values;
    } else {
      OnePage(r.pages);
      HolesConcat(" ", PAGINATION);
      BindMore(Head(r), values, " " + PAGINATION, PageValues(r.pages));
      assert Head(r) + (" " + PAGINATION) == paged;
    }
    if r.skipLocked {
      BindText(paged, Params(r), " FOR UPDATE SKIP LOCKED");
    }
  }

  lemma OnePage(pages: seq<Page>)
    requires |pages| == 1
    ensures PageValues(pages) == [Number(pages[0].limit), Number(pages[0].offset)]
  {
    assert pages[..0] == [];
  }

  lemma MeaningIsHead(r: Request)
    ensures Meaning(r) ==
            HeadMeaning(r)
            + (if r.pages == [] then [] else Bind(" " + PAGINATION, [Number(r.pages[0].limit), Number(r.pages[0].offset)]))
            + (if r.skipLocked then Bind(" FOR UPDATE SKIP LOCKED", []) else [])
  {
    hide Bind;
  }

  /** Asking for a second page breaks the alignment, and nothing else does: its values have no placeholders. */
  lemma AlignedIffOnePage(r: Request)
    requires Balanced(r)
    ensures Holes(Query(r)) == |Params(r)| <==> |r.pages| <= 1
  {
    hide Head, HeadMeaning, Holes, Bind, Balanced, PAGINATION, Meaning, WhereValues, PageValues;
    if |r.pages| <= 1 {
      BuiltMeansAsked(r);
    } else {
      HeadAligned(r);
      LockHoles();
      PaginationHoles();
      HolesConcat(Head(r), " ");
      HolesConcat(Head(r) + " ", PAGINATION);
      HolesConcat(Head(r) + " " + PAGINATION, " FOR UPDATE SKIP LOCKED");
    }
  }

  // -------------------------------------------------------------------------------- the builder

  class QueryBuilder {
    var baseQuery: string
    var whereClause: string
    var whereParams: seq<Value>
    var sortClause: string
    var groupByClause: string
    var paginationClause: string
    var paginationParams: seq<Value>
    var forUpdateSkipLocked: bool
    // What has been asked for so far.
    ghost var asked: Request

    ghost predicate Valid()
      reads this
    {
      && baseQuery == asked.base
      && whereClause == WhereText(asked.clauses) && whereParams == WhereValues(asked.clauses)
      && groupByClause == asked.groupBy && sortClause == asked.sorting
      && paginationClause == (if asked.pages == [] then "" else PAGINATION)
      && paginationParams == PageValues(asked.pages)
      && forUpdateSkipLocked == asked.skipLocked
    }

    constructor (query: string)
      ensures Valid() && asked == Request(query, [], "", "", [], false)
    {
      baseQuery, whereClause, whereParams := query, "", [];
      sortClause, groupByClause, paginationClause, paginationParams := "", "", "", [];
      forUpdateSkipLocked := false;
      asked := Request(query, [], "", "", [], false);
    }

    method AddClause(text: string, values: seq<Value>)
      requires Valid()
      modifies this
      ensures Valid() && asked == old(asked).(clauses := old(asked).clauses + [Clause(text, values)])
    {
      hide Holes, Bind, PageValues;
      ghost var clauses := asked.clauses;
      asked := asked.(clauses := clauses + [Clause(text, values)]);
      assert asked.clauses[..|clauses|] == clauses;
      whereClause := whereClause + " " + text;
      if |values| > 0 {
        whereParams := whereParams + values;
      }
    }

    method AddCondition(condition: string, values: seq<Value>)
      requires Valid()
      modifies this
      ensures Valid() && asked == old(asked).(clauses := old(asked).clauses + [Clause("AND " + condition, values)])
    {
      AddClause("AND " + condition, values);
    }

    method AddOrCondition(condition: string, values: seq<Value>)
      requires Valid()
      modifies this
      ensures Valid() && asked == old(asked).(clauses := old(asked).clauses + [Clause("OR " + condition, values)])
    {
      AddClause("OR " + condition, values);
    }

    method AddGroupBy(fields: string)
      requires Valid()
      modifies this
      ensures Valid() && asked == old(asked).(groupBy := "GROUP BY " + fields)
    {
      hide Holes, Bind, PageValues, WhereText, WhereValues;
      groupByClause := "GROUP BY " + fields;
      asked := asked.(groupBy := groupByClause);
    }

    method AddSorting(sortField: string, sortOrder: string, prefix: string)
      requires Valid()
      modifies this
      ensures Valid()
      ensures asked == if sortField == "" then old(asked)
                       else old(asked).(sorting := "ORDER BY " + prefix + "." + sortField + " " + sortOrder)
    {
      hide Holes, Bind, PageValues, WhereText, WhereValues;
      if sortField != "" {
        sortClause := "ORDER BY " + prefix + "." + sortField + " " + sortOrder;
        asked := asked.(sorting := sortClause);
      }
    }

    method AddPagination(page: int, pageLimit: int)
      requires Valid()
      modifies this
      ensures Valid()
      ensures asked == if page > 0 && pageLimit > 0 then
                         old(asked).(pages := old(asked).pages + [Page(pageLimit, (page - 1) * pageLimit)])
                       else old(asked)
    {
      hide Holes, Bind, WhereText, WhereValues;
      if page > 0 && pageLimit > 0 {
        var offset := (page - 1) * pageLimit;
        paginationClause := PAGINATION;
        paginationParams := paginationParams + [Number(pageLimit), Number(offset)];
        ghost var pages := asked.pages;
        asked := asked.(pages := pages + [Page(pageLimit, offset)]);
        assert asked.pages[..|pages|] == pages;
      }
    }

    method SetForUpdateSkipLocked(skipLocked: bool)
      requires Valid()
      modifies this
      ensures Valid() && asked == old(asked).(skipLocked := skipLocked)
    {
      hide Holes, Bind, PageValues, WhereText, WhereValues;
      forUpdateSkipLocked := skipLocked;
      asked := asked.(skipLocked := skipLocked);
    }

    method Build() returns (query: string, params: seq<Value>)
      requires Valid()
      ensures query == Query(asked) && params == Params(asked)
    {
      hide Holes, Bind, PAGINATION, WhereText, WhereValues, PageValues;
      query := baseQuery;
      params := [];
      WhereEmpty(asked.clauses);
      if whereClause != "" {
        query := query + " WHERE 1=1" + whereClause;
        params := params + whereParams;
      }
      assert query == Filtered(asked) && params == WhereValues(asked.clauses);
      if groupByClause != "" {
        query := query + " " + groupByClause;
      }
      assert query == Append(Filtered(asked), asked.groupBy);
      if sortClause != "" {
        query := query + " " + sortClause;
      }
      assert query == Head(asked);
      hide Append, Head, Filtered;
      PagesEmpty(asked.pages);
      if paginationClause != "" {
        query := query + " " + paginationClause;
        params := params + paginationParams;
      }
      assert params == Params(asked);
      if forUpdateSkipLocked {
        query := query + " FOR UPDATE SKIP LOCKED";
      }
    }
  }

  lemma PagesEmpty(pages: seq<Page>)
    ensures PAGINATION != ""
    ensures pages == [] ==> PageValues(pages) == []
  {
  }

  lemma WhereEmpty(clauses: seq<Clause>)
    ensures WhereText(clauses) == "" <==> clauses == []
    ensures clauses == [] ==> WhereValues(clauses) == []
  {
  }
}
