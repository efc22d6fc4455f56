/** The five search queries: which filter contributes which condition, and that all of them bind. */
module Queries {
  import opened QueryBuilders

  datatype FilterKey =
    | ID | STATUS | RECEIVER_ID | DISBURSEMENT_ID | PAYMENT_ID | CREATED_AT_AFTER | CREATED_AT_BEFORE | PAYMENT_TYPE
    | COMPLETED_AT_IS_NULL | SYNC_ATTEMPTS_LOWER_THAN

  datatype QueryParams = QueryParams(
    query: string, filters: map<FilterKey, Value>, page: int, pageLimit: int, sortBy: string, sortOrder: string, skipLocked: bool)

  datatype QueryType = SELECT_PAGINATED | SELECT_ALL | SINGLE

  // ------------------------------------------------------------ what each filter is to contribute

  function Search(params: QueryParams, condition: string, n: nat): seq<Clause> {
    if params.query == "" then [] else [Clause("AND " + condition, seq(n, _ => Text("%" + params.query + "%")))]
  }

  function Given(params: QueryParams, key: FilterKey, column: string): seq<Clause> {
    if key in params.filters then [Clause("AND " + (column + "?"), [params.filters[key]])] else []
  }

  function Chosen(column: string, v: Value): Clause {
    if v.Array? && |v.items| > 0 then Clause("AND " + (column + " = ANY(?)"), [v]) else Clause("AND " + (column + " = ?"), [v])
  }

  function ArrayOrSingle(params: QueryParams, key: FilterKey, column: string): seq<Clause> {
    if key in params.filters then [Chosen(column, params.filters[key])] else []
  }

  function NonEmptyArray(params: QueryParams, key: FilterKey, column: string): seq<Clause> {
    if key in params.filters && params.filters[key].Array? && |params.filters[key].items| > 0
    then [Clause("AND " + (column + " = ANY(?)"), [params.filters[key]])] else []
  }

  // column ILIKE ? OR ..., in parentheses
  function Alternatives(columns: seq<string>): string {
    if columns == [] then ""
    else if |columns| == 1 then columns[0] + " ILIKE " + "?"
    else Alternatives(columns[..|columns| - 1]) + (" OR " + columns[|columns| - 1] + " ILIKE " + "?")
  }

  function AnyOf(columns: seq<string>): string {
    "(" + Alternatives(columns) + ")"
  }

  const PAYMENT_SEARCH := ["p.id", "p.external_payment_id", "rw.stellar_address", "COALESCE(d.name, '')"]

  const RECEIVER_SEARCH := ["r.id", "r.phone_number", "r.email"]

  function PaymentClauses(params: QueryParams): seq<Clause> {
    Search(params, AnyOf(PAYMENT_SEARCH), 4)
    + ArrayOrSingle(params, ID, "p.id") + ArrayOrSingle(params, STATUS, "p.status")
    + Given(params, RECEIVER_ID, "p.receiver_id = ") + Given(params, DISBURSEMENT_ID, "p.disbursement_id = ")
    + Given(params, CREATED_AT_AFTER, "p.created_at >= ") + Given(params, CREATED_AT_BEFORE, "p.created_at <= ")
    + ArrayOrSingle(params, PAYMENT_TYPE, "p.type")
  }

  function DisbursementClauses(params: QueryParams): seq<Clause> {
    Search(params, Alternatives(["d.name"]), 1)
    + NonEmptyArray(params, STATUS, "d.status")
    + Given(params, CREATED_AT_AFTER, "d.created_at >= ") + Given(params, CREATED_AT_BEFORE, "d.created_at <= ")
  }

  function ReceiverClauses(params: QueryParams): seq<Clause> {
    ArrayOrSingle(params, ID, "r.id") + Search(params, AnyOf(RECEIVER_SEARCH), 3)
    + Given(params, STATUS, "rw.status = ")
    + Given(params, CREATED_AT_AFTER, "r.created_at >= ") + Given(params, CREATED_AT_BEFORE, "r.created_at <= ")
  }

  // An empty list of statuses is no filter; a single status is one.
  function StatusClauses(params: QueryParams): seq<Clause> {
    if STATUS in params.filters && !params.filters[STATUS].Array? then Given(params, STATUS, "c.status = ")
    else NonEmptyArray(params, STATUS, "c.status")
  }

  function IncompleteClauses(params: QueryParams): seq<Clause> {
    if COMPLETED_AT_IS_NULL in params.filters then [Clause("AND " + "c.completed_at IS NULL", [])] else []
  }

  function TransferClauses(params: QueryParams): seq<Clause> {
    StatusClauses(params) + Given(params, PAYMENT_ID, "c.payment_id = ") + IncompleteClauses(params)
    + Given(params, SYNC_ATTEMPTS_LOWER_THAN, "c.sync_attempts < ")
  }

  function Sorting(params: QueryParams, prefix: string): string {
    if params.sortBy == "" then "" else "ORDER BY " + prefix + "." + params.sortBy + " " + params.sortOrder
  }

  function Pages(params: QueryParams): seq<Page> {
    if params.page > 0 && params.pageLimit > 0 then [Page(params.pageLimit, (params.page - 1) * params.pageLimit)] else []
  }

  function Listed(base: string, clauses: seq<Clause>, params: QueryParams, queryType: QueryType, prefix: string): Request {
    match queryType
    case SELECT_PAGINATED => Request(base, clauses, "", Sorting(params, prefix), Pages(params), false)
    case SELECT_ALL => Request(base, clauses, "", Sorting(params, prefix), [], false)
    case SINGLE => Request(base, clauses, "", "", [], false)
  }

  // Sort columns and orders are names.
  predicate NamesOnly(base: string, params: QueryParams) {
    HOLE !in base && HOLE !in params.sortBy && HOLE !in params.sortOrder
  }

  // ---------------------------------------------------------------------------- balanced clauses

  ghost predicate AllBalanced(clauses: seq<Clause>) {
    forall k :: 0 <= k < |clauses| ==> Holes(clauses[k].text) == |clauses[k].values|
  }

  lemma EndsWithHole(s: string)
    requires HOLE !in s
    ensures Holes(s + "?") == 1
  {
    NoHoles(s);
    HoleAfter(s);
  }

  lemma HoleAfter(s: string)
    requires Holes(s) == 0
    ensures Holes(s + "?") == 1
  {
    OneHole();
    HolesConcat(s, "?");
  }

  lemma AndHoles(condition: string)
    ensures Holes("AND " + condition) == Holes(condition)
  {
    NoHoles("AND ");
    HolesConcat("AND ", condition);
  }

  lemma AnyHoles(column: string)
    requires HOLE !in column
    ensures Holes(column + " = ANY(?)") == 1 && Holes(column + " = ?") == 1
  {
    hide Holes;
    NoHoles(column);
    NoHoles(")");
    EndsWithHole(" = ANY(");
    HolesConcat(" = ANY(" + "?", ")");
    HolesConcat(column, " = ANY(" + "?" + ")");
    assert column + " = ANY(?)" == column + (" = ANY(" + "?" + ")");
    EndsWithHole(" = ");
    HolesConcat(column, " = " + "?");
    assert column + " = ?" == column + (" = " + "?");
  }

  lemma GivenBalanced(params: QueryParams, key: FilterKey, column: string)
    requires HOLE !in column
    ensures AllBalanced(Given(params, key, column))
  {
    hide Holes;
    EndsWithHole(column);
    AndHoles(column + "?");
  }

  lemma ChoiceBalanced(params: QueryParams, key: FilterKey, column: string)
    requires HOLE !in column
    ensures AllBalanced(ArrayOrSingle(params, key, column)) && AllBalanced(NonEmptyArray(params, key, column))
  {
    hide Holes;
    AnyHoles(column);
    AndHoles(column + " = ANY(?)");
    AndHoles(column + " = ?");
  }

  lemma SearchBalanced(params: QueryParams, condition: string, n: nat)
    requires Holes(condition) == n
    ensures AllBalanced(Search(params, condition, n))
  {
    hide Holes;
    AndHoles(condition);
  }

  lemma {:induction false} AlternativesHoles(columns: seq<string>)
    requires forall k :: 0 <= k < |columns| ==> HOLE !in columns[k]
    ensures Holes(Alternatives(columns)) == |columns|
  {
    hide Holes;
    if columns == [] {
      NoHoles("");
    } else {
      var front, last := columns[..|columns| - 1], columns[|columns| - 1];
      EndsWithHole(last + " ILIKE ");
      if front != [] {
        AlternativesHoles(front);
        EndsWithHole(" OR " + last + " ILIKE ");
        HolesConcat(Alternatives(front), " OR " + last + " ILIKE " + "?");
      }
    }
  }

  lemma AnyOfHoles(columns: seq<string>)
    requires forall k :: 0 <= k < |columns| ==> HOLE !in columns[k]
    ensures Holes(AnyOf(columns)) == |columns|
  {
    hide Holes;
    AlternativesHoles(columns);
    NoHoles("(");
    NoHoles(")");
    HolesConcat("(", Alternatives(columns));
    HolesConcat("(" + Alternatives(columns), ")");
  }

  lemma SortingHoles(params: QueryParams, prefix: string)
    requires HOLE !in params.sortBy && HOLE !in params.sortOrder && HOLE !in prefix
    ensures Holes(Sorting(params, prefix)) == 0
  {
    NoHoles(Sorting(params, prefix));
  }

  lemma ListedBalanced(base: string, clauses: seq<Clause>, params: QueryParams, queryType: QueryType, prefix: string)
    requires NamesOnly(base, params) && HOLE !in prefix && AllBalanced(clauses)
    ensures Balanced(Listed(base, clauses, params, queryType, prefix)) && |Listed(base, clauses, params, queryType, prefix).pages| <= 1
  {
    NoHoles(base);
    NoHoles("");
    SortingHoles(params, prefix);
    hide Holes;
  }

  lemma PaymentBalanced(params: QueryParams)
    ensures AllBalanced(PaymentClauses(params))
  {
    hide Holes, Search, ArrayOrSingle, Given, AnyOf;
    AnyOfHoles(PAYMENT_SEARCH);
    SearchBalanced(params, AnyOf(PAYMENT_SEARCH), 4);
    ChoiceBalanced(params, ID, "p.id");
    ChoiceBalanced(params, STATUS, "p.status");
    GivenBalanced(params, RECEIVER_ID, "p.receiver_id = ");
    GivenBalanced(params, DISBURSEMENT_ID, "p.disbursement_id = ");
    GivenBalanced(params, CREATED_AT_AFTER, "p.created_at >= ");
    GivenBalanced(params, CREATED_AT_BEFORE, "p.created_at <= ");
    ChoiceBalanced(params, PAYMENT_TYPE, "p.type");
  }

  lemma DisbursementBalanced(params: QueryParams)
    ensures AllBalanced(DisbursementClauses(params))
  {
    hide Holes, Search, NonEmptyArray, Given, Alternatives;
    AlternativesHoles(["d.name"]);
    SearchBalanced(params, Alternatives(["d.name"]), 1);
    ChoiceBalanced(params, STATUS, "d.status");
    GivenBalanced(params, CREATED_AT_AFTER, "d.created_at >= ");
    GivenBalanced(params, CREATED_AT_BEFORE, "d.created_at <= ");
  }

  lemma ReceiverBalanced(params: QueryParams)
    ensures AllBalanced(ReceiverClauses(params))
  {
    hide Holes, Search, ArrayOrSingle, Given, AnyOf;
    AnyOfHoles(RECEIVER_SEARCH);
    ChoiceBalanced(params, ID, "r.id");
    SearchBalanced(params, AnyOf(RECEIVER_SEARCH), 3);
    GivenBalanced(params, STATUS, "rw.status = ");
    GivenBalanced(params, CREATED_AT_AFTER, "r.created_at >= ");
    GivenBalanced(params, CREATED_AT_BEFORE, "r.created_at <= ");
  }

  lemma TransferBalanced(params: QueryParams)
    ensures AllBalanced(TransferClauses(params))
  {
    hide Holes, NonEmptyArray, Given;
    GivenBalanced(params, STATUS, "c.status = ");
    ChoiceBalanced(params, STATUS, "c.status");
    GivenBalanced(params, PAYMENT_ID, "c.payment_id = ");
    NoHoles("c.completed_at IS NULL");
    AndHoles("c.completed_at IS NULL");
    GivenBalanced(params, SYNC_ATTEMPTS_LOWER_THAN, "c.sync_attempts < ");
  }

  // ---------------------------------------------------------------------------- the query functions

  // The query with its values is what the request means.
  ghost predicate Binds(query: string, values: seq<Value>, r: Request) {
    Holes(query) == |values| && Bind(query, values) == Meaning(r)
  }

  method AddSearch(qb: QueryBuilder, params: QueryParams, condition: string, n: nat)
    requires qb.Valid()
    modifies qb
    ensures qb.Valid() && qb.asked == old(qb.asked).(clauses := old(qb.asked).clauses + Search(params, condition, n))
  {
    hide Holes, Bind, WhereText, WhereValues, PageValues;
    if params.query != "" {
      var q := "%" + params.query + "%";
      qb.AddCondition(condition, seq(n, _ => Text(q)));
      assert seq(n, _ => Text(q)) == seq(n, _ => Text("%" + params.query + "%"));
    } else {
      assert old(qb.asked).clauses + [] == old(qb.asked).clauses;
    }
  }

  method AddGiven(qb: QueryBuilder, params: QueryParams, key: FilterKey, column: string)
    requires qb.Valid()
    modifies qb
    ensures qb.Valid() && qb.asked == old(qb.asked).(clauses := old(qb.asked).clauses + Given(params, key, column))
  {
    hide Holes, Bind, WhereText, WhereValues, PageValues;
    if key in params.filters {
      qb.AddCondition(column + "?", [params.filters[key]]);
    } else {
      assert old(qb.asked).clauses + [] == old(qb.asked).clauses;
    }
  }

  method AddArrayOrSingleCondition(qb: QueryBuilder, column: string, v: Value)
    requires qb.Valid()
    modifies qb
    ensures qb.Valid() && qb.asked == old(qb.asked).(clauses := old(qb.asked).clauses + [Chosen(column, v)])
  {
    hide Holes, Bind, WhereText, WhereValues, PageValues;
    if v.Array? && |v.items| > 0 {
      qb.AddCondition(column + " = ANY(?)", [v]);
    } else {
      qb.AddCondition(column + " = ?", [v]);
    }
  }

  method AddChoice(qb: QueryBuilder, params: QueryParams, key: FilterKey, column: string)
    requires qb.Valid()
    modifies qb
    ensures qb.Valid() && qb.asked == old(qb.asked).(clauses := old(qb.asked).clauses + ArrayOrSingle(params, key, column))
  {
    hide Holes, Bind, WhereText, WhereValues, PageValues, Chosen;
    if key in params.filters {
      AddArrayOrSingleCondition(qb, column, params.filters[key]);
    } else {
      assert old(qb.asked).clauses + [] == old(qb.asked).clauses;
    }
  }

  method AddNonEmptyArray(qb: QueryBuilder, params: QueryParams, key: FilterKey, column: string)
    requires qb.Valid()
    modifies qb
    ensures qb.Valid() && qb.asked == old(qb.asked).(clauses := old(qb.asked).clauses + NonEmptyArray(params, key, column))
  {
    hide Holes, Bind, WhereText, WhereValues, PageValues;
    if key in params.filters && params.filters[key].Array? && |params.filters[key].items| > 0 {
      qb.AddCondition(column + " = ANY(?)", [params.filters[key]]);
    } else {
      assert old(qb.asked).clauses + [] == old(qb.asked).clauses;
    }
  }

  // The pagination is asked for before the sorting; it comes out after it.
  method AddListing(qb: QueryBuilder, params: QueryParams, queryType: QueryType, prefix: string, ghost base: string, ghost clauses: seq<Clause>)
    requires qb.Valid() && qb.asked == Request(base, clauses, "", "", [], false)
    modifies qb
    ensures qb.Valid() && qb.asked == Listed(base, clauses, params, queryType, prefix)
  {
    hide Holes, Bind, WhereText, WhereValues, PageValues;
    match queryType {
      case SELECT_PAGINATED =>
        qb.AddPagination(params.page, params.pageLimit);
        qb.AddSorting(params.sortBy, params.sortOrder, prefix);
        assert [] + Pages(params) == Pages(params);
      case SELECT_ALL =>
        qb.AddSorting(params.sortBy, params.sortOrder, prefix);
      case SINGLE =>
    }
  }

  lemma RequestBinds(r: Request)
    requires Balanced(r) && |r.pages| <= 1
    ensures Binds(Query(r), Params(r), r)
  {
    hide Holes, Bind, Meaning, Query, Params, Balanced;
    BuiltMeansAsked(r);
  }

  method AddPaymentFilters(qb: QueryBuilder, params: QueryParams)
    requires qb.Valid() && qb.asked.clauses == []
    modifies qb
    ensures qb.Valid() && qb.asked == old(qb.asked).(clauses := PaymentClauses(params))
  {
    hide Holes, Bind, WhereText, WhereValues, PageValues, Search, ArrayOrSingle, Given, AnyOf, QueryBuilder.Valid;
    ghost var first := Search(params, AnyOf(PAYMENT_SEARCH), 4);
    AddSearch(qb, params, AnyOf(PAYMENT_SEARCH), 4);
    assert [] + first == first;
    AddChoice(qb, params, ID, "p.id");
    AddChoice(qb, params, STATUS, "p.status");
    AddGiven(qb, params, RECEIVER_ID, "p.receiver_id = ");
    AddGiven(qb, params, DISBURSEMENT_ID, "p.disbursement_id = ");
    AddGiven(qb, params, CREATED_AT_AFTER, "p.created_at >= ");
    AddGiven(qb, params, CREATED_AT_BEFORE, "p.created_at <= ");
    AddChoice(qb, params, PAYMENT_TYPE, "p.type");
  }

  method AddReceiverFilters(qb: QueryBuilder, params: QueryParams)
    requires qb.Valid() && qb.asked.clauses == []
    modifies qb
    ensures qb.Valid() && qb.asked == old(qb.asked).(clauses := ReceiverClauses(params))
  {
    hide Holes, Bind, WhereText, WhereValues, PageValues, Search, ArrayOrSingle, Given, AnyOf, QueryBuilder.Valid;
    ghost var first := ArrayOrSingle(params, ID, "r.id");
    AddChoice(qb, params, ID, "r.id");
    assert [] + first == first;
    AddSearch(qb, params, AnyOf(RECEIVER_SEARCH), 3);
    AddGiven(qb, params, STATUS, "rw.status = ");
    AddGiven(qb, params, CREATED_AT_AFTER, "r.created_at >= ");
    AddGiven(qb, params, CREATED_AT_BEFORE, "r.created_at <= ");
  }

  /** Every combination of payment filters binds: each condition to the value of its own filter. */
  method NewPaymentQuery(baseQuery: string, params: QueryParams, queryType: QueryType) returns (query: string, values: seq<Value>)
    requires NamesOnly(baseQuery, params)
    ensures Binds(query, values, Listed(baseQuery, PaymentClauses(params), params, queryType, "p"))
  {
    hide Holes, Bind, WhereText, WhereValues, PageValues, PaymentClauses, Binds, Query, Params, Balanced, NamesOnly, AllBalanced, Listed;
    var qb := new QueryBuilder(baseQuery);
    AddPaymentFilters(qb, params);
    AddListing(qb, params, queryType, "p", baseQuery, PaymentClauses(params));
    PaymentBalanced(params);
    ListedBalanced(baseQuery, PaymentClauses(params), params, queryType, "p");
    RequestBinds(qb.asked);
    query, values := qb.Build();
  }

  method NewDisbursementQuery(baseQuery: string, params: QueryParams, queryType: QueryType) returns (query: string, values: seq<Value>)
    requires NamesOnly(baseQuery, params)
    ensures Binds(query, values, Listed(baseQuery, DisbursementClauses(params), params, queryType, "d"))
  {
    hide Holes, Bind, WhereText, WhereValues, PageValues, Search, NonEmptyArray, Given, Alternatives, Binds, Query, Params, Balanced, NamesOnly,
         AllBalanced, Listed;
    var qb := new QueryBuilder(baseQuery);
    AddSearch(qb, params, Alternatives(["d.name"]), 1);
    AddNonEmptyArray(qb, params, STATUS, "d.status");
    AddGiven(qb, params, CREATED_AT_AFTER, "d.created_at >= ");
    AddGiven(qb, params, CREATED_AT_BEFORE, "d.created_at <= ");
    assert [] + DisbursementClauses(params) == DisbursementClauses(params);
    assert qb.asked.clauses == DisbursementClauses(params);
    AddListing(qb, params, queryType, "d", baseQuery, DisbursementClauses(params));
    DisbursementBalanced(params);
    ListedBalanced(baseQuery, DisbursementClauses(params), params, queryType, "d");
    RequestBinds(qb.asked);
    query, values := qb.Build();
  }

  method NewReceiverQuery(baseQuery: string, params: QueryParams, queryType: QueryType) returns (query: string, values: seq<Value>)
    requires NamesOnly(baseQuery, params)
    ensures Binds(query, values, Listed(baseQuery, ReceiverClauses(params), params, queryType, "r"))
  {
    hide Holes, Bind, WhereText, WhereValues, PageValues, ReceiverClauses, Binds, Query, Params, Balanced, NamesOnly, AllBalanced, Listed;
    var qb := new QueryBuilder(baseQuery);
    AddReceiverFilters(qb, params);
    AddListing(qb, params, queryType, "r", baseQuery, ReceiverClauses(params));
    ReceiverBalanced(params);
    ListedBalanced(baseQuery, ReceiverClauses(params), params, queryType, "r");
    RequestBinds(qb.asked);
    query, values := qb.Build();
  }

  // The transfer queries sort only where both a column and an order are given, and may lock.
  function TransferRequest(base: string, params: QueryParams): Request {
    Request(base, TransferClauses(params), "", if params.sortOrder == "" then "" else Sorting(params, "c"), Pages(params), params.skipLocked)
  }

  lemma TransferRequestBalanced(base: string, params: QueryParams)
    requires NamesOnly(base, params)
    ensures Balanced(TransferRequest(base, params)) && |TransferRequest(base, params).pages| <= 1
  {
    NoHoles(base);
    NoHoles("");
    SortingHoles(params, "c");
    TransferBalanced(params);
    hide Holes, TransferClauses, Sorting;
  }

  method AddStatus(qb: QueryBuilder, params: QueryParams)
    requires qb.Valid()
    modifies qb
    ensures qb.Valid() && qb.asked == old(qb.asked).(clauses := old(qb.asked).clauses + StatusClauses(params))
  {
    if STATUS in params.filters && !params.filters[STATUS].Array? {
      AddGiven(qb, params, STATUS, "c.status = ");
    } else {
      AddNonEmptyArray(qb, params, STATUS, "c.status");
    }
  }

  method AddIncomplete(qb: QueryBuilder, params: QueryParams)
    requires qb.Valid()
    modifies qb
    ensures qb.Valid() && qb.asked == old(qb.asked).(clauses := old(qb.asked).clauses + IncompleteClauses(params))
  {
    hide Holes, Bind, WhereText, WhereValues, PageValues;
    if COMPLETED_AT_IS_NULL in params.filters {
      qb.AddCondition("c.completed_at IS NULL", []);
    } else {
      assert old(qb.asked).clauses + [] == old(qb.asked).clauses;
    }
  }

  method AddTransferFilters(qb: QueryBuilder, params: QueryParams)
    requires qb.Valid() && qb.asked.clauses == []
    modifies qb
    ensures qb.Valid() && qb.asked == old(qb.asked).(clauses := TransferClauses(params))
  {
    hide Holes, Bind, WhereText, WhereValues, PageValues, StatusClauses, IncompleteClauses, Given;
    AddStatus(qb, params);
    AddGiven(qb, params, PAYMENT_ID, "c.payment_id = ");
    AddIncomplete(qb, params);
    AddGiven(qb, params, SYNC_ATTEMPTS_LOWER_THAN, "c.sync_attempts < ");
    assert [] + TransferClauses(params) == TransferClauses(params);
    assert qb.asked.clauses == TransferClauses(params);
  }

  method BuildCircleTransferRequestQuery(baseQuery: string, params: QueryParams) returns (query: string, values: seq<Value>)
    requires NamesOnly(baseQuery, params)
    ensures Binds(query, values, TransferRequest(baseQuery, params))
  {
    hide Holes, Bind, WhereText, WhereValues, PageValues, TransferClauses, Binds, Query, Params, Balanced, NamesOnly;
    var qb := new QueryBuilder(baseQuery);
    AddTransferFilters(qb, params);
    if params.sortBy != "" && params.sortOrder != "" {
      qb.AddSorting(params.sortBy, params.sortOrder, "c");
    }
    if params.pageLimit > 0 && params.page > 0 {
      qb.AddPagination(params.page, params.pageLimit);
      assert [] + Pages(params) == Pages(params);
    }
    qb.SetForUpdateSkipLocked(params.skipLocked);
    TransferRequestBalanced(baseQuery, params);
    RequestBinds(TransferRequest(baseQuery, params));
    query, values := qb.Build();
  }

  // ------------------------------------------------------------------------------ wallet filters

  datatype WalletFilter =
    | Enabled(value: Value) | UserManaged(value: Value) | Embedded(value: Value)
    | SupportedAssets(value: Value) | IncludeDeleted(value: Value) | OtherKey(key: string, value: Value)

  // The wallets that have all of the assets.
  const SUPPORTS_FROM := "w.id IN ( SELECT wa.wallet_id" + " FROM wallets_assets wa"
  const SUPPORTS_HEAD := SUPPORTS_FROM + " JOIN assets a ON wa.asset_id = a.id" + " WHERE a.code = ANY("
  const SUPPORTS_MIDDLE := ") OR a.id = ANY("
  const SUPPORTS_TAIL := ") GROUP BY wa.wallet_id" + " HAVING COUNT(DISTINCT a.id) = "

  function Supports(): string {
    SUPPORTS_HEAD + "?" + (SUPPORTS_MIDDLE + "?") + (SUPPORTS_TAIL + "?") + " )"
  }

  function WalletClauses(filter: WalletFilter): seq<Clause> {
    match filter
    case Enabled(v) => [Clause("AND " + ("w.enabled = " + "?"), [v])]
    case UserManaged(v) => [Clause("AND " + ("w.user_managed = " + "?"), [v])]
    case Embedded(v) => [Clause("AND " + ("w.embedded = " + "?"), [v])]
    case SupportedAssets(v) =>
      if v.Array? && |v.items| > 0 then [Clause("AND " + Supports(), [v, v, Number(|v.items|)])] else []
    case IncludeDeleted(_) => []
    case OtherKey(key, v) => [Clause("AND " + (key + " = " + "?"), [v])]
  }

  function AllWalletClauses(filters: seq<WalletFilter>): seq<Clause> {
    if filters == [] then [] else AllWalletClauses(filters[..|filters| - 1]) + WalletClauses(filters[|filters| - 1])
  }

  // The last filter on deleted wallets counts.
  function IncludesDeleted(filters: seq<WalletFilter>): bool {
    if filters == [] then false
    else match filters[|filters| - 1]
         case IncludeDeleted(Flag(b)) => b
         case _ => IncludesDeleted(filters[..|filters| - 1])
  }

  const NOT_DELETED := "w.deleted_at IS NULL"

  function WalletRequest(base: string, filters: seq<WalletFilter>): Request {
    Request(base,
            AllWalletClauses(filters) + (if IncludesDeleted(filters) then [] else [Clause("AND " + NOT_DELETED, [])]),
            "GROUP BY " + "w.id", "ORDER BY " + "w" + "." + "name" + " " + "ASC", [], false)
  }

  predicate KeysPlain(filters: seq<WalletFilter>) {
    forall k :: 0 <= k < |filters| && filters[k].OtherKey? ==> HOLE !in filters[k].key
  }

  lemma SupportsHoles()
    ensures Holes(Supports()) == 3
  {
    hide Holes, SUPPORTS_HEAD, SUPPORTS_MIDDLE, SUPPORTS_TAIL;
    HeadPlain();
    TailPlain();
    HoleAfter(SUPPORTS_HEAD);
    HoleAfter(SUPPORTS_MIDDLE);
    HoleAfter(SUPPORTS_TAIL);
    NoHoles(" )");
    HolesConcat(SUPPORTS_HEAD + "?", SUPPORTS_MIDDLE + "?");
    HolesConcat(SUPPORTS_HEAD + "?" + (SUPPORTS_MIDDLE + "?"), SUPPORTS_TAIL + "?");
    HolesConcat(SUPPORTS_HEAD + "?" + (SUPPORTS_MIDDLE + "?") + (SUPPORTS_TAIL + "?"), " )");
  }

  lemma HeadPlain()
    ensures Holes(SUPPORTS_HEAD) == 0
  {
    hide Holes;
    FromPlain();
    NoHoles(" JOIN assets a ON wa.asset_id = a.id");
    NoHoles(" WHERE a.code = ANY(");
    HolesConcat(SUPPORTS_FROM, " JOIN assets a ON wa.asset_id = a.id");
    HolesConcat(SUPPORTS_FROM + " JOIN assets a ON wa.asset_id = a.id", " WHERE a.code = ANY(");
  }

  lemma FromPlain()
    ensures Holes(SUPPORTS_FROM) == 0
  {
    hide Holes;
    NoHoles("w.id IN ( SELECT wa.wallet_id");
    NoHoles(" FROM wallets_assets wa");
    HolesConcat("w.id IN ( SELECT wa.wallet_id", " FROM wallets_assets wa");
  }

  lemma TailPlain()
    ensures Holes(SUPPORTS_MIDDLE) == 0 && Holes(SUPPORTS_TAIL) == 0
  {
    hide Holes;
    NoHoles(SUPPORTS_MIDDLE);
    NoHoles(") GROUP BY wa.wallet_id");
    NoHoles(" HAVING COUNT(DISTINCT a.id) = ");
    HolesConcat(") GROUP BY wa.wallet_id", " HAVING COUNT(DISTINCT a.id) = ");
  }

  lemma WalletBalanced(filter: WalletFilter)
    requires filter.OtherKey? ==> HOLE !in filter.key
    ensures AllBalanced(WalletClauses(filter))
  {
    hide Holes, Supports;
    match filter
    case Enabled(_) =>
      EndsWithHole("w.enabled = ");
      AndHoles("w.enabled = " + "?");
    case UserManaged(_) =>
      EndsWithHole("w.user_managed = ");
      AndHoles("w.user_managed = " + "?");
    case Embedded(_) =>
      EndsWithHole("w.embedded = ");
      AndHoles("w.embedded = " + "?");
    case SupportedAssets(_) =>
      SupportsHoles();
      AndHoles(Supports());
    case IncludeDeleted(_) =>
    case OtherKey(key, _) =>
      EndsWithHole(key + " = ");
      assert key + " = " + "?" == key + (" = " + "?");
      AndHoles(key + " = " + "?");
  }

  lemma {:induction false} AllWalletBalanced(filters: seq<WalletFilter>)
    requires KeysPlain(filters)
    ensures AllBalanced(AllWalletClauses(filters))
  {
    hide Holes, WalletClauses;
    if filters != [] {
      AllWalletBalanced(filters[..|filters| - 1]);
      WalletBalanced(filters[|filters| - 1]);
    }
  }

  lemma WalletRequestBalanced(base: string, filters: seq<WalletFilter>)
    requires KeysPlain(filters) && HOLE !in base
    ensures Balanced(WalletRequest(base, filters))
  {
    hide Holes, AllWalletClauses, IncludesDeleted;
    AllWalletBalanced(filters);
    NotDeletedBalanced();
    GroupAndSortPlain();
    NoHoles(base);
  }

  lemma NotDeletedBalanced()
    ensures AllBalanced([Clause("AND " + NOT_DELETED, [])])
  {
    hide Holes;
    NoHoles(NOT_DELETED);
    AndHoles(NOT_DELETED);
  }

  lemma GroupAndSortPlain()
    ensures Holes("GROUP BY " + "w.id") == 0 && Holes("ORDER BY " + "w" + "." + "name" + " " + "ASC") == 0
  {
    hide Holes;
    NoHoles("GROUP BY " + "w.id");
    NoHoles("ORDER BY " + "w" + "." + "name" + " " + "ASC");
  }

  method AddWalletFilter(qb: QueryBuilder, filter: WalletFilter)
    requires qb.Valid()
    modifies qb
    ensures qb.Valid() && qb.asked == old(qb.asked).(clauses := old(qb.asked).clauses + WalletClauses(filter))
  {
    hide Holes, Bind, WhereText, WhereValues, PageValues, Supports;
    ghost var before := qb.asked.clauses;
    assert before + [] == before;
    match filter {
      case Enabled(v) => qb.AddCondition("w.enabled = " + "?", [v]);
      case UserManaged(v) => qb.AddCondition("w.user_managed = " + "?", [v]);
      case Embedded(v) => qb.AddCondition("w.embedded = " + "?", [v]);
      case SupportedAssets(v) =>
        if v.Array? && |v.items| > 0 {
          qb.AddCondition(Supports(), [v, v, Number(|v.items|)]);
        }
      case IncludeDeleted(_) =>
      case OtherKey(key, v) => qb.AddCondition(key + " = " + "?", [v]);
    }
  }

  /** The loop over the wallet filters: any list of them, in any order, binds. */
  method NewWalletQuery(baseQuery: string, filters: seq<WalletFilter>) returns (query: string, values: seq<Value>)
    requires HOLE !in baseQuery && KeysPlain(filters)
    ensures Binds(query, values, WalletRequest(baseQuery, filters))
  {
    hide Holes, Bind, WhereText, WhereValues, PageValues, WalletClauses, Binds, Query, Params, Balanced;
    var qb := new QueryBuilder(baseQuery);
    var includeDeleted := false;
    assert filters[..0] == [];
    for k := 0 to |filters|
      invariant fresh(qb) && qb.Valid()
      invariant qb.asked == Request(baseQuery, AllWalletClauses(filters[..k]), "", "", [], false)
      invariant includeDeleted == IncludesDeleted(filters[..k])
    {
      assert filters[..k + 1][..k] == filters[..k] && filters[..k + 1][k] == filters[k];
      if filters[k].IncludeDeleted? {
        if filters[k].value.Flag? {
          includeDeleted := filters[k].value.flag;
        }
      }
      AddWalletFilter(qb, filters[k]);
    }
    assert filters[..|filters|] == filters;
    hide AllWalletClauses, IncludesDeleted;
    ghost var clauses := qb.asked.clauses;
    assert clauses + [] == clauses;
    if !includeDeleted {
      qb.AddCondition(NOT_DELETED, []);
    }
    qb.AddGroupBy("w.id");
    qb.AddSorting("name", "ASC", "w");
    WalletRequestBalanced(baseQuery, filters);
    RequestBinds(WalletRequest(baseQuery, filters));
    query, values := qb.Build();
  }
}
