/** The search queries, letter by letter. */
module QueryTexts {
  import opened QueryBuilders
  import opened Queries

  /** A query with two conditions, a grouping, a sorting, a page and locks, as it is sent. */
  lemma QueryReads(base: string, first: Clause, second: Clause, groupBy: string, sorting: string, page: Page)
    requires groupBy != "" && sorting != ""
    ensures var r := Request(base, [first, second], groupBy, sorting, [page], true);
            && Query(r) == base + " WHERE 1=1" + (" " + first.text + " " + second.text) + " " + groupBy + " " + sorting
                           + " " + "LIMIT ? OFFSET ?" + " FOR UPDATE SKIP LOCKED"
            && Params(r) == first.values + second.values + [Number(page.limit), Number(page.offset)]
  {
    ConditionsRead(first, second);
    OnePage([page]);
    hide WhereText, WhereValues, PageValues;
  }

  lemma ConditionsRead(first: Clause, second: Clause)
    ensures WhereText([first, second]) == " " + first.text + " " + second.text
    ensures WhereValues([first, second]) == first.values + second.values
  {
    var two := [first, second];
    assert two[..1] == [first] && [first][..0] == [];
    assert WhereText([]) == "" && "" + " " == " " && WhereText([first]) == " " + first.text;
    assert [] + first.values == first.values && WhereValues([first]) == first.values;
  }

  /** The pages of a listing follow each other from the first row on, each of as many rows as asked for. */
  lemma PagesFollow(params: QueryParams, next: QueryParams)
    requires params.page > 0 && params.pageLimit > 0 && next == params.(page := params.page + 1)
    ensures |Pages(params)| == 1 && Pages(params)[0].limit == params.pageLimit
    ensures params.page == 1 ==> Pages(params)[0].offset == 0
    ensures |Pages(next)| == 1 && Pages(next)[0].offset == Pages(params)[0].offset + params.pageLimit
  {
    assert params.page * params.pageLimit == (params.page - 1) * params.pageLimit + params.pageLimit;
  }

  // A filter's condition, where the filter is set.
  predicate Sets(params: QueryParams, key: FilterKey, c: Clause, text: string) {
    key in params.filters && c == Clause(text, [params.filters[key]])
  }

  // An equality, or membership for a list that is not empty.
  predicate SetsOneOrAny(params: QueryParams, key: FilterKey, c: Clause, one: string, any: string) {
    && key in params.filters
    && c == Clause(if params.filters[key].Array? && params.filters[key].items != [] then any else one, [params.filters[key]])
  }

  predicate SetsAny(params: QueryParams, key: FilterKey, c: Clause, any: string) {
    key in params.filters && params.filters[key].Array? && params.filters[key].items != [] && c == Clause(any, [params.filters[key]])
  }

  predicate Searches(params: QueryParams, c: Clause, text: string, n: nat) {
    params.query != "" && c == Clause(text, seq(n, _ => Text("%" + params.query + "%")))
  }

  /** The conditions on payments: these and no others. */
  lemma PaymentConditions(params: QueryParams, c: Clause)
    ensures c in PaymentClauses(params) <==>
              || Searches(params, c, PaymentSearchText(), 4)
              || SetsOneOrAny(params, ID, c, "AND p.id = ?", "AND p.id = ANY(?)")
              || SetsOneOrAny(params, STATUS, c, "AND p.status = ?", "AND p.status = ANY(?)")
              || Sets(params, RECEIVER_ID, c, "AND p.receiver_id = ?")
              || Sets(params, DISBURSEMENT_ID, c, "AND p.disbursement_id = ?")
              || Sets(params, CREATED_AT_AFTER, c, "AND p.created_at >= ?")
              || Sets(params, CREATED_AT_BEFORE, c, "AND p.created_at <= ?")
              || SetsOneOrAny(params, PAYMENT_TYPE, c, "AND p.type = ?", "AND p.type = ANY(?)")
  {
    PaymentParts(params, c);
    PaymentChoices(params, c);
    PaymentOwners(params, c);
    PaymentDates(params, c);
    PaymentSearch(params, c);
    hide PaymentClauses, Search, ArrayOrSingle, Given, Searches, SetsOneOrAny, Sets, AnyOf, PAYMENT_SEARCH;
  }

  lemma PaymentParts(params: QueryParams, c: Clause)
    ensures c in PaymentClauses(params) <==>
              || c in Search(params, AnyOf(PAYMENT_SEARCH), 4)
              || c in ArrayOrSingle(params, ID, "p.id") || c in ArrayOrSingle(params, STATUS, "p.status")
              || c in Given(params, RECEIVER_ID, "p.receiver_id = ") || c in Given(params, DISBURSEMENT_ID, "p.disbursement_id = ")
              || c in Given(params, CREATED_AT_AFTER, "p.created_at >= ") || c in Given(params, CREATED_AT_BEFORE, "p.created_at <= ")
              || c in ArrayOrSingle(params, PAYMENT_TYPE, "p.type")
  {
    hide Search, ArrayOrSingle, Given, AnyOf, PAYMENT_SEARCH;
  }

  lemma PaymentChoices(params: QueryParams, c: Clause)
    ensures c in ArrayOrSingle(params, ID, "p.id") <==> SetsOneOrAny(params, ID, c, "AND p.id = ?", "AND p.id = ANY(?)")
    ensures c in ArrayOrSingle(params, STATUS, "p.status") <==> SetsOneOrAny(params, STATUS, c, "AND p.status = ?", "AND p.status = ANY(?)")
    ensures c in ArrayOrSingle(params, PAYMENT_TYPE, "p.type") <==> SetsOneOrAny(params, PAYMENT_TYPE, c, "AND p.type = ?", "AND p.type = ANY(?)")
  {
    hide ArrayOrSingle, SetsOneOrAny;
    ChoiceIs(params, ID, "p.id", "AND p.id = ?", "AND p.id = ANY(?)", c);
    ChoiceIs(params, STATUS, "p.status", "AND p.status = ?", "AND p.status = ANY(?)", c);
    ChoiceIs(params, PAYMENT_TYPE, "p.type", "AND p.type = ?", "AND p.type = ANY(?)", c);
  }

  lemma PaymentOwners(params: QueryParams, c: Clause)
    ensures c in Given(params, RECEIVER_ID, "p.receiver_id = ") <==> Sets(params, RECEIVER_ID, c, "AND p.receiver_id = ?")
    ensures c in Given(params, DISBURSEMENT_ID, "p.disbursement_id = ") <==> Sets(params, DISBURSEMENT_ID, c, "AND p.disbursement_id = ?")
  {
    hide Given, Sets;
    GivenIs(params, RECEIVER_ID, "p.receiver_id = ", "AND p.receiver_id = ?", c);
    GivenIs(params, DISBURSEMENT_ID, "p.disbursement_id = ", "AND p.disbursement_id = ?", c);
  }

  lemma PaymentDates(params: QueryParams, c: Clause)
    ensures c in Given(params, CREATED_AT_AFTER, "p.created_at >= ") <==> Sets(params, CREATED_AT_AFTER, c, "AND p.created_at >= ?")
    ensures c in Given(params, CREATED_AT_BEFORE, "p.created_at <= ") <==> Sets(params, CREATED_AT_BEFORE, c, "AND p.created_at <= ?")
  {
    hide Given, Sets;
    GivenIs(params, CREATED_AT_AFTER, "p.created_at >= ", "AND p.created_at >= ?", c);
    GivenIs(params, CREATED_AT_BEFORE, "p.created_at <= ", "AND p.created_at <= ?", c);
  }

  lemma PaymentSearch(params: QueryParams, c: Clause)
    ensures c in Search(params, AnyOf(PAYMENT_SEARCH), 4) <==>
            Searches(params, c, PaymentSearchText(), 4)
  {
    hide Search, Searches, AnyOf, PAYMENT_SEARCH;
    PaymentSearchReads();
    SearchIs(params, AnyOf(PAYMENT_SEARCH), 4, PaymentSearchText(), c);
  }

  /** The conditions on disbursements. */
  lemma DisbursementConditions(params: QueryParams, c: Clause)
    ensures c in DisbursementClauses(params) <==>
              || Searches(params, c, "AND d.name ILIKE ?", 1)
              || SetsAny(params, STATUS, c, "AND d.status = ANY(?)")
              || Sets(params, CREATED_AT_AFTER, c, "AND d.created_at >= ?")
              || Sets(params, CREATED_AT_BEFORE, c, "AND d.created_at <= ?")
  {
    DisbursementParts(params, c);
    DisbursementFilters(params, c);
    DisbursementDates(params, c);
    hide DisbursementClauses, Search, NonEmptyArray, Given, Searches, SetsAny, Sets, Alternatives;
  }

  lemma DisbursementParts(params: QueryParams, c: Clause)
    ensures c in DisbursementClauses(params) <==>
              || c in Search(params, Alternatives(["d.name"]), 1) || c in NonEmptyArray(params, STATUS, "d.status")
              || c in Given(params, CREATED_AT_AFTER, "d.created_at >= ") || c in Given(params, CREATED_AT_BEFORE, "d.created_at <= ")
  {
    hide Search, NonEmptyArray, Given, Alternatives;
  }

  lemma DisbursementFilters(params: QueryParams, c: Clause)
    ensures c in Search(params, Alternatives(["d.name"]), 1) <==> Searches(params, c, "AND d.name ILIKE ?", 1)
    ensures c in NonEmptyArray(params, STATUS, "d.status") <==> SetsAny(params, STATUS, c, "AND d.status = ANY(?)")
  {
    hide Search, Searches, NonEmptyArray, SetsAny;
    SearchIs(params, Alternatives(["d.name"]), 1, "AND d.name ILIKE ?", c);
    AnyIs(params, STATUS, "d.status", "AND d.status = ANY(?)", c);
  }

  lemma DisbursementDates(params: QueryParams, c: Clause)
    ensures c in Given(params, CREATED_AT_AFTER, "d.created_at >= ") <==> Sets(params, CREATED_AT_AFTER, c, "AND d.created_at >= ?")
    ensures c in Given(params, CREATED_AT_BEFORE, "d.created_at <= ") <==> Sets(params, CREATED_AT_BEFORE, c, "AND d.created_at <= ?")
  {
    hide Given, Sets;
    GivenIs(params, CREATED_AT_AFTER, "d.created_at >= ", "AND d.created_at >= ?", c);
    GivenIs(params, CREATED_AT_BEFORE, "d.created_at <= ", "AND d.created_at <= ?", c);
  }

  /** The conditions on receivers. */
  lemma ReceiverConditions(params: QueryParams, c: Clause)
    ensures c in ReceiverClauses(params) <==>
              || SetsOneOrAny(params, ID, c, "AND r.id = ?", "AND r.id = ANY(?)")
              || Searches(params, c, ReceiverSearchText(), 3)
              || Sets(params, STATUS, c, "AND rw.status = ?")
              || Sets(params, CREATED_AT_AFTER, c, "AND r.created_at >= ?")
              || Sets(params, CREATED_AT_BEFORE, c, "AND r.created_at <= ?")
  {
    ReceiverParts(params, c);
    ReceiverFilters(params, c);
    ReceiverSearch(params, c);
    hide ReceiverClauses, Search, ArrayOrSingle, Given, Searches, SetsOneOrAny, Sets, AnyOf, RECEIVER_SEARCH;
  }

  lemma ReceiverParts(params: QueryParams, c: Clause)
    ensures c in ReceiverClauses(params) <==>
              || c in ArrayOrSingle(params, ID, "r.id") || c in Search(params, AnyOf(RECEIVER_SEARCH), 3)
              || c in Given(params, STATUS, "rw.status = ")
              || c in Given(params, CREATED_AT_AFTER, "r.created_at >= ") || c in Given(params, CREATED_AT_BEFORE, "r.created_at <= ")
  {
    hide Search, ArrayOrSingle, Given, AnyOf, RECEIVER_SEARCH;
  }

  lemma ReceiverFilters(params: QueryParams, c: Clause)
    ensures c in ArrayOrSingle(params, ID, "r.id") <==> SetsOneOrAny(params, ID, c, "AND r.id = ?", "AND r.id = ANY(?)")
    ensures c in Given(params, STATUS, "rw.status = ") <==> Sets(params, STATUS, c, "AND rw.status = ?")
    ensures c in Given(params, CREATED_AT_AFTER, "r.created_at >= ") <==> Sets(params, CREATED_AT_AFTER, c, "AND r.created_at >= ?")
    ensures c in Given(params, CREATED_AT_BEFORE, "r.created_at <= ") <==> Sets(params, CREATED_AT_BEFORE, c, "AND r.created_at <= ?")
  {
    hide ArrayOrSingle, Given, SetsOneOrAny, Sets;
    ChoiceIs(params, ID, "r.id", "AND r.id = ?", "AND r.id = ANY(?)", c);
    GivenIs(params, STATUS, "rw.status = ", "AND rw.status = ?", c);
    GivenIs(params, CREATED_AT_AFTER, "r.created_at >= ", "AND r.created_at >= ?", c);
    GivenIs(params, CREATED_AT_BEFORE, "r.created_at <= ", "AND r.created_at <= ?", c);
  }

  lemma ReceiverSearch(params: QueryParams, c: Clause)
    ensures c in Search(params, AnyOf(RECEIVER_SEARCH), 3) <==>
            Searches(params, c, ReceiverSearchText(), 3)
  {
    hide Search, Searches, AnyOf, RECEIVER_SEARCH;
    ReceiverSearchReads();
    SearchIs(params, AnyOf(RECEIVER_SEARCH), 3, ReceiverSearchText(), c);
  }

  /** The conditions on Circle transfer requests. */
  lemma TransferConditions(params: QueryParams, c: Clause)
    ensures c in TransferClauses(params) <==>
              || (STATUS in params.filters && !params.filters[STATUS].Array? && c == Clause("AND c.status = ?", [params.filters[STATUS]]))
              || SetsAny(params, STATUS, c, "AND c.status = ANY(?)")
              || Sets(params, PAYMENT_ID, c, "AND c.payment_id = ?")
              || (COMPLETED_AT_IS_NULL in params.filters && c == Clause("AND c.completed_at IS NULL", []))
              || Sets(params, SYNC_ATTEMPTS_LOWER_THAN, c, "AND c.sync_attempts < ?")
  {
    TransferParts(params, c);
    TransferBounds(params, c);
    TransferStatus(params, c);
    IncompleteIs(params, c);
    hide TransferClauses, Given, SetsAny, Sets, StatusClauses, IncompleteClauses;
  }

  lemma TransferParts(params: QueryParams, c: Clause)
    ensures c in TransferClauses(params) <==>
              || c in StatusClauses(params) || c in Given(params, PAYMENT_ID, "c.payment_id = ") || c in IncompleteClauses(params)
              || c in Given(params, SYNC_ATTEMPTS_LOWER_THAN, "c.sync_attempts < ")
  {
    hide StatusClauses, Given, IncompleteClauses;
  }

  lemma TransferBounds(params: QueryParams, c: Clause)
    ensures c in Given(params, PAYMENT_ID, "c.payment_id = ") <==> Sets(params, PAYMENT_ID, c, "AND c.payment_id = ?")
    ensures c in Given(params, SYNC_ATTEMPTS_LOWER_THAN, "c.sync_attempts < ") <==> Sets(params, SYNC_ATTEMPTS_LOWER_THAN, c, "AND c.sync_attempts < ?")
  {
    hide Given, Sets;
    GivenIs(params, PAYMENT_ID, "c.payment_id = ", "AND c.payment_id = ?", c);
    GivenIs(params, SYNC_ATTEMPTS_LOWER_THAN, "c.sync_attempts < ", "AND c.sync_attempts < ?", c);
  }

  lemma TransferStatus(params: QueryParams, c: Clause)
    ensures c in StatusClauses(params) <==>
              || (STATUS in params.filters && !params.filters[STATUS].Array? && c == Clause("AND c.status = ?", [params.filters[STATUS]]))
              || SetsAny(params, STATUS, c, "AND c.status = ANY(?)")
  {
    GivenIs(params, STATUS, "c.status = ", "AND c.status = ?", c);
    AnyIs(params, STATUS, "c.status", "AND c.status = ANY(?)", c);
    hide Given, NonEmptyArray;
  }

  lemma IncompleteIs(params: QueryParams, c: Clause)
    ensures c in IncompleteClauses(params) <==> COMPLETED_AT_IS_NULL in params.filters && c == Clause("AND c.completed_at IS NULL", [])
  {
    assert "AND " + "c.completed_at IS NULL" == "AND c.completed_at IS NULL";
  }

  lemma GivenIs(params: QueryParams, key: FilterKey, column: string, text: string, c: Clause)
    requires "AND " + (column + "?") == text
    ensures c in Given(params, key, column) <==> Sets(params, key, c, text)
  {
  }

  lemma ChoiceIs(params: QueryParams, key: FilterKey, column: string, one: string, any: string, c: Clause)
    requires "AND " + (column + " = ?") == one && "AND " + (column + " = ANY(?)") == any
    ensures c in ArrayOrSingle(params, key, column) <==> SetsOneOrAny(params, key, c, one, any)
  {
  }

  lemma AnyIs(params: QueryParams, key: FilterKey, column: string, any: string, c: Clause)
    requires "AND " + (column + " = ANY(?)") == any
    ensures c in NonEmptyArray(params, key, column) <==> SetsAny(params, key, c, any)
  {
  }

  lemma SearchIs(params: QueryParams, condition: string, n: nat, text: string, c: Clause)
    requires "AND " + condition == text
    ensures c in Search(params, condition, n) <==> Searches(params, c, text, n)
  {
  }

  function PaymentSearchText(): string {
    "AND (" + ("p.id ILIKE ?" + " OR p.external_payment_id ILIKE ?" + " OR rw.stellar_address ILIKE ?" + " OR COALESCE(d.name, '') ILIKE ?") + ")"
  }

  function ReceiverSearchText(): string {
    "AND (" + ("r.id ILIKE ?" + " OR r.phone_number ILIKE ?" + " OR r.email ILIKE ?") + ")"
  }

  lemma PaymentSearchReads()
    ensures "AND " + AnyOf(PAYMENT_SEARCH) == PaymentSearchText()
  {
    hide Alternatives, PAYMENT_SEARCH;
    FirstReads();
    LastReads();
    SearchEnds();
    Bracketed("p.id ILIKE ?" + " OR p.external_payment_id ILIKE ?" + " OR rw.stellar_address ILIKE ?" + " OR COALESCE(d.name, '') ILIKE ?");
  }

  lemma Bracketed(s: string)
    ensures "AND " + ("(" + s + ")") == "AND (" + s + ")"
  {
  }

  lemma FirstReads()
    ensures "p.id" + " ILIKE " + "?" == "p.id ILIKE ?"
    ensures " OR " + "p.external_payment_id" + " ILIKE " + "?" == " OR p.external_payment_id ILIKE ?"
  {
  }

  lemma LastReads()
    ensures " OR " + "rw.stellar_address" + " ILIKE " + "?" == " OR rw.stellar_address ILIKE ?"
    ensures " OR " + "COALESCE(d.name, '')" + " ILIKE " + "?" == " OR COALESCE(d.name, '') ILIKE ?"
  {
  }

  lemma SearchEnds()
    ensures Alternatives(PAYMENT_SEARCH) ==
            "p.id" + " ILIKE " + "?" + (" OR " + "p.external_payment_id" + " ILIKE " + "?") + (" OR " + "rw.stellar_address" + " ILIKE " + "?")
            + (" OR " + "COALESCE(d.name, '')" + " ILIKE " + "?")
  {
    assert PAYMENT_SEARCH[..3] == ["p.id", "p.external_payment_id", "rw.stellar_address"];
    ThreeAlternatives("p.id", "p.external_payment_id", "rw.stellar_address");
    assert Alternatives(PAYMENT_SEARCH) == Alternatives(PAYMENT_SEARCH[..3]) + (" OR " + PAYMENT_SEARCH[3] + " ILIKE " + "?");
  }

  lemma ThreeAlternatives(a: string, b: string, c: string)
    ensures Alternatives([a, b, c]) == a + " ILIKE " + "?" + (" OR " + b + " ILIKE " + "?") + (" OR " + c + " ILIKE " + "?")
  {
    assert [a, b, c][..2] == [a, b] && [a, b][..1] == [a];
    assert Alternatives([a]) == a + " ILIKE " + "?";
    assert Alternatives([a, b]) == Alternatives([a]) + (" OR " + b + " ILIKE " + "?");
  }

  lemma ReceiverSearchReads()
    ensures "AND " + AnyOf(RECEIVER_SEARCH) == ReceiverSearchText()
  {
    hide Alternatives;
    ThreeAlternatives("r.id", "r.phone_number", "r.email");
    ReceiverColumnsRead();
    Bracketed("r.id ILIKE ?" + " OR r.phone_number ILIKE ?" + " OR r.email ILIKE ?");
  }

  lemma ReceiverColumnsRead()
    ensures "r.id" + " ILIKE " + "?" == "r.id ILIKE ?"
    ensures " OR " + "r.phone_number" + " ILIKE " + "?" == " OR r.phone_number ILIKE ?"
    ensures " OR " + "r.email" + " ILIKE " + "?" == " OR r.email ILIKE ?"
  {
  }

  /** The conditions of wallet filters; a wallet has to support every asset asked for. */
  lemma WalletConditions(filter: WalletFilter)
    ensures match filter
            case Enabled(v) => WalletClauses(filter) == [Clause("AND w.enabled = ?", [v])]
            case UserManaged(v) => WalletClauses(filter) == [Clause("AND w.user_managed = ?", [v])]
            case Embedded(v) => WalletClauses(filter) == [Clause("AND w.embedded = ?", [v])]
            case SupportedAssets(v) =>
              if v.Array? && v.items != [] then
                |WalletClauses(filter)| == 1 && WalletClauses(filter)[0].values == [v, v, Number(|v.items|)]
              else WalletClauses(filter) == []
            case IncludeDeleted(_) => WalletClauses(filter) == []
            case OtherKey(key, v) => |WalletClauses(filter)| == 1 && WalletClauses(filter)[0].values == [v]
  {
    hide Supports;
    assert "AND " + ("w.enabled = " + "?") == "AND w.enabled = ?";
    assert "AND " + ("w.user_managed = " + "?") == "AND w.user_managed = ?";
    assert "AND " + ("w.embedded = " + "?") == "AND w.embedded = ?";
  }
}
