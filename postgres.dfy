/**
 * The Postgres-backed store (internal/adaper/storage/postgres), with the `subscriptions` table
 * held in memory as a map from id to record. Each operation is one atomic statement; the
 * database's own failures (connectivity, constraints, scan errors) are the `dbError` argument.
 */
module Postgres {
  import opened Wrappers
  import opened Entities
  import opened Sql

  datatype StoreError =
    | NotFound       // the statement touched no row, or `Scan` found no row
    | DatabaseError  // any failure of the database or of scanning its answer

  // ---------------------------------------------------------------------------------------
  // Query construction

  /** One supplied filter: `column op value`. */
  datatype Term = Term(column: Column, op: CmpOp, value: string)

  function OptionalTerm(value: Option<string>, column: Column, op: CmpOp): seq<Term> {
    if value.Some? then [Term(column, op, value.value)] else []
  }

  /** The supplied list filters, in the order the query appends them. */
  function ListTerms(f: ListFilter): seq<Term> {
    OptionalTerm(f.userId, UserIdColumn, Equal) + OptionalTerm(f.serviceName, ServiceNameColumn, Equal)
    + OptionalTerm(f.startDate, StartDateColumn, AtLeast) + OptionalTerm(f.endDate, EndDateColumn, AtMost)
  }

  /** The optional equality filters of a cost query, in the order the query appends them. */
  function CostTerms(f: CostFilter): seq<Term> {
    OptionalTerm(f.userId, UserIdColumn, Equal) + OptionalTerm(f.serviceName, ServiceNameColumn, Equal)
  }

  /** `AND column op $(first + i)` for the i-th term. */
  function Numbered(terms: seq<Term>, first: nat): (cs: seq<Condition>)
    ensures |cs| == |terms|
  {
    seq(|terms|, i requires 0 <= i < |terms| => Compare(terms[i].column, terms[i].op, first + i))
  }

  function Values(terms: seq<Term>): (vs: seq<string>)
    ensures |vs| == |terms|
  {
    seq(|terms|, i requires 0 <= i < |terms| => terms[i].value)
  }

  /** The listing query: one numbered condition and one parameter per supplied filter. */
  function ListQuery(f: ListFilter): Query {
    Query(Numbered(ListTerms(f), 1), Values(ListTerms(f)))
  }

  /** `(end_date IS NULL OR end_date >= $1) AND start_date <= $2`. */
  function CostBase(): seq<Condition> {
    [NullOrCompare(EndDateColumn, AtLeast, 1), Compare(StartDateColumn, AtMost, 2)]
  }

  /** The cost query: the overlap test on $1 and $2, then the optional filters from $3 on. */
  function CostQuery(f: CostFilter): Query {
    Query(CostBase() + Numbered(CostTerms(f), 3), [f.startPeriod, f.endPeriod] + Values(CostTerms(f)))
  }

  function CountSome(o: Option<string>): nat {
    if o.Some? then 1 else 0
  }

  /** The order in which the filter columns are appended. */
  function ColumnRank(c: Column): nat {
    match c
    case UserIdColumn => 0
    case ServiceNameColumn => 1
    case StartDateColumn => 2
    case EndDateColumn => 3
  }

  /** What the supplied filter value is for a column, when the column is filtered at all. */
  function ListValue(f: ListFilter, c: Column): Option<string> {
    match c
    case UserIdColumn => f.userId
    case ServiceNameColumn => f.serviceName
    case StartDateColumn => f.startDate
    case EndDateColumn => f.endDate
  }

  /** The optional filter value of a cost query for a column; only user_id and service_name have one. */
  function CostValue(f: CostFilter, c: Column): Option<string> {
    match c
    case UserIdColumn => f.userId
    case ServiceNameColumn => f.serviceName
    case StartDateColumn => None
    case EndDateColumn => None
  }

  /** Appending one optional term appends its numbered condition and its parameter. */
  lemma AppendTerm(terms: seq<Term>, value: Option<string>, column: Column, op: CmpOp, first: nat)
    ensures Numbered(terms + OptionalTerm(value, column, op), first) ==
      Numbered(terms, first) + (if value.Some? then [Compare(column, op, first + |terms|)] else [])
    ensures Values(terms + OptionalTerm(value, column, op)) ==
      Values(terms) + (if value.Some? then [value.value] else [])
  {
    if value.None? {
      assert terms + OptionalTerm(value, column, op) == terms;
    }
  }

  /**
   * The WHERE clause of ListSubscriptions as the source builds it: a counter `paramIndex` that
   * starts at 1, and for each supplied filter one `AND column op $paramIndex` plus one parameter.
   */
  method BuildListQuery(filter: ListFilter) returns (q: Query)
    ensures q == ListQuery(filter)
  {
    var conditions: seq<Condition> := [];
    var params: seq<string> := [];
    var paramIndex := 1;
    ghost var terms: seq<Term> := [];
    AppendTerm(terms, filter.userId, UserIdColumn, Equal, 1);
    if filter.userId.Some? {
      conditions := conditions + [Compare(UserIdColumn, Equal, paramIndex)];
      params := params + [filter.userId.value];
      paramIndex := paramIndex + 1;
    }
    terms := terms + OptionalTerm(filter.userId, UserIdColumn, Equal);
    assert conditions == Numbered(terms, 1) && params == Values(terms) && paramIndex == 1 + |terms|;
    AppendTerm(terms, filter.serviceName, ServiceNameColumn, Equal, 1);
    if filter.serviceName.Some? {
      conditions := conditions + [Compare(ServiceNameColumn, Equal, paramIndex)];
      params := params + [filter.serviceName.value];
      paramIndex := paramIndex + 1;
    }
    terms := terms + OptionalTerm(filter.serviceName, ServiceNameColumn, Equal);
    assert conditions == Numbered(terms, 1) && params == Values(terms) && paramIndex == 1 + |terms|;
    AppendTerm(terms, filter.startDate, StartDateColumn, AtLeast, 1);
    if filter.startDate.Some? {
      conditions := conditions + [Compare(StartDateColumn, AtLeast, paramIndex)];
      params := params + [filter.startDate.value];
      paramIndex := paramIndex + 1;
    }
    terms := terms + OptionalTerm(filter.startDate, StartDateColumn, AtLeast);
    assert conditions == Numbered(terms, 1) && params == Values(terms) && paramIndex == 1 + |terms|;
    AppendTerm(terms, filter.endDate, EndDateColumn, AtMost, 1);
    if filter.endDate.Some? {
      conditions := conditions + [Compare(EndDateColumn, AtMost, paramIndex)];
      params := params + [filter.endDate.value];
      paramIndex := paramIndex + 1;
    }
    terms := terms + OptionalTerm(filter.endDate, EndDateColumn, AtMost);
    assert [] + OptionalTerm(filter.userId, UserIdColumn, Equal) == OptionalTerm(filter.userId, UserIdColumn, Equal);
    assert terms == ListTerms(filter);
    q := Query(conditions, params);
  }

  /** The WHERE clause of CalculateTotalCost: $1 and $2 are the period, the counter starts at 3. */
  method BuildCostQuery(filter: CostFilter) returns (q: Query)
    ensures q == CostQuery(filter)
  {
    var conditions := CostBase();
    var params := [filter.startPeriod, filter.endPeriod];
    var paramIndex := 3;
    ghost var terms: seq<Term> := [];
    AppendTerm(terms, filter.userId, UserIdColumn, Equal, 3);
    if filter.userId.Some? {
      conditions := conditions + [Compare(UserIdColumn, Equal, paramIndex)];
      params := params + [filter.userId.value];
      paramIndex := paramIndex + 1;
    }
    terms := terms + OptionalTerm(filter.userId, UserIdColumn, Equal);
    assert conditions == CostBase() + Numbered(terms, 3);
    assert params == [filter.startPeriod, filter.endPeriod] + Values(terms) && paramIndex == 3 + |terms|;
    AppendTerm(terms, filter.serviceName, ServiceNameColumn, Equal, 3);
    if filter.serviceName.Some? {
      conditions := conditions + [Compare(ServiceNameColumn, Equal, paramIndex)];
      params := params + [filter.serviceName.value];
      paramIndex := paramIndex + 1;
    }
    terms := terms + OptionalTerm(filter.serviceName, ServiceNameColumn, Equal);
    assert [] + OptionalTerm(filter.userId, UserIdColumn, Equal) == OptionalTerm(filter.userId, UserIdColumn, Equal);
    assert terms == CostTerms(filter);
    q := Query(conditions, params);
  }

  // ---------------------------------------------------------------------------------------
  // What the queries mean

  /** The listing filter read directly: every supplied field constrains, absent ones do not. */
  predicate MatchesListFilter(f: ListFilter, sub: Subscriptions) {
    && (f.userId.Some? ==> sub.userId == f.userId.value)
    && (f.serviceName.Some? ==> sub.serviceName == f.serviceName.value)
    && (f.startDate.Some? ==> TextLe(f.startDate.value, sub.startDate))
    && (f.endDate.Some? ==> sub.endDate.Some? && TextLe(sub.endDate.value, f.endDate.value))
  }

  /**
   * The overlap rule of the cost query read directly: the subscription starts no later than the
   * period's end and either never ends or ends no earlier than the period's start; the optional
   * user and service filters are equalities.
   */
  predicate InCostPeriod(f: CostFilter, sub: Subscriptions) {
    && TextLe(sub.startDate, f.endPeriod)
    && (sub.endDate.None? || TextLe(f.startPeriod, sub.endDate.value))
    && (f.userId.Some? ==> sub.userId == f.userId.value)
    && (f.serviceName.Some? ==> sub.serviceName == f.serviceName.value)
  }

  predicate TermHolds(t: Term, sub: Subscriptions) {
    CompareCell(Cell(sub, t.column), t.op, t.value) == True
  }

  predicate AllTermsHold(terms: seq<Term>, sub: Subscriptions) {
    forall i :: 0 <= i < |terms| ==> TermHolds(terms[i], sub)
  }

  lemma AllTermsHoldAppend(a: seq<Term>, b: seq<Term>, sub: Subscriptions)
    ensures AllTermsHold(a + b, sub) <==> AllTermsHold(a, sub) && AllTermsHold(b, sub)
  {
    assert forall i :: 0 <= i < |a| ==> (a + b)[i] == a[i];
    assert forall i :: 0 <= i < |b| ==> (a + b)[|a| + i] == b[i];
    assert forall i :: |a| <= i < |a + b| ==> (a + b)[i] == b[i - |a|];
  }

  lemma OptionalTermMeaning(value: Option<string>, column: Column, op: CmpOp, sub: Subscriptions)
    ensures AllTermsHold(OptionalTerm(value, column, op), sub) <==>
      (value.Some? ==> CompareCell(Cell(sub, column), op, value.value) == True)
  {
    if value.Some? {
      assert OptionalTerm(value, column, op)[0] == Term(column, op, value.value);
    }
  }

  lemma ListTermsMeaning(f: ListFilter, sub: Subscriptions)
    ensures AllTermsHold(ListTerms(f), sub) <==> MatchesListFilter(f, sub)
  {
    var u := OptionalTerm(f.userId, UserIdColumn, Equal);
    var n := OptionalTerm(f.serviceName, ServiceNameColumn, Equal);
    var sd := OptionalTerm(f.startDate, StartDateColumn, AtLeast);
    var ed := OptionalTerm(f.endDate, EndDateColumn, AtMost);
    AllTermsHoldAppend(u + n + sd, ed, sub);
    AllTermsHoldAppend(u + n, sd, sub);
    AllTermsHoldAppend(u, n, sub);
    OptionalTermMeaning(f.userId, UserIdColumn, Equal, sub);
    OptionalTermMeaning(f.serviceName, ServiceNameColumn, Equal, sub);
    OptionalTermMeaning(f.startDate, StartDateColumn, AtLeast, sub);
    OptionalTermMeaning(f.endDate, EndDateColumn, AtMost, sub);
  }

  lemma CostTermsMeaning(f: CostFilter, sub: Subscriptions)
    ensures AllTermsHold(CostTerms(f), sub) <==>
      (f.userId.Some? ==> sub.userId == f.userId.value)
      && (f.serviceName.Some? ==> sub.serviceName == f.serviceName.value)
  {
    AllTermsHoldAppend(OptionalTerm(f.userId, UserIdColumn, Equal),
                       OptionalTerm(f.serviceName, ServiceNameColumn, Equal), sub);
    OptionalTermMeaning(f.userId, UserIdColumn, Equal, sub);
    OptionalTermMeaning(f.serviceName, ServiceNameColumn, Equal, sub);
  }

  /** Numbered conditions whose placeholders point at the terms' values mean the terms. */
  lemma NumberedMeaning(terms: seq<Term>, first: nat, params: seq<string>, sub: Subscriptions)
    requires 1 <= first && first - 1 + |terms| <= |params|
    requires forall i :: 0 <= i < |terms| ==> params[first - 1 + i] == terms[i].value
    ensures BoundIn(Numbered(terms, first), params)
    ensures AllConditionsTrue(Numbered(terms, first), params, sub) <==> AllTermsHold(terms, sub)
  {
    var cs := Numbered(terms, first);
    assert forall i :: 0 <= i < |terms| ==>
      (EvalCondition(cs[i], params, sub) == True <==> TermHolds(terms[i], sub));
  }

  /** Columns strictly increase in append order, and every column is ranked below `bound`. */
  predicate RankedBelow(terms: seq<Term>, bound: nat) {
    && (forall i, j :: 0 <= i < j < |terms| ==> ColumnRank(terms[i].column) < ColumnRank(terms[j].column))
    && (forall i :: 0 <= i < |terms| ==> ColumnRank(terms[i].column) < bound)
  }

  lemma RankedAppend(a: seq<Term>, value: Option<string>, column: Column, op: CmpOp)
    requires RankedBelow(a, ColumnRank(column))
    ensures RankedBelow(a + OptionalTerm(value, column, op), ColumnRank(column) + 1)
  {
  }

  /** Every term carries the filter's value for its column. */
  predicate CarriesListValues(f: ListFilter, terms: seq<Term>) {
    forall i :: 0 <= i < |terms| ==> ListValue(f, terms[i].column) == Some(terms[i].value)
  }

  lemma CarriesAppend(f: ListFilter, a: seq<Term>, value: Option<string>, column: Column, op: CmpOp)
    requires CarriesListValues(f, a)
    requires value == ListValue(f, column)
    ensures CarriesListValues(f, a + OptionalTerm(value, column, op))
  {
    var t := a + OptionalTerm(value, column, op);
    assert forall i :: 0 <= i < |a| ==> t[i] == a[i];
  }

  lemma ListTermsShape(f: ListFilter)
    ensures |ListTerms(f)| == CountSome(f.userId) + CountSome(f.serviceName) + CountSome(f.startDate) + CountSome(f.endDate)
    ensures RankedBelow(ListTerms(f), 4)
    ensures CarriesListValues(f, ListTerms(f))
  {
    var u := OptionalTerm(f.userId, UserIdColumn, Equal);
    var n := OptionalTerm(f.serviceName, ServiceNameColumn, Equal);
    var sd := OptionalTerm(f.startDate, StartDateColumn, AtLeast);
    var ed := OptionalTerm(f.endDate, EndDateColumn, AtMost);
    RankedAppend([], f.userId, UserIdColumn, Equal);
    assert [] + u == u;
    RankedAppend(u, f.serviceName, ServiceNameColumn, Equal);
    RankedAppend(u + n, f.startDate, StartDateColumn, AtLeast);
    RankedAppend(u + n + sd, f.endDate, EndDateColumn, AtMost);
    CarriesAppend(f, [], f.userId, UserIdColumn, Equal);
    CarriesAppend(f, u, f.serviceName, ServiceNameColumn, Equal);
    CarriesAppend(f, u + n, f.startDate, StartDateColumn, AtLeast);
    CarriesAppend(f, u + n + sd, f.endDate, EndDateColumn, AtMost);
  }

  /**
   * Placeholder bookkeeping of the listing query: one parameter per supplied filter, `$k` is
   * the k-th parameter and holds that filter's value, columns appear as user_id, service_name,
   * start_date, end_date.
   */
  lemma ListQueryShape(f: ListFilter)
    ensures var q := ListQuery(f);
      && |q.params| == CountSome(f.userId) + CountSome(f.serviceName) + CountSome(f.startDate) + CountSome(f.endDate)
      && |q.conditions| == |q.params|
      && PlaceholdersBound(q)
      && (forall i :: 0 <= i < |q.conditions| ==>
            q.conditions[i].Compare? && q.conditions[i].placeholder == i + 1
            && ListValue(f, q.conditions[i].column) == Some(q.params[i]))
      && (forall i, j :: 0 <= i < j < |q.conditions| ==>
            ColumnRank(q.conditions[i].column) < ColumnRank(q.conditions[j].column))
  {
    ListTermsShape(f);
  }

  /** Placeholder bookkeeping of the cost query: $1, $2 are the period; then user_id, service_name from $3. */
  lemma CostQueryShape(f: CostFilter)
    ensures var q := CostQuery(f);
      && |q.params| == 2 + CountSome(f.userId) + CountSome(f.serviceName)
      && |q.conditions| == |q.params|
      && PlaceholdersBound(q)
      && q.params[0] == f.startPeriod && q.params[1] == f.endPeriod
      && q.conditions[0] == NullOrCompare(EndDateColumn, AtLeast, 1)
      && q.conditions[1] == Compare(StartDateColumn, AtMost, 2)
      && (forall i :: 2 <= i < |q.conditions| ==>
            q.conditions[i].Compare? && q.conditions[i].placeholder == i + 1
            && q.conditions[i].op == Equal
            && CostValue(f, q.conditions[i].column) == Some(q.params[i]))
      && (forall i, j :: 2 <= i < j < |q.conditions| ==>
            ColumnRank(q.conditions[i].column) < ColumnRank(q.conditions[j].column))
  {
    var q := CostQuery(f);
    var terms := CostTerms(f);
    assert forall i :: 2 <= i < |q.conditions| ==> q.conditions[i] == Numbered(terms, 3)[i - 2];
    assert forall i :: 2 <= i < |q.params| ==> q.params[i] == Values(terms)[i - 2];
  }

  /** The listing query returns a row exactly when the row satisfies every supplied filter. */
  lemma ListQueryMeaning(f: ListFilter, sub: Subscriptions)
    ensures PlaceholdersBound(ListQuery(f))
    ensures Selects(ListQuery(f), sub) <==> MatchesListFilter(f, sub)
  {
    var q := ListQuery(f);
    NumberedMeaning(ListTerms(f), 1, q.params, sub);
    WhereTrueIffAll(q.conditions, q.params, sub);
    ListTermsMeaning(f, sub);
  }

  /** `(end_date IS NULL OR end_date >= $1) AND start_date <= $2` is the overlap test. */
  lemma CostBaseMeaning(f: CostFilter, params: seq<string>, sub: Subscriptions)
    requires |params| >= 2 && params[0] == f.startPeriod && params[1] == f.endPeriod
    ensures BoundIn(CostBase(), params)
    ensures AllConditionsTrue(CostBase(), params, sub) <==>
      TextLe(sub.startDate, f.endPeriod) && (sub.endDate.None? || TextLe(f.startPeriod, sub.endDate.value))
  {
    var base := CostBase();
    assert AllConditionsTrue(base, params, sub) <==>
      EvalCondition(base[0], params, sub) == True && EvalCondition(base[1], params, sub) == True;
  }

  lemma CostParams(f: CostFilter)
    ensures var q := CostQuery(f);
      |q.params| == 2 + |CostTerms(f)|
      && q.params[0] == f.startPeriod && q.params[1] == f.endPeriod
      && forall i :: 0 <= i < |CostTerms(f)| ==> q.params[2 + i] == CostTerms(f)[i].value
  {
  }

  /** The cost query sums a row exactly when the row overlaps the period and passes the filters. */
  lemma CostQueryMeaning(f: CostFilter, sub: Subscriptions)
    ensures PlaceholdersBound(CostQuery(f))
    ensures Selects(CostQuery(f), sub) <==> InCostPeriod(f, sub)
  {
    var q := CostQuery(f);
    var terms := CostTerms(f);
    CostParams(f);
    NumberedMeaning(terms, 3, q.params, sub);
    CostBaseMeaning(f, q.params, sub);
    AllConditionsTrueAppend(CostBase(), Numbered(terms, 3), q.params, sub);
    WhereTrueIffAll(q.conditions, q.params, sub);
    CostTermsMeaning(f, sub);
  }

  /** With an end_date filter supplied, an open-ended row (NULL end_date) is never listed. */
  lemma OpenEndedNeverListedUnderEndFilter(f: ListFilter, sub: Subscriptions)
    requires f.endDate.Some? && sub.endDate.None?
    ensures PlaceholdersBound(ListQuery(f)) && !Selects(ListQuery(f), sub)
  {
    ListQueryMeaning(f, sub);
  }

  // ---------------------------------------------------------------------------------------
  // Folds over the table

  /** The records stored under `ids`, with repetitions: two ids may hold equal records. */
  ghost function RowsBag(rows: map<Int64, Subscriptions>, ids: set<Int64>): multiset<Subscriptions>
    requires ids <= rows.Keys
  {
    if ids == {} then multiset{}
    else
      var id :| id in ids;
      multiset{rows[id]} + RowsBag(rows, ids - {id})
  }

  /** The sum of the prices stored under `ids`, over unbounded integers. */
  ghost function PriceSum(rows: map<Int64, Subscriptions>, ids: set<Int64>): int
    requires ids <= rows.Keys
  {
    if ids == {} then 0
    else
      var id :| id in ids;
      rows[id].price as int + PriceSum(rows, ids - {id})
  }

  /** Any id may be taken out first: the fold does not depend on the choice `:|` makes. */
  lemma {:induction false} RowsBagRemove(rows: map<Int64, Subscriptions>, ids: set<Int64>, x: Int64)
    requires ids <= rows.Keys && x in ids
    ensures RowsBag(rows, ids) == multiset{rows[x]} + RowsBag(rows, ids - {x})
    decreases ids
  {
    var id :| id in ids && RowsBag(rows, ids) == multiset{rows[id]} + RowsBag(rows, ids - {id});
    if id != x {
      RowsBagRemove(rows, ids - {id}, x);
      RowsBagRemove(rows, ids - {x}, id);
      assert ids - {id} - {x} == ids - {x} - {id};
    }
  }

  lemma {:induction false} PriceSumRemove(rows: map<Int64, Subscriptions>, ids: set<Int64>, x: Int64)
    requires ids <= rows.Keys && x in ids
    ensures PriceSum(rows, ids) == rows[x].price as int + PriceSum(rows, ids - {x})
    decreases ids
  {
    var id :| id in ids && PriceSum(rows, ids) == rows[id].price as int + PriceSum(rows, ids - {id});
    if id != x {
      PriceSumRemove(rows, ids - {id}, x);
      PriceSumRemove(rows, ids - {x}, id);
      assert ids - {id} - {x} == ids - {x} - {id};
    }
  }

  lemma RowsBagAdd(rows: map<Int64, Subscriptions>, ids: set<Int64>, x: Int64)
    requires ids <= rows.Keys && x in rows && x !in ids
    ensures RowsBag(rows, ids + {x}) == RowsBag(rows, ids) + multiset{rows[x]}
  {
    RowsBagRemove(rows, ids + {x}, x);
    assert ids + {x} - {x} == ids;
  }

  lemma PriceSumAdd(rows: map<Int64, Subscriptions>, ids: set<Int64>, x: Int64)
    requires ids <= rows.Keys && x in rows && x !in ids
    ensures PriceSum(rows, ids + {x}) == PriceSum(rows, ids) + rows[x].price as int
  {
    PriceSumRemove(rows, ids + {x}, x);
    assert ids + {x} - {x} == ids;
  }

  /** One record per id: the result has exactly as many entries as ids were selected. */
  lemma {:induction false} RowsBagSize(rows: map<Int64, Subscriptions>, ids: set<Int64>)
    requires ids <= rows.Keys
    ensures |RowsBag(rows, ids)| == |ids|
    decreases ids
  {
    if ids != {} {
      var id :| id in ids;
      RowsBagRemove(rows, ids, id);
      RowsBagSize(rows, ids - {id});
    }
  }

  /** A record is in the bag exactly when some selected id stores it. */
  lemma {:induction false} RowsBagMembers(rows: map<Int64, Subscriptions>, ids: set<Int64>, s: Subscriptions)
    requires ids <= rows.Keys
    ensures s in RowsBag(rows, ids) <==> exists id :: id in ids && rows[id] == s
    decreases ids
  {
    if ids != {} {
      var x :| x in ids;
      RowsBagRemove(rows, ids, x);
      RowsBagMembers(rows, ids - {x}, s);
      if s in RowsBag(rows, ids - {x}) {
        var id :| id in ids - {x} && rows[id] == s;
        assert id in ids;
      }
    }
  }

  /** The ids among `ids` whose row the listing query returns. */
  ghost function ListedAmong(rows: map<Int64, Subscriptions>, f: ListFilter, ids: set<Int64>): (r: set<Int64>)
    requires ids <= rows.Keys
    ensures r <= ids
  {
    set id | id in ids && MatchesListFilter(f, rows[id])
  }

  /** The ids among `ids` whose price the cost query sums. */
  ghost function CostAmong(rows: map<Int64, Subscriptions>, f: CostFilter, ids: set<Int64>): (r: set<Int64>)
    requires ids <= rows.Keys
    ensures r <= ids
  {
    set id | id in ids && InCostPeriod(f, rows[id])
  }

  /** Reading one more row extends the listing by that row exactly when it matches. */
  lemma ListedStep(rows: map<Int64, Subscriptions>, f: ListFilter, done: set<Int64>, id: Int64)
    requires done <= rows.Keys && id in rows && id !in done
    ensures RowsBag(rows, ListedAmong(rows, f, done + {id})) ==
      if MatchesListFilter(f, rows[id]) then RowsBag(rows, ListedAmong(rows, f, done)) + multiset{rows[id]}
      else RowsBag(rows, ListedAmong(rows, f, done))
  {
    if MatchesListFilter(f, rows[id]) {
      assert ListedAmong(rows, f, done + {id}) == ListedAmong(rows, f, done) + {id};
      RowsBagAdd(rows, ListedAmong(rows, f, done), id);
    } else {
      assert ListedAmong(rows, f, done + {id}) == ListedAmong(rows, f, done);
    }
  }

  /** Reading one more row adds its price to the total exactly when the cost query selects it. */
  lemma CostStep(rows: map<Int64, Subscriptions>, f: CostFilter, done: set<Int64>, id: Int64)
    requires done <= rows.Keys && id in rows && id !in done
    ensures PriceSum(rows, CostAmong(rows, f, done + {id})) ==
      PriceSum(rows, CostAmong(rows, f, done)) + (if InCostPeriod(f, rows[id]) then rows[id].price as int else 0)
  {
    if InCostPeriod(f, rows[id]) {
      assert CostAmong(rows, f, done + {id}) == CostAmong(rows, f, done) + {id};
      PriceSumAdd(rows, CostAmong(rows, f, done), id);
    } else {
      assert CostAmong(rows, f, done + {id}) == CostAmong(rows, f, done);
    }
  }

  /** What `SELECT COALESCE(SUM(price), 0)` computes over the rows the cost query selects. */
  ghost function TotalCost(rows: map<Int64, Subscriptions>, f: CostFilter): int {
    PriceSum(rows, CostAmong(rows, f, rows.Keys))
  }

  /** The records ListSubscriptions returns, with repetitions and in no particular order. */
  ghost function Listed(rows: map<Int64, Subscriptions>, f: ListFilter): multiset<Subscriptions> {
    RowsBag(rows, ListedAmong(rows, f, rows.Keys))
  }

  // ---------------------------------------------------------------------------------------
  // The store

  /** The `subscriptions` table: rows keyed by their `id`; `nextId` is the id sequence's next value. */
  class Storage {
    var rows: map<Int64, Subscriptions>
    var nextId: int

    ghost predicate Valid()
      reads this
    {
      && 1 <= nextId <= MaxInt64 + 1
      && forall id :: id in rows ==> id as int < nextId
    }

    constructor ()
      ensures Valid() && rows == map[] && nextId == 1
    {
      rows := map[];
      nextId := 1;
    }

    /** `INSERT ... RETURNING id`: the row gets the sequence's next value, which was never used. */
    method CreateSubscription(sub: Subscriptions, dbError: bool) returns (r: Result<Int64, StoreError>)
      requires Valid()
      modifies this
      ensures Valid()
      ensures (dbError || old(nextId) > MaxInt64) ==>
        r == Failure(DatabaseError) && rows == old(rows) && nextId == old(nextId)
      ensures !(dbError || old(nextId) > MaxInt64) ==>
        && r == Success(old(nextId) as Int64)
        && old(nextId) as Int64 !in old(rows)
        && rows == old(rows)[r.value := sub]
        && nextId == old(nextId) + 1
    {
      if dbError || nextId > MaxInt64 {
        return Failure(DatabaseError);
      }
      var id := nextId as Int64;
      rows := rows[id := sub];
      nextId := nextId + 1;
      r := Success(id);
    }

    /** `SELECT ... WHERE id = $1`: the stored record, or NotFound when `Scan` sees no row. */
    method GetSubscription(id: Int64, dbError: bool) returns (r: Result<Subscriptions, StoreError>)
      ensures dbError ==> r == Failure(DatabaseError)
      ensures !dbError && id !in rows ==> r == Failure(NotFound)
      ensures !dbError && id in rows ==> r == Success(rows[id])
    {
      if dbError {
        return Failure(DatabaseError);
      }
      if id !in rows {
        return Failure(NotFound);
      }
      r := Success(rows[id]);
    }

    /** `UPDATE ... WHERE id = $6`: all five fields of that one row; zero rows affected is NotFound. */
    method UpdateSubscription(id: Int64, sub: Subscriptions, dbError: bool) returns (r: Outcome<StoreError>)
      requires Valid()
      modifies this
      ensures Valid() && nextId == old(nextId)
      ensures dbError ==> r == Fail(DatabaseError) && rows == old(rows)
      ensures !dbError && id !in old(rows) ==> r == Fail(NotFound) && rows == old(rows)
      ensures !dbError && id in old(rows) ==> r == Pass && rows == old(rows)[id := sub]
    {
      if dbError {
        return Fail(DatabaseError);
      }
      if id !in rows {
        return Fail(NotFound);
      }
      rows := rows[id := sub];
      r := Pass;
    }

    /** `DELETE ... WHERE id = $1`: that one row; zero rows affected is NotFound. */
    method DeleteSubscription(id: Int64, dbError: bool) returns (r: Outcome<StoreError>)
      requires Valid()
      modifies this
      ensures Valid() && nextId == old(nextId)
      ensures dbError ==> r == Fail(DatabaseError) && rows == old(rows)
      ensures !dbError && id !in old(rows) ==> r == Fail(NotFound) && rows == old(rows)
      ensures !dbError && id in old(rows) ==> r == Pass && rows == old(rows) - {id}
    {
      if dbError {
        return Fail(DatabaseError);
      }
      if id !in rows {
        return Fail(NotFound);
      }
      rows := rows - {id};
      r := Pass;
    }

    /**
     * Builds the listing query, then reads the rows it selects one by one, appending each to
     * `subs` as `for rows.Next()` does. The table returns rows in no defined order.
     */
    method ListSubscriptions(filter: ListFilter, dbError: bool) returns (r: Result<seq<Subscriptions>, StoreError>)
      ensures dbError ==> r == Failure(DatabaseError)
      ensures !dbError ==> r.Success? && multiset(r.value) == Listed(rows, filter)
    {
      if dbError {
        return Failure(DatabaseError);
      }
      var q := BuildListQuery(filter);
      var subs: seq<Subscriptions> := [];
      var pending := rows.Keys;
      while pending != {}
        invariant pending <= rows.Keys
        invariant multiset(subs) == RowsBag(rows, ListedAmong(rows, filter, rows.Keys - pending))
        decreases pending
      {
        var id :| id in pending;
        ghost var done := rows.Keys - pending;
        ListQueryMeaning(filter, rows[id]);
        ListedStep(rows, filter, done, id);
        if EvalWhere(q.conditions, q.params, rows[id]) == True {
          assert multiset(subs + [rows[id]]) == multiset(subs) + multiset{rows[id]};
          subs := subs + [rows[id]];
        }
        pending := pending - {id};
        assert rows.Keys - pending == done + {id};
      }
      assert rows.Keys - pending == rows.Keys;
      r := Success(subs);
    }

    /**
     * `SELECT COALESCE(SUM(price), 0)` over the rows the cost query selects. SUM over bigint is
     * computed without overflow; a total outside int64 cannot be scanned into `totalCost`.
     */
    method CalculateTotalCost(filter: CostFilter, dbError: bool) returns (r: Result<Int64, StoreError>)
      ensures dbError ==> r == Failure(DatabaseError)
      ensures !dbError && InInt64Range(TotalCost(rows, filter)) ==>
        r == Success(TotalCost(rows, filter) as Int64)
      ensures !dbError && !InInt64Range(TotalCost(rows, filter)) ==> r == Failure(DatabaseError)
    {
      if dbError {
        return Failure(DatabaseError);
      }
      var q := BuildCostQuery(filter);
      var total := 0;
      var pending := rows.Keys;
      while pending != {}
        invariant pending <= rows.Keys
        invariant total == PriceSum(rows, CostAmong(rows, filter, rows.Keys - pending))
        decreases pending
      {
        var id :| id in pending;
        ghost var done := rows.Keys - pending;
        CostQueryMeaning(filter, rows[id]);
        CostStep(rows, filter, done, id);
        if EvalWhere(q.conditions, q.params, rows[id]) == True {
          total := total + rows[id].price as int;
        }
        pending := pending - {id};
        assert rows.Keys - pending == done + {id};
      }
      assert rows.Keys - pending == rows.Keys;
      if !InInt64Range(total) {
        return Failure(DatabaseError);
      }
      r := Success(total as Int64);
    }
  }

  // ---------------------------------------------------------------------------------------
  // What the listing and the total promise

  /** A record is listed exactly when some row stores it and it satisfies every supplied filter. */
  lemma ListedExactly(rows: map<Int64, Subscriptions>, f: ListFilter, s: Subscriptions)
    ensures s in Listed(rows, f) <==> exists id :: id in rows && rows[id] == s && MatchesListFilter(f, s)
  {
    var ids := ListedAmong(rows, f, rows.Keys);
    RowsBagMembers(rows, ids, s);
    if exists id :: id in rows && rows[id] == s && MatchesListFilter(f, s) {
      var id :| id in rows && rows[id] == s && MatchesListFilter(f, s);
      assert id in ids;
    }
  }

  /** Each selected row appears once: the listing's length is the number of matching rows. */
  lemma ListedSize(rows: map<Int64, Subscriptions>, f: ListFilter)
    ensures |Listed(rows, f)| == |set id | id in rows && MatchesListFilter(f, rows[id])|
  {
    RowsBagSize(rows, ListedAmong(rows, f, rows.Keys));
  }

  /** The ids among `ids` that store `s`. */
  function Holding(rows: map<Int64, Subscriptions>, ids: set<Int64>, s: Subscriptions): (r: set<Int64>)
    requires ids <= rows.Keys
    ensures r <= ids
  {
    set id | id in ids && rows[id] == s
  }

  lemma HoldingRemove(rows: map<Int64, Subscriptions>, ids: set<Int64>, x: Int64, s: Subscriptions)
    requires ids <= rows.Keys && x in ids
    ensures |Holding(rows, ids, s)| == |Holding(rows, ids - {x}, s)| + (if rows[x] == s then 1 else 0)
  {
    if rows[x] == s {
      assert Holding(rows, ids, s) == Holding(rows, ids - {x}, s) + {x};
    } else {
      assert Holding(rows, ids, s) == Holding(rows, ids - {x}, s);
    }
  }

  /** A record occurs in the bag once for every selected id that stores it. */
  lemma {:induction false} RowsBagCount(rows: map<Int64, Subscriptions>, ids: set<Int64>, s: Subscriptions)
    requires ids <= rows.Keys
    ensures RowsBag(rows, ids)[s] == |Holding(rows, ids, s)|
    decreases ids
  {
    if ids == {} {
      assert Holding(rows, ids, s) == {};
    } else {
      var x :| x in ids;
      RowsBagRemove(rows, ids, x);
      RowsBagCount(rows, ids - {x}, s);
      HoldingRemove(rows, ids, x, s);
    }
  }

  /** A record is listed as many times as there are matching rows storing it. */
  lemma ListedCount(rows: map<Int64, Subscriptions>, f: ListFilter, s: Subscriptions)
    ensures Listed(rows, f)[s] == |set id | id in rows && rows[id] == s && MatchesListFilter(f, s)|
  {
    var ids := ListedAmong(rows, f, rows.Keys);
    RowsBagCount(rows, ids, s);
    assert Holding(rows, ids, s) == (set id | id in rows && rows[id] == s && MatchesListFilter(f, s));
  }

  /** With no filter supplied every row is listed: each record once per row that stores it. */
  lemma UnfilteredListsEverything(rows: map<Int64, Subscriptions>)
    ensures Listed(rows, NoListFilter()) == RowsBag(rows, rows.Keys)
    ensures forall s :: Listed(rows, NoListFilter())[s] == |set id | id in rows && rows[id] == s|
    ensures |Listed(rows, NoListFilter())| == |rows|
    ensures forall id :: id in rows ==> rows[id] in Listed(rows, NoListFilter())
  {
    assert ListedAmong(rows, NoListFilter(), rows.Keys) == rows.Keys;
    RowsBagSize(rows, rows.Keys);
    forall s ensures Listed(rows, NoListFilter())[s] == |set id | id in rows && rows[id] == s| {
      RowsBagCount(rows, rows.Keys, s);
      assert Holding(rows, rows.Keys, s) == set id | id in rows && rows[id] == s;
    }
    forall id | id in rows ensures rows[id] in Listed(rows, NoListFilter()) {
      ListedExactly(rows, NoListFilter(), rows[id]);
    }
  }

  /** Filtering by user returns only that user's records. */
  lemma UserFilterListsOnlyThatUser(rows: map<Int64, Subscriptions>, f: ListFilter, s: Subscriptions)
    requires f.userId.Some? && s in Listed(rows, f)
    ensures s.userId == f.userId.value
  {
    ListedExactly(rows, f, s);
  }

  /** An end_date filter never lists an open-ended subscription. */
  lemma EndFilterListsNoOpenEnded(rows: map<Int64, Subscriptions>, f: ListFilter, s: Subscriptions)
    requires f.endDate.Some? && s in Listed(rows, f)
    ensures s.endDate.Some?
  {
    ListedExactly(rows, f, s);
  }

  /** A new row joins the listing exactly when it matches the filter. */
  lemma ListedAfterInsert(rows: map<Int64, Subscriptions>, f: ListFilter, x: Int64, s: Subscriptions)
    requires x !in rows
    ensures Listed(rows[x := s], f) ==
      if MatchesListFilter(f, s) then Listed(rows, f) + multiset{s} else Listed(rows, f)
  {
    var after := rows[x := s];
    assert rows.Keys <= after.Keys;
    assert ListedAmong(after, f, rows.Keys) == ListedAmong(rows, f, rows.Keys);
    RowsBagSame(rows, after, ListedAmong(rows, f, rows.Keys));
    ListedStep(after, f, rows.Keys, x);
    assert after.Keys == rows.Keys + {x};
  }

  /** Folds only read the rows they select: another table agreeing on them gives the same bag and sum. */
  lemma {:induction false} RowsBagSame(a: map<Int64, Subscriptions>, b: map<Int64, Subscriptions>, ids: set<Int64>)
    requires ids <= a.Keys && ids <= b.Keys
    requires forall id :: id in ids ==> a[id] == b[id]
    ensures RowsBag(a, ids) == RowsBag(b, ids)
    ensures PriceSum(a, ids) == PriceSum(b, ids)
    decreases ids
  {
    if ids != {} {
      var id :| id in ids;
      RowsBagRemove(a, ids, id);
      RowsBagRemove(b, ids, id);
      PriceSumRemove(a, ids, id);
      PriceSumRemove(b, ids, id);
      RowsBagSame(a, b, ids - {id});
    }
  }

  /** A new row adds its price to the total exactly when it overlaps the period and passes the filters. */
  lemma TotalAfterInsert(rows: map<Int64, Subscriptions>, f: CostFilter, x: Int64, s: Subscriptions)
    requires x !in rows
    ensures TotalCost(rows[x := s], f) ==
      TotalCost(rows, f) + (if InCostPeriod(f, s) then s.price as int else 0)
  {
    var after := rows[x := s];
    assert rows.Keys <= after.Keys;
    assert CostAmong(after, f, rows.Keys) == CostAmong(rows, f, rows.Keys);
    RowsBagSame(rows, after, CostAmong(rows, f, rows.Keys));
    CostStep(after, f, rows.Keys, x);
    assert after.Keys == rows.Keys + {x};
  }

  /** `COALESCE(SUM(price), 0)`: when no row overlaps the period the total is 0. */
  lemma NoMatchCostsZero(rows: map<Int64, Subscriptions>, f: CostFilter)
    requires forall id :: id in rows ==> !InCostPeriod(f, rows[id])
    ensures TotalCost(rows, f) == 0
  {
    assert CostAmong(rows, f, rows.Keys) == {};
  }

  lemma EmptyTableCostsZero(f: CostFilter)
    ensures TotalCost(map[], f) == 0
  {
    NoMatchCostsZero(map[], f);
  }

  /** A row from 01-2024 to 06-2024 priced 100 counts for 03-2024..03-2024 and not for 07-2024..12-2024. */
  lemma OverlapExample()
    ensures var sub := Subscriptions("Yandex Plus", 100, "60601fee-2bf1-4721-ae6f-7636e79a0cba", "01-2024", Some("06-2024"));
      && TotalCost(map[1 := sub], CostFilter(None, None, "03-2024", "03-2024")) == 100
      && TotalCost(map[1 := sub], CostFilter(None, None, "07-2024", "12-2024")) == 0
  {
    var sub := Subscriptions("Yandex Plus", 100, "60601fee-2bf1-4721-ae6f-7636e79a0cba", "01-2024", Some("06-2024"));
    var inside := CostFilter(None, None, "03-2024", "03-2024");
    var after := CostFilter(None, None, "07-2024", "12-2024");
    TotalAfterInsert(map[], inside, 1, sub);
    TotalAfterInsert(map[], after, 1, sub);
    EmptyTableCostsZero(inside);
    EmptyTableCostsZero(after);
    assert map[][1 := sub] == map[1 := sub];
    assert TextLe("01-2024", "03-2024") && TextLe("03-2024", "06-2024");
    assert !TextLe("07-2024", "06-2024");
  }

  /**
   * An open-ended row from 01-2023 priced 50 counts for every period that does not end before
   * its start, when no user or service filter is given.
   */
  lemma OpenEndedCounted(f: CostFilter)
    requires f.userId.None? && f.serviceName.None? && TextLe("01-2023", f.endPeriod)
    ensures var sub := Subscriptions("Netflix", 50, "60601fee-2bf1-4721-ae6f-7636e79a0cba", "01-2023", None);
      TotalCost(map[7 := sub], f) == 50
  {
    var sub := Subscriptions("Netflix", 50, "60601fee-2bf1-4721-ae6f-7636e79a0cba", "01-2023", None);
    TotalAfterInsert(map[], f, 7, sub);
    EmptyTableCostsZero(f);
    assert map[][7 := sub] == map[7 := sub];
  }

  /** A wider period selects every row a narrower one does, and perhaps more. */
  lemma WiderPeriodSelectsMore(rows: map<Int64, Subscriptions>, narrow: CostFilter, wide: CostFilter)
    requires wide.userId == narrow.userId && wide.serviceName == narrow.serviceName
    requires TextLe(wide.startPeriod, narrow.startPeriod) && TextLe(narrow.endPeriod, wide.endPeriod)
    ensures CostAmong(rows, narrow, rows.Keys) <= CostAmong(rows, wide, rows.Keys)
  {
    forall id | id in CostAmong(rows, narrow, rows.Keys) ensures id in CostAmong(rows, wide, rows.Keys) {
      var sub := rows[id];
      TextLeTransitive(sub.startDate, narrow.endPeriod, wide.endPeriod);
      if sub.endDate.Some? {
        TextLeTransitive(wide.startPeriod, narrow.startPeriod, sub.endDate.value);
      }
    }
  }

  // ---------------------------------------------------------------------------------------
  // Sequences of store calls

  /** After Create returns an id, Get of that id yields the five inserted fields unchanged. */
  method CreateThenGet(store: Storage, sub: Subscriptions)
    returns (created: Result<Int64, StoreError>, fetched: Result<Subscriptions, StoreError>)
    requires store.Valid()
    modifies store
    ensures store.Valid()
    ensures old(store.nextId) <= MaxInt64 ==> created.Success?
    ensures created.Success? ==> fetched == Success(sub)
  {
    created := store.CreateSubscription(sub, false);
    fetched := Failure(NotFound);
    if created.Success? {
      fetched := store.GetSubscription(created.value, false);
    }
  }

  /** A successful Update is seen by the next Get; a failed one leaves the table as it was. */
  method UpdateThenGet(store: Storage, id: Int64, sub: Subscriptions)
    returns (updated: Outcome<StoreError>, fetched: Result<Subscriptions, StoreError>)
    requires store.Valid()
    modifies store
    ensures store.Valid()
    ensures updated.Pass? ==> fetched == Success(sub)
    ensures updated.Fail? ==> updated.error == NotFound && store.rows == old(store.rows) && fetched == Failure(NotFound)
  {
    updated := store.UpdateSubscription(id, sub, false);
    fetched := store.GetSubscription(id, false);
  }

  /** Deleting the same id twice: the second call finds no row, and Get then reports NotFound. */
  method DeleteTwice(store: Storage, id: Int64)
    returns (first: Outcome<StoreError>, second: Outcome<StoreError>, fetched: Result<Subscriptions, StoreError>)
    requires store.Valid()
    modifies store
    ensures store.Valid()
    ensures first.Pass? <==> id in old(store.rows)
    ensures store.rows == old(store.rows) - {id}
    ensures second == Fail(NotFound) && fetched == Failure(NotFound)
  {
    first := store.DeleteSubscription(id, false);
    second := store.DeleteSubscription(id, false);
    fetched := store.GetSubscription(id, false);
  }
}
