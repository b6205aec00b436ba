/**
 * Just enough SQL to give the store's queries a meaning: text columns that may be NULL,
 * comparisons against numbered placeholders `$k`, and the three-valued logic a WHERE clause
 * is evaluated in (a row is returned only when its WHERE evaluates to TRUE).
 */
module Sql {
  import opened Wrappers
  import opened Entities

  datatype Truth = True | False | Unknown

  function And(a: Truth, b: Truth): Truth {
    if a == False || b == False then False
    else if a == True && b == True then True
    else Unknown
  }

  function Or(a: Truth, b: Truth): Truth {
    if a == True || b == True then True
    else if a == False && b == False then False
    else Unknown
  }

  function FromBool(b: bool): Truth {
    if b then True else False
  }

  /**
   * Text order, character by character, a proper prefix first. The table schema is not part of
   * this model; the dates are taken to be stored as their `MM-YYYY` text.
   */
  predicate TextLe(a: string, b: string) {
    a == [] || (b != [] && (a[0] < b[0] || (a[0] == b[0] && TextLe(a[1..], b[1..]))))
  }

  /** The text columns the filters look at. */
  datatype Column = UserIdColumn | ServiceNameColumn | StartDateColumn | EndDateColumn

  datatype CmpOp = Equal | AtLeast | AtMost

  datatype Condition =
    | Compare(column: Column, op: CmpOp, placeholder: nat)        // column op $placeholder
    | NullOrCompare(column: Column, op: CmpOp, placeholder: nat)  // (column IS NULL OR column op $placeholder)
  {
    function Placeholder(): nat {
      match this
      case Compare(_, _, k) => k
      case NullOrCompare(_, _, k) => k
    }
  }

  /** `SELECT ... WHERE 1=1 AND c1 AND c2 ...` with its bound parameters; `$k` is params[k-1]. */
  datatype Query = Query(conditions: seq<Condition>, params: seq<string>)

  /** Every placeholder names a bound parameter. */
  predicate PlaceholdersBound(q: Query) {
    BoundIn(q.conditions, q.params)
  }

  /** A row's value in a column; only end_date can be NULL. */
  function Cell(sub: Subscriptions, column: Column): Option<string> {
    match column
    case UserIdColumn => Some(sub.userId)
    case ServiceNameColumn => Some(sub.serviceName)
    case StartDateColumn => Some(sub.startDate)
    case EndDateColumn => sub.endDate
  }

  function CompareText(x: string, op: CmpOp, v: string): bool {
    match op
    case Equal => x == v
    case AtLeast => TextLe(v, x)
    case AtMost => TextLe(x, v)
  }

  /** Any comparison with NULL is UNKNOWN. */
  function CompareCell(cell: Option<string>, op: CmpOp, v: string): Truth {
    if cell.None? then Unknown else FromBool(CompareText(cell.value, op, v))
  }

  function EvalCondition(c: Condition, params: seq<string>, sub: Subscriptions): Truth
    requires 1 <= c.Placeholder() <= |params|
  {
    match c
    case Compare(column, op, k) => CompareCell(Cell(sub, column), op, params[k - 1])
    case NullOrCompare(column, op, k) =>
      Or(FromBool(Cell(sub, column).None?), CompareCell(Cell(sub, column), op, params[k - 1]))
  }

  /** `1=1 AND c1 AND ... AND cn`, associating to the left as SQL parses it. */
  function EvalWhere(conditions: seq<Condition>, params: seq<string>, sub: Subscriptions): Truth
    requires BoundIn(conditions, params)
  {
    if conditions == [] then True
    else And(EvalWhere(conditions[..|conditions| - 1], params, sub),
             EvalCondition(conditions[|conditions| - 1], params, sub))
  }

  /** The row is in the query's result. */
  predicate Selects(q: Query, sub: Subscriptions)
    requires PlaceholdersBound(q)
  {
    EvalWhere(q.conditions, q.params, sub) == True
  }

  predicate BoundIn(conditions: seq<Condition>, params: seq<string>) {
    forall i :: 0 <= i < |conditions| ==> 1 <= conditions[i].Placeholder() <= |params|
  }

  predicate AllConditionsTrue(conditions: seq<Condition>, params: seq<string>, sub: Subscriptions)
    requires BoundIn(conditions, params)
  {
    forall i :: 0 <= i < |conditions| ==> EvalCondition(conditions[i], params, sub) == True
  }

  /** A conjunction is TRUE exactly when every conjunct is TRUE; FALSE and UNKNOWN both drop the row. */
  lemma {:induction false} WhereTrueIffAll(conditions: seq<Condition>, params: seq<string>, sub: Subscriptions)
    requires BoundIn(conditions, params)
    ensures EvalWhere(conditions, params, sub) == True <==> AllConditionsTrue(conditions, params, sub)
  {
    if conditions != [] {
      var init := conditions[..|conditions| - 1];
      WhereTrueIffAll(init, params, sub);
      assert forall i :: 0 <= i < |init| ==> init[i] == conditions[i];
    }
  }

  lemma AllConditionsTrueAppend(a: seq<Condition>, b: seq<Condition>, params: seq<string>, sub: Subscriptions)
    requires BoundIn(a, params) && BoundIn(b, params)
    ensures BoundIn(a + b, params)
    ensures AllConditionsTrue(a + b, params, sub) <==>
      AllConditionsTrue(a, params, sub) && AllConditionsTrue(b, params, sub)
  {
    assert forall i :: 0 <= i < |a| ==> (a + b)[i] == a[i];
    assert forall i :: 0 <= i < |b| ==> (a + b)[|a| + i] == b[i];
    assert forall i :: |a| <= i < |a + b| ==> (a + b)[i] == b[i - |a|];
  }

  /** A NULL end_date never satisfies `end_date <= $k` (nor any other plain comparison). */
  lemma NullNeverCompares(c: Condition, params: seq<string>, sub: Subscriptions)
    requires c.Compare? && 1 <= c.placeholder <= |params| && Cell(sub, c.column).None?
    ensures EvalCondition(c, params, sub) == Unknown
  {
  }

  lemma {:induction false} TextLeReflexive(a: string)
    ensures TextLe(a, a)
  {
    if a != [] {
      TextLeReflexive(a[1..]);
    }
  }

  lemma {:induction false} TextLeTotal(a: string, b: string)
    ensures TextLe(a, b) || TextLe(b, a)
  {
    if a != [] && b != [] && a[0] == b[0] {
      TextLeTotal(a[1..], b[1..]);
    }
  }

  lemma {:induction false} TextLeTransitive(a: string, b: string, c: string)
    requires TextLe(a, b) && TextLe(b, c)
    ensures TextLe(a, c)
  {
    if a != [] && b != [] && c != [] && a[0] == b[0] && b[0] == c[0] {
      TextLeTransitive(a[1..], b[1..], c[1..]);
    }
  }
}
