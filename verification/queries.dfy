/** The query builders: `queriedCollection`, `_orderByQuery`, `_startArQuery`,
    `_startAfterQuery` and the `limit` step. A query is modelled as its plan:
    the collection it starts from and the operations applied to it, in order.
    What the backend does with a plan (filter evaluation, cursors) is not
    modelled. */
module Queries {

  import opened Values
  import opened Refs

  datatype QueryOp =
    | Where(field: string, op: string, operand: Value)
    | OrderBy(field: string, direction: Option<string>)
    | StartAt(cursor: Value)
    | StartAfter(cursor: Value)
    | Limit(count: Value)

  datatype Query = Query(base: CollectionRef, ops: seq<QueryOp>)
  {
    /** Chaining one more builder call onto the query. */
    function Then(op: QueryOp): (q: Query)
      ensures q.base == base && |q.ops| == |ops| + 1 && q.ops[..|ops|] == ops && q.ops[|ops|] == op
    {
      Query(base, ops + [op])
    }
  }

  /** An `AndQuery`: `[fieldPath, operator, value]`. */
  type AndQuery = (string, string, Value)

  /** The `orderBy` option; `direction` is `""` when it was not given. */
  datatype OrderSpec = OrderSpec(field: string, direction: string)

  /** The position of each kind of operation in the plan `getData` builds:
      filters, then ordering, then the two cursors, then the limit. */
  function Rank(op: QueryOp): nat
  {
    match op
    case Where(_, _, _) => 0
    case OrderBy(_, _) => 1
    case StartAt(_) => 2
    case StartAfter(_) => 3
    case Limit(_) => 4
  }

  /** `ops` lists its operations by rank, and after a `where` only filters
      may repeat a rank: each neighbour is ranked no lower, and strictly
      higher unless both are filters. */
  ghost predicate InPlanOrder(ops: seq<QueryOp>)
  {
    forall i :: 1 <= i < |ops| ==>
      Rank(ops[i - 1]) < Rank(ops[i]) || (ops[i - 1].Where? && ops[i].Where?)
  }

  /** Neighbour-wise order is order throughout: any operation is ranked no
      higher than a later one, and strictly lower unless it is a filter. */
  lemma {:induction false} PlanOrderIsSorted(ops: seq<QueryOp>)
    requires InPlanOrder(ops)
    ensures forall i, j :: 0 <= i < j < |ops| ==> Rank(ops[i]) <= Rank(ops[j])
    ensures forall i, j :: 0 <= i < j < |ops| && !ops[i].Where? ==> Rank(ops[i]) < Rank(ops[j])
    decreases |ops|
  {
    if |ops| > 1 {
      var n := |ops| - 1;
      var init := ops[..n];
      assert forall i :: 0 <= i < n ==> init[i] == ops[i];
      PlanOrderIsSorted(init);
      forall i | 0 <= i < n
        ensures Rank(ops[i]) <= Rank(ops[n])
        ensures !ops[i].Where? ==> Rank(ops[i]) < Rank(ops[n])
      {
        if i < n - 1 {
          assert Rank(init[i]) <= Rank(init[n - 1]);
        }
      }
    }
  }

  ghost predicate RanksAtMost(ops: seq<QueryOp>, k: nat)
  {
    forall i :: 0 <= i < |ops| ==> Rank(ops[i]) <= k
  }

  /** The filters come first, in the caller's order, and nowhere else. */
  ghost predicate WheresFirst(ops: seq<QueryOp>, filters: seq<AndQuery>)
  {
    && |filters| <= |ops|
    && (forall i :: 0 <= i < |filters| ==> ops[i] == WhereOf(filters[i]))
    && (forall i :: |filters| <= i < |ops| ==> !ops[i].Where?)
  }

  /** The operations of rank `k` in `ops` are exactly `expected`: it occurs
      when it is present, and nothing else of that rank does. */
  ghost predicate Exactly(ops: seq<QueryOp>, k: nat, expected: Option<QueryOp>)
  {
    && (forall i :: 0 <= i < |ops| && Rank(ops[i]) == k ==> expected == Some(ops[i]))
    && (expected.Some? ==> expected.value in ops)
  }

  /** A plan of filters alone is in order, with the filters first. */
  lemma FiltersInPlanOrder(ops: seq<QueryOp>, filters: seq<AndQuery>)
    requires |ops| == |filters|
    requires forall i :: 0 <= i < |ops| ==> ops[i] == WhereOf(filters[i])
    ensures InPlanOrder(ops) && RanksAtMost(ops, 0) && WheresFirst(ops, filters)
  {
  }

  /** `Some(op)` when `present`. */
  function When(present: bool, op: QueryOp): (r: Option<QueryOp>)
    ensures r.Some? <==> present
    ensures r.Some? ==> r.value == op
  {
    if present then Some(op) else None
  }

  /** Appending an operation ranked after every one already there keeps the
      plan in order and makes it the one operation of its rank. */
  lemma AppendInPlanOrder(ops: seq<QueryOp>, op: QueryOp)
    requires InPlanOrder(ops)
    requires forall i :: 0 <= i < |ops| ==> Rank(ops[i]) < Rank(op)
    ensures InPlanOrder(ops + [op])
    ensures RanksAtMost(ops + [op], Rank(op))
    ensures Exactly(ops + [op], Rank(op), Some(op))
  {
    assert (ops + [op])[|ops|] == op;
  }

  /** Appending an operation of another rank, not a filter, changes neither
      which operations of rank `k` there are nor where the filters sit. */
  lemma AppendOtherRank(ops: seq<QueryOp>, filters: seq<AndQuery>, k: nat, expected: Option<QueryOp>, op: QueryOp)
    requires Exactly(ops, k, expected) && WheresFirst(ops, filters)
    requires Rank(op) != k && !op.Where?
    ensures Exactly(ops + [op], k, expected) && WheresFirst(ops + [op], filters)
  {
    if expected.Some? {
      var i :| 0 <= i < |ops| && ops[i] == expected.value;
      assert (ops + [op])[i] == expected.value;
    }
  }

  /** Appending anything but a filter leaves the filters where they were. */
  lemma AppendKeepsWheresFirst(ops: seq<QueryOp>, filters: seq<AndQuery>, op: QueryOp)
    requires WheresFirst(ops, filters) && !op.Where?
    ensures WheresFirst(ops + [op], filters)
  {
  }

  /** Operations all ranked below `k` include none of rank `k`. */
  lemma NoneOfRank(ops: seq<QueryOp>, k: nat)
    requires forall i :: 0 <= i < |ops| ==> Rank(ops[i]) < k
    ensures Exactly(ops, k, None)
  {
  }

  /** When no limit is expected, the plan holds no limit operation. */
  lemma NoLimitWhenAbsent(ops: seq<QueryOp>)
    requires Exactly(ops, 4, None)
    ensures forall i :: 0 <= i < |ops| ==> !ops[i].Limit?
  {
  }

  /** A collection used as a query: no operations yet. */
  function Base(c: CollectionRef): Query
  {
    Query(c, [])
  }

  function WhereOf(q: AndQuery): QueryOp
  {
    Where(q.0, q.1, q.2)
  }

  /** `queriedCollection(query, andQueries)`: one `where` per filter, in the
      caller's order, after whatever the query already had. */
  function QueriedCollection(q: Query, filters: seq<AndQuery>): (r: Query)
    ensures r.base == q.base
    ensures |r.ops| == |q.ops| + |filters|
    ensures r.ops[..|q.ops|] == q.ops
    ensures forall i :: 0 <= i < |filters| ==> r.ops[|q.ops| + i] == WhereOf(filters[i])
    decreases |filters|
  {
    if |filters| == 0 then q
    else
      var n := |filters| - 1;
      var r := QueriedCollection(q, filters[..n]).Then(WhereOf(filters[n]));
      assert forall i :: 0 <= i < n ==> filters[..n][i] == filters[i];
      r
  }

  /** The ordering operation for `o`: the direction is passed only when it
      is truthy. */
  function OrderOp(o: OrderSpec): (op: QueryOp)
    ensures op.OrderBy? && op.field == o.field
    ensures op.direction.Some? <==> o.direction != ""
    ensures op.direction.Some? ==> op.direction.value == o.direction
  {
    if o.direction != "" then OrderBy(o.field, Some(o.direction)) else OrderBy(o.field, None)
  }

  /** `_orderByQuery(query, orderBy)`. */
  function OrderByQuery(q: Query, o: OrderSpec): (r: Query)
    ensures r.base == q.base && r.ops == q.ops + [OrderOp(o)]
  {
    q.Then(OrderOp(o))
  }

  /** `_startArQuery(query, value)`. */
  function StartAtQuery(q: Query, cursor: Value): (r: Query)
    ensures r.base == q.base && r.ops == q.ops + [StartAt(cursor)]
  {
    q.Then(StartAt(cursor))
  }

  /** `_startAfterQuery(query, value)`. */
  function StartAfterQuery(q: Query, cursor: Value): (r: Query)
    ensures r.base == q.base && r.ops == q.ops + [StartAfter(cursor)]
  {
    q.Then(StartAfter(cursor))
  }

  /** `query.limit(n)`. */
  function LimitQuery(q: Query, count: Value): (r: Query)
    ensures r.base == q.base && r.ops == q.ops + [Limit(count)]
  {
    q.Then(Limit(count))
  }
}
