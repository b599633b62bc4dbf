/** The caller-facing entry points `addData` and `getData` and the id helper
    `_addId`. The options objects are immutable values here: where the source
    mutates `options.value` in place, the model returns the new value. The
    auto-generated document id and the backend's answer to a collection query
    are parameters. */
module Api {

  import opened Values
  import opened Paths
  import opened Refs
  import opened Queries
  import opened Backend

  datatype Error =
    | DocumentIdRequired   // "Document id must be provided to delete or update the document"
    | QueriesOnDocument    // "And queries can not run on document"
    | NoValueForTimestamp  // TypeError: a property set on an undefined/null `options.value`

  datatype Result<+T> = Ok(value: T) | Err(error: Error)
  {
    predicate IsFailure()
    {
      Err?
    }

    function PropagateFailure<U>(): Result<U>
      requires Err?
    {
      Err(error)
    }

    function Extract(): T
      requires Ok?
    {
      value
    }
  }

  /** `OptionsAddData`. `value` is `None` when it is `undefined` or `null`;
      `timestamp` is `""` when it was not given (both are falsy). */
  datatype AddOptions = AddOptions(
    path: string,
    value: Option<Record>,
    timestamp: string,
    merge: bool,
    update: bool,
    delete: bool)

  /** The `addId` argument, `boolean | string`, defaulting to `true`. */
  datatype IdPolicy = Flag(on: bool) | FieldName(name: string)

  const DefaultIdPolicy: IdPolicy := Flag(true)

  /** `if (addId)`. */
  predicate Enabled(p: IdPolicy)
  {
    match p
    case Flag(b) => b
    case FieldName(n) => n != ""
  }

  /** The key `_addId` writes: `id` when the policy is literally `true`,
      otherwise the policy itself used as a property name. */
  function IdKey(p: IdPolicy): string
  {
    match p
    case Flag(b) => if b then "id" else "false"
    case FieldName(n) => n
  }

  /** `after` is `before` with at most the fields in `keys` added, removed or altered. */
  ghost predicate ChangesOnly(before: Record, after: Record, keys: set<string>)
  {
    && (forall k :: k in before && k !in keys ==> k in after && after[k] == before[k])
    && (forall k :: k in after && k !in keys ==> k in before)
  }

  /** `_addId(options, docId, idString)`: writes the document id into the
      value unless there is no value or its `id` field is already truthy.
      The guard reads `id` whatever key is written. */
  function AddId(value: Option<Record>, docId: string, idString: IdPolicy): (r: Option<Record>)
    ensures r.Some? <==> value.Some?
    ensures value.Some? && !Truthy(Property(value.value, "id")) ==>
      IdKey(idString) in r.value && r.value[IdKey(idString)] == Str(docId)
    ensures value.Some? && Truthy(Property(value.value, "id")) ==> r == value
    ensures value.Some? ==> ChangesOnly(value.value, r.value, {IdKey(idString)})
  {
    if value.None? || Truthy(Property(value.value, "id")) then value
    else Some(value.value[IdKey(idString) := Str(docId)])
  }

  /** The returned value and the one backend command a successful write issues. */
  datatype Written = Written(value: Option<Record>, command: Command)

  /** Whether `addData` writes the id into the value. */
  predicate InjectsId(o: AddOptions, policy: IdPolicy)
  {
    Enabled(policy) && o.value.Some? && !Truthy(Property(o.value.value, "id"))
  }

  /** Whether `addData` writes the server timestamp into the value. */
  predicate StampsTime(o: AddOptions)
  {
    !o.delete && !o.update && o.timestamp != ""
  }

  /** Changing at most `k1` and then at most `k2` changes at most both. */
  lemma ChangesOnlyCompose(a: Record, b: Record, c: Record, k1: set<string>, k2: set<string>)
    requires ChangesOnly(a, b, k1) && ChangesOnly(b, c, k2)
    ensures ChangesOnly(a, c, k1 + k2)
  {
  }

  /** The document `d` that `addData` writes: the resolved `document` when
      `paths.length % 2 === 0`, otherwise `collection.doc()`, a fresh document
      with id `autoId` in the addressed collection. */
  function WriteTarget(paths: seq<string>, autoId: string): (d: DocumentRef)
    requires |paths| >= 1
    ensures |paths| % 2 == 0 ==> d.segments == paths
    ensures |paths| % 2 == 1 ==> Parent(d).segments == paths && Id(d) == autoId
  {
    var resolved := FindCollectionDocument(paths);
    if |paths| % 2 == 0 then resolved.document.value else Doc(resolved.collection, autoId)
  }

  /** The `if (options.delete) … else if (options.update) … else` chain of
      `addData`: exactly one backend command, delete before
      update before set; only the set stamps the time, and it fails with a
      `TypeError` when there is no value to stamp. */
  function Dispatch(o: AddOptions, d: DocumentRef, value: Option<Record>): (r: Result<Written>)
    ensures r.Err? <==> StampsTime(o) && value.None?
    ensures r.Err? ==> r.error == NoValueForTimestamp
    ensures r.Ok? ==> r.value.command.doc == d
    ensures r.Ok? ==> (r.value.command.Delete? <==> o.delete)
    ensures r.Ok? ==> (r.value.command.Update? <==> !o.delete && o.update)
    ensures r.Ok? ==> (r.value.command.Set? <==> !o.delete && !o.update)
    ensures r.Ok? && !r.value.command.Delete? ==> r.value.command.data == r.value.value
    ensures r.Ok? && r.value.command.Set? ==> r.value.command.merge == o.merge
    ensures r.Ok? ==> (r.value.value.Some? <==> value.Some?)
    ensures r.Ok? && value.Some? ==>
      ChangesOnly(value.value, r.value.value.value, if StampsTime(o) then {o.timestamp} else {})
    ensures r.Ok? && StampsTime(o) ==>
      o.timestamp in r.value.value.value && r.value.value.value[o.timestamp] == ServerTimestamp
  {
    if o.delete then Ok(Written(value, Delete(d)))
    else if o.update then Ok(Written(value, Update(d, value)))
    else if o.timestamp == "" then Ok(Written(value, Set(d, value, o.merge)))
    else if value.None? then Err(NoValueForTimestamp)
    else
      var stamped := Some(value.value[o.timestamp := ServerTimestamp]);
      Ok(Written(stamped, Set(d, stamped, o.merge)))
  }

  /** `addData(options, addId)`; `autoId` is the id `collection.doc()` generates. */
  function AddData(o: AddOptions, policy: IdPolicy, autoId: string): (r: Result<Written>)
    // the two ways it fails, and nothing else
    ensures r == Err(DocumentIdRequired) <==> |Split(o.path)| % 2 == 1 && (o.delete || o.update)
    ensures r == Err(NoValueForTimestamp) <==>
      !(|Split(o.path)| % 2 == 1 && (o.delete || o.update)) && StampsTime(o) && o.value.None?
    ensures r.Err? ==> r.error != QueriesOnDocument
    // the target: the addressed document, or a fresh document in the addressed collection
    ensures r.Ok? && |Split(o.path)| % 2 == 0 ==> r.value.command.doc.segments == Split(o.path)
    ensures r.Ok? && |Split(o.path)| % 2 == 1 ==> r.value.command.doc.segments == Split(o.path) + [autoId]
    // exactly one command, delete before update before set
    ensures r.Ok? ==> (r.value.command.Delete? <==> o.delete)
    ensures r.Ok? ==> (r.value.command.Update? <==> !o.delete && o.update)
    ensures r.Ok? ==> (r.value.command.Set? <==> !o.delete && !o.update)
    ensures r.Ok? && !r.value.command.Delete? ==> r.value.command.data == r.value.value
    ensures r.Ok? && r.value.command.Set? ==> r.value.command.merge == o.merge
    // the returned value: the input with at most the id and (set only) the timestamp written
    ensures r.Ok? ==> (r.value.value.Some? <==> o.value.Some?)
    ensures r.Ok? && o.value.Some? ==>
      ChangesOnly(o.value.value, r.value.value.value,
        (if InjectsId(o, policy) then {IdKey(policy)} else {}) +
        (if StampsTime(o) then {o.timestamp} else {}))
    ensures r.Ok? && InjectsId(o, policy) && !(StampsTime(o) && o.timestamp == IdKey(policy)) ==>
      IdKey(policy) in r.value.value.value
      && r.value.value.value[IdKey(policy)] == Str(Id(r.value.command.doc))
    ensures r.Ok? && StampsTime(o) ==>
      o.timestamp in r.value.value.value && r.value.value.value[o.timestamp] == ServerTimestamp
  {
    var paths := Split(o.path);
    if |paths| % 2 == 1 && (o.delete || o.update) then Err(DocumentIdRequired)
    else
      var d := WriteTarget(paths, autoId);
      assert |paths| % 2 == 1 ==> d.segments == paths + [autoId];
      var value := if Enabled(policy) then AddId(o.value, Id(d), policy) else o.value;
      assert value.Some? <==> o.value.Some?;
      assert o.value.Some? ==>
        ChangesOnly(o.value.value, value.value, if InjectsId(o, policy) then {IdKey(policy)} else {});
      var r := Dispatch(o, d, value);
      if r.Ok? && o.value.Some? then
        ChangesOnlyCompose(o.value.value, value.value, r.value.value.value,
          if InjectsId(o, policy) then {IdKey(policy)} else {},
          if StampsTime(o) then {o.timestamp} else {});
        r
      else r
  }

  /** `OptionsGetData`. Absent `limit`, `startAt` and `startAfter` are
      `Undefined`; `andQueries` is `None` when absent. */
  datatype GetOptions = GetOptions(
    path: string,
    limit: Value,
    andQueries: Option<seq<AndQuery>>,
    orderBy: Option<OrderSpec>,
    startAt: Value,
    startAfter: Value)

  /** The filters given, or none. */
  function Filters(o: GetOptions): seq<AndQuery>
  {
    if o.andQueries.Some? then o.andQueries.value else []
  }

  /** The ordering operation the `orderBy` option asks for, if any. */
  function Ordering(o: GetOptions): (r: Option<QueryOp>)
    ensures r.Some? <==> o.orderBy.Some?
    ensures r.Some? ==> r.value == OrderOp(o.orderBy.value)
  {
    match o.orderBy
    case Some(spec) => Some(OrderOp(spec))
    case None => None
  }

  /** `if (options.andQueries && options.andQueries.length !== 0)` in `getData`:
      the collection, filtered when there are filters. */
  function FilteredQuery(c: CollectionRef, o: GetOptions): (q: Query)
    ensures q.base == c && |q.ops| == |Filters(o)|
    ensures forall i :: 0 <= i < |q.ops| ==> q.ops[i] == WhereOf(Filters(o)[i])
  {
    if o.andQueries.Some? && |o.andQueries.value| != 0
    then QueriedCollection(Base(c), o.andQueries.value) else Base(c)
  }

  /** What holds of the query once the steps up to rank `k` have run: the
      plan is in order, ranked at most `k`, the filters come first, and each
      later kind up to `k` is there exactly when its option asks for it. */
  ghost predicate PlanSoFar(q: Query, o: GetOptions, k: nat)
  {
    && InPlanOrder(q.ops)
    && RanksAtMost(q.ops, k)
    && WheresFirst(q.ops, Filters(o))
    && (k >= 1 ==> Exactly(q.ops, 1, Ordering(o)))
    && (k >= 2 ==> Exactly(q.ops, 2, When(Truthy(o.startAt), StartAt(o.startAt))))
    && (k >= 3 ==> Exactly(q.ops, 3, When(Truthy(o.startAfter), StartAfter(o.startAfter))))
    && (k >= 4 ==> Exactly(q.ops, 4, When(Truthy(o.limit), Limit(o.limit))))
  }

  /** `if (options.orderBy)` in `getData`: ordered when `orderBy` is given. */
  function OrderedStep(q: Query, o: GetOptions): (r: Query)
    requires PlanSoFar(q, o, 0)
    ensures r.base == q.base && PlanSoFar(r, o, 1)
  {
    match o.orderBy
    case Some(spec) =>
      AppendInPlanOrder(q.ops, OrderOp(spec));
      AppendKeepsWheresFirst(q.ops, Filters(o), OrderOp(spec));
      OrderByQuery(q, spec)
    case None =>
      NoneOfRank(q.ops, 1);
      q
  }

  /** `if (options.startAt)` in `getData`: started at the `startAt` cursor when it is truthy. */
  function StartAtStep(q: Query, o: GetOptions): (r: Query)
    requires PlanSoFar(q, o, 1)
    ensures r.base == q.base && PlanSoFar(r, o, 2)
  {
    if Truthy(o.startAt) then
      var op := StartAt(o.startAt);
      AppendInPlanOrder(q.ops, op);
      AppendOtherRank(q.ops, Filters(o), 1, Ordering(o), op);
      StartAtQuery(q, o.startAt)
    else
      NoneOfRank(q.ops, 2);
      q
  }

  /** `if (options.startAfter)` in `getData`: started after the `startAfter` cursor when it is truthy. */
  function StartAfterStep(q: Query, o: GetOptions): (r: Query)
    requires PlanSoFar(q, o, 2)
    ensures r.base == q.base && PlanSoFar(r, o, 3)
  {
    if Truthy(o.startAfter) then
      var op := StartAfter(o.startAfter);
      AppendInPlanOrder(q.ops, op);
      AppendOtherRank(q.ops, Filters(o), 1, Ordering(o), op);
      AppendOtherRank(q.ops, Filters(o), 2, When(Truthy(o.startAt), StartAt(o.startAt)), op);
      StartAfterQuery(q, o.startAfter)
    else
      NoneOfRank(q.ops, 3);
      q
  }

  /** `if (options.limit)` in `getData`: limited when the limit is truthy (so a limit of 0 is dropped). */
  function LimitStep(q: Query, o: GetOptions): (r: Query)
    requires PlanSoFar(q, o, 3)
    ensures r.base == q.base && PlanSoFar(r, o, 4)
  {
    if Truthy(o.limit) then
      var op := Limit(o.limit);
      AppendInPlanOrder(q.ops, op);
      AppendOtherRank(q.ops, Filters(o), 1, Ordering(o), op);
      AppendOtherRank(q.ops, Filters(o), 2, When(Truthy(o.startAt), StartAt(o.startAt)), op);
      AppendOtherRank(q.ops, Filters(o), 3, When(Truthy(o.startAfter), StartAfter(o.startAfter)), op);
      LimitQuery(q, o.limit)
    else
      NoneOfRank(q.ops, 4);
      q
  }

  /** The collection branch of `getData`: the query run against collection `c`. Its
      plan lists the filters first, in the caller's order, then the ordering,
      the `startAt` cursor, the `startAfter` cursor and the limit, in that
      order; each of the last four appears once when its option is present
      (truthy, for the cursors and the limit) and not at all otherwise. */
  function CollectionQuery(c: CollectionRef, o: GetOptions): (q: Query)
    ensures q.base == c && InPlanOrder(q.ops)
    ensures WheresFirst(q.ops, Filters(o))
    ensures Exactly(q.ops, 1, Ordering(o))
    ensures Exactly(q.ops, 2, When(Truthy(o.startAt), StartAt(o.startAt)))
    ensures Exactly(q.ops, 3, When(Truthy(o.startAfter), StartAfter(o.startAfter)))
    ensures Exactly(q.ops, 4, When(Truthy(o.limit), Limit(o.limit)))
  {
    var q1 := FilteredQuery(c, o);
    FiltersInPlanOrder(q1.ops, Filters(o));
    LimitStep(StartAfterStep(StartAtStep(OrderedStep(q1, o), o), o), o)
  }

  /** Without ordering, cursors or limit the plan is the filters alone; with
      no filters either it is the bare collection. */
  lemma FiltersOnlyPlan(c: CollectionRef, o: GetOptions)
    requires o.orderBy.None? && !Truthy(o.startAt) && !Truthy(o.startAfter) && !Truthy(o.limit)
    ensures |CollectionQuery(c, o).ops| == |Filters(o)|
    ensures Filters(o) == [] ==> CollectionQuery(c, o) == Base(c)
  {
  }

  /** What `getData` asks of the backend: a point read or a query. */
  datatype Read = PointRead(doc: DocumentRef) | RunQuery(query: Query)

  /** `getData` up to its one backend call. */
  function PlanRead(o: GetOptions): (r: Result<Read>)
    // filters are refused on a document path, even an empty list of them
    ensures r.Err? <==> |Split(o.path)| % 2 == 0 && o.andQueries.Some?
    ensures r.Err? ==> r.error == QueriesOnDocument
    ensures r.Ok? && |Split(o.path)| % 2 == 0 ==> r.value == PointRead(Ref(Split(o.path)))
    ensures |Split(o.path)| % 2 == 1 ==>
      r.Ok? && r.value.RunQuery? && r.value.query.base.segments == Split(o.path)
  {
    var paths := Split(o.path);
    var isDocIdProvided := |paths| % 2 == 0;
    if o.andQueries.Some? && isDocIdProvided then Err(QueriesOnDocument)
    else
      var resolved := FindCollectionDocument(paths);
      if isDocIdProvided then Ok(PointRead(resolved.document.value))
      else Ok(RunQuery(CollectionQuery(resolved.collection, o)))
  }

  /** `getData(options)` against store `s`; `run` is the backend's answer to
      a collection query, the documents' data in result order. */
  function GetData(o: GetOptions, s: Store, run: Query -> seq<Record>): (r: Result<seq<Record>>)
    ensures r.Err? <==> |Split(o.path)| % 2 == 0 && o.andQueries.Some?
    // a point read: one record exactly when the document exists, and it is that document's data
    ensures r.Ok? && |Split(o.path)| % 2 == 0 ==>
      (|r.value| == 1 <==> Ref(Split(o.path)) in s) && |r.value| <= 1
      && (|r.value| == 1 ==> r.value[0] == s[Ref(Split(o.path))])
    // a query: the records the backend returns for the plan, in its order
    ensures |Split(o.path)| % 2 == 1 ==>
      r.Ok? && r.value == run(CollectionQuery(Ref(Split(o.path)), o))
  {
    var plan :- PlanRead(o);
    match plan
    case PointRead(d) =>
      var data := Lookup(s, d);
      Ok(if data.Some? then [data.value] else [])
    case RunQuery(q) => Ok(run(q))
  }
}
