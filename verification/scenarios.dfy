/** Concrete requests and write/read round trips: the requests `product.js`
    makes, the behaviour of the empty path and of empty filter lists, and what
    a write followed by a read of the same document gives back. */
module Scenarios {

  import opened Values
  import opened Paths
  import opened Refs
  import opened Queries
  import opened Backend
  import opened Api

  /** `"a/b".split('/')` for separator-free `a` and `b`. */
  lemma SplitTwo(a: string, b: string)
    requires Sep !in a && Sep !in b
    ensures Split(a + [Sep] + b) == [a, b]
  {
    assert Join([a, b]) == a + [Sep] + b;
    SplitJoin([a, b]);
  }

  /** `"a/b/c".split('/')` for separator-free segments. */
  lemma SplitThree(a: string, b: string, c: string)
    requires Sep !in a && Sep !in b && Sep !in c
    ensures Split(a + [Sep] + b + [Sep] + c) == [a, b, c]
  {
    SplitTwo(a, b);
    SplitAppend(a + [Sep] + b, c);
  }

  /** A read with only a path. */
  function PathOnly(path: string): GetOptions
  {
    GetOptions(path, Undefined, None, None, Undefined, Undefined)
  }

  /** The empty path is one empty segment, so it addresses a collection:
      deleting there is refused, and a set goes to a fresh document in it. */
  lemma EmptyPathIsCollection(autoId: string)
    ensures Split("") == [""]
    ensures AddData(AddOptions("", None, "", false, false, true), DefaultIdPolicy, autoId)
      == Err(DocumentIdRequired)
    ensures var r := AddData(AddOptions("", Some(map[]), "", false, false, false), DefaultIdPolicy, autoId);
      r.Ok? && r.value.command == Set(Ref(["", autoId]), Some(map["id" := Str(autoId)]), false)
  {
  }

  /** Deleting or updating at a one-segment path such as `sessions` (a
      collection) is refused before anything is resolved. */
  lemma DeleteOnCollectionRefused(name: string, value: Option<Record>, update: bool, autoId: string)
    requires Sep !in name
    ensures AddData(AddOptions(name, value, "", false, update, true), DefaultIdPolicy, autoId)
      == Err(DocumentIdRequired)
    ensures AddData(AddOptions(name, value, "", false, true, false), DefaultIdPolicy, autoId)
      == Err(DocumentIdRequired)
  {
    SplitSingle(name);
  }

  /** Writing a value without a truthy `id`, such as `{name: "Lamp"}`, to a
      document path such as `products/p1` stores it under that id, with the
      id injected, as a full replace when `merge` is not given. */
  lemma AddressedDocumentGetsItsId(collection: string, id: string, value: Record, autoId: string)
    requires Sep !in collection && Sep !in id
    requires !Truthy(Property(value, "id"))
    ensures var r := AddData(
        AddOptions(collection + [Sep] + id, Some(value), "", false, false, false),
        DefaultIdPolicy, autoId);
      && r.Ok?
      && r.value.value == Some(value["id" := Str(id)])
      && r.value.command == Set(Ref([collection, id]), r.value.value, false)
  {
    SplitTwo(collection, id);
    var o := AddOptions(collection + [Sep] + id, Some(value), "", false, false, false);
    var r := AddData(o, DefaultIdPolicy, autoId);
    assert Split(o.path) == [collection, id];
    var d := r.value.command.doc;
    assert d.segments == [collection, id];
    assert Id(d) == id;
  }

  /** Two merge-sets of one document, say `{name: "Lamp"}` then `{price: 10}`
      on `products/p1`, leave it holding the fields of both, the second
      write's where they overlap, whatever was stored before. */
  lemma MergeWritesAccumulate(collection: string, id: string, first: Record, second: Record, s: Store, autoId: string)
    requires Sep !in collection && Sep !in id
    ensures
      var path := collection + [Sep] + id;
      var w1 := AddData(AddOptions(path, Some(first), "", true, false, false), DefaultIdPolicy, autoId);
      var w2 := AddData(AddOptions(path, Some(second), "", true, false, false), DefaultIdPolicy, autoId);
      && w1.Ok? && w2.Ok?
      && Apply(s, w1.value.command).Some?
      && Apply(Apply(s, w1.value.command).value, w2.value.command).Some?
      && var t := Apply(Apply(s, w1.value.command).value, w2.value.command).value;
         var d := Ref([collection, id]);
         && d in t
         && (forall k :: k in second && k != "id" ==> k in t[d] && t[d][k] == second[k])
         && (forall k :: k in first && k !in second && k != "id" ==> k in t[d] && t[d][k] == first[k])
         && "id" in t[d]
  {
    SplitTwo(collection, id);
    var path := collection + [Sep] + id;
    var o1 := AddOptions(path, Some(first), "", true, false, false);
    var o2 := AddOptions(path, Some(second), "", true, false, false);
    var w1 := AddData(o1, DefaultIdPolicy, autoId).value;
    var w2 := AddData(o2, DefaultIdPolicy, autoId).value;
    var d := Ref([collection, id]);
    assert w1.command.doc == d && w2.command.doc == d;
    var v1 := w1.value.value;
    var v2 := w2.value.value;
    assert ChangesOnly(first, v1, {"id"}) && ChangesOnly(second, v2, {"id"});
    assert "id" in v1 by {
      if !InjectsId(o1, DefaultIdPolicy) { assert Truthy(Property(first, "id")); }
    }
    var t1 := Apply(s, w1.command).value;
    assert t1[d] == (if d in s then Overlay(s[d], v1) else v1);
    var t := Apply(t1, w2.command).value;
    assert t[d] == Overlay(t1[d], v2);
  }

  /** Writing a value with no truthy `id` under id injection, then reading the
      written document back by its path, returns exactly one record, and its
      id field holds the document's id. The read path is the write path when
      it addresses a document, and the write path plus `/autoId` when it
      addresses a collection. */
  lemma {:induction false} InjectedIdReadsBack(
    o: AddOptions, policy: IdPolicy, autoId: string, s: Store, run: Query -> seq<Record>)
    requires InjectsId(o, policy) && !o.delete && !o.update
    requires o.timestamp != IdKey(policy)
    requires Sep !in autoId
    ensures AddData(o, policy, autoId).Ok?
    ensures Apply(s, AddData(o, policy, autoId).value.command).Some?
    ensures var w := AddData(o, policy, autoId).value;
      var t := Apply(s, w.command).value;
      var readPath := if |Split(o.path)| % 2 == 0 then o.path else o.path + [Sep] + autoId;
      var r := GetData(PathOnly(readPath), t, run);
      && r.Ok? && |r.value| == 1
      && IdKey(policy) in r.value[0]
      && r.value[0][IdKey(policy)] == Str(Id(w.command.doc))
      && Id(w.command.doc) == (if |Split(o.path)| % 2 == 0 then Split(o.path)[|Split(o.path)| - 1] else autoId)
  {
    var w := AddData(o, policy, autoId).value;
    var t := Apply(s, w.command).value;
    var d := w.command.doc;
    var readPath := if |Split(o.path)| % 2 == 0 then o.path else o.path + [Sep] + autoId;
    if |Split(o.path)| % 2 == 1 {
      SplitAppend(o.path, autoId);
    }
    assert Split(readPath) == d.segments;
    assert w.command.Set? && w.command.data == w.value;
    assert IdKey(policy) in w.value.value && w.value.value[IdKey(policy)] == Str(Id(d));
    assert d in t && IdKey(policy) in t[d] && t[d][IdKey(policy)] == Str(Id(d));
  }

  /** `product.js` looks a product up with one equality filter on a
      top-level collection (`product_id == id` in `products`): the plan is one
      `where` on the bare collection, nothing else. */
  lemma ProductLookupPlan(collection: string, field: string, id: string)
    requires Sep !in collection
    ensures PlanRead(GetOptions(collection, Undefined, Some([(field, "==", Str(id))]), None, Undefined, Undefined))
      == Ok(RunQuery(Query(Ref([collection]), [Where(field, "==", Str(id))])))
  {
    var o := GetOptions(collection, Undefined, Some([(field, "==", Str(id))]), None, Undefined, Undefined);
    SplitSingle(collection);
    FiltersOnlyPlan(Ref([collection]), o);
  }

  /** `product.js` reads a cart from `sessions/<id>/cart`, a collection path:
      the plan is the bare sub-collection. */
  lemma CartPlan(sessionId: string)
    requires Sep !in sessionId
    ensures PlanRead(PathOnly("sessions/" + sessionId + "/cart"))
      == Ok(RunQuery(Query(Ref(["sessions", sessionId, "cart"]), [])))
  {
    assert "sessions/" + sessionId + "/cart" == "sessions" + [Sep] + sessionId + [Sep] + "cart";
    assert Sep !in "sessions" && Sep !in "cart";
    SplitThree("sessions", sessionId, "cart");
    FiltersOnlyPlan(Ref(["sessions", sessionId, "cart"]), PathOnly("sessions/" + sessionId + "/cart"));
  }

  /** Filters on a document path such as `products/p1` are refused even
      when the list of filters is empty. */
  lemma EmptyFiltersOnDocumentRefused(collection: string, id: string, s: Store, run: Query -> seq<Record>)
    requires Sep !in collection && Sep !in id
    ensures GetData(GetOptions(collection + [Sep] + id, Undefined, Some([]), None, Undefined, Undefined), s, run)
      == Err(QueriesOnDocument)
  {
    SplitTwo(collection, id);
  }

  /** A limit of 0 is falsy and so never reaches the plan. */
  lemma ZeroLimitNotApplied(c: CollectionRef, o: GetOptions)
    requires o.limit == Num(0)
    ensures forall i :: 0 <= i < |CollectionQuery(c, o).ops| ==> !CollectionQuery(c, o).ops[i].Limit?
  {
    NoLimitWhenAbsent(CollectionQuery(c, o).ops);
  }

  /** With a custom id field the skip test still reads `id`: a value with a
      truthy `id` gets no custom field, and one without gets the custom field
      overwritten even if it was already set. */
  lemma CustomIdFieldGuardReadsId(docId: string)
    ensures AddId(Some(map["id" := Str("x")]), docId, FieldName("sku")) == Some(map["id" := Str("x")])
    ensures AddId(Some(map["sku" := Str("x")]), docId, FieldName("sku")) == Some(map["sku" := Str(docId)])
  {
    assert Property(map["sku" := Str("x")], "id") == Undefined;
    assert map["sku" := Str("x")]["sku" := Str(docId)] == map["sku" := Str(docId)];
  }
}
