/** The backend effects of the access layer and an abstract document store
    to interpret them against. A write issues exactly one `Command`; a store
    maps each existing document to its fields. Only the field-level meaning
    of the three writes is modelled: which failures the real backend raises
    is its own business, except that an update of a missing document and a
    write without data are rejected (`None`). */
module Backend {

  import opened Values
  import opened Refs

  /** `document.delete()`, `document.update(data)`, `document.set(data, {merge})`. */
  datatype Command =
    | Delete(doc: DocumentRef)
    | Update(doc: DocumentRef, data: Option<Record>)
    | Set(doc: DocumentRef, data: Option<Record>, merge: bool)

  type Store = map<DocumentRef, Record>

  /** The stored fields after writing `data` over `stored` field by field. */
  function Overlay(stored: Record, data: Record): (r: Record)
    ensures r.Keys == stored.Keys + data.Keys
    ensures forall k :: k in data ==> r[k] == data[k]
    ensures forall k :: k in stored && k !in data ==> r[k] == stored[k]
  {
    stored + data
  }

  /** The store after the backend carries out `c`, or `None` if it rejects it. */
  function Apply(s: Store, c: Command): (r: Option<Store>)
    // no other document is touched
    ensures r.Some? ==> forall d :: d in s && d != c.doc ==> d in r.value && r.value[d] == s[d]
    ensures r.Some? ==> forall d :: d in r.value && d != c.doc ==> d in s
    // a delete always succeeds and removes the document
    ensures c.Delete? ==> r.Some? && c.doc !in r.value
    // an accepted update or set leaves the document in place
    ensures r.Some? && !c.Delete? ==> c.doc in r.value
    // an update needs data and an existing document; it changes exactly the given fields
    ensures c.Update? ==> (r.Some? <==> c.data.Some? && c.doc in s)
    ensures c.Update? && r.Some? ==> r.value[c.doc] == Overlay(s[c.doc], c.data.value)
    // a set needs data; it replaces the document, or with merge keeps the omitted fields
    ensures c.Set? ==> (r.Some? <==> c.data.Some?)
    ensures c.Set? && r.Some? && !c.merge ==> r.value[c.doc] == c.data.value
    ensures c.Set? && r.Some? && c.merge && c.doc in s ==> r.value[c.doc] == Overlay(s[c.doc], c.data.value)
    ensures c.Set? && r.Some? && c.merge && c.doc !in s ==> r.value[c.doc] == c.data.value
  {
    match c
    case Delete(d) => Some(s - {d})
    case Update(d, data) =>
      if data.Some? && d in s then Some(s[d := Overlay(s[d], data.value)]) else None
    case Set(d, data, merge) =>
      if data.None? then None
      else if merge && d in s then Some(s[d := Overlay(s[d], data.value)])
      else Some(s[d := data.value])
  }

  /** `(await document.get()).data()`: the fields of an existing document. */
  function Lookup(s: Store, d: DocumentRef): (r: Option<Record>)
    ensures r.Some? <==> d in s
    ensures r.Some? ==> r.value == s[d]
  {
    if d in s then Some(s[d]) else None
  }

  /** A merge-set never loses a stored field: every field the document had
      and the data omits keeps its stored value, and every given field takes
      the new value. */
  lemma MergeSetKeepsOmittedFields(s: Store, d: DocumentRef, data: Record)
    requires d in s
    ensures Apply(s, Set(d, Some(data), true)).Some?
    ensures var t := Apply(s, Set(d, Some(data), true)).value;
      d in t
      && (forall k :: k in s[d] && k !in data ==> k in t[d] && t[d][k] == s[d][k])
      && (forall k :: k in data ==> k in t[d] && t[d][k] == data[k])
  {
  }
}
