/** References into the document store and the path resolver
    (`findCollectionDocument`). A reference is identified by the sequence of
    path segments from the root: collections have an odd number of segments,
    documents an even (non-zero) number. References are built lazily; nothing
    is fetched while resolving. */
module Refs {

  import opened Values

  datatype Ref = Ref(segments: seq<string>)

  type CollectionRef = r: Ref | |r.segments| % 2 == 1 witness Ref([""])

  type DocumentRef = r: Ref | |r.segments| >= 2 && |r.segments| % 2 == 0 witness Ref(["", ""])

  /** `firestore().collection(name)`. */
  function RootCollection(name: string): (c: CollectionRef)
    ensures c.segments == [name]
  {
    Ref([name])
  }

  /** `collection.doc(id)`, and `collection.doc()` with the auto-generated id
      supplied by the caller. */
  function Doc(c: CollectionRef, id: string): (d: DocumentRef)
    ensures Parent(d) == c && Id(d) == id
  {
    Ref(c.segments + [id])
  }

  /** `document.collection(name)`. */
  function SubCollection(d: DocumentRef, name: string): (c: CollectionRef)
    ensures c.segments[..|c.segments| - 1] == d.segments
    ensures c.segments[|c.segments| - 1] == name
  {
    Ref(d.segments + [name])
  }

  /** `document.id`: the last segment. */
  function Id(d: DocumentRef): string
  {
    d.segments[|d.segments| - 1]
  }

  /** `document.parent`: the collection holding the document. */
  function Parent(d: DocumentRef): CollectionRef
  {
    Ref(d.segments[..|d.segments| - 1])
  }

  /** The deepest collection and document reached; `document` is `None`
      (`undefined`) until a document segment has been consumed. */
  datatype Resolved = Resolved(collection: CollectionRef, document: Option<DocumentRef>)

  /** One iteration of the resolver loop at index `i >= 1`: odd indices pick a
      document in the current collection, even indices descend into a
      sub-collection of the current document (which exists by then). */
  function Step(w: Resolved, i: nat, seg: string): Resolved
    requires i % 2 == 0 ==> w.document.Some?
  {
    if i % 2 == 1 then Resolved(w.collection, Some(Doc(w.collection, seg)))
    else Resolved(SubCollection(w.document.value, seg), w.document)
  }

  /** `findCollectionDocument(paths)`: the left fold of `Step` over
      `paths[1..]`, starting from the root collection `paths[0]`. */
  function FindCollectionDocument(paths: seq<string>): (w: Resolved)
    requires |paths| >= 1
    // a document path resolves to exactly that document, inside its parent collection
    ensures |paths| % 2 == 0 ==>
      w.document == Some(Ref(paths)) && w.collection == Ref(paths[..|paths| - 1])
    // a collection path resolves to exactly that collection
    ensures |paths| % 2 == 1 ==> w.collection == Ref(paths)
    // the document is undefined only for a one-segment path
    ensures w.document.None? <==> |paths| == 1
    // otherwise, on a collection path, it is the document holding that collection
    ensures |paths| % 2 == 1 && |paths| > 1 ==> w.document == Some(Ref(paths[..|paths| - 1]))
    decreases |paths|
  {
    if |paths| == 1 then Resolved(RootCollection(paths[0]), None)
    else
      var n := |paths| - 1;
      var prefix := paths[..n];
      var prev := FindCollectionDocument(prefix);
      assert prefix + [paths[n]] == paths;
      if n % 2 == 1 then
        assert prev.collection == Ref(prefix);
        Step(prev, n, paths[n])
      else
        assert prev.document == Some(Ref(prefix));
        assert prefix[..n - 1] == paths[..n - 1];
        Step(prev, n, paths[n])
  }

  /** Addressing a document inside a collection path extends the resolved
      collection by that id: the resolver's answer for `p + [id]` is the
      collection of `p` and the document `Doc(collection, id)`. */
  lemma FindAppendedDocument(paths: seq<string>, id: string)
    requires |paths| % 2 == 1
    ensures FindCollectionDocument(paths + [id]) ==
      Resolved(FindCollectionDocument(paths).collection,
               Some(Doc(FindCollectionDocument(paths).collection, id)))
  {
    assert (paths + [id])[..|paths|] == paths;
  }
}
