# Hierarchical document-store access layer

A Dafny model of the access layer in `functions/database/api.js`. This layer is
the only part of the chatbot backend with real logic. It turns a slash-delimited
path such as `sessions/abc/cart` into a collection or document reference. It then
does one of two things:

- `addData` issues one write (set, merge-set, update or delete) at that reference.
- `getData` issues a point read, or a collection query built from filters, an
  ordering, cursors and a limit.

The model is functional. Each value below is an immutable Dafny value:

- A reference is the sequence of path segments from the root. It is a
  `Refs.CollectionRef` when the count is odd and a `Refs.DocumentRef` when it is
  even.
- Each backend effect is a value: a `Backend.Command` for a write, or a
  `Queries.Query` plan for a read.
- The options objects are immutable. Where the source mutates `options.value` in
  place, the model returns the new value.

Three parameters stand in for behaviour outside the layer:

- the id that `collection.doc()` generates (`autoId`);
- the backend's answer to a collection query (`run`);
- the store a point read looks at (`Backend.Store`).

Modules, leaves first:

- `Values`: JavaScript values, truthiness, and `Option`.
- `Paths`: `split('/')` and its inverse `Join`.
- `Refs`: references and the path resolver `findCollectionDocument`.
- `Queries`: query plans and the builders `queriedCollection`, `_orderByQuery`,
  `_startArQuery` and `_startAfterQuery`, plus the `limit` step.
- `Backend`: the write commands and an abstract store that interprets them.
- `Api`: `_addId`, `addData` and `getData`.
- `Scenarios`: the requests `product.js` makes, edge cases, and write/read round
  trips.

Behaviour of the code that a reader might not expect, modelled as written:

- The code has no empty-path or empty-segment check. `"".split('/')` is `[""]`,
  a one-segment collection path, and empty segments are passed to the backend
  unchanged (`Scenarios.EmptyPathIsCollection`).
- Filters are refused on a document path whenever `andQueries` is present, even
  as an empty list (`Scenarios.EmptyFiltersOnDocumentRefused`).
- Id injection happens for explicitly addressed documents too, and on the delete
  and update branches. It is guarded by the value's `id` field even when a custom
  field name is given (`Scenarios.CustomIdFieldGuardReadsId`).

Modelling conventions:

- An optional string option (`timestamp`, `orderBy.direction`) is a `string`. `""`
  stands for both "absent" and "empty", because the code treats both as falsy.
- An absent `limit`, `startAt` or `startAfter` is `Undefined`.
- An absent or `null` `options.value` is `None`.
- The boolean flags `merge`, `update` and `delete` are `bool`.
- `addId` is `IdPolicy`: `Flag(b)` for a boolean or `FieldName(n)` for a string.
  `_addId` writes under `id` only for the literal `true`. Any other policy is used
  as the property name, exactly as `value[idString]` does.

## Model

| member | source | states |
|---|---|---|
| Paths.Split | functions/database/api.js:43 | `path.split('/')` yields one more segment than the path has separators (never zero segments), and no segment contains `/` |
| Paths.JoinSplit | functions/database/api.js:43 | splitting loses nothing: joining the segments with `/` gives back any path, including empty ones and ones with empty segments |
| Paths.SplitJoin | functions/database/api.js:43 | separator-free segments survive a join then a split unchanged |
| Paths.SplitAppend | functions/database/api.js:43 | appending `/x` to any path, for a separator-free `x`, appends exactly the segment `x`, so the segment count changes parity |
| Refs.RootCollection | functions/database/api.js:114 | `firestore().collection(paths[0])` is the one-segment collection named `paths[0]` |
| Refs.Doc | functions/database/api.js:119 | `collection.doc(id)` is a document whose parent is that collection and whose id is `id` |
| Refs.SubCollection | functions/database/api.js:120 | `document.collection(name)` extends the document's segments by `name` |
| Refs.FindCollectionDocument | functions/database/api.js:113-124 | a left fold from root collection `paths[0]`. For an even-length path the document is exactly the whole path and the collection is its parent. For an odd-length path the collection is exactly the whole path. The document is undefined iff there is one segment, and otherwise it is the document holding that collection |
| Refs.FindAppendedDocument | functions/database/api.js:113-124 | adding an id to a collection path leaves the resolved collection unchanged, and the document becomes that id inside it |
| Queries.QueriedCollection | functions/database/api.js:131-134 | one `where` per filter is appended after the existing operations, in the caller's order, with operator and operand unchanged; base and existing operations are untouched |
| Queries.OrderOp | functions/database/api.js:156-159 | the ordering is on the requested field and carries a direction iff the direction is truthy, and then carries exactly it |
| Queries.OrderByQuery | functions/database/api.js:156-159 | `_orderByQuery` appends that one ordering to the plan and changes nothing else |
| Queries.StartAtQuery | functions/database/api.js:167-169 | `_startArQuery` appends one `startAt` with the given cursor and changes nothing else |
| Queries.StartAfterQuery | functions/database/api.js:177-179 | `_startAfterQuery` appends one `startAfter` with the given cursor and changes nothing else |
| Queries.LimitQuery | functions/database/api.js:103 | `query.limit(n)` appends one `limit` carrying `n` and changes nothing else |
| Queries.PlanOrderIsSorted | functions/database/api.js:97-103 | in a plan ordered neighbour by neighbour, every operation ranks no higher than any later one, and strictly lower unless it is a `where` |
| Backend.Apply | functions/database/api.js:9-12 | interpreting a write leaves every other document untouched; delete removes the document; update needs data and an existing document and overwrites only the given fields; set replaces the document, or with merge keeps omitted stored fields |
| Backend.Lookup | functions/database/api.js:92 | a point read yields data exactly when the document exists, and then its stored fields |
| Backend.MergeSetKeepsOmittedFields | functions/database/api.js:9-10 | after a merge-set, every stored field the data omits keeps its value and every given field takes the new one |
| Api.AddId | functions/database/api.js:144-148 | with no value, or a value whose `id` is truthy, nothing changes. Otherwise the policy's key gets the document id, and no other field is added, removed or altered. The key (`Api.IdKey`) is `id` only for the policy literally `true`; any other policy is used as the property name |
| Api.WriteTarget | functions/database/api.js:55-56 | on a document path the target is the addressed document; on a collection path it is a fresh document with the generated id whose parent is the addressed collection |
| Api.Dispatch | functions/database/api.js:59-66 | exactly one command, delete before update before set. The command writes the returned value, and merge is the `merge` option. Only set stamps the time (and nothing else changes), and it fails only when there is no value to stamp |
| Api.AddData | functions/database/api.js:42-72 | fails with "document id required" iff delete or update is asked on an odd-segment path, and otherwise only when a timestamp is requested with no value. On success there is one command on the addressed document (or on the fresh document in the addressed collection), with priority delete > update > set and the `merge` flag. The returned value is the input with at most the injected id and, on the set branch only, the timestamp changed. Injection applies when `addId` is truthy (`Api.Enabled`: `true`, or a non-empty field name), the value exists and its `id` is falsy. The id field changes only then, and it then holds the target's id, unless a set stamps the timestamp into that same field |
| Api.FilteredQuery | functions/database/api.js:97-98 | the base collection with one `where` per filter in order, and none when `andQueries` is absent or empty |
| Api.OrderedStep | functions/database/api.js:100 | keeps the plan in order, and adds the ordering exactly when `orderBy` is given |
| Api.StartAtStep | functions/database/api.js:101 | keeps the plan in order, and adds `startAt` exactly when its cursor is truthy |
| Api.StartAfterStep | functions/database/api.js:102 | keeps the plan in order, and adds `startAfter` exactly when its cursor is truthy |
| Api.LimitStep | functions/database/api.js:103 | keeps the plan in order, and adds `limit` exactly when it is truthy |
| Api.CollectionQuery | functions/database/api.js:97-103 | the plan starts from the collection with the filters first, in order, then ordering, `startAt`, `startAfter` and `limit`. Each of the last four appears exactly once when its option is given (truthy, for cursors and limit) and not at all otherwise |
| Api.FiltersOnlyPlan | functions/database/api.js:97-103 | without ordering, cursors or a truthy limit the plan is just the filters; with no filters either it is the bare collection |
| Api.PlanRead | functions/database/api.js:83-103 | fails iff the path has an even number of segments and `andQueries` is present (even empty). Otherwise an even path is a point read of exactly that document, and an odd path is a query on exactly that collection |
| Api.GetData | functions/database/api.js:80-106 | fails iff `andQueries` is present on a document path. A point read returns one record (the stored data) iff the document exists, else none. A collection read returns the backend's records for the plan, in result order |
| Scenarios.EmptyPathIsCollection | functions/database/api.js:43-56 | the empty path is one empty segment: deleting there is refused, and a set goes to a fresh document in the collection named `""` |
| Scenarios.DeleteOnCollectionRefused | functions/database/api.js:46 | delete or update on a one-segment path such as `sessions` fails with "document id required" |
| Scenarios.AddressedDocumentGetsItsId | functions/database/api.js:55-68 | writing a value without a truthy `id` to `products/p1` injects `id: "p1"` and issues a full replace (merge false) |
| Scenarios.MergeWritesAccumulate | functions/database/api.js:59-66 | two merge-sets of one document leave the fields of both, the later one winning on overlap, whatever was stored before. The `id` field is left out of both claims, since injection may set it; it is only promised to be present |
| Scenarios.InjectedIdReadsBack | functions/database/api.js:42-106 | for a set (neither delete nor update) whose timestamp field is not the id field, with a separator-free generated id: when injection applies, the write succeeds, and reading the written document back by its path gives one record whose id field is the document id. That id is the last path segment, or the generated id for a collection path |
| Scenarios.ProductLookupPlan | functions/database/product.js:47-54 | the product lookup is one equality `where` on the bare top-level collection |
| Scenarios.CartPlan | functions/database/product.js:34-38 | `sessions/<id>/cart` is a collection path whose plan is the bare sub-collection |
| Scenarios.EmptyFiltersOnDocumentRefused | functions/database/api.js:84-86 | an empty filter list on a document path is still refused |
| Scenarios.ZeroLimitNotApplied | functions/database/api.js:103 | a limit of 0 never reaches the plan |
| Scenarios.CustomIdFieldGuardReadsId | functions/database/api.js:145-147 | with a custom field name, a truthy `id` still suppresses injection, and an existing custom field is overwritten |

## Left out

- The backend itself (Firestore): how filter operators evaluate, what cursors mean, the actual server timestamp (an opaque `ServerTimestamp` sentinel stands in), how auto-ids are generated (a parameter), and Firestore's own validation, such as rejecting empty path segments. `Backend.Store` is an abstract fake with field-level set, merge, update and delete only.
- Backend.Apply: merge and update are shallow, field by field at the top level. Firestore merges nested maps deeply and accepts dotted field paths in `update`. The only rejections modelled are an update of a missing document and a write with no data.
- Which cursor wins when both `startAt` and `startAfter` are given. Both appear in the plan in source order; what the backend makes of the pair is cursor semantics.
- Async/Promise plumbing, the `try`/rethrow at api.js:51-71 (it changes nothing), the `console.log` calls, and backend failures, which propagate unchanged.
- The in-place mutation of `options.value`: the model returns the new value instead. Callers that keep aliases to the options object are not modelled.
- Values: numbers are integers, so floating point and NaN truthiness are not modelled. `options.value` is a record or absent; a primitive or array passed as `value` is not modelled. Reading `id` on a record ignores inherited properties.
- `product.js` beyond its two request shapes: `getProducts` fetches in parallel with `Promise.all`, which is concurrency. `functions/entities/tag.js` (a network client call) and `functions/intent_handlers/faq/color.js` (dialogue handling over unseen helpers) are not part of this model.
