# EntityVertexQuery, modelled in Dafny

This project models the Blueprints vertex query of the accumulo-recipes graph
store (`EntityVertexQuery`). A query is anchored at one vertex. Its fluent
configuration calls set the direction, the labels and the limit, and add
criteria to a conjunction. Its terminal calls run one adjacency scan against
the graph store, decorate the scanned records as edges, post-filter them when
filter criteria exist and cap them to the limit. `vertices()` resolves the
edges' endpoints in bulk fetches of 50 indexes.

Modules:

- `Wrappers`: `Option` (a Java null) and `Result` (a thrown exception).
- `Sequences`: the combinators the pipeline is built from (`transform`,
  `filter`, `limit`, `partition`, `concat`), over finite sequences.
- `Criteria`: criteria-tree nodes, the Blueprints predicates and the translator
  used by `has(key, predicate, value)`.
- `Graph`: entities, edge and vertex views, the two direction enums, the
  requests sent to the store, and the foreign code. The store's
  `adjacentEdges` and `get`, the four transforms and the filter predicate are
  function-typed fields of the datatypes `GraphStore` and `Decorators`.
- `Pipeline`: `edges()` and `vertices()` as pure functions of a
  configuration value `QueryState`, with the lemmas about them.
- `VertexQuery`: the class `EntityVertexQuery`. Its fields are the source's
  fields. Its configuration methods change exactly one field and return
  `this`. Its terminal functions read the configuration. `Valid()` is the class
  invariant that `filters` stays empty, because no method adds to it.

`count()` stores `Iterables.size(edges)` in a `long`. Guava's `Iterables.size`
returns an `int` that saturates at `Integer.MAX_VALUE`, so `Count` is the
length of `edges()` capped at 2^31-1. The limit is a Java `int` (the newtype
`int32`). Any negative limit, not only the default -1, means "unbounded".
`labels()` called with no arguments gives an empty label set, which is not the
same as no label set.

## Model

| member | source | states |
|---|---|---|
| `VertexQuery.EntityVertexQuery.constructor` | store/graph-store/src/main/java/org/calrissian/accumulorecipes/graphstore/tinkerpop/query/EntityVertexQuery.java:35-50 | a new query has direction BOTH, no labels, limit -1 and two empty conjunctions |
| `VertexQuery.EntityVertexQuery.SetDirection` | store/graph-store/src/main/java/org/calrissian/accumulorecipes/graphstore/tinkerpop/query/EntityVertexQuery.java:52-56 | only the direction changes; the query itself is returned |
| `VertexQuery.EntityVertexQuery.SetLabels` | store/graph-store/src/main/java/org/calrissian/accumulorecipes/graphstore/tinkerpop/query/EntityVertexQuery.java:58-62 | only the labels change; the query itself is returned |
| `VertexQuery.EntityVertexQuery.SetLimit` | store/graph-store/src/main/java/org/calrissian/accumulorecipes/graphstore/tinkerpop/query/EntityVertexQuery.java:132-136 | only the limit changes; the query itself is returned |
| `VertexQuery.EntityVertexQuery.Has` | store/graph-store/src/main/java/org/calrissian/accumulorecipes/graphstore/tinkerpop/query/EntityVertexQuery.java:77-81 | exactly one existence leaf is appended to the query criteria and nothing else changes |
| `VertexQuery.EntityVertexQuery.HasNot` | store/graph-store/src/main/java/org/calrissian/accumulorecipes/graphstore/tinkerpop/query/EntityVertexQuery.java:83-87 | exactly one non-existence leaf is appended and nothing else changes |
| `VertexQuery.EntityVertexQuery.HasEqual` | store/graph-store/src/main/java/org/calrissian/accumulorecipes/graphstore/tinkerpop/query/EntityVertexQuery.java:89-93 | exactly one equality leaf is appended and nothing else changes |
| `VertexQuery.EntityVertexQuery.HasNotEqual` | store/graph-store/src/main/java/org/calrissian/accumulorecipes/graphstore/tinkerpop/query/EntityVertexQuery.java:95-99 | exactly one inequality leaf is appended and nothing else changes |
| `VertexQuery.EntityVertexQuery.HasPredicate` | store/graph-store/src/main/java/org/calrissian/accumulorecipes/graphstore/tinkerpop/query/EntityVertexQuery.java:101-119 | a supported predicate appends exactly its translated leaf; EQUAL and NOT_EQUAL leave the same state as `has(key, value)` and `hasNot(key, value)`; any other predicate fails with the unsupported error and changes nothing |
| `VertexQuery.EntityVertexQuery.HasCompare` | store/graph-store/src/main/java/org/calrissian/accumulorecipes/graphstore/tinkerpop/query/EntityVertexQuery.java:121-124 | the reordered overload acts as `has(key, compare, value)` and never fails |
| `VertexQuery.EntityVertexQuery.Interval` | store/graph-store/src/main/java/org/calrissian/accumulorecipes/graphstore/tinkerpop/query/EntityVertexQuery.java:126-130 | exactly one range leaf is appended and nothing else changes |
| `VertexQuery.EntityVertexQuery.Edges` | store/graph-store/src/main/java/org/calrissian/accumulorecipes/graphstore/tinkerpop/query/EntityVertexQuery.java:138-161 | on a valid query the result is the first `limit` scanned edges in scan order when `limit > -1`, and all of them otherwise |
| `VertexQuery.EntityVertexQuery.Count` | store/graph-store/src/main/java/org/calrissian/accumulorecipes/graphstore/tinkerpop/query/EntityVertexQuery.java:64-70 | the count is the length of `edges()` when that fits an `int` and exactly 2^31-1 otherwise, and never exceeds a non-negative limit |
| `VertexQuery.EntityVertexQuery.Vertices` | store/graph-store/src/main/java/org/calrissian/accumulorecipes/graphstore/tinkerpop/query/EntityVertexQuery.java:163-181 | with a store that returns one entity per requested index, there is one vertex per edge, duplicates included |
| `VertexQuery.EntityVertexQuery.VerticesFollowEdges` | store/graph-store/src/main/java/org/calrissian/accumulorecipes/graphstore/tinkerpop/query/EntityVertexQuery.java:163-181 | with a store whose bulk `get` answers each index with its entity, the query's `vertices()` is the vertex of each edge's other endpoint, in the order of `edges()` |
| `VertexQuery.EntityVertexQuery.VertexIds` | store/graph-store/src/main/java/org/calrissian/accumulorecipes/graphstore/tinkerpop/query/EntityVertexQuery.java:72-75 | one index per vertex of `vertices()`, in the same order |
| `VertexQuery.EntityVertexQuery.FetchBatch` | store/graph-store/src/main/java/org/calrissian/accumulorecipes/graphstore/tinkerpop/query/EntityVertexQuery.java:170-176 | a draining loop collects exactly the entities one bulk `get` returns (no query, the caller's auths), in order, decorated as vertices |
| `Criteria.Translate` | store/graph-store/src/main/java/org/calrissian/accumulorecipes/graphstore/tinkerpop/query/EntityVertexQuery.java:101-119 | succeeds exactly for the six comparison constants, each giving a leaf of its own kind with the given key and value; any other predicate gives the unsupported error naming it |
| `Criteria.TranslateComparisonOf` | store/graph-store/src/main/java/org/calrissian/accumulorecipes/graphstore/tinkerpop/query/EntityVertexQuery.java:101-119 | every comparison leaf is the translation of its own key, operator and operand, so the translation is one to one |
| `Criteria.ErrorMessage` | store/graph-store/src/main/java/org/calrissian/accumulorecipes/graphstore/tinkerpop/query/EntityVertexQuery.java:116 | the error message embeds the rejected predicate's name |
| `Graph.StoreDirectionValueOf` | store/graph-store/src/main/java/org/calrissian/accumulorecipes/graphstore/tinkerpop/query/EntityVertexQuery.java:146-147 | a direction is found exactly for the names OUT, IN and BOTH, and the one found has that name |
| `Graph.ToStoreDirection` | store/graph-store/src/main/java/org/calrissian/accumulorecipes/graphstore/tinkerpop/query/EntityVertexQuery.java:146-147 | the store direction has the same name as the Blueprints direction |
| `Graph.ToStoreDirectionBijective` | store/graph-store/src/main/java/org/calrissian/accumulorecipes/graphstore/tinkerpop/query/EntityVertexQuery.java:146-147 | the mapping by name is one to one and onto |
| `Pipeline.ScanOf` | store/graph-store/src/main/java/org/calrissian/accumulorecipes/graphstore/tinkerpop/query/EntityVertexQuery.java:141-151 | the scan gets no query exactly when the query conjunction has no children, and the conjunction otherwise; the label set is passed exactly when labels were given and holds exactly those labels; the direction maps by name; the anchor set is the anchor's index; auths pass through |
| `Pipeline.EdgesOf` | store/graph-store/src/main/java/org/calrissian/accumulorecipes/graphstore/tinkerpop/query/EntityVertexQuery.java:138-161 | every returned edge comes from the scan; with filter criteria every returned edge passes the filter; a non-negative limit bounds the length |
| `Pipeline.EdgesKeepScanMultiplicity` | store/graph-store/src/main/java/org/calrissian/accumulorecipes/graphstore/tinkerpop/query/EntityVertexQuery.java:153-160 | without a limit, each scanned edge that passes the filter (every scanned edge, when there are no filter criteria) is returned exactly as often as the scan yields it, and no other edge is |
| `Pipeline.DefaultQueryScansEverything` | store/graph-store/src/main/java/org/calrissian/accumulorecipes/graphstore/tinkerpop/query/EntityVertexQuery.java:39-161 | a freshly configured query scans with no query, no label set and direction BOTH, and returns every scanned edge |
| `Pipeline.UnfilteredEdges` | store/graph-store/src/main/java/org/calrissian/accumulorecipes/graphstore/tinkerpop/query/EntityVertexQuery.java:155-160 | without filter criteria the result is a prefix of the scan, of length `limit` when `limit > -1` and fewer were not scanned, and the whole scan otherwise |
| `Pipeline.LimitTakesFirst` | store/graph-store/src/main/java/org/calrissian/accumulorecipes/graphstore/tinkerpop/query/EntityVertexQuery.java:155-160 | the limit stage is last: the limited result is a prefix of the unlimited one, of length `limit` when enough edges survive the filter |
| `Pipeline.FetchBatchesCover` | store/graph-store/src/main/java/org/calrissian/accumulorecipes/graphstore/tinkerpop/query/EntityVertexQuery.java:166-178 | `vertices()` issues ceil(n/50) bulk fetches, none empty, all but the last with exactly 50 indexes, each without a query and with the caller's auths, and together they are exactly the endpoint indexes in order |
| `Pipeline.VerticesOnePerEdge` | store/graph-store/src/main/java/org/calrissian/accumulorecipes/graphstore/tinkerpop/query/EntityVertexQuery.java:164-181 | with a store that returns one entity per requested index, `vertices()` has one result per edge |
| `Pipeline.VerticesFollowEdges` | store/graph-store/src/main/java/org/calrissian/accumulorecipes/graphstore/tinkerpop/query/EntityVertexQuery.java:164-181 | with a store whose bulk `get` answers each index with its entity in request order, `vertices()` is the vertex of each edge's other endpoint, in edge order, duplicates included: the batching changes nothing in the result |
| `Sequences.Map` | store/graph-store/src/main/java/org/calrissian/accumulorecipes/graphstore/tinkerpop/query/EntityVertexQuery.java:153 | the transform keeps the length and maps each element in place |
| `Sequences.Filter` | store/graph-store/src/main/java/org/calrissian/accumulorecipes/graphstore/tinkerpop/query/EntityVertexQuery.java:156 | the filter keeps only elements that pass, each of which is in the input, and never lengthens |
| `Sequences.FilterMultiset` | store/graph-store/src/main/java/org/calrissian/accumulorecipes/graphstore/tinkerpop/query/EntityVertexQuery.java:156 | an element that passes is kept exactly as often as it occurs; one that fails is dropped |
| `Sequences.FilterAppend` | store/graph-store/src/main/java/org/calrissian/accumulorecipes/graphstore/tinkerpop/query/EntityVertexQuery.java:156 | the filter keeps order: filtering a concatenation is concatenating the filtered parts |
| `Sequences.Take` | store/graph-store/src/main/java/org/calrissian/accumulorecipes/graphstore/tinkerpop/query/EntityVertexQuery.java:158-159 | the limit keeps a prefix of length min(n, length) |
| `Sequences.Chunk` | store/graph-store/src/main/java/org/calrissian/accumulorecipes/graphstore/tinkerpop/query/EntityVertexQuery.java:167 | the partition's slices are non-empty, at most 50 long, and all but the last exactly 50 long |
| `Sequences.FlattenChunk` | store/graph-store/src/main/java/org/calrissian/accumulorecipes/graphstore/tinkerpop/query/EntityVertexQuery.java:167-178 | concatenating the slices of the partition gives back the sequence |
| `Sequences.FlattenMap` | store/graph-store/src/main/java/org/calrissian/accumulorecipes/graphstore/tinkerpop/query/EntityVertexQuery.java:167-178 | transforming every slice and concatenating equals transforming the concatenation |
| `Sequences.ChunkCount50` | store/graph-store/src/main/java/org/calrissian/accumulorecipes/graphstore/tinkerpop/query/EntityVertexQuery.java:167 | n elements give ceil(n/50) slices |
| `Sequences.Chunk101` | store/graph-store/src/main/java/org/calrissian/accumulorecipes/graphstore/tinkerpop/query/EntityVertexQuery.java:167 | 101 indexes give three slices, of 50, 50 and 1 |

## Left out

- Laziness and resource release: the model works on fully drained finite sequences. `closeQuietly` and early termination of the scan after the limit are not modelled.
- The graph store (`adjacentEdges`, `get`), the transforms `EdgeEntityXform`, `EdgeToVertexIndexXform`, `VertexEntityXform`, `EntityIndexXform` and the filter `EntityFilterPredicate` over `NodeUtils.criteriaFromNode` are foreign code. They are uninterpreted function fields. The constructor therefore takes them as an extra `Decorators` argument, where the source builds them inline.
- The internals of the mango `QueryBuilder`: an `and()` builder is modelled as the list of its children, and `end().build()` as the conjunction node of that list.
- Store behaviour, so nothing is proved about what the scan returns, for example that BOTH returns the union of IN and OUT.
- Failure of a store call (I/O, a failed batch fetch): the store functions are total.
- `Auths` is an opaque token threaded through unchanged.
- Values are compared for identity only. Their natural ordering, which the store and the filter use, belongs to the foreign code.
