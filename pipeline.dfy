/**
 * The terminal operations of a vertex query, `edges()`, `count()`,
 * `vertices()` and `vertexIds()`, as pure functions of the query's
 * configuration, the anchor vertex, the authorizations and the foreign code.
 */
module Pipeline {
  import opened Wrappers
  import opened Sequences
  import opened Criteria
  import opened Graph

  /** Java's `int`. */
  newtype int32 = x: int | -0x8000_0000 <= x < 0x8000_0000

  /** `Integer.MAX_VALUE`, where Guava's `Iterables.size` saturates. */
  const IntMax: int := 0x7fff_ffff

  /** The number of endpoint indexes fetched by one bulk `get`. */
  const BatchSize: nat := 50

  /**
   * The configuration of a query: the direction, the labels (`None` for a
   * null array), the limit, and the children of the two open conjunctions
   * `queryBuilder` and `filters`.
   */
  datatype QueryState = QueryState(
    direction: Direction,
    labels: Option<seq<string>>,
    limit: int32,
    query: seq<CriteriaNode>,
    filters: seq<CriteriaNode>)

  /** The configuration of a freshly constructed query. */
  function InitialState(): QueryState
  {
    QueryState(Both, None, -1, [], [])
  }

  /** `end().build()` on a builder opened with `and()`. */
  function Build(children: seq<CriteriaNode>): CriteriaNode
  {
    AndNode(children)
  }

  /** The query argument of the scan: null for a tree without children. */
  function Pushed(tree: CriteriaNode): Option<CriteriaNode>
    requires tree.AndNode?
  {
    if |tree.children| > 0 then Some(tree) else None
  }

  /** The arguments `edges()` passes to `adjacentEdges`. */
  function ScanOf(s: QueryState, anchor: Vertex, auths: Auths): (r: ScanRequest)
    ensures r.query.None? <==> |s.query| == 0
    ensures r.query.Some? ==> r.query.value == AndNode(s.query)
    ensures r.labels.Some? <==> s.labels.Some?
    ensures s.labels.Some? ==> forall l :: l in r.labels.value <==> l in s.labels.value
    ensures StoreDirectionName(r.direction) == DirectionName(s.direction)
    ensures r.anchors == {IndexOf(anchor.entity)} && r.auths == auths
  {
    var query := Build(s.query);
    var dir := ToStoreDirection(s.direction);
    var labelSet := if s.labels.Some? then Some(set l | l in s.labels.value) else None;
    ScanRequest({IndexOf(anchor.entity)}, Pushed(query), dir, labelSet, auths)
  }

  /** The scanned edge records decorated as edges, in scan order. */
  function Scanned(s: QueryState, anchor: Vertex, auths: Auths, store: GraphStore, deco: Decorators): seq<Edge>
  {
    Map(deco.toEdge, store.adjacentEdges(ScanOf(s, anchor, auths)))
  }

  /** The post-filter stage, present only when the filter tree has children. */
  function PostFilter(filter: CriteriaNode, edges: seq<Edge>, deco: Decorators): seq<Edge>
    requires filter.AndNode?
  {
    if |filter.children| > 0 then Filter(e => deco.accepts(filter, e), edges) else edges
  }

  /** The limit stage: the first `limit` elements when `limit > -1`, all otherwise. */
  function Cap<T>(s: seq<T>, limit: int32): seq<T>
  {
    if limit > -1 then Take(s, limit as nat) else s
  }

  /** `edges()`. */
  function EdgesOf(s: QueryState, anchor: Vertex, auths: Auths, store: GraphStore, deco: Decorators): (r: seq<Edge>)
    ensures forall i :: 0 <= i < |r| ==> r[i] in Scanned(s, anchor, auths, store, deco)
    ensures |s.filters| > 0 ==> forall i :: 0 <= i < |r| ==> deco.accepts(AndNode(s.filters), r[i])
    ensures s.limit > -1 ==> |r| <= s.limit as int
  {
    var filter := Build(s.filters);
    Cap(PostFilter(filter, Scanned(s, anchor, auths, store, deco), deco), s.limit)
  }

  /** Guava's `Iterables.size`: the length, saturated to an `int`. */
  function Saturate(n: nat): int
  {
    if n > IntMax then IntMax else n
  }

  /** The endpoint index of every edge, one per edge, in edge order. */
  function EndpointIndexes(s: QueryState, anchor: Vertex, auths: Auths, store: GraphStore, deco: Decorators): seq<EntityIndex>
  {
    Map(e => deco.otherEnd(anchor, e), EdgesOf(s, anchor, auths, store, deco))
  }

  /** The bulk `get` requests of `vertices()`: one per slice of 50 endpoint indexes. */
  function FetchBatches(s: QueryState, anchor: Vertex, auths: Auths, store: GraphStore, deco: Decorators): seq<FetchRequest>
  {
    Map(b => FetchRequest(b, None, auths), Chunk(EndpointIndexes(s, anchor, auths, store, deco), BatchSize))
  }

  /** What one bulk `get` contributes: its entities decorated as vertices, in fetch order. */
  function BatchVertices(store: GraphStore, deco: Decorators, request: FetchRequest): seq<Vertex>
  {
    Map(deco.toVertex, store.get(request))
  }

  /** `vertices()`: the batches' vertices, batch after batch. */
  function VerticesOf(s: QueryState, anchor: Vertex, auths: Auths, store: GraphStore, deco: Decorators): seq<Vertex>
  {
    Flatten(Map(req => BatchVertices(store, deco, req), FetchBatches(s, anchor, auths, store, deco)))
  }

  /**
   * Without a limit, `edges()` keeps every scanned edge that passes the
   * filter (every scanned edge, when there are no filter criteria) exactly as
   * often as the scan yields it, and no other edge.
   */
  lemma EdgesKeepScanMultiplicity(s: QueryState, anchor: Vertex, auths: Auths, store: GraphStore, deco: Decorators)
    requires s.limit <= -1
    ensures var all := Scanned(s, anchor, auths, store, deco);
      var r := EdgesOf(s, anchor, auths, store, deco);
      forall e :: multiset(r)[e] ==
        if |s.filters| == 0 || deco.accepts(AndNode(s.filters), e) then multiset(all)[e] else 0
  {
    FilterMultiset(e => deco.accepts(Build(s.filters), e), Scanned(s, anchor, auths, store, deco));
  }

  /**
   * A query with no criteria and no labels scans with a null query, the
   * unlabelled overload and direction BOTH, and returns every scanned edge.
   */
  lemma DefaultQueryScansEverything(anchor: Vertex, auths: Auths, store: GraphStore, deco: Decorators)
    ensures ScanOf(InitialState(), anchor, auths).query == None
    ensures ScanOf(InitialState(), anchor, auths).labels == None
    ensures ScanOf(InitialState(), anchor, auths).direction == StoreBoth
    ensures EdgesOf(InitialState(), anchor, auths, store, deco) == Scanned(InitialState(), anchor, auths, store, deco)
  {
  }

  /**
   * Without filter criteria the scanned edges reach the limit stage
   * unfiltered: the result is the first `limit` of them for `limit > -1`,
   * all of them otherwise.
   */
  lemma UnfilteredEdges(s: QueryState, anchor: Vertex, auths: Auths, store: GraphStore, deco: Decorators)
    ensures s.filters == [] ==>
      var all := Scanned(s, anchor, auths, store, deco);
      var r := EdgesOf(s, anchor, auths, store, deco);
      r <= all && |r| == if s.limit > -1 && (s.limit as int) < |all| then s.limit as int else |all|
  {
  }

  /**
   * The limit is the last stage: the limited result is a prefix of the
   * unlimited one, of length `limit` when that many survive the filter.
   */
  lemma LimitTakesFirst(s: QueryState, anchor: Vertex, auths: Auths, store: GraphStore, deco: Decorators)
    ensures var all := EdgesOf(s.(limit := -1), anchor, auths, store, deco);
      var r := EdgesOf(s, anchor, auths, store, deco);
      r <= all && |r| == if s.limit > -1 && (s.limit as int) < |all| then s.limit as int else |all|
  {
    assert ScanOf(s.(limit := -1), anchor, auths) == ScanOf(s, anchor, auths);
  }

  /**
   * The bulk fetches of `vertices()`: ceil(n / 50) requests, each without a
   * query and with the caller's authorizations, every one but the last with
   * exactly 50 indexes, none empty, and together exactly the endpoint
   * indexes in order.
   */
  lemma FetchBatchesCover(s: QueryState, anchor: Vertex, auths: Auths, store: GraphStore, deco: Decorators)
    ensures var idx := EndpointIndexes(s, anchor, auths, store, deco);
      var reqs := FetchBatches(s, anchor, auths, store, deco);
      && |reqs| == (|idx| + 49) / 50
      && (forall i :: 0 <= i < |reqs| ==> 0 < |reqs[i].indexes| <= 50)
      && (forall i :: 0 <= i < |reqs| - 1 ==> |reqs[i].indexes| == 50)
      && (forall i :: 0 <= i < |reqs| ==> reqs[i].query == None && reqs[i].auths == auths)
      && Flatten(Map((r: FetchRequest) => r.indexes, reqs)) == idx
  {
    var idx := EndpointIndexes(s, anchor, auths, store, deco);
    var chunks := Chunk(idx, BatchSize);
    var reqs := FetchBatches(s, anchor, auths, store, deco);
    ChunkCount50(idx);
    FlattenChunk(idx, BatchSize);
    var back := Map((r: FetchRequest) => r.indexes, reqs);
    assert back == chunks;
  }

  /**
   * When every bulk `get` returns one entity per requested index,
   * `vertices()` yields one vertex per edge, duplicates included.
   */
  lemma VerticesOnePerEdge(s: QueryState, anchor: Vertex, auths: Auths, store: GraphStore, deco: Decorators)
    ensures (forall req :: |store.get(req)| == |req.indexes|) ==>
      |VerticesOf(s, anchor, auths, store, deco)| == |EdgesOf(s, anchor, auths, store, deco)|
  {
    if forall req :: |store.get(req)| == |req.indexes| {
      var idx := EndpointIndexes(s, anchor, auths, store, deco);
      var chunks := Chunk(idx, BatchSize);
      var reqs := FetchBatches(s, anchor, auths, store, deco);
      var results := Map(req => BatchVertices(store, deco, req), reqs);
      FlattenSameLengths(chunks, results);
      FlattenChunk(idx, BatchSize);
    }
  }

  /**
   * Batching is invisible in the result: with a store whose bulk `get`
   * answers each requested index with its entity, in request order,
   * `vertices()` is the vertex of every edge's other endpoint, in edge order.
   */
  lemma VerticesFollowEdges(s: QueryState, anchor: Vertex, auths: Auths, store: GraphStore, deco: Decorators,
                            lookup: EntityIndex -> Entity)
    requires forall req :: store.get(req) == Map(lookup, req.indexes)
    ensures VerticesOf(s, anchor, auths, store, deco) ==
      Map(i => deco.toVertex(lookup(i)), EndpointIndexes(s, anchor, auths, store, deco))
  {
    var idx := EndpointIndexes(s, anchor, auths, store, deco);
    var chunks := Chunk(idx, BatchSize);
    var reqs := FetchBatches(s, anchor, auths, store, deco);
    var results := Map(req => BatchVertices(store, deco, req), reqs);
    var vertexOf := i => deco.toVertex(lookup(i));
    forall k | 0 <= k < |chunks|
      ensures results[k] == Map(vertexOf, chunks[k])
    {
      assert reqs[k].indexes == chunks[k];
      MapCompose(deco.toVertex, lookup, vertexOf, chunks[k]);
    }
    FlattenMap(vertexOf, chunks, results);
    FlattenChunk(idx, BatchSize);
  }
}
