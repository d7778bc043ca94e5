/**
 * `EntityVertexQuery`: a Blueprints vertex query over the graph store,
 * anchored at one vertex. Its configuration calls update one field each and
 * return the query itself; its terminal calls read the configuration.
 */
module VertexQuery {
  import opened Wrappers
  import opened Sequences
  import opened Criteria
  import opened Graph
  import opened Pipeline

  class EntityVertexQuery {
    const vertex: Vertex
    const graphStore: GraphStore
    const auths: Auths
    /** The transforms and the filter predicate the source builds inline. */
    const decorators: Decorators

    var direction: Direction
    var labels: Option<seq<string>>
    var limit: int32
    /** The children of the open conjunction `queryBuilder`. */
    var query: seq<CriteriaNode>
    /** The children of the open conjunction `filters`. */
    var filters: seq<CriteriaNode>

    /** The configuration as a value. */
    function State(): QueryState
      reads this
    {
      QueryState(direction, labels, limit, query, filters)
    }

    /** No configuration call ever adds to `filters`. */
    predicate Valid()
      reads this
    {
      filters == []
    }

    constructor (vertex: Vertex, graphStore: GraphStore, auths: Auths, decorators: Decorators)
      ensures Valid() && State() == InitialState()
      ensures this.vertex == vertex && this.graphStore == graphStore
      ensures this.auths == auths && this.decorators == decorators
    {
      this.vertex := vertex;
      this.graphStore := graphStore;
      this.auths := auths;
      this.decorators := decorators;
      direction := Both;
      labels := None;
      limit := -1;
      query := [];
      filters := [];
    }

    method SetDirection(d: Direction) returns (q: EntityVertexQuery)
      modifies this
      ensures q == this && State() == old(State()).(direction := d)
    {
      direction := d;
      q := this;
    }

    /** `labels(String...)`; `None` is a null array. */
    method SetLabels(ls: Option<seq<string>>) returns (q: EntityVertexQuery)
      modifies this
      ensures q == this && State() == old(State()).(labels := ls)
    {
      labels := ls;
      q := this;
    }

    method SetLimit(n: int32) returns (q: EntityVertexQuery)
      modifies this
      ensures q == this && State() == old(State()).(limit := n)
    {
      limit := n;
      q := this;
    }

    /** `has(key)`. */
    method Has(key: string) returns (q: EntityVertexQuery)
      modifies this
      ensures q == this && State() == old(State()).(query := old(query) + [HasLeaf(key)])
    {
      query := query + [HasLeaf(key)];
      q := this;
    }

    /** `hasNot(key)`. */
    method HasNot(key: string) returns (q: EntityVertexQuery)
      modifies this
      ensures q == this && State() == old(State()).(query := old(query) + [HasNotLeaf(key)])
    {
      query := query + [HasNotLeaf(key)];
      q := this;
    }

    /** `has(key, value)`: an equality criterion. */
    method HasEqual(key: string, value: Value) returns (q: EntityVertexQuery)
      modifies this
      ensures q == this && State() == old(State()).(query := old(query) + [EqualsLeaf(key, value)])
    {
      query := query + [EqualsLeaf(key, value)];
      q := this;
    }

    /** `hasNot(key, value)`: an inequality criterion. */
    method HasNotEqual(key: string, value: Value) returns (q: EntityVertexQuery)
      modifies this
      ensures q == this && State() == old(State()).(query := old(query) + [NotEqualsLeaf(key, value)])
    {
      query := query + [NotEqualsLeaf(key, value)];
      q := this;
    }

    /**
     * `has(key, predicate, value)`: EQUAL and NOT_EQUAL act as `has(key,
     * value)` and `hasNot(key, value)`, the four orderings add their own
     * leaf, and any other predicate fails before anything is changed.
     */
    method HasPredicate(key: string, p: Predicate, value: Value) returns (r: Result<EntityVertexQuery, QueryError>)
      modifies this
      ensures match Translate(key, p, value)
        case Success(n) => r == Success(this) && State() == old(State()).(query := old(query) + [n])
        case Failure(e) => r == Failure(e) && State() == old(State())
      ensures p == Comparison(Equal) ==>
        State() == old(State()).(query := old(query) + [EqualsLeaf(key, value)])
      ensures p == Comparison(NotEqual) ==>
        State() == old(State()).(query := old(query) + [NotEqualsLeaf(key, value)])
    {
      if p == Comparison(Equal) {
        var q := HasEqual(key, value);
        return Success(q);
      } else if p == Comparison(NotEqual) {
        var q := HasNotEqual(key, value);
        return Success(q);
      } else if p == Comparison(GreaterThan) {
        query := query + [GreaterThanLeaf(key, value)];
      } else if p == Comparison(LessThan) {
        query := query + [LessThanLeaf(key, value)];
      } else if p == Comparison(GreaterThanEqual) {
        query := query + [GreaterThanEqualsLeaf(key, value)];
      } else if p == Comparison(LessThanEqual) {
        query := query + [LessThanEqualsLeaf(key, value)];
      } else {
        return Failure(UnsupportedPredicate(PredicateName(p)));
      }
      r := Success(this);
    }

    /**
     * `has(key, value, compare)`: the same as `has(key, compare, value)`;
     * every `Compare` constant is supported, so it never fails.
     */
    method HasCompare(key: string, value: Value, c: Compare) returns (q: EntityVertexQuery)
      modifies this
      ensures Translate(key, Comparison(c), value).Success?
      ensures q == this
      ensures State() == old(State()).(query := old(query) + [Translate(key, Comparison(c), value).value])
    {
      var r := HasPredicate(key, Comparison(c), value);
      q := r.value;
    }

    /** `interval(key, start, stop)`: a range criterion. */
    method Interval(key: string, start: Value, stop: Value) returns (q: EntityVertexQuery)
      modifies this
      ensures q == this && State() == old(State()).(query := old(query) + [RangeLeaf(key, start, stop)])
    {
      query := query + [RangeLeaf(key, start, stop)];
      q := this;
    }

    /**
     * `edges()`. As `filters` is never extended, the decorated scan reaches
     * the limit stage unfiltered: the result is its first `limit` edges when
     * `limit > -1` and all of it otherwise.
     */
    function Edges(): (r: seq<Edge>)
      reads this
      ensures Valid() ==>
        var all := Scanned(State(), vertex, auths, graphStore, decorators);
        r <= all && |r| == if limit > -1 && (limit as int) < |all| then limit as int else |all|
    {
      UnfilteredEdges(State(), vertex, auths, graphStore, decorators);
      EdgesOf(State(), vertex, auths, graphStore, decorators)
    }

    /** `count()`: the number of edges `edges()` yields, saturated to an `int`. */
    function Count(): (n: int)
      reads this
      ensures 0 <= n <= IntMax
      ensures |Edges()| <= IntMax ==> n == |Edges()|
      ensures |Edges()| > IntMax ==> n == IntMax
      ensures limit > -1 ==> n <= limit as int
    {
      Saturate(|Edges()|)
    }

    /**
     * `vertices()`: one bulk `get` per slice of 50 endpoint indexes, the
     * results concatenated in slice order; with a store that returns one
     * entity per index, one vertex per edge.
     */
    function Vertices(): (r: seq<Vertex>)
      reads this
      ensures (forall req :: |graphStore.get(req)| == |req.indexes|) ==> |r| == |Edges()|
    {
      VerticesOnePerEdge(State(), vertex, auths, graphStore, decorators);
      VerticesOf(State(), vertex, auths, graphStore, decorators)
    }

    /**
     * With a store whose bulk `get` answers each index with its entity,
     * `vertices()` is the vertex of each edge's other endpoint, in edge
     * order: the batches of 50 change nothing in the result.
     */
    lemma VerticesFollowEdges(lookup: EntityIndex -> Entity)
      requires forall req :: graphStore.get(req) == Map(lookup, req.indexes)
      ensures Vertices() == Map(i => decorators.toVertex(lookup(i)), Map(e => decorators.otherEnd(vertex, e), Edges()))
    {
      Pipeline.VerticesFollowEdges(State(), vertex, auths, graphStore, decorators, lookup);
    }

    /** `vertexIds()`: the index of every vertex `vertices()` yields, in order. */
    function VertexIds(): (r: seq<EntityIndex>)
      reads this
      ensures |r| == |Vertices()|
      ensures forall i :: 0 <= i < |r| ==> r[i] == decorators.indexOf(Vertices()[i])
    {
      Map(decorators.indexOf, Vertices())
    }

    /**
     * The per-slice function of `vertices()`: one bulk `get` with no query,
     * drained into a list and decorated as vertices.
     */
    method FetchBatch(indexes: seq<EntityIndex>) returns (vs: seq<Vertex>)
      ensures vs == BatchVertices(graphStore, decorators, FetchRequest(indexes, None, auths))
    {
      var entities := graphStore.get(FetchRequest(indexes, None, auths));
      var collection: seq<Entity> := [];
      var i := 0;
      while i < |entities|
        invariant 0 <= i <= |entities|
        invariant collection == entities[..i]
      {
        collection := collection + [entities[i]];
        i := i + 1;
      }
      vs := Map(decorators.toVertex, collection);
    }
  }
}
