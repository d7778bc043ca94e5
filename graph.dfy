/**
 * The graph entities a vertex query works on, the two direction enums, the
 * requests it sends to the graph store, and the foreign code it calls (the
 * store itself and the transform and filter objects), each of the latter as
 * an uninterpreted function.
 */
module Graph {
  import opened Wrappers
  import opened Criteria

  /** The composite key of a stored entity: its type and its id. */
  datatype EntityIndex = EntityIndex(entityType: string, id: string)

  /** A stored entity with its attributes. */
  datatype Entity = Entity(entityType: string, id: string, attributes: map<string, Value>)

  /** A stored edge record: an entity that also names its two endpoints and a label. */
  datatype EdgeEntity = EdgeEntity(
    entityType: string, id: string,
    source: EntityIndex, destination: EntityIndex,
    edgeLabel: string, attributes: map<string, Value>)

  /** The Blueprints view of an edge record. */
  datatype Edge = EntityEdge(record: EdgeEntity)

  /** The Blueprints view of a stored entity. */
  datatype Vertex = EntityVertex(entity: Entity)

  /** The authorizations threaded unchanged through every store call. */
  datatype Auths = Auths(tokens: set<string>)

  /** `new EntityIndex(entity)`: the key of an entity. */
  function IndexOf(e: Entity): EntityIndex
  {
    EntityIndex(e.entityType, e.id)
  }

  /** Blueprints' `Direction`. */
  datatype Direction = Out | In | Both

  /** The graph store's own `Direction`. */
  datatype StoreDirection = StoreOut | StoreIn | StoreBoth

  /** `toString` of a Blueprints direction. */
  function DirectionName(d: Direction): string
  {
    match d
    case Out => "OUT"
    case In => "IN"
    case Both => "BOTH"
  }

  /** `name()` of a store direction. */
  function StoreDirectionName(d: StoreDirection): string
  {
    match d
    case StoreOut => "OUT"
    case StoreIn => "IN"
    case StoreBoth => "BOTH"
  }

  /** `valueOf` of the store enum; `None` where Java throws `IllegalArgumentException`. */
  function StoreDirectionValueOf(name: string): (r: Option<StoreDirection>)
    ensures r.Some? <==> name == "OUT" || name == "IN" || name == "BOTH"
    ensures r.Some? ==> StoreDirectionName(r.value) == name
  {
    if name == "OUT" then Some(StoreOut)
    else if name == "IN" then Some(StoreIn)
    else if name == "BOTH" then Some(StoreBoth)
    else None
  }

  /**
   * `Direction.valueOf(direction.toString())`: the store direction of the
   * same name, which always exists.
   */
  function ToStoreDirection(d: Direction): (r: StoreDirection)
    ensures StoreDirectionName(r) == DirectionName(d)
  {
    var found := StoreDirectionValueOf(DirectionName(d));
    assert found.Some?;
    found.value
  }

  /** The mapping by name is one to one and onto. */
  lemma ToStoreDirectionBijective(d1: Direction, d2: Direction, sd: StoreDirection)
    ensures ToStoreDirection(d1) == ToStoreDirection(d2) ==> d1 == d2
    ensures exists d :: ToStoreDirection(d) == sd
  {
    match sd
    case StoreOut => assert ToStoreDirection(Out) == sd;
    case StoreIn => assert ToStoreDirection(In) == sd;
    case StoreBoth => assert ToStoreDirection(Both) == sd;
  }

  /**
   * The arguments of `adjacentEdges`; `labels == None` selects the overload
   * without a label set, `query == None` passes a null query.
   */
  datatype ScanRequest = ScanRequest(
    anchors: set<EntityIndex>, query: Option<CriteriaNode>,
    direction: StoreDirection, labels: Option<set<string>>, auths: Auths)

  /** The arguments of the bulk `get`. */
  datatype FetchRequest = FetchRequest(
    indexes: seq<EntityIndex>, query: Option<CriteriaNode>, auths: Auths)

  /** The graph store's two calls, each drained to a finite sequence. */
  datatype GraphStore = GraphStore(
    adjacentEdges: ScanRequest -> seq<EdgeEntity>,
    get: FetchRequest -> seq<Entity>)

  /**
   * The transforms and the filter predicate: `EdgeEntityXform`,
   * `EdgeToVertexIndexXform` (given the anchor vertex), `VertexEntityXform`,
   * `EntityIndexXform` and `EntityFilterPredicate` over a criteria tree.
   */
  datatype Decorators = Decorators(
    toEdge: EdgeEntity -> Edge,
    otherEnd: (Vertex, Edge) -> EntityIndex,
    toVertex: Entity -> Vertex,
    indexOf: Vertex -> EntityIndex,
    accepts: (CriteriaNode, Edge) -> bool)
}
