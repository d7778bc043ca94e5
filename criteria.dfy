/**
 * Criteria trees of the mango criteria library, the Blueprints comparison
 * predicates, and the translator of `has(key, predicate, value)` that maps a
 * predicate onto a tree node.
 */
module Criteria {
  import opened Wrappers

  /** A caller-supplied attribute value; the model only compares values for identity. */
  datatype Value = Value(text: string)

  /** One node of a criteria tree. */
  datatype CriteriaNode =
    | HasLeaf(key: string)
    | HasNotLeaf(key: string)
    | EqualsLeaf(key: string, operand: Value)
    | NotEqualsLeaf(key: string, operand: Value)
    | GreaterThanLeaf(key: string, operand: Value)
    | GreaterThanEqualsLeaf(key: string, operand: Value)
    | LessThanLeaf(key: string, operand: Value)
    | LessThanEqualsLeaf(key: string, operand: Value)
    | RangeLeaf(key: string, start: Value, end: Value)
    | AndNode(children: seq<CriteriaNode>)
    | OrNode(children: seq<CriteriaNode>)

  /** The constants of Blueprints' `Query.Compare`. */
  datatype Compare = Equal | NotEqual | GreaterThan | GreaterThanEqual | LessThan | LessThanEqual

  /**
   * A Blueprints `Predicate`: one of the `Compare` constants, or any other
   * implementation (such as a containment predicate), known by its `toString`.
   */
  datatype Predicate = Comparison(op: Compare) | Custom(name: string)

  /** The `UnsupportedOperationException` raised for a predicate with no node. */
  datatype QueryError = UnsupportedPredicate(name: string)

  /** `toString` of a predicate: an enum constant prints its own name. */
  function PredicateName(p: Predicate): string
  {
    match p
    case Comparison(Equal) => "EQUAL"
    case Comparison(NotEqual) => "NOT_EQUAL"
    case Comparison(GreaterThan) => "GREATER_THAN"
    case Comparison(GreaterThanEqual) => "GREATER_THAN_EQUAL"
    case Comparison(LessThan) => "LESS_THAN"
    case Comparison(LessThanEqual) => "LESS_THAN_EQUAL"
    case Custom(name) => name
  }

  /** The exception's message; it names the rejected predicate. */
  function ErrorMessage(e: QueryError): (m: string)
    ensures |m| == |e.name| + 38 && m[20..20 + |e.name|] == e.name
  {
    "Predicate with type " + e.name + " is not supported."
  }

  /** The comparison a leaf stands for, or `None` for any other node. */
  function ComparisonOf(n: CriteriaNode): Option<Compare>
  {
    match n
    case EqualsLeaf(_, _) => Some(Equal)
    case NotEqualsLeaf(_, _) => Some(NotEqual)
    case GreaterThanLeaf(_, _) => Some(GreaterThan)
    case GreaterThanEqualsLeaf(_, _) => Some(GreaterThanEqual)
    case LessThanLeaf(_, _) => Some(LessThan)
    case LessThanEqualsLeaf(_, _) => Some(LessThanEqual)
    case _ => None
  }

  /**
   * The node `has(key, predicate, value)` adds to the query: one comparison
   * leaf for each of the six `Compare` constants, an unsupported-predicate
   * error naming the predicate for anything else.
   */
  function Translate(key: string, p: Predicate, value: Value): (r: Result<CriteriaNode, QueryError>)
    ensures r.Success? <==> p.Comparison?
    ensures r.Success? ==>
      ComparisonOf(r.value) == Some(p.op) && r.value.key == key && r.value.operand == value
    ensures r.Failure? ==> r.error == UnsupportedPredicate(PredicateName(p))
  {
    match p
    case Comparison(Equal) => Success(EqualsLeaf(key, value))
    case Comparison(NotEqual) => Success(NotEqualsLeaf(key, value))
    case Comparison(GreaterThan) => Success(GreaterThanLeaf(key, value))
    case Comparison(LessThan) => Success(LessThanLeaf(key, value))
    case Comparison(GreaterThanEqual) => Success(GreaterThanEqualsLeaf(key, value))
    case Comparison(LessThanEqual) => Success(LessThanEqualsLeaf(key, value))
    case Custom(_) => Failure(UnsupportedPredicate(PredicateName(p)))
  }

  /**
   * Every comparison leaf is the translation of its own key, comparison and
   * operand, so the translator loses nothing.
   */
  lemma TranslateComparisonOf(n: CriteriaNode)
    requires ComparisonOf(n).Some?
    ensures Translate(n.key, Comparison(ComparisonOf(n).value), n.operand) == Success(n)
  {
  }
}
