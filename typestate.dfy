/**
 * The builder's class hierarchy read as a state machine over immutable
 * values: a node is its class (the kind) and its payload (schema and
 * query text); an operation either is offered by that class and yields the
 * node the chain continues with, or does not type-check.
 */
module TypeState {
  import opened Wrappers
  import opened Schemas
  import opened Groq

  /** EntityQuery, UnknownQuery, ArrayQuery and UnknownArrayQuery. */
  datatype Kind = Entity | UnknownEntity | Array | UnknownArray {
    predicate IsArray() { this == Array || this == UnknownArray }
    predicate IsUnknown() { this == UnknownEntity || this == UnknownArray }
  }

  /** The snapshot `{ schema, query }` a node hands out. */
  datatype Payload = Payload(schema: Schema, query: string)

  datatype Node = Node(kind: Kind, payload: Payload)

  /** The schemas each class is declared to carry. */
  predicate Fits(kind: Kind, schema: Schema) {
    match kind
    case Entity => true
    case UnknownEntity => schema == Unknown
    case Array => schema.SafeArray?
    case UnknownArray => schema == SafeArray(Unknown)
  }

  predicate WellFormed(n: Node) {
    Fits(n.kind, n.payload.schema)
  }

  /** The starting point of every query: unknown value, empty text. */
  const Root: Node := Node(UnknownEntity, Payload(Unknown, ""))

  /** The chainable calls; `Slice(min, None)` is the one-argument overload. */
  datatype Op =
    | Filter(filterValue: string)
    | Deref
    | GrabOne(name: string, fieldSchema: Schema)
    | Order(orderings: seq<Ordering>)
    | Slice(min: int, max: Option<int>)

  /** The text each call appends. */
  function Fragment(op: Op): string {
    match op
    case Filter(v) => FilterFragment(v)
    case Deref => DerefFragment
    case GrabOne(name, _) => FieldFragment(name)
    case Order(os) => OrderFragment(os)
    case Slice(min, max) => SliceFragment(min, max)
  }

  /** Which class declares (or inherits) which call. */
  predicate Offers(kind: Kind, op: Op) {
    match op
    case Filter(_) => kind != Entity
    case Deref => kind.IsUnknown()
    case GrabOne(_, _) => true
    case Order(_) => kind.IsArray()
    case Slice(_, _) => kind.IsArray()
  }

  /** Does the call leave the node's schema as it was? */
  predicate KeepsSchema(kind: Kind, op: Op) {
    match op
    case Filter(_) => kind.IsArray()
    case Deref => true
    case GrabOne(_, _) => false
    case Order(_) => true
    case Slice(_, max) => max.Some?
  }

  /**
   * One chained call: the node the call returns, typed as the call declares
   * it, or None when the class does not offer the call. filter and deref
   * return `this` and keep the caller's class; order and the range slice
   * are declared to return ArrayQuery, so after them an UnknownArrayQuery
   * is seen as a plain ArrayQuery.
   */
  function Step(n: Node, op: Op): (r: Option<Node>)
    ensures r.Some? ==> Offers(n.kind, op)
  {
    var text := n.payload.query + Fragment(op);
    match op
    case Filter(_) =>
      if n.kind == UnknownEntity then Some(Node(UnknownArray, Payload(SafeArray(Unknown), text)))
      else if n.kind.IsArray() then Some(Node(n.kind, Payload(n.payload.schema, text)))
      else None
    case Deref =>
      if n.kind.IsUnknown() then Some(Node(n.kind, Payload(n.payload.schema, text))) else None
    case GrabOne(_, s) =>
      if n.kind.IsArray() then Some(Node(Array, Payload(SafeArray(s), text)))
      else Some(Node(Entity, Payload(s, text)))
    case Order(_) =>
      if n.kind.IsArray() then Some(Node(Array, Payload(n.payload.schema, text))) else None
    case Slice(_, max) =>
      if !n.kind.IsArray() then None
      else if max.Some? then Some(Node(Array, Payload(n.payload.schema, text)))
      else if n.payload.schema.SafeArray? then Some(Node(Entity, Payload(n.payload.schema.element, text)))
      else None
  }

  /** Every call appends exactly its own fragment to the text it is given. */
  lemma StepAppends(n: Node, op: Op)
    requires Step(n, op).Some?
    ensures Step(n, op).value.payload.query == n.payload.query + Fragment(op)
  {
  }

  /** A well-formed node accepts exactly the calls its class offers, and stays well-formed. */
  lemma StepOffers(n: Node, op: Op)
    requires WellFormed(n)
    ensures Step(n, op).Some? <==> Offers(n.kind, op)
    ensures Step(n, op).Some? ==> WellFormed(Step(n, op).value)
  {
  }

  /**
   * filter on an array, deref, order and the range slice keep the schema;
   * filter and deref keep the class, order and the range slice give ArrayQuery.
   */
  lemma StepKeepsSchema(n: Node, op: Op)
    requires Step(n, op).Some? && KeepsSchema(n.kind, op)
    ensures Step(n, op).value.payload.schema == n.payload.schema
    ensures Step(n, op).value.kind == (if op.Order? || op.Slice? then Array else n.kind)
  {
  }

  /**
   * deref stays available after filter on an unknown array, but not after
   * order or a range slice, whose declared result is a plain ArrayQuery.
   */
  lemma DerefLostAfterOrderOrRange(v: string, w: string, os: seq<Ordering>, min: int, max: int)
    ensures Run(Root, [Filter(v), Filter(w), Deref]).Some?
    ensures Run(Root, [Filter(v), Order(os), Deref]) == None
    ensures Run(Root, [Filter(v), Slice(min, Some(max)), Deref]) == None
  {
    var a := Step(Root, Filter(v)).value;
    assert a.kind == UnknownArray;
    ChainOfThree(Filter(v), Filter(w), Deref);
    ChainOfThree(Filter(v), Order(os), Deref);
    ChainOfThree(Filter(v), Slice(min, Some(max)), Deref);
    assert Step(a, Filter(w)).value.kind == UnknownArray;
    assert Step(a, Order(os)).value.kind == Array;
    assert Step(a, Slice(min, Some(max))).value.kind == Array;
  }

  /** A chain of three calls from the root, unfolded one call at a time. */
  lemma ChainOfThree(x: Op, y: Op, z: Op)
    ensures Run(Root, [x, y, z]) ==
      match Step(Root, x)
      case None => None
      case Some(a) =>
        match Step(a, y)
        case None => None
        case Some(b) => Step(b, z)
  {
    var ops := [x, y, z];
    assert ops[1..] == [y, z] && [y, z][1..] == [z] && [z][1..] == [];
    forall b: Node ensures Run(b, [z]) == Step(b, z) {
      match Step(b, z)
      case None =>
      case Some(c) => assert Run(c, []) == Some(c);
    }
  }

  /** A whole chain of calls, left to right. */
  function Run(n: Node, ops: seq<Op>): Option<Node>
    decreases |ops|
  {
    if ops == [] then Some(n)
    else match Step(n, ops[0])
      case None => None
      case Some(m) => Run(m, ops[1..])
  }

  /** The fragments of a chain, concatenated in call order. */
  function Text(ops: seq<Op>): string {
    if ops == [] then "" else Fragment(ops[0]) + Text(ops[1..])
  }

  /** A chain's text is the starting text followed by every call's fragment in call order. */
  lemma {:induction false} RunAppendsFragments(n: Node, ops: seq<Op>)
    ensures Run(n, ops).Some? ==> Run(n, ops).value.payload.query == n.payload.query + Text(ops)
    decreases |ops|
  {
    if ops != [] {
      var r := Step(n, ops[0]);
      if r.Some? {
        var m := r.value;
        StepAppends(n, ops[0]);
        RunAppendsFragments(m, ops[1..]);
        TextCons(ops);
        AppendAssoc(n.payload.query, Fragment(ops[0]), Text(ops[1..]));
      }
    }
  }

  lemma TextCons(ops: seq<Op>)
    requires ops != []
    ensures Text(ops) == Fragment(ops[0]) + Text(ops[1..])
  {
  }

  lemma AppendAssoc(a: string, b: string, c: string)
    ensures (a + b) + c == a + (b + c)
  {
  }

  /** Append-only: no chain shortens or rewrites the text it starts from. */
  lemma AppendOnly(n: Node, ops: seq<Op>)
    requires Run(n, ops).Some?
    ensures n.payload.query <= Run(n, ops).value.payload.query
  {
    RunAppendsFragments(n, ops);
  }

  /** Every node a chain reaches carries a schema its class is declared to carry. */
  lemma {:induction false} RunPreservesWellFormed(n: Node, ops: seq<Op>)
    requires WellFormed(n)
    ensures Run(n, ops).Some? ==> WellFormed(Run(n, ops).value)
    decreases |ops|
  {
    if ops != [] {
      match Step(n, ops[0])
      case None =>
      case Some(m) =>
        StepOffers(n, ops[0]);
        RunPreservesWellFormed(m, ops[1..]);
    }
  }

  /** Once a concrete class is reached, no chain leads back to an Unknown one. */
  lemma {:induction false} NoWayBackToUnknown(n: Node, ops: seq<Op>)
    requires !n.kind.IsUnknown()
    ensures Run(n, ops).Some? ==> !Run(n, ops).value.kind.IsUnknown()
    decreases |ops|
  {
    if ops != [] {
      match Step(n, ops[0])
      case None =>
      case Some(m) => NoWayBackToUnknown(m, ops[1..]);
    }
  }

  /**
   * From the root, a chain's text is exactly its fragments in call order,
   * and the node it reaches is well-formed.
   */
  lemma RootChain(ops: seq<Op>)
    requires Run(Root, ops).Some?
    ensures Run(Root, ops).value.payload.query == Text(ops)
    ensures WellFormed(Run(Root, ops).value)
  {
    RunAppendsFragments(Root, ops);
    RunPreservesWellFormed(Root, ops);
    assert "" + Text(ops) == Text(ops);
  }

  /** Running two chains one after the other is running their concatenation. */
  lemma {:induction false} RunConcat(n: Node, ops1: seq<Op>, ops2: seq<Op>)
    ensures Run(n, ops1 + ops2) == (match Run(n, ops1) case None => None case Some(m) => Run(m, ops2))
    decreases |ops1|
  {
    if ops1 == [] {
      assert ops1 + ops2 == ops2;
    } else {
      assert (ops1 + ops2)[0] == ops1[0];
      assert (ops1 + ops2)[1..] == ops1[1..] + ops2;
      match Step(n, ops1[0])
      case None =>
      case Some(m) => RunConcat(m, ops1[1..], ops2);
    }
  }

  /** An index slice unwraps exactly one level of safe array. */
  lemma SliceIndexUnwraps(n: Node, i: int, s: Schema)
    requires n.kind.IsArray() && n.payload.schema == SafeArray(s)
    ensures Step(n, Slice(i, None)) == Some(Node(Entity, Payload(s, n.payload.query + SliceFragment(i, None))))
  {
  }

  /** The two-argument slice keeps an array of the same schema, whatever the bounds, an upper bound of 0 included. */
  lemma SliceRangeKeepsArray(n: Node, min: int, max: int)
    requires n.kind.IsArray()
    ensures Step(n, Slice(min, Some(max))) == Some(Node(Array, Payload(n.payload.schema, n.payload.query + SliceFragment(min, Some(max)))))
  {
  }
}
