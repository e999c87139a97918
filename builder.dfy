/**
 * The fluent query builder. The source's five classes (BaseQuery and the
 * four node classes) are one class here with a constant kind tag: a call
 * that the source's types reject on a class is a precondition on the kind.
 * Each call appends its fragment to the receiver's query in place; filter
 * on an unknown node and the index slice then return a new node, grabOne
 * returns a new node without touching the receiver, and the other calls
 * return the receiver itself.
 */
module Builder {
  import opened Wrappers
  import opened Schemas
  import opened Groq
  import opened TypeState

  class Query {
    const kind: Kind
    var query: string
    var schema: Schema

    /** The schema matches what the node's class is declared to carry. */
    predicate Valid()
      reads this
    {
      Fits(kind, schema)
    }

    /** BaseQuery.value: a copy of the current schema and text. */
    function Value(): (p: Payload)
      reads this
      ensures p.schema == schema && p.query == query
    {
      Payload(schema, query)
    }

    /** This node as a value of the type-state machine. */
    function State(): Node
      reads this
    {
      Node(kind, Value())
    }

    constructor (kind: Kind, payload: Payload)
      requires Fits(kind, payload.schema)
      ensures this.kind == kind && Value() == payload && Valid()
    {
      this.kind := kind;
      query := payload.query;
      schema := payload.schema;
    }

    /** EntityQuery.grabOne, inherited by UnknownQuery: a new entity node for the field. */
    method GrabOne(name: string, fieldSchema: Schema) returns (r: Query)
      requires !kind.IsArray()
      ensures fresh(r) && r.Valid()
      ensures r.kind == Entity && r.Value() == Payload(fieldSchema, query + FieldFragment(name))
      ensures Step(State(), Op.GrabOne(name, fieldSchema)) == Some(r.State())
    {
      r := new Query(Entity, Payload(fieldSchema, query + FieldFragment(name)));
    }

    /** UnknownQuery.filter: the receiver's text grows; a new unknown array node carries it on. */
    method FilterToArray(filterValue: string := "") returns (r: Query)
      requires kind == UnknownEntity
      modifies this
      ensures query == old(query) + FilterFragment(filterValue) && schema == old(schema)
      ensures fresh(r) && r.Valid()
      ensures r.kind == UnknownArray && r.Value() == Payload(SafeArray(Unknown), query)
      ensures Step(old(State()), Op.Filter(filterValue)) == Some(r.State())
    {
      query := query + FilterFragment(filterValue);
      r := new Query(UnknownArray, Payload(SafeArray(Unknown), Value().query));
    }

    /** UnknownQuery.deref and UnknownArrayQuery.deref: `->` on the receiver itself. */
    method Deref() returns (r: Query)
      requires kind.IsUnknown()
      modifies this
      ensures r == this
      ensures query == old(query) + DerefFragment && schema == old(schema)
      ensures Step(old(State()), Op.Deref) == Some(State())
    {
      query := query + DerefFragment;
      r := this;
    }

    /** ArrayQuery.filter: appends `[v]` to the receiver's text and returns the receiver. */
    method Filter(filterValue: string := "") returns (r: Query)
      requires kind.IsArray()
      modifies this
      ensures r == this
      ensures query == old(query) + FilterFragment(filterValue) && schema == old(schema)
      ensures Step(old(State()), Op.Filter(filterValue)) == Some(State())
    {
      query := query + FilterFragment(filterValue);
      r := this;
    }

    /** ArrayQuery.grabOne: a new array node holding the field of every element. */
    method GrabOneEach(name: string, fieldSchema: Schema) returns (r: Query)
      requires kind.IsArray()
      ensures fresh(r) && r.Valid()
      ensures r.kind == Array && r.Value() == Payload(SafeArray(fieldSchema), query + FieldFragment(name))
      ensures Step(State(), Op.GrabOne(name, fieldSchema)) == Some(r.State())
    {
      r := new Query(Array, Payload(SafeArray(fieldSchema), query + FieldFragment(name)));
    }

    /**
     * ArrayQuery.order: appends `|order(...)` to the receiver's text and
     * returns the receiver, whose declared type is then ArrayQuery.
     */
    method Order(orderings: seq<Ordering>) returns (r: Query)
      requires kind.IsArray()
      modifies this
      ensures r == this
      ensures query == old(query) + OrderFragment(orderings) && schema == old(schema)
      ensures Step(old(State()), Op.Order(orderings)) == Some(Node(Array, Value()))
    {
      query := query + OrderFragment(orderings);
      r := this;
    }

    /**
     * ArrayQuery.slice, both overloads: the receiver's text grows either
     * way; without an upper bound a new entity node of the element schema
     * is returned, with one (0 included) the receiver itself.
     */
    method Slice(min: int, max: Option<int> := None) returns (r: Query)
      requires kind.IsArray() && Valid()
      modifies this
      ensures query == old(query) + SliceFragment(min, max) && schema == old(schema)
      ensures max.None? ==> fresh(r) && r.kind == Entity && r.Value() == Payload(schema.element, query)
      ensures max.Some? ==> r == this
      ensures r.Valid()
      ensures Step(old(State()), Op.Slice(min, max)) == Some(Node(if max.Some? then Array else Entity, r.Value()))
    {
      query := query + SliceFragment(min, max);
      if max.None? {
        r := new Query(Entity, Value().(schema := schema.element));
        return;
      }
      r := this;
    }
  }
}
