/**
 * The `AggregateRoot` of the `flask-boilerplate` package: an `Entity`
 * subclass whose event buffer `_domain_events` does not exist until the first
 * `add_domain_event`; `get_domain_events` reads an absent buffer as empty.
 * It does not override `__eq__`, so it stays abstract, and identity, equality
 * and hashing are the `Entity` ones: the id alone, events ignored (hashing
 * raises for a subclass whose `__hash__` is `None`).
 */
module LazyAggregateRoots {
  import opened PyObjects
  import opened EventHistory
  import Entities
  import AggregateRoots

  /** The class: it defines the event methods but not `__eq__`. */
  const LazyRootClass := Subclass("AggregateRoot", Entities.EntityClass,
                                  {"__init__", "add_domain_event", "clear_domain_events", "get_domain_events"})

  /** An entity whose fields are the buffer: `None` until the attribute is first set. */
  type LazyRoot = Entities.Entity<Option<seq<DomainEvent>>>

  /** `get_domain_events()`: the buffer, or an empty list when it was never created. */
  function GetDomainEvents(r: LazyRoot): (es: seq<DomainEvent>)
    ensures r.fields.None? ==> es == []
    ensures r.fields.Some? ==> es == r.fields.value
  {
    match r.fields
    case None => []
    case Some(buffer) => buffer
  }

  /**
   * `cls(id)`: `__init__` only delegates the id to `Entity`, so no buffer
   * exists yet; Python refuses the class itself, whose `__eq__` is abstract.
   */
  function New(cls: Class, id: Option<Uuid>, generated: Uuid): (r: Result<LazyRoot>)
    requires IsInstance(cls, Entities.EntityClass)
    ensures r.Ok? <==> Instantiable(cls)
    ensures r.Ok? ==> r.value.fields.None? && GetDomainEvents(r.value) == []
    ensures r.Ok? && id.Some? ==> r.value.id == id.value
    ensures r.Ok? && id.None? ==> r.value.id == generated
  {
    Entities.New(cls, id, generated, None)
  }

  /**
   * The class as written cannot be instantiated; a subclass must supply
   * `__eq__`, and then its instances are hashable only if it restates
   * `__hash__` as well.
   */
  lemma RootClassIsAbstract(id: Option<Uuid>, generated: Uuid)
    ensures IsInstance(LazyRootClass, Entities.EntityClass) && Hashable(LazyRootClass)
    ensures New(LazyRootClass, id, generated).Err?
    ensures forall name, defines :: name != "AggregateRoot" && name != "Entity" && name != "ABC" ==>
              (Instantiable(Subclass(name, LazyRootClass, defines)) <==> "__eq__" in defines)
    ensures forall name, defines :: name != "AggregateRoot" && name != "Entity" && name != "ABC" ==>
              (Instantiable(Subclass(name, LazyRootClass, defines)) ==>
                 (Hashable(Subclass(name, LazyRootClass, defines)) <==> "__hash__" in defines))
  {
    assert "__eq__" in LazyRootClass.abstractMethods;
  }

  /** `add_domain_event(event)`: creates the buffer on first use, then appends. */
  function AddDomainEvent(r: LazyRoot, event: DomainEvent): (r': LazyRoot)
    ensures GetDomainEvents(r') == GetDomainEvents(r) + [event]
    ensures r'.fields.Some?
    ensures r'.id == r.id && r'.cls == r.cls
  {
    var buffer := if r.fields.None? then [] else r.fields.value;
    r.(fields := Some(buffer + [event]))
  }

  /** `clear_domain_events()`: replaces the buffer by a new empty one. */
  function ClearDomainEvents(r: LazyRoot): (r': LazyRoot)
    ensures GetDomainEvents(r') == []
    ensures r'.fields.Some?
    ensures r'.id == r.id && r'.cls == r.cls
  {
    r.(fields := Some([]))
  }

  /** Clearing twice leaves the root as clearing once does. */
  lemma ClearIsIdempotent(r: LazyRoot)
    ensures ClearDomainEvents(ClearDomainEvents(r)) == ClearDomainEvents(r)
  {
  }

  function Step(r: LazyRoot, op: EventOp<DomainEvent>): (r': LazyRoot) {
    match op
    case Record(e) => AddDomainEvent(r, e)
    case Clear => ClearDomainEvents(r)
  }

  /** The calls in `ops` made in order, first to last. */
  function Replay(r: LazyRoot, ops: seq<EventOp<DomainEvent>>): (r': LazyRoot)
    decreases |ops|
  {
    if |ops| == 0 then r else Step(Replay(r, ops[..|ops| - 1]), ops[|ops| - 1])
  }

  /**
   * After any history of calls `get_domain_events` returns exactly the
   * pending events of that history, and the id, class, equality and hash of
   * the root (or the error `hash` raises) are those it started with.
   */
  lemma {:induction false} ReplayYieldsPending(r: LazyRoot, ops: seq<EventOp<DomainEvent>>, h: Uuid -> int)
    ensures GetDomainEvents(Replay(r, ops)) == Pending(GetDomainEvents(r), ops)
    ensures Replay(r, ops).id == r.id && Replay(r, ops).cls == r.cls
    ensures Entities.Eq(Replay(r, ops), Instance(r)) && Entities.Eq(r, Instance(Replay(r, ops)))
    ensures Entities.Hash(Replay(r, ops), h) == Entities.Hash(r, h)
    decreases |ops|
  {
    if |ops| == 0 {
      assert ops[0..] == ops;
    } else {
      ReplayYieldsPending(r, ops[..|ops| - 1], h);
      PendingStep(GetDomainEvents(r), ops);
    }
  }

  /**
   * Both aggregate-root variants, started fresh and given the same history of
   * calls, expose the same events in the same order.
   */
  lemma VariantsAgree(lazy: LazyRoot, eager: AggregateRoots.AggregateRoot, ops: seq<EventOp<DomainEvent>>)
    requires lazy.fields.None? && eager.domainEvents == []
    ensures GetDomainEvents(Replay(lazy, ops)) == AggregateRoots.Replay(eager, ops).domainEvents
  {
    ReplayYieldsPending(lazy, ops, (u: Uuid) => 0);
    AggregateRoots.ReplayYieldsPending(eager, ops);
  }
}
