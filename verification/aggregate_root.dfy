/**
 * The dataclass `AggregateRoot` of the `flask_boilerplate` package: a public
 * `domain_events` list that starts empty (it is not a constructor argument),
 * grows by appending and is emptied only by `clear_domain_events`. Identity
 * comes from `_get_identifier()`, which the base class leaves unimplemented:
 * it raises `NotImplementedError` unless a subclass supplies it.
 *
 * The hash of a UUID is an oracle `h`.
 */
module AggregateRoots {
  import opened PyObjects
  import opened EventHistory

  /** A plain dataclass: no abstract methods, no ancestors that matter here. */
  const AggregateRootClass := Class("AggregateRoot", {}, {}, false,
                                    map m | m in {"add_domain_event", "clear_domain_events", "__eq__", "__hash__",
                                                  "_get_identifier"} :: "AggregateRoot")

  /** The class's `_get_identifier` is a subclass's own, not the base method that raises. */
  predicate ImplementsIdentifier(c: Class) {
    !ResolvesTo(c, "_get_identifier", AggregateRootClass.name)
  }

  /**
   * An instance of `AggregateRoot` or of a subclass. When the class supplies
   * its own `_get_identifier`, `identifier` is what that returns, `None` when
   * it raises `NotImplementedError` too; for a class that keeps the base
   * method the field is never consulted.
   */
  datatype AggregateRoot = AggregateRoot(cls: Class, identifier: Option<Uuid>, domainEvents: seq<DomainEvent>)

  /** `cls()`: the event list is created empty by its default factory. */
  function New(cls: Class, identifier: Option<Uuid>): (r: AggregateRoot)
    requires IsInstance(cls, AggregateRootClass)
    ensures r.domainEvents == []
    ensures r.cls == cls && r.identifier == identifier
  {
    AggregateRoot(cls, identifier, [])
  }

  /**
   * `_get_identifier()`: the base method raises `NotImplementedError`, whatever
   * the object holds; a subclass's own returns its identifier.
   */
  function GetIdentifier(r: AggregateRoot): (res: Result<Uuid>)
    ensures res.Err? <==> !ImplementsIdentifier(r.cls) || r.identifier.None?
    ensures res.Err? ==> res.error == NotImplementedError
    ensures res.Ok? ==> Some(res.value) == r.identifier
  {
    if !ImplementsIdentifier(r.cls) then Err(NotImplementedError)
    else
      match r.identifier
      case None => Err(NotImplementedError)
      case Some(u) => Ok(u)
  }

  /** The identifier `_get_identifier()` returns, or `None` when it raises. */
  function Identifier(r: AggregateRoot): (id: Option<Uuid>)
    ensures id.Some? <==> GetIdentifier(r).Ok?
    ensures id.Some? ==> id.value == GetIdentifier(r).value
  {
    if ImplementsIdentifier(r.cls) then r.identifier else None
  }

  /** `add_domain_event(event)`: appends; never deduplicates or reorders. */
  function AddDomainEvent(r: AggregateRoot, event: DomainEvent): (r': AggregateRoot)
    ensures |r'.domainEvents| == |r.domainEvents| + 1
    ensures r'.domainEvents[..|r.domainEvents|] == r.domainEvents
    ensures r'.domainEvents[|r.domainEvents|] == event
    ensures r'.cls == r.cls && r'.identifier == r.identifier
  {
    r.(domainEvents := r.domainEvents + [event])
  }

  /** `clear_domain_events()`: empties the list, which is fine when it is already empty. */
  function ClearDomainEvents(r: AggregateRoot): (r': AggregateRoot)
    ensures r'.domainEvents == []
    ensures r'.cls == r.cls && r'.identifier == r.identifier
  {
    r.(domainEvents := [])
  }

  /** Clearing twice leaves the root as clearing once does. */
  lemma ClearIsIdempotent(r: AggregateRoot)
    ensures ClearDomainEvents(ClearDomainEvents(r)) == ClearDomainEvents(r)
  {
  }

  /**
   * `__eq__`: false unless `other` is an instance of `self`'s class (a
   * subclass counts); then the two identifiers are fetched, `self`'s first,
   * and compared. Events play no part.
   */
  function Eq(self: AggregateRoot, other: Operand<AggregateRoot>): (res: Result<bool>)
    ensures other.Foreign? ==> res == Ok(false)
    ensures res == Ok(true) <==>
              other.Instance? && IsInstance(other.obj.cls, self.cls)
              && Identifier(self).Some? && Identifier(self) == Identifier(other.obj)
    ensures res.Err? <==>
              other.Instance? && IsInstance(other.obj.cls, self.cls)
              && (Identifier(self).None? || Identifier(other.obj).None?)
    ensures res.Err? ==> res.error == NotImplementedError
  {
    match other
    case Foreign => Ok(false)
    case Instance(o) =>
      if !IsInstance(o.cls, self.cls) then Ok(false)
      else
        match GetIdentifier(self)
        case Err(e) => Err(e)
        case Ok(mine) =>
          match GetIdentifier(o)
          case Err(e) => Err(e)
          case Ok(theirs) => Ok(mine == theirs)
  }

  /** `__hash__`: the hash of whatever `_get_identifier` returns, so it raises when that does. */
  function Hash(self: AggregateRoot, h: Uuid -> int): (res: Result<int>)
    ensures res.Err? <==> Identifier(self).None?
    ensures res.Err? ==> res.error == NotImplementedError
    ensures res.Ok? ==> res.value == h(Identifier(self).value)
  {
    match GetIdentifier(self)
    case Err(e) => Err(e)
    case Ok(u) => Ok(h(u))
  }

  /** Roots that compare equal hash equally, for every hash on UUIDs. */
  lemma HashConsistentWithEq(a: AggregateRoot, b: AggregateRoot, h: Uuid -> int)
    requires Eq(a, Instance(b)) == Ok(true)
    ensures Hash(a, h).Ok? && Hash(a, h) == Hash(b, h)
  {
  }

  /** Adding or clearing events changes neither equality (in either position) nor the hash. */
  lemma EventsDoNotAffectIdentity(a: AggregateRoot, event: DomainEvent, b: AggregateRoot, h: Uuid -> int)
    ensures var added := AddDomainEvent(a, event);
            && Eq(added, Instance(b)) == Eq(a, Instance(b))
            && Eq(b, Instance(added)) == Eq(b, Instance(a))
            && Hash(added, h) == Hash(a, h)
    ensures var cleared := ClearDomainEvents(a);
            && Eq(cleared, Instance(b)) == Eq(a, Instance(b))
            && Eq(b, Instance(cleared)) == Eq(b, Instance(a))
            && Hash(cleared, h) == Hash(a, h)
  {
  }

  function Step(r: AggregateRoot, op: EventOp<DomainEvent>): (r': AggregateRoot) {
    match op
    case Record(e) => AddDomainEvent(r, e)
    case Clear => ClearDomainEvents(r)
  }

  /** The calls in `ops` made in order, first to last. */
  function Replay(r: AggregateRoot, ops: seq<EventOp<DomainEvent>>): (r': AggregateRoot)
    decreases |ops|
  {
    if |ops| == 0 then r else Step(Replay(r, ops[..|ops| - 1]), ops[|ops| - 1])
  }

  /**
   * After any history of calls the event list holds exactly the pending
   * events of that history, and the root's class and identifier are unchanged.
   */
  lemma {:induction false} ReplayYieldsPending(r: AggregateRoot, ops: seq<EventOp<DomainEvent>>)
    ensures Replay(r, ops).domainEvents == Pending(r.domainEvents, ops)
    ensures Replay(r, ops).cls == r.cls && Replay(r, ops).identifier == r.identifier
    decreases |ops|
  {
    if |ops| == 0 {
      assert ops[0..] == ops;
    } else {
      ReplayYieldsPending(r, ops[..|ops| - 1]);
      PendingStep(r.domainEvents, ops);
    }
  }

  /**
   * `a == b` on two roots whose identifiers are implemented: Python tries a
   * subclass operand's `__eq__` first, and that method rejects an instance of
   * its superclass, so the operator is true exactly when both roots have the
   * very same class and the same identifier.
   */
  lemma EqualsOperatorMeansSameClassAndId(a: AggregateRoot, b: AggregateRoot, identical: bool)
    requires WellFormed(a.cls) && WellFormed(b.cls)
    requires !(a.cls.name in b.cls.ancestors && b.cls.name in a.cls.ancestors)
    requires Identifier(a).Some? && Identifier(b).Some?
    ensures EqualsOperator(a.cls, b.cls, AsAnswer(Eq(a, Instance(b))), AsAnswer(Eq(b, Instance(a))), identical)
            == Ok(a.cls == b.cls && Identifier(a) == Identifier(b))
  {
  }

  const OrderClass := Subclass("Order", AggregateRootClass, {"_get_identifier"})
  const SpecialOrderClass := Subclass("SpecialOrder", OrderClass, {})

  /**
   * The `__eq__` method alone is not symmetric: an `Order` accepts a
   * `SpecialOrder` with its identifier, but not the other way round. The `==`
   * operator, which calls the subclass's method first, is false both ways.
   */
  lemma EqMethodIsAsymmetric()
    ensures var a: AggregateRoot := New(OrderClass, Some(1));
            var b: AggregateRoot := New(SpecialOrderClass, Some(1));
            && Eq(a, Instance(b)) == Ok(true)
            && Eq(b, Instance(a)) == Ok(false)
            && EqualsOperator(a.cls, b.cls, AsAnswer(Eq(a, Instance(b))), AsAnswer(Eq(b, Instance(a))), false) == Ok(false)
            && EqualsOperator(b.cls, a.cls, AsAnswer(Eq(b, Instance(a))), AsAnswer(Eq(a, Instance(b))), false) == Ok(false)
  {
    assert "Order" !in OrderClass.ancestors;
  }

  /**
   * A root of the base class itself has no identifier, whatever it holds:
   * `_get_identifier()`, `r.__eq__(r)`, `hash(r)` and even `r == r` raise
   * `NotImplementedError`.
   */
  lemma BaseRootHasNoIdentifier(identifier: Option<Uuid>, events: seq<DomainEvent>, h: Uuid -> int)
    ensures var r := AggregateRoot(AggregateRootClass, identifier, events);
            && GetIdentifier(r) == Err(NotImplementedError)
            && Eq(r, Instance(r)) == Err(NotImplementedError)
            && Hash(r, h) == Err(NotImplementedError)
            && EqualsOperator(r.cls, r.cls, AsAnswer(Eq(r, Instance(r))), AsAnswer(Eq(r, Instance(r))), true)
               == Err(NotImplementedError)
  {
  }
}
