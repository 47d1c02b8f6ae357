/**
 * The `Entity` base class (identical in both packages): an object identified
 * by an `id` that is kept when supplied and generated otherwise. Equality and
 * hashing look at the `id` alone. `__eq__` is abstract, so only a subclass
 * that overrides it can be instantiated; its body is what such a subclass
 * reaches through `super()`. Overriding `__eq__` without restating
 * `__hash__` leaves the subclass with `__hash__ = None`.
 *
 * The subclass's own fields have type `F`; UUID generation is the input
 * `generated`, and the hash of a UUID is an oracle `h`.
 */
module Entities {
  import opened PyObjects

  const EntityClass := Class("Entity", {"ABC"}, {"__eq__"}, false, map m | m in {"__init__", "__eq__", "__hash__"} :: "Entity")

  /** An instance of some `Entity` subclass: its class, its `id` and its other fields. */
  datatype Entity<F> = Entity(cls: Class, id: Uuid, fields: F)

  /**
   * `cls(id, ...)`: Python refuses a class whose `__eq__` is still abstract;
   * otherwise `id or uuid.uuid4()` keeps a supplied id, and uses `generated`,
   * the UUID `uuid.uuid4()` returns, when the id is omitted.
   */
  function New<F>(cls: Class, id: Option<Uuid>, generated: Uuid, fields: F): (r: Result<Entity<F>>)
    requires IsInstance(cls, EntityClass)
    ensures r.Ok? <==> Instantiable(cls)
    ensures r.Err? ==> r.error == AbstractInstantiation(cls.name, cls.abstractMethods)
    ensures r.Ok? ==> r.value.cls == cls && r.value.fields == fields
    ensures r.Ok? && id.Some? ==> r.value.id == id.value
    ensures r.Ok? && id.None? ==> r.value.id == generated
  {
    match CheckInstantiable(cls)
    case Fail(e) => Err(e)
    case Pass => Ok(Entity(cls, if id.Some? then id.value else generated, fields))
  }

  /** A supplied id makes the generated one irrelevant. */
  lemma SuppliedIdIgnoresGenerator<F>(cls: Class, id: Uuid, generated1: Uuid, generated2: Uuid, fields: F)
    requires IsInstance(cls, EntityClass)
    ensures New(cls, Some(id), generated1, fields) == New(cls, Some(id), generated2, fields)
  {
  }

  /**
   * A direct subclass of `Entity` can be instantiated exactly when it defines
   * `__eq__`; and since a body that defines `__eq__` alone gets
   * `__hash__ = None`, such a subclass is hashable exactly when it restates
   * `__hash__` too.
   */
  lemma SubclassInstantiableIffOverridesEq(name: ClassName, defines: set<string>)
    requires name != "Entity" && name != "ABC"
    ensures Instantiable(Subclass(name, EntityClass, defines)) <==> "__eq__" in defines
    ensures Instantiable(Subclass(name, EntityClass, defines)) ==>
              (Hashable(Subclass(name, EntityClass, defines)) <==> "__hash__" in defines)
  {
    var c := Subclass(name, EntityClass, defines);
    assert "__eq__" in c.abstractMethods <==> "__eq__" !in defines;
  }

  /** `Entity.__eq__`: false for a non-entity, otherwise id equality. */
  function Eq<F>(self: Entity<F>, other: Operand<Entity<F>>): (equal: bool)
    ensures other.Foreign? ==> !equal
    ensures other.Instance? ==> (equal <==> self.id == other.obj.id)
  {
    match other
    case Foreign => false
    case Instance(o) => self.id == o.id
  }

  /**
   * `hash(self)`: `Entity.__hash__`, which hashes the id, unless the class's
   * `__hash__` is `None`, in which case `TypeError: unhashable type` is raised.
   */
  function Hash<F>(self: Entity<F>, h: Uuid -> int): (r: Result<int>)
    ensures r.Err? <==> !Hashable(self.cls)
    ensures r.Err? ==> r.error == Unhashable(self.cls.name)
    ensures r.Ok? ==> r.value == h(self.id)
  {
    if self.cls.hashIsNone then Err(Unhashable(self.cls.name)) else Ok(h(self.id))
  }

  /**
   * Entity equality is an equivalence on entities that ignores every field but
   * the id, including the entity's class, and rejects non-entities.
   */
  lemma EqIsIdentity<F>(a: Entity<F>, b: Entity<F>, c: Entity<F>, cls: Class, fields: F)
    ensures !Eq(a, Foreign)
    ensures Eq(a, Instance(b)) <==> a.id == b.id
    ensures Eq(a, Instance(a))
    ensures Eq(a, Instance(b)) ==> Eq(b, Instance(a))
    ensures Eq(a, Instance(b)) && Eq(b, Instance(c)) ==> Eq(a, Instance(c))
    ensures Eq(a, Instance(a.(cls := cls, fields := fields)))
  {
  }

  /**
   * Equal entities whose classes are hashable hash equally, for every hash on
   * UUIDs; an entity of any other class cannot be hashed at all.
   */
  lemma HashConsistentWithEq<F>(a: Entity<F>, b: Entity<F>, h: Uuid -> int)
    requires Eq(a, Instance(b))
    ensures Hashable(a.cls) && Hashable(b.cls) ==> Hash(a, h).Ok? && Hash(a, h) == Hash(b, h)
    ensures !Hashable(a.cls) ==> Hash(a, h) == Err(Unhashable(a.cls.name))
  {
  }

  /**
   * An `Entity` subclass that does what the abstract `__eq__` asks and nothing
   * more (`class User(Entity)` defining `__eq__` only) can be created, and its
   * instances cannot be hashed, although `Entity` supplies `__hash__`.
   */
  lemma ConformingSubclassIsUnhashable<F>(id: Uuid, generated: Uuid, fields: F, h: Uuid -> int)
    ensures var c := Subclass("User", EntityClass, {"__eq__"});
            && New(c, Some(id), generated, fields).Ok?
            && Hash(New(c, Some(id), generated, fields).value, h) == Err(Unhashable("User"))
  {
    SubclassInstantiableIffOverridesEq("User", {"__eq__"});
  }
}
