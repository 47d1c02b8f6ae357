/**
 * The `ValueObject` base class: a frozen dataclass that runs its `validate`
 * hook from `__post_init__`, compares by its attribute tuple and hashes that
 * tuple. `__eq__`, `__hash__` and `_attributes` are abstract; the bodies given
 * in the base class are what a subclass reaches through `super()`.
 *
 * Attribute values have type `A`; the hash of an attribute tuple is an oracle
 * `h`, since Python's tuple hash is not part of this model.
 */
module ValueObjects {
  import opened PyObjects

  const EmptyAttributesMessage := "Value object attributes cannot be empty."

  /** The methods `ValueObject` declares abstract. */
  const AbstractMethods: set<string> := {"__eq__", "__hash__", "_attributes"}

  const ValueObjectClass := Class("ValueObject", {"ABC"}, AbstractMethods, false,
                                     map m | m in AbstractMethods + {"__post_init__", "validate"} :: "ValueObject")

  /** An instance of some `ValueObject` subclass, with the tuple its `_attributes()` returns. */
  datatype ValueObject<A> = ValueObject(cls: Class, attributes: seq<A>)

  /** The `validate` a class runs: the inherited default, or its own override. */
  datatype Validator<!A> = DefaultValidation | Override(check: seq<A> -> Outcome)

  /** The default `validate`: an empty attribute tuple is invalid. */
  function DefaultValidate<A>(attributes: seq<A>): (r: Outcome)
    ensures r == Pass <==> |attributes| > 0
    ensures r.Fail? ==> r.error == ValueObjectsError(EmptyAttributesMessage)
  {
    if |attributes| == 0 then Fail(ValueObjectsError(EmptyAttributesMessage)) else Pass
  }

  function Validate<A>(validator: Validator<A>, attributes: seq<A>): (r: Outcome)
    ensures validator.DefaultValidation? ==> (r == Pass <==> |attributes| > 0)
  {
    match validator
    case DefaultValidation => DefaultValidate(attributes)
    case Override(check) => check(attributes)
  }

  /**
   * Calling a value-object class: Python first refuses an abstract class, then
   * `__post_init__` runs the class's `validate`, whose exception propagates.
   * So an object is returned only if it passed validation.
   */
  function Construct<A>(cls: Class, attributes: seq<A>, validator: Validator<A>): (r: Result<ValueObject<A>>)
    requires IsInstance(cls, ValueObjectClass)
    ensures r.Ok? <==> Instantiable(cls) && Validate(validator, attributes) == Pass
    ensures r.Ok? ==> r.value.cls == cls && r.value.attributes == attributes
    ensures r.Ok? ==> Validate(validator, r.value.attributes) == Pass
    ensures !Instantiable(cls) ==> r == Err(AbstractInstantiation(cls.name, cls.abstractMethods))
    ensures Instantiable(cls) && Validate(validator, attributes).Fail? ==> r == Err(Validate(validator, attributes).error)
  {
    match CheckInstantiable(cls)
    case Fail(e) => Err(e)
    case Pass =>
      match Validate(validator, attributes)
      case Fail(e) => Err(e)
      case Pass => Ok(ValueObject(cls, attributes))
  }

  /**
   * A direct subclass of `ValueObject` can be instantiated exactly when its body
   * defines `__eq__` and `_attributes`: defining `__eq__` also binds
   * `__hash__ = None`, which lifts the abstract `__hash__` without supplying a
   * hash. So an instantiable subclass is hashable exactly when it defines
   * `__hash__` as well.
   */
  lemma SubclassInstantiableIffDefinesEqAndAttributes(name: ClassName, defines: set<string>)
    requires name != "ValueObject" && name != "ABC"
    ensures Instantiable(Subclass(name, ValueObjectClass, defines)) <==> "__eq__" in defines && "_attributes" in defines
    ensures Instantiable(Subclass(name, ValueObjectClass, defines)) ==>
              (Hashable(Subclass(name, ValueObjectClass, defines)) <==> "__hash__" in defines)
  {
    var c := Subclass(name, ValueObjectClass, defines);
    if Instantiable(c) {
      assert "__eq__" !in c.abstractMethods && "_attributes" !in c.abstractMethods;
    }
  }

  /** A subclass that defines `__eq__` and `_attributes` but no `__hash__` can be created, and cannot be hashed. */
  lemma ForgottenHashIsUnhashable()
    ensures var c := Subclass("Money", ValueObjectClass, {"__eq__", "_attributes"});
            && Construct(c, [1], DefaultValidation).Ok?
            && !Hashable(c)
  {
    SubclassInstantiableIffDefinesEqAndAttributes("Money", {"__eq__", "_attributes"});
  }

  /** The default `__eq__`: any value object with the same attribute tuple is equal, whatever its class. */
  function DefaultEq<A(==)>(self: ValueObject<A>, other: Operand<ValueObject<A>>): (equal: bool)
    ensures other.Foreign? ==> !equal
  {
    match other
    case Foreign => false
    case Instance(o) => self.attributes == o.attributes
  }

  /** The default `__hash__`: the hash of the attribute tuple. */
  function DefaultHash<A>(self: ValueObject<A>, h: seq<A> -> int): (r: int) {
    h(self.attributes)
  }

  /**
   * The default equality is an equivalence on value objects, decided by the
   * attribute tuples alone, and false for anything that is not a value object.
   */
  lemma DefaultEqIsAttributeEquality<A>(a: ValueObject<A>, b: ValueObject<A>, c: ValueObject<A>)
    ensures !DefaultEq(a, Foreign)
    ensures DefaultEq(a, Instance(b)) <==> a.attributes == b.attributes
    ensures DefaultEq(a, Instance(a))
    ensures DefaultEq(a, Instance(b)) ==> DefaultEq(b, Instance(a))
    ensures DefaultEq(a, Instance(b)) && DefaultEq(b, Instance(c)) ==> DefaultEq(a, Instance(c))
  {
  }

  /** Two objects of different value-object classes with equal attributes compare equal under the default. */
  lemma DefaultEqIgnoresClass<A>(a: ValueObject<A>, cls: Class)
    ensures DefaultEq(a, Instance(a.(cls := cls)))
  {
  }

  /** Default-equal value objects hash equally, for every tuple hash. */
  lemma DefaultHashConsistent<A>(a: ValueObject<A>, b: ValueObject<A>, h: seq<A> -> int)
    requires DefaultEq(a, Instance(b))
    ensures DefaultHash(a, h) == DefaultHash(b, h)
  {
  }
}
