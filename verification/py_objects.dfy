/**
 * The small part of Python's object model that the domain primitives rely on:
 * raised errors, classes with abstract methods and `isinstance`, the
 * `NotImplemented` answer of `__eq__`, and how the `==` operator combines the
 * two operands' `__eq__` methods.
 */
module PyObjects {

  /** A universally unique identifier: a 128-bit unsigned integer. */
  type Uuid = x: int | 0 <= x < 0x1_0000_0000_0000_0000_0000_0000_0000_0000

  /** An optional argument: the source passes `None` for an omitted one. */
  datatype Option<+T> = None | Some(value: T)

  type ClassName = string

  /** The exceptions the primitives raise. */
  datatype Error =
    | ValueObjectsError(message: string)
      /** `NotImplementedError`, raised by a base method a subclass must override. */
    | NotImplementedError
      /** The `TypeError` raised when instantiating a class that still has abstract methods. */
    | AbstractInstantiation(className: ClassName, missing: set<string>)
      /** The `TypeError` `hash(obj)` raises when the class's `__hash__` is `None`. */
    | Unhashable(className: ClassName)

  /** The outcome of a call that either returns a value or raises. */
  datatype Result<+T> = Ok(value: T) | Err(error: Error)

  /** The outcome of a call that returns nothing or raises. */
  datatype Outcome = Pass | Fail(error: Error)

  /**
   * A class as far as instantiation, `isinstance`, hashing and method lookup
   * go: its name, the names of all its proper ancestors, the abstract methods
   * it has not overridden, whether its `__hash__` resolves to `None`, and for
   * each method it has, the class whose body defines the one it resolves to.
   */
  datatype Class = Class(name: ClassName, ancestors: set<ClassName>, abstractMethods: set<string>, hashIsNone: bool,
                         owners: map<string, ClassName>)

  /** `c.m` resolves to the method written in the body of class `owner`. */
  predicate ResolvesTo(c: Class, m: string, owner: ClassName) {
    m in c.owners && c.owners[m] == owner
  }

  /** `hash(obj)` works for instances of `c`. */
  predicate Hashable(c: Class) {
    !c.hashIsNone
  }

  /**
   * The names a class body binds. A body that defines `__eq__` but not
   * `__hash__` also gets `__hash__ = None`, put there by `type` itself.
   */
  function BoundNames(defines: set<string>): (names: set<string>)
    ensures defines <= names
    ensures "__hash__" in names <==> "__hash__" in defines || "__eq__" in defines
  {
    if "__eq__" in defines then defines + {"__hash__"} else defines
  }

  /** No class is its own ancestor. */
  predicate WellFormed(c: Class) {
    c.name !in c.ancestors
  }

  /**
   * `class name(parent)` whose body defines the methods in `defines`: it
   * inherits the parent's ancestry; an abstract method stops being abstract once
   * the body binds its name (`ABCMeta` looks the name up on the new class, and
   * `None` is not abstract); `__hash__` is `None` when the body defines `__eq__`
   * alone, and is inherited when the body defines neither.
   */
  function Subclass(name: ClassName, parent: Class, defines: set<string>): (c: Class)
    requires WellFormed(parent) && name != parent.name && name !in parent.ancestors
    ensures WellFormed(c)
    ensures IsInstance(c, parent) && ProperSubclass(c, parent)
    ensures forall m :: m in c.abstractMethods <==>
              m in parent.abstractMethods && m !in defines && !(m == "__hash__" && "__eq__" in defines)
    ensures c.hashIsNone <==> "__hash__" !in defines && ("__eq__" in defines || parent.hashIsNone)
    ensures forall m :: m in defines ==> ResolvesTo(c, m, name)
    ensures forall m, owner :: m !in defines ==> (ResolvesTo(c, m, owner) <==> ResolvesTo(parent, m, owner))
  {
    var hashIsNone := if "__hash__" in defines then false
                      else if "__eq__" in defines then true
                      else parent.hashIsNone;
    Class(name, parent.ancestors + {parent.name}, parent.abstractMethods - BoundNames(defines), hashIsNone,
          parent.owners + map m | m in defines :: name)
  }

  /** `isinstance(obj, c)` for an object whose class is `objClass`. */
  predicate IsInstance(objClass: Class, c: Class) {
    objClass == c || c.name in objClass.ancestors
  }

  /** `y` is a subclass of `x` other than `x` itself. */
  predicate ProperSubclass(y: Class, x: Class) {
    y != x && x.name in y.ancestors
  }

  /** Python refuses to instantiate a class that still has abstract methods. */
  predicate Instantiable(c: Class) {
    c.abstractMethods == {}
  }

  /** The check Python's `object.__new__` makes before any `__init__` runs. */
  function CheckInstantiable(c: Class): (r: Outcome)
    ensures r == Pass <==> Instantiable(c)
    ensures r.Fail? ==> r.error.AbstractInstantiation? && r.error.className == c.name
                        && r.error.missing == c.abstractMethods && r.error.missing != {}
  {
    if c.abstractMethods == {} then Pass else Fail(AbstractInstantiation(c.name, c.abstractMethods))
  }

  /** The other operand of `__eq__`: an instance of the class being compared, or any other object. */
  datatype Operand<+T> = Instance(obj: T) | Foreign

  /** What an `__eq__` method returns: a boolean, or the `NotImplemented` singleton. */
  datatype EqAnswer = Answer(equal: bool) | NotImplementedAnswer

  /**
   * The second half of `x == y`: the method tried first decides unless it
   * returns `NotImplemented`; then the other method decides unless it also
   * returns `NotImplemented`; then the operator falls back to identity.
   * An exception from the method called propagates.
   */
  function Dispatch(first: Result<EqAnswer>, second: Result<EqAnswer>, identical: bool): (r: Result<bool>)
    ensures first.Ok? && first.value.Answer? ==> r == Ok(first.value.equal)
    ensures first.Err? ==> r == Err(first.error)
    ensures first == Ok(NotImplementedAnswer) && second == Ok(NotImplementedAnswer) ==> r == Ok(identical)
  {
    match first
    case Err(e) => Err(e)
    case Ok(Answer(b)) => Ok(b)
    case Ok(NotImplementedAnswer) =>
      match second
      case Err(e) => Err(e)
      case Ok(Answer(b)) => Ok(b)
      case Ok(NotImplementedAnswer) => Ok(identical)
  }

  /**
   * `x == y` for objects of classes `xClass` and `yClass`, given what
   * `x.__eq__(y)` and `y.__eq__(x)` return. As in CPython's rich comparison,
   * the right operand's method goes first when its class is a proper subclass
   * of the left operand's class.
   */
  function EqualsOperator(xClass: Class, yClass: Class, xEq: Result<EqAnswer>, yEq: Result<EqAnswer>,
                          identical: bool): (r: Result<bool>)
    ensures ProperSubclass(yClass, xClass) && yEq.Ok? && yEq.value.Answer? ==> r == Ok(yEq.value.equal)
    ensures !ProperSubclass(yClass, xClass) && xEq.Ok? && xEq.value.Answer? ==> r == Ok(xEq.value.equal)
  {
    if ProperSubclass(yClass, xClass) then Dispatch(yEq, xEq, identical) else Dispatch(xEq, yEq, identical)
  }

  /** Lifts a boolean-returning `__eq__` into the `EqAnswer` shape the operator expects. */
  function AsAnswer(r: Result<bool>): (a: Result<EqAnswer>)
    ensures a.Ok? <==> r.Ok?
    ensures r.Ok? ==> a.value == Answer(r.value)
  {
    match r
    case Ok(b) => Ok(Answer(b))
    case Err(e) => Err(e)
  }
}
