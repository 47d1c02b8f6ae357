/**
 * `ValueObjectExample`: a frozen value object with a `name` and a
 * `description`, both required to contain a non-whitespace character. Its
 * own `__eq__` answers `NotImplemented` for anything that is not a
 * `ValueObjectExample`, and its hash is the hash of the pair
 * `(name, description)`.
 */
module ValueObjectExamples {
  import opened PyObjects
  import opened Whitespace
  import ValueObjects

  const NameEmptyMessage := "Name cannot be empty."
  const DescriptionEmptyMessage := "Description cannot be empty."

  datatype ValueObjectExample = ValueObjectExample(name: string, description: string)

  /** The class: it overrides every abstract method of `ValueObject`, and `validate` too. */
  const ExampleClass := Subclass("ValueObjectExample", ValueObjects.ValueObjectClass,
                                 {"_attributes", "__eq__", "__hash__", "validate"})

  /** `_attributes()`: the pair `(name, description)`, in that order. */
  function Attributes(v: ValueObjectExample): (string, string) {
    (v.name, v.description)
  }

  /** The pair determines the value object: nothing else is stored. */
  lemma AttributesDetermineValue(v: ValueObjectExample, w: ValueObjectExample)
    ensures Attributes(v) == Attributes(w) <==> v == w
    ensures Attributes(v).0 == v.name && Attributes(v).1 == v.description
  {
  }

  /** A field counts as blank when it is empty or nothing is left of it once whitespace is stripped. */
  predicate Blank(s: string) {
    |s| == 0 || |Strip(s)| == 0
  }

  /**
   * `validate()`: the name is checked first, so a blank name is reported even
   * when the description is blank too. Blank means made only of whitespace.
   */
  function Validate(v: ValueObjectExample): (r: Outcome)
    ensures r == Pass <==> !AllSpace(v.name) && !AllSpace(v.description)
    ensures r == Fail(ValueObjectsError(NameEmptyMessage)) <==> AllSpace(v.name)
    ensures r == Fail(ValueObjectsError(DescriptionEmptyMessage)) <==> !AllSpace(v.name) && AllSpace(v.description)
  {
    StripEmptyIffAllSpace(v.name);
    StripEmptyIffAllSpace(v.description);
    if Blank(v.name) then Fail(ValueObjectsError(NameEmptyMessage))
    else if Blank(v.description) then Fail(ValueObjectsError(DescriptionEmptyMessage))
    else Pass
  }

  /**
   * `ValueObjectExample(name=..., description=...)`: `__post_init__` runs
   * `validate`, so either a valid object with exactly the given fields comes
   * back, or the validation error is raised.
   */
  function Create(name: string, description: string): (r: Result<ValueObjectExample>)
    ensures r.Ok? <==> !AllSpace(name) && !AllSpace(description)
    ensures r.Ok? ==> r.value.name == name && r.value.description == description
    ensures r.Ok? ==> Validate(r.value) == Pass
    ensures AllSpace(name) ==> r == Err(ValueObjectsError(NameEmptyMessage))
    ensures !AllSpace(name) && AllSpace(description) ==> r == Err(ValueObjectsError(DescriptionEmptyMessage))
  {
    var v := ValueObjectExample(name, description);
    match Validate(v)
    case Pass => Ok(v)
    case Fail(e) => Err(e)
  }

  /** `__eq__`: structural equality between examples, `NotImplemented` for any other object. */
  function Eq(v: ValueObjectExample, other: Operand<ValueObjectExample>): (r: EqAnswer)
    ensures r == NotImplementedAnswer <==> other.Foreign?
    ensures other.Instance? ==> (r == Answer(true) <==> v == other.obj)
  {
    match other
    case Foreign => NotImplementedAnswer
    case Instance(w) => Answer(Attributes(v) == Attributes(w))
  }

  /** `__hash__`: the hash of the attribute pair, for a given hash on pairs. */
  function Hash(v: ValueObjectExample, h: ((string, string)) -> int): (r: int) {
    h(Attributes(v))
  }

  /** `hash(v) == hash((v.name, v.description))`, and equal examples hash equally. */
  lemma HashConsistentWithEq(v: ValueObjectExample, w: ValueObjectExample, h: ((string, string)) -> int)
    ensures Hash(v, h) == h((v.name, v.description))
    ensures Eq(v, Instance(w)) == Answer(true) ==> Hash(v, h) == Hash(w, h)
  {
  }

  /**
   * `v == x` for an object `x` that is not a `ValueObjectExample` (a string,
   * say): the example answers `NotImplemented`, so `x`'s own `__eq__` decides,
   * and when it too answers `NotImplemented` the result is `False`.
   */
  lemma EqualsForeignObject(v: ValueObjectExample, xClass: Class, reflected: Result<EqAnswer>)
    requires !ProperSubclass(xClass, ExampleClass)
    ensures reflected == Ok(NotImplementedAnswer) ==>
              EqualsOperator(ExampleClass, xClass, Ok(Eq(v, Foreign)), reflected, false) == Ok(false)
    ensures reflected.Ok? && reflected.value.Answer? ==>
              EqualsOperator(ExampleClass, xClass, Ok(Eq(v, Foreign)), reflected, false) == Ok(reflected.value.equal)
  {
  }

  /** Seen as a `ValueObject`: its class and its two-element attribute tuple. */
  function AsValueObject(v: ValueObjectExample): (o: ValueObjects.ValueObject<string>)
    ensures o.cls == ExampleClass && |o.attributes| == 2
  {
    ValueObjects.ValueObject(ExampleClass, [v.name, v.description])
  }

  /**
   * The class can be instantiated, its attribute tuple is never empty (so the
   * inherited default `validate` would accept it), and its own `__eq__` agrees
   * with the inherited default on examples.
   */
  lemma AgreesWithValueObjectBase(v: ValueObjectExample, w: ValueObjectExample)
    ensures IsInstance(ExampleClass, ValueObjects.ValueObjectClass) && Instantiable(ExampleClass) && Hashable(ExampleClass)
    ensures ValueObjects.DefaultValidate(AsValueObject(v).attributes) == Pass
    ensures Eq(v, Instance(w)) == Answer(ValueObjects.DefaultEq(AsValueObject(v), Instance(AsValueObject(w))))
  {
    ValueObjects.SubclassInstantiableIffDefinesEqAndAttributes("ValueObjectExample", {"_attributes", "__eq__", "__hash__", "validate"});
    if AsValueObject(v).attributes == AsValueObject(w).attributes {
      assert v.name == AsValueObject(v).attributes[0] == AsValueObject(w).attributes[0] == w.name;
      assert v.description == AsValueObject(v).attributes[1] == AsValueObject(w).attributes[1] == w.description;
    }
  }

  /** A blank name is reported even when a valid description is given. */
  lemma BlankNameScenario()
    ensures Create("   ", "This is a test value object.") == Err(ValueObjectsError(NameEmptyMessage))
  {
    assert AllSpace("   ");
  }

  /** A blank description after a valid name is reported with its own message. */
  lemma BlankDescriptionScenario()
    ensures Create("Test Value Object", "   ") == Err(ValueObjectsError(DescriptionEmptyMessage))
  {
    assert !IsSpace("Test Value Object"[0]);
    assert AllSpace("   ");
  }

  /** An example keeps the fields it was created with, equals another built from the same fields, and hashes like their pair. */
  lemma EqualFieldsScenario(h: ((string, string)) -> int)
    ensures Create("Test Value Object", "This is a test value object.").Ok?
    ensures var v := Create("Test Value Object", "This is a test value object.").value;
            && v.name == "Test Value Object" && v.description == "This is a test value object."
            && Eq(v, Instance(v)) == Answer(true)
            && Hash(v, h) == h(("Test Value Object", "This is a test value object."))
  {
    assert !IsSpace("Test Value Object"[0]) && !IsSpace("This is a test value object."[0]);
  }

  /** Examples built from different fields are not equal. */
  lemma DifferentFieldsScenario()
    ensures Create("Test Value Object 1", "This is a test value object 1.").Ok?
    ensures Create("Test Value Object 2", "This is a test value object 2.").Ok?
    ensures Eq(Create("Test Value Object 1", "This is a test value object 1.").value,
               Instance(Create("Test Value Object 2", "This is a test value object 2.").value)) == Answer(false)
  {
    assert !IsSpace("Test Value Object 1"[0]) && !IsSpace("This is a test value object 1."[0]);
    assert !IsSpace("Test Value Object 2"[0]) && !IsSpace("This is a test value object 2."[0]);
    assert "Test Value Object 1"[18] != "Test Value Object 2"[18];
  }
}
