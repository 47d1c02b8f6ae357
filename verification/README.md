# DDD primitives of flask-boilerplate, modelled in Dafny

The repository is a Flask scaffold whose domain layer supplies Domain-Driven-Design
base abstractions and no business logic. This project models the parts of that
layer with precise behaviour:

- **Specifications** (`specifications.dfy`). A tree of leaf predicates combined with `&`, `|` and `~`.
  `is_satisfied_by` evaluates it left to right, short-circuiting like Python's `and`/`or`.
  An evaluation yields the answer and the leaves consulted, in order. A leaf may raise.
- **Value objects** (`value_objects.dfy`, `value_object_example.dfy`). The frozen `ValueObject` base:
  it validates in `__post_init__`, compares by attribute tuple and hashes that tuple.
  Also `ValueObjectExample`, whose blank `name` or `description` is rejected with the exact messages.
- **Entities** (`entities.dfy`, `example_entity.dfy`). The `Entity` base of both packages:
  the id is kept or generated, and equality and hash use the id alone.
  Also `ExampleEntity`, whose updates change one non-id field each.
- **Aggregate roots**. `aggregate_root.dfy` is the dataclass variant with a public event list and `_get_identifier`.
  `lazy_aggregate_root.dfy` is the `Entity` subclass whose buffer is created on first use.
  `event_history.dfy` defines directly which events an add/clear history leaves pending.
  Both variants are proved to meet that definition, so they agree with each other.
- **Python object model** (`py_objects.dfy`, `whitespace.dfy`). The Python semantics the primitives rely on:
  - raised exceptions, as a `Result`;
  - abstract methods blocking instantiation;
  - `isinstance` over a class's ancestors;
  - `NotImplemented` from `__eq__`, and how `==` combines both operands' `__eq__` (a subclass operand first);
  - the character set `str.isspace()` accepts, and `str.strip()`.

Objects are immutable datatype values, and each mutating method returns the updated object.
Three things become inputs:

- Hashing: the hash of a UUID or an attribute tuple is an oracle function parameter (`h`).
  The proved property is "equal objects hash equally for every `h`".
- UUID generation: `uuid.uuid4()` becomes the parameter `generated`.
- Leaf predicates: an oracle `sat` gives each leaf's answer on a candidate, or says that it raises.

The model follows what the code does, including where it differs from what its docstrings suggest:

- The default `ValueObject.__eq__` does not check that both operands have the same class.
  Value objects of different classes with equal attribute tuples compare equal (`ValueObjects.DefaultEqIgnoresClass`).
- `ExampleEntity` is a plain dataclass, not an `Entity` subclass.
- In the dataclass `AggregateRoot`, the `__eq__` method on its own is not symmetric between a class and its subclass.
  The `==` operator still is: it tries the subclass operand first, so it holds exactly when both roots
  have the same class and the same identifier (`AggregateRoots.EqualsOperatorMeansSameClassAndId`).
- `Entity.__hash__` hashes the id, but `Entity.__eq__` is abstract. Python gives a class body that defines
  `__eq__` without `__hash__` the binding `__hash__ = None`. So an `Entity` subclass that defines only
  `__eq__` can be created, yet hashing its instances raises `TypeError` (`Entities.ConformingSubclassIsUnhashable`).
  The same binding makes the abstract `__hash__` of `ValueObject` ineffective: defining `__eq__` and
  `_attributes` is enough to instantiate a subclass (`ValueObjects.ForgottenHashIsUnhashable`).
- `is_satisfied_by` is annotated `-> bool`, but `and`/`or` hand back whichever operand decided.
  A leaf returning some other object makes a combined specification return that object, so the model
  lets a leaf return any value and tracks its truthiness.

## Model

| member | source | states |
|---|---|---|
| Specifications.Conjoin | src/flask_boilerplate/domain/primitives/specification.py:51-60 | `a & b` is a new And node with `first = a`, `second = b`; it is one node larger than its operands together, so it never contains itself |
| Specifications.Disjoin | src/flask_boilerplate/domain/primitives/specification.py:62-71 | `a \| b` is a new Or node with `first = a`, `second = b`, strictly larger than either operand |
| Specifications.Negate | src/flask_boilerplate/domain/primitives/specification.py:73-79 | `~a` is a new Not node wrapping `a`, with the same leaves |
| Specifications.Evaluate | src/flask_boilerplate/domain/primitives/specification.py:95-152 | every evaluation consults at least one leaf and at most as many as the tree has; the first leaf consulted is the leftmost one |
| Specifications.NegateAnswer | src/flask_boilerplate/domain/primitives/specification.py:152 | `not v` always gives a `bool`, the opposite of `v`'s truthiness, and an exception passes through |
| Specifications.AndShortCircuits | src/flask_boilerplate/domain/primitives/specification.py:104 | when `first` does not return something truthy (it returns a falsy value or raises), the And node's evaluation is exactly `first`'s, that very value included, and `second` is never consulted; otherwise `second`'s answer is returned after both traces |
| Specifications.OrShortCircuits | src/flask_boilerplate/domain/primitives/specification.py:129 | when `first` does not return something falsy, the Or node's evaluation is exactly `first`'s; otherwise `second` decides |
| Specifications.NotInverts | src/flask_boilerplate/domain/primitives/specification.py:152 | a Not node consults its child exactly once, returns the `bool` opposite to a returned value's truthiness and propagates a raise |
| Specifications.EvaluateComputesHolds | src/flask_boilerplate/domain/primitives/specification.py:82-152 | when no leaf raises, a tree of any depth (recursion limit aside) returns a value whose truthiness is the boolean-algebra meaning of the tree; when every leaf returns a `bool`, the tree returns exactly that `bool` |
| Specifications.ConsultedInLeafOrder | src/flask_boilerplate/domain/primitives/specification.py:95-129 | the leaves consulted form a subsequence of the tree's left-to-right leaf order: evaluation is strictly left to right |
| Specifications.DoubleNegation | src/flask_boilerplate/domain/primitives/specification.py:135-152 | `~~a` consults the same leaves as `a` and returns `bool` of `a`'s value; it behaves exactly like `a` whenever `a` returns a `bool` or raises |
| Specifications.DeMorganAnd | src/flask_boilerplate/domain/primitives/specification.py:95-152 | `~(a & b)` and `~a \| ~b` give the same answer and consult the same leaves in the same order, whatever the leaves return and even when one raises |
| Specifications.DeMorganOr | src/flask_boilerplate/domain/primitives/specification.py:95-152 | `~(a \| b)` and `~a & ~b` give the same answer and consult the same leaves in the same order, whatever the leaves return |
| Whitespace.Strip | src/flask_boilerplate/domain/value_objects/value_object_example.py:62-64 | `str.strip()` returns a string that neither starts nor ends with whitespace and is no longer than its input |
| Whitespace.StripIsInfix | src/flask_boilerplate/domain/value_objects/value_object_example.py:62-64 | the stripped string is a contiguous slice of the input with only whitespace cut off on either side |
| Whitespace.StripEmptyIffAllSpace | src/flask_boilerplate/domain/value_objects/value_object_example.py:62-65 | `s.strip()` is empty exactly when every character of `s` is whitespace |
| ValueObjects.Construct | src/flask_boilerplate/domain/primitives/value_object.py:51-55 | construction returns an object only if the class is not abstract and the object passed `validate`; an abstract class or a validation error is raised instead |
| ValueObjects.DefaultValidate | src/flask_boilerplate/domain/primitives/value_object.py:88-95 | the default `validate` raises `ValueObjectsError("Value object attributes cannot be empty.")` exactly when the attribute tuple is empty |
| ValueObjects.SubclassInstantiableIffDefinesEqAndAttributes | src/flask_boilerplate/domain/primitives/value_object.py:57-86 | a subclass of `ValueObject` can be instantiated exactly when its body defines `__eq__` and `_attributes` (the implicit `__hash__ = None` lifts the abstract `__hash__`); it is then hashable exactly when it also defines `__hash__` |
| ValueObjects.ForgottenHashIsUnhashable | src/flask_boilerplate/domain/primitives/value_object.py:70-77 | a subclass defining `__eq__` and `_attributes` but not `__hash__` constructs successfully and is unhashable |
| ValueObjects.DefaultEqIsAttributeEquality | src/flask_boilerplate/domain/primitives/value_object.py:66-68 | the default `__eq__` is false for a non-value-object; otherwise it holds exactly when the attribute tuples are equal, and it is an equivalence |
| ValueObjects.DefaultEqIgnoresClass | src/flask_boilerplate/domain/primitives/value_object.py:66-68 | the default `__eq__` does not compare classes: equal tuples are equal across value-object classes |
| ValueObjects.DefaultHashConsistent | src/flask_boilerplate/domain/primitives/value_object.py:70-77 | default-equal value objects hash equally, for every hash on attribute tuples |
| ValueObjectExamples.AttributesDetermineValue | src/flask_boilerplate/domain/value_objects/value_object_example.py:23-30 | `_attributes()` is `(name, description)` in that order, and equal tuples mean equal value objects |
| ValueObjectExamples.Validate | src/flask_boilerplate/domain/value_objects/value_object_example.py:55-65 | `validate` passes exactly when both fields hold a non-whitespace character; an all-whitespace name fails with "Name cannot be empty." even if the description is blank too; otherwise an all-whitespace description fails with "Description cannot be empty." |
| ValueObjectExamples.Create | src/flask_boilerplate/domain/value_objects/value_object_example.py:8-21 | construction succeeds exactly when both fields hold a non-whitespace character; the object keeps the given fields and a later `validate` passes; otherwise the exact name or description error is raised, name first |
| ValueObjectExamples.Eq | src/flask_boilerplate/domain/value_objects/value_object_example.py:32-44 | `__eq__` answers `NotImplemented` exactly for non-examples; between examples it is true exactly when they are the same value |
| ValueObjectExamples.HashConsistentWithEq | src/flask_boilerplate/domain/value_objects/value_object_example.py:46-53 | `hash(v)` is the hash of `(v.name, v.description)`, and equal examples hash equally |
| ValueObjectExamples.EqualsForeignObject | src/flask_boilerplate/domain/value_objects/value_object_example.py:42-43 | `v == x` for a non-example `x` is decided by `x`'s own `__eq__`, and is `False` when that also answers `NotImplemented` |
| ValueObjectExamples.AgreesWithValueObjectBase | src/flask_boilerplate/domain/value_objects/value_object_example.py:9-53 | the example class is an instantiable `ValueObject` subclass, its tuple always passes the base's default check, and its `__eq__` agrees with the base default on examples |
| ValueObjectExamples.BlankNameScenario | tests/unit/domain/test_value_objects.py:64-72 | a name of three spaces is rejected with "Name cannot be empty." |
| ValueObjectExamples.BlankDescriptionScenario | tests/unit/domain/test_value_objects.py:75-83 | a valid name with a description of three spaces is rejected with "Description cannot be empty." |
| ValueObjectExamples.EqualFieldsScenario | tests/unit/domain/test_value_objects.py:5-20 | an example built from `"Test Value Object"`, `"This is a test value object."` keeps both fields and equals another built from them; its hash is the hash of that pair, as the test at lines 45-50 also checks |
| ValueObjectExamples.DifferentFieldsScenario | tests/unit/domain/test_value_objects.py:34-42 | examples built from the test's two different name/description pairs are both valid and not equal |
| Entities.New | src/flask_boilerplate/domain/primitives/entity.py:17-24 | construction refuses a class whose `__eq__` is still abstract; otherwise a supplied id is kept, an omitted one is replaced by the generated UUID, and the other fields are as given |
| Entities.SuppliedIdIgnoresGenerator | src/flask_boilerplate/domain/primitives/entity.py:24 | with an id supplied, the generated UUID has no influence on the result |
| Entities.SubclassInstantiableIffOverridesEq | src/flask_boilerplate/domain/primitives/entity.py:26-48 | a subclass of `Entity` can be instantiated exactly when it overrides `__eq__`; it is then hashable exactly when it restates `__hash__` too |
| Entities.EqIsIdentity | src/flask_boilerplate/domain/primitives/entity.py:37-39 | equality is false for a non-entity; between entities it is id equality, an equivalence that ignores class and every other field |
| Entities.Hash | src/flask_boilerplate/domain/primitives/entity.py:41-48 | `hash(e)` raises the unhashable `TypeError` exactly when the class's `__hash__` is `None`, and otherwise is the hash of the id |
| Entities.HashConsistentWithEq | src/flask-boilerplate/domain/primitives/entity.py:39-46 | entities that compare equal and whose classes are hashable hash equally, for every hash on UUIDs; an entity of an unhashable class raises |
| Entities.ConformingSubclassIsUnhashable | src/flask_boilerplate/domain/primitives/entity.py:26-48 | a subclass defining only `__eq__` can be created, and hashing its instances raises `TypeError` |
| ExampleEntities.Eq | src/flask_boilerplate/domain/entities/example_entity.py:36-39 | `__eq__` answers `NotImplemented` exactly for non-`ExampleEntity` objects; between example entities it is true exactly when the ids are equal |
| ExampleEntities.HashConsistentWithEq | src/flask_boilerplate/domain/entities/example_entity.py:33-34 | equal example entities hash equally, and name and description never affect equality |
| ExampleEntities.UpdateName | src/flask_boilerplate/domain/entities/example_entity.py:41-47 | `update_name` sets the name and leaves id and description alone, so the entity stays equal to its former self |
| ExampleEntities.UpdateDescription | src/flask_boilerplate/domain/entities/example_entity.py:49-55 | `update_description` sets the description and leaves id and name alone, so the entity stays equal to its former self |
| ExampleEntities.UpdatesPreserveIdentity | src/flask_boilerplate/domain/entities/example_entity.py:33-55 | after any sequence of updates the entity keeps its id, is equal both ways to its earlier snapshot, and hashes the same; it holds the last name and the last description it was given |
| EventHistory.PendingStep | src/flask_boilerplate/domain/primitives/aggregate_root.py:33-49 | the reference buffer after a history is the one after its prefix with the last call applied: append for an add, empty for a clear |
| EventHistory.PendingWithoutClear | src/flask_boilerplate/domain/primitives/aggregate_root.py:33-42 | with no clear in the history, the buffer is the initial one followed by every added event in order: nothing is deduplicated or reordered |
| AggregateRoots.New | src/flask_boilerplate/domain/primitives/aggregate_root.py:31 | a new root starts with an empty event list that is not a constructor argument |
| AggregateRoots.GetIdentifier | src/flask_boilerplate/domain/primitives/aggregate_root.py:77-86 | `_get_identifier` raises `NotImplementedError` exactly when the class's method is still the base one (whatever the object holds) or the subclass's own raises too; otherwise it returns the subclass's identifier |
| AggregateRoots.BaseRootHasNoIdentifier | src/flask_boilerplate/domain/primitives/aggregate_root.py:51-86 | for a root of the base class itself, `_get_identifier()`, `r.__eq__(r)`, `hash(r)` and `r == r` all raise `NotImplementedError` |
| AggregateRoots.AddDomainEvent | src/flask_boilerplate/domain/primitives/aggregate_root.py:33-42 | the new list is the old list, unchanged, followed by the event; class and identifier are untouched |
| AggregateRoots.ClearDomainEvents | src/flask_boilerplate/domain/primitives/aggregate_root.py:44-49 | the list becomes empty; class and identifier are untouched |
| AggregateRoots.ClearIsIdempotent | src/flask_boilerplate/domain/primitives/aggregate_root.py:44-49 | clearing an already cleared root changes nothing |
| AggregateRoots.Eq | src/flask_boilerplate/domain/primitives/aggregate_root.py:51-65 | `__eq__` is false for a non-root or an object outside `self`'s class; otherwise it raises `NotImplementedError` if either identifier is unimplemented, else compares identifiers; events play no part |
| AggregateRoots.Hash | src/flask_boilerplate/domain/primitives/aggregate_root.py:67-75 | `__hash__` raises `NotImplementedError` exactly when `_get_identifier` does, and otherwise is the hash of the identifier it returns |
| AggregateRoots.HashConsistentWithEq | src/flask_boilerplate/domain/primitives/aggregate_root.py:63-75 | roots that compare equal have a hash, and the same one |
| AggregateRoots.EventsDoNotAffectIdentity | src/flask_boilerplate/domain/primitives/aggregate_root.py:33-75 | adding or clearing events changes neither equality, on either side, nor the hash |
| AggregateRoots.ReplayYieldsPending | src/flask_boilerplate/domain/primitives/aggregate_root.py:31-49 | after any history of adds and clears the list holds exactly the events added since the last clear, in order, after the initial ones if there was no clear |
| AggregateRoots.EqualsOperatorMeansSameClassAndId | src/flask_boilerplate/domain/primitives/aggregate_root.py:51-65 | `a == b` holds exactly when both roots have the very same class and the same identifier |
| AggregateRoots.EqMethodIsAsymmetric | src/flask_boilerplate/domain/primitives/aggregate_root.py:63-65 | `Order.__eq__` accepts a `SpecialOrder` with the same identifier but not vice versa, while `==` is false both ways |
| LazyAggregateRoots.New | src/flask-boilerplate/domain/primitives/aggregate_root.py:15-22 | the id is delegated to `Entity`: kept when supplied, generated otherwise; no buffer exists and the visible events are empty |
| LazyAggregateRoots.RootClassIsAbstract | src/flask-boilerplate/domain/primitives/aggregate_root.py:3 | the class inherits the abstract `__eq__`, so it cannot be instantiated; a subclass can exactly when it overrides `__eq__`, and is then hashable exactly when it restates `__hash__` |
| LazyAggregateRoots.GetDomainEvents | src/flask-boilerplate/domain/primitives/aggregate_root.py:41-48 | reading events of a root that never had one added yields the empty sequence |
| LazyAggregateRoots.AddDomainEvent | src/flask-boilerplate/domain/primitives/aggregate_root.py:24-33 | the buffer is created on first use; the visible events become the old ones followed by the event; the id is untouched |
| LazyAggregateRoots.ClearDomainEvents | src/flask-boilerplate/domain/primitives/aggregate_root.py:35-39 | the visible events become empty; the id is untouched |
| LazyAggregateRoots.ClearIsIdempotent | src/flask-boilerplate/domain/primitives/aggregate_root.py:35-39 | clearing twice is the same as clearing once |
| LazyAggregateRoots.ReplayYieldsPending | src/flask-boilerplate/domain/primitives/aggregate_root.py:24-48 | after any history of adds and clears the visible events are exactly the pending ones; the root keeps its id, equality with its earlier self, and its hash or, for a class whose `__hash__` is `None`, the error `hash` raises |
| LazyAggregateRoots.VariantsAgree | src/flask-boilerplate/domain/primitives/aggregate_root.py:24-48 | the lazy-buffer root and the dataclass root, started fresh and given the same history, expose the same events in the same order (the events each root holds at the end, not lists a caller obtained earlier) |

## Left out

- `Repository`, `UnitOfWork` and `DomainService` in both packages: their methods are all abstract and have no behaviour.
- `DomainEvent` and `DomainEventBase` beyond their data: an event is the value `EventHistory.DomainEvent(eventName, timestamp)`, with the `datetime` as an opaque integer instant. The abstract-property machinery and the base class's `NotImplementedError` for `event_name` are left out, because the aggregate roots store events without reading them.
- The `DomainEvent` of the `flask-boilerplate` package has `get_event_name`/`get_event_data` and no timestamp. For convenience the lazy-buffer root stores the same `DomainEvent` values as the dataclass root; neither root reads them.
- The `__getattr__` lazy-import shims in the package `__init__` files: they are dynamic module loading, not domain behaviour.
- The `ValueObject` of the `flask-boilerplate` package: its equality and hash are reflective over `__dict__`, so it has no declared field set.
- Enum examples, the error classes beyond their message, the Flask app factory and the Sphinx configuration.
- The tests in `tests/unit/domain/test_entities.py` and `test_entities_init.py`: they use fields and names that the code does not define.
- Assignment to a field of a frozen dataclass, which raises `FrozenInstanceError`: datatype values cannot be assigned to, so no operation can change a value object after construction.
- Aliasing of event lists. The model has no shared mutable lists, so these differences between the two root variants are not modelled:
  - The dataclass root's public `domain_events` is the live list. `clear_domain_events` empties it in place, so a list a caller obtained earlier is emptied too.
  - The lazy root's `get_domain_events` returns the live buffer once it exists. Before the first add it returns a fresh `[]` that is never attached to the root.
  - The lazy root's `clear_domain_events` binds a new empty list, so a list obtained before the clear keeps its events.
  - `LazyAggregateRoots.VariantsAgree` compares only the events each root exposes after the history.
- Impure leaf predicates: a leaf's answer is a function of the leaf and the candidate, so asking the same leaf twice gives the same answer.
- A `__bool__` that raises or has side effects: an object a leaf returns carries a fixed truthiness.
- EvaluateComputesHolds (Specifications): does not model CPython's recursion limit. Each node adds an `is_satisfied_by` frame, so a tree nested deeper than the limit raises `RecursionError` in Python, while the model evaluates trees of every depth.
- SubclassInstantiableIffDefinesEqAndAttributes (ValueObjects): covers plain subclasses. A subclass decorated `@dataclass(frozen=True)` that defines `__eq__` without `__hash__` gets a generated field hash instead of `None`. Dataclass decorators on subclasses are not modelled.
- Hash and HashConsistentWithEq (Entities): a subclass that restates `__hash__` is assumed to restate the id hash of `Entity`. Only whether `__hash__` resolves to `None` is modelled, not a subclass's own hash body.
- ReplayYieldsPending (LazyAggregateRoots): the hash clause assumes the same id-hash as `Entities.Hash` for classes that restate `__hash__`.
- EventsDoNotAffectIdentity, Eq and Hash (AggregateRoots): subclasses are assumed to inherit the base `__eq__` and `__hash__`, as a plain subclass or one decorated `@dataclass(eq=False)` does, and `_get_identifier` is assumed not to read the event list. A subclass decorated `@dataclass` with the default `eq=True` gets a generated `__eq__` that compares every field, `domain_events` included, and `__hash__ = None`. Then adding an event changes `==` and hashing raises. That case is not modelled.
- Python truthiness in `id or uuid.uuid4()` for non-UUID ids: the id is modelled as present or absent, and UUID objects are always truthy.
- Subclasses of `ValueObjectExample` and `ExampleEntity` as operands of their `__eq__`: an operand is either an instance of the class itself or a foreign object.
