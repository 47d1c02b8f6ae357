/**
 * `ExampleEntity`: a plain dataclass (not an `Entity` subclass) with an `id`,
 * a `name` and a `description`. Its `__eq__` compares ids only and answers
 * `NotImplemented` for other objects; its hash is the hash of the id. The
 * update operations change one non-id field each, so the entity stays equal
 * to, and hashes like, every earlier snapshot of itself.
 */
module ExampleEntities {
  import opened PyObjects

  datatype ExampleEntity = ExampleEntity(id: Uuid, name: string, description: string)

  /** `__eq__`: id equality between example entities, `NotImplemented` for any other object. */
  function Eq(e: ExampleEntity, other: Operand<ExampleEntity>): (r: EqAnswer)
    ensures r == NotImplementedAnswer <==> other.Foreign?
    ensures other.Instance? ==> (r == Answer(true) <==> e.id == other.obj.id)
  {
    match other
    case Foreign => NotImplementedAnswer
    case Instance(o) => Answer(e.id == o.id)
  }

  /** `__hash__`: the hash of the id alone. */
  function Hash(e: ExampleEntity, h: Uuid -> int): (r: int) {
    h(e.id)
  }

  /** Equal example entities hash equally, whatever their names and descriptions. */
  lemma HashConsistentWithEq(e: ExampleEntity, f: ExampleEntity, h: Uuid -> int)
    ensures Eq(e, Instance(f)) == Answer(true) ==> Hash(e, h) == Hash(f, h)
    ensures Eq(e, Instance(e.(name := f.name, description := f.description))) == Answer(true)
  {
  }

  /** `update_name`: only the name changes. */
  function UpdateName(e: ExampleEntity, newName: string): (r: ExampleEntity)
    ensures r.name == newName
    ensures r.id == e.id && r.description == e.description
    ensures Eq(r, Instance(e)) == Answer(true)
  {
    e.(name := newName)
  }

  /** `update_description`: only the description changes. */
  function UpdateDescription(e: ExampleEntity, newDescription: string): (r: ExampleEntity)
    ensures r.description == newDescription
    ensures r.id == e.id && r.name == e.name
    ensures Eq(r, Instance(e)) == Answer(true)
  {
    e.(description := newDescription)
  }

  /** One call of an update operation. */
  datatype Update = Rename(newName: string) | Redescribe(newDescription: string)

  function Apply(e: ExampleEntity, u: Update): (r: ExampleEntity)
    ensures r.id == e.id
  {
    match u
    case Rename(n) => UpdateName(e, n)
    case Redescribe(d) => UpdateDescription(e, d)
  }

  /** The updates applied in order, first to last. */
  function ApplyAll(e: ExampleEntity, us: seq<Update>): (r: ExampleEntity)
    decreases |us|
  {
    if |us| == 0 then e else Apply(ApplyAll(e, us[..|us| - 1]), us[|us| - 1])
  }

  /** The name given by the last `Rename` in `us`, or `current` if there is none. */
  function FinalName(current: string, us: seq<Update>): (name: string)
    decreases |us|
  {
    if |us| == 0 then current
    else if us[|us| - 1].Rename? then us[|us| - 1].newName
    else FinalName(current, us[..|us| - 1])
  }

  /** The description given by the last `Redescribe` in `us`, or `current` if there is none. */
  function FinalDescription(current: string, us: seq<Update>): (description: string)
    decreases |us|
  {
    if |us| == 0 then current
    else if us[|us| - 1].Redescribe? then us[|us| - 1].newDescription
    else FinalDescription(current, us[..|us| - 1])
  }

  /**
   * After any sequence of updates the entity keeps its id, is equal (both
   * ways) to its snapshot from before the updates and hashes like it, and
   * holds the last name and last description it was given.
   */
  lemma {:induction false} UpdatesPreserveIdentity(e: ExampleEntity, us: seq<Update>, h: Uuid -> int)
    ensures ApplyAll(e, us).id == e.id
    ensures Eq(ApplyAll(e, us), Instance(e)) == Answer(true) && Eq(e, Instance(ApplyAll(e, us))) == Answer(true)
    ensures Hash(ApplyAll(e, us), h) == Hash(e, h)
    ensures ApplyAll(e, us).name == FinalName(e.name, us)
    ensures ApplyAll(e, us).description == FinalDescription(e.description, us)
    decreases |us|
  {
    if |us| > 0 {
      UpdatesPreserveIdentity(e, us[..|us| - 1], h);
    }
  }
}
