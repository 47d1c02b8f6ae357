/**
 * The Specification pattern: a tree of leaf predicates combined with `&`, `|`
 * and `~`. Evaluation follows Python's `and`, `or` and `not`, left to right
 * and short-circuiting, so the order in which leaves are consulted is part of
 * the result.
 *
 * A leaf is named by a value of type `L`; what it answers for a candidate is
 * supplied by an oracle `sat`: some Python value, or an exception, which
 * aborts the whole evaluation as in Python.
 */
module Specifications {

  /** `AndSpecification(first, second)`, `OrSpecification(first, second)`, `NotSpecification(specification)`. */
  datatype Spec<L> =
    | Leaf(rule: L)
    | And(first: Spec<L>, second: Spec<L>)
    | Or(first: Spec<L>, second: Spec<L>)
    | Not(specification: Spec<L>)

  /**
   * A Python value a leaf may return. `is_satisfied_by` is annotated `-> bool`,
   * but nothing enforces it: a leaf may return any object, and `and`/`or` pass
   * the deciding operand through unchanged. Such an object is kept opaque
   * together with its truthiness, what `bool(obj)` gives.
   */
  datatype Value<V> = PyBool(b: bool) | Object(obj: V, truthy: bool)

  /** `bool(v)`. */
  function Truthy<V>(v: Value<V>): (b: bool) {
    match v
    case PyBool(b) => b
    case Object(_, t) => t
  }

  /** What one `is_satisfied_by` call does: return a value, or raise. */
  datatype Answer<V> = Returned(value: Value<V>) | Raised

  /** The call returned a truthy value: `and` goes on to its second operand. */
  predicate ReturnedTruthy<V>(a: Answer<V>) {
    a.Returned? && Truthy(a.value)
  }

  /** The call returned a falsy value: `or` goes on to its second operand. */
  predicate ReturnedFalsy<V>(a: Answer<V>) {
    a.Returned? && !Truthy(a.value)
  }

  /** The answer of an evaluation together with the leaves it consulted, in order. */
  datatype Evaluation<L, V> = Evaluation(answer: Answer<V>, consulted: seq<L>)
  /** Number of nodes in the tree. */
  function Size<L>(s: Spec<L>): (n: nat)
    ensures n >= 1
  {
    match s
    case Leaf(_) => 1
    case And(a, b) => 1 + Size(a) + Size(b)
    case Or(a, b) => 1 + Size(a) + Size(b)
    case Not(a) => 1 + Size(a)
  }

  /** The leaves of the tree from left to right. */
  function Leaves<L>(s: Spec<L>): (ls: seq<L>)
    ensures |ls| >= 1
  {
    match s
    case Leaf(l) => [l]
    case And(a, b) => Leaves(a) + Leaves(b)
    case Or(a, b) => Leaves(a) + Leaves(b)
    case Not(a) => Leaves(a)
  }

  /** `a & b`: a new And node over the two operands, which are left as they are. */
  function Conjoin<L>(a: Spec<L>, b: Spec<L>): (r: Spec<L>)
    ensures r.And? && r.first == a && r.second == b
    ensures Size(r) == Size(a) + Size(b) + 1
    ensures Leaves(r) == Leaves(a) + Leaves(b)
  {
    And(a, b)
  }

  /** `a | b`: a new Or node over the two operands, which are left as they are. */
  function Disjoin<L>(a: Spec<L>, b: Spec<L>): (r: Spec<L>)
    ensures r.Or? && r.first == a && r.second == b
    ensures Size(r) == Size(a) + Size(b) + 1
    ensures Leaves(r) == Leaves(a) + Leaves(b)
  {
    Or(a, b)
  }

  /** `~a`: a new Not node wrapping the operand. */
  function Negate<L>(a: Spec<L>): (r: Spec<L>)
    ensures r.Not? && r.specification == a
    ensures Size(r) == Size(a) + 1
    ensures Leaves(r) == Leaves(a)
  {
    Not(a)
  }

  /** `not v`: always a `bool`; an exception passes through. */
  function NegateAnswer<V>(a: Answer<V>): (r: Answer<V>)
    ensures r.Raised? <==> a.Raised?
    ensures a.Returned? ==> r.value.PyBool? && r.value.b == !Truthy(a.value)
  {
    match a
    case Returned(v) => Returned(PyBool(!Truthy(v)))
    case Raised => Raised
  }

  /**
   * `s.is_satisfied_by(x)`. An And node consults `second` only when `first`
   * returned something truthy, an Or node only when `first` returned something
   * falsy; otherwise the answer of `first` is the answer of the node, whatever
   * object it is. An exception stops the evaluation where it happens.
   */
  function Evaluate<L, T, V>(s: Spec<L>, sat: (L, T) -> Answer<V>, x: T): (e: Evaluation<L, V>)
    ensures 1 <= |e.consulted| <= |Leaves(s)|
    ensures e.consulted[0] == Leaves(s)[0]
  {
    match s
    case Leaf(l) => Evaluation(sat(l, x), [l])
    case And(a, b) =>
      var ea := Evaluate(a, sat, x);
      if !ReturnedTruthy(ea.answer) then ea
      else
        var eb := Evaluate(b, sat, x);
        Evaluation(eb.answer, ea.consulted + eb.consulted)
    case Or(a, b) =>
      var ea := Evaluate(a, sat, x);
      if !ReturnedFalsy(ea.answer) then ea
      else
        var eb := Evaluate(b, sat, x);
        Evaluation(eb.answer, ea.consulted + eb.consulted)
    case Not(a) =>
      var ea := Evaluate(a, sat, x);
      Evaluation(NegateAnswer(ea.answer), ea.consulted)
  }

  /** The boolean meaning of a tree, given the truthiness of each leaf. */
  function Holds<L, T>(s: Spec<L>, holds: (L, T) -> bool, x: T): (b: bool) {
    match s
    case Leaf(l) => holds(l, x)
    case And(a, b) => Holds(a, holds, x) && Holds(b, holds, x)
    case Or(a, b) => Holds(a, holds, x) || Holds(b, holds, x)
    case Not(a) => !Holds(a, holds, x)
  }

  /** Every leaf of `s` returns on `x`, and what it returns has the truthiness `holds` gives it. */
  predicate LeavesReturn<L, T, V>(s: Spec<L>, sat: (L, T) -> Answer<V>, holds: (L, T) -> bool, x: T) {
    forall i :: 0 <= i < |Leaves(s)| ==>
      sat(Leaves(s)[i], x).Returned? && Truthy(sat(Leaves(s)[i], x).value) == holds(Leaves(s)[i], x)
  }

  /** Every leaf of `s` returns an actual `bool` on `x`, as its annotation says. */
  predicate LeavesReturnBools<L, T, V>(s: Spec<L>, sat: (L, T) -> Answer<V>, x: T) {
    forall i :: 0 <= i < |Leaves(s)| ==> sat(Leaves(s)[i], x).Returned? && sat(Leaves(s)[i], x).value.PyBool?
  }

  /**
   * When no leaf raises, a tree of any depth returns a value whose truthiness
   * is the one boolean algebra gives; when every leaf returns a `bool`, the
   * tree returns exactly that `bool`.
   */
  lemma {:induction false} EvaluateComputesHolds<L, T, V>(s: Spec<L>, sat: (L, T) -> Answer<V>, holds: (L, T) -> bool, x: T)
    requires LeavesReturn(s, sat, holds, x)
    ensures Evaluate(s, sat, x).answer.Returned?
    ensures Truthy(Evaluate(s, sat, x).answer.value) == Holds(s, holds, x)
    ensures LeavesReturnBools(s, sat, x) ==> Evaluate(s, sat, x).answer == Returned(PyBool(Holds(s, holds, x)))
  {
    match s
    case Leaf(l) =>
      assert Leaves(s)[0] == l;
    case And(a, b) =>
      LeavesReturnSplit(s, a, b, sat, holds, x);
      EvaluateComputesHolds(a, sat, holds, x);
      EvaluateComputesHolds(b, sat, holds, x);
    case Or(a, b) =>
      LeavesReturnSplit(s, a, b, sat, holds, x);
      EvaluateComputesHolds(a, sat, holds, x);
      EvaluateComputesHolds(b, sat, holds, x);
    case Not(a) =>
      assert Leaves(s) == Leaves(a);
      EvaluateComputesHolds(a, sat, holds, x);
  }

  /** A binary node's leaves all return (and all return bools) exactly when both operands' leaves do. */
  lemma LeavesReturnSplit<L, T, V>(s: Spec<L>, a: Spec<L>, b: Spec<L>, sat: (L, T) -> Answer<V>, holds: (L, T) -> bool, x: T)
    requires Leaves(s) == Leaves(a) + Leaves(b)
    requires LeavesReturn(s, sat, holds, x)
    ensures LeavesReturn(a, sat, holds, x) && LeavesReturn(b, sat, holds, x)
    ensures LeavesReturnBools(s, sat, x) ==> LeavesReturnBools(a, sat, x) && LeavesReturnBools(b, sat, x)
  {
    var ls := Leaves(s);
    forall i | 0 <= i < |Leaves(a)|
      ensures ls[i] == Leaves(a)[i]
    {
    }
    forall i | 0 <= i < |Leaves(b)|
      ensures ls[|Leaves(a)| + i] == Leaves(b)[i]
    {
    }
  }

  /** An And node whose first operand did not return something truthy never consults its second operand. */
  lemma AndShortCircuits<L, T, V>(a: Spec<L>, b: Spec<L>, sat: (L, T) -> Answer<V>, x: T)
    ensures !ReturnedTruthy(Evaluate(a, sat, x).answer) ==> Evaluate(And(a, b), sat, x) == Evaluate(a, sat, x)
    ensures ReturnedTruthy(Evaluate(a, sat, x).answer) ==>
              Evaluate(And(a, b), sat, x)
              == Evaluation(Evaluate(b, sat, x).answer, Evaluate(a, sat, x).consulted + Evaluate(b, sat, x).consulted)
  {
  }

  /** An Or node whose first operand did not return something falsy never consults its second operand. */
  lemma OrShortCircuits<L, T, V>(a: Spec<L>, b: Spec<L>, sat: (L, T) -> Answer<V>, x: T)
    ensures !ReturnedFalsy(Evaluate(a, sat, x).answer) ==> Evaluate(Or(a, b), sat, x) == Evaluate(a, sat, x)
    ensures ReturnedFalsy(Evaluate(a, sat, x).answer) ==>
              Evaluate(Or(a, b), sat, x)
              == Evaluation(Evaluate(b, sat, x).answer, Evaluate(a, sat, x).consulted + Evaluate(b, sat, x).consulted)
  {
  }

  /** A Not node consults its child exactly once and returns the `bool` opposite to its truthiness. */
  lemma NotInverts<L, T, V>(a: Spec<L>, sat: (L, T) -> Answer<V>, x: T)
    ensures Evaluate(Not(a), sat, x).consulted == Evaluate(a, sat, x).consulted
    ensures Evaluate(a, sat, x).answer.Returned? ==>
              Evaluate(Not(a), sat, x).answer == Returned(PyBool(!Truthy(Evaluate(a, sat, x).answer.value)))
    ensures Evaluate(a, sat, x).answer == Raised ==> Evaluate(Not(a), sat, x).answer == Raised
  {
  }

  /**
   * `~~a` consults the same leaves as `a` and returns `bool` of what `a`
   * returns; so it behaves exactly like `a` whenever `a` returns a `bool` or raises.
   */
  lemma DoubleNegation<L, T, V>(a: Spec<L>, sat: (L, T) -> Answer<V>, x: T)
    ensures Evaluate(Negate(Negate(a)), sat, x).consulted == Evaluate(a, sat, x).consulted
    ensures Evaluate(a, sat, x).answer.Returned? ==>
              Evaluate(Negate(Negate(a)), sat, x).answer == Returned(PyBool(Truthy(Evaluate(a, sat, x).answer.value)))
    ensures Evaluate(a, sat, x).answer.Raised? || Evaluate(a, sat, x).answer.value.PyBool? ==>
              Evaluate(Negate(Negate(a)), sat, x) == Evaluate(a, sat, x)
  {
  }

  /** `~(a & b)` behaves like `~a | ~b`, down to the order leaves are consulted in, whatever the leaves return. */
  lemma DeMorganAnd<L, T, V>(a: Spec<L>, b: Spec<L>, sat: (L, T) -> Answer<V>, x: T)
    ensures Evaluate(Negate(Conjoin(a, b)), sat, x) == Evaluate(Disjoin(Negate(a), Negate(b)), sat, x)
  {
  }

  /** `~(a | b)` behaves like `~a & ~b`, down to the order leaves are consulted in, whatever the leaves return. */
  lemma DeMorganOr<L, T, V>(a: Spec<L>, b: Spec<L>, sat: (L, T) -> Answer<V>, x: T)
    ensures Evaluate(Negate(Disjoin(a, b)), sat, x) == Evaluate(Conjoin(Negate(a), Negate(b)), sat, x)
  {
  }

  /** `xs` can be obtained from `ys` by deleting elements. */
  predicate IsSubsequence<L(==)>(xs: seq<L>, ys: seq<L>)
    decreases |ys|
  {
    || |xs| == 0
    || (&& |ys| > 0
        && ((xs[0] == ys[0] && IsSubsequence(xs[1..], ys[1..])) || IsSubsequence(xs, ys[1..])))
  }

  lemma {:induction false} SubsequenceConcat<L>(a: seq<L>, b: seq<L>, c: seq<L>, d: seq<L>)
    requires IsSubsequence(a, b) && IsSubsequence(c, d)
    ensures IsSubsequence(a + c, b + d)
    decreases |b|
  {
    if |b| == 0 {
      assert a + c == c && b + d == d;
    } else if |a| > 0 && a[0] == b[0] && IsSubsequence(a[1..], b[1..]) {
      SubsequenceConcat(a[1..], b[1..], c, d);
      assert (a + c)[1..] == a[1..] + c && (b + d)[1..] == b[1..] + d;
    } else {
      assert IsSubsequence(a, b[1..]);
      SubsequenceConcat(a, b[1..], c, d);
      assert (b + d)[1..] == b[1..] + d;
    }
  }

  lemma {:induction false} SubsequenceReflexive<L>(xs: seq<L>)
    ensures IsSubsequence(xs, xs)
    decreases |xs|
  {
    if |xs| > 0 {
      SubsequenceReflexive(xs[1..]);
    }
  }

  /**
   * Evaluation is left to right: the leaves it consults appear in the tree's
   * left-to-right leaf order, each consulted at most once per occurrence.
   */
  lemma {:induction false} ConsultedInLeafOrder<L, T, V>(s: Spec<L>, sat: (L, T) -> Answer<V>, x: T)
    ensures IsSubsequence(Evaluate(s, sat, x).consulted, Leaves(s))
  {
    match s
    case Leaf(l) =>
      SubsequenceReflexive([l]);
    case And(a, b) =>
      ConsultedInLeafOrder(a, sat, x);
      ConsultedInLeafOrder(b, sat, x);
      var ea := Evaluate(a, sat, x);
      if !ReturnedTruthy(ea.answer) {
        var none: seq<L> := [];
        SubsequenceConcat(ea.consulted, Leaves(a), none, Leaves(b));
        assert ea.consulted + none == ea.consulted;
      } else {
        SubsequenceConcat(ea.consulted, Leaves(a), Evaluate(b, sat, x).consulted, Leaves(b));
      }
    case Or(a, b) =>
      ConsultedInLeafOrder(a, sat, x);
      ConsultedInLeafOrder(b, sat, x);
      var ea := Evaluate(a, sat, x);
      if !ReturnedFalsy(ea.answer) {
        var none: seq<L> := [];
        SubsequenceConcat(ea.consulted, Leaves(a), none, Leaves(b));
        assert ea.consulted + none == ea.consulted;
      } else {
        SubsequenceConcat(ea.consulted, Leaves(a), Evaluate(b, sat, x).consulted, Leaves(b));
      }
    case Not(a) =>
      ConsultedInLeafOrder(a, sat, x);
  }
}
