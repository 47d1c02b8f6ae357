/**
 * What an aggregate root's pending-event buffer should hold after a history
 * of `add_domain_event` and `clear_domain_events` calls, defined directly: the
 * events recorded since the last clear, preceded by the initial buffer when
 * there was no clear at all. Both aggregate-root variants are proved to
 * implement it.
 */
module EventHistory {

  /**
   * A `DomainEvent`: its `event_name` and its `timestamp` (a `datetime`, kept
   * as an opaque instant). Aggregate roots store events without looking inside.
   */
  datatype DomainEvent = DomainEvent(eventName: string, timestamp: int)

  /** One call on an aggregate root's buffer. */
  datatype EventOp<E> = Record(event: E) | Clear

  /** The events of all `Record` calls, in call order. */
  function Recorded<E>(ops: seq<EventOp<E>>): (es: seq<E>)
    ensures |es| <= |ops|
    decreases |ops|
  {
    if |ops| == 0 then []
    else
      var rest := Recorded(ops[..|ops| - 1]);
      match ops[|ops| - 1]
      case Record(e) => rest + [e]
      case Clear => rest
  }

  /** The index of the last `Clear`, or -1 when there is none. */
  function LastClear<E>(ops: seq<EventOp<E>>): (k: int)
    ensures -1 <= k < |ops|
    ensures k >= 0 ==> ops[k].Clear?
    ensures forall j :: k < j < |ops| ==> ops[j].Record?
    decreases |ops|
  {
    if |ops| == 0 then -1
    else if ops[|ops| - 1].Clear? then |ops| - 1
    else LastClear(ops[..|ops| - 1])
  }

  /** The buffer after `ops`, starting from `initial`. */
  function Pending<E>(initial: seq<E>, ops: seq<EventOp<E>>): (pending: seq<E>) {
    var k := LastClear(ops);
    (if k < 0 then initial else []) + Recorded(ops[k + 1..])
  }

  /** Recording one more event appends it to the pending events. */
  lemma {:induction false} PendingAfterRecord<E>(initial: seq<E>, ops: seq<EventOp<E>>, e: E)
    ensures Pending(initial, ops + [Record(e)]) == Pending(initial, ops) + [e]
  {
    var ops' := ops + [Record(e)];
    assert ops'[..|ops'| - 1] == ops;
    var k := LastClear(ops);
    assert LastClear(ops') == k;
    assert ops'[k + 1..][..|ops'[k + 1..]| - 1] == ops[k + 1..];
  }

  /** A clear empties the pending events, whatever came before. */
  lemma PendingAfterClear<E>(initial: seq<E>, ops: seq<EventOp<E>>)
    ensures Pending(initial, ops + [Clear]) == []
  {
    var ops' := ops + [Clear];
    assert ops'[|ops'|..] == [];
  }

  /** The effect of one call on a buffer. */
  function ApplyOp<E>(events: seq<E>, op: EventOp<E>): (events': seq<E>) {
    match op
    case Record(e) => events + [e]
    case Clear => []
  }

  /** The pending events of a history are those of its prefix with the last call applied. */
  lemma PendingStep<E>(initial: seq<E>, ops: seq<EventOp<E>>)
    requires |ops| > 0
    ensures Pending(initial, ops) == ApplyOp(Pending(initial, ops[..|ops| - 1]), ops[|ops| - 1])
  {
    var prefix := ops[..|ops| - 1];
    assert ops == prefix + [ops[|ops| - 1]];
    match ops[|ops| - 1]
    case Record(e) => PendingAfterRecord(initial, prefix, e);
    case Clear => PendingAfterClear(initial, prefix);
  }

  /** With no clear, the pending events are the initial ones followed by every recorded event. */
  lemma PendingWithoutClear<E>(initial: seq<E>, ops: seq<EventOp<E>>)
    requires forall j :: 0 <= j < |ops| ==> ops[j].Record?
    ensures Pending(initial, ops) == initial + Recorded(ops)
  {
    assert ops[0..] == ops;
  }
}
