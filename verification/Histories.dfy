/** Histories of concurrent pushes and pops, shared by the linked containers: what was called, what was
    answered, and the log of the instants at which calls took effect. */
module Histories {
  import opened Options

  type Item = int

  datatype Call = PushCall(value: Item) | PopCall

  datatype Answer = Done | Gave(result: Option<Item>)

  /** A call of thread `t` takes effect. */
  datatype Event = Pushed(t: nat, value: Item) | Popped(t: nat, value: Item) | SawEmpty(t: nat)

  /** The events of one thread. */
  ghost function Of(log: seq<Event>, t: nat): seq<Event> {
    if log == [] then []
    else
      var rest := Of(log[..|log| - 1], t);
      if log[|log| - 1].t == t then rest + [log[|log| - 1]] else rest
  }

  lemma OfAppend(log: seq<Event>, e: Event, t: nat)
    ensures Of(log + [e], t) == if e.t == t then Of(log, t) + [e] else Of(log, t)
  {
    assert (log + [e])[..|log|] == log;
  }

  /** Event number `lin` is the last one of thread `t`. */
  ghost predicate LastOf(log: seq<Event>, t: nat, lin: nat) {
    lin < |log| && log[lin].t == t && forall k :: lin < k < |log| ==> log[k].t != t
  }

  lemma {:induction false} LastOfOf(log: seq<Event>, t: nat, lin: nat)
    requires LastOf(log, t, lin)
    ensures Of(log, t) != [] && Of(log, t)[|Of(log, t)| - 1] == log[lin]
  {
    if lin < |log| - 1 {
      assert log[|log| - 1].t != t;
      LastOfOf(log[..|log| - 1], t, lin);
    }
  }

  /** The event is the call's own. */
  predicate Matches(c: Call, e: Event) {
    if e.Pushed? then c == PushCall(e.value) else c == PopCall
  }

  /** The event that a call with this answer must have had. */
  function EventOf(t: nat, c: Call, a: Answer): Event {
    match c
    case PushCall(v) => Pushed(t, v)
    case PopCall => if a.Gave? && a.result.Some? then Popped(t, a.result.value) else SawEmpty(t)
  }

  /** The events of thread `t` are, one by one, those of its calls, the last call possibly still
      pending; and each answer given is the one of the event of its call. */
  ghost predicate Accounted(log: seq<Event>, t: nat, calls: seq<Call>, answers: seq<Answer>, pending: bool) {
    var events := Of(log, t);
    && |answers| <= |events| == |calls| - (if pending then 1 else 0)
    && (forall k :: 0 <= k < |events| ==> events[k].t == t && Matches(calls[k], events[k]))
    && (forall k :: 0 <= k < |answers| ==> events[k] == EventOf(t, calls[k], answers[k]))
  }

  lemma AccountedOther(log: seq<Event>, e: Event, t: nat, calls: seq<Call>, answers: seq<Answer>, pending: bool)
    requires Accounted(log, t, calls, answers, pending) && e.t != t
    ensures Accounted(log + [e], t, calls, answers, pending)
  {
    OfAppend(log, e, t);
  }

  lemma AccountedCall(log: seq<Event>, t: nat, calls: seq<Call>, answers: seq<Answer>, c: Call)
    requires Accounted(log, t, calls, answers, false)
    ensures Accounted(log, t, calls + [c], answers, true)
  {
  }

  lemma AccountedEffect(log: seq<Event>, e: Event, t: nat, calls: seq<Call>, answers: seq<Answer>)
    requires Accounted(log, t, calls, answers, true) && e.t == t && Matches(calls[|calls| - 1], e)
    ensures Accounted(log + [e], t, calls, answers, false)
  {
    OfAppend(log, e, t);
  }

  lemma AccountedReturn(log: seq<Event>, t: nat, calls: seq<Call>, answers: seq<Answer>, a: Answer)
    requires Accounted(log, t, calls, answers, false) && |answers| + 1 == |calls|
    requires Of(log, t)[|answers|] == EventOf(t, calls[|answers|], a)
    ensures Accounted(log, t, calls, answers + [a], false)
  {
  }
}
