/** Progress of the work-stealing ring (module WorkStealing): a thread left alone inside a call answers
    within a fixed number of its steps, and a call left alone from its start with what the ring holds. */
module WorkStealingAlone {
  import opened Words
  import opened WorkStealing

  function Contents(s: State): seq<Item> {
    if s.head <= |s.pushed| then s.pushed[s.head..] else []
  }

  function GrabCost(s: State, room: nat): nat {
    3 + ToGrab(room, Held(s))
  }

  /** How many steps more a thread takes to answer, if it is left alone. */
  function Effort(s: State, pc: Pc): nat {
    match pc
    case Idle => 0
    case Returned(_) => 0
    case PushFirst(_, _) => 5
    case PushSecond(_, _, _, _) => 4
    case PushTail(_) => 3
    case PushSlot(_, _) => 2
    case PushStore(_, _) => 1
    case PopHead(_) => 5
    case PopFirst(_, h) => if h == s.head then 4 else 8
    case PopSecond(_, h, _, _) => if h == s.head then 3 else 7
    case PopSlot(_, h) => if h == s.head then 2 else 6
    case PopSwing(_, h, _) => if h == s.head then 1 else 5
    case GrabHead(_, room) => 1 + GrabCost(s, room)
    case GrabFirst(_, room, h) => if h == s.head then GrabCost(s, room) else 2 * GrabCost(s, room)
    case GrabSecond(tf, room, h, seen, _) => 2 + ToGrab(room, Count(s, tf, seen)) + if h == s.head then 0 else GrabCost(s, room)
    case GrabCopy(_, room, h, count, _, out) =>
      1 + (if |out| < ToGrab(room, count) then ToGrab(room, count) - |out| else 0) +
      if h == s.head then 0 else GrabCost(s, room)
  }

  lemma EffortBound(s: State, pc: Pc)
    ensures Effort(s, pc) <= if Pushing(pc) then 5 else if Popping(pc) || pc.Idle? || pc.Returned? then 8 else 2 * pc.room + 6
  {
  }

  /** What the thread knows of the ring is still so. */
  predicate UpToDate(s: State, pc: Pc) {
    match pc
    case PushSecond(_, tf, seen, held) => seen == First(s, tf) && held == Held(s)
    case PopFirst(_, h) => h == s.head
    case PopSecond(tf, h, seen, held) => h == s.head && seen == First(s, tf) && held == Held(s)
    case PopSlot(_, h) => h == s.head
    case PopSwing(_, h, _) => h == s.head
    case GrabFirst(_, _, h) => h == s.head
    case GrabSecond(tf, _, h, seen, held) => h == s.head && seen == First(s, tf) && held == Held(s)
    case GrabCopy(_, _, h, count, _, _) => h == s.head && count == Held(s)
    case _ => true
  }

  /** The answer it is due: a push is refused by a full ring, a pop and a grab by an empty one; otherwise a
      pop takes the oldest item, and a grab as many of the oldest as there are and the buffer has room for. */
  function Due(s: State, pc: Pc): Answer {
    var items := Contents(s);
    if pc.Returned? then pc.answer
    else if pc.PushFirst? || pc.PushSecond? then
      if |items| == s.capacity then Full(s.capacity) else Accepted(pc.item)
    else if Pushing(pc) then Accepted(pc.item)
    else if Popping(pc) then
      if items == [] then NothingPopped(0) else Got([items[0]])
    else if pc.Idle? || items == [] then NothingGrabbed(!pc.Idle? && pc.tailFirst, 0)
    else GotBatch(if pc.room < |items| then items[..pc.room] else items, pc.room, s.head, s.tail)
  }

  /** What the ring holds after that answer. */
  function Left(s: State, pc: Pc): seq<Item> {
    var items, due := Contents(s), Due(s, pc);
    if pc.Returned? then items
    else match due
      case Accepted(v) => items + [v]
      case Got(_) => if items == [] then [] else items[1..]
      case GotBatch(batch, _, _, _) => if |batch| <= |items| then items[|batch|..] else []
      case _ => items
  }

  predicate Busy(pc: Pc) {
    !pc.Idle? && !pc.Returned?
  }

  /** A push does not take tail_ to 2^64. */
  predicate Room(s: State, t: nat)
    requires t < |s.threads|
  {
    Pushing(s.threads[t].pc) ==> s.tail + 1 < WORD
  }

  /** A step of thread `t`, alone. */
  ghost predicate Nearer(s: State, s': State, t: nat)
    requires t < |s.threads|
  {
    && |s'.threads| == |s.threads| && !s'.threads[t].pc.Idle? && (Pushing(s'.threads[t].pc) ==> s'.tail == s.tail)
    && (Pushing(s'.threads[t].pc) ==> Pushing(s.threads[t].pc))
    && Effort(s', s'.threads[t].pc) < Effort(s, s.threads[t].pc)
    && (UpToDate(s, s.threads[t].pc) ==>
          && UpToDate(s', s'.threads[t].pc)
          && Due(s', s'.threads[t].pc) == Due(s, s.threads[t].pc) && Left(s', s'.threads[t].pc) == Left(s, s.threads[t].pc))
  }

  lemma PushNearer(s: State, t: nat)
    requires Inv(s) && t < |s.threads| && Pushing(s.threads[t].pc) && Room(s, t)
    ensures Nearer(s, PushStep(s, t), t)
  {
    assert Remembers(s, t);
    var pc := s.threads[t].pc;
    if pc.PushSecond? {
      WrapSmall(s.tail - s.head);
    } else if pc.PushStore? {
      WrapSmall(s.tail + 1);
      assert (s.pushed + [pc.item])[s.head..] == s.pushed[s.head..] + [pc.item];
    }
  }

  lemma PopNearer(s: State, t: nat)
    requires Inv(s) && t < |s.threads| && Popping(s.threads[t].pc)
    ensures Nearer(s, PopStep(s, t), t)
  {
    assert Remembers(s, t);
    var pc := s.threads[t].pc;
    if pc.PopSlot? && pc.head == s.head {
      assert SlotOk(s, pc.head);
    } else if pc.PopSwing? && pc.head == s.head {
      WrapSmall(s.head + 1);
      assert s.pushed[s.head..][1..] == s.pushed[s.head + 1..];
    }
  }

  lemma GrabNearer(s: State, t: nat)
    requires Inv(s) && t < |s.threads| && Busy(s.threads[t].pc) && !Pushing(s.threads[t].pc) && !Popping(s.threads[t].pc)
    ensures Nearer(s, GrabStep(s, t), t)
  {
    assert Remembers(s, t);
    var pc, s' := s.threads[t].pc, GrabStep(s, t);
    if pc.GrabCopy? {
      if |pc.out| < ToGrab(pc.room, pc.count) { CopyNearer(s, s', t); } else { SwingNearer(s, s', t); }
    } else if pc.GrabSecond? {
      CountNearer(s, s', t);
    } else {
      LoadNearer(s, s', t);
    }
  }

  lemma LoadNearer(s: State, s': State, t: nat)
    requires Inv(s) && t < |s.threads| && (s.threads[t].pc.GrabHead? || s.threads[t].pc.GrabFirst?) && s' == GrabStep(s, t)
    ensures Nearer(s, s', t)
  {
    WrapSmall(s.tail - s.head);
  }

  lemma CountNearer(s: State, s': State, t: nat)
    requires Inv(s) && t < |s.threads| && s.threads[t].pc.GrabSecond? && s' == GrabStep(s, t)
    ensures Nearer(s, s', t)
  {
    WrapSmall(s.tail - s.head);
  }

  lemma CopyNearer(s: State, s': State, t: nat)
    requires Inv(s) && t < |s.threads| && s.threads[t].pc.GrabCopy? && s' == GrabStep(s, t)
    requires |s.threads[t].pc.out| < ToGrab(s.threads[t].pc.room, s.threads[t].pc.count)
    ensures Nearer(s, s', t)
  {
  }

  lemma SwingNearer(s: State, s': State, t: nat)
    requires Inv(s) && t < |s.threads| && s.threads[t].pc.GrabCopy? && s' == GrabStep(s, t)
    requires |s.threads[t].pc.out| >= ToGrab(s.threads[t].pc.room, s.threads[t].pc.count)
    ensures Nearer(s, s', t)
  {
    assert Remembers(s, t);
    var pc := s.threads[t].pc;
    if s.head == pc.head {
      WrapSmall(pc.head + |pc.out|);
      BatchIsFront(s, pc.out);
    }
  }

  lemma BatchIsFront(s: State, out: seq<Item>)
    requires Sized(s) && Batch(s, s.head, |out|, out)
    ensures |out| <= |Contents(s)| && out == Contents(s)[..|out|] && Contents(s)[|out|..] == s.pushed[s.head + |out|..]
  {
  }

  lemma OwnTick(s: State, t: nat)
    requires Inv(s) && t < |s.threads| && Busy(s.threads[t].pc) && Room(s, t)
    ensures Nearer(s, Step(s, Tick(t)), t)
  {
    if Pushing(s.threads[t].pc) {
      PushNearer(s, t);
    } else if Popping(s.threads[t].pc) {
      PopNearer(s, t);
    } else {
      GrabNearer(s, t);
    }
  }

  predicate OwnTicks(actions: seq<Action>, t: nat) {
    forall i :: 0 <= i < |actions| ==> actions[i] == Tick(t)
  }

  /** The thread has answered, and if what it knew of the ring was so, with what was due. */
  ghost predicate Answered(s: State, s': State, t: nat)
    requires t < |s.threads|
  {
    && t < |s'.threads| && s'.threads[t].pc.Returned?
    && (UpToDate(s, s.threads[t].pc) ==>
          s'.threads[t].pc.answer == Due(s, s.threads[t].pc) && Contents(s') == Left(s, s.threads[t].pc))
  }

  lemma {:induction false} AloneAnswers(s: State, t: nat, more: seq<Action>)
    requires Inv(s) && t < |s.threads| && !s.threads[t].pc.Idle? && Room(s, t)
    requires OwnTicks(more, t) && |more| >= Effort(s, s.threads[t].pc)
    ensures Answered(s, Run(s, more), t)
    decreases |more|
  {
    if more != [] {
      var s' := Step(s, Tick(t));
      if Busy(s.threads[t].pc) {
        OwnTick(s, t);
        StepInv(s, Tick(t));
      }
      AloneAnswers(s', t, more[1..]);
      AnsweredFirst(s, s', Run(s', more[1..]), t);
    }
  }

  lemma AnsweredFirst(s: State, s': State, end: State, t: nat)
    requires t < |s.threads| && (s' == s || Nearer(s, s', t)) && Answered(s', end, t)
    ensures Answered(s, end, t)
  {
  }

  /** From whatever a run has led to, a thread inside a call that is left alone answers within five of its
      steps in TryPush, eight in TryPop, and two for each place in the buffer and six more in Grab. */
  lemma AloneReturns(capacity: nat, n: nat, actions: seq<Action>, t: nat, more: seq<Action>)
    requires capacity + 1 < WORD && AllFit(Init(capacity, n), actions)
    requires var s := Run(Init(capacity, n), actions);
      && t < |s.threads| && Busy(s.threads[t].pc) && Room(s, t) && OwnTicks(more, t)
      && |more| >= if Pushing(s.threads[t].pc) then 5 else if Popping(s.threads[t].pc) then 8 else 2 * s.threads[t].pc.room + 6
    ensures var s' := Run(Run(Init(capacity, n), actions), more); t < |s'.threads| && s'.threads[t].pc.Returned?
  {
    var s := Run(Init(capacity, n), actions);
    InitKeeps(capacity, n);
    RunKeeps(Init(capacity, n), actions);
    EffortBound(s, s.threads[t].pc);
    AloneAnswers(s, t, more);
  }

  /** A call begun after any run and left alone is answered with what the ring holds: TryPush accepts its
      item unless the ring is full, TryPop takes the oldest item and Grab the oldest ones, as many as there
      are and the buffer has room for, unless there are none. */
  lemma CallAlone(capacity: nat, n: nat, actions: seq<Action>, call: Action, more: seq<Action>)
    requires capacity + 1 < WORD && AllFit(Init(capacity, n), actions)
    requires var s, t := Run(Init(capacity, n), actions), Actor(call);
      && t < |s.threads| && s.threads[t].pc.Idle? && OwnTicks(more, t)
      && !call.Tick? && !call.Collect? && (call.CallPush? ==> s.tail + 1 < WORD)
      && |more| >= if call.CallGrab? then 2 * call.room + 6 else 8
    ensures var s, t := Run(Init(capacity, n), actions), Actor(call); var s' := Step(Run(s, [call] + more), Collect(t));
      && |s'.threads| == |s.threads| && s'.threads[t].pc.Idle?
      && s'.threads[t].answers == s.threads[t].answers + [AnswerTo(call, Contents(s), s.head, capacity)]
      && Contents(s') == LeftBy(call, Contents(s), capacity)
  {
    var s, t := Run(Init(capacity, n), actions), Actor(call);
    InitKeeps(capacity, n);
    RunKeeps(Init(capacity, n), actions);
    RunShape(Init(capacity, n), actions);
    StepInv(s, call);
    RunCons(s, call, more);
    var s1 := Step(s, call);
    EffortBound(s1, s1.threads[t].pc);
    AloneAnswers(s1, t, more);
    AnswersWait(s1, t, more);
    CallAnswered(s, call, s1, Run(s1, more), t);
  }

  lemma CallAnswered(s: State, call: Action, s1: State, end: State, t: nat)
    requires Inv(s) && t == Actor(call) < |s.threads| && s.threads[t].pc.Idle? && !call.Tick? && !call.Collect?
    requires s1 == Step(s, call) && Answered(s1, end, t)
    ensures var s' := Step(end, Collect(t));
      && |s'.threads| == |end.threads| && s'.threads[t].pc.Idle?
      && s'.threads[t].answers == end.threads[t].answers + [AnswerTo(call, Contents(s), s.head, s.capacity)]
      && Contents(s') == LeftBy(call, Contents(s), s.capacity)
  {
    var items := Contents(s);
    assert Contents(s1) == items && |items| == s.tail - s.head && items[..|items|] == items;
  }

  lemma {:induction false} AnswersWait(s: State, t: nat, more: seq<Action>)
    requires t < |s.threads| && !s.threads[t].pc.Idle? && OwnTicks(more, t)
    ensures var s' := Run(s, more); |s'.threads| == |s.threads| && s'.threads[t].answers == s.threads[t].answers
    decreases |more|
  {
    if more != [] {
      TickAnswersNothing(s, t);
      AnswersWait(Step(s, Tick(t)), t, more[1..]);
    }
  }

  lemma TickAnswersNothing(s: State, t: nat)
    requires t < |s.threads| && !s.threads[t].pc.Idle?
    ensures var s' := Step(s, Tick(t));
      |s'.threads| == |s.threads| && s'.threads[t].answers == s.threads[t].answers && !s'.threads[t].pc.Idle?
  {
    if Pushing(s.threads[t].pc) {
      assert Step(s, Tick(t)) == PushStep(s, t);
    } else if Popping(s.threads[t].pc) {
      assert Step(s, Tick(t)) == PopStep(s, t);
    } else {
      assert Step(s, Tick(t)) == GrabStep(s, t);
    }
  }

  function Smaller(room: nat, count: nat): nat {
    if room < count then room else count
  }

  /** The answer to a call on a ring that holds `items`, the oldest of them at position `head`. */
  function AnswerTo(call: Action, items: seq<Item>, head: nat, capacity: nat): Answer
    requires !call.Tick? && !call.Collect?
  {
    match call
    case CallPush(v, _) => if |items| == capacity then Full(capacity) else Accepted(v)
    case CallPop(_) => if items == [] then NothingPopped(0) else Got([items[0]])
    case CallGrab(_, tf, room) =>
      if items == [] then NothingGrabbed(tf, 0)
      else GotBatch(items[..Smaller(room, |items|)], room, head, head + |items|)
  }

  /** What the ring holds after it. */
  function LeftBy(call: Action, items: seq<Item>, capacity: nat): seq<Item>
    requires !call.Tick? && !call.Collect?
  {
    match call
    case CallPush(v, _) => if |items| == capacity then items else items + [v]
    case CallPop(_) => if items == [] then items else items[1..]
    case CallGrab(_, _, room) => items[Smaller(room, |items|)..]
  }
}
