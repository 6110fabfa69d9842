/** The bounded work-stealing ring (tasks/lockfree/steal/work_stealing_queue.hpp).

    Thread 0 is the only one to push and pop; any thread may grab. One action is one atomic
    operation, memory is sequentially consistent. The order in which `tail_ - head_` loads its two
    operands is not fixed by the language: each call carries it as `tailFirst`. Positions are 64-bit
    words; the theorems assume fewer than 2^64 pushes. */
module WorkStealing {
  import opened Words

  type Item = int

  /** Where a thread stands. `head` is the position it last saw in head_ for its compare-and-swap,
      `seen` the first of the two loads of a count. Auxiliary: `held`, how many items the ring
      held when the count loaded head_, and `upTo`, the tail_ that the count loaded. */
  datatype Pc =
    | Idle
    | PushFirst(item: Item, tailFirst: bool)
    | PushSecond(item: Item, tailFirst: bool, seen: nat, held: nat)
    | PushTail(item: Item)                                            // read tail_ again
    | PushSlot(item: Item, tail: nat)                                 // store the item
    | PushStore(item: Item, tail: nat)                                // store tail_
    | PopHead(tailFirst: bool)                                        // read head_
    | PopFirst(tailFirst: bool, head: nat)
    | PopSecond(tailFirst: bool, head: nat, seen: nat, held: nat)
    | PopSlot(tailFirst: bool, head: nat)                             // read the item
    | PopSwing(tailFirst: bool, head: nat, item: Item)                // swing head_
    | GrabHead(tailFirst: bool, room: nat)                            // read head_
    | GrabFirst(tailFirst: bool, room: nat, head: nat)
    | GrabSecond(tailFirst: bool, room: nat, head: nat, seen: nat, held: nat)
    | GrabCopy(tailFirst: bool, room: nat, head: nat, count: nat, upTo: nat, out: seq<Item>) // copy a slot, or swing head_
    | Returned(answer: Answer)

  /** `held` tells how many items there were at the load of head_ that decided a refusal; `room` is the
      size of the caller's buffer, `from` and `upTo` what head_ and tail_ were when Grab counted. */
  datatype Answer =
    | Accepted(item: Item) | Full(held: nat)
    | Got(items: seq<Item>) | NothingPopped(held: nat)
    | GotBatch(items: seq<Item>, room: nat, from: nat, upTo: nat) | NothingGrabbed(tailFirst: bool, held: nat)

  datatype Call = PushCall(item: Item) | PopCall | GrabCall(room: nat)

  datatype Event = Pushed(t: nat, item: Item) | Took(t: nat, items: seq<Item>)

  /** `calls` and `answers` record the operations the thread has begun and what it was answered. */
  datatype Thread = Thread(pc: Pc, calls: seq<Call>, answers: seq<Answer>)

  /** Auxiliary: `pushed` all items in push order, `log` one event per operation that succeeded, and
      the histories of the threads. */
  datatype State = State(capacity: nat, buffer: seq<Item>, head: nat, tail: nat, threads: seq<Thread>,
                         pushed: seq<Item>, log: seq<Event>)

  datatype Action =
    | CallPush(item: Item, tailFirst: bool)
    | CallPop(tailFirst: bool)
    | CallGrab(t: nat, tailFirst: bool, room: nat)
    | Tick(t: nat)
    | Collect(t: nat)

  function Actor(a: Action): nat {
    if a.CallPush? || a.CallPop? then 0 else a.t
  }

  function Init(capacity: nat, n: nat): State {
    State(capacity, seq(capacity + 1, _ => 0), 0, 0, seq(n, _ => Thread(Idle, [], [])), [], [])
  }

  // --- The operations, one atomic step at a time

  function Step(s: State, a: Action): State {
    var t := Actor(a);
    if t >= |s.threads| then s else
    var pc := s.threads[t].pc;
    match a
    case CallPush(v, tf) => if pc.Idle? then Begin(s, t, PushFirst(v, tf), PushCall(v)) else s
    case CallPop(tf) => if pc.Idle? then Begin(s, t, PopHead(tf), PopCall) else s
    case CallGrab(_, tf, room) => if pc.Idle? then Begin(s, t, GrabHead(tf, room), GrabCall(room)) else s
    case Collect(_) => if pc.Returned? then Finish(s, t, pc.answer) else s
    case Tick(_) => if Pushing(pc) then PushStep(s, t) else if Popping(pc) then PopStep(s, t) else GrabStep(s, t)
  }

  predicate Pushing(pc: Pc) {
    pc.PushFirst? || pc.PushSecond? || pc.PushTail? || pc.PushSlot? || pc.PushStore?
  }

  predicate Popping(pc: Pc) {
    pc.PopHead? || pc.PopFirst? || pc.PopSecond? || pc.PopSlot? || pc.PopSwing?
  }

  function Goto(s: State, t: nat, pc: Pc): State
    requires t < |s.threads|
  {
    s.(threads := s.threads[t := s.threads[t].(pc := pc)])
  }

  function Begin(s: State, t: nat, pc: Pc, c: Call): State
    requires t < |s.threads|
  {
    s.(threads := s.threads[t := Thread(pc, s.threads[t].calls + [c], s.threads[t].answers)])
  }

  function Finish(s: State, t: nat, a: Answer): State
    requires t < |s.threads|
  {
    s.(threads := s.threads[t := Thread(Idle, s.threads[t].calls, s.threads[t].answers + [a])])
  }

  function Slots(s: State): nat {
    s.capacity + 1
  }

  function Index(s: State, p: nat): nat {
    p % Slots(s)
  }

  function Read(s: State, p: nat): Item {
    if Index(s, p) < |s.buffer| then s.buffer[Index(s, p)] else 0
  }

  function First(s: State, tailFirst: bool): nat {
    if tailFirst then s.tail else s.head
  }

  /** tail_ - head_ once the second operand has been loaded. */
  function Count(s: State, tailFirst: bool, seen: nat): nat {
    if tailFirst then Wrap(seen - s.head) else Wrap(s.tail - seen)
  }

  /** Auxiliary: the number of items held, when head_ is loaded now. */
  function Held(s: State): nat {
    if s.head <= s.tail then s.tail - s.head else 0
  }

  function HeldAt(s: State, tailFirst: bool, held: nat): nat {
    if tailFirst then Held(s) else held
  }

  function PushStep(s: State, t: nat): State
    requires t < |s.threads|
  {
    match s.threads[t].pc
    case PushFirst(v, tf) => Goto(s, t, PushSecond(v, tf, First(s, tf), Held(s)))
    case PushSecond(v, tf, seen, held) =>
      if Count(s, tf, seen) == s.capacity then Goto(s, t, Returned(Full(HeldAt(s, tf, held)))) else Goto(s, t, PushTail(v))
    case PushTail(v) => Goto(s, t, PushSlot(v, s.tail))
    case PushSlot(v, tail) =>
      Goto(if Index(s, tail) < |s.buffer| then s.(buffer := s.buffer[Index(s, tail) := v]) else s, t, PushStore(v, tail))
    case PushStore(v, tail) =>
      Goto(s.(tail := Wrap(tail + 1), pushed := s.pushed + [v], log := s.log + [Pushed(t, v)]), t, Returned(Accepted(v)))
    case _ => s
  }

  function PopStep(s: State, t: nat): State
    requires t < |s.threads|
  {
    match s.threads[t].pc
    case PopHead(tf) => Goto(s, t, PopFirst(tf, s.head))
    case PopFirst(tf, h) => Goto(s, t, PopSecond(tf, h, First(s, tf), Held(s)))
    case PopSecond(tf, h, seen, held) =>
      if seen == First(s, !tf) then Goto(s, t, Returned(NothingPopped(HeldAt(s, tf, held)))) else Goto(s, t, PopSlot(tf, h))
    case PopSlot(tf, h) => Goto(s, t, PopSwing(tf, h, Read(s, h)))
    case PopSwing(tf, h, v) =>
      if s.head == h then Goto(Take(s, t, h, [v]), t, Returned(Got([v]))) else Goto(s, t, PopFirst(tf, s.head))
    case _ => s
  }

  function GrabStep(s: State, t: nat): State
    requires t < |s.threads|
  {
    match s.threads[t].pc
    case GrabHead(tf, room) => Goto(s, t, GrabFirst(tf, room, s.head))
    case GrabFirst(tf, room, h) => Goto(s, t, GrabSecond(tf, room, h, First(s, tf), Held(s)))
    case GrabSecond(tf, room, h, seen, held) =>
      var count := Count(s, tf, seen);
      if count == 0 then Goto(s, t, Returned(NothingGrabbed(tf, HeldAt(s, tf, held))))
      else Goto(s, t, GrabCopy(tf, room, h, count, if tf then seen else s.tail, []))
    case GrabCopy(tf, room, h, count, upTo, out) =>
      if |out| < ToGrab(room, count) then Goto(s, t, GrabCopy(tf, room, h, count, upTo, out + [Read(s, Wrap(h + |out|))]))
      else if s.head == h
      then Goto(Take(s, t, Wrap(h + ToGrab(room, count)) - 1, out), t, Returned(GotBatch(out, room, h, upTo)))
      else Goto(s, t, GrabFirst(tf, room, s.head))
    case _ => s
  }

  function ToGrab(room: nat, count: nat): nat {
    if room < count then room else count
  }

  /** head_ moves behind position `last`: the linearization point of TryPop and of Grab. */
  function Take(s: State, t: nat, last: int, items: seq<Item>): State {
    s.(head := Wrap(last + 1), log := s.log + [Took(t, items)])
  }

  function Run(s: State, actions: seq<Action>): State
    decreases |actions|
  {
    if actions == [] then s else Run(Step(s, actions[0]), actions[1..])
  }

  /** A push moves tail_ only while it stays below 2^64. */
  predicate Fits(s: State, a: Action) {
    a.Tick? && a.t < |s.threads| && s.threads[a.t].pc.PushStore? ==> s.tail + 1 < WORD
  }

  predicate AllFit(s: State, actions: seq<Action>)
    decreases |actions|
  {
    actions == [] || (Fits(s, actions[0]) && AllFit(Step(s, actions[0]), actions[1..]))
  }

  // --- The invariant

  ghost predicate Sized(s: State) {
    && |s.buffer| == Slots(s) && |s.pushed| == s.tail
    && s.head <= s.tail <= s.head + s.capacity && s.tail < WORD && s.capacity + 1 < WORD
  }

  /** The slot of every position between head_ and tail_ holds the item pushed there. */
  ghost predicate SlotOk(s: State, p: nat)
    requires |s.pushed| == s.tail
  {
    s.head <= p < s.tail ==> Read(s, p) == s.pushed[p]
  }

  ghost predicate Filled(s: State)
    requires |s.pushed| == s.tail
  {
    forall p: nat :: p < s.tail ==> SlotOk(s, p)
  }

  ghost predicate OwnerOnly(pc: Pc, t: nat) {
    Pushing(pc) || Popping(pc) ==> t == 0
  }

  ghost predicate PushKnows(s: State, pc: Pc)
    requires Sized(s) && Pushing(pc)
  {
    match pc
    case PushFirst(_, _) => true
    case PushSecond(_, tf, seen, held) => if tf then seen == s.tail else seen <= s.head && held == s.tail - seen && held <= s.capacity
    case PushTail(_) => s.tail - s.head < s.capacity
    case PushSlot(_, tail) => tail == s.tail && s.tail - s.head < s.capacity
    case PushStore(v, tail) => tail == s.tail && s.tail - s.head < s.capacity && Read(s, tail) == v
  }

  ghost predicate PopKnows(s: State, pc: Pc)
    requires Sized(s) && Popping(pc)
  {
    match pc
    case PopHead(_) => true
    case PopFirst(_, h) => h <= s.head
    case PopSecond(tf, h, seen, held) =>
      h <= s.head && (if tf then seen == s.tail else h <= seen <= s.head && held == s.tail - seen)
    case PopSlot(_, h) => h <= s.head && h < s.tail
    case PopSwing(_, h, v) => h <= s.head && h < s.tail && (h == s.head ==> v == s.pushed[h])
  }

  /** As long as head_ is still the one first seen, the batch copied so far is the oldest items. */
  ghost predicate GrabKnows(s: State, pc: Pc)
    requires Sized(s) && !Pushing(pc) && !Popping(pc)
  {
    match pc
    case GrabFirst(_, _, h) => h <= s.head
    case GrabSecond(tf, _, h, seen, held) =>
      h <= s.head && h <= seen && (if tf then seen <= s.tail else seen <= s.head && seen + held <= s.tail)
    case GrabCopy(_, room, h, count, upTo, out) =>
      && h <= s.head && |out| <= ToGrab(room, count) && count > 0
      && (h == s.head ==> h + count == upTo <= s.tail && Batch(s, h, ToGrab(room, count), out))
    case _ => true
  }

  ghost predicate Batch(s: State, h: nat, want: nat, out: seq<Item>)
    requires Sized(s)
  {
    h + want <= s.tail && |out| <= want && forall i :: 0 <= i < |out| ==> out[i] == s.pushed[h + i]
  }

  /** What an answer is worth. */
  predicate AnswerOk(capacity: nat, answer: Answer) {
    match answer
    case Accepted(_) => true
    case Full(held) => held == capacity
    case Got(items) => |items| == 1
    case GotBatch(items, room, from, upTo) =>
      && from < upTo <= from + capacity && |items| <= room && |items| <= upTo - from
      && (|items| == room || |items| == upTo - from)
    case NothingPopped(held) => held == 0
    case NothingGrabbed(tf, held) => !tf ==> held == 0
  }

  ghost predicate Remembers(s: State, t: nat)
    requires Sized(s) && t < |s.threads|
  {
    var pc := s.threads[t].pc;
    && OwnerOnly(pc, t)
    && (if Pushing(pc) then PushKnows(s, pc) else if Popping(pc) then PopKnows(s, pc) else GrabKnows(s, pc))
    && (pc.Returned? ==> AnswerOk(s.capacity, pc.answer))
  }

  ghost predicate Inv(s: State) {
    && Sized(s) && Filled(s)
    && forall t :: 0 <= t < |s.threads| ==> Remembers(s, t)
  }

  // --- Every step keeps the invariant

  /** What a step of thread `t` may change: positions only grow, items stay, and only the owner writes
      slots and tail_. */
  ghost predicate Advances(s: State, s': State, t: nat) {
    && s'.capacity == s.capacity && s.head <= s'.head && s.tail <= s'.tail
    && |s.pushed| <= |s'.pushed| && (forall p :: 0 <= p < |s.pushed| ==> s'.pushed[p] == s.pushed[p])
    && (t != 0 ==> s'.tail == s.tail && s'.buffer == s.buffer)
  }

  lemma BatchKept(s: State, s': State, t: nat, h: nat, want: nat, out: seq<Item>)
    requires Sized(s) && Sized(s') && Advances(s, s', t) && Batch(s, h, want, out)
    ensures Batch(s', h, want, out)
  {
  }

  lemma OtherRemembers(s: State, s': State, t: nat, u: nat)
    requires Sized(s) && Sized(s') && Advances(s, s', t)
    requires u < |s.threads| && u < |s'.threads| && u != t && s'.threads[u] == s.threads[u] && Remembers(s, u)
    ensures Remembers(s', u)
  {
    var pc := s.threads[u].pc;
    if Pushing(pc) {
      assert PushKnows(s', pc);
    } else if Popping(pc) {
      assert PopKnows(s', pc);
    } else if pc.GrabCopy? && pc.head == s'.head {
      BatchKept(s, s', t, pc.head, ToGrab(pc.room, pc.count), pc.out);
    }
  }

  lemma OthersRemember(s: State, s': State, t: nat)
    requires Inv(s) && Sized(s') && Filled(s') && Advances(s, s', t)
    requires t < |s.threads| == |s'.threads| && Remembers(s', t)
    requires forall u :: 0 <= u < |s.threads| && u != t ==> s'.threads[u] == s.threads[u]
    ensures Inv(s')
  {
    forall u | 0 <= u < |s'.threads| ensures Remembers(s', u) {
      if u != t { OtherRemembers(s, s', t, u); }
    }
  }

  lemma Multiples(n: nat, k: int)
    ensures if k <= 0 then n * k <= 0 else n * k >= n
  {
  }

  lemma Divide(n: nat, slots: nat)
    requires slots > 0
    ensures n == slots * (n / slots) + n % slots
  {
  }

  lemma Distribute(n: int, a: int, b: int)
    ensures n * (b - a) == n * b - n * a
  {
  }

  /** Two positions less than a lap apart have different slots. */
  lemma SlotsDiffer(p: nat, q: nat, slots: nat)
    requires p < q < p + slots
    ensures p % slots != q % slots
  {
    var a, b := p / slots, q / slots;
    Divide(p, slots);
    Divide(q, slots);
    Distribute(slots, a, b);
    Multiples(slots, b - a);
  }

  /** Only the thread's own record changes. */
  ghost predicate OnlyThread(s: State, s': State, t: nat) {
    && s'.capacity == s.capacity && s'.buffer == s.buffer && s'.head == s.head && s'.tail == s.tail
    && s'.pushed == s.pushed && s'.log == s.log && |s'.threads| == |s.threads|
    && forall u :: 0 <= u < |s.threads| && u != t ==> s'.threads[u] == s.threads[u]
  }

  lemma MoveInv(s: State, s': State, t: nat)
    requires Inv(s) && t < |s.threads| && OnlyThread(s, s', t)
    requires Remembers(s', t)
    ensures Inv(s')
  {
    forall p: nat | p < s'.tail ensures SlotOk(s', p) { assert SlotOk(s, p); }
    OthersRemember(s, s', t);
  }

  lemma SlotInv(s: State, t: nat)
    requires Inv(s) && t < |s.threads| && s.threads[t].pc.PushSlot?
    ensures Inv(PushStep(s, t))
  {
    assert Remembers(s, t);
    var tail := s.threads[t].pc.tail;
    var s' := PushStep(s, t);
    forall p: nat | p < s'.tail ensures SlotOk(s', p) {
      assert SlotOk(s, p);
      if s.head <= p { SlotsDiffer(p, tail, Slots(s)); }
    }
    OthersRemember(s, s', t);
  }

  lemma StoreInv(s: State, t: nat)
    requires Inv(s) && t < |s.threads| && s.threads[t].pc.PushStore? && s.tail + 1 < WORD
    ensures Inv(PushStep(s, t))
  {
    assert Remembers(s, t);
    var s' := PushStep(s, t);
    WrapSmall(s.tail + 1);
    forall p: nat | p < s'.tail ensures SlotOk(s', p) {
      if p < s.tail { assert SlotOk(s, p); }
    }
    OthersRemember(s, s', t);
  }

  lemma PushStepInv(s: State, t: nat)
    requires Inv(s) && t < |s.threads| && Pushing(s.threads[t].pc)
    requires s.threads[t].pc.PushStore? ==> s.tail + 1 < WORD
    ensures Inv(PushStep(s, t))
  {
    assert Remembers(s, t);
    var pc := s.threads[t].pc;
    if pc.PushSlot? {
      SlotInv(s, t);
    } else if pc.PushStore? {
      StoreInv(s, t);
    } else if pc.PushSecond? {
      PushSecondInv(s, t);
    } else {
      MoveInv(s, PushStep(s, t), t);
    }
  }

  lemma PushSecondInv(s: State, t: nat)
    requires Inv(s) && t < |s.threads| && s.threads[t].pc.PushSecond?
    ensures Inv(PushStep(s, t))
  {
    assert Remembers(s, t);
    var seen := s.threads[t].pc.seen;
    if s.threads[t].pc.tailFirst { WrapSmall(seen - s.head); } else { WrapSmall(s.tail - seen); }
    MoveInv(s, PushStep(s, t), t);
  }

  /** Moving head_ over the oldest `n` items. */
  lemma TakeInv(s: State, s': State, t: nat, n: nat)
    requires Inv(s) && t < |s.threads| == |s'.threads| && n <= s.tail - s.head
    requires s'.(threads := s.threads, log := s.log) == s.(head := s.head + n)
    requires forall u :: 0 <= u < |s.threads| && u != t ==> s'.threads[u] == s.threads[u]
    requires s'.threads[t].pc.Returned? && AnswerOk(s.capacity, s'.threads[t].pc.answer)
    ensures Inv(s')
  {
    forall p: nat | p < s'.tail ensures SlotOk(s', p) { assert SlotOk(s, p); }
    OthersRemember(s, s', t);
  }

  lemma PopStepInv(s: State, t: nat)
    requires Inv(s) && t < |s.threads| && Popping(s.threads[t].pc)
    ensures Inv(PopStep(s, t))
  {
    assert Remembers(s, t);
    var pc := s.threads[t].pc;
    if pc.PopSwing? && s.head == pc.head {
      WrapSmall(s.head + 1);
      TakeInv(s, PopStep(s, t), t, 1);
    } else {
      if pc.PopSlot? && s.head == pc.head { assert SlotOk(s, pc.head); }
      MoveInv(s, PopStep(s, t), t);
    }
  }

  lemma GrabStepInv(s: State, t: nat)
    requires Inv(s) && t < |s.threads| && !Pushing(s.threads[t].pc) && !Popping(s.threads[t].pc)
    ensures Inv(GrabStep(s, t))
  {
    assert Remembers(s, t);
    var pc := s.threads[t].pc;
    if pc.GrabSecond? {
      GrabSecondInv(s, t);
    } else if pc.GrabCopy? {
      GrabCopyInv(s, t);
    } else {
      MoveInv(s, GrabStep(s, t), t);
    }
  }

  lemma GrabSecondInv(s: State, t: nat)
    requires Inv(s) && t < |s.threads| && s.threads[t].pc.GrabSecond?
    ensures Inv(GrabStep(s, t))
  {
    assert Remembers(s, t);
    var pc := s.threads[t].pc;
    if !pc.tailFirst {
      WrapSmall(s.tail - pc.seen);
    } else if pc.head == s.head {
      WrapSmall(pc.seen - s.head);
    }
    MoveInv(s, GrabStep(s, t), t);
  }

  lemma CopySlotInv(s: State, t: nat)
    requires Inv(s) && t < |s.threads| && s.threads[t].pc.GrabCopy?
    requires |s.threads[t].pc.out| < ToGrab(s.threads[t].pc.room, s.threads[t].pc.count)
    ensures Inv(GrabStep(s, t))
  {
    assert Remembers(s, t);
    var pc := s.threads[t].pc;
    var p := pc.head + |pc.out|;
    if s.head == pc.head {
      WrapSmall(p);
      assert SlotOk(s, p);
      assert Batch(s, pc.head, ToGrab(pc.room, pc.count), pc.out + [Read(s, p)]);
    }
    MoveInv(s, GrabStep(s, t), t);
  }

  lemma GrabCopyInv(s: State, t: nat)
    requires Inv(s) && t < |s.threads| && s.threads[t].pc.GrabCopy?
    ensures Inv(GrabStep(s, t))
  {
    assert Remembers(s, t);
    var pc := s.threads[t].pc;
    var want := ToGrab(pc.room, pc.count);
    if |pc.out| < want {
      CopySlotInv(s, t);
    } else if s.head == pc.head {
      WrapSmall(pc.head + want);
      TakeInv(s, GrabStep(s, t), t, want);
    } else {
      MoveInv(s, GrabStep(s, t), t);
    }
  }

  lemma StepInv(s: State, a: Action)
    requires Inv(s) && Fits(s, a)
    ensures Inv(Step(s, a))
  {
    var t := Actor(a);
    if t < |s.threads| {
      assert Remembers(s, t);
      if !a.Tick? {
        MoveInv(s, Step(s, a), t);
      } else if Pushing(s.threads[t].pc) {
        PushStepInv(s, t);
      } else if Popping(s.threads[t].pc) {
        PopStepInv(s, t);
      } else {
        GrabStepInv(s, t);
      }
    }
  }

  // --- Refinement to a bounded queue

  datatype Replayed = Legal(items: seq<Item>) | Illegal

  /** A queue of at most `capacity` items; a batch is taken from its front. */
  function Apply(r: Replayed, capacity: nat, e: Event): Replayed {
    if r.Illegal? then Illegal else
    match e
    case Pushed(_, v) => if |r.items| < capacity then Legal(r.items + [v]) else Illegal
    case Took(_, vs) => if vs <= r.items then Legal(r.items[|vs|..]) else Illegal
  }

  function Replay(log: seq<Event>, capacity: nat): Replayed {
    if log == [] then Legal([]) else Apply(Replay(log[..|log| - 1], capacity), capacity, log[|log| - 1])
  }

  lemma ReplayAppend(log: seq<Event>, capacity: nat, e: Event)
    ensures Replay(log + [e], capacity) == Apply(Replay(log, capacity), capacity, e)
  {
    assert (log + [e])[..|log|] == log;
  }

  /** All items handed out, in the order of the compare-and-swaps that took them. */
  function Delivered(log: seq<Event>): seq<Item> {
    if log == [] then []
    else
      var rest := Delivered(log[..|log| - 1]);
      if log[|log| - 1].Took? then rest + log[|log| - 1].items else rest
  }

  lemma DeliveredAppend(log: seq<Event>, e: Event)
    ensures Delivered(log + [e]) == if e.Took? then Delivered(log) + e.items else Delivered(log)
  {
    assert (log + [e])[..|log|] == log;
  }

  ghost predicate Refines(s: State) {
    && s.head <= |s.pushed|
    && Replay(s.log, s.capacity) == Legal(s.pushed[s.head..])
    && Delivered(s.log) == s.pushed[..s.head]
  }

  predicate Stores(s: State, a: Action) {
    a.Tick? && a.t < |s.threads| && s.threads[a.t].pc.PushStore?
  }

  predicate Takes(s: State, a: Action) {
    a.Tick? && a.t < |s.threads| && SwingsHead(s, s.threads[a.t].pc)
  }

  predicate SwingsHead(s: State, pc: Pc) {
    match pc
    case PopSwing(_, h, _) => s.head == h
    case GrabCopy(_, room, h, count, _, out) => s.head == h && |out| >= ToGrab(room, count)
    case _ => false
  }

  lemma StoreRefines(s: State, a: Action)
    requires Inv(s) && Refines(s) && Stores(s, a) && Fits(s, a)
    ensures Refines(Step(s, a))
  {
    assert Remembers(s, a.t);
    var v := s.threads[a.t].pc.item;
    ReplayAppend(s.log, s.capacity, Pushed(a.t, v));
    DeliveredAppend(s.log, Pushed(a.t, v));
    assert (s.pushed + [v])[s.head..] == s.pushed[s.head..] + [v];
    assert (s.pushed + [v])[..s.head] == s.pushed[..s.head];
  }

  /** Taking the first `n` of the remaining items off the front. */
  lemma SplitAt(pushed: seq<Item>, head: nat, items: seq<Item>)
    requires head + |items| <= |pushed| && forall i :: 0 <= i < |items| ==> items[i] == pushed[head + i]
    ensures items <= pushed[head..] && pushed[head..][|items|..] == pushed[head + |items|..]
    ensures pushed[..head] + items == pushed[..head + |items|]
  {
    assert items == pushed[head..][..|items|];
  }

  lemma BatchRefines(s: State, s': State, e: Event)
    requires Sized(s) && Refines(s) && e.Took? && Batch(s, s.head, |e.items|, e.items)
    requires s' == s.(head := s.head + |e.items|, log := s.log + [e], threads := s'.threads)
    ensures Refines(s')
  {
    ReplayAppend(s.log, s.capacity, e);
    DeliveredAppend(s.log, e);
    SplitAt(s.pushed, s.head, e.items);
  }

  lemma TakeRefines(s: State, a: Action)
    requires Inv(s) && Refines(s) && Takes(s, a)
    ensures Refines(Step(s, a))
  {
    assert Remembers(s, a.t);
    var pc := s.threads[a.t].pc;
    if pc.PopSwing? {
      WrapSmall(s.head + 1);
      BatchRefines(s, Step(s, a), Took(a.t, [pc.item]));
    } else {
      WrapSmall(s.head + ToGrab(pc.room, pc.count));
      BatchRefines(s, Step(s, a), Took(a.t, pc.out));
    }
  }

  // --- Every call takes effect once, or is refused

  /** The events of one thread. */
  ghost function Of(log: seq<Event>, t: nat): seq<Event> {
    if log == [] then []
    else
      var rest := Of(log[..|log| - 1], t);
      if log[|log| - 1].t == t then rest + [log[|log| - 1]] else rest
  }

  lemma OfAppend(log: seq<Event>, e: Event, t: nat)
    ensures Of(log + [e], t) == if e.t == t then Of(log, t) + [e] else Of(log, t)
  {
    assert (log + [e])[..|log|] == log;
  }

  /** The effect of a call with this answer; a refusal has none. */
  ghost function EffectOf(t: nat, answer: Answer): seq<Event> {
    match answer
    case Accepted(v) => [Pushed(t, v)]
    case Got(vs) => [Took(t, vs)]
    case GotBatch(vs, _, _, _) => [Took(t, vs)]
    case _ => []
  }

  ghost function Effects(t: nat, answers: seq<Answer>): seq<Event> {
    if answers == [] then [] else Effects(t, answers[..|answers| - 1]) + EffectOf(t, answers[|answers| - 1])
  }

  lemma EffectsAppend(t: nat, answers: seq<Answer>, a: Answer)
    ensures Effects(t, answers + [a]) == Effects(t, answers) + EffectOf(t, a)
  {
    assert (answers + [a])[..|answers|] == answers;
  }

  /** The answer is one to this call. */
  predicate Suits(c: Call, answer: Answer) {
    match answer
    case Accepted(v) => c == PushCall(v)
    case Full(_) => c.PushCall?
    case Got(_) => c.PopCall?
    case NothingPopped(_) => c.PopCall?
    case GotBatch(_, room, _, _) => c == GrabCall(room)
    case NothingGrabbed(_, _) => c.GrabCall?
  }

  /** The thread is inside this call. */
  predicate Serves(pc: Pc, c: Call) {
    match c
    case PushCall(v) => if pc.Returned? then Suits(c, pc.answer) else Pushing(pc) && pc.item == v
    case PopCall => if pc.Returned? then Suits(c, pc.answer) else Popping(pc)
    case GrabCall(room) =>
      if pc.Returned? then Suits(c, pc.answer) else !pc.Idle? && !Pushing(pc) && !Popping(pc) && pc.room == room
  }

  /** What a thread has been answered, collected or not. */
  function Given(th: Thread): seq<Answer> {
    if th.pc.Returned? then th.answers + [th.pc.answer] else th.answers
  }

  /** The answers suit the calls one by one, the last call possibly still under way, and the events
      of the thread are their effects. */
  ghost predicate HistoryOf(s: State, t: nat, asked: seq<Call>)
    requires t < |s.threads|
  {
    var th := s.threads[t];
    && Of(s.log, t) == Effects(t, Given(th))
    && |asked| == |th.answers| + (if th.pc.Idle? then 0 else 1)
    && (forall k :: 0 <= k < |th.answers| ==> Suits(asked[k], th.answers[k]) && AnswerOk(s.capacity, th.answers[k]))
    && (!th.pc.Idle? ==> Serves(th.pc, asked[|asked| - 1]))
  }

  ghost predicate Counted(s: State) {
    forall t :: 0 <= t < |s.threads| ==> HistoryOf(s, t, s.threads[t].calls)
  }

  /** Nothing takes effect. */
  ghost predicate Silent(s: State, s': State, t: nat) {
    && s'.capacity == s.capacity && s'.pushed == s.pushed && s'.head == s.head && s'.log == s.log
    && |s'.threads| == |s.threads|
    && (forall u :: 0 <= u < |s.threads| && u != t ==> s'.threads[u] == s.threads[u])
  }

  lemma OtherStepsAreSilent(s: State, a: Action)
    requires !Stores(s, a) && !Takes(s, a)
    ensures Silent(s, Step(s, a), Actor(a))
  {
    var t := Actor(a);
    if a.Tick? && t < |s.threads| {
      var pc := s.threads[t].pc;
      if Pushing(pc) {
        assert Silent(s, PushStep(s, t), t);
      } else if Popping(pc) {
        assert Silent(s, PopStep(s, t), t);
      } else {
        assert Silent(s, GrabStep(s, t), t);
      }
    }
  }

  /** Inside a call, a step without event at most refuses it. */
  lemma SilentTick(s: State, a: Action, c: Call)
    requires a.Tick? && a.t < |s.threads| && !Stores(s, a) && !Takes(s, a)
    requires !s.threads[a.t].pc.Idle? && Serves(s.threads[a.t].pc, c)
    ensures var th, th' := s.threads[a.t], Step(s, a).threads[a.t];
      && th'.calls == th.calls && th'.answers == th.answers && !th'.pc.Idle? && Serves(th'.pc, c)
      && (th'.pc.Returned? && !th.pc.Returned? ==> EffectOf(a.t, th'.pc.answer) == [])
      && (th.pc.Returned? ==> th' == th)
  {
    if Pushing(s.threads[a.t].pc) {
      assert Step(s, a) == PushStep(s, a.t);
    } else if Popping(s.threads[a.t].pc) {
      assert Step(s, a) == PopStep(s, a.t);
    } else {
      assert Step(s, a) == GrabStep(s, a.t);
    }
  }

  /** Exactly one event, the effect of the answer that the stepping thread's call is given with it. */
  lemma EventStep(s: State, a: Action, c: Call) returns (e: Event)
    requires Stores(s, a) || Takes(s, a)
    requires Serves(s.threads[a.t].pc, c)
    ensures Step(s, a).log == s.log + [e] && e.t == a.t && |Step(s, a).threads| == |s.threads|
    ensures Step(s, a).capacity == s.capacity
    ensures forall u :: 0 <= u < |s.threads| && u != a.t ==> Step(s, a).threads[u] == s.threads[u]
    ensures var th, th' := s.threads[a.t], Step(s, a).threads[a.t];
      && !th.pc.Idle? && !th.pc.Returned? && th'.calls == th.calls && th'.answers == th.answers
      && th'.pc.Returned? && Serves(th'.pc, c) && EffectOf(a.t, th'.pc.answer) == [e]
  {
    e := Step(s, a).log[|s.log|];
    var pc := s.threads[a.t].pc;
    if pc.PushStore? {
      assert Step(s, a) == PushStep(s, a.t);
    } else if pc.PopSwing? {
      assert Step(s, a) == PopStep(s, a.t);
    } else {
      assert Step(s, a) == GrabStep(s, a.t);
    }
  }

  lemma EventCounted(s: State, a: Action)
    requires Counted(s) && (Stores(s, a) || Takes(s, a))
    ensures Counted(Step(s, a))
  {
    var s', calls, answers := Step(s, a), s.threads[a.t].calls, s.threads[a.t].answers;
    assert HistoryOf(s, a.t, calls);
    var e := EventStep(s, a, calls[|calls| - 1]);
    forall t | 0 <= t < |s'.threads| ensures HistoryOf(s', t, s'.threads[t].calls) {
      assert HistoryOf(s, t, s.threads[t].calls);
      OfAppend(s.log, e, t);
      if t == a.t { EffectsAppend(t, answers, s'.threads[t].pc.answer); }
    }
  }

  /** A call that is begun or collected. */
  lemma CallCounted(s: State, a: Action)
    requires !a.Tick? && Actor(a) < |s.threads| && HistoryOf(s, Actor(a), s.threads[Actor(a)].calls)
    requires s.threads[Actor(a)].pc.Returned? ==> AnswerOk(s.capacity, s.threads[Actor(a)].pc.answer)
    ensures |Step(s, a).threads| == |s.threads|
    ensures HistoryOf(Step(s, a), Actor(a), Step(s, a).threads[Actor(a)].calls)
  {
  }

  lemma TickCounted(s: State, a: Action)
    requires a.Tick? && !Stores(s, a) && !Takes(s, a) && a.t < |s.threads| && !s.threads[a.t].pc.Idle?
    requires HistoryOf(s, a.t, s.threads[a.t].calls) && Silent(s, Step(s, a), a.t)
    ensures HistoryOf(Step(s, a), a.t, Step(s, a).threads[a.t].calls)
  {
    var th, th' := s.threads[a.t], Step(s, a).threads[a.t];
    SilentTick(s, a, th.calls[|th.calls| - 1]);
    if th'.pc.Returned? { EffectsAppend(a.t, th.answers, th'.pc.answer); }
  }

  lemma SilentCounted(s: State, a: Action)
    requires Inv(s) && !Stores(s, a) && !Takes(s, a) && Actor(a) < |s.threads|
    requires HistoryOf(s, Actor(a), s.threads[Actor(a)].calls) && Silent(s, Step(s, a), Actor(a))
    ensures HistoryOf(Step(s, a), Actor(a), Step(s, a).threads[Actor(a)].calls)
  {
    assert Remembers(s, Actor(a));
    if !a.Tick? {
      CallCounted(s, a);
    } else if !s.threads[a.t].pc.Idle? {
      TickCounted(s, a);
    }
  }

  lemma StepCounted(s: State, a: Action)
    requires Inv(s) && Counted(s)
    ensures Counted(Step(s, a))
  {
    if Stores(s, a) || Takes(s, a) {
      EventCounted(s, a);
    } else {
      OtherStepsAreSilent(s, a);
      var s' := Step(s, a);
      forall t | 0 <= t < |s'.threads| ensures HistoryOf(s', t, s'.threads[t].calls) {
        assert HistoryOf(s, t, s.threads[t].calls);
        if t == Actor(a) { SilentCounted(s, a); }
      }
    }
  }

  /** The call that thread `t` begins with this action, if it begins one. */
  ghost function Begun(s: State, a: Action, t: nat): seq<Call> {
    if Actor(a) != t || t >= |s.threads| || !s.threads[t].pc.Idle? then []
    else
      match a
      case CallPush(v, _) => [PushCall(v)]
      case CallPop(_) => [PopCall]
      case CallGrab(_, _, room) => [GrabCall(room)]
      case _ => []
  }

  /** The calls that the client makes from thread `t` in a run. */
  ghost function Asked(s: State, actions: seq<Action>, t: nat): seq<Call>
    decreases |actions|
  {
    if actions == [] then [] else Begun(s, actions[0], t) + Asked(Step(s, actions[0]), actions[1..], t)
  }

  /** What a run from `s` has made of the calls of thread `t`. */
  ghost predicate Called(s: State, actions: seq<Action>, end: State, t: nat)
    requires t < |s.threads|
  {
    |end.threads| == |s.threads| && end.threads[t].calls == s.threads[t].calls + Asked(s, actions, t)
  }

  lemma {:induction false} AskedAreCalls(s: State, actions: seq<Action>, t: nat)
    requires t < |s.threads|
    ensures Called(s, actions, Run(s, actions), t)
    decreases |actions|
  {
    if actions != [] {
      var s' := Step(s, actions[0]);
      StepBegins(s, actions[0], t);
      AskedAreCalls(s', actions[1..], t);
      CalledFirst(s, actions, s', Run(s', actions[1..]), t);
    }
  }

  lemma CalledFirst(s: State, actions: seq<Action>, s': State, end: State, t: nat)
    requires actions != [] && s' == Step(s, actions[0]) && t < |s.threads| == |s'.threads|
    requires s'.threads[t].calls == s.threads[t].calls + Begun(s, actions[0], t) && Called(s', actions[1..], end, t)
    ensures Called(s, actions, end, t)
  {
    AskedUnfolds(s, actions, s', t, s.threads[t].calls);
  }

  lemma AskedUnfolds(s: State, actions: seq<Action>, s': State, t: nat, calls: seq<Call>)
    requires actions != [] && s' == Step(s, actions[0])
    ensures calls + Asked(s, actions, t) == (calls + Begun(s, actions[0], t)) + Asked(s', actions[1..], t)
  {
    var begun, rest := Begun(s, actions[0], t), Asked(s', actions[1..], t);
    assert (calls + begun) + rest == calls + (begun + rest);
  }

  lemma StepBegins(s: State, a: Action, t: nat)
    ensures |Step(s, a).threads| == |s.threads| && Step(s, a).capacity == s.capacity
    ensures t < |s.threads| ==> Step(s, a).threads[t].calls == s.threads[t].calls + Begun(s, a, t)
  {
    if a.Tick? && a.t < |s.threads| {
      var pc := s.threads[a.t].pc;
      if Pushing(pc) {
        assert Step(s, a) == PushStep(s, a.t);
      } else if Popping(pc) {
        assert Step(s, a) == PopStep(s, a.t);
      } else {
        assert Step(s, a) == GrabStep(s, a.t);
      }
    }
  }

  lemma StepRefines(s: State, a: Action)
    requires Inv(s) && Refines(s) && Fits(s, a)
    ensures Refines(Step(s, a))
  {
    if Stores(s, a) {
      StoreRefines(s, a);
    } else if Takes(s, a) {
      TakeRefines(s, a);
    } else {
      OtherStepsAreSilent(s, a);
    }
  }

  // --- Every run

  lemma {:induction false} RunKeeps(s: State, actions: seq<Action>)
    requires Inv(s) && Refines(s) && Counted(s) && AllFit(s, actions)
    ensures Inv(Run(s, actions)) && Refines(Run(s, actions)) && Counted(Run(s, actions))
    decreases |actions|
  {
    if actions != [] {
      StepInv(s, actions[0]);
      StepRefines(s, actions[0]);
      StepCounted(s, actions[0]);
      RunKeeps(Step(s, actions[0]), actions[1..]);
    }
  }

  lemma InitKeeps(capacity: nat, n: nat)
    requires capacity + 1 < WORD
    ensures Inv(Init(capacity, n)) && Refines(Init(capacity, n)) && Counted(Init(capacity, n))
  {
  }

  lemma {:induction false} RunShape(s: State, actions: seq<Action>)
    ensures Run(s, actions).capacity == s.capacity && |Run(s, actions).threads| == |s.threads|
    decreases |actions|
  {
    if actions != [] {
      StepBegins(s, actions[0], 0);
      RunShape(Step(s, actions[0]), actions[1..]);
    }
  }

  lemma HistoriesHold(s: State, actions: seq<Action>, s': State)
    requires Inv(s) && Refines(s) && Counted(s) && AllFit(s, actions) && s' == Run(s, actions)
    requires forall t :: 0 <= t < |s.threads| ==> s.threads[t].calls == []
    ensures Inv(s') && Refines(s') && |s'.threads| == |s.threads| && s'.capacity == s.capacity
    ensures forall t :: 0 <= t < |s'.threads| ==> HistoryOf(s', t, Asked(s, actions, t))
  {
    RunKeeps(s, actions);
    RunShape(s, actions);
    forall t | 0 <= t < |s'.threads| ensures HistoryOf(s', t, Asked(s, actions, t)) {
      AskedAreCalls(s, actions, t);
      CalledHistory(s, actions, s', t);
    }
  }

  lemma CalledHistory(s: State, actions: seq<Action>, s': State, t: nat)
    requires t < |s.threads| && s.threads[t].calls == [] && Called(s, actions, s', t) && Counted(s')
    ensures HistoryOf(s', t, Asked(s, actions, t))
  {
    assert HistoryOf(s', t, s'.threads[t].calls);
  }

  /** In every run: the log is a legal history of a queue bounded by the capacity, so at most that many
      items are held; what TryPop and the Grabs handed out, batch after batch, is a prefix of what was
      pushed, so every item is delivered at most once and in push order. The answers of each thread
      suit, one by one, the calls that the client made from it, with the items passed to TryPush, up to
      the call still under way; and its events are the effects of those answers, refusals having none. */
  lemma Linearizable(capacity: nat, n: nat, actions: seq<Action>)
    requires capacity + 1 < WORD && AllFit(Init(capacity, n), actions)
    ensures var s := Run(Init(capacity, n), actions);
      && s.head <= |s.pushed| <= s.head + capacity
      && Replay(s.log, capacity) == Legal(s.pushed[s.head..])
      && Delivered(s.log) == s.pushed[..s.head]
      && |s.threads| == n && forall t :: 0 <= t < n ==> HistoryOf(s, t, Asked(Init(capacity, n), actions, t))
  {
    InitKeeps(capacity, n);
    HistoriesHold(Init(capacity, n), actions, Run(Init(capacity, n), actions));
  }

  /** In every run, an answer is worth what it says: a Grab never takes more items than it has room for, nor
      more than the difference of the tail_ and the head_ it has counted by (at least one, at most the
      capacity), and it takes one of these two numbers; "full" was true when head_ was loaded; an empty
      TryPop was true when head_ was loaded; and so is an empty Grab whose count loads head_ first. */
  lemma AnswersHold(capacity: nat, n: nat, actions: seq<Action>, t: nat)
    requires capacity + 1 < WORD && AllFit(Init(capacity, n), actions)
    requires t < |Run(Init(capacity, n), actions).threads|
    ensures var th := Run(Init(capacity, n), actions).threads[t];
      forall k :: 0 <= k < |Given(th)| ==> AnswerOk(capacity, Given(th)[k])
  {
    InitKeeps(capacity, n);
    AnswersOfRun(Init(capacity, n), actions, Run(Init(capacity, n), actions), t);
  }

  lemma AnswersOfRun(s: State, actions: seq<Action>, s': State, t: nat)
    requires Inv(s) && Refines(s) && Counted(s) && AllFit(s, actions) && s' == Run(s, actions) && t < |s'.threads|
    ensures forall k :: 0 <= k < |Given(s'.threads[t])| ==> AnswerOk(s.capacity, Given(s'.threads[t])[k])
  {
    RunKeeps(s, actions);
    RunShape(s, actions);
    assert HistoryOf(s', t, s'.threads[t].calls) && Remembers(s', t);
  }

  // --- A tail-first Grab may answer 0 although the ring was never empty

  /** Every state of the run, first and last included, holds an item. */
  predicate NeverEmpty(s: State, actions: seq<Action>)
    decreases |actions|
  {
    s.head < s.tail && (actions == [] || NeverEmpty(Step(s, actions[0]), actions[1..]))
  }

  lemma {:induction false} RunConcat(s: State, x: seq<Action>, y: seq<Action>)
    ensures Run(s, x + y) == Run(Run(s, x), y)
    ensures NeverEmpty(s, x) && NeverEmpty(Run(s, x), y) ==> NeverEmpty(s, x + y)
    decreases |x|
  {
    if x == [] {
      assert x + y == y;
    } else {
      assert (x + y)[0] == x[0] && (x + y)[1..] == x[1..] + y;
      RunConcat(Step(s, x[0]), x[1..], y);
    }
  }

  /** `n` ticks of thread `t`. */
  function Ticks(t: nat, n: nat): seq<Action> {
    if n == 0 then [] else [Tick(t)] + Ticks(t, n - 1)
  }

  lemma RunCons(s: State, a: Action, rest: seq<Action>)
    ensures Run(s, [a] + rest) == Run(Step(s, a), rest)
    ensures NeverEmpty(s, [a] + rest) <==> s.head < s.tail && NeverEmpty(Step(s, a), rest)
  {
    assert ([a] + rest)[1..] == rest;
  }

  /** A tail-first Grab called by thread `t` in state `s` answers 0 after actions that left the ring
      without an item at no instant, its own call included. */
  predicate Missed(s: State, during: seq<Action>, t: nat, room: nat) {
    && t < |s.threads| && s.threads[t].pc.Idle? && during != [] && during[0] == CallGrab(t, true, room)
    && AllFit(s, during) && NeverEmpty(s, during)
    && AnswersNothing(Run(s, during), t)
  }

  predicate AnswersNothing(s: State, t: nat) {
    t < |s.threads| && s.threads[t].pc.Returned? && s.threads[t].pc.answer.NothingGrabbed? && s.threads[t].pc.answer.tailFirst
  }

  /** Some run of `n` threads on a ring of this capacity leads to such a call. */
  ghost predicate Misses(capacity: nat, n: nat) {
    exists before, during, t, room :: AllFit(Init(capacity, n), before) && Missed(Run(Init(capacity, n), before), during, t, room)
  }

  /** A tail-first Grab can wrongly answer 0 exactly when the ring has room for two items and there is
      a thread beside the owner. */
  lemma TailFirstGrabMissesItems(capacity: nat, n: nat)
    requires capacity + 1 < WORD
    ensures Misses(capacity, n) <==> capacity >= 2 && n >= 2
  {
    if capacity >= 2 && n >= 2 {
      SlowGrabMisses(capacity, n);
    } else {
      forall before, during, t, room
        ensures !(AllFit(Init(capacity, n), before) && Missed(Run(Init(capacity, n), before), during, t, room))
      {
        if AllFit(Init(capacity, n), before) {
          InitKeeps(capacity, n);
          RunKeeps(Init(capacity, n), before);
          RunShape(Init(capacity, n), before);
          NothingMissed(Run(Init(capacity, n), before), during, t, room);
        }
      }
    }
  }

  // --- With one slot or with one thread none is missed

  predicate Small(s: State) {
    s.capacity <= 1 || |s.threads| <= 1
  }

  /** While its Grab is between its two loads, tail_ is still what it saw; and it has not answered 0. */
  predicate Sees(s: State, t: nat) {
    && !AnswersNothing(s, t)
    && (t < |s.threads| && s.threads[t].pc.GrabSecond? && s.threads[t].pc.tailFirst ==> s.threads[t].pc.seen == s.tail)
  }

  lemma SeesOnStep(s: State, a: Action, t: nat)
    requires Inv(s) && Fits(s, a) && Small(s) && s.head < s.tail && Step(s, a).head < Step(s, a).tail && Sees(s, t)
    ensures Sees(Step(s, a), t)
  {
    StepInv(s, a);
    StepBegins(s, a, 0);
    var u := Actor(a);
    if u < |s.threads| {
      assert Remembers(s, u);
      if u == t && a.Tick? && s.threads[t].pc.GrabSecond? { WrapSmall(s.tail - s.head); }
      StepMovesOne(s, a);
    }
  }

  /** One step moves head_ or tail_, not both, and only its own thread. */
  lemma StepMovesOne(s: State, a: Action)
    requires Inv(s) && Fits(s, a)
    ensures Step(s, a).head == s.head || Step(s, a).tail == s.tail
    ensures forall u :: 0 <= u < |s.threads| && u != Actor(a) ==> u < |Step(s, a).threads| && Step(s, a).threads[u] == s.threads[u]
    ensures Stores(s, a) || Step(s, a).tail == s.tail
  {
    var t := Actor(a);
    if a.Tick? && t < |s.threads| {
      var pc := s.threads[t].pc;
      if Pushing(pc) {
        assert Step(s, a) == PushStep(s, t);
      } else if Popping(pc) {
        assert Step(s, a) == PopStep(s, t);
      } else {
        assert Step(s, a) == GrabStep(s, t);
      }
    }
  }

  lemma {:induction false} SeesOnRun(s: State, actions: seq<Action>, t: nat)
    requires Inv(s) && Small(s) && AllFit(s, actions) && NeverEmpty(s, actions) && Sees(s, t)
    ensures Sees(Run(s, actions), t)
    decreases |actions|
  {
    if actions != [] {
      StepInv(s, actions[0]);
      StepBegins(s, actions[0], 0);
      SeesOnStep(s, actions[0], t);
      SeesOnRun(Step(s, actions[0]), actions[1..], t);
    }
  }

  lemma NothingMissed(s: State, during: seq<Action>, t: nat, room: nat)
    requires Inv(s) && Small(s)
    ensures !Missed(s, during, t, room)
  {
    if t < |s.threads| && s.threads[t].pc.Idle? && AllFit(s, during) && NeverEmpty(s, during) {
      SeesOnRun(s, during, t);
    }
  }

  // --- With two of each one can be

  /** Few actions cannot take tail_ to 2^64. */
  lemma {:induction false} FewActionsFit(s: State, actions: seq<Action>)
    requires Inv(s) && s.tail + |actions| < WORD
    ensures AllFit(s, actions)
    decreases |actions|
  {
    if actions != [] {
      assert Actor(actions[0]) < |s.threads| ==> Remembers(s, Actor(actions[0]));
      StepInv(s, actions[0]);
      TailGrowsByOne(s, actions[0]);
      FewActionsFit(Step(s, actions[0]), actions[1..]);
    }
  }

  lemma TailGrowsByOne(s: State, a: Action)
    requires Inv(s) && Fits(s, a)
    ensures Step(s, a).tail <= s.tail + 1
  {
    StepMovesOne(s, a);
    if Stores(s, a) {
      assert Remembers(s, a.t);
      WrapSmall(s.tail + 1);
    }
  }

  /** The ring at these positions, with the owner at `pc`. */
  predicate At(s: State, head: nat, tail: nat, pc: Pc) {
    && s.capacity >= 2 && s.capacity + 1 < WORD && |s.threads| >= 2
    && s.head == head && s.tail == tail && head <= tail <= 2 && s.threads[0].pc == pc
  }

  /** Those actions take the ring from one place to another past thread 1, and leave it empty at no
      instant if it was not. */
  ghost predicate Leads(s: State, actions: seq<Action>, head: nat, tail: nat, pc: Pc) {
    && |s.threads| >= 2 && At(Run(s, actions), head, tail, pc) && Run(s, actions).threads[1] == s.threads[1]
    && (s.head < s.tail ==> NeverEmpty(s, actions))
  }

  lemma LeadsOn(s: State, x: seq<Action>, y: seq<Action>, h: nat, t: nat, p: Pc, head: nat, tail: nat, pc: Pc)
    requires Leads(s, x, h, t, p) && Leads(Run(s, x), y, head, tail, pc) && (s.head < s.tail ==> h < t)
    ensures Leads(s, x + y, head, tail, pc)
  {
    RunConcat(s, x, y);
  }

  /** TryPush up to its capacity check. */
  lemma PushBegins(s: State)
    requires At(s, 0, s.tail, Idle) && s.tail < 2
    ensures Leads(s, [CallPush(7, true)] + Ticks(0, 2), 0, s.tail, PushTail(7))
  {
    var s1 := Step(s, CallPush(7, true));
    RunCons(s, CallPush(7, true), Ticks(0, 2));
    var s2 := Step(s1, Tick(0));
    RunCons(s1, Tick(0), Ticks(0, 1));
    WrapSmall(s.tail - 0);
    RunCons(s2, Tick(0), Ticks(0, 0));
  }

  /** TryPush once it has passed the capacity check. */
  lemma PushEnds(s: State)
    requires At(s, 0, s.tail, PushTail(7)) && s.tail < 2
    ensures Leads(s, Ticks(0, 3) + [Collect(0)], 0, s.tail + 1, Idle)
  {
    var s1 := Step(s, Tick(0));
    RunCons(s, Tick(0), Ticks(0, 2));
    var s2 := Step(s1, Tick(0));
    RunCons(s1, Tick(0), Ticks(0, 1));
    var s3 := Step(s2, Tick(0));
    assert s2.threads[0].pc == PushStore(7, s.tail);
    WrapSmall(s.tail + 1);
    RunCons(s2, Tick(0), Ticks(0, 0));
    RunConcat(s, Ticks(0, 3), [Collect(0)]);
    RunCons(s3, Collect(0), []);
    assert [Collect(0)] + [] == [Collect(0)];
  }

  /** A whole TryPush by the owner. */
  function PushAll(): seq<Action> {
    ([CallPush(7, true)] + Ticks(0, 2)) + (Ticks(0, 3) + [Collect(0)])
  }

  lemma OwnerPushes(s: State)
    requires At(s, 0, s.tail, Idle) && s.tail < 2
    ensures Leads(s, PushAll(), 0, s.tail + 1, Idle)
  {
    PushBegins(s);
    PushEnds(Run(s, [CallPush(7, true)] + Ticks(0, 2)));
    LeadsOn(s, [CallPush(7, true)] + Ticks(0, 2), Ticks(0, 3) + [Collect(0)], 0, s.tail, PushTail(7), 0, s.tail + 1, Idle);
  }

  /** TryPop up to its read of the slot. */
  lemma PopBegins(s: State)
    requires At(s, 0, 2, Idle)
    ensures Leads(s, [CallPop(true)] + Ticks(0, 3), 0, 2, PopSlot(true, 0))
  {
    var s1 := Step(s, CallPop(true));
    RunCons(s, CallPop(true), Ticks(0, 3));
    var s2 := Step(s1, Tick(0));
    RunCons(s1, Tick(0), Ticks(0, 2));
    var s3 := Step(s2, Tick(0));
    RunCons(s2, Tick(0), Ticks(0, 1));
    RunCons(s3, Tick(0), Ticks(0, 0));
  }

  lemma PopEnds(s: State)
    requires At(s, 0, 2, PopSlot(true, 0))
    ensures Leads(s, Ticks(0, 2), 1, 2, Returned(Got([Read(s, 0)])))
  {
    var s1 := Step(s, Tick(0));
    RunCons(s, Tick(0), Ticks(0, 1));
    RunCons(s1, Tick(0), Ticks(0, 0));
  }

  function PopAll(): seq<Action> {
    ([CallPop(true)] + Ticks(0, 3)) + Ticks(0, 2)
  }

  lemma OwnerPops(s: State) returns (pc: Pc)
    requires At(s, 0, 2, Idle)
    ensures Leads(s, PopAll(), 1, 2, pc)
  {
    var x, y := [CallPop(true)] + Ticks(0, 3), Ticks(0, 2);
    PopBegins(s);
    PopEnds(Run(s, x));
    pc := Returned(Got([Read(Run(s, x), 0)]));
    LeadsOn(s, x, y, 0, 2, PopSlot(true, 0), 1, 2, pc);
    assert PopAll() == x + y;
  }

  /** What overtakes the slow Grab: the owner pushes an item and pops one. */
  lemma OwnerOvertakes(s: State) returns (pc: Pc)
    requires At(s, 0, 1, Idle)
    ensures Leads(s, PushAll() + PopAll(), 1, 2, pc)
  {
    OwnerPushes(s);
    pc := OwnerPops(Run(s, PushAll()));
    LeadsOn(s, PushAll(), PopAll(), 0, 2, Idle, 1, 2, pc);
  }

  /** Grab up to its load of tail_. */
  lemma GrabBegins(s: State)
    requires At(s, 0, 1, Idle) && s.threads[1].pc.Idle?
    ensures var grab := [CallGrab(1, true, 1)] + Ticks(1, 2);
      At(Run(s, grab), 0, 1, Idle) && Run(s, grab).threads[1].pc == GrabSecond(true, 1, 0, 1, 1) && NeverEmpty(s, grab)
  {
    var s1 := Step(s, CallGrab(1, true, 1));
    RunCons(s, CallGrab(1, true, 1), Ticks(1, 2));
    var s2 := Step(s1, Tick(1));
    RunCons(s1, Tick(1), Ticks(1, 1));
    RunCons(s2, Tick(1), Ticks(1, 0));
  }

  lemma CountsZero(s: State, pc: Pc)
    requires At(s, 1, 2, pc) && s.threads[1].pc == GrabSecond(true, 1, 0, 1, 1)
    ensures NeverEmpty(s, [Tick(1)]) && AnswersNothing(Run(s, [Tick(1)]), 1)
  {
    RunCons(s, Tick(1), []);
    assert [Tick(1)] + [] == [Tick(1)];
    WrapSmall(0);
  }

  function SlowGrab(): seq<Action> {
    ([CallGrab(1, true, 1)] + Ticks(1, 2)) + ((PushAll() + PopAll()) + [Tick(1)])
  }

  /** Thread 1 calls Grab, loads tail_, is overtaken, loads head_ and answers 0. */
  lemma SlowGrabAnswersNothing(s: State)
    requires At(s, 0, 1, Idle) && s.threads[1].pc.Idle?
    ensures NeverEmpty(s, SlowGrab()) && AnswersNothing(Run(s, SlowGrab()), 1)
  {
    var grab, overtake := [CallGrab(1, true, 1)] + Ticks(1, 2), PushAll() + PopAll();
    GrabBegins(s);
    var s1 := Run(s, grab);
    var pc := OwnerOvertakes(s1);
    CountsZero(Run(s1, overtake), pc);
    RunConcat(s1, overtake, [Tick(1)]);
    RunConcat(s, grab, overtake + [Tick(1)]);
  }

  lemma TicksLength(t: nat, n: nat)
    ensures |Ticks(t, n)| == n
  {
  }

  lemma Lengths()
    ensures |PushAll()| == 7 && |SlowGrab()| == 17 && SlowGrab()[0] == CallGrab(1, true, 1)
  {
    TicksLength(0, 2);
    TicksLength(0, 3);
    TicksLength(1, 2);
  }

  lemma SlowGrabMisses(capacity: nat, n: nat)
    requires capacity + 1 < WORD && capacity >= 2 && n >= 2
    ensures Misses(capacity, n)
  {
    var s := Init(capacity, n);
    var s1 := Run(s, PushAll());
    OwnerPushes(s);
    Lengths();
    InitKeeps(capacity, n);
    FewActionsFit(s, PushAll());
    RunKeeps(s, PushAll());
    SlowGrabAnswersNothing(s1);
    FewActionsFit(s1, SlowGrab());
    assert Missed(s1, SlowGrab(), 1, 1);
  }

  // --- The ring object

  class WorkStealingQueue {
    const capacity: nat
    const buffer: array<Item>
    var head: nat
    var tail: nat
    var threads: seq<Thread>
    // auxiliary
    var pushed: seq<Item>
    var log: seq<Event>

    ghost function View(): State reads this, buffer {
      State(capacity, buffer[..], head, tail, threads, pushed, log)
    }

    constructor (cap: nat, n: nat)
      requires cap + 1 < WORD
      ensures fresh(buffer) && View() == Init(cap, n) && Inv(View())
    {
      capacity, buffer := cap, new Item[cap + 1](_ => 0);
      head, tail, threads, pushed, log := 0, 0, seq(n, _ => Thread(Idle, [], [])), [], [];
      new;
      assert buffer[..] == seq(cap + 1, _ => 0);
      InitKeeps(cap, n);
    }

    method MoveTo(t: nat, pc: Pc)
      requires t < |threads|
      modifies this`threads
      ensures View() == Goto(old(View()), t, pc)
    {
      threads := threads[t := threads[t].(pc := pc)];
    }

    /** One load of a slot; the index is in bounds at every position. */
    method Load(p: nat) returns (item: Item)
      requires Sized(View())
      ensures item == Read(View(), p)
    {
      item := buffer[p % (capacity + 1)];
    }

    /** The next access of the owner inside TryPush. */
    method TryPush(t: nat)
      requires Inv(View()) && t < |threads| && Pushing(threads[t].pc)
      requires threads[t].pc.PushStore? ==> tail + 1 < WORD
      modifies this, buffer
      ensures View() == PushStep(old(View()), t) && Inv(View())
    {
      PushStepInv(View(), t);
      ghost var s := View();
      var pc := threads[t].pc;
      if pc.PushFirst? {
        var held := if head <= tail then tail - head else 0;
        MoveTo(t, PushSecond(pc.item, pc.tailFirst, if pc.tailFirst then tail else head, held));
      } else if pc.PushSecond? {
        var count := if pc.tailFirst then Wrap(pc.seen - head) else Wrap(tail - pc.seen);
        var held := if head <= tail then tail - head else 0;
        if count == capacity {
          MoveTo(t, Returned(Full(if pc.tailFirst then held else pc.held)));
        } else {
          MoveTo(t, PushTail(pc.item));
        }
      } else if pc.PushTail? {
        MoveTo(t, PushSlot(pc.item, tail));
      } else if pc.PushSlot? {
        buffer[pc.tail % (capacity + 1)] := pc.item;
        assert buffer[..] == s.buffer[Index(s, pc.tail) := pc.item];
        MoveTo(t, PushStore(pc.item, pc.tail));
      } else {
        tail, pushed, log := Wrap(pc.tail + 1), pushed + [pc.item], log + [Pushed(t, pc.item)];
        MoveTo(t, Returned(Accepted(pc.item)));
      }
    }

    /** The next access of the owner inside TryPop. */
    method TryPop(t: nat)
      requires Inv(View()) && t < |threads| && Popping(threads[t].pc)
      modifies this
      ensures View() == PopStep(old(View()), t) && Inv(View())
    {
      PopStepInv(View(), t);
      var pc := threads[t].pc;
      var held := if head <= tail then tail - head else 0;
      if pc.PopHead? {
        MoveTo(t, PopFirst(pc.tailFirst, head));
      } else if pc.PopFirst? {
        MoveTo(t, PopSecond(pc.tailFirst, pc.head, if pc.tailFirst then tail else head, held));
      } else if pc.PopSecond? {
        if pc.seen == (if pc.tailFirst then head else tail) {
          MoveTo(t, Returned(NothingPopped(if pc.tailFirst then held else pc.held)));
        } else {
          MoveTo(t, PopSlot(pc.tailFirst, pc.head));
        }
      } else if pc.PopSlot? {
        var item := Load(pc.head);
        MoveTo(t, PopSwing(pc.tailFirst, pc.head, item));
      } else if head == pc.head {
        head, log := Wrap(pc.head + 1), log + [Took(t, [pc.item])];
        MoveTo(t, Returned(Got([pc.item])));
      } else {
        MoveTo(t, PopFirst(pc.tailFirst, head));
      }
    }

    /** The next access of a thread inside Grab. */
    method Grab(t: nat)
      requires Inv(View()) && t < |threads| && !Pushing(threads[t].pc) && !Popping(threads[t].pc)
      modifies this
      ensures View() == GrabStep(old(View()), t) && Inv(View())
    {
      GrabStepInv(View(), t);
      var pc := threads[t].pc;
      if pc.GrabHead? {
        MoveTo(t, GrabFirst(pc.tailFirst, pc.room, head));
      } else if pc.GrabFirst? {
        var held := if head <= tail then tail - head else 0;
        MoveTo(t, GrabSecond(pc.tailFirst, pc.room, pc.head, if pc.tailFirst then tail else head, held));
      } else if pc.GrabSecond? {
        Size(t, pc);
      } else if pc.GrabCopy? {
        if |pc.out| < ToGrab(pc.room, pc.count) { CopySlot(t, pc); } else { SwingHead(t, pc); }
      }
    }

    method Size(t: nat, pc: Pc)
      requires t < |threads| && pc.GrabSecond? && threads[t].pc == pc
      modifies this
      ensures View() == GrabStep(old(View()), t)
    {
      var count := if pc.tailFirst then Wrap(pc.seen - head) else Wrap(tail - pc.seen);
      var held := if head <= tail then tail - head else 0;
      if count == 0 {
        MoveTo(t, Returned(NothingGrabbed(pc.tailFirst, if pc.tailFirst then held else pc.held)));
      } else {
        MoveTo(t, GrabCopy(pc.tailFirst, pc.room, pc.head, count, if pc.tailFirst then pc.seen else tail, []));
      }
    }

    /** One turn of the copy loop. */
    method CopySlot(t: nat, pc: Pc)
      requires Sized(View()) && t < |threads| && pc.GrabCopy? && threads[t].pc == pc
      requires |pc.out| < ToGrab(pc.room, pc.count)
      modifies this`threads
      ensures View() == GrabStep(old(View()), t)
    {
      var item := Load(Wrap(pc.head + |pc.out|));
      MoveTo(t, GrabCopy(pc.tailFirst, pc.room, pc.head, pc.count, pc.upTo, pc.out + [item]));
    }

    /** The compare-and-swap after the copy loop. */
    method SwingHead(t: nat, pc: Pc)
      requires t < |threads| && pc.GrabCopy? && threads[t].pc == pc && |pc.out| >= ToGrab(pc.room, pc.count)
      modifies this
      ensures View() == GrabStep(old(View()), t)
    {
      if head == pc.head {
        head, log := Wrap(pc.head + ToGrab(pc.room, pc.count)), log + [Took(t, pc.out)];
        MoveTo(t, Returned(GotBatch(pc.out, pc.room, pc.head, pc.upTo)));
      } else {
        MoveTo(t, GrabFirst(pc.tailFirst, pc.room, head));
      }
    }

    /** The caller's moves: begin a call or collect an answer. */
    method Handle(a: Action)
      requires !a.Tick? && Actor(a) < |threads|
      modifies this`threads
      ensures View() == Step(old(View()), a)
    {
      var t := Actor(a);
      var Thread(pc, calls, answers) := threads[t];
      if a.Collect? {
        if pc.Returned? { threads := threads[t := Thread(Idle, calls, answers + [pc.answer])]; }
      } else if pc.Idle? {
        var start := if a.CallPush? then PushFirst(a.item, a.tailFirst)
                     else if a.CallPop? then PopHead(a.tailFirst)
                     else GrabHead(a.tailFirst, a.room);
        var call := if a.CallPush? then PushCall(a.item) else if a.CallPop? then PopCall else GrabCall(a.room);
        threads := threads[t := Thread(start, calls + [call], answers)];
      }
    }

    method Perform(a: Action)
      requires Inv(View()) && Fits(View(), a)
      modifies this, buffer
      ensures View() == Step(old(View()), a) && Inv(View())
    {
      StepInv(View(), a);
      if Actor(a) < |threads| {
        if !a.Tick? {
          Handle(a);
        } else if Pushing(threads[a.t].pc) {
          TryPush(a.t);
        } else if Popping(threads[a.t].pc) {
          TryPop(a.t);
        } else {
          Grab(a.t);
        }
      }
    }

    /** Any schedule: what the theorems say of runs holds of the object. */
    method Execute(actions: seq<Action>)
      requires Inv(View()) && AllFit(View(), actions)
      modifies this, buffer
      ensures View() == Run(old(View()), actions) && Inv(View())
    {
      var i := 0;
      while i < |actions|
        invariant i <= |actions|
        invariant Inv(View()) && AllFit(View(), actions[i..])
        invariant Run(View(), actions[i..]) == Run(old(View()), actions)
      {
        assert actions[i..][0] == actions[i] && actions[i..][1..] == actions[i + 1..];
        Perform(actions[i]);
        i := i + 1;
      }
    }
  }
}
