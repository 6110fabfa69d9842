/** The Treiber stack with split reference counts (tasks/lockfree/stack/lock_free_stack.hpp).

    A node is counted in two places: the stamp beside the pointer that leads to it counts the
    threads that acquired it, and `inner` in the node counts those that gave up. Any number of
    threads run Push and TryPop; one action is one atomic operation (or one access to a node),
    memory is sequentially consistent and a weak compare-and-swap may fail for no reason. Addresses
    are reused as soon as they are freed. */
module SplitCountStack {
  import opened Counting
  import opened Options
  import opened Histories

  const MAX_STAMP: nat := 0xFFFF

  /** Pointer 0 is null. */
  datatype Stamped = Stamped(ptr: nat, stamp: nat)

  /** What a pair becomes when packed into one word: the stamp keeps its low 16 bits. */
  function Word(p: Stamped): Stamped {
    Stamped(p.ptr, p.stamp % (MAX_STAMP + 1))
  }

  datatype Node = Node(value: Item, next: Stamped, inner: int)

  /** Where a thread stands, that is, which access it makes next. `lin` is the position of the
      operation's own event in the log. */
  datatype Pc =
    | Idle
    | PushLoad(node: nat)                             // read head_ into the new node's next
    | PushCas(node: nat)                              // swing head_ to the new node
    | PopLoad                                         // read head_
    | PopAcquire(seen: Stamped)                       // raise the stamp of head_
    | PopNext(held: Stamped)                          // read next of the acquired node
    | PopSwing(held: Stamped, next: Stamped)          // swing head_ to that next
    | PopValue(held: Stamped, lin: nat)               // won: move the value out
    | PopFold(held: Stamped, value: Item, lin: nat)   // won: add the stamp to the inner counter
    | PopRelease(held: Stamped)                       // lost: take one from the inner counter
    | Free(node: nat, after: After)                   // last holder: delete the node
    | Returned(result: Option<Item>, lin: nat)

  /** What a thread does after freeing a node. */
  datatype After = Retry | Return(value: Item, lin: nat)

  /** `calls` and `answers` record the operations the thread has begun and what it was answered. */
  datatype Thread = Thread(pc: Pc, calls: seq<Call>, answers: seq<Answer>)

  /** `fault` is raised by an access to a node that is not allocated. `chain` (the nodes from top
      to bottom), `log` (one event per operation, at its linearization point) and the threads'
      histories are auxiliary: no branch of Step reads them. */
  datatype State = State(head: Stamped, heap: map<nat, Node>, threads: seq<Thread>, fault: bool,
                         chain: seq<nat>, log: seq<Event>)

  /** `addr` is the address the allocator returns, `flaky` a spurious failure. */
  datatype Action =
    | CallPush(t: nat, value: Item, addr: nat)
    | CallPop(t: nat)
    | Tick(t: nat, flaky: bool)
    | Collect(t: nat)

  function Init(n: nat): State {
    State(Stamped(0, 0), map[], seq(n, _ => Thread(Idle, [], [])), false, [], [])
  }

  // --- The operations, one atomic step at a time

  /** Actions that do not apply leave the state alone. */
  function Step(s: State, a: Action): State {
    if a.t >= |s.threads| then s else
    var pc := s.threads[a.t].pc;
    match a
    case CallPush(t, v, addr) =>
      if pc.Idle? && addr != 0 && addr !in s.heap then
        Begin(s.(heap := s.heap[addr := Node(v, Stamped(0, 0), 0)]), t, PushLoad(addr), PushCall(v))
      else s
    case CallPop(t) => if pc.Idle? then Begin(s, t, PopLoad, PopCall) else s
    case Collect(t) => if pc.Returned? then Finish(s, t, Gave(pc.result)) else s
    case Tick(t, flaky) =>
      if pc.PushLoad? || pc.PushCas? then PushStep(s, t, flaky) else PopStep(s, t, flaky)
  }

  function Goto(s: State, t: nat, pc: Pc): State
    requires t < |s.threads|
  {
    s.(threads := s.threads[t := s.threads[t].(pc := pc)])
  }

  function Begin(s: State, t: nat, pc: Pc, c: Call): State
    requires t < |s.threads|
  {
    s.(threads := s.threads[t := Thread(pc, s.threads[t].calls + [c], s.threads[t].answers)])
  }

  function Finish(s: State, t: nat, a: Answer): State
    requires t < |s.threads|
  {
    s.(threads := s.threads[t := Thread(Idle, s.threads[t].calls, s.threads[t].answers + [a])])
  }

  function Log(s: State, e: Event): State {
    s.(log := s.log + [e])
  }

  function PushStep(s: State, t: nat, flaky: bool): State
    requires t < |s.threads| && (s.threads[t].pc.PushLoad? || s.threads[t].pc.PushCas?)
  {
    var n := s.threads[t].pc.node;
    if n !in s.heap then s.(fault := true)
    else if s.threads[t].pc.PushCas? && !flaky && s.head == s.heap[n].next then
      Finish(Log(s.(head := Stamped(n, 0), chain := [n] + s.chain), Pushed(t, s.heap[n].value)), t, Done)
    else
      Goto(s.(heap := s.heap[n := s.heap[n].(next := s.head)]), t, PushCas(n))
  }

  function PopStep(s: State, t: nat, flaky: bool): State
    requires t < |s.threads|
  {
    match s.threads[t].pc
    case PopLoad =>
      if s.head.ptr == 0 then
        Goto(Log(s, SawEmpty(t)), t, Returned(None, |s.log|))
      else
        Goto(s, t, PopAcquire(s.head))
    case PopAcquire(seen) =>
      var held := Stamped(seen.ptr, seen.stamp + 1);
      if !flaky && s.head == Word(seen) then
        Goto(s.(head := Word(held)), t, PopNext(held))
      else
        Goto(s, t, PopLoad)
    case PopNext(held) =>
      if held.ptr !in s.heap then s.(fault := true)
      else Goto(s, t, PopSwing(held, s.heap[held.ptr].next))
    case PopSwing(held, next) =>
      if !flaky && s.head == Word(held) then
        Goto(Log(s.(head := next, chain := Tail(s.chain)), Popped(t, ValueAt(s, held.ptr))), t, PopValue(held, |s.log|))
      else
        Goto(s, t, PopRelease(held))
    case PopValue(held, lin) =>
      if held.ptr !in s.heap then s.(fault := true)
      else Goto(s, t, PopFold(held, s.heap[held.ptr].value, lin))
    case PopFold(held, v, lin) =>
      if held.ptr !in s.heap then s.(fault := true)
      else
        Goto(AddInner(s, held.ptr, held.stamp - 1), t,
             if s.heap[held.ptr].inner == 1 - held.stamp then Free(held.ptr, Return(v, lin)) else Returned(Some(v), lin))
    case PopRelease(held) =>
      if held.ptr !in s.heap then s.(fault := true)
      else
        Goto(AddInner(s, held.ptr, -1), t,
             if s.heap[held.ptr].inner == 1 then Free(held.ptr, Retry) else PopLoad)
    case Free(n, after) =>
      if n !in s.heap then s.(fault := true)
      else
        Goto(s.(heap := s.heap - {n}), t,
             match after case Retry => PopLoad case Return(v, lin) => Returned(Some(v), lin))
    case _ => s
  }

  function Tail(chain: seq<nat>): seq<nat> {
    if chain == [] then [] else chain[1..]
  }

  function ValueAt(s: State, n: nat): Item {
    if n in s.heap then s.heap[n].value else 0
  }

  function AddInner(s: State, n: nat, d: int): State
    requires n in s.heap
  {
    s.(heap := s.heap[n := s.heap[n].(inner := s.heap[n].inner + d)])
  }

  function Run(s: State, actions: seq<Action>): State
    decreases |actions|
  {
    if actions == [] then s else Run(Step(s, actions[0]), actions[1..])
  }

  // --- Per-thread contributions

  ghost function Hold(pc: Pc, a: nat): int {
    match pc
    case PopNext(h) => if h.ptr == a then 1 else 0
    case PopSwing(h, _) => if h.ptr == a then 1 else 0
    case PopValue(h, _) => if h.ptr == a then 1 else 0
    case PopFold(h, _, _) => if h.ptr == a then 1 else 0
    case PopRelease(h) => if h.ptr == a then 1 else 0
    case _ => 0
  }

  /** Exclusive ownership: an unpublished node, or a node about to be freed. */
  ghost function Own(pc: Pc, a: nat): int {
    match pc
    case PushLoad(n) => if n == a then 1 else 0
    case PushCas(n) => if n == a then 1 else 0
    case Free(n, _) => if n == a then 1 else 0
    case _ => 0
  }

  /** The popper of `a` between its swing and its fold. */
  ghost function Win(pc: Pc, a: nat): int {
    match pc
    case PopValue(h, _) => if h.ptr == a then 1 else 0
    case PopFold(h, _, _) => if h.ptr == a then 1 else 0
    case _ => 0
  }

  ghost function WinStamp(pc: Pc, a: nat): int {
    if Win(pc, a) == 1 then pc.held.stamp else 0
  }

  ghost function HoldFn(a: nat): Thread -> int { (th: Thread) => Hold(th.pc, a) }
  ghost function OwnFn(a: nat): Thread -> int { (th: Thread) => Own(th.pc, a) }
  ghost function WinFn(a: nat): Thread -> int { (th: Thread) => Win(th.pc, a) }
  ghost function WinStampFn(a: nat): Thread -> int { (th: Thread) => WinStamp(th.pc, a) }

  ghost function Holders(ts: seq<Thread>, a: nat): int { Sum(ts, HoldFn(a)) }
  ghost function Owners(ts: seq<Thread>, a: nat): int { Sum(ts, OwnFn(a)) }
  ghost function Winners(ts: seq<Thread>, a: nat): int { Sum(ts, WinFn(a)) }
  ghost function WonStamp(ts: seq<Thread>, a: nat): int { Sum(ts, WinStampFn(a)) }

  /** How one thread's move changes the four sums of address `a`. */
  lemma ThreadMoves(ts: seq<Thread>, t: nat, th: Thread, a: nat)
    requires t < |ts|
    ensures Holders(ts[t := th], a) == Holders(ts, a) - Hold(ts[t].pc, a) + Hold(th.pc, a)
    ensures Owners(ts[t := th], a) == Owners(ts, a) - Own(ts[t].pc, a) + Own(th.pc, a)
    ensures Winners(ts[t := th], a) == Winners(ts, a) - Win(ts[t].pc, a) + Win(th.pc, a)
    ensures WonStamp(ts[t := th], a) == WonStamp(ts, a) - WinStamp(ts[t].pc, a) + WinStamp(th.pc, a)
  {
    SumUpdate(ts, t, th, HoldFn(a));
    SumUpdate(ts, t, th, OwnFn(a));
    SumUpdate(ts, t, th, WinFn(a));
    SumUpdate(ts, t, th, WinStampFn(a));
  }

  /** What one thread contributes, the sum includes. */
  lemma ThreadCounts(ts: seq<Thread>, t: nat, a: nat)
    requires t < |ts|
    ensures 0 <= Hold(ts[t].pc, a) <= Holders(ts, a)
    ensures 0 <= Own(ts[t].pc, a) <= Owners(ts, a)
    ensures 0 <= Win(ts[t].pc, a) <= Winners(ts, a)
  {
    SumBounds(ts, HoldFn(a));
    SumBounds(ts, OwnFn(a));
    SumBounds(ts, WinFn(a));
    assert HoldFn(a)(ts[t]) == Hold(ts[t].pc, a) && OwnFn(a)(ts[t]) == Own(ts[t].pc, a) && WinFn(a)(ts[t]) == Win(ts[t].pc, a);
  }

  lemma TwoWinners(ts: seq<Thread>, t: nat, u: nat, a: nat)
    requires t < |ts| && u < |ts| && t != u
    ensures Win(ts[t].pc, a) + Win(ts[u].pc, a) <= Winners(ts, a)
  {
    SumTwo(ts, if t < u then t else u, if t < u then u else t, WinFn(a));
  }

  lemma NoWinnerNoStamp(ts: seq<Thread>, a: nat)
    requires Winners(ts, a) == 0
    ensures WonStamp(ts, a) == 0
  {
    forall i | 0 <= i < |ts| ensures WinStampFn(a)(ts[i]) == 0 {
      ThreadCounts(ts, i, a);
    }
    SumAllZero(ts, WinStampFn(a));
  }

  // --- The invariant

  /** The chain is the list that head_ and the next pointers form. */
  ghost predicate Linked(s: State) {
    && (forall i :: 0 <= i < |s.chain| ==> s.chain[i] in s.heap && s.chain[i] != 0)
    && Distinct(s.chain)
    && s.head.ptr == At(s.chain, 0)
    && (forall i :: 0 <= i < |s.chain| ==> s.heap[s.chain[i]].next.ptr == At(s.chain, i + 1))
  }

  ghost predicate Distinct(chain: seq<nat>) {
    chain == [] || (chain[0] !in chain[1..] && Distinct(chain[1..]))
  }

  ghost function At(chain: seq<nat>, i: nat): nat {
    if i < |chain| then chain[i] else 0
  }

  /** The stamp that leads to node `i` of the chain: in head_, or buried in its predecessor. */
  ghost function OuterStamp(s: State, i: nat): int
    requires i < |s.chain| && Linked(s)
  {
    if i == 0 then s.head.stamp else s.heap[s.chain[i - 1]].next.stamp
  }

  /** Conservation for a node of the chain: outer stamp + inner counter == threads holding it. */
  ghost predicate ChainLaw(s: State, i: nat)
    requires i < |s.chain| && Linked(s)
  {
    OuterStamp(s, i) + s.heap[s.chain[i]].inner == Holders(s.threads, s.chain[i])
  }

  /** Each node is in one place: the chain, an owner's hands, or held after being popped. Outside
      the chain the outer stamp is in the winner's hands until it is folded. */
  ghost predicate NodeLaw(s: State, a: nat) {
    var h, o, w, ws := Holders(s.threads, a), Owners(s.threads, a), Winners(s.threads, a), WonStamp(s.threads, a);
    if a !in s.heap then
      o == 0 && h == 0 && w == 0
    else if a in s.chain then
      a != 0 && o == 0 && w == 0 && s.heap[a].inner <= 0
    else
      && a != 0
      && ws + s.heap[a].inner == h
      && o + w <= 1
      && (o == 1 ==> h == 0)
      && (o + w == 0 ==> h >= 1)
      && (w == 1 ==> s.heap[a].inner <= 0)
  }

  /** A private node carries the argument of its owner's latest call. */
  ghost predicate Carries(s: State, calls: seq<Call>, n: nat) {
    n in s.heap ==> calls != [] && calls[|calls| - 1] == PushCall(s.heap[n].value)
  }

  /** What each program counter remembers is still true. */
  ghost predicate Remembers(s: State, t: nat)
    requires t < |s.threads|
  {
    match s.threads[t].pc
    case PushLoad(n) => Carries(s, s.threads[t].calls, n)
    case PushCas(n) => Carries(s, s.threads[t].calls, n)
    case PopAcquire(p) => p.ptr != 0 && p.stamp <= MAX_STAMP
    case PopNext(h) => h.stamp <= MAX_STAMP
    case PopSwing(h, next) => h.stamp <= MAX_STAMP && (h.ptr in s.heap ==> next == s.heap[h.ptr].next)
    case PopValue(h, lin) =>
      && WonStamp(s.threads, h.ptr) == h.stamp
      && LastOf(s.log, t, lin) && (h.ptr in s.heap ==> s.log[lin] == Popped(t, s.heap[h.ptr].value))
    case PopFold(h, v, lin) => WonStamp(s.threads, h.ptr) == h.stamp && LastOf(s.log, t, lin) && s.log[lin] == Popped(t, v)
    case Free(_, Return(v, lin)) => LastOf(s.log, t, lin) && s.log[lin] == Popped(t, v)
    case Returned(None, lin) => LastOf(s.log, t, lin) && s.log[lin] == SawEmpty(t)
    case Returned(Some(v), lin) => LastOf(s.log, t, lin) && s.log[lin] == Popped(t, v)
    case _ => true
  }

  ghost predicate StampsFit(s: State) {
    s.head.stamp <= MAX_STAMP && forall a :: a in s.heap ==> s.heap[a].next.stamp <= MAX_STAMP
  }

  ghost predicate Inv(s: State) {
    && !s.fault
    && Linked(s)
    && (forall i :: 0 <= i < |s.chain| ==> ChainLaw(s, i))
    && (forall a :: NodeLaw(s, a))
    && StampsFit(s)
    && forall t :: 0 <= t < |s.threads| ==> Remembers(s, t)
  }

  // --- Every step keeps the invariant

  /** The log only grows, and only by events of thread `t`. */
  ghost predicate Extends(log: seq<Event>, log': seq<Event>, t: nat) {
    log <= log' && forall k :: |log| <= k < |log'| ==> log'[k].t == t
  }

  /** The compare-and-swap of Acquire succeeds on a stamp that is already at its 16-bit limit. */
  predicate Overflows(s: State, a: Action) {
    a.Tick? && !a.flaky && a.t < |s.threads| && s.threads[a.t].pc.PopAcquire? &&
    s.head == Word(s.threads[a.t].pc.seen) && s.head.stamp == MAX_STAMP
  }

  /** The one assumption. */
  predicate Fits(s: State, a: Action) {
    !Overflows(s, a)
  }

  /** Every step keeps the invariant, save exactly the one that raises a full stamp. */
  lemma StepInv(s: State, a: Action)
    requires Inv(s)
    ensures Inv(Step(s, a)) <==> Fits(s, a)
  {
    if Overflows(s, a) {
      OverflowBreaks(s, a);
    } else {
      FittingStepInv(s, a);
    }
  }

  /** The stamp restarts at 0 while the number of holders grows. */
  lemma OverflowBreaks(s: State, a: Action)
    requires Inv(s) && Overflows(s, a)
    ensures !Inv(Step(s, a))
  {
    var s' := Step(s, a);
    assert Remembers(s, a.t) && ChainLaw(s, 0);
    ThreadMoves(s.threads, a.t, s'.threads[a.t], s.chain[0]);
    assert Linked(s') ==> !ChainLaw(s', 0);
  }

  lemma FittingStepInv(s: State, a: Action)
    requires Inv(s) && Fits(s, a)
    ensures Inv(Step(s, a))
  {
    if a.t < |s.threads| {
      var t, pc := a.t, s.threads[a.t].pc;
      match a
      case CallPush(_, v, addr) => if pc.Idle? && addr != 0 && addr !in s.heap { CallPushInv(s, t, v, addr); }
      case CallPop(_) => if pc.Idle? { MoveInv(s, t, Begin(s, t, PopLoad, PopCall).threads[t], s.log); }
      case Collect(_) => if pc.Returned? { MoveInv(s, t, Finish(s, t, Gave(pc.result)).threads[t], s.log); }
      case Tick(_, flaky) =>
        match pc
        case PushLoad(_) => PushStepInv(s, t, flaky);
        case PushCas(_) => PushStepInv(s, t, flaky);
        case PopAcquire(_) => PopAcquireInv(s, t, flaky);
        case PopSwing(_, _) => PopSwingInv(s, t, flaky);
        case PopFold(_, _, _) => PopFoldInv(s, t, flaky);
        case PopRelease(_) => PopReleaseInv(s, t, flaky);
        case Free(_, _) => FreeInv(s, t, flaky);
        case _ => LocalInv(s, t, flaky);
    }
  }

  /** An address where thread `t` contributes as before keeps its law. */
  lemma Elsewhere(s: State, s': State, t: nat, th: Thread, a: nat)
    requires t < |s.threads| && s'.threads == s.threads[t := th] && NodeLaw(s, a)
    requires Hold(th.pc, a) == Hold(s.threads[t].pc, a) && Own(th.pc, a) == Own(s.threads[t].pc, a)
    requires Win(th.pc, a) == Win(s.threads[t].pc, a) && WinStamp(th.pc, a) == WinStamp(s.threads[t].pc, a)
    requires a in s'.heap <==> a in s.heap
    requires a in s'.heap ==> s'.heap[a].inner == s.heap[a].inner
    requires a in s'.chain <==> a in s.chain
    ensures NodeLaw(s', a) && Holders(s'.threads, a) == Holders(s.threads, a)
  {
    ThreadMoves(s.threads, t, th, a);
  }

  lemma EverywhereElse(s: State, s': State, t: nat, th: Thread, n: nat)
    requires t < |s.threads| && s'.threads == s.threads[t := th] && NodeLaw(s', n) && (forall a :: NodeLaw(s, a))
    requires forall a :: a != n ==> Hold(th.pc, a) == Hold(s.threads[t].pc, a) && Own(th.pc, a) == Own(s.threads[t].pc, a)
    requires forall a :: a != n ==> Win(th.pc, a) == Win(s.threads[t].pc, a) && WinStamp(th.pc, a) == WinStamp(s.threads[t].pc, a)
    requires forall a :: a != n ==> (a in s'.heap <==> a in s.heap) && (a in s'.heap ==> s'.heap[a].inner == s.heap[a].inner)
    requires forall a :: a != n ==> (a in s'.chain <==> a in s.chain)
    ensures forall a :: NodeLaw(s', a) && (a != n ==> Holders(s'.threads, a) == Holders(s.threads, a))
  {
    forall a ensures NodeLaw(s', a) && (a != n ==> Holders(s'.threads, a) == Holders(s.threads, a)) {
      if a != n { assert NodeLaw(s, a); Elsewhere(s, s', t, th, a); }
    }
  }

  lemma CarriesStill(s: State, s': State, t: nat, u: nat)
    requires t < |s.threads| == |s'.threads| && u < |s.threads| && s'.threads[u] == s.threads[u]
    requires s.threads[u].pc.PushLoad? || s.threads[u].pc.PushCas?
    requires Remembers(s, u) && NodeLaw(s, s.threads[u].pc.node)
    requires forall a :: a in s.heap && a in s'.heap ==> s'.heap[a].value == s.heap[a].value
    ensures Remembers(s', u)
  {
    ThreadCounts(s.threads, u, s.threads[u].pc.node);
  }

  lemma SwingsStill(s: State, s': State, t: nat, u: nat)
    requires t < |s.threads| == |s'.threads| && u < |s.threads| && s'.threads[u] == s.threads[u]
    requires s.threads[u].pc.PopSwing? && Remembers(s, u) && NodeLaw(s, s.threads[u].pc.held.ptr)
    requires forall a :: a in s.heap && a in s'.heap && Holders(s.threads, a) >= 1 ==> s'.heap[a].next == s.heap[a].next
    ensures Remembers(s', u)
  {
    ThreadCounts(s.threads, u, s.threads[u].pc.held.ptr);
  }

  lemma WonStill(s: State, s': State, t: nat, th: Thread, u: nat)
    requires t < |s.threads| && u < |s.threads| && u != t && s'.threads == s.threads[t := th]
    requires s.threads[u].pc.PopValue? || s.threads[u].pc.PopFold?
    requires Remembers(s, u) && NodeLaw(s, s.threads[u].pc.held.ptr) && Extends(s.log, s'.log, t)
    requires forall a :: Win(th.pc, a) == 1 ==> Win(s.threads[t].pc, a) == 1 || Winners(s.threads, a) == 0
    requires forall a :: a in s.heap && a in s'.heap ==> s'.heap[a].value == s.heap[a].value
    ensures Remembers(s', u)
  {
    var a := s.threads[u].pc.held.ptr;
    ThreadMoves(s.threads, t, th, a);
    ThreadCounts(s.threads, u, a);
    TwoWinners(s.threads, t, u, a);
  }

  /** A step of thread `t` leaves true what another thread `u` remembers. */
  lemma OtherRemembers(s: State, s': State, t: nat, th: Thread, u: nat)
    requires Inv(s) && t < |s.threads| && u < |s.threads| && u != t
    requires s'.threads == s.threads[t := th] && Extends(s.log, s'.log, t)
    requires forall a :: a in s.heap && a in s'.heap && Holders(s.threads, a) >= 1 ==>
               s'.heap[a].value == s.heap[a].value && s'.heap[a].next == s.heap[a].next
    requires forall a :: Win(th.pc, a) == 1 ==> Win(s.threads[t].pc, a) == 1 || Winners(s.threads, a) == 0
    requires forall a :: a in s.heap && a in s'.heap ==> s'.heap[a].value == s.heap[a].value
    ensures Remembers(s', u)
  {
    assert Remembers(s, u);
    var pc := s.threads[u].pc;
    if pc.PushLoad? || pc.PushCas? {
      assert NodeLaw(s, pc.node);
      CarriesStill(s, s', t, u);
    } else if pc.PopSwing? {
      assert NodeLaw(s, pc.held.ptr);
      SwingsStill(s, s', t, u);
    } else if pc.PopValue? || pc.PopFold? {
      assert NodeLaw(s, pc.held.ptr);
      WonStill(s, s', t, th, u);
    }
  }

  lemma OthersRemember(s: State, s': State, t: nat, th: Thread)
    requires Inv(s) && t < |s.threads|
    requires s'.threads == s.threads[t := th] && Extends(s.log, s'.log, t)
    requires forall a :: a in s.heap && a in s'.heap && Holders(s.threads, a) >= 1 ==>
               s'.heap[a].value == s.heap[a].value && s'.heap[a].next == s.heap[a].next
    requires forall a :: Win(th.pc, a) == 1 ==> Win(s.threads[t].pc, a) == 1 || Winners(s.threads, a) == 0
    requires forall a :: a in s.heap && a in s'.heap ==> s'.heap[a].value == s.heap[a].value
    requires Remembers(s', t)
    ensures forall u :: 0 <= u < |s'.threads| ==> Remembers(s', u)
  {
    forall u | 0 <= u < |s'.threads| ensures Remembers(s', u) {
      if u != t { OtherRemembers(s, s', t, th, u); }
    }
  }

  /** A step of thread `t` that concerns one node `n` and leaves the chain as it is. */
  lemma NodeStepInv(s: State, s': State, t: nat, th: Thread, n: nat)
    requires Inv(s) && t < |s.threads| && n != 0 && !s'.fault && StampsFit(s')
    requires s'.threads == s.threads[t := th] && s'.chain == s.chain && Extends(s.log, s'.log, t)
    requires s'.head.ptr == s.head.ptr && (s.head.ptr != n ==> s'.head == s.head)
    requires forall a :: a != n ==> Hold(th.pc, a) == Hold(s.threads[t].pc, a) && Own(th.pc, a) == Own(s.threads[t].pc, a)
    requires forall a :: Win(th.pc, a) == 0 && (a != n ==> Win(s.threads[t].pc, a) == 0)
    requires forall a :: a != n ==> (a in s'.heap <==> a in s.heap) && (a in s.heap ==> s'.heap[a] == s.heap[a])
    requires n in s.heap && n in s'.heap ==> s'.heap[n].value == s.heap[n].value
    requires n in s.heap && n in s'.heap && s'.heap[n].next != s.heap[n].next ==> Owners(s.threads, n) == 1
    requires NodeLaw(s', n) && Remembers(s', t)
    requires n in s.chain ==> n in s'.heap
    requires n in s.chain ==>
               s'.heap[n].inner - s.heap[n].inner + s'.head.stamp - s.head.stamp == Hold(th.pc, n) - Hold(s.threads[t].pc, n)
    ensures Inv(s')
  {
    assert NodeLaw(s, n);
    ThreadMoves(s.threads, t, th, n);
    EverywhereElse(s, s', t, th, n);
    assert Linked(s');
    forall i | 0 <= i < |s'.chain| ensures ChainLaw(s', i) { assert ChainLaw(s, i); }
    OthersRemember(s, s', t, th);
  }

  /** A thread that keeps its contributions may move, and the log may grow. */
  lemma MoveInv(s: State, t: nat, th: Thread, log: seq<Event>)
    requires Inv(s) && t < |s.threads| && Extends(s.log, log, t)
    requires forall a :: Hold(th.pc, a) == Hold(s.threads[t].pc, a) && Own(th.pc, a) == Own(s.threads[t].pc, a)
    requires forall a :: Win(th.pc, a) == Win(s.threads[t].pc, a) && WinStamp(th.pc, a) == WinStamp(s.threads[t].pc, a)
    requires Remembers(s.(threads := s.threads[t := th], log := log), t)
    ensures Inv(s.(threads := s.threads[t := th], log := log))
  {
    var s' := s.(threads := s.threads[t := th], log := log);
    forall a ensures NodeLaw(s', a) && Holders(s'.threads, a) == Holders(s.threads, a) {
      assert NodeLaw(s, a);
      Elsewhere(s, s', t, th, a);
    }
    forall i | 0 <= i < |s'.chain| ensures ChainLaw(s', i) {
      assert ChainLaw(s, i);
    }
    forall u | 0 <= u < |s'.threads| ensures Remembers(s', u) {
      if u != t { OtherRemembers(s, s', t, th, u); }
    }
  }

  lemma LocalInv(s: State, t: nat, flaky: bool)
    requires Inv(s) && t < |s.threads|
    requires s.threads[t].pc.PopLoad? || s.threads[t].pc.PopNext? || s.threads[t].pc.PopValue? ||
             s.threads[t].pc.Idle? || s.threads[t].pc.Returned?
    ensures Inv(PopStep(s, t, flaky))
  {
    var th := s.threads[t];
    assert Remembers(s, t);
    match th.pc
    case PopLoad =>
      if s.head.ptr == 0 {
        MoveInv(s, t, th.(pc := Returned(None, |s.log|)), s.log + [SawEmpty(t)]);
      } else {
        MoveInv(s, t, th.(pc := PopAcquire(s.head)), s.log);
      }
    case PopNext(held) =>
      ThreadCounts(s.threads, t, held.ptr);
      assert NodeLaw(s, held.ptr);
      MoveInv(s, t, th.(pc := PopSwing(held, s.heap[held.ptr].next)), s.log);
    case PopValue(held, lin) =>
      ThreadCounts(s.threads, t, held.ptr);
      assert NodeLaw(s, held.ptr);
      var th' := th.(pc := PopFold(held, s.heap[held.ptr].value, lin));
      ThreadMoves(s.threads, t, th', held.ptr);
      MoveInv(s, t, th', s.log);
    case _ =>
  }

  lemma CallPushInv(s: State, t: nat, v: Item, addr: nat)
    requires Inv(s) && t < |s.threads| && s.threads[t].pc.Idle? && addr != 0 && addr !in s.heap
    ensures Inv(Step(s, CallPush(t, v, addr)))
  {
    var th := Step(s, CallPush(t, v, addr)).threads[t];
    assert NodeLaw(s, addr);
    ThreadMoves(s.threads, t, th, addr);
    NoWinnerNoStamp(s.threads, addr);
    NodeStepInv(s, Step(s, CallPush(t, v, addr)), t, th, addr);
  }

  lemma PushStepInv(s: State, t: nat, flaky: bool)
    requires Inv(s) && t < |s.threads| && (s.threads[t].pc.PushLoad? || s.threads[t].pc.PushCas?)
    ensures Inv(PushStep(s, t, flaky))
  {
    var n := s.threads[t].pc.node;
    ThreadCounts(s.threads, t, n);
    assert NodeLaw(s, n) && Remembers(s, t);
    NoWinnerNoStamp(s.threads, n);
    if s.threads[t].pc.PushCas? && !flaky && s.head == s.heap[n].next {
      PublishInv(s, t);
    } else {
      var s' := PushStep(s, t, flaky);
      ThreadMoves(s.threads, t, s'.threads[t], n);
      NodeStepInv(s, s', t, s'.threads[t], n);
    }
  }

  lemma PublishInv(s: State, t: nat)
    requires Inv(s) && t < |s.threads| && s.threads[t].pc.PushCas?
    requires s.threads[t].pc.node in s.heap && s.threads[t].pc.node != 0 && s.threads[t].pc.node !in s.chain
    requires s.heap[s.threads[t].pc.node].next == s.head
    requires Owners(s.threads, s.threads[t].pc.node) == 1 && WonStamp(s.threads, s.threads[t].pc.node) == 0
    requires Winners(s.threads, s.threads[t].pc.node) == 0
    ensures Inv(PushStep(s, t, false))
  {
    var n := s.threads[t].pc.node;
    var s' := PushStep(s, t, false);
    var th := s'.threads[t];
    ThreadMoves(s.threads, t, th, n);
    assert NodeLaw(s, n);
    assert forall a :: a in [n] + s.chain <==> a == n || a in s.chain;
    EverywhereElse(s, s', t, th, n);
    Published(s, s', n);
    OthersRemember(s, s', t, th);
  }

  /** The new top; every older node keeps the stamp that leads to it. */
  lemma Published(s: State, s': State, n: nat)
    requires Linked(s) && n in s.heap && n !in s.chain && n != 0 && s.heap[n].next == s.head
    requires forall i :: 0 <= i < |s.chain| ==> ChainLaw(s, i)
    requires s'.heap == s.heap && s'.chain == [n] + s.chain && s'.head == Stamped(n, 0)
    requires forall a :: a in s.chain ==> Holders(s'.threads, a) == Holders(s.threads, a)
    requires s.heap[n].inner == Holders(s'.threads, n)
    ensures Linked(s') && forall i :: 0 <= i < |s'.chain| ==> ChainLaw(s', i)
  {
    PublishedLinks(s, s', n);
    forall i | 0 <= i < |s'.chain| ensures ChainLaw(s', i) {
      if i > 0 { assert ChainLaw(s, i - 1); }
    }
  }

  lemma PublishedLinks(s: State, s': State, n: nat)
    requires Linked(s) && n in s.heap && n !in s.chain && n != 0 && s.heap[n].next == s.head
    requires s'.heap == s.heap && s'.chain == [n] + s.chain && s'.head == Stamped(n, 0)
    ensures Linked(s')
  {
    assert s'.chain[1..] == s.chain;
  }

  lemma PopAcquireInv(s: State, t: nat, flaky: bool)
    requires Inv(s) && t < |s.threads| && s.threads[t].pc.PopAcquire? && Fits(s, Tick(t, flaky))
    ensures Inv(PopStep(s, t, flaky))
  {
    var th := s.threads[t];
    if !flaky && s.head == Word(th.pc.seen) {
      AcquiredInv(s, t);
    } else {
      MoveInv(s, t, th.(pc := PopLoad), s.log);
    }
  }

  /** The stamp of head_ grows with the number of holders. */
  lemma AcquiredInv(s: State, t: nat)
    requires Inv(s) && t < |s.threads| && s.threads[t].pc.PopAcquire?
    requires s.head == Word(s.threads[t].pc.seen) && s.head.stamp < MAX_STAMP
    ensures Inv(PopStep(s, t, false))
  {
    assert Remembers(s, t);
    var s', n := PopStep(s, t, false), s.head.ptr;
    assert n == s.chain[0];
    assert NodeLaw(s, n);
    ThreadMoves(s.threads, t, s'.threads[t], n);
    NodeStepInv(s, s', t, s'.threads[t], n);
  }

  lemma PopSwingInv(s: State, t: nat, flaky: bool)
    requires Inv(s) && t < |s.threads| && s.threads[t].pc.PopSwing?
    ensures Inv(PopStep(s, t, flaky))
  {
    var th := s.threads[t];
    var held := th.pc.held;
    assert Remembers(s, t);
    ThreadCounts(s.threads, t, held.ptr);
    assert NodeLaw(s, held.ptr);
    if !flaky && s.head == Word(held) {
      UnlinkInv(s, t);
    } else {
      MoveInv(s, t, th.(pc := PopRelease(held)), s.log);
    }
  }

  lemma UnlinkInv(s: State, t: nat)
    requires Inv(s) && t < |s.threads| && s.threads[t].pc.PopSwing?
    requires s.head == s.threads[t].pc.held && s.head.ptr in s.heap && s.head.ptr != 0
    requires s.threads[t].pc.next == s.heap[s.head.ptr].next
    ensures Inv(PopStep(s, t, false))
  {
    var n := s.head.ptr;
    var s' := PopStep(s, t, false);
    var th := s'.threads[t];
    assert n == s.chain[0];
    assert ChainLaw(s, 0) && NodeLaw(s, n);
    ThreadMoves(s.threads, t, th, n);
    NoWinnerNoStamp(s.threads, n);
    TopAndRest(s.chain, n, s'.chain);
    EverywhereElse(s, s', t, th, n);
    Unlinked(s, s');
    OthersRemember(s, s', t, th);
  }

  lemma TopAndRest(chain: seq<nat>, n: nat, rest: seq<nat>)
    requires chain != [] && n == chain[0] && rest == chain[1..]
    ensures forall a :: a in chain <==> a == n || a in rest
  {
    assert chain == [n] + rest;
    assert forall a :: a in [n] + rest <==> a == n || a in rest;
  }

  /** The old top leaves the chain, and the node below resurfaces with the stamp buried in it. */
  lemma Unlinked(s: State, s': State)
    requires Linked(s) && s.chain != []
    requires forall i :: 0 <= i < |s.chain| ==> ChainLaw(s, i)
    requires s'.heap == s.heap && s'.chain == s.chain[1..] && s'.head == s.heap[s.chain[0]].next
    requires forall a :: a in s.chain ==> Holders(s'.threads, a) == Holders(s.threads, a)
    ensures Linked(s') && forall i :: 0 <= i < |s'.chain| ==> ChainLaw(s', i)
    ensures s.chain[0] !in s'.chain
  {
    assert forall i :: 0 <= i < |s'.chain| ==> s'.chain[i] == s.chain[i + 1];
    assert Linked(s');
    forall i | 0 <= i < |s'.chain| ensures ChainLaw(s', i) {
      assert ChainLaw(s, i + 1);
    }
  }

  lemma PopFoldInv(s: State, t: nat, flaky: bool)
    requires Inv(s) && t < |s.threads| && s.threads[t].pc.PopFold?
    ensures Inv(PopStep(s, t, flaky))
  {
    var n := s.threads[t].pc.held.ptr;
    var s' := PopStep(s, t, flaky);
    assert Remembers(s, t);
    ThreadCounts(s.threads, t, n);
    assert NodeLaw(s, n);
    ThreadMoves(s.threads, t, s'.threads[t], n);
    NodeStepInv(s, s', t, s'.threads[t], n);
  }

  lemma PopReleaseInv(s: State, t: nat, flaky: bool)
    requires Inv(s) && t < |s.threads| && s.threads[t].pc.PopRelease?
    ensures Inv(PopStep(s, t, flaky))
  {
    var n := s.threads[t].pc.held.ptr;
    var s' := PopStep(s, t, flaky);
    ThreadCounts(s.threads, t, n);
    assert NodeLaw(s, n);
    ThreadMoves(s.threads, t, s'.threads[t], n);
    if Winners(s.threads, n) == 0 { NoWinnerNoStamp(s.threads, n); }
    NodeStepInv(s, s', t, s'.threads[t], n);
  }

  lemma FreeInv(s: State, t: nat, flaky: bool)
    requires Inv(s) && t < |s.threads| && s.threads[t].pc.Free?
    ensures Inv(PopStep(s, t, flaky))
  {
    var n := s.threads[t].pc.node;
    var s' := PopStep(s, t, flaky);
    assert Remembers(s, t);
    ThreadCounts(s.threads, t, n);
    assert NodeLaw(s, n);
    ThreadMoves(s.threads, t, s'.threads[t], n);
    NodeStepInv(s, s', t, s'.threads[t], n);
  }

  // --- Refinement to a sequential stack

  /** The result of running a log of events on a sequential stack. */
  datatype Replayed = Legal(items: seq<Item>) | Illegal

  function Apply(r: Replayed, e: Event): Replayed {
    if r.Illegal? then Illegal else
    match e
    case Pushed(_, v) => Legal([v] + r.items)
    case Popped(_, v) => if r.items != [] && r.items[0] == v then Legal(r.items[1..]) else Illegal
    case SawEmpty(_) => if r.items == [] then r else Illegal
  }

  function Replay(log: seq<Event>): Replayed {
    if log == [] then Legal([]) else Apply(Replay(log[..|log| - 1]), log[|log| - 1])
  }

  lemma ReplayAppend(log: seq<Event>, e: Event)
    ensures Replay(log + [e]) == Apply(Replay(log), e)
  {
    assert (log + [e])[..|log|] == log;
  }

  ghost function Contents(s: State): seq<Item> {
    seq(|s.chain|, i requires 0 <= i < |s.chain| => ValueAt(s, s.chain[i]))
  }

  /** The log is a legal stack history, and the stack holds what that history leaves. */
  ghost predicate Refines(s: State) {
    Replay(s.log) == Legal(Contents(s))
  }

  // The three kinds of linearization points.

  predicate Publishes(s: State, a: Action) {
    a.Tick? && !a.flaky && a.t < |s.threads| && s.threads[a.t].pc.PushCas? &&
    s.threads[a.t].pc.node in s.heap && s.head == s.heap[s.threads[a.t].pc.node].next
  }

  predicate Unlinks(s: State, a: Action) {
    a.Tick? && !a.flaky && a.t < |s.threads| && s.threads[a.t].pc.PopSwing? && s.head == Word(s.threads[a.t].pc.held)
  }

  predicate FindsEmpty(s: State, a: Action) {
    a.Tick? && a.t < |s.threads| && s.threads[a.t].pc.PopLoad? && s.head.ptr == 0
  }

  lemma OtherStepsAreSilent(s: State, a: Action)
    requires !Publishes(s, a) && !Unlinks(s, a) && !FindsEmpty(s, a)
    ensures Step(s, a).chain == s.chain && Step(s, a).log == s.log
    ensures forall n :: n in s.heap && n in Step(s, a).heap ==> Step(s, a).heap[n].value == s.heap[n].value
  {
    if a.Tick? && a.t < |s.threads| {
      match s.threads[a.t].pc
      case Free(_, _) =>
      case PushLoad(_) =>
      case PushCas(_) =>
      case PopFold(_, _, _) =>
      case PopRelease(_) =>
      case _ =>
    }
  }

  lemma StepRefines(s: State, a: Action)
    requires Inv(s) && Fits(s, a) && Refines(s)
    ensures Refines(Step(s, a))
  {
    if Publishes(s, a) {
      PublishRefines(s, a);
    } else if Unlinks(s, a) {
      UnlinkRefines(s, a);
    } else if FindsEmpty(s, a) {
      EmptyRefines(s, a);
    } else {
      StepInv(s, a);
      OtherStepsAreSilent(s, a);
      SameContents(s, Step(s, a));
    }
  }

  lemma SameContents(s: State, s': State)
    requires Linked(s) && Linked(s') && Refines(s) && s'.log == s.log && s'.chain == s.chain
    requires forall n :: n in s.heap && n in s'.heap ==> s'.heap[n].value == s.heap[n].value
    ensures Refines(s')
  {
    assert Contents(s') == Contents(s);
  }

  lemma EmptyRefines(s: State, a: Action)
    requires Inv(s) && Refines(s) && FindsEmpty(s, a)
    ensures Refines(Step(s, a))
  {
    ReplayAppend(s.log, SawEmpty(a.t));
    assert s.chain == [];
    assert Contents(Step(s, a)) == Contents(s);
  }

  lemma PublishRefines(s: State, a: Action)
    requires Inv(s) && Refines(s) && Publishes(s, a)
    ensures Refines(Step(s, a))
  {
    var n := s.threads[a.t].pc.node;
    ReplayAppend(s.log, Pushed(a.t, s.heap[n].value));
    var s' := Step(s, a);
    assert s'.chain == [n] + s.chain && s'.heap == s.heap;
    assert Contents(s') == [s.heap[n].value] + Contents(s);
  }

  lemma UnlinkRefines(s: State, a: Action)
    requires Inv(s) && Refines(s) && Unlinks(s, a)
    ensures Refines(Step(s, a))
  {
    TopIsHeld(s, a.t);
    ReplayAppend(s.log, Popped(a.t, s.heap[s.threads[a.t].pc.held.ptr].value));
    assert Contents(Step(s, a)) == Contents(s)[1..];
  }

  lemma TopIsHeld(s: State, t: nat)
    requires Inv(s) && t < |s.threads| && s.threads[t].pc.PopSwing? && s.head == Word(s.threads[t].pc.held)
    ensures s.threads[t].pc.held.ptr in s.heap && s.chain != [] && s.chain[0] == s.threads[t].pc.held.ptr
  {
    ThreadCounts(s.threads, t, s.threads[t].pc.held.ptr);
    assert NodeLaw(s, s.threads[t].pc.held.ptr);
  }

  // --- Each operation takes effect exactly once

  /** The operation is under way and has not yet taken effect. */
  ghost predicate Pending(pc: Pc) {
    match pc
    case Idle => false
    case PopValue(_, _) => false
    case PopFold(_, _, _) => false
    case Free(_, Return(_, _)) => false
    case Returned(_, _) => false
    case _ => true
  }

  /** A TryPop is under way and has not yet taken effect. */
  ghost predicate Popping(pc: Pc) {
    Pending(pc) && !pc.PushLoad? && !pc.PushCas?
  }

  /** The events of thread `t` are its calls, and its answers are those of its events. */
  ghost predicate CountedAt(s: State, t: nat)
    requires t < |s.threads|
  {
    var th := s.threads[t];
    && Accounted(s.log, t, th.calls, th.answers, Pending(th.pc))
    && |th.answers| + (if th.pc.Idle? then 0 else 1) == |th.calls|
    && (Popping(th.pc) ==> th.calls[|th.calls| - 1] == PopCall)
  }

  ghost predicate Counted(s: State) {
    forall t :: 0 <= t < |s.threads| ==> CountedAt(s, t)
  }

  lemma StepCounted(s: State, a: Action)
    requires Inv(s) && Counted(s)
    ensures Counted(Step(s, a))
  {
    var s' := Step(s, a);
    if Publishes(s, a) || Unlinks(s, a) || FindsEmpty(s, a) {
      EventCounted(s, a);
    } else {
      OtherStepsAreSilent(s, a);
      OtherStepsKeepThreads(s, a);
      forall t | 0 <= t < |s'.threads| ensures CountedAt(s', t) {
        assert CountedAt(s, t);
        if t == a.t { SilentCounted(s, a); }
      }
    }
  }

  lemma OtherStepsKeepThreads(s: State, a: Action)
    ensures |Step(s, a).threads| == |s.threads|
    ensures forall t :: 0 <= t < |s.threads| && t != a.t ==> Step(s, a).threads[t] == s.threads[t]
  {
    if a.Tick? && a.t < |s.threads| {
      match s.threads[a.t].pc
      case Free(_, _) =>
      case PushLoad(_) =>
      case PushCas(_) =>
      case PopSwing(_, _) =>
      case PopFold(_, _, _) =>
      case PopRelease(_) =>
      case _ =>
    }
  }

  lemma SilentCounted(s: State, a: Action)
    requires Inv(s) && !Publishes(s, a) && !Unlinks(s, a) && !FindsEmpty(s, a)
    requires a.t < |s.threads| && CountedAt(s, a.t) && Step(s, a).log == s.log && |Step(s, a).threads| == |s.threads|
    ensures CountedAt(Step(s, a), a.t)
  {
    var th := s.threads[a.t];
    if a.Tick? {
      SilentTick(s, a);
    } else if a.Collect? && th.pc.Returned? {
      assert Remembers(s, a.t);
      LastOfOf(s.log, a.t, th.pc.lin);
      AccountedReturn(s.log, a.t, th.calls, th.answers, Gave(th.pc.result));
    } else if !a.Collect? && th.pc.Idle? {
      AccountedCall(s.log, a.t, th.calls, th.answers, if a.CallPush? then PushCall(a.value) else PopCall);
    }
  }

  /** A step without event leaves the history of the thread and what its call waits for. */
  lemma SilentTick(s: State, a: Action)
    requires a.Tick? && a.t < |s.threads| && !Publishes(s, a) && !Unlinks(s, a) && !FindsEmpty(s, a)
    ensures var th, th' := s.threads[a.t], Step(s, a).threads[a.t];
      && th'.calls == th.calls && th'.answers == th.answers && (th'.pc.Idle? <==> th.pc.Idle?)
      && (Pending(th'.pc) <==> Pending(th.pc)) && (Popping(th'.pc) <==> Popping(th.pc))
  {
    match s.threads[a.t].pc
    case Free(_, Return(_, _)) =>
    case Free(_, Retry) =>
    case PushLoad(_) =>
    case PushCas(_) =>
    case PopFold(_, _, _) =>
    case PopRelease(_) =>
    case _ =>
  }

  /** Exactly one event, that of the call of the stepping thread, which is then no longer pending. */
  lemma EventStep(s: State, a: Action) returns (e: Event)
    requires Inv(s) && Counted(s) && (Publishes(s, a) || Unlinks(s, a) || FindsEmpty(s, a))
    ensures Step(s, a).log == s.log + [e] && e.t == a.t
    ensures forall u :: 0 <= u < |s.threads| && u != a.t ==> Step(s, a).threads[u] == s.threads[u]
    ensures var th, th' := s.threads[a.t], Step(s, a).threads[a.t];
      && Pending(th.pc) && !Pending(th'.pc) && th'.calls == th.calls
      && th.calls != [] && Matches(th.calls[|th.calls| - 1], e)
      && th'.answers == (if e.Pushed? then th.answers + [Done] else th.answers) && (th'.pc.Idle? <==> e.Pushed?)
  {
    e := Step(s, a).log[|s.log|];
    assert CountedAt(s, a.t) && Remembers(s, a.t);
    if Publishes(s, a) {
    } else if Unlinks(s, a) {
      TopIsHeld(s, a.t);
    }
  }

  lemma EventCounted(s: State, a: Action)
    requires Inv(s) && Counted(s) && (Publishes(s, a) || Unlinks(s, a) || FindsEmpty(s, a))
    ensures Counted(Step(s, a))
  {
    var s' := Step(s, a);
    var e := EventStep(s, a);
    OtherStepsKeepThreads(s, a);
    forall t | 0 <= t < |s'.threads| ensures CountedAt(s', t) {
      assert CountedAt(s, t);
      if t != a.t {
        AccountedOther(s.log, e, t, s.threads[t].calls, s.threads[t].answers, Pending(s.threads[t].pc));
      } else {
        EffectCounted(s, s', t, e);
      }
    }
  }

  lemma EffectCounted(s: State, s': State, t: nat, e: Event)
    requires t < |s.threads| && t < |s'.threads| && CountedAt(s, t) && s'.log == s.log + [e] && e.t == t
    requires var th, th' := s.threads[t], s'.threads[t];
      && Pending(th.pc) && !Pending(th'.pc) && th'.calls == th.calls
      && th.calls != [] && Matches(th.calls[|th.calls| - 1], e)
      && th'.answers == (if e.Pushed? then th.answers + [Done] else th.answers) && (th'.pc.Idle? <==> e.Pushed?)
    ensures CountedAt(s', t)
  {
    var calls, answers := s.threads[t].calls, s.threads[t].answers;
    AccountedEffect(s.log, e, t, calls, answers);
    OfAppend(s.log, e, t);
    if e.Pushed? { AccountedReturn(s.log + [e], t, calls, answers, Done); }
  }

  /** The call that thread `t` begins with this action, if it begins one. */
  ghost function Begun(s: State, a: Action, t: nat): seq<Call> {
    if a.t != t || t >= |s.threads| || !s.threads[t].pc.Idle? then []
    else if a.CallPop? then [PopCall]
    else if a.CallPush? && a.addr != 0 && a.addr !in s.heap then [PushCall(a.value)]
    else []
  }

  /** The calls that the client makes from thread `t` in a run. */
  ghost function Asked(s: State, actions: seq<Action>, t: nat): seq<Call>
    decreases |actions|
  {
    if actions == [] then [] else Begun(s, actions[0], t) + Asked(Step(s, actions[0]), actions[1..], t)
  }

  /** What a run from `s` has made of the calls of thread `t`. */
  ghost predicate Called(s: State, actions: seq<Action>, end: State, t: nat)
    requires t < |s.threads|
  {
    |end.threads| == |s.threads| && end.threads[t].calls == s.threads[t].calls + Asked(s, actions, t)
  }

  lemma {:induction false} AskedAreCalls(s: State, actions: seq<Action>, t: nat)
    requires t < |s.threads|
    ensures Called(s, actions, Run(s, actions), t)
    decreases |actions|
  {
    if actions != [] {
      var s' := Step(s, actions[0]);
      StepBegins(s, actions[0], t);
      AskedAreCalls(s', actions[1..], t);
      CalledFirst(s, actions, s', Run(s', actions[1..]), t);
    }
  }

  lemma CalledFirst(s: State, actions: seq<Action>, s': State, end: State, t: nat)
    requires actions != [] && s' == Step(s, actions[0]) && t < |s.threads| == |s'.threads|
    requires s'.threads[t].calls == s.threads[t].calls + Begun(s, actions[0], t) && Called(s', actions[1..], end, t)
    ensures Called(s, actions, end, t)
  {
    AskedUnfolds(s, actions, s', t, s.threads[t].calls);
  }

  lemma AskedUnfolds(s: State, actions: seq<Action>, s': State, t: nat, calls: seq<Call>)
    requires actions != [] && s' == Step(s, actions[0])
    ensures calls + Asked(s, actions, t) == (calls + Begun(s, actions[0], t)) + Asked(s', actions[1..], t)
  {
    var begun, rest := Begun(s, actions[0], t), Asked(s', actions[1..], t);
    assert (calls + begun) + rest == calls + (begun + rest);
  }

  lemma {:induction false} ThreadsStay(s: State, actions: seq<Action>)
    ensures |Run(s, actions).threads| == |s.threads|
    decreases |actions|
  {
    if actions != [] {
      StepBegins(s, actions[0], 0);
      ThreadsStay(Step(s, actions[0]), actions[1..]);
    }
  }

  lemma StepBegins(s: State, a: Action, t: nat)
    ensures |Step(s, a).threads| == |s.threads|
    ensures t < |s.threads| ==> Step(s, a).threads[t].calls == s.threads[t].calls + Begun(s, a, t)
  {
    OtherStepsKeepThreads(s, a);
    if a.Tick? && a.t == t < |s.threads| {
      match s.threads[t].pc
      case Free(_, _) =>
      case PushLoad(_) =>
      case PushCas(_) =>
      case PopSwing(_, _) =>
      case PopFold(_, _, _) =>
      case PopRelease(_) =>
      case _ =>
    }
  }

  // --- Every run

  predicate AllFit(s: State, actions: seq<Action>)
    decreases |actions|
  {
    actions == [] || (Fits(s, actions[0]) && AllFit(Step(s, actions[0]), actions[1..]))
  }

  lemma {:induction false} RunKeeps(s: State, actions: seq<Action>)
    requires Inv(s) && Refines(s) && Counted(s) && AllFit(s, actions)
    ensures Inv(Run(s, actions)) && Refines(Run(s, actions)) && Counted(Run(s, actions))
    decreases |actions|
  {
    if actions != [] {
      StepInv(s, actions[0]);
      StepRefines(s, actions[0]);
      StepCounted(s, actions[0]);
      RunKeeps(Step(s, actions[0]), actions[1..]);
    }
  }

  lemma InitKeeps(n: nat)
    ensures Inv(Init(n)) && Refines(Init(n)) && Counted(Init(n))
  {
    var s := Init(n);
    forall a ensures NodeLaw(s, a) {
      QuietSums(s.threads, a);
    }
  }

  /** In every run of any number of threads whose stamps fit their 16 bits: the log of
      linearization points is a legal stack history that leaves exactly the current contents. The
      events of each thread are, one by one, the calls that the client made from it, with the
      values passed to Push, up to the call still pending; and what each TryPop answered is what
      its event recorded. */
  lemma Linearizable(n: nat, actions: seq<Action>)
    requires AllFit(Init(n), actions)
    ensures var s := Run(Init(n), actions);
      && Replay(s.log) == Legal(Contents(s))
      && |s.threads| == n && forall t :: 0 <= t < n ==> HistoryOf(s, t, Asked(Init(n), actions, t))
  {
    InitKeeps(n);
    HistoriesHold(Init(n), actions, Run(Init(n), actions));
  }

  lemma HistoriesHold(s: State, actions: seq<Action>, s': State)
    requires Inv(s) && Refines(s) && Counted(s) && s' == Run(s, actions) && AllFit(s, actions)
    requires forall t :: 0 <= t < |s.threads| ==> s.threads[t].calls == []
    ensures Refines(s') && |s'.threads| == |s.threads|
    ensures forall t :: 0 <= t < |s'.threads| ==> HistoryOf(s', t, Asked(s, actions, t))
  {
    RunKeeps(s, actions);
    ThreadsStay(s, actions);
    forall t | 0 <= t < |s'.threads| ensures HistoryOf(s', t, Asked(s, actions, t)) {
      AskedAreCalls(s, actions, t);
      CalledHistory(s, actions, s', t);
    }
  }

  lemma CalledHistory(s: State, actions: seq<Action>, s': State, t: nat)
    requires t < |s.threads| && s.threads[t].calls == [] && Called(s, actions, s', t) && Inv(s') && Counted(s')
    ensures HistoryOf(s', t, Asked(s, actions, t))
  {
    HistoryHolds(s', t);
  }

  /** What thread `t` asked and was answered is what its events say. */
  ghost predicate HistoryOf(s: State, t: nat, asked: seq<Call>)
    requires t < |s.threads|
  {
    var th := s.threads[t];
    && Accounted(s.log, t, asked, th.answers, Pending(th.pc))
    && |th.answers| + (if th.pc.Idle? then 0 else 1) == |asked|
    && (th.pc.Returned? ==> Of(s.log, t) == Of(s.log, t)[..|th.answers|] + [EventOf(t, PopCall, Gave(th.pc.result))])
  }

  lemma HistoryHolds(s: State, t: nat)
    requires Inv(s) && Counted(s) && t < |s.threads|
    ensures HistoryOf(s, t, s.threads[t].calls)
  {
    assert CountedAt(s, t) && Remembers(s, t);
    if s.threads[t].pc.Returned? { LastOfOf(s.log, t, s.threads[t].pc.lin); }
  }

  /** The nodes that a thread's next access touches. */
  ghost function Touches(pc: Pc): set<nat> {
    match pc
    case PushLoad(n) => {n}
    case PushCas(n) => {n}
    case PopNext(h) => {h.ptr}
    case PopValue(h, _) => {h.ptr}
    case PopFold(h, _, _) => {h.ptr}
    case PopRelease(h) => {h.ptr}
    case Free(n, _) => {n}
    case _ => {}
  }

  /** Reclamation, in every run whose stamps fit: no access ever touched a freed node and none is
      about to; a node about to be freed is allocated, off the stack, held by nobody and touched by
      nobody else; and every allocated node is on the stack, unpublished, or still held. */
  lemma MemorySafe(n: nat, actions: seq<Action>)
    requires AllFit(Init(n), actions)
    ensures var s := Run(Init(n), actions);
      && !s.fault
      && (forall t :: 0 <= t < |s.threads| ==> Touches(s.threads[t].pc) <= s.heap.Keys)
      && (forall t, u :: 0 <= t < |s.threads| && 0 <= u < |s.threads| && t != u && s.threads[t].pc.Free? ==>
            s.threads[t].pc.node !in Touches(s.threads[u].pc))
      && (forall t :: 0 <= t < |s.threads| && s.threads[t].pc.Free? ==>
            s.threads[t].pc.node !in s.chain && Holders(s.threads, s.threads[t].pc.node) == 0)
      && (forall a :: a in s.heap && a !in s.chain ==> Owners(s.threads, a) + Holders(s.threads, a) >= 1)
  {
    InitKeeps(n);
    RunKeeps(Init(n), actions);
    var s := Run(Init(n), actions);
    forall t | 0 <= t < |s.threads| ensures Touches(s.threads[t].pc) <= s.heap.Keys {
      forall a | a in Touches(s.threads[t].pc) ensures a in s.heap {
        ThreadCounts(s.threads, t, a);
        assert NodeLaw(s, a);
      }
    }
    forall t | 0 <= t < |s.threads| && s.threads[t].pc.Free?
      ensures s.threads[t].pc.node !in s.chain && Holders(s.threads, s.threads[t].pc.node) == 0
      ensures forall u :: 0 <= u < |s.threads| && t != u ==> s.threads[t].pc.node !in Touches(s.threads[u].pc)
    {
      SoleOwner(s, t);
    }
    forall a | a in s.heap && a !in s.chain ensures Owners(s.threads, a) + Holders(s.threads, a) >= 1 {
      assert NodeLaw(s, a);
      SumsNonneg(s.threads, a);
      if Winners(s.threads, a) == 1 {
        var w := SumWitness(s.threads, WinFn(a));
        ThreadCounts(s.threads, w, a);
        assert Hold(s.threads[w].pc, a) == 1;
      }
    }
  }

  lemma SumsNonneg(ts: seq<Thread>, a: nat)
    ensures Holders(ts, a) >= 0 && Owners(ts, a) >= 0 && Winners(ts, a) >= 0
  {
    SumBounds(ts, HoldFn(a));
    SumBounds(ts, OwnFn(a));
    SumBounds(ts, WinFn(a));
  }

  lemma SoleOwner(s: State, t: nat)
    requires Inv(s) && t < |s.threads| && s.threads[t].pc.Free?
    ensures s.threads[t].pc.node !in s.chain && Holders(s.threads, s.threads[t].pc.node) == 0
    ensures forall u :: 0 <= u < |s.threads| && t != u ==> s.threads[t].pc.node !in Touches(s.threads[u].pc)
  {
    var n := s.threads[t].pc.node;
    ThreadCounts(s.threads, t, n);
    assert NodeLaw(s, n);
    forall u | 0 <= u < |s.threads| && t != u ensures n !in Touches(s.threads[u].pc) {
      ThreadCounts(s.threads, u, n);
      SumTwo(s.threads, if t < u then t else u, if t < u then u else t, OwnFn(n));
    }
  }

  /** Nothing leaks: when no operation is under way, exactly the nodes of the stack are allocated,
      and they are the list that head_ and the next pointers form. */
  lemma QuietStackOwnsTheHeap(n: nat, actions: seq<Action>)
    requires AllFit(Init(n), actions)
    requires var s := Run(Init(n), actions); forall t :: 0 <= t < |s.threads| ==> s.threads[t].pc.Idle? || s.threads[t].pc.Returned?
    ensures var s := Run(Init(n), actions);
      s.heap.Keys == (set a | a in s.chain) && Listed(s.heap, s.head.ptr, s.chain)
  {
    InitKeeps(n);
    RunKeeps(Init(n), actions);
    var s := Run(Init(n), actions);
    QuietHeap(s);
    assert s.chain[0..] == s.chain;
    ChainIsListed(s, 0);
  }

  lemma QuietSums(ts: seq<Thread>, a: nat)
    requires forall t :: 0 <= t < |ts| ==> ts[t].pc.Idle? || ts[t].pc.Returned?
    ensures Holders(ts, a) == 0 && Owners(ts, a) == 0 && Winners(ts, a) == 0
  {
    SumAllZero(ts, HoldFn(a));
    SumAllZero(ts, OwnFn(a));
    SumAllZero(ts, WinFn(a));
  }

  /** `nodes` is the list that starts at `p`, without repetitions. */
  ghost predicate Listed(heap: map<nat, Node>, p: nat, nodes: seq<nat>)
    decreases |nodes|
  {
    if nodes == [] then p == 0 else
      && p != 0 && p == nodes[0] && p in heap && p !in nodes[1..]
      && Listed(heap, heap[p].next.ptr, nodes[1..])
  }

  lemma {:induction false} ChainIsListed(s: State, i: nat)
    requires Linked(s) && i <= |s.chain| && Distinct(s.chain[i..])
    ensures Listed(s.heap, At(s.chain, i), s.chain[i..])
    decreases |s.chain| - i
  {
    if i < |s.chain| {
      assert s.chain[i..][1..] == s.chain[i + 1..];
      ChainIsListed(s, i + 1);
    }
  }

  // --- What happens when a stamp does not fit

  /** One round of TryPop that acquires the top and then loses the swing. */
  function LosingRound(): seq<Action> {
    [Tick(0, false), Tick(0, false), Tick(0, false), Tick(0, true), Tick(0, false)]
  }

  function Repeat(round: seq<Action>, k: nat): seq<Action> {
    if k == 0 then [] else Repeat(round, k - 1) + round
  }

  /** A pop of the only node that has lost `k` times. */
  function Spun(v: Item, k: nat): State {
    State(Stamped(1, k % (MAX_STAMP + 1)), map[1 := Node(v, Stamped(0, 0), 0 - k)],
          [Thread(PopLoad, [PushCall(v), PopCall], [Done])], false, [1], [Pushed(0, v)])
  }

  lemma {:induction false} RunConcat(s: State, xs: seq<Action>, ys: seq<Action>)
    ensures Run(s, xs + ys) == Run(Run(s, xs), ys)
    decreases |xs|
  {
    if xs == [] {
      assert xs + ys == ys;
    } else {
      assert (xs + ys)[1..] == xs[1..] + ys;
      RunConcat(Step(s, xs[0]), xs[1..], ys);
    }
  }

  lemma RunCons(s: State, a: Action, rest: seq<Action>)
    ensures Run(s, [a] + rest) == Run(Step(s, a), rest)
  {
    assert ([a] + rest)[1..] == rest;
  }

  lemma LosingRoundSpins(v: Item, k: nat)
    requires k <= MAX_STAMP
    ensures Run(Spun(v, k), LosingRound()) == Spun(v, k + 1)
  {
    var s, go := Spun(v, k), Tick(0, false);
    var s1 := Step(s, go);
    var s2 := Step(s1, go);
    assert s2.threads == [Thread(PopNext(Stamped(1, k + 1)), [PushCall(v), PopCall], [Done])];
    var s3 := Step(s2, go);
    var s4 := Step(s3, Tick(0, true));
    var s5 := Step(s4, go);
    assert s5.heap == map[1 := Node(v, Stamped(0, 0), 0 - (k + 1))];
    assert s5 == Spun(v, k + 1);
    assert LosingRound() == [go] + ([go] + ([go] + ([Tick(0, true)] + ([go] + []))));
    RunCons(s4, go, []);
    RunCons(s3, Tick(0, true), [go] + []);
    RunCons(s2, go, [Tick(0, true)] + ([go] + []));
    RunCons(s1, go, [go] + ([Tick(0, true)] + ([go] + [])));
    RunCons(s, go, [go] + ([go] + ([Tick(0, true)] + ([go] + []))));
  }

  lemma RunThrough(s: State, xs: seq<Action>, s': State, ys: seq<Action>)
    requires Run(s, xs) == s'
    ensures Run(s, xs + ys) == Run(s', ys)
  {
    RunConcat(s, xs, ys);
  }

  /** A round that leads from each state of a series to the next, repeated. */
  lemma {:induction false} RepeatRounds(at: nat -> State, round: seq<Action>, k: nat)
    requires forall j: nat :: j < k ==> Run(at(j), round) == at(j + 1)
    ensures Run(at(0), Repeat(round, k)) == at(k)
  {
    if k > 0 {
      RepeatRounds(at, round, k - 1);
      OneMoreRound(at(0), round, k, at(k - 1), at(k));
    }
  }

  ghost function SpunFn(v: Item): nat -> State { (k: nat) => Spun(v, k) }

  lemma OneMoreRound(s: State, round: seq<Action>, k: nat, s': State, s'': State)
    requires k > 0 && Run(s, Repeat(round, k - 1)) == s' && Run(s', round) == s''
    ensures Run(s, Repeat(round, k)) == s''
  {
    RunThrough(s, Repeat(round, k - 1), s', round);
  }

  /** The pop has returned its value, the stack is empty and the node is still allocated. */
  predicate Leaked(s: State, v: Item) {
    s.threads == [Thread(Returned(Some(v), 1), [PushCall(v), PopCall], [Done])] && s.chain == [] && 1 in s.heap
  }

  /** The assumption is needed: if one thread loses the swing on the same top 65536 times, its
      stamp restarts at 0 while the inner counter does not, and the node is popped but never freed. */
  lemma OverflowLeaks(v: Item)
    ensures exists actions :: Leaked(Run(Init(1), actions), v)
  {
    var start := StartSpins(v);
    var spins := Repeat(LosingRound(), MAX_STAMP + 1);
    var finish := FinishLeaks(v);
    forall j: nat | j <= MAX_STAMP ensures Run(SpunFn(v)(j), LosingRound()) == SpunFn(v)(j + 1) {
      LosingRoundSpins(v, j);
    }
    RepeatRounds(SpunFn(v), LosingRound(), MAX_STAMP + 1);
    LeakedAfter(Init(1), start, Spun(v, 0), spins, Spun(v, MAX_STAMP + 1), finish, v);
  }

  lemma LeakedAfter(s: State, xs: seq<Action>, s': State, ys: seq<Action>, s'': State, zs: seq<Action>, v: Item)
    requires Run(s, xs) == s' && Run(s', ys) == s'' && Leaked(Run(s'', zs), v)
    ensures exists actions :: Leaked(Run(s, actions), v)
  {
    RunThrough(s, xs, s', ys);
    RunThrough(s, xs + ys, s'', zs);
    assert Leaked(Run(s, xs + ys + zs), v);
  }

  lemma StartSpins(v: Item) returns (start: seq<Action>)
    ensures Run(Init(1), start) == Spun(v, 0)
  {
    start := [CallPush(0, v, 1), Tick(0, false), Tick(0, false), CallPop(0)];
    var s, go := Init(1), Tick(0, false);
    var s1 := Step(s, CallPush(0, v, 1));
    assert [] + [PushCall(v)] == [PushCall(v)] && [] + [Done] == [Done];
    var s2 := Step(s1, go);
    var s3 := Step(s2, go);
    var s4 := Step(s3, CallPop(0));
    assert s4.heap == map[1 := Node(v, Stamped(0, 0), 0)];
    assert s1.threads == [Thread(PushLoad(1), [PushCall(v)], [])];
    assert s2.threads == [Thread(PushCas(1), [PushCall(v)], [])];
    assert s3.threads == [Thread(Idle, [PushCall(v)], [Done])];
    assert [PushCall(v)] + [PopCall] == [PushCall(v), PopCall];
    assert s4.threads == [Thread(PopLoad, [PushCall(v), PopCall], [Done])];
    assert s4 == Spun(v, 0);
    assert start == [CallPush(0, v, 1)] + ([go] + ([go] + ([CallPop(0)] + [])));
    RunCons(s3, CallPop(0), []);
    RunCons(s2, go, [CallPop(0)] + []);
    RunCons(s1, go, [go] + ([CallPop(0)] + []));
    RunCons(s, CallPush(0, v, 1), [go] + ([go] + ([CallPop(0)] + [])));
  }

  lemma FinishLeaks(v: Item) returns (finish: seq<Action>)
    ensures Leaked(Run(Spun(v, MAX_STAMP + 1), finish), v)
  {
    finish := seq(6, _ => Tick(0, false));
    var s, go := Spun(v, MAX_STAMP + 1), Tick(0, false);
    var s1 := Step(s, go);
    var s2 := Step(s1, go);
    var s3 := Step(s2, go);
    var s4 := Step(s3, go);
    assert s4.chain == [];
    var s5 := Step(s4, go);
    var s6 := Step(s5, go);
    assert s6.threads == [Thread(Returned(Some(v), 1), [PushCall(v), PopCall], [Done])];
    assert finish == [go] + ([go] + ([go] + ([go] + ([go] + ([go] + [])))));
    RunCons(s5, go, []);
    RunCons(s4, go, [go] + []);
    RunCons(s3, go, [go] + ([go] + []));
    RunCons(s2, go, [go] + ([go] + ([go] + [])));
    RunCons(s1, go, [go] + ([go] + ([go] + ([go] + []))));
    RunCons(s, go, [go] + ([go] + ([go] + ([go] + ([go] + [])))));
  }

  // --- The stack object

  /** What the thread's next access touches is allocated: the map accesses below are the
      dereferences of the program, and each is proved to hit an allocated node. */
  lemma TouchesAllocated(s: State, t: nat)
    requires Inv(s) && t < |s.threads|
    ensures Touches(s.threads[t].pc) <= s.heap.Keys
  {
    forall a | a in Touches(s.threads[t].pc) ensures a in s.heap {
      ThreadCounts(s.threads, t, a);
      assert NodeLaw(s, a);
    }
  }

  class LockFreeStack {
    var head: Stamped
    var heap: map<nat, Node>
    var threads: seq<Thread>
    var chain: seq<nat>   // auxiliary
    var log: seq<Event>   // auxiliary

    ghost function View(): State reads this {
      State(head, heap, threads, false, chain, log)
    }

    constructor (n: nat)
      ensures View() == Init(n) && Inv(View())
    {
      head, heap, chain, log := Stamped(0, 0), map[], [], [];
      threads := seq(n, _ => Thread(Idle, [], []));
      new;
      InitKeeps(n);
    }

    method MoveTo(t: nat, pc: Pc)
      requires t < |threads|
      modifies this`threads
      ensures View() == Goto(old(View()), t, pc)
    {
      threads := threads[t := threads[t].(pc := pc)];
    }

    method Leave(t: nat, answer: Answer)
      requires t < |threads|
      modifies this`threads
      ensures View() == Finish(old(View()), t, answer)
    {
      threads := threads[t := Thread(Idle, threads[t].calls, threads[t].answers + [answer])];
    }

    method CallPush(t: nat, value: Item, addr: nat)
      requires t < |threads| && threads[t].pc.Idle? && addr != 0 && addr !in heap
      modifies this
      ensures View() == Step(old(View()), Action.CallPush(t, value, addr))
    {
      heap := heap[addr := Node(value, Stamped(0, 0), 0)];
      threads := threads[t := Thread(PushLoad(addr), threads[t].calls + [Call.PushCall(value)], threads[t].answers)];
    }

    method CallTryPop(t: nat)
      requires t < |threads| && threads[t].pc.Idle?
      modifies this
      ensures View() == Step(old(View()), CallPop(t))
    {
      threads := threads[t := Thread(PopLoad, threads[t].calls + [PopCall], threads[t].answers)];
    }

    /** The next access of a thread inside Push. */
    method Push(t: nat, flaky: bool)
      requires Inv(View()) && t < |threads| && (threads[t].pc.PushLoad? || threads[t].pc.PushCas?)
      modifies this
      ensures View() == PushStep(old(View()), t, flaky) && Inv(View())
    {
      PushStepInv(View(), t, flaky);
      TouchesAllocated(View(), t);
      var n := threads[t].pc.node;
      if threads[t].pc.PushCas? && !flaky && head == heap[n].next {
        head := Stamped(n, 0);
        chain, log := [n] + chain, log + [Pushed(t, heap[n].value)];
        Leave(t, Done);
      } else {
        heap := heap[n := heap[n].(next := head)];
        MoveTo(t, PushCas(n));
      }
    }

    method FetchAddInner(n: nat, d: int) returns (before: int)
      requires n in heap
      modifies this`heap
      ensures View() == AddInner(old(View()), n, d) && before == old(heap)[n].inner
    {
      before := heap[n].inner;
      heap := heap[n := heap[n].(inner := before + d)];
    }

    /** The next access of a thread inside TryPop. */
    method TryPop(t: nat, flaky: bool)
      requires Inv(View()) && Fits(View(), Tick(t, flaky)) && t < |threads|
      requires !threads[t].pc.PushLoad? && !threads[t].pc.PushCas?
      modifies this
      ensures View() == PopStep(old(View()), t, flaky) && Inv(View())
    {
      StepInv(View(), Tick(t, flaky));
      TouchesAllocated(View(), t);
      var pc := threads[t].pc;
      if pc.PopSwing? {
        Swing(t, pc.held, pc.next, flaky);
      } else if pc.PopFold? || pc.PopRelease? || pc.Free? {
        Settle(t);
      } else {
        Approach(t, flaky);
      }
    }

    /** Up to the swing, and the move of the value after it. */
    method Approach(t: nat, flaky: bool)
      requires t < |threads| && Touches(threads[t].pc) <= heap.Keys
      requires var pc := threads[t].pc; (pc.PopLoad? || pc.PopAcquire? || pc.PopNext? || pc.PopValue? || pc.Idle? || pc.Returned?)
      modifies this
      ensures View() == PopStep(old(View()), t, flaky)
    {
      match threads[t].pc
      case PopLoad =>
        if head.ptr == 0 {
          log := log + [SawEmpty(t)];
          MoveTo(t, Returned(None, |log| - 1));
        } else {
          MoveTo(t, PopAcquire(head));
        }
      case PopAcquire(seen) =>
        var held := Stamped(seen.ptr, seen.stamp + 1);
        if !flaky && head == Word(seen) {
          head := Word(held);
          MoveTo(t, PopNext(held));
        } else {
          MoveTo(t, PopLoad);
        }
      case PopNext(held) =>
        assert held.ptr in heap;
        MoveTo(t, PopSwing(held, heap[held.ptr].next));
      case PopValue(held, lin) =>
        assert held.ptr in heap;
        MoveTo(t, PopFold(held, heap[held.ptr].value, lin));
      case _ =>
    }

    /** The accesses that settle the counts of a node and may delete it. */
    method Settle(t: nat)
      requires t < |threads| && Touches(threads[t].pc) <= heap.Keys
      requires var pc := threads[t].pc; (pc.PopFold? || pc.PopRelease? || pc.Free?)
      modifies this
      ensures forall flaky :: View() == PopStep(old(View()), t, flaky)
    {
      match threads[t].pc
      case PopFold(held, v, lin) =>
        assert held.ptr in heap;
        var inner := FetchAddInner(held.ptr, held.stamp - 1);
        MoveTo(t, if inner == 1 - held.stamp then Free(held.ptr, Return(v, lin)) else Returned(Some(v), lin));
      case PopRelease(held) =>
        assert held.ptr in heap;
        var inner := FetchAddInner(held.ptr, -1);
        MoveTo(t, if inner == 1 then Free(held.ptr, Retry) else PopLoad);
      case Free(n, after) =>
        assert n in heap;
        heap := heap - {n};
        MoveTo(t, match after case Retry => PopLoad case Return(v, lin) => Returned(Some(v), lin));
    }

    method Swing(t: nat, held: Stamped, next: Stamped, flaky: bool)
      requires t < |threads| && threads[t].pc == PopSwing(held, next) && Inv(View())
      modifies this
      ensures View() == PopStep(old(View()), t, flaky)
    {
      if !flaky && head == Word(held) {
        TopIsHeld(View(), t);
        log := log + [Popped(t, heap[held.ptr].value)];
        head, chain := next, chain[1..];
        MoveTo(t, PopValue(held, |log| - 1));
      } else {
        MoveTo(t, PopRelease(held));
      }
    }

    method Perform(a: Action)
      requires Inv(View()) && Fits(View(), a)
      modifies this
      ensures View() == Step(old(View()), a) && Inv(View())
    {
      StepInv(View(), a);
      if a.t < |threads| {
        var pc := threads[a.t].pc;
        match a
        case CallPush(t, v, addr) => if pc.Idle? && addr != 0 && addr !in heap { CallPush(t, v, addr); }
        case CallPop(t) => if pc.Idle? { CallTryPop(t); }
        case Collect(t) => if pc.Returned? { Leave(t, Gave(pc.result)); }
        case Tick(t, flaky) =>
          if pc.PushLoad? || pc.PushCas? { Push(t, flaky); } else { TryPop(t, flaky); }
      }
    }

    /** Any schedule: what the theorems above say of runs holds of the object. */
    method Execute(actions: seq<Action>)
      requires Inv(View()) && AllFit(View(), actions)
      modifies this
      ensures View() == Run(old(View()), actions) && Inv(View())
    {
      var i := 0;
      while i < |actions|
        invariant i <= |actions|
        invariant Inv(View()) && AllFit(View(), actions[i..])
        invariant Run(View(), actions[i..]) == Run(old(View()), actions)
      {
        assert actions[i..][0] == actions[i] && actions[i..][1..] == actions[i + 1..];
        Perform(actions[i]);
        i := i + 1;
      }
    }

    /** The destructor, once no operation is under way: it deletes each node of the stack once, top
        first, and nothing stays allocated. */
    method Destroy() returns (deleted: seq<nat>)
      requires Inv(View()) && forall t :: 0 <= t < |threads| ==> threads[t].pc.Idle? || threads[t].pc.Returned?
      modifies this`heap
      ensures deleted == chain && heap == map[]
    {
      QuietHeap(View());
      deleted := DeleteChain();
    }

    method DeleteChain() returns (deleted: seq<nat>)
      requires Linked(View()) && forall a :: a in heap <==> a in chain
      modifies this`heap
      ensures deleted == chain && heap == map[]
    {
      ghost var nodes, rest := heap, chain;
      assert chain[0..] == chain;
      ChainIsListed(View(), 0);
      deleted := [];
      var p := head;
      while p.ptr != 0
        invariant deleted + rest == chain && Listed(nodes, p.ptr, rest) && Remaining(nodes, heap, rest)
        decreases |rest|
      {
        RemoveFirst(nodes, heap, deleted, rest);
        var next := heap[p.ptr].next;
        heap := heap - {p.ptr};
        deleted, rest := deleted + [p.ptr], rest[1..];
        p := next;
      }
      assert heap == map[];
    }
  }

  /** `heap` is what is left of `nodes` when only `rest` is still allocated. */
  ghost predicate Remaining(nodes: map<nat, Node>, heap: map<nat, Node>, rest: seq<nat>) {
    && (forall a :: a in heap <==> a in rest)
    && (forall a :: a in heap ==> a in nodes && heap[a] == nodes[a])
  }

  lemma RemoveFirst(nodes: map<nat, Node>, heap: map<nat, Node>, deleted: seq<nat>, rest: seq<nat>)
    requires Remaining(nodes, heap, rest) && rest != [] && rest[0] !in rest[1..]
    ensures rest[0] in heap && heap[rest[0]] == nodes[rest[0]]
    ensures Remaining(nodes, heap - {rest[0]}, rest[1..])
    ensures (deleted + [rest[0]]) + rest[1..] == deleted + rest
  {
    assert rest == [rest[0]] + rest[1..];
  }

  lemma QuietHeap(s: State)
    requires Inv(s) && forall t :: 0 <= t < |s.threads| ==> s.threads[t].pc.Idle? || s.threads[t].pc.Returned?
    ensures forall a :: a in s.heap <==> a in s.chain
  {
    forall a | a in s.heap ensures a in s.chain {
      assert NodeLaw(s, a);
      QuietSums(s.threads, a);
    }
  }
}
