/** The Michael-Scott queue (tasks/lockfree/queue/lock_free_queue.hpp).

    Any number of threads push and pop; one action is one atomic operation or one access to a node,
    memory is sequentially consistent and a weak compare-and-swap may fail for no reason. Nodes are
    not freed while the queue lives. The final compare-and-swap of Push compares tail_ with a
    variable that was never assigned: its value is the arbitrary `junk` of the action. */
module MichaelScottQueue {
  import opened Counting
  import opened Words
  import opened Options
  import opened Histories

  /** `value` is None in the sentinel and once the value has been moved out. */
  datatype Node = Node(value: Option<Item>, next: nat)

  /** Where a thread stands, that is, which access it makes next. `lin` is the position of the
      operation's own event in the log. */
  datatype Pc =
    | Idle
    | PushTail(node: nat)                            // read tail_
    | PushCheck(node: nat, tail: nat)                // is next of that tail null?
    | PushHelpRead(node: nat, tail: nat)             // no: read it again
    | PushHelp(node: nat, tail: nat, next: nat)      // swing tail_ forward
    | PushLink(node: nat, tail: nat)                 // swing that tail's next from null to the node
    | PushFinish(node: nat)                          // swing tail_ from the unassigned variable
    | PushCount                                      // raise size_
    | PopHead                                        // read head_
    | PopCheck(head: nat)                            // is next of that head null?
    | PopRead(head: nat)                             // no: read it again
    | PopSwing(head: nat, next: nat)                 // swing head_
    | PopNext(head: nat, lin: nat)                   // read next of the old head once more
    | PopTake(node: nat, lin: nat)                   // move the value out
    | PopCount(value: Item, lin: nat)                // lower size_
    | Returned(result: Option<Item>, lin: nat)

  /** `calls` and `answers` record the operations the thread has begun and what it was answered. */
  datatype Thread = Thread(pc: Pc, calls: seq<Call>, answers: seq<Answer>)

  /** Auxiliary: who owns a node. Position 0 is the first sentinel. */
  datatype Place = Private(t: nat) | Linked(pos: nat) | Claimed(t: nat, pos: nat)

  /** `fault` is raised by an access to a missing node or value. The rest is auxiliary, read by no
      branch of Step: `chain` all nodes ever linked, `place` the owner of each node, `items` the
      values ever linked, `popped` how many nodes head_ has moved, `log` one event per operation; and so
      are the histories of the threads. */
  datatype State = State(head: nat, tail: nat, size: int, heap: map<nat, Node>, threads: seq<Thread>, fault: bool,
                         chain: seq<nat>, place: map<nat, Place>, items: seq<Item>, popped: nat, log: seq<Event>)

  datatype Action =
    | CallPush(t: nat, value: Item, addr: nat)
    | CallPop(t: nat)
    | Tick(t: nat, flaky: bool, junk: nat)
    | Collect(t: nat)

  /** An empty queue: head_ and tail_ at a sentinel, here at address 1. */
  function Init(n: nat): State {
    State(1, 1, 0, map[1 := Node(None, 0)], seq(n, _ => Thread(Idle, [], [])), false, [1], map[1 := Linked(0)], [], 0, [])
  }

  // --- The operations, one atomic step at a time

  function Step(s: State, a: Action): State {
    if a.t >= |s.threads| then s else
    var pc := s.threads[a.t].pc;
    match a
    case CallPush(t, v, addr) =>
      if pc.Idle? && addr != 0 && addr !in s.heap then
        Begin(s.(heap := s.heap[addr := Node(Some(v), 0)], place := s.place[addr := Private(t)]), t, PushTail(addr), PushCall(v))
      else s
    case CallPop(t) => if pc.Idle? then Begin(s, t, PopHead, PopCall) else s
    case Collect(t) => if pc.Returned? then Finish(s, t, Gave(pc.result)) else s
    case Tick(t, flaky, junk) => if Pushing(pc) then PushStep(s, t, flaky, junk) else PopStep(s, t, flaky)
  }

  predicate Pushing(pc: Pc) {
    pc.PushTail? || pc.PushCheck? || pc.PushHelpRead? || pc.PushHelp? || pc.PushLink? || pc.PushFinish? || pc.PushCount?
  }

  function Goto(s: State, t: nat, pc: Pc): State
    requires t < |s.threads|
  {
    s.(threads := s.threads[t := s.threads[t].(pc := pc)])
  }

  function Begin(s: State, t: nat, pc: Pc, c: Call): State
    requires t < |s.threads|
  {
    s.(threads := s.threads[t := Thread(pc, s.threads[t].calls + [c], s.threads[t].answers)])
  }

  function Finish(s: State, t: nat, a: Answer): State
    requires t < |s.threads|
  {
    s.(threads := s.threads[t := Thread(Idle, s.threads[t].calls, s.threads[t].answers + [a])])
  }

  function Fault(s: State): State {
    s.(fault := true)
  }

  function PushStep(s: State, t: nat, flaky: bool, junk: nat): State
    requires t < |s.threads|
  {
    match s.threads[t].pc
    case PushTail(n) => Goto(s, t, PushCheck(n, s.tail))
    case PushCheck(n, tail) =>
      if tail !in s.heap then Fault(s)
      else Goto(s, t, if s.heap[tail].next != 0 then PushHelpRead(n, tail) else PushLink(n, tail))
    case PushHelpRead(n, tail) =>
      if tail !in s.heap then Fault(s) else Goto(s, t, PushHelp(n, tail, s.heap[tail].next))
    case PushHelp(n, tail, next) =>
      if s.tail == tail && !flaky then Goto(s.(tail := next), t, PushTail(n))
      else Goto(s, t, PushLink(n, s.tail))
    case PushLink(n, tail) =>
      if tail !in s.heap || n !in s.heap then Fault(s)
      else if s.heap[tail].next == 0 && !flaky then Goto(Link(s, t, tail, n), t, PushFinish(n))
      else Goto(s, t, PushTail(n))
    case PushFinish(n) => Goto(if s.tail == junk then s.(tail := n) else s, t, PushCount)
    case PushCount => Finish(s.(size := Wrap(s.size + 1)), t, Done)
    case _ => s
  }

  /** The linearization point of Push. */
  function Link(s: State, t: nat, tail: nat, n: nat): State
    requires tail in s.heap && n in s.heap
  {
    var v := ValueOf(s.heap[n]);
    s.(heap := s.heap[tail := s.heap[tail].(next := n)], chain := s.chain + [n],
       place := s.place[n := Linked(|s.chain|)], items := s.items + [v], log := s.log + [Pushed(t, v)])
  }

  function ValueOf(n: Node): Item {
    if n.value.Some? then n.value.value else 0
  }

  function PopStep(s: State, t: nat, flaky: bool): State
    requires t < |s.threads|
  {
    match s.threads[t].pc
    case PopHead => Goto(s, t, PopCheck(s.head))
    case PopCheck(head) =>
      if head !in s.heap then Fault(s)
      else if s.heap[head].next != 0 then Goto(s, t, PopRead(head))
      else Goto(s.(log := s.log + [SawEmpty(t)]), t, Returned(None, |s.log|))
    case PopRead(head) =>
      if head !in s.heap then Fault(s) else Goto(s, t, PopSwing(head, s.heap[head].next))
    case PopSwing(head, next) =>
      if s.head == head && !flaky then Goto(Unlink(s, t, next), t, PopNext(head, |s.log|))
      else Goto(s, t, PopHead)
    case PopNext(head, lin) =>
      if head !in s.heap then Fault(s) else Goto(s, t, PopTake(s.heap[head].next, lin))
    case PopTake(n, lin) =>
      if n !in s.heap || s.heap[n].value.None? then Fault(s)
      else Goto(s.(heap := s.heap[n := s.heap[n].(value := None)]), t, PopCount(s.heap[n].value.value, lin))
    case PopCount(v, lin) => Goto(s.(size := Wrap(s.size - 1)), t, Returned(Some(v), lin))
    case _ => s
  }

  /** The linearization point of TryPop. */
  function Unlink(s: State, t: nat, next: nat): State {
    s.(head := next, popped := s.popped + 1, place := s.place[next := Claimed(t, s.popped + 1)],
       log := s.log + [Popped(t, if s.popped < |s.items| then s.items[s.popped] else 0)])
  }

  function Run(s: State, actions: seq<Action>): State
    decreases |actions|
  {
    if actions == [] then s else Run(Step(s, actions[0]), actions[1..])
  }

  // --- The invariant

  /** `a` is a node of the chain. */
  ghost predicate InChain(s: State, a: nat) {
    a in s.place && !s.place[a].Private? && s.place[a].pos < |s.chain| && s.chain[s.place[a].pos] == a
  }

  ghost function Pos(s: State, a: nat): nat
    requires InChain(s, a)
  {
    s.place[a].pos
  }

  /** Node `i` of the chain is allocated, knows its place, and links to node `i + 1`; beyond head_ it
      is unclaimed and holds its value. */
  ghost predicate NodeOk(s: State, i: nat)
    requires i < |s.chain| == |s.items| + 1
  {
    var a := s.chain[i];
    && a != 0 && a in s.heap && InChain(s, a) && Pos(s, a) == i
    && s.heap[a].next == (if i + 1 < |s.chain| then s.chain[i + 1] else 0)
    && (i > s.popped ==> s.place[a].Linked? && s.heap[a].value == Some(s.items[i - 1]))
  }

  ghost predicate Chained(s: State) {
    && s.place.Keys == s.heap.Keys
    && |s.chain| == |s.items| + 1
    && s.popped < |s.chain|
    && s.head == s.chain[s.popped]
    && InChain(s, s.tail)
    && (forall i :: 0 <= i < |s.chain| ==> NodeOk(s, i))
  }

  /** The node a pushing thread has not yet linked holds the argument of its call. */
  ghost predicate Holds(s: State, t: nat, n: nat)
    requires t < |s.threads|
  {
    && n != 0 && n in s.heap && n in s.place && s.place[n] == Private(t) && s.heap[n].next == 0
    && s.heap[n].value.Some? && s.threads[t].calls != []
    && s.threads[t].calls[|s.threads[t].calls| - 1] == PushCall(s.heap[n].value.value)
  }

  /** Thread `t` alone may take the value of `n`, the one its event names. */
  ghost predicate Takes(s: State, t: nat, n: nat, lin: nat) {
    && InChain(s, n) && n in s.heap && s.place[n].Claimed? && s.place[n].t == t
    && LastOf(s.log, t, lin) && s.heap[n].value.Some? && s.log[lin] == Popped(t, s.heap[n].value.value)
  }

  /** A node head_ pointed to, with its successor already linked. */
  ghost predicate Passed(s: State, head: nat) {
    InChain(s, head) && Pos(s, head) <= s.popped && Pos(s, head) + 1 < |s.chain|
  }

  ghost predicate Remembers(s: State, t: nat)
    requires t < |s.threads|
  {
    match s.threads[t].pc
    case PushTail(n) => Holds(s, t, n)
    case PushCheck(n, tail) => Holds(s, t, n) && InChain(s, tail)
    case PushHelpRead(n, tail) => Holds(s, t, n) && InChain(s, tail) && Pos(s, tail) + 1 < |s.chain|
    case PushHelp(n, tail, next) => Holds(s, t, n) && InChain(s, next)
    case PushLink(n, tail) => Holds(s, t, n) && InChain(s, tail)
    case PushFinish(n) => InChain(s, n)
    case PopCheck(head) => InChain(s, head) && Pos(s, head) <= s.popped
    case PopRead(head) => Passed(s, head)
    case PopSwing(head, next) => Passed(s, head) && next == s.chain[Pos(s, head) + 1]
    case PopNext(head, lin) => Passed(s, head) && Takes(s, t, s.chain[Pos(s, head) + 1], lin)
    case PopTake(n, lin) => Takes(s, t, n, lin)
    case PopCount(v, lin) => LastOf(s.log, t, lin) && s.log[lin] == Popped(t, v)
    case Returned(None, lin) => LastOf(s.log, t, lin) && s.log[lin] == SawEmpty(t)
    case Returned(Some(v), lin) => LastOf(s.log, t, lin) && s.log[lin] == Popped(t, v)
    case _ => true
  }

  /** Linked but not yet counted in size_ is +1; unlinked but not yet uncounted is -1. */
  ghost function Uncounted(pc: Pc): int {
    if pc.PushFinish? || pc.PushCount? then 1 else if pc.PopNext? || pc.PopTake? || pc.PopCount? then -1 else 0
  }

  ghost function UncountedFn(): Thread -> int { (th: Thread) => Uncounted(th.pc) }

  /** size_ == length - pushes linked but uncounted + pops unlinked but uncounted, modulo 2^64. */
  ghost predicate SizeLaw(s: State) {
    s.size == Wrap(|s.items| - s.popped - Sum(s.threads, UncountedFn()))
  }

  ghost predicate Inv(s: State) {
    && !s.fault && Chained(s) && SizeLaw(s)
    && forall t :: 0 <= t < |s.threads| ==> Remembers(s, t)
  }

  // --- Every step keeps the invariant

  /** What a step of thread `t` may change. */
  ghost predicate Grows(s: State, s': State, t: nat) {
    && |s.chain| <= |s'.chain| && (forall i :: 0 <= i < |s.chain| ==> s'.chain[i] == s.chain[i])
    && s.popped <= s'.popped
    && (forall a :: a in s.heap ==> a in s'.heap)
    && (forall a :: a in s.place ==> a in s'.place && KeepsPlace(s.place[a], s'.place[a], t))
    && (forall a :: a in s.place && a in s.heap && s.place[a].Private? && s.place[a].t != t ==> s'.heap[a] == s.heap[a])
    && (forall a :: a in s.place && a in s.heap && s.place[a].Claimed? && s.place[a].t != t ==> s'.heap[a].value == s.heap[a].value)
    && |s.log| <= |s'.log| && (forall k :: 0 <= k < |s.log| ==> s'.log[k] == s.log[k])
    && (forall k :: |s.log| <= k < |s'.log| ==> s'.log[k].t == t)
  }

  /** Positions never change; only thread `t` moves its own nodes or claims unclaimed ones. */
  ghost predicate KeepsPlace(p: Place, p': Place, t: nat) {
    match p
    case Private(u) => p' == p || u == t
    case Linked(pos) => p' == p || p' == Claimed(t, pos)
    case Claimed(u, pos) => p' == p
  }

  lemma InChainKept(s: State, s': State, t: nat, a: nat)
    requires Grows(s, s', t) && InChain(s, a)
    ensures InChain(s', a) && Pos(s', a) == Pos(s, a)
  {
  }

  lemma HoldsKept(s: State, s': State, t: nat, u: nat, n: nat)
    requires Grows(s, s', t) && u != t && u < |s.threads| && u < |s'.threads| && s'.threads[u] == s.threads[u]
    requires Holds(s, u, n)
    ensures Holds(s', u, n)
  {
  }

  lemma TakesKept(s: State, s': State, t: nat, u: nat, n: nat, lin: nat)
    requires Grows(s, s', t) && Takes(s, u, n, lin) && u != t
    ensures Takes(s', u, n, lin)
  {
    InChainKept(s, s', t, n);
  }

  lemma OtherPushRemembers(s: State, s': State, t: nat, u: nat)
    requires u < |s.threads| && u < |s'.threads| && u != t && s'.threads[u] == s.threads[u] && Pushing(s.threads[u].pc)
    requires Remembers(s, u) && Grows(s, s', t)
    ensures Remembers(s', u)
  {
    match s.threads[u].pc
    case PushTail(n) => HoldsKept(s, s', t, u, n);
    case PushCheck(n, a) => HoldsKept(s, s', t, u, n); InChainKept(s, s', t, a);
    case PushHelpRead(n, a) => HoldsKept(s, s', t, u, n); InChainKept(s, s', t, a);
    case PushHelp(n, _, a) => HoldsKept(s, s', t, u, n); InChainKept(s, s', t, a);
    case PushLink(n, a) => HoldsKept(s, s', t, u, n); InChainKept(s, s', t, a);
    case PushFinish(n) => InChainKept(s, s', t, n);
    case PushCount =>
  }

  lemma OtherRemembers(s: State, s': State, t: nat, u: nat)
    requires u < |s.threads| && u < |s'.threads| && u != t && s'.threads[u] == s.threads[u]
    requires Remembers(s, u) && Grows(s, s', t)
    ensures Remembers(s', u)
  {
    if Pushing(s.threads[u].pc) {
      OtherPushRemembers(s, s', t, u);
    } else {
      match s.threads[u].pc
      case PopCheck(a) => InChainKept(s, s', t, a);
      case PopRead(a) => InChainKept(s, s', t, a);
      case PopSwing(a, _) => InChainKept(s, s', t, a);
      case PopNext(a, lin) => InChainKept(s, s', t, a); TakesKept(s, s', t, u, s.chain[Pos(s, a) + 1], lin);
      case PopTake(n, lin) => TakesKept(s, s', t, u, n, lin);
      case _ =>
    }
  }

  lemma OthersRemember(s: State, s': State, t: nat)
    requires t < |s.threads| == |s'.threads| && Grows(s, s', t) && Remembers(s', t)
    requires forall u :: 0 <= u < |s.threads| ==> Remembers(s, u) && (u != t ==> s'.threads[u] == s.threads[u])
    ensures forall u :: 0 <= u < |s'.threads| ==> Remembers(s', u)
  {
    forall u | 0 <= u < |s'.threads| ensures Remembers(s', u) {
      if u != t { OtherRemembers(s, s', t, u); }
    }
  }

  lemma UncountedMoves(ts: seq<Thread>, t: nat, th: Thread)
    requires t < |ts|
    ensures Sum(ts[t := th], UncountedFn()) == Sum(ts, UncountedFn()) - Uncounted(ts[t].pc) + Uncounted(th.pc)
  {
    SumUpdate(ts, t, th, UncountedFn());
  }

  /** Nothing but tail_, size_, the threads and the log change. */
  ghost predicate SameNodes(s: State, s': State) {
    && s'.head == s.head && s'.heap == s.heap && s'.chain == s.chain && s'.place == s.place
    && s'.items == s.items && s'.popped == s.popped && s'.fault == s.fault
  }

  lemma ChainedKept(s: State, s': State)
    requires Chained(s) && SameNodes(s, s') && InChain(s, s'.tail)
    ensures Chained(s')
  {
    forall i | 0 <= i < |s'.chain| ensures NodeOk(s', i) { assert NodeOk(s, i); }
  }

  lemma NodesKeptGrow(s: State, s': State, t: nat)
    requires SameNodes(s, s') && (s'.log == s.log || s'.log == s.log + [SawEmpty(t)])
    ensures Grows(s, s', t)
  {
  }

  lemma SizeMoves(s: State, s': State, t: nat, th: Thread)
    requires SizeLaw(s) && t < |s.threads| && s'.threads == s.threads[t := th] && s'.items == s.items
    requires s'.popped == s.popped
    requires s'.size == s.size || s'.size == Wrap(s.size + Uncounted(s.threads[t].pc))
    requires Uncounted(th.pc) == if s'.size == s.size then Uncounted(s.threads[t].pc) else 0
    ensures SizeLaw(s')
  {
    UncountedMoves(s.threads, t, th);
    WrapAdd(|s.items| - s.popped - Sum(s.threads, UncountedFn()), Uncounted(s.threads[t].pc));
  }

  /** A step that moves the thread and perhaps tail_ and size_, and logs at most an event of its own. */
  lemma MoveInv(s: State, s': State, t: nat, th: Thread)
    requires Inv(s) && t < |s.threads| && s'.threads == s.threads[t := th] && SameNodes(s, s')
    requires InChain(s, s'.tail) && (s'.log == s.log || s'.log == s.log + [SawEmpty(t)])
    requires s'.size == s.size || s'.size == Wrap(s.size + Uncounted(s.threads[t].pc))
    requires Uncounted(th.pc) == if s'.size == s.size then Uncounted(s.threads[t].pc) else 0
    requires Remembers(s', t)
    ensures Inv(s')
  {
    SizeMoves(s, s', t, th);
    ChainedKept(s, s');
    NodesKeptGrow(s, s', t);
    OthersRemember(s, s', t);
  }

  lemma StepInv(s: State, a: Action)
    requires Inv(s)
    ensures Inv(Step(s, a))
  {
    if a.t < |s.threads| {
      var t, th := a.t, s.threads[a.t];
      assert Remembers(s, t);
      if a.CallPush? {
        if th.pc.Idle? && a.addr != 0 && a.addr !in s.heap { CallPushInv(s, t, a.value, a.addr); }
      } else if a.CallPop? {
        if th.pc.Idle? { MoveInv(s, Step(s, a), t, Step(s, a).threads[t]); }
      } else if a.Collect? {
        if th.pc.Returned? { MoveInv(s, Step(s, a), t, Step(s, a).threads[t]); }
      } else if Pushing(th.pc) {
        PushStepInv(s, t, a.flaky, a.junk);
      } else {
        PopStepInv(s, t, a.flaky);
      }
    }
  }

  lemma CallPushInv(s: State, t: nat, v: Item, addr: nat)
    requires Inv(s) && t < |s.threads| && s.threads[t].pc.Idle? && addr != 0 && addr !in s.heap
    ensures Inv(Step(s, CallPush(t, v, addr)))
  {
    var s' := Step(s, CallPush(t, v, addr));
    NewNodeChained(s, t, v, addr);
    UncountedMoves(s.threads, t, s'.threads[t]);
    OthersRemember(s, s', t);
  }

  lemma NewNodeChained(s: State, t: nat, v: Item, addr: nat)
    requires Chained(s) && t < |s.threads| && s.threads[t].pc.Idle? && addr != 0 && addr !in s.heap
    ensures Chained(Step(s, CallPush(t, v, addr))) && Grows(s, Step(s, CallPush(t, v, addr)), t)
  {
    var s' := Step(s, CallPush(t, v, addr));
    forall i | 0 <= i < |s'.chain| ensures NodeOk(s', i) { assert NodeOk(s, i); }
  }

  lemma PushStepInv(s: State, t: nat, flaky: bool, junk: nat)
    requires Inv(s) && t < |s.threads| && Pushing(s.threads[t].pc)
    ensures Inv(PushStep(s, t, flaky, junk))
  {
    var pc := s.threads[t].pc;
    if pc.PushCheck? || pc.PushHelpRead? {
      PushLookInv(s, t);
    } else if pc.PushLink? {
      PushLinkInv(s, t, flaky);
    } else if pc.PushFinish? || pc.PushCount? {
      PushEndInv(s, t, flaky, junk);
    } else {
      PushTailInv(s, t, flaky, junk);
    }
  }

  lemma PushLookInv(s: State, t: nat)
    requires Inv(s) && t < |s.threads| && (s.threads[t].pc.PushCheck? || s.threads[t].pc.PushHelpRead?)
    ensures forall flaky, junk :: PushStep(s, t, flaky, junk) == PushStep(s, t, false, 0)
    ensures Inv(PushStep(s, t, false, 0))
  {
    assert Remembers(s, t);
    LookAhead(s, s.threads[t].pc.tail);
    var s' := PushStep(s, t, false, 0);
    MoveInv(s, s', t, s'.threads[t]);
  }

  lemma PushTailInv(s: State, t: nat, flaky: bool, junk: nat)
    requires Inv(s) && t < |s.threads|
    requires s.threads[t].pc.PushTail? || s.threads[t].pc.PushHelp?
    ensures Inv(PushStep(s, t, flaky, junk))
  {
    assert Remembers(s, t);
    var s' := PushStep(s, t, flaky, junk);
    MoveInv(s, s', t, s'.threads[t]);
  }

  lemma PushEndInv(s: State, t: nat, flaky: bool, junk: nat)
    requires Inv(s) && t < |s.threads|
    requires s.threads[t].pc.PushFinish? || s.threads[t].pc.PushCount?
    ensures Inv(PushStep(s, t, flaky, junk))
  {
    assert Remembers(s, t);
    var s' := PushStep(s, t, flaky, junk);
    MoveInv(s, s', t, s'.threads[t]);
  }

  lemma PushLinkInv(s: State, t: nat, flaky: bool)
    requires Inv(s) && t < |s.threads| && s.threads[t].pc.PushLink?
    ensures forall junk :: PushStep(s, t, flaky, junk) == PushStep(s, t, flaky, 0)
    ensures Inv(PushStep(s, t, flaky, 0))
  {
    assert Remembers(s, t);
    var PushLink(n, tail) := s.threads[t].pc;
    assert NodeOk(s, Pos(s, tail));
    if s.heap[tail].next == 0 && !flaky {
      LinkInv(s, t);
    } else {
      MoveInv(s, PushStep(s, t, flaky, 0), t, s.threads[t].(pc := PushTail(n)));
    }
  }

  lemma LinkInv(s: State, t: nat)
    requires Inv(s) && t < |s.threads| && s.threads[t].pc.PushLink?
    requires s.threads[t].pc.tail in s.heap && s.heap[s.threads[t].pc.tail].next == 0
    ensures Inv(PushStep(s, t, false, 0))
  {
    assert Remembers(s, t);
    LinkChained(s, t);
    var s' := PushStep(s, t, false, 0);
    UncountedMoves(s.threads, t, s'.threads[t]);
    OthersRemember(s, s', t);
  }

  lemma LinkChained(s: State, t: nat)
    requires Chained(s) && t < |s.threads| && s.threads[t].pc.PushLink? && Remembers(s, t)
    requires s.threads[t].pc.tail in s.heap && s.heap[s.threads[t].pc.tail].next == 0
    ensures Chained(PushStep(s, t, false, 0)) && Grows(s, PushStep(s, t, false, 0), t)
    ensures s.threads[t].pc.tail == s.chain[|s.chain| - 1]
  {
    var PushLink(n, tail) := s.threads[t].pc;
    assert NodeOk(s, Pos(s, tail));
    LastIsUnique(s, tail);
    var s' := PushStep(s, t, false, 0);
    forall i | 0 <= i < |s'.chain| ensures NodeOk(s', i) {
      if i < |s.chain| { assert NodeOk(s, i); assert s'.chain[i] == s.chain[i]; }
    }
  }

  /** A node of the chain without a successor is the last one: a link happens only there. */
  lemma LastIsUnique(s: State, a: nat)
    requires Chained(s) && InChain(s, a) && a in s.heap && s.heap[a].next == 0
    ensures Pos(s, a) == |s.chain| - 1
  {
    LookAhead(s, a);
  }

  lemma PopStepInv(s: State, t: nat, flaky: bool)
    requires Inv(s) && t < |s.threads| && !Pushing(s.threads[t].pc)
    ensures Inv(PopStep(s, t, flaky))
  {
    var pc := s.threads[t].pc;
    if pc.PopSwing? && s.head == pc.head && !flaky {
      UnlinkInv(s, t);
    } else if pc.PopTake? {
      TakeInv(s, t);
    } else if pc.PopCheck? || pc.PopRead? || pc.PopNext? {
      PopLookInv(s, t);
    } else if pc.PopHead? || pc.PopSwing? || pc.PopCount? {
      PopMoveInv(s, t, flaky);
    }
  }

  lemma PopMoveInv(s: State, t: nat, flaky: bool)
    requires Inv(s) && t < |s.threads|
    requires var pc := s.threads[t].pc; (pc.PopHead? || pc.PopCount? || (pc.PopSwing? && (s.head != pc.head || flaky)))
    ensures Inv(PopStep(s, t, flaky))
  {
    assert Remembers(s, t);
    assert NodeOk(s, s.popped);
    var s' := PopStep(s, t, flaky);
    MoveInv(s, s', t, s'.threads[t]);
  }

  lemma PopLookInv(s: State, t: nat)
    requires Inv(s) && t < |s.threads| && (s.threads[t].pc.PopCheck? || s.threads[t].pc.PopRead? || s.threads[t].pc.PopNext?)
    ensures forall flaky :: PopStep(s, t, flaky) == PopStep(s, t, false)
    ensures Inv(PopStep(s, t, false))
  {
    assert Remembers(s, t);
    LookAhead(s, s.threads[t].pc.head);
    var s' := PopStep(s, t, false);
    MoveInv(s, s', t, s'.threads[t]);
  }

  /** The successor that a read of next finds. */
  lemma LookAhead(s: State, a: nat)
    requires Chained(s) && InChain(s, a)
    ensures a in s.heap && s.heap[a].next == if Pos(s, a) + 1 < |s.chain| then s.chain[Pos(s, a) + 1] else 0
    ensures Pos(s, a) + 1 < |s.chain| ==> s.heap[a].next != 0 && InChain(s, s.heap[a].next)
  {
    assert NodeOk(s, Pos(s, a));
    assert Pos(s, a) + 1 < |s.chain| ==> NodeOk(s, Pos(s, a) + 1);
  }

  lemma UnlinkInv(s: State, t: nat)
    requires Inv(s) && t < |s.threads| && s.threads[t].pc.PopSwing? && s.head == s.threads[t].pc.head
    ensures Inv(PopStep(s, t, false))
  {
    assert Remembers(s, t);
    UnlinkChained(s, t);
    UnlinkGrows(s, t);
    UnlinkRemembers(s, t);
    UnlinkSize(s, t);
    OthersRemember(s, PopStep(s, t, false), t);
  }

  lemma UnlinkSize(s: State, t: nat)
    requires SizeLaw(s) && t < |s.threads| && s.threads[t].pc.PopSwing? && s.head == s.threads[t].pc.head
    ensures SizeLaw(PopStep(s, t, false))
  {
    UncountedMoves(s.threads, t, PopStep(s, t, false).threads[t]);
  }

  /** Claiming the next node leaves every node of the chain in its place. */
  lemma UnlinkedNode(s: State, s': State, t: nat, next: nat, i: nat)
    requires Chained(s) && s.popped + 1 < |s.chain| && next == s.chain[s.popped + 1] && i < |s.chain|
    requires s' == Unlink(s, t, next).(threads := s'.threads)
    ensures |s'.chain| == |s'.items| + 1 && NodeOk(s', i)
  {
    assert NodeOk(s, i) && NodeOk(s, s.popped + 1);
  }

  lemma UnlinkChained(s: State, t: nat)
    requires Chained(s) && t < |s.threads| && s.threads[t].pc.PopSwing? && s.head == s.threads[t].pc.head
    requires Remembers(s, t)
    ensures Chained(PopStep(s, t, false))
  {
    assert NodeOk(s, s.popped) && NodeOk(s, s.popped + 1);
    var s' := PopStep(s, t, false);
    forall i | 0 <= i < |s'.chain| ensures NodeOk(s', i) { UnlinkedNode(s, s', t, s.threads[t].pc.next, i); }
  }

  lemma UnlinkGrows(s: State, t: nat)
    requires Chained(s) && t < |s.threads| && s.threads[t].pc.PopSwing? && s.head == s.threads[t].pc.head
    requires Remembers(s, t)
    ensures Grows(s, PopStep(s, t, false), t)
  {
    assert NodeOk(s, s.popped) && NodeOk(s, s.popped + 1);
  }

  lemma UnlinkRemembers(s: State, t: nat)
    requires Chained(s) && t < |s.threads| && s.threads[t].pc.PopSwing? && s.head == s.threads[t].pc.head
    requires Remembers(s, t)
    ensures Remembers(PopStep(s, t, false), t)
  {
    assert NodeOk(s, s.popped) && NodeOk(s, s.popped + 1);
  }

  lemma TakeInv(s: State, t: nat)
    requires Inv(s) && t < |s.threads| && s.threads[t].pc.PopTake?
    ensures Inv(PopStep(s, t, false)) && forall flaky :: PopStep(s, t, flaky) == PopStep(s, t, false)
  {
    assert Remembers(s, t);
    assert NodeOk(s, Pos(s, s.threads[t].pc.node));
    var s' := PopStep(s, t, false);
    UncountedMoves(s.threads, t, s'.threads[t]);
    TakeChained(s, s', t);
    OthersRemember(s, s', t);
  }

  lemma TakeChained(s: State, s': State, t: nat)
    requires Inv(s) && t < |s.threads| && s.threads[t].pc.PopTake? && s' == PopStep(s, t, false)
    ensures Chained(s')
  {
    assert Remembers(s, t);
    assert NodeOk(s, Pos(s, s.threads[t].pc.node));
    forall i | 0 <= i < |s'.chain| ensures NodeOk(s', i) { assert NodeOk(s, i); }
  }

  // --- Refinement to a sequential queue

  datatype Replayed = Legal(items: seq<Item>) | Illegal

  function Apply(r: Replayed, e: Event): Replayed {
    if r.Illegal? then Illegal else
    match e
    case Pushed(_, v) => Legal(r.items + [v])
    case Popped(_, v) => if r.items != [] && r.items[0] == v then Legal(r.items[1..]) else Illegal
    case SawEmpty(_) => if r.items == [] then r else Illegal
  }

  function Replay(log: seq<Event>): Replayed {
    if log == [] then Legal([]) else Apply(Replay(log[..|log| - 1]), log[|log| - 1])
  }

  lemma ReplayAppend(log: seq<Event>, e: Event)
    ensures Replay(log + [e]) == Apply(Replay(log), e)
  {
    assert (log + [e])[..|log|] == log;
  }

  /** The values linked and not yet popped, oldest first. */
  ghost function Contents(s: State): seq<Item>
    requires s.popped <= |s.items|
  {
    s.items[s.popped..]
  }

  ghost predicate Refines(s: State) {
    s.popped <= |s.items| && Replay(s.log) == Legal(Contents(s))
  }

  predicate Links(s: State, a: Action) {
    a.Tick? && !a.flaky && a.t < |s.threads| && s.threads[a.t].pc.PushLink? &&
    s.threads[a.t].pc.tail in s.heap && s.threads[a.t].pc.node in s.heap && s.heap[s.threads[a.t].pc.tail].next == 0
  }

  predicate Unlinks(s: State, a: Action) {
    a.Tick? && !a.flaky && a.t < |s.threads| && s.threads[a.t].pc.PopSwing? && s.head == s.threads[a.t].pc.head
  }

  predicate FindsEmpty(s: State, a: Action) {
    a.Tick? && a.t < |s.threads| && s.threads[a.t].pc.PopCheck? &&
    s.threads[a.t].pc.head in s.heap && s.heap[s.threads[a.t].pc.head].next == 0
  }

  /** The operation is under way and has not yet taken effect. */
  ghost predicate Pending(pc: Pc) {
    pc.PushTail? || pc.PushCheck? || pc.PushHelpRead? || pc.PushHelp? || pc.PushLink? ||
    pc.PopHead? || pc.PopCheck? || pc.PopRead? || pc.PopSwing?
  }

  /** Nothing takes effect. */
  ghost predicate Silent(s: State, s': State, t: nat) {
    && s'.items == s.items && s'.popped == s.popped && s'.log == s.log
    && |s'.threads| == |s.threads|
    && (forall u :: 0 <= u < |s.threads| && u != t ==> s'.threads[u] == s.threads[u])
  }

  lemma PushStepSilent(s: State, t: nat, flaky: bool, junk: nat)
    requires t < |s.threads| && !Links(s, Tick(t, flaky, junk))
    ensures Silent(s, PushStep(s, t, flaky, junk), t)
  {
    match s.threads[t].pc
    case PushLink(_, _) =>
    case PushHelp(_, _, _) =>
    case _ =>
  }

  lemma PopStepSilent(s: State, t: nat, flaky: bool)
    requires t < |s.threads| && !Unlinks(s, Tick(t, flaky, 0)) && !FindsEmpty(s, Tick(t, flaky, 0))
    ensures Silent(s, PopStep(s, t, flaky), t)
  {
    match s.threads[t].pc
    case PopCheck(_) =>
    case PopSwing(_, _) =>
    case _ =>
  }

  lemma OtherStepsAreSilent(s: State, a: Action)
    requires !Links(s, a) && !Unlinks(s, a) && !FindsEmpty(s, a)
    ensures Silent(s, Step(s, a), a.t)
  {
    if a.t < |s.threads| && a.Tick? {
      if Pushing(s.threads[a.t].pc) {
        PushStepSilent(s, a.t, a.flaky, a.junk);
      } else {
        PopStepSilent(s, a.t, a.flaky);
      }
    }
  }

  lemma LinkRefines(s: State, a: Action)
    requires Refines(s) && Links(s, a)
    ensures Refines(Step(s, a))
  {
    var v := ValueOf(s.heap[s.threads[a.t].pc.node]);
    ReplayAppend(s.log, Pushed(a.t, v));
    assert (s.items + [v])[s.popped..] == s.items[s.popped..] + [v];
  }

  lemma UnlinkRefines(s: State, a: Action)
    requires Inv(s) && Refines(s) && Unlinks(s, a)
    ensures Refines(Step(s, a))
  {
    assert Remembers(s, a.t);
    assert NodeOk(s, s.popped);
    ReplayAppend(s.log, Popped(a.t, s.items[s.popped]));
  }

  lemma EmptyRefines(s: State, a: Action)
    requires Inv(s) && Refines(s) && FindsEmpty(s, a)
    ensures Refines(Step(s, a))
  {
    assert Remembers(s, a.t);
    LastIsUnique(s, s.threads[a.t].pc.head);
    ReplayAppend(s.log, SawEmpty(a.t));
  }

  lemma StepRefines(s: State, a: Action)
    requires Inv(s) && Refines(s)
    ensures Refines(Step(s, a))
  {
    if Links(s, a) {
      LinkRefines(s, a);
    } else if Unlinks(s, a) {
      UnlinkRefines(s, a);
    } else if FindsEmpty(s, a) {
      EmptyRefines(s, a);
    } else {
      OtherStepsAreSilent(s, a);
    }
  }

  // --- Each operation takes effect exactly once

  /** The events of thread `t` are its calls, and its answers are those of its events. */
  ghost predicate CountedAt(s: State, t: nat)
    requires t < |s.threads|
  {
    var th := s.threads[t];
    && Accounted(s.log, t, th.calls, th.answers, Pending(th.pc))
    && |th.answers| + (if th.pc.Idle? then 0 else 1) == |th.calls|
    && (!th.pc.Idle? ==> th.calls[|th.calls| - 1].PushCall? == Pushing(th.pc))
  }

  ghost predicate Counted(s: State) {
    forall t :: 0 <= t < |s.threads| ==> CountedAt(s, t)
  }

  lemma StepCounted(s: State, a: Action)
    requires Inv(s) && Counted(s)
    ensures Counted(Step(s, a))
  {
    var s' := Step(s, a);
    if Links(s, a) || Unlinks(s, a) || FindsEmpty(s, a) {
      EventCounted(s, a);
    } else {
      OtherStepsAreSilent(s, a);
      forall t | 0 <= t < |s'.threads| ensures CountedAt(s', t) {
        assert CountedAt(s, t);
        if t == a.t { SilentCounted(s, a); }
      }
    }
  }

  lemma SilentCounted(s: State, a: Action)
    requires Inv(s) && !Links(s, a) && !Unlinks(s, a) && !FindsEmpty(s, a)
    requires a.t < |s.threads| && CountedAt(s, a.t) && Silent(s, Step(s, a), a.t)
    ensures CountedAt(Step(s, a), a.t)
  {
    var th := s.threads[a.t];
    assert Remembers(s, a.t);
    if a.Tick? {
      SilentTick(s, a);
      if th.pc.PushCount? {
        AccountedReturn(s.log, a.t, th.calls, th.answers, Done);
      }
    } else if a.Collect? && th.pc.Returned? {
      LastOfOf(s.log, a.t, th.pc.lin);
      AccountedReturn(s.log, a.t, th.calls, th.answers, Gave(th.pc.result));
    } else if !a.Collect? && th.pc.Idle? {
      AccountedCall(s.log, a.t, th.calls, th.answers, if a.CallPush? then PushCall(a.value) else PopCall);
    }
  }

  /** What a step without event leaves of a thread inside an operation, save that Push returns. */
  ghost predicate StaysInside(th: Thread, th': Thread) {
    && th'.calls == th.calls && (Pending(th'.pc) <==> Pending(th.pc))
    && (if th.pc.PushCount? then th'.pc.Idle? && th'.answers == th.answers + [Done]
        else th'.answers == th.answers && (th'.pc.Idle? <==> th.pc.Idle?) && (Pushing(th'.pc) <==> Pushing(th.pc)))
  }

  lemma SilentPush(s: State, t: nat, flaky: bool, junk: nat)
    requires t < |s.threads| && Pushing(s.threads[t].pc) && !Links(s, Tick(t, flaky, junk))
    ensures |PushStep(s, t, flaky, junk).threads| == |s.threads|
    ensures StaysInside(s.threads[t], PushStep(s, t, flaky, junk).threads[t])
  {
    match s.threads[t].pc
    case PushLink(_, _) =>
    case PushHelp(_, _, _) =>
    case _ =>
  }

  lemma SilentPop(s: State, t: nat, flaky: bool)
    requires t < |s.threads| && !Pushing(s.threads[t].pc)
    requires !Unlinks(s, Tick(t, flaky, 0)) && !FindsEmpty(s, Tick(t, flaky, 0))
    ensures |PopStep(s, t, flaky).threads| == |s.threads|
    ensures StaysInside(s.threads[t], PopStep(s, t, flaky).threads[t])
  {
    match s.threads[t].pc
    case PopCheck(_) =>
    case PopSwing(_, _) =>
    case _ =>
  }

  lemma SilentTick(s: State, a: Action)
    requires a.Tick? && a.t < |s.threads| && !Links(s, a) && !Unlinks(s, a) && !FindsEmpty(s, a)
    ensures |Step(s, a).threads| == |s.threads| && StaysInside(s.threads[a.t], Step(s, a).threads[a.t])
  {
    if Pushing(s.threads[a.t].pc) { SilentPush(s, a.t, a.flaky, a.junk); } else { SilentPop(s, a.t, a.flaky); }
  }

  /** Event `e`, that of the call of thread `t`, which is then no longer pending. */
  ghost predicate Effect(s: State, s': State, t: nat, e: Event)
    requires t < |s.threads|
  {
    && s'.log == s.log + [e] && e.t == t && |s'.threads| == |s.threads|
    && (forall u :: 0 <= u < |s.threads| && u != t ==> s'.threads[u] == s.threads[u])
    && var th, th' := s.threads[t], s'.threads[t];
       && Pending(th.pc) && !Pending(th'.pc) && th'.calls == th.calls && th'.answers == th.answers
       && th.calls != [] && Matches(th.calls[|th.calls| - 1], e)
       && !th'.pc.Idle? && (Pushing(th'.pc) <==> Pushing(th.pc))
  }

  lemma LinkEvent(s: State, a: Action) returns (e: Event)
    requires Links(s, a) && Remembers(s, a.t)
    ensures Effect(s, Step(s, a), a.t, e)
  {
    e := Pushed(a.t, ValueOf(s.heap[s.threads[a.t].pc.node]));
  }

  lemma PopEvent(s: State, a: Action) returns (e: Event)
    requires (Unlinks(s, a) || FindsEmpty(s, a)) && CountedAt(s, a.t)
    ensures Effect(s, Step(s, a), a.t, e)
  {
    e := Step(s, a).log[|s.log|];
  }

  lemma EventCounted(s: State, a: Action)
    requires Inv(s) && Counted(s) && (Links(s, a) || Unlinks(s, a) || FindsEmpty(s, a))
    ensures Counted(Step(s, a))
  {
    var s', th := Step(s, a), s.threads[a.t];
    assert CountedAt(s, a.t) && Remembers(s, a.t);
    var e;
    if Links(s, a) { e := LinkEvent(s, a); } else { e := PopEvent(s, a); }
    forall t | 0 <= t < |s'.threads| ensures CountedAt(s', t) {
      assert CountedAt(s, t);
      if t != a.t {
        AccountedOther(s.log, e, t, s.threads[t].calls, s.threads[t].answers, Pending(s.threads[t].pc));
      } else {
        AccountedEffect(s.log, e, t, th.calls, th.answers);
      }
    }
  }

  /** The call that thread `t` begins with this action, if it begins one. */
  ghost function Begun(s: State, a: Action, t: nat): seq<Call> {
    if a.t != t || t >= |s.threads| || !s.threads[t].pc.Idle? then []
    else if a.CallPop? then [PopCall]
    else if a.CallPush? && a.addr != 0 && a.addr !in s.heap then [PushCall(a.value)]
    else []
  }

  /** The calls that the client makes from thread `t` in a run. */
  ghost function Asked(s: State, actions: seq<Action>, t: nat): seq<Call>
    decreases |actions|
  {
    if actions == [] then [] else Begun(s, actions[0], t) + Asked(Step(s, actions[0]), actions[1..], t)
  }

  /** What a run from `s` has made of the calls of thread `t`. */
  ghost predicate Called(s: State, actions: seq<Action>, end: State, t: nat)
    requires t < |s.threads|
  {
    |end.threads| == |s.threads| && end.threads[t].calls == s.threads[t].calls + Asked(s, actions, t)
  }

  lemma {:induction false} AskedAreCalls(s: State, actions: seq<Action>, t: nat)
    requires t < |s.threads|
    ensures Called(s, actions, Run(s, actions), t)
    decreases |actions|
  {
    if actions != [] {
      var s' := Step(s, actions[0]);
      StepBegins(s, actions[0], t);
      AskedAreCalls(s', actions[1..], t);
      CalledFirst(s, actions, s', Run(s', actions[1..]), t);
    }
  }

  lemma CalledFirst(s: State, actions: seq<Action>, s': State, end: State, t: nat)
    requires actions != [] && s' == Step(s, actions[0]) && t < |s.threads| == |s'.threads|
    requires s'.threads[t].calls == s.threads[t].calls + Begun(s, actions[0], t) && Called(s', actions[1..], end, t)
    ensures Called(s, actions, end, t)
  {
    AskedUnfolds(s, actions, s', t, s.threads[t].calls);
  }

  lemma AskedUnfolds(s: State, actions: seq<Action>, s': State, t: nat, calls: seq<Call>)
    requires actions != [] && s' == Step(s, actions[0])
    ensures calls + Asked(s, actions, t) == (calls + Begun(s, actions[0], t)) + Asked(s', actions[1..], t)
  {
    var begun, rest := Begun(s, actions[0], t), Asked(s', actions[1..], t);
    assert (calls + begun) + rest == calls + (begun + rest);
  }

  lemma {:induction false} ThreadsStay(s: State, actions: seq<Action>)
    ensures |Run(s, actions).threads| == |s.threads|
    decreases |actions|
  {
    if actions != [] {
      StepBegins(s, actions[0], 0);
      ThreadsStay(Step(s, actions[0]), actions[1..]);
    }
  }

  lemma StepBegins(s: State, a: Action, t: nat)
    ensures |Step(s, a).threads| == |s.threads|
    ensures t < |s.threads| ==> Step(s, a).threads[t].calls == s.threads[t].calls + Begun(s, a, t)
  {
    if a.Tick? && a.t < |s.threads| {
      if Pushing(s.threads[a.t].pc) { PushStepBegins(s, a.t, a.flaky, a.junk, t); } else { PopStepBegins(s, a.t, a.flaky, t); }
    }
  }

  lemma PushStepBegins(s: State, u: nat, flaky: bool, junk: nat, t: nat)
    requires u < |s.threads|
    ensures |PushStep(s, u, flaky, junk).threads| == |s.threads|
    ensures t < |s.threads| ==> PushStep(s, u, flaky, junk).threads[t].calls == s.threads[t].calls
  {
    match s.threads[u].pc
    case PushLink(_, _) =>
    case PushHelp(_, _, _) =>
    case _ =>
  }

  lemma PopStepBegins(s: State, u: nat, flaky: bool, t: nat)
    requires u < |s.threads|
    ensures |PopStep(s, u, flaky).threads| == |s.threads|
    ensures t < |s.threads| ==> PopStep(s, u, flaky).threads[t].calls == s.threads[t].calls
  {
    match s.threads[u].pc
    case PopCheck(_) =>
    case PopSwing(_, _) =>
    case _ =>
  }

  // --- Every run

  lemma {:induction false} RunKeeps(s: State, actions: seq<Action>)
    requires Inv(s) && Refines(s) && Counted(s)
    ensures Inv(Run(s, actions)) && Refines(Run(s, actions)) && Counted(Run(s, actions))
    decreases |actions|
  {
    if actions != [] {
      StepInv(s, actions[0]);
      StepRefines(s, actions[0]);
      StepCounted(s, actions[0]);
      RunKeeps(Step(s, actions[0]), actions[1..]);
    }
  }

  lemma InitKeeps(n: nat)
    ensures Inv(Init(n)) && Refines(Init(n)) && Counted(Init(n))
  {
    SumAllZero(Init(n).threads, UncountedFn());
    assert NodeOk(Init(n), 0);
  }

  /** Reading the nodes behind `p` along their next pointers, up to null, yields these values. */
  ghost predicate Reads(heap: map<nat, Node>, p: nat, values: seq<Item>)
    decreases |values|
  {
    && p in heap
    && var next := heap[p].next;
       if values == [] then next == 0
       else next != 0 && next in heap && heap[next].value == Some(values[0]) && Reads(heap, next, values[1..])
  }

  lemma {:induction false} ChainReads(s: State, i: nat)
    requires Chained(s) && s.popped <= i < |s.chain|
    ensures Reads(s.heap, s.chain[i], s.items[i..])
    decreases |s.chain| - i
  {
    assert NodeOk(s, i);
    if i + 1 < |s.chain| {
      assert NodeOk(s, i + 1);
      assert s.items[i..][1..] == s.items[i + 1..];
      ChainReads(s, i + 1);
    }
  }

  /** In every run of any number of threads: the log of linearization points is a legal FIFO history
      that leaves exactly the values to be read from head_ along the next pointers (so an empty answer
      is true at its instant). The events of each thread are, one by one, the calls that the client made from it, with the values
      passed to Push, up to the call still pending; and what each TryPop answered is what its event
      recorded. */
  lemma Linearizable(n: nat, actions: seq<Action>)
    ensures var s := Run(Init(n), actions);
      && Refines(s) && Reads(s.heap, s.head, Contents(s))
      && |s.threads| == n && forall t :: 0 <= t < n ==> HistoryOf(s, t, Asked(Init(n), actions, t))
  {
    InitKeeps(n);
    HistoriesHold(Init(n), actions, Run(Init(n), actions));
  }

  lemma HistoriesHold(s: State, actions: seq<Action>, s': State)
    requires Inv(s) && Refines(s) && Counted(s) && s' == Run(s, actions)
    requires forall t :: 0 <= t < |s.threads| ==> s.threads[t].calls == []
    ensures Refines(s') && |s'.threads| == |s.threads| && Reads(s'.heap, s'.head, Contents(s'))
    ensures forall t :: 0 <= t < |s'.threads| ==> HistoryOf(s', t, Asked(s, actions, t))
  {
    RunKeeps(s, actions);
    ChainReads(s', s'.popped);
    ThreadsStay(s, actions);
    forall t | 0 <= t < |s'.threads| ensures HistoryOf(s', t, Asked(s, actions, t)) {
      AskedAreCalls(s, actions, t);
      CalledHistory(s, actions, s', t);
    }
  }

  lemma CalledHistory(s: State, actions: seq<Action>, s': State, t: nat)
    requires t < |s.threads| && s.threads[t].calls == [] && Called(s, actions, s', t) && Inv(s') && Counted(s')
    ensures HistoryOf(s', t, Asked(s, actions, t))
  {
    HistoryHolds(s', t);
  }

  /** What thread `t` asked and was answered is what its events say. */
  ghost predicate HistoryOf(s: State, t: nat, asked: seq<Call>)
    requires t < |s.threads|
  {
    var th := s.threads[t];
    && Accounted(s.log, t, asked, th.answers, Pending(th.pc))
    && |th.answers| + (if th.pc.Idle? then 0 else 1) == |asked|
    && (th.pc.Returned? ==> Of(s.log, t) == Of(s.log, t)[..|th.answers|] + [EventOf(t, PopCall, Gave(th.pc.result))])
  }

  lemma HistoryHolds(s: State, t: nat)
    requires Inv(s) && Counted(s) && t < |s.threads|
    ensures HistoryOf(s, t, s.threads[t].calls)
  {
    assert CountedAt(s, t) && Remembers(s, t);
    if s.threads[t].pc.Returned? { LastOfOf(s.log, t, s.threads[t].pc.lin); }
  }

  /** Node `i` of the chain is allocated and points to the next one, or nowhere if it is the last. */
  ghost predicate LinksOn(s: State, i: nat) {
    i < |s.chain| && s.chain[i] != 0 && s.chain[i] in s.heap &&
    s.heap[s.chain[i]].next == if i + 1 < |s.chain| then s.chain[i + 1] else 0
  }

  lemma ChainLinksOn(s: State)
    requires Chained(s)
    ensures forall i :: 0 <= i < |s.chain| ==> LinksOn(s, i)
  {
    forall i | 0 <= i < |s.chain| ensures LinksOn(s, i) {
      assert NodeOk(s, i);
      assert i + 1 < |s.chain| ==> NodeOk(s, i + 1);
    }
  }

  lemma InvShape(s: State)
    requires Inv(s)
    ensures !s.fault && s.popped < |s.chain| && s.head == s.chain[s.popped] && InChain(s, s.tail)
    ensures forall i :: 0 <= i < |s.chain| ==> LinksOn(s, i)
    ensures s.popped <= |s.items| && s.size == Wrap(|Contents(s)| - Sum(s.threads, UncountedFn()))
  {
    ChainLinksOn(s);
  }

  /** In every run: no access has missed its node or its value (each value is taken once, by the
      popper whose event names it); head_ is the node after the last popped one; tail_ is some node
      of the chain; only the last node of the chain has no successor; and size_ counts the contents
      up to the operations between their link or unlink and their update of size_. */
  lemma WellFormed(n: nat, actions: seq<Action>, s: State)
    requires s == Run(Init(n), actions)
    ensures
      && !s.fault
      && s.popped < |s.chain| && s.head == s.chain[s.popped] && InChain(s, s.tail)
      && (forall i :: 0 <= i < |s.chain| ==> LinksOn(s, i))
      && s.popped <= |s.items|
      && s.size == Wrap(|Contents(s)| - Sum(s.threads, UncountedFn()))
  {
    InitKeeps(n);
    RunKeeps(Init(n), actions);
    InvShape(s);
  }

  // --- The queue object

  class LockFreeQueue {
    var head: nat
    var tail: nat
    var size: int
    var heap: map<nat, Node>
    var threads: seq<Thread>
    // auxiliary
    var chain: seq<nat>
    var place: map<nat, Place>
    var items: seq<Item>
    var popped: nat
    var log: seq<Event>

    ghost function View(): State reads this {
      State(head, tail, size, heap, threads, false, chain, place, items, popped, log)
    }

    constructor (n: nat)
      ensures View() == Init(n) && Inv(View())
    {
      head, tail, size, heap := 1, 1, 0, map[1 := Node(None, 0)];
      threads := seq(n, _ => Thread(Idle, [], []));
      chain, place, items, popped, log := [1], map[1 := Linked(0)], [], 0, [];
      new;
      InitKeeps(n);
    }

    method MoveTo(t: nat, pc: Pc)
      requires t < |threads|
      modifies this`threads
      ensures View() == Goto(old(View()), t, pc)
    {
      threads := threads[t := threads[t].(pc := pc)];
    }

    method Leave(t: nat, answer: Answer)
      requires t < |threads|
      modifies this`threads
      ensures View() == Finish(old(View()), t, answer)
    {
      threads := threads[t := Thread(Idle, threads[t].calls, threads[t].answers + [answer])];
    }

    /** The next access of a thread inside Push. */
    method Push(t: nat, flaky: bool, junk: nat)
      requires Inv(View()) && t < |threads| && Pushing(threads[t].pc)
      modifies this
      ensures View() == PushStep(old(View()), t, flaky, junk) && Inv(View())
    {
      assert Remembers(View(), t);
      PushStepInv(View(), t, flaky, junk);
      match threads[t].pc
      case PushTail(n) => MoveTo(t, PushCheck(n, tail));
      case PushCheck(n, tl) =>
        LookAhead(View(), tl);
        MoveTo(t, if heap[tl].next != 0 then PushHelpRead(n, tl) else PushLink(n, tl));
      case PushHelpRead(n, tl) =>
        LookAhead(View(), tl);
        MoveTo(t, PushHelp(n, tl, heap[tl].next));
      case PushHelp(n, tl, next) =>
        if tail == tl && !flaky {
          tail := next;
          MoveTo(t, PushTail(n));
        } else {
          MoveTo(t, PushLink(n, tail));
        }
      case PushLink(n, tl) => LinkNode(t, n, tl, flaky);
      case PushFinish(n) =>
        if tail == junk { tail := n; }
        MoveTo(t, PushCount);
      case PushCount =>
        size := Wrap(size + 1);
        Leave(t, Done);
    }

    method LinkNode(t: nat, n: nat, tl: nat, flaky: bool)
      requires Chained(View()) && t < |threads| && threads[t].pc == PushLink(n, tl) && Remembers(View(), t)
      modifies this
      ensures forall junk :: View() == PushStep(old(View()), t, flaky, junk)
    {
      LookAhead(View(), tl);
      if heap[tl].next == 0 && !flaky {
        var v := ValueOf(heap[n]);
        heap := heap[tl := heap[tl].(next := n)];
        place := place[n := Linked(|chain|)];
        chain, items, log := chain + [n], items + [v], log + [Pushed(t, v)];
        MoveTo(t, PushFinish(n));
      } else {
        MoveTo(t, PushTail(n));
      }
    }

    /** The next access of a thread inside TryPop. */
    method TryPop(t: nat, flaky: bool)
      requires Inv(View()) && t < |threads| && !Pushing(threads[t].pc)
      modifies this
      ensures View() == PopStep(old(View()), t, flaky) && Inv(View())
    {
      assert Remembers(View(), t);
      PopStepInv(View(), t, flaky);
      var pc := threads[t].pc;
      if pc.PopHead? {
        MoveTo(t, PopCheck(head));
      } else if pc.PopCheck? {
        CheckNext(t, pc.head);
      } else if pc.PopRead? {
        LookAhead(View(), pc.head);
        MoveTo(t, PopSwing(pc.head, heap[pc.head].next));
      } else if pc.PopSwing? {
        SwingHead(t, pc.head, pc.next, flaky);
      } else if pc.PopNext? {
        LookAhead(View(), pc.head);
        MoveTo(t, PopTake(heap[pc.head].next, pc.lin));
      } else if pc.PopTake? {
        MoveOut(t, pc.node, pc.lin);
      } else if pc.PopCount? {
        size := Wrap(size - 1);
        MoveTo(t, Returned(Some(pc.value), pc.lin));
      }
    }

    method CheckNext(t: nat, hd: nat)
      requires Chained(View()) && t < |threads| && threads[t].pc == PopCheck(hd) && InChain(View(), hd)
      modifies this
      ensures forall flaky :: View() == PopStep(old(View()), t, flaky)
    {
      LookAhead(View(), hd);
      if heap[hd].next != 0 {
        MoveTo(t, PopRead(hd));
      } else {
        log := log + [SawEmpty(t)];
        MoveTo(t, Returned(None, |log| - 1));
      }
    }

    method SwingHead(t: nat, hd: nat, next: nat, flaky: bool)
      requires t < |threads| && threads[t].pc == PopSwing(hd, next)
      modifies this
      ensures View() == PopStep(old(View()), t, flaky)
    {
      if head == hd && !flaky {
        log := log + [Popped(t, if popped < |items| then items[popped] else 0)];
        head, popped, place := next, popped + 1, place[next := Claimed(t, popped + 1)];
        MoveTo(t, PopNext(hd, |log| - 1));
      } else {
        MoveTo(t, PopHead);
      }
    }

    method MoveOut(t: nat, n: nat, lin: nat)
      requires t < |threads| && threads[t].pc == PopTake(n, lin) && n in heap && heap[n].value.Some?
      modifies this
      ensures forall flaky :: View() == PopStep(old(View()), t, flaky)
    {
      var v := heap[n].value.value;
      heap := heap[n := heap[n].(value := None)];
      MoveTo(t, PopCount(v, lin));
    }

    /** Count: exact when no operation is between its link or unlink and its update of size_. */
    method Count() returns (n: int)
      requires Inv(View())
      ensures n == Wrap(|Contents(View())| - Sum(threads, UncountedFn()))
    {
      n := size;
    }

    /** The caller's moves: begin a call, with the fresh node made for it, or collect a result. */
    method Handle(a: Action)
      requires !a.Tick? && a.t < |threads|
      modifies this
      ensures View() == Step(old(View()), a)
    {
      var Thread(pc, calls, answers) := threads[a.t];
      if a.CallPush? {
        if pc.Idle? && a.addr != 0 && a.addr !in heap {
          heap, place := heap[a.addr := Node(Some(a.value), 0)], place[a.addr := Private(a.t)];
          threads := threads[a.t := Thread(PushTail(a.addr), calls + [PushCall(a.value)], answers)];
        }
      } else if a.CallPop? {
        if pc.Idle? { threads := threads[a.t := Thread(PopHead, calls + [PopCall], answers)]; }
      } else if pc.Returned? {
        Leave(a.t, Gave(pc.result));
      }
    }

    method Perform(a: Action)
      requires Inv(View())
      modifies this
      ensures View() == Step(old(View()), a) && Inv(View())
    {
      StepInv(View(), a);
      if a.t < |threads| {
        if !a.Tick? {
          Handle(a);
        } else if Pushing(threads[a.t].pc) {
          Push(a.t, a.flaky, a.junk);
        } else {
          TryPop(a.t, a.flaky);
        }
      }
    }

    /** Any schedule: what the theorems say of runs holds of the object. */
    method Execute(actions: seq<Action>)
      requires Inv(View())
      modifies this
      ensures View() == Run(old(View()), actions) && Inv(View())
    {
      var i := 0;
      while i < |actions|
        invariant i <= |actions|
        invariant Inv(View()) && Run(View(), actions[i..]) == Run(old(View()), actions)
      {
        assert actions[i..][0] == actions[i] && actions[i..][1..] == actions[i + 1..];
        Perform(actions[i]);
        i := i + 1;
      }
    }
  }
}
