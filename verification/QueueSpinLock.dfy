/** The queue spinlock (tasks/mutex/queue/queue_spinlock.hpp), an MCS lock: the waiters' guards form a
    line ending at tail_, and each owner hands the lock to the guard behind its own.

    Any number of threads lock and unlock again and again; one action is one atomic operation, memory
    is sequentially consistent. A guard lives from its constructor until its destructor returns; its
    address may then be used for another guard. */
module QueueSpinLock {
  import opened Counting

  /** `ticket` and `holder` are auxiliary: the number of the guard's exchange of tail_, and its thread. */
  datatype Guard = Guard(next: nat, isOwner: bool, ticket: int, holder: nat)

  /** Where a thread stands; `k` is the ticket of its guard (auxiliary). */
  datatype Pc =
    | Idle
    | Exchange(g: nat)                        // exchange tail_
    | SetOwner(g: nat, prev: nat, k: nat)     // store is_owner_
    | LinkNext(g: nat, prev: nat, k: nat)     // store next_ of the previous guard
    | Spin(g: nat, k: nat)                    // read is_owner_
    | Critical(g: nat, k: nat)
    | ReadNext(g: nat, k: nat)                // Release: is next_ null?
    | SwingTail(g: nat, k: nat)               // yes: swing tail_ from this guard to null
    | ReadAgain(g: nat, k: nat)               // no: read next_ again
    | PassOn(g: nat, next: nat, k: nat)       // store is_owner_ of the next guard
    | Leave(g: nat)                           // the guard is destroyed

  /** `fault` is raised by an access to a guard that is not alive. Auxiliary: `order` the guards and
      `who` their threads in the order of the exchanges of tail_, `served` how many have released,
      `entered` the threads in the order in which they entered the critical section. */
  datatype State = State(tail: nat, heap: map<nat, Guard>, threads: seq<Pc>, fault: bool,
                         order: seq<nat>, who: seq<nat>, served: nat, entered: seq<nat>)

  datatype Action = Lock(t: nat, addr: nat) | Tick(t: nat)

  function Init(n: nat): State {
    State(0, map[], seq(n, _ => Idle), false, [], [], 0, [])
  }

  // --- The operations, one atomic step at a time

  function Step(s: State, a: Action): State {
    if a.t >= |s.threads| then s else
    match a
    case Lock(t, addr) =>
      if s.threads[t].Idle? && addr != 0 && addr !in s.heap then
        Goto(s.(heap := s.heap[addr := Guard(0, false, -1, t)]), t, Exchange(addr))
      else s
    case Tick(t) => if Acquiring(s.threads[t]) then AcquireStep(s, t) else ReleaseStep(s, t)
  }

  predicate Acquiring(pc: Pc) {
    pc.Exchange? || pc.SetOwner? || pc.LinkNext? || pc.Spin?
  }

  function Goto(s: State, t: nat, pc: Pc): State
    requires t < |s.threads|
  {
    s.(threads := s.threads[t := pc])
  }

  function AcquireStep(s: State, t: nat): State
    requires t < |s.threads|
  {
    match s.threads[t]
    case Exchange(g) =>
      if g !in s.heap then s.(fault := true)
      else Goto(s.(tail := g, order := s.order + [g], who := s.who + [t], heap := s.heap[g := s.heap[g].(ticket := |s.order|)]),
                t, SetOwner(g, s.tail, |s.order|))
    case SetOwner(g, prev, k) =>
      if g !in s.heap then s.(fault := true)
      else Goto(s.(heap := s.heap[g := s.heap[g].(isOwner := prev == 0)]), t,
                if prev == 0 then Spin(g, k) else LinkNext(g, prev, k))
    case LinkNext(g, prev, k) =>
      if prev !in s.heap then s.(fault := true)
      else Goto(s.(heap := s.heap[prev := s.heap[prev].(next := g)]), t, Spin(g, k))
    case Spin(g, k) =>
      if g !in s.heap then s.(fault := true)
      else if s.heap[g].isOwner then Goto(s.(entered := s.entered + [t]), t, Critical(g, k))
      else s
    case _ => s
  }

  function ReleaseStep(s: State, t: nat): State
    requires t < |s.threads|
  {
    match s.threads[t]
    case Critical(g, k) => Goto(s, t, ReadNext(g, k))
    case ReadNext(g, k) =>
      if g !in s.heap then s.(fault := true)
      else Goto(s, t, if s.heap[g].next == 0 then SwingTail(g, k) else ReadAgain(g, k))
    case SwingTail(g, k) =>
      if s.tail == g then Goto(s.(tail := 0, served := s.served + 1), t, Leave(g)) else Goto(s, t, ReadNext(g, k))
    case ReadAgain(g, k) =>
      if g !in s.heap then s.(fault := true) else Goto(s, t, PassOn(g, s.heap[g].next, k))
    case PassOn(g, next, k) =>
      if next !in s.heap then s.(fault := true)
      else Goto(s.(heap := s.heap[next := s.heap[next].(isOwner := true)], served := s.served + 1), t, Leave(g))
    case Leave(g) => Goto(s.(heap := s.heap - {g}), t, Idle)
    case _ => s
  }

  function Run(s: State, actions: seq<Action>): State
    decreases |actions|
  {
    if actions == [] then s else Run(Step(s, actions[0]), actions[1..])
  }

  // --- The invariant

  predicate InLine(pc: Pc) {
    pc.SetOwner? || pc.LinkNext? || pc.Spin? || pc.Critical? || pc.ReadNext? || pc.SwingTail? || pc.ReadAgain? || pc.PassOn?
  }

  /** The guard is its predecessor's successor. */
  predicate Linked(pc: Pc) {
    InLine(pc) && !pc.SetOwner? && !pc.LinkNext?
  }

  ghost predicate Mine(s: State, t: nat, g: nat) {
    g != 0 && g in s.heap && s.heap[g].holder == t
  }

  /** Thread `t` holds ticket `k` with guard `g`. */
  ghost predicate Holds(s: State, t: nat, g: nat, k: nat) {
    Mine(s, t, g) && s.heap[g].ticket == k && s.served <= k < |s.order| == |s.who| && s.order[k] == g && s.who[k] == t
  }

  /** Ticket `k` is held by a thread in the line, and its guard points to the next one once linked. */
  ghost predicate TicketOk(s: State, k: nat)
    requires k < |s.order| == |s.who|
  {
    var g, t := s.order[k], s.who[k];
    && t < |s.threads| && InLine(s.threads[t]) && s.threads[t].g == g && s.threads[t].k == k && Holds(s, t, g, k)
    && (k + 1 < |s.order| ==> s.who[k + 1] < |s.threads|)
    && s.heap[g].next == if k + 1 < |s.order| && Linked(s.threads[s.who[k + 1]]) then s.order[k + 1] else 0
  }

  /** The guards of the line, from the owner's to the one tail_ points to: each is alive, belongs to the
      thread that exchanged in that turn, and points to the next one as soon as that one is linked. */
  ghost predicate Lined(s: State) {
    && s.served <= |s.order| == |s.who|
    && s.tail == (if s.served < |s.order| then s.order[|s.order| - 1] else 0)
    && (forall k :: s.served <= k < |s.order| ==> TicketOk(s, k))
  }

  ghost predicate Remembers(s: State, t: nat)
    requires t < |s.threads| && Lined(s)
  {
    match s.threads[t]
    case Idle => true
    case Exchange(g) => Mine(s, t, g) && s.heap[g] == Guard(0, false, -1, t)
    case SetOwner(g, prev, k) =>
      Holds(s, t, g, k) && !s.heap[g].isOwner && (if prev == 0 then k == s.served else k > s.served && prev == s.order[k - 1])
    case LinkNext(g, prev, k) => Holds(s, t, g, k) && !s.heap[g].isOwner && k > s.served && prev == s.order[k - 1]
    case Spin(g, k) => Holds(s, t, g, k) && (s.heap[g].isOwner <==> k == s.served)
    case Critical(g, k) => Holds(s, t, g, k) && k == s.served
    case ReadNext(g, k) => Holds(s, t, g, k) && k == s.served
    case SwingTail(g, k) => Holds(s, t, g, k) && k == s.served
    case ReadAgain(g, k) => Holds(s, t, g, k) && k == s.served && s.heap[g].next != 0
    case PassOn(g, next, k) => Holds(s, t, g, k) && k == s.served && next != 0 && next == s.heap[g].next
    case Leave(g) => Mine(s, t, g) && s.heap[g].ticket < s.served
  }

  /** The threads entered in ticket order; the owner may still be about to enter. */
  ghost predicate InOrder(s: State)
    requires |s.order| == |s.who|
  {
    && |s.entered| <= |s.who| && (forall i :: 0 <= i < |s.entered| ==> s.entered[i] == s.who[i])
    && s.served <= |s.entered| <= s.served + 1
    && (|s.entered| > s.served <==> s.served < |s.who| && s.who[s.served] < |s.threads| && Entered(s.threads[s.who[s.served]]))
  }

  /** Between entering the critical section and handing the lock on. */
  predicate Entered(pc: Pc) {
    InLine(pc) && !pc.SetOwner? && !pc.LinkNext? && !pc.Spin?
  }

  ghost predicate Inv(s: State) {
    && !s.fault && Lined(s) && InOrder(s)
    && forall t :: 0 <= t < |s.threads| ==> Remembers(s, t)
  }

  // --- Every step keeps the invariant

  /** Only thread `t` moves, and only its own guard changes. */
  ghost predicate Alone(s: State, s': State, t: nat) {
    && t < |s.threads| == |s'.threads| && s'.threads == s.threads[t := s'.threads[t]] && s'.fault == s.fault
    && forall g :: g in s.heap && s.heap[g].holder != t ==> g in s'.heap && s'.heap[g] == s.heap[g]
  }

  ghost predicate SameLine(s: State, s': State) {
    s'.order == s.order && s'.who == s.who && s'.served == s.served && s'.tail == s.tail
  }

  /** The thread keeps its place in the line, if it has one; an owner's guard may become linked. */
  ghost predicate SameSeat(s: State, pc: Pc, pc': Pc) {
    InLine(pc) ==> InLine(pc') && pc'.g == pc.g && pc'.k == pc.k && (Linked(pc') == Linked(pc) || pc.k == s.served)
  }

  lemma OtherRemembers(s: State, s': State, t: nat, u: nat)
    requires Lined(s) && Lined(s') && Alone(s, s', t) && u < |s.threads| && u != t && Remembers(s, u)
    requires s'.served == s.served && |s.order| <= |s'.order|
    requires forall k :: 0 <= k < |s.order| ==> s'.order[k] == s.order[k] && s'.who[k] == s.who[k]
    ensures Remembers(s', u)
  {
  }

  ghost predicate SameLink(s: State, s': State, t: nat, g: nat, k: nat) {
    Holds(s', t, g, k) && g in s.heap && s'.heap[g].next == s.heap[g].next
  }

  lemma TicketKept(s: State, s': State, t: nat, k: nat)
    requires Lined(s) && Alone(s, s', t) && SameLine(s, s') && SameSeat(s, s.threads[t], s'.threads[t])
    requires s.served <= k < |s.order|
    requires s.who[k] == t ==> SameLink(s, s', t, s.order[k], k)
    ensures TicketOk(s', k)
  {
    assert TicketOk(s, k);
    assert k + 1 < |s.order| ==> TicketOk(s, k + 1);
  }

  /** Steps that leave the line alone and write at most the thread's own guard, not its link. */
  lemma OwnStepInv(s: State, s': State, t: nat)
    requires Inv(s) && Alone(s, s', t) && SameLine(s, s') && SameSeat(s, s.threads[t], s'.threads[t])
    requires forall k :: s.served <= k < |s.order| && s.who[k] == t ==> SameLink(s, s', t, s.order[k], k)
    requires InOrder(s')
    ensures Lined(s') && (Remembers(s', t) ==> Inv(s'))
  {
    forall k | s.served <= k < |s.order| ensures TicketOk(s', k) { TicketKept(s, s', t, k); }
    forall u | 0 <= u < |s.threads| && u != t ensures Remembers(s', u) {
      assert Remembers(s, u);
      OtherRemembers(s, s', t, u);
    }
  }

  /** A thread without a place in the line has no ticket; one with a place has just one. */
  lemma OneTicket(s: State, t: nat, k: nat)
    requires Lined(s) && t < |s.threads| && s.served <= k < |s.order| && s.who[k] == t
    ensures InLine(s.threads[t]) && s.threads[t].k == k && s.threads[t].g == s.order[k] && Holds(s, t, s.order[k], k)
  {
    assert TicketOk(s, k);
  }

  /** A step of the first in line, or one that does not touch the entered threads, keeps their order. */
  lemma OrderKept(s: State, s': State, t: nat)
    requires Inv(s) && Alone(s, s', t) && SameLine(s, s') && s'.entered == s.entered
    requires Entered(s'.threads[t]) == Entered(s.threads[t])
    ensures InOrder(s')
  {
  }

  lemma LockInv(s: State, t: nat, addr: nat)
    requires Inv(s) && t < |s.threads|
    ensures Inv(Step(s, Lock(t, addr)))
  {
    var s' := Step(s, Lock(t, addr));
    if s.threads[t].Idle? && addr != 0 && addr !in s.heap {
      forall k | s.served <= k < |s.order| ensures s.who[k] != t { assert TicketOk(s, k); }
      OrderKept(s, s', t);
      OwnStepInv(s, s', t);
    }
  }

  lemma ExchangeInv(s: State, t: nat)
    requires Inv(s) && t < |s.threads| && s.threads[t].Exchange?
    ensures Inv(AcquireStep(s, t))
  {
    assert Remembers(s, t);
    var s', n := AcquireStep(s, t), |s.order|;
    forall k | s.served <= k < n ensures TicketOk(s', k) {
      assert TicketOk(s, k);
      assert k + 1 < n ==> TicketOk(s, k + 1);
    }
    assert s.served < n ==> TicketOk(s, n - 1);
    assert TicketOk(s', n);
    assert Lined(s');
    forall u | 0 <= u < |s.threads| && u != t ensures Remembers(s', u) {
      assert Remembers(s, u);
      OtherRemembers(s, s', t, u);
    }
    assert s.served < n ==> s'.who[s.served] == s.who[s.served] != t by {
      assert s.served < n ==> TicketOk(s, s.served);
    }
    assert InOrder(s');
  }

  lemma SetOwnerInv(s: State, t: nat)
    requires Inv(s) && t < |s.threads| && s.threads[t].SetOwner?
    ensures Inv(AcquireStep(s, t))
  {
    assert Remembers(s, t);
    var s' := AcquireStep(s, t);
    forall k | s.served <= k < |s.order| && s.who[k] == t ensures s.threads[t].k == k { OneTicket(s, t, k); }
    OrderKept(s, s', t);
    OwnStepInv(s, s', t);
  }

  /** The predecessor's guard is alive, and from now on points here. */
  lemma LinkNextLined(s: State, t: nat)
    requires Inv(s) && t < |s.threads| && s.threads[t].LinkNext?
    ensures Lined(AcquireStep(s, t)) && !AcquireStep(s, t).fault && s.threads[t].prev in s.heap
  {
    assert Remembers(s, t);
    var j := s.threads[t].k;
    assert TicketOk(s, j - 1) && TicketOk(s, j);
    var s' := AcquireStep(s, t);
    forall k | s.served <= k < |s.order| ensures TicketOk(s', k) {
      assert TicketOk(s, k);
      assert k + 1 < |s.order| ==> TicketOk(s, k + 1);
    }
  }

  lemma LinkNextInv(s: State, t: nat)
    requires Inv(s) && t < |s.threads| && s.threads[t].LinkNext?
    ensures Inv(AcquireStep(s, t))
  {
    assert Remembers(s, t);
    LinkNextLined(s, t);
    assert TicketOk(s, s.threads[t].k - 1) && TicketOk(s, s.threads[t].k);
    var s' := AcquireStep(s, t);
    forall u | 0 <= u < |s.threads| ensures Remembers(s', u) { assert Remembers(s, u); }
    assert InOrder(s');
  }

  lemma SpinInv(s: State, t: nat)
    requires Inv(s) && t < |s.threads| && s.threads[t].Spin?
    ensures Inv(AcquireStep(s, t))
  {
    assert Remembers(s, t);
    var s' := AcquireStep(s, t);
    if s.heap[s.threads[t].g].isOwner {
      assert TicketOk(s, s.served);
      forall k | s.served <= k < |s.order| && s.who[k] == t ensures s.threads[t].k == k { OneTicket(s, t, k); }
      assert InOrder(s');
      OwnStepInv(s, s', t);
    }
  }

  /** The steps of Release that write nothing shared. */
  lemma LookInv(s: State, t: nat)
    requires Inv(s) && t < |s.threads|
    requires s.threads[t].Critical? || s.threads[t].ReadNext? || s.threads[t].ReadAgain? || s.threads[t].SwingTail?
    requires s.threads[t].SwingTail? ==> s.tail != s.threads[t].g
    ensures Inv(ReleaseStep(s, t))
  {
    assert Remembers(s, t);
    var s' := ReleaseStep(s, t);
    forall k | s.served <= k < |s.order| && s.who[k] == t ensures s.threads[t].k == k { OneTicket(s, t, k); }
    OrderKept(s, s', t);
    OwnStepInv(s, s', t);
  }

  /** Nobody is behind the owner: the line becomes empty. */
  lemma SwingTailInv(s: State, t: nat)
    requires Inv(s) && t < |s.threads| && s.threads[t].SwingTail? && s.tail == s.threads[t].g
    ensures Inv(ReleaseStep(s, t))
  {
    assert Remembers(s, t);
    var s' := ReleaseStep(s, t);
    assert TicketOk(s, |s.order| - 1);
    assert s.threads[t].k == |s.order| - 1;
    forall u | 0 <= u < |s.threads| ensures Remembers(s', u) {
      assert Remembers(s, u);
      assert u != t ==> !InLine(s.threads[u]);
    }
    assert InOrder(s');
  }

  /** The next guard in line becomes the owner's. */
  lemma PassOnInv(s: State, t: nat)
    requires Inv(s) && t < |s.threads| && s.threads[t].PassOn?
    ensures Inv(ReleaseStep(s, t))
  {
    assert Remembers(s, t);
    var PassOn(g, next, j) := s.threads[t];
    assert TicketOk(s, j) && TicketOk(s, j + 1);
    var s' := ReleaseStep(s, t);
    forall k | s'.served <= k < |s.order| ensures TicketOk(s', k) {
      assert TicketOk(s, k);
      assert k + 1 < |s.order| ==> TicketOk(s, k + 1);
    }
    assert Lined(s');
    forall u | 0 <= u < |s.threads| ensures Remembers(s', u) {
      assert Remembers(s, u);
      assert u != t && InLine(s.threads[u]) ==> s.threads[u].k > s.served;
    }
    assert Remembers(s, s.who[j + 1]);
    assert InOrder(s');
  }

  lemma LeaveInv(s: State, t: nat)
    requires Inv(s) && t < |s.threads| && s.threads[t].Leave?
    ensures Inv(ReleaseStep(s, t))
  {
    assert Remembers(s, t);
    var s' := ReleaseStep(s, t);
    forall k | s.served <= k < |s.order| ensures s.who[k] != t { assert TicketOk(s, k); }
    OrderKept(s, s', t);
    OwnStepInv(s, s', t);
  }

  lemma StepInv(s: State, a: Action)
    requires Inv(s)
    ensures Inv(Step(s, a))
  {
    if a.t < |s.threads| {
      var t, pc := a.t, s.threads[a.t];
      if a.Lock? {
        LockInv(s, t, a.addr);
      } else if pc.Exchange? {
        ExchangeInv(s, t);
      } else if pc.SetOwner? {
        SetOwnerInv(s, t);
      } else if pc.LinkNext? {
        LinkNextInv(s, t);
      } else if pc.Spin? {
        SpinInv(s, t);
      } else if pc.PassOn? {
        PassOnInv(s, t);
      } else if pc.Leave? {
        LeaveInv(s, t);
      } else if pc.SwingTail? && s.tail == pc.g {
        SwingTailInv(s, t);
      } else if !pc.Idle? {
        LookInv(s, t);
      }
    }
  }

  // --- Every run

  lemma {:induction false} RunInv(s: State, actions: seq<Action>)
    requires Inv(s)
    ensures Inv(Run(s, actions))
    decreases |actions|
  {
    if actions != [] {
      StepInv(s, actions[0]);
      RunInv(Step(s, actions[0]), actions[1..]);
    }
  }

  lemma InitInv(n: nat)
    ensures Inv(Init(n))
  {
  }

  /** In every run: two threads never own the lock at once. */
  lemma MutualExclusion(n: nat, actions: seq<Action>, t: nat, u: nat)
    requires var s := Run(Init(n), actions); t < |s.threads| && u < |s.threads| && Entered(s.threads[t]) && Entered(s.threads[u])
    ensures t == u
  {
    InitInv(n);
    RunInv(Init(n), actions);
    var s := Run(Init(n), actions);
    assert Remembers(s, t) && Remembers(s, u);
  }

  /** In every run: the threads enter the critical section in the order of their exchanges of tail_,
      none is skipped, and every lock but the last one entered has been handed on. */
  lemma HandOffInExchangeOrder(n: nat, actions: seq<Action>)
    ensures var s := Run(Init(n), actions);
      && |s.entered| <= |s.who| && s.entered == s.who[..|s.entered|]
      && s.served <= |s.entered| <= s.served + 1
  {
    InitInv(n);
    RunInv(Init(n), actions);
  }

  /** In every run: no step reads or writes a guard that is not alive, and the waiters are one line
      ending at tail_, also while some of them are not yet linked; a guard that its thread is done
      with, or has not yet enqueued, is not in the line. */
  lemma GuardsAreSafe(n: nat, actions: seq<Action>, t: nat, k: nat)
    ensures var s := Run(Init(n), actions); !s.fault && Lined(s)
    ensures var s := Run(Init(n), actions);
      t < |s.threads| && s.served <= k < |s.order| && (s.threads[t].Leave? || s.threads[t].Exchange?) ==> s.order[k] != s.threads[t].g
  {
    InitInv(n);
    RunInv(Init(n), actions);
    var s := Run(Init(n), actions);
    if t < |s.threads| && s.served <= k < |s.order| && (s.threads[t].Leave? || s.threads[t].Exchange?) {
      assert Remembers(s, t) && TicketOk(s, k);
    }
  }

  // --- Some thread can always make headway

  /** The thread is in the line and its next steps are no mere retry: it does not spin on a false
      is_owner_, nor on a tail_ that has moved while its successor is not yet linked. */
  ghost predicate Advances(s: State, t: nat) {
    && t < |s.threads| && InLine(s.threads[t]) && s.threads[t].g in s.heap
    && (s.threads[t].Spin? ==> s.heap[s.threads[t].g].isOwner)
    && (s.threads[t].ReadNext? || s.threads[t].SwingTail? ==> s.heap[s.threads[t].g].next != 0 || s.tail == s.threads[t].g)
  }

  /** How many steps of its own a thread is away from the end of its Release. */
  ghost function StepsLeft(s: State, t: nat): nat
    requires t < |s.threads|
  {
    match s.threads[t]
    case SetOwner(_, _, _) => 8
    case LinkNext(_, _, _) => 7
    case Spin(_, _) => 6
    case Critical(_, _) => 5
    case SwingTail(g, _) => if s.tail == g then 2 else 4
    case ReadNext(_, _) => 3
    case ReadAgain(_, _) => 2
    case PassOn(_, _, _) => 1
    case _ => 0
  }

  /** In every run, whenever a thread is in the line, some thread of the line can take a step that
      brings it nearer to the end of its Release: the lock is never lost. */
  lemma NeverStuck(n: nat, actions: seq<Action>, t: nat) returns (u: nat)
    requires var s := Run(Init(n), actions); t < |s.threads| && InLine(s.threads[t])
    ensures var s := Run(Init(n), actions);
      Advances(s, u) && |Step(s, Tick(u)).threads| == |s.threads| && StepsLeft(Step(s, Tick(u)), u) < StepsLeft(s, u)
  {
    InitInv(n);
    RunInv(Init(n), actions);
    u := FirstOrSecondAdvances(Run(Init(n), actions), t);
    AdvancingShortens(Run(Init(n), actions), u);
  }

  lemma AdvancingShortens(s: State, u: nat)
    requires Inv(s) && Advances(s, u)
    ensures |Step(s, Tick(u)).threads| == |s.threads| && StepsLeft(Step(s, Tick(u)), u) < StepsLeft(s, u)
  {
    assert Remembers(s, u);
    var pc := s.threads[u];
    assert TicketOk(s, pc.k);
    if pc.LinkNext? {
      assert TicketOk(s, pc.k - 1);
    } else if pc.PassOn? {
      assert TicketOk(s, pc.k + 1);
    }
  }

  lemma FirstOrSecondAdvances(s: State, t: nat) returns (u: nat)
    requires Inv(s) && t < |s.threads| && InLine(s.threads[t])
    ensures Advances(s, u)
  {
    assert Remembers(s, t);
    assert TicketOk(s, s.served);
    u := s.who[s.served];
    assert Remembers(s, u);
    if !Advances(s, u) {
      // its successor has moved tail_ but is not yet linked
      assert TicketOk(s, s.served + 1);
      u := s.who[s.served + 1];
      assert Remembers(s, u);
    }
  }

  // --- Everybody gets the lock

  ghost predicate AllIdle(s: State) {
    forall t :: 0 <= t < |s.threads| ==> s.threads[t].Idle?
  }

  /** An upper bound of what a thread has still to do, if it is run when that helps. */
  ghost function Work(pc: Pc): int {
    match pc
    case Idle => 0
    case Leave(_) => 1
    case PassOn(_, _, _) => 2
    case ReadAgain(_, _) => 3
    case SwingTail(_, _) => 4
    case ReadNext(_, _) => 4
    case Critical(_, _) => 5
    case Spin(_, _) => 6
    case LinkNext(_, _, _) => 7
    case SetOwner(_, _, _) => 8
    case Exchange(_) => 9
  }

  ghost function WorkFn(): Pc -> int { (pc: Pc) => Work(pc) }

  /** Those actions, none of which is a new call, bring the threads nearer to being idle. */
  ghost predicate Helps(s: State, actions: seq<Action>) {
    && (forall a :: a in actions ==> a.Tick?)
    && |Run(s, actions).threads| == |s.threads|
    && Sum(Run(s, actions).threads, WorkFn()) < Sum(s.threads, WorkFn())
  }

  /** Steps that wait for nobody. */
  predicate Free(pc: Pc) {
    pc.Exchange? || pc.SetOwner? || pc.LinkNext? || pc.Critical? || pc.ReadAgain? || pc.PassOn? || pc.Leave?
  }

  lemma RunOne(s: State, a: Action)
    ensures Run(s, [a]) == Step(s, a)
  {
  }

  lemma RunTwo(s: State, a: Action, b: Action)
    ensures Run(s, [a, b]) == Step(Step(s, a), b)
  {
    assert [a, b][1..] == [b];
    RunOne(Step(s, a), b);
  }

  lemma TickHelps(s: State, t: nat)
    requires Inv(s) && t < |s.threads| && |Step(s, Tick(t)).threads| == |s.threads|
    requires Step(s, Tick(t)).threads == s.threads[t := Step(s, Tick(t)).threads[t]]
    requires Work(Step(s, Tick(t)).threads[t]) < Work(s.threads[t])
    ensures Helps(s, [Tick(t)])
  {
    SumUpdate(s.threads, t, Step(s, Tick(t)).threads[t], WorkFn());
    RunOne(s, Tick(t));
  }

  lemma FreeHelps(s: State, t: nat)
    requires Inv(s) && t < |s.threads| && Free(s.threads[t])
    ensures Helps(s, [Tick(t)])
  {
    StepInv(s, Tick(t));
    TickHelps(s, t);
  }

  /** When everybody in the line is linked, the owner's Release does not have to wait. */
  lemma ReleaserHelps(s: State, t: nat) returns (actions: seq<Action>)
    requires Inv(s) && t < |s.threads| && (s.threads[t].ReadNext? || s.threads[t].SwingTail?)
    requires forall u :: 0 <= u < |s.threads| ==> !Free(s.threads[u])
    ensures Helps(s, actions)
  {
    assert Remembers(s, t);
    NextIsLinked(s, t);
    var s1, pc := Step(s, Tick(t)), s.threads[t];
    if pc.ReadNext? == (s.heap[pc.g].next != 0) {
      actions := [Tick(t)];
      TickHelps(s, t);
    } else {
      actions := [Tick(t), Tick(t)];
      RunTwo(s, Tick(t), Tick(t));
      var s2 := Step(s1, Tick(t));
      assert s2.threads == s.threads[t := s2.threads[t]];
      SumUpdate(s.threads, t, s2.threads[t], WorkFn());
    }
  }

  lemma NextIsLinked(s: State, t: nat)
    requires Inv(s) && t < |s.threads| && (s.threads[t].ReadNext? || s.threads[t].SwingTail?)
    requires forall u :: 0 <= u < |s.threads| ==> !Free(s.threads[u])
    ensures s.threads[t].g in s.heap && (s.heap[s.threads[t].g].next == 0 <==> s.tail == s.threads[t].g)
  {
    assert Remembers(s, t);
    var k := s.threads[t].k;
    assert TicketOk(s, k);
    if k + 1 < |s.order| {
      assert TicketOk(s, k + 1) && TicketOk(s, |s.order| - 1);
      assert Remembers(s, s.who[k + 1]);
    }
  }

  lemma SpinnerHelps(s: State, t: nat) returns (actions: seq<Action>)
    requires Inv(s) && t < |s.threads| && s.threads[t].Spin?
    requires forall u :: 0 <= u < |s.threads| ==> s.threads[u].Idle? || s.threads[u].Spin?
    ensures Helps(s, actions)
  {
    assert Remembers(s, t);
    assert TicketOk(s, s.served);
    var u := s.who[s.served];
    assert Remembers(s, u);
    actions := [Tick(u)];
    TickHelps(s, u);
  }

  lemma SomethingHelps(s: State) returns (actions: seq<Action>)
    requires Inv(s) && !AllIdle(s)
    ensures Helps(s, actions)
  {
    if exists t :: 0 <= t < |s.threads| && Free(s.threads[t]) {
      var t: nat :| t < |s.threads| && Free(s.threads[t]);
      actions := [Tick(t)];
      FreeHelps(s, t);
    } else if exists t :: 0 <= t < |s.threads| && (s.threads[t].ReadNext? || s.threads[t].SwingTail?) {
      var t: nat :| t < |s.threads| && (s.threads[t].ReadNext? || s.threads[t].SwingTail?);
      actions := ReleaserHelps(s, t);
    } else {
      var t: nat :| t < |s.threads| && !s.threads[t].Idle?;
      actions := SpinnerHelps(s, t);
    }
  }

  lemma {:induction false} RunConcat(s: State, xs: seq<Action>, ys: seq<Action>)
    ensures Run(s, xs + ys) == Run(Run(s, xs), ys)
    decreases |xs|
  {
    if xs == [] {
      assert xs + ys == ys;
    } else {
      assert (xs + ys)[0] == xs[0] && (xs + ys)[1..] == xs[1..] + ys;
      RunConcat(Step(s, xs[0]), xs[1..], ys);
    }
  }

  lemma {:induction false} CanFinish(s: State) returns (more: seq<Action>)
    requires Inv(s)
    ensures AllIdle(Run(s, more)) && forall a :: a in more ==> a.Tick?
    decreases Sum(s.threads, WorkFn())
  {
    if AllIdle(s) {
      more := [];
    } else {
      var first := SomethingHelps(s);
      var s' := Run(s, first);
      RunInv(s, first);
      SumBounds(s'.threads, WorkFn());
      var rest := CanFinish(s');
      more := first + rest;
      RunConcat(s, first, rest);
    }
  }

  /** At some point of the run thread `t` is in the critical section. */
  ghost predicate GetsIn(s: State, actions: seq<Action>, t: nat)
    decreases |actions|
  {
    (t < |s.threads| && s.threads[t].Critical?) || (actions != [] && GetsIn(Step(s, actions[0]), actions[1..], t))
  }

  lemma AcquirerStays(s: State, a: Action, t: nat)
    requires t < |s.threads| && Acquiring(s.threads[t])
    ensures t < |Step(s, a).threads| && (Acquiring(Step(s, a).threads[t]) || Step(s, a).threads[t].Critical?)
  {
    if a.t < |s.threads| && a.Tick? {
      if Acquiring(s.threads[a.t]) {
        assert Step(s, a) == AcquireStep(s, a.t);
      } else {
        assert Step(s, a) == ReleaseStep(s, a.t);
      }
    }
  }

  lemma {:induction false} AcquirerGetsIn(s: State, actions: seq<Action>, t: nat)
    requires t < |s.threads| && Acquiring(s.threads[t]) && AllIdle(Run(s, actions))
    ensures GetsIn(s, actions, t)
    decreases |actions|
  {
    if actions != [] {
      AcquirerStays(s, actions[0], t);
      var s' := Step(s, actions[0]);
      if !s'.threads[t].Critical? { AcquirerGetsIn(s', actions[1..], t); }
    }
  }

  /** From whatever a run has led to, all threads inside Acquire can be brought into the critical section
      and out of Release, with no new call. */
  lemma EverybodyGetsIn(n: nat, actions: seq<Action>) returns (more: seq<Action>)
    ensures AllIdle(Run(Run(Init(n), actions), more)) && forall a :: a in more ==> a.Tick?
    ensures var s := Run(Init(n), actions);
      forall t :: 0 <= t < |s.threads| && Acquiring(s.threads[t]) ==> GetsIn(s, more, t)
  {
    InitInv(n);
    RunInv(Init(n), actions);
    var s := Run(Init(n), actions);
    more := CanFinish(s);
    forall t | 0 <= t < |s.threads| && Acquiring(s.threads[t]) ensures GetsIn(s, more, t) { AcquirerGetsIn(s, more, t); }
  }

  /** A thread outside gets in too, if it calls, with a guard at any free address. */
  lemma CallerGetsIn(n: nat, actions: seq<Action>, t: nat, addr: nat) returns (more: seq<Action>)
    requires var s := Run(Init(n), actions); t < |s.threads| && s.threads[t].Idle? && addr != 0 && addr !in s.heap
    ensures more != [] && more[0] == Lock(t, addr) && forall a :: a in more[1..] ==> a.Tick?
    ensures AllIdle(Run(Run(Init(n), actions), more)) && GetsIn(Run(Init(n), actions), more, t)
  {
    InitInv(n);
    RunInv(Init(n), actions);
    var s := Run(Init(n), actions);
    StepInv(s, Lock(t, addr));
    var rest := CanFinish(Step(s, Lock(t, addr)));
    AcquirerGetsIn(Step(s, Lock(t, addr)), rest, t);
    more := [Lock(t, addr)] + rest;
  }

  // --- One thread at a time

  lemma RunMore(s: State, a: Action, more: seq<Action>)
    ensures Run(s, [a] + more) == Run(Step(s, a), more)
  {
    assert ([a] + more)[1..] == more;
  }

  /** `n` steps of thread `t`. */
  function Ticks(t: nat, n: nat): seq<Action> {
    if n == 0 then [] else [Tick(t)] + Ticks(t, n - 1)
  }

  lemma OneTick(s: State, t: nat, n: nat, s': State)
    requires s' == Step(s, Tick(t)) && n > 0
    ensures Run(s, Ticks(t, n)) == Run(s', Ticks(t, n - 1))
  {
    RunMore(s, Tick(t), Ticks(t, n - 1));
  }

  /** An Acquire of a free lock that is left alone is in after an exchange, a store and a look. */
  lemma AcquireAlone(s: State, t: nat, addr: nat)
    requires t < |s.threads| && s.threads[t].Idle? && s.tail == 0 && addr != 0 && addr !in s.heap
    ensures var k := |s.order|;
      Run(s, [Lock(t, addr)] + Ticks(t, 3)) ==
        s.(tail := addr, heap := s.heap[addr := Guard(0, true, k, t)], threads := s.threads[t := Critical(addr, k)],
           order := s.order + [addr], who := s.who + [t], entered := s.entered + [t])
  {
    var k := |s.order|;
    var s1 := s.(heap := s.heap[addr := Guard(0, false, -1, t)], threads := s.threads[t := Exchange(addr)]);
    var s2 := s.(tail := addr, heap := s.heap[addr := Guard(0, false, k, t)], threads := s.threads[t := SetOwner(addr, 0, k)],
                 order := s.order + [addr], who := s.who + [t]);
    var s3 := s2.(heap := s.heap[addr := Guard(0, true, k, t)], threads := s.threads[t := Spin(addr, k)]);
    RunMore(s, Lock(t, addr), Ticks(t, 3));
    assert s1.heap[addr := Guard(0, false, k, t)] == s2.heap && s1.threads[t := SetOwner(addr, 0, k)] == s2.threads;
    OneTick(s1, t, 3, s2);
    assert s2.heap[addr := Guard(0, true, k, t)] == s3.heap && s2.threads[t := Spin(addr, k)] == s3.threads;
    OneTick(s2, t, 2, s3);
    OneTick(s3, t, 1, Step(s3, Tick(t)));
    assert s3.threads[t := Critical(addr, k)] == s.threads[t := Critical(addr, k)];
  }

  /** A Release with nobody behind, left alone, empties the lock and is done with its guard. */
  lemma ReleaseAlone(s: State, t: nat)
    requires t < |s.threads| && s.threads[t].Critical? && s.threads[t].g in s.heap
    requires s.tail == s.threads[t].g && s.heap[s.threads[t].g].next == 0
    ensures Run(s, Ticks(t, 4)) ==
      s.(tail := 0, heap := s.heap - {s.threads[t].g}, threads := s.threads[t := Idle], served := s.served + 1)
  {
    var Critical(g, k) := s.threads[t];
    var s1 := s.(threads := s.threads[t := ReadNext(g, k)]);
    var s2 := s.(threads := s.threads[t := SwingTail(g, k)]);
    var s3 := s.(tail := 0, threads := s.threads[t := Leave(g)], served := s.served + 1);
    OneTick(s, t, 4, s1);
    assert s1.threads[t := SwingTail(g, k)] == s2.threads;
    OneTick(s1, t, 3, s2);
    assert s2.threads[t := Leave(g)] == s3.threads;
    OneTick(s2, t, 2, s3);
    OneTick(s3, t, 1, Step(s3, Tick(t)));
    assert s3.threads[t := Idle] == s.threads[t := Idle];
  }

  // --- Every call gets in once

  /** How often thread `t`, being outside, acquires the lock with a new guard. */
  function Calls(s: State, actions: seq<Action>, t: nat): nat
    decreases |actions|
  {
    if actions == [] then 0
    else
      var a := actions[0];
      (if a.Lock? && a.t == t < |s.threads| && s.threads[t] == Idle && a.addr != 0 && a.addr !in s.heap then 1 else 0) +
      Calls(Step(s, a), actions[1..], t)
  }

  /** How often it comes into the critical section. */
  function Entries(s: State, actions: seq<Action>, t: nat): nat
    decreases |actions|
  {
    if actions == [] then 0
    else
      var s' := Step(s, actions[0]);
      (if t < |s.threads| && t < |s'.threads| && !s.threads[t].Critical? && s'.threads[t].Critical? then 1 else 0) +
      Entries(s', actions[1..], t)
  }

  function Owed(pc: Pc): nat {
    if Acquiring(pc) then 1 else 0
  }

  ghost predicate StepOwed(s: State, a: Action, s': State, t: nat)
    requires t < |s.threads|
  {
    && |s'.threads| == |s.threads|
    && (if a.Lock? && a.t == t && s.threads[t].Idle? && a.addr != 0 && a.addr !in s.heap then 1 else 0) + Owed(s.threads[t]) ==
       (if !s.threads[t].Critical? && s'.threads[t].Critical? then 1 else 0) + Owed(s'.threads[t])
  }

  lemma StepOwes(s: State, a: Action, t: nat)
    requires t < |s.threads|
    ensures StepOwed(s, a, Step(s, a), t)
  {
    if a.t < |s.threads| && a.Tick? {
      if Acquiring(s.threads[a.t]) {
        AcquireOwes(s, a.t, t);
      } else {
        ReleaseOwes(s, a.t, t);
      }
    }
  }

  lemma AcquireOwes(s: State, u: nat, t: nat)
    requires u < |s.threads| && t < |s.threads| && Acquiring(s.threads[u])
    ensures StepOwed(s, Tick(u), AcquireStep(s, u), t)
  {
  }

  lemma ReleaseOwes(s: State, u: nat, t: nat)
    requires u < |s.threads| && t < |s.threads| && !Acquiring(s.threads[u])
    ensures StepOwed(s, Tick(u), ReleaseStep(s, u), t)
  {
  }

  lemma {:induction false} CallsEnter(s: State, actions: seq<Action>, t: nat)
    requires t < |s.threads|
    ensures var s' := Run(s, actions);
      |s'.threads| == |s.threads| && Calls(s, actions, t) + Owed(s.threads[t]) == Entries(s, actions, t) + Owed(s'.threads[t])
    decreases |actions|
  {
    if actions != [] {
      StepOwes(s, actions[0], t);
      CallsEnter(Step(s, actions[0]), actions[1..], t);
    }
  }

  /** In every run a thread has come into the critical section once for each of its calls, up to the one
      it is still inside. */
  lemma EachCallEntersOnce(n: nat, actions: seq<Action>, t: nat)
    requires t < n
    ensures var s := Run(Init(n), actions);
      && |s.threads| == n
      && Calls(Init(n), actions, t) == Entries(Init(n), actions, t) + if Acquiring(s.threads[t]) then 1 else 0
  {
    CallsEnter(Init(n), actions, t);
  }

  // --- The lock object

  class SpinLock {
    var tail: nat
    var heap: map<nat, Guard>
    var threads: seq<Pc>
    // auxiliary
    var order: seq<nat>
    var who: seq<nat>
    var served: nat
    var entered: seq<nat>

    ghost function View(): State reads this {
      State(tail, heap, threads, false, order, who, served, entered)
    }

    constructor (n: nat)
      ensures View() == Init(n) && Inv(View())
    {
      tail, heap, threads := 0, map[], seq(n, _ => Idle);
      order, who, served, entered := [], [], 0, [];
      new;
      InitInv(n);
    }

    method MoveTo(t: nat, pc: Pc)
      requires t < |threads|
      modifies this`threads
      ensures View() == Goto(old(View()), t, pc)
    {
      threads := threads[t := pc];
    }

    /** The next access of a thread inside Acquire; every guard it touches is alive. */
    method Acquire(t: nat)
      requires Inv(View()) && t < |threads| && Acquiring(threads[t])
      modifies this
      ensures View() == AcquireStep(old(View()), t) && Inv(View())
    {
      assert Remembers(View(), t);
      StepInv(View(), Tick(t));
      var pc := threads[t];
      if pc.Exchange? {
        Enqueue(t, pc.g);
      } else if pc.SetOwner? {
        heap := heap[pc.g := heap[pc.g].(isOwner := pc.prev == 0)];
        MoveTo(t, if pc.prev == 0 then Spin(pc.g, pc.k) else LinkNext(pc.g, pc.prev, pc.k));
      } else if pc.LinkNext? {
        assert TicketOk(View(), pc.k - 1);
        heap := heap[pc.prev := heap[pc.prev].(next := pc.g)];
        MoveTo(t, Spin(pc.g, pc.k));
      } else if heap[pc.g].isOwner {
        entered := entered + [t];
        MoveTo(t, Critical(pc.g, pc.k));
      }
    }

    method Enqueue(t: nat, g: nat)
      requires t < |threads| && threads[t] == Exchange(g) && g in heap
      modifies this
      ensures View() == AcquireStep(old(View()), t)
    {
      var prev, k := tail, |order|;
      tail, order, who, heap := g, order + [g], who + [t], heap[g := heap[g].(ticket := k)];
      MoveTo(t, SetOwner(g, prev, k));
    }

    /** The next access of a thread inside Release; every guard it touches is alive. */
    method Release(t: nat)
      requires Inv(View()) && t < |threads| && !Acquiring(threads[t])
      modifies this
      ensures View() == ReleaseStep(old(View()), t) && Inv(View())
    {
      assert Remembers(View(), t);
      StepInv(View(), Tick(t));
      var pc := threads[t];
      if pc.Critical? {
        MoveTo(t, ReadNext(pc.g, pc.k));
      } else if pc.ReadNext? {
        MoveTo(t, if heap[pc.g].next == 0 then SwingTail(pc.g, pc.k) else ReadAgain(pc.g, pc.k));
      } else if pc.SwingTail? {
        if tail == pc.g {
          tail, served := 0, served + 1;
          MoveTo(t, Leave(pc.g));
        } else {
          MoveTo(t, ReadNext(pc.g, pc.k));
        }
      } else if pc.ReadAgain? {
        MoveTo(t, PassOn(pc.g, heap[pc.g].next, pc.k));
      } else if pc.PassOn? {
        assert TicketOk(View(), pc.k) && TicketOk(View(), pc.k + 1);
        heap, served := heap[pc.next := heap[pc.next].(isOwner := true)], served + 1;
        MoveTo(t, Leave(pc.g));
      } else if pc.Leave? {
        heap := heap - {pc.g};
        MoveTo(t, Idle);
      }
    }

    method Perform(a: Action)
      requires Inv(View())
      modifies this
      ensures View() == Step(old(View()), a) && Inv(View())
    {
      StepInv(View(), a);
      if a.t < |threads| {
        if a.Lock? {
          if threads[a.t].Idle? && a.addr != 0 && a.addr !in heap {
            heap := heap[a.addr := Guard(0, false, -1, a.t)];
            MoveTo(a.t, Exchange(a.addr));
          }
        } else if Acquiring(threads[a.t]) {
          Acquire(a.t);
        } else {
          Release(a.t);
        }
      }
    }

    /** Any schedule: what the theorems say of runs holds of the object. */
    method Execute(actions: seq<Action>)
      requires Inv(View())
      modifies this
      ensures View() == Run(old(View()), actions) && Inv(View())
    {
      var i := 0;
      while i < |actions|
        invariant i <= |actions|
        invariant Inv(View()) && Run(View(), actions[i..]) == Run(old(View()), actions)
      {
        assert actions[i..][0] == actions[i] && actions[i..][1..] == actions[i + 1..];
        Perform(actions[i]);
        i := i + 1;
      }
    }
  }
}
