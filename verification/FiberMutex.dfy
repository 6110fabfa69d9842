/** The fiber mutex (tasks/fibers/mutex/exe/fibers/sync/mutex.hpp): fibers that find it locked park in
    a queue, and the unlocker hands the mutex to the oldest of them.

    Any number of fibers lock and unlock again and again; one action is one access, memory is
    sequentially consistent. Suspending a fiber and running it on are not steps; Schedule makes a
    parked fiber ready, and a later action resumes it. */
module FiberMutex {
  import opened Counting

  datatype Status = None | LockedNoWaiter | LockedWithWaiters

  /** Where a fiber or its awaiter stands; `k` numbers the fibers in parking order (auxiliary). */
  datatype Pc =
    | Outside
    | FastLock                        // Lock: swing st_ from None to LockedNoWaiter
    | LockSpin                        // take the spinlock
    | LoadStatus                      // is st_ LockedWithWaiters?
    | MarkWaiter                      // no: swing it from LockedNoWaiter
    | Park                            // put the fiber into the queue
    | ParkUnspin(k: nat)              // release the spinlock and stay parked
    | RetryUnspin                     // release the spinlock and start again
    | Parked(k: nat)
    | Ready(k: nat)                   // scheduled
    | Holding
    | FastUnlock                      // Unlock: swing st_ from LockedNoWaiter to None
    | UnlockSpin                      // take the spinlock
    | Unpark                          // take the oldest fiber off the queue
    | StoreStatus(fiber: nat, k: nat) // store st_
    | UnlockUnspin(fiber: nat, k: nat)
    | Schedule(fiber: nat, k: nat)

  /** `fault` is raised by taking from an empty queue. Auxiliary: `parked` all fibers that ever parked,
      in order, `granted` how many were taken off again, `resumed` those that ran on. */
  datatype State = State(status: Status, spin: bool, queue: seq<nat>, fibers: seq<Pc>, fault: bool,
                         parked: seq<nat>, granted: nat, resumed: seq<nat>)

  datatype Action = Lock(f: nat) | Unlock(f: nat) | Resume(f: nat) | Tick(f: nat)

  function Init(n: nat): State {
    State(None, false, [], seq(n, _ => Outside), false, [], 0, [])
  }

  // --- The operations, one atomic step at a time

  function Goto(s: State, f: nat, pc: Pc): State
    requires f < |s.fibers|
  {
    s.(fibers := s.fibers[f := pc])
  }

  function Step(s: State, a: Action): State {
    if a.f >= |s.fibers| then s else
    var pc := s.fibers[a.f];
    match a
    case Lock(f) => if pc.Outside? then Goto(s, f, FastLock) else s
    case Unlock(f) => if pc.Holding? then Goto(s, f, FastUnlock) else s
    case Resume(f) => if pc.Ready? then Goto(s.(resumed := s.resumed + [f]), f, Holding) else s
    case Tick(f) => if Unlocking(pc) then UnlockStep(s, f) else LockStep(s, f)
  }

  predicate Unlocking(pc: Pc) {
    pc.FastUnlock? || pc.UnlockSpin? || pc.Unpark? || pc.StoreStatus? || pc.UnlockUnspin? || pc.Schedule?
  }

  function LockStep(s: State, f: nat): State
    requires f < |s.fibers|
  {
    match s.fibers[f]
    case FastLock =>
      if s.status == None then Goto(s.(status := LockedNoWaiter), f, Holding) else Goto(s, f, LockSpin)
    case LockSpin => if s.spin then s else Goto(s.(spin := true), f, LoadStatus)
    case LoadStatus => Goto(s, f, if s.status == LockedWithWaiters then Park else MarkWaiter)
    case MarkWaiter =>
      if s.status == LockedNoWaiter then Goto(s.(status := LockedWithWaiters), f, Park) else Goto(s, f, RetryUnspin)
    case Park => Goto(s.(queue := s.queue + [f], parked := s.parked + [f]), f, ParkUnspin(|s.parked|))
    case ParkUnspin(k) => Goto(s.(spin := false), f, Parked(k))
    case RetryUnspin => Goto(s.(spin := false), f, FastLock)
    case _ => s
  }

  function UnlockStep(s: State, f: nat): State
    requires f < |s.fibers|
  {
    match s.fibers[f]
    case FastUnlock =>
      if s.status == LockedNoWaiter then Goto(s.(status := None), f, Outside) else Goto(s, f, UnlockSpin)
    case UnlockSpin => if s.spin then s else Goto(s.(spin := true), f, Unpark)
    case Unpark =>
      if s.queue == [] then s.(fault := true)
      else Goto(s.(queue := s.queue[1..], granted := s.granted + 1), f, StoreStatus(s.queue[0], s.granted))
    case StoreStatus(u, k) =>
      Goto(s.(status := if s.queue == [] then LockedNoWaiter else LockedWithWaiters), f, UnlockUnspin(u, k))
    case UnlockUnspin(u, k) => Goto(s.(spin := false), f, Schedule(u, k))
    case Schedule(u, k) => if u < |s.fibers| then Goto(Goto(s, u, Ready(k)), f, Outside) else s.(fault := true)
    case _ => s
  }

  function Run(s: State, actions: seq<Action>): State
    decreases |actions|
  {
    if actions == [] then s else Run(Step(s, actions[0]), actions[1..])
  }

  // --- The invariant

  /** Between taking the spinlock and releasing it. */
  ghost function InSpin(pc: Pc): int {
    if pc.LoadStatus? || pc.MarkWaiter? || pc.Park? || pc.ParkUnspin? || pc.RetryUnspin? ||
       pc.Unpark? || pc.StoreStatus? || pc.UnlockUnspin? then 1 else 0
  }

  /** Owning the mutex, or handing it on. */
  ghost function Owns(pc: Pc): int {
    if pc.Holding? || pc.Ready? || Unlocking(pc) then 1 else 0
  }

  ghost function InSpinFn(): Pc -> int { (pc: Pc) => InSpin(pc) }
  ghost function OwnsFn(): Pc -> int { (pc: Pc) => Owns(pc) }

  ghost predicate OneOwner(s: State) {
    && Sum(s.fibers, InSpinFn()) == (if s.spin then 1 else 0)
    && Sum(s.fibers, OwnsFn()) == (if s.status == None then 0 else 1)
  }

  /** Fiber number `k` of the parking order is the one in the queue, suspended. */
  ghost predicate TicketOk(s: State, k: nat)
    requires k < |s.parked|
  {
    s.parked[k] < |s.fibers| && (s.fibers[s.parked[k]] == Parked(k) || s.fibers[s.parked[k]] == ParkUnspin(k))
  }

  ghost predicate Queued(s: State) {
    && s.granted <= |s.parked| && s.queue == s.parked[s.granted..]
    && (forall k :: s.granted <= k < |s.parked| ==> TicketOk(s, k))
  }

  /** The fiber `u` that `f` hands the mutex to is the last one taken off, and still suspended. */
  ghost predicate HandsTo(s: State, u: nat, k: nat) {
    k + 1 == s.granted <= |s.parked| && s.parked[k] == u && u < |s.fibers| && s.fibers[u] == Parked(k)
  }

  ghost predicate Remembers(s: State, f: nat)
    requires f < |s.fibers|
  {
    match s.fibers[f]
    case Park => s.status == LockedWithWaiters
    case ParkUnspin(k) => s.granted <= k < |s.parked| && s.parked[k] == f
    case Parked(k) => |s.resumed| <= k < |s.parked| && s.parked[k] == f
    case Ready(k) => k == |s.resumed| && k + 1 == s.granted <= |s.parked| && s.parked[k] == f
    case UnlockSpin => s.status == LockedWithWaiters
    case Unpark => s.status == LockedWithWaiters
    case StoreStatus(u, k) => s.status == LockedWithWaiters && HandsTo(s, u, k)
    case UnlockUnspin(u, k) => HandsTo(s, u, k)
    case Schedule(u, k) => HandsTo(s, u, k)
    case _ => true
  }

  ghost predicate Between(pc: Pc) {
    pc.Park? || pc.StoreStatus?
  }

  /** Except between a status update and the queue update it announces, there are waiters exactly when
      the status says so. */
  ghost predicate Truthful(s: State) {
    (forall f :: 0 <= f < |s.fibers| ==> !Between(s.fibers[f])) ==> (s.status == LockedWithWaiters <==> s.queue != [])
  }

  /** Taken off the queue and not yet running on. */
  ghost function OnTheWay(pc: Pc): int {
    if pc.StoreStatus? || pc.UnlockUnspin? || pc.Schedule? || pc.Ready? then 1 else 0
  }

  ghost function OnTheWayFn(): Pc -> int { (pc: Pc) => OnTheWay(pc) }

  /** The parked fibers run on in parking order; the last one taken off may still be on its way. */
  ghost predicate InOrder(s: State) {
    && s.granted == |s.resumed| + Sum(s.fibers, OnTheWayFn()) <= |s.parked|
    && |s.resumed| <= s.granted && forall i :: 0 <= i < |s.resumed| ==> s.resumed[i] == s.parked[i]
  }

  ghost predicate Inv(s: State) {
    && !s.fault && OneOwner(s) && Queued(s) && Truthful(s) && InOrder(s)
    && forall f :: 0 <= f < |s.fibers| ==> Remembers(s, f)
  }

  // --- Consequences of the counts

  lemma OwnerIsUnique(s: State, f: nat)
    requires OneOwner(s) && f < |s.fibers| && Owns(s.fibers[f]) == 1
    ensures s.status != None && forall g :: 0 <= g < |s.fibers| && g != f ==> Owns(s.fibers[g]) == 0
  {
    SumBounds(s.fibers, OwnsFn());
    forall g | 0 <= g < |s.fibers| && g != f ensures Owns(s.fibers[g]) == 0 {
      if g < f { SumTwo(s.fibers, g, f, OwnsFn()); } else { SumTwo(s.fibers, f, g, OwnsFn()); }
    }
  }

  lemma SpinnerIsUnique(s: State, f: nat)
    requires OneOwner(s) && f < |s.fibers| && InSpin(s.fibers[f]) == 1
    ensures s.spin && forall g :: 0 <= g < |s.fibers| && g != f ==> InSpin(s.fibers[g]) == 0
  {
    SumBounds(s.fibers, InSpinFn());
    forall g | 0 <= g < |s.fibers| && g != f ensures InSpin(s.fibers[g]) == 0 {
      if g < f { SumTwo(s.fibers, g, f, InSpinFn()); } else { SumTwo(s.fibers, f, g, InSpinFn()); }
    }
  }

  lemma NobodySpins(s: State)
    requires OneOwner(s) && !s.spin
    ensures forall g :: 0 <= g < |s.fibers| ==> InSpin(s.fibers[g]) == 0
    ensures forall g :: 0 <= g < |s.fibers| ==> !Between(s.fibers[g])
  {
    SumBounds(s.fibers, InSpinFn());
  }

  /** How many fibers are on their way when the owner is `f`: `f` or nobody. */
  lemma OwnersWay(s: State, f: nat)
    requires OneOwner(s) && f < |s.fibers| && Owns(s.fibers[f]) == 1
    ensures Sum(s.fibers, OnTheWayFn()) == OnTheWay(s.fibers[f])
  {
    OwnerIsUnique(s, f);
    SumOnly(s.fibers, f, OnTheWayFn());
  }

  lemma SumsMove(fs: seq<Pc>, f: nat, pc: Pc)
    requires f < |fs|
    ensures Sum(fs[f := pc], InSpinFn()) == Sum(fs, InSpinFn()) - InSpin(fs[f]) + InSpin(pc)
    ensures Sum(fs[f := pc], OwnsFn()) == Sum(fs, OwnsFn()) - Owns(fs[f]) + Owns(pc)
    ensures Sum(fs[f := pc], OnTheWayFn()) == Sum(fs, OnTheWayFn()) - OnTheWay(fs[f]) + OnTheWay(pc)
  {
    SumUpdate(fs, f, pc, InSpinFn());
    SumUpdate(fs, f, pc, OwnsFn());
    SumUpdate(fs, f, pc, OnTheWayFn());
  }

  // --- Every step keeps the invariant

  /** Only fiber `f`, which is not parked, moves; at most it parks behind the others. */
  ghost predicate Moves(s: State, s': State, f: nat) {
    && f < |s.fibers| == |s'.fibers| && s'.fibers == s.fibers[f := s'.fibers[f]] && s'.fault == s.fault
    && !s.fibers[f].Parked?
    && s'.granted == s.granted && s'.resumed == s.resumed
    && |s.parked| <= |s'.parked| && (forall k :: 0 <= k < |s.parked| ==> s'.parked[k] == s.parked[k])
  }

  /** Only the owner under the spinlock may take back that there are waiters. */
  ghost predicate KeepsWaiters(s: State, s': State, f: nat)
    requires f < |s.fibers|
  {
    s.status == LockedWithWaiters ==> s'.status == LockedWithWaiters || s.fibers[f].StoreStatus?
  }

  lemma OthersRemember(s: State, s': State, f: nat)
    requires Inv(s) && Moves(s, s', f) && KeepsWaiters(s, s', f) && Remembers(s', f)
    ensures forall g :: 0 <= g < |s'.fibers| ==> Remembers(s', g)
  {
    if s.fibers[f].StoreStatus? {
      OwnerIsUnique(s, f);
      SpinnerIsUnique(s, f);
    }
    forall g | 0 <= g < |s'.fibers| ensures Remembers(s', g) {
      if g != f { assert Remembers(s, g) && s'.fibers[g] == s.fibers[g]; }
    }
  }

  /** A step that leaves queue and parking order alone. */
  lemma MoveInv(s: State, s': State, f: nat)
    requires Inv(s) && Moves(s, s', f) && KeepsWaiters(s, s', f) && Remembers(s', f)
    requires s'.queue == s.queue && s'.parked == s.parked && !s.fibers[f].ParkUnspin?
    requires OneOwner(s') && Truthful(s') && OnTheWay(s'.fibers[f]) == OnTheWay(s.fibers[f])
    ensures Inv(s')
  {
    OthersRemember(s, s', f);
    SumUpdate(s.fibers, f, s'.fibers[f], OnTheWayFn());
    forall k | s'.granted <= k < |s'.parked| ensures TicketOk(s', k) { assert TicketOk(s, k); }
  }

  /** The status and the queue stay, and nobody starts or ends a double update. */
  lemma TruthKept(s: State, s': State, f: nat)
    requires Truthful(s) && Moves(s, s', f) && s'.status == s.status && s'.queue == s.queue
    requires !Between(s.fibers[f])
    ensures Truthful(s')
  {
    if forall g :: 0 <= g < |s'.fibers| ==> !Between(s'.fibers[g]) {
      forall g | 0 <= g < |s.fibers| ensures !Between(s.fibers[g]) {
        if g != f { assert s'.fibers[g] == s.fibers[g]; }
      }
    }
  }

  lemma LockStepInv(s: State, f: nat)
    requires Inv(s) && f < |s.fibers| && !s.fibers[f].Park? && !s.fibers[f].ParkUnspin? && !Unlocking(s.fibers[f])
    ensures Inv(LockStep(s, f))
  {
    assert Remembers(s, f);
    var s' := LockStep(s, f);
    if s' != s {
      SumsMove(s.fibers, f, s'.fibers[f]);
      if InSpin(s.fibers[f]) == 1 { SpinnerIsUnique(s, f); }
      if s'.status == s.status {
        TruthKept(s, s', f);
      } else if s.fibers[f].FastLock? {
        FirstOwner(s, s', f);
      } else {
        assert Between(s'.fibers[f]);
      }
      MoveInv(s, s', f);
    }
  }

  /** st_ changes between None and LockedNoWaiter: there are no waiters before or after. */
  lemma FirstOwner(s: State, s': State, f: nat)
    requires Truthful(s) && Moves(s, s', f) && !Between(s.fibers[f]) && s'.queue == s.queue
    requires s.status != LockedWithWaiters && s'.status != LockedWithWaiters
    ensures Truthful(s')
  {
    if forall g :: 0 <= g < |s'.fibers| ==> !Between(s'.fibers[g]) {
      forall g | 0 <= g < |s.fibers| ensures !Between(s.fibers[g]) {
        if g != f { assert s'.fibers[g] == s.fibers[g]; }
      }
    }
  }

  lemma ParkInv(s: State, f: nat)
    requires Inv(s) && f < |s.fibers| && s.fibers[f].Park?
    ensures Inv(LockStep(s, f))
  {
    assert Remembers(s, f);
    var s' := LockStep(s, f);
    SumsMove(s.fibers, f, s'.fibers[f]);
    assert (s.parked + [f])[s.granted..] == s.parked[s.granted..] + [f];
    forall k | s'.granted <= k < |s'.parked| ensures TicketOk(s', k) {
      if k < |s.parked| { assert TicketOk(s, k); }
    }
    OthersRemember(s, s', f);
  }

  lemma ParkUnspinInv(s: State, f: nat)
    requires Inv(s) && f < |s.fibers| && s.fibers[f].ParkUnspin?
    ensures Inv(LockStep(s, f))
  {
    assert Remembers(s, f);
    SpinnerIsUnique(s, f);
    var s' := LockStep(s, f);
    SumsMove(s.fibers, f, s'.fibers[f]);
    TruthKept(s, s', f);
    forall k | s'.granted <= k < |s'.parked| ensures TicketOk(s', k) { assert TicketOk(s, k); }
    OthersRemember(s, s', f);
  }

  lemma FastUnlockInv(s: State, f: nat)
    requires Inv(s) && f < |s.fibers| && s.fibers[f].FastUnlock?
    ensures Inv(UnlockStep(s, f))
  {
    var s' := UnlockStep(s, f);
    OwnerIsUnique(s, f);
    SumsMove(s.fibers, f, s'.fibers[f]);
    if s'.status == s.status { TruthKept(s, s', f); } else { FirstOwner(s, s', f); }
    MoveInv(s, s', f);
  }

  lemma StoreStatusInv(s: State, f: nat)
    requires Inv(s) && f < |s.fibers| && s.fibers[f].StoreStatus?
    ensures Inv(UnlockStep(s, f))
  {
    assert Remembers(s, f);
    var s' := UnlockStep(s, f);
    OwnerIsUnique(s, f);
    SumsMove(s.fibers, f, s'.fibers[f]);
    MoveInv(s, s', f);
  }

  lemma UnlockSpinInv(s: State, f: nat)
    requires Inv(s) && f < |s.fibers| && (s.fibers[f].UnlockSpin? || s.fibers[f].UnlockUnspin?)
    ensures Inv(UnlockStep(s, f))
  {
    assert Remembers(s, f);
    var s' := UnlockStep(s, f);
    if s' != s {
      if s.fibers[f].UnlockUnspin? { SpinnerIsUnique(s, f); }
      SumsMove(s.fibers, f, s'.fibers[f]);
      TruthKept(s, s', f);
      MoveInv(s, s', f);
    }
  }

  /** The queue is not empty, and its oldest fiber is parked for good. */
  lemma OldestWaits(s: State, f: nat)
    requires Inv(s) && f < |s.fibers| && s.fibers[f].Unpark?
    ensures s.queue != [] && s.granted < |s.parked| && s.queue[0] == s.parked[s.granted]
    ensures s.queue[0] < |s.fibers| && s.queue[0] != f && s.fibers[s.queue[0]] == Parked(s.granted)
  {
    assert Remembers(s, f);
    SpinnerIsUnique(s, f);
    assert forall g :: 0 <= g < |s.fibers| ==> !Between(s.fibers[g]);
    assert TicketOk(s, s.granted);
  }

  lemma UnparkInv(s: State, f: nat)
    requires Inv(s) && f < |s.fibers| && s.fibers[f].Unpark?
    ensures Inv(UnlockStep(s, f)) && s.queue != []
  {
    assert Remembers(s, f);
    OldestWaits(s, f);
    OwnersWay(s, f);
    OwnerIsUnique(s, f);
    SpinnerIsUnique(s, f);
    var s' := UnlockStep(s, f);
    SumsMove(s.fibers, f, s'.fibers[f]);
    assert Between(s'.fibers[f]);
    forall k | s'.granted <= k < |s'.parked| ensures TicketOk(s', k) { assert TicketOk(s, k); }
    forall g | 0 <= g < |s'.fibers| ensures Remembers(s', g) { assert Remembers(s, g); }
  }

  /** The fiber taken off becomes ready and the unlocker is done: the owner changes, not their number. */
  lemma ScheduleCounts(s: State, f: nat)
    requires Inv(s) && f < |s.fibers| && s.fibers[f].Schedule?
    ensures OneOwner(UnlockStep(s, f)) && InOrder(UnlockStep(s, f)) && !UnlockStep(s, f).fault
    ensures s.fibers[f].fiber < |s.fibers|
  {
    assert Remembers(s, f);
    var Schedule(u, k) := s.fibers[f];
    SumsMove(s.fibers, u, Ready(k));
    SumsMove(s.fibers[u := Ready(k)], f, Outside);
  }

  lemma ScheduleInv(s: State, f: nat)
    requires Inv(s) && f < |s.fibers| && s.fibers[f].Schedule?
    ensures Inv(UnlockStep(s, f)) && s.fibers[f].fiber < |s.fibers|
  {
    ScheduleCounts(s, f);
    assert Remembers(s, f);
    var u := s.fibers[f].fiber;
    OwnerIsUnique(s, f);
    OwnersWay(s, f);
    var s' := UnlockStep(s, f);
    forall j | s'.granted <= j < |s'.parked| ensures TicketOk(s', j) { assert TicketOk(s, j); }
    forall g | 0 <= g < |s'.fibers| ensures Remembers(s', g) { assert Remembers(s, g); }
    if forall g :: 0 <= g < |s'.fibers| ==> !Between(s'.fibers[g]) {
      forall g | 0 <= g < |s.fibers| ensures !Between(s.fibers[g]) {
        if g != f && g != u { assert s'.fibers[g] == s.fibers[g]; }
      }
    }
  }

  lemma ResumeInv(s: State, f: nat)
    requires Inv(s) && f < |s.fibers| && s.fibers[f].Ready?
    ensures Inv(Step(s, Resume(f)))
  {
    assert Remembers(s, f);
    OwnerIsUnique(s, f);
    OwnersWay(s, f);
    var s' := Step(s, Resume(f));
    SumsMove(s.fibers, f, Holding);
    forall j | s'.granted <= j < |s'.parked| ensures TicketOk(s', j) { assert TicketOk(s, j); }
    forall g | 0 <= g < |s'.fibers| ensures Remembers(s', g) { assert Remembers(s, g); }
    if forall g :: 0 <= g < |s'.fibers| ==> !Between(s'.fibers[g]) {
      forall g | 0 <= g < |s.fibers| ensures !Between(s.fibers[g]) {
        if g != f { assert s'.fibers[g] == s.fibers[g]; }
      }
    }
  }

  lemma StepInv(s: State, a: Action)
    requires Inv(s)
    ensures Inv(Step(s, a))
  {
    if a.f < |s.fibers| {
      var f, pc := a.f, s.fibers[a.f];
      if a.Lock? || a.Unlock? {
        CallInv(s, a);
      } else if a.Resume? {
        if pc.Ready? { ResumeInv(s, f); }
      } else if pc.Park? {
        ParkInv(s, f);
      } else if pc.ParkUnspin? {
        ParkUnspinInv(s, f);
      } else if !Unlocking(pc) {
        LockStepInv(s, f);
      } else if pc.Unpark? {
        UnparkInv(s, f);
      } else if pc.Schedule? {
        ScheduleInv(s, f);
      } else if pc.FastUnlock? {
        FastUnlockInv(s, f);
      } else if pc.StoreStatus? {
        StoreStatusInv(s, f);
      } else {
        UnlockSpinInv(s, f);
      }
    }
  }

  lemma CallInv(s: State, a: Action)
    requires Inv(s) && a.f < |s.fibers| && (a.Lock? || a.Unlock?)
    ensures Inv(Step(s, a))
  {
    var f, s' := a.f, Step(s, a);
    if s' != s {
      SumsMove(s.fibers, f, s'.fibers[f]);
      TruthKept(s, s', f);
      MoveInv(s, s', f);
    }
  }

  // --- Every run

  lemma {:induction false} RunInv(s: State, actions: seq<Action>)
    requires Inv(s)
    ensures Inv(Run(s, actions))
    decreases |actions|
  {
    if actions != [] {
      StepInv(s, actions[0]);
      RunInv(Step(s, actions[0]), actions[1..]);
    }
  }

  lemma InitInv(n: nat)
    ensures Inv(Init(n))
  {
    SumAllZero(Init(n).fibers, InSpinFn());
    SumAllZero(Init(n).fibers, OwnsFn());
    SumAllZero(Init(n).fibers, OnTheWayFn());
  }

  /** In every run: at most one fiber owns the mutex (holds it, is unlocking it, or has been given it). */
  lemma MutualExclusion(n: nat, actions: seq<Action>, f: nat, g: nat)
    requires var s := Run(Init(n), actions); f < |s.fibers| && g < |s.fibers| && Owns(s.fibers[f]) == 1 && Owns(s.fibers[g]) == 1
    ensures f == g
  {
    InitInv(n);
    RunInv(Init(n), actions);
    OwnerIsUnique(Run(Init(n), actions), f);
  }

  /** In every run, whenever the spinlock is free: there are waiters exactly when the status is
      LockedWithWaiters, and the unlocker has never met an empty queue. */
  lemma StatusTellsWaiters(n: nat, actions: seq<Action>)
    ensures var s := Run(Init(n), actions); !s.fault && (!s.spin ==> (s.status == LockedWithWaiters <==> s.queue != []))
  {
    InitInv(n);
    RunInv(Init(n), actions);
    var s := Run(Init(n), actions);
    if !s.spin { NobodySpins(s); }
  }

  /** In every run: the mutex passes to the parked fibers in parking order, each in its turn; the queue
      is those not yet taken off; and while fibers are queued or one is on its way the mutex has an
      owner and its status is not None, so nobody can overtake them. */
  lemma HandOffInParkingOrder(n: nat, actions: seq<Action>)
    ensures var s := Run(Init(n), actions);
      && |s.resumed| <= s.granted <= |s.parked| && s.granted <= |s.resumed| + 1
      && s.resumed == s.parked[..|s.resumed|] && s.queue == s.parked[s.granted..]
      && (|s.resumed| < |s.parked| ==> s.status != None)
  {
    InitInv(n);
    RunInv(Init(n), actions);
    QueueHasOwner(Run(Init(n), actions));
  }

  lemma {:induction false} WayIsOwned(fs: seq<Pc>)
    ensures 0 <= Sum(fs, OnTheWayFn()) <= Sum(fs, OwnsFn())
  {
    if fs != [] { WayIsOwned(fs[1..]); }
  }

  lemma QueueHasOwner(s: State)
    requires Inv(s)
    ensures |s.resumed| < |s.parked| ==> s.status != None
    ensures s.granted <= |s.resumed| + 1
  {
    WayIsOwned(s.fibers);
    if s.status == None {
      forall f | 0 <= f < |s.fibers| ensures !Between(s.fibers[f]) { assert Remembers(s, f); }
    }
  }

  /** What fiber `f` does next when it is scheduled. */
  function NextAction(s: State, f: nat): Action
    requires f < |s.fibers|
  {
    if s.fibers[f].Holding? then Unlock(f) else if s.fibers[f].Ready? then Resume(f) else Tick(f)
  }

  ghost predicate MovesOn(s: State, f: nat) {
    f < |s.fibers| && |Step(s, NextAction(s, f)).fibers| == |s.fibers| && Step(s, NextAction(s, f)).fibers[f] != s.fibers[f]
  }

  /** An owner moves on, unless it waits for the spinlock; then the fiber inside does. */
  lemma OwnerOrSpinnerMoves(s: State, f: nat) returns (g: nat)
    requires Inv(s) && f < |s.fibers| && Owns(s.fibers[f]) == 1
    ensures MovesOn(s, g)
  {
    if s.fibers[f].UnlockSpin? && s.spin {
      g := SumWitness(s.fibers, InSpinFn());
      SpinnerSteps(s, g);
    } else {
      g := f;
      if InSpin(s.fibers[f]) == 1 { SpinnerSteps(s, f); } else { OwnerSteps(s, f); }
    }
  }

  /** Outside the spinlock an owner goes on, if the spinlock is free should it need it. */
  lemma OwnerSteps(s: State, f: nat)
    requires Inv(s) && f < |s.fibers| && Owns(s.fibers[f]) == 1 && InSpin(s.fibers[f]) == 0
    requires s.fibers[f].UnlockSpin? ==> !s.spin
    ensures MovesOn(s, f)
  {
    assert Remembers(s, f);
  }

  /** In every run, while a fiber is parked some fiber owns the mutex, and some fiber can move on. */
  lemma ParkedHasOwner(n: nat, actions: seq<Action>, f: nat) returns (owner: nat, mover: nat)
    requires var s := Run(Init(n), actions); f < |s.fibers| && s.fibers[f].Parked?
    ensures var s := Run(Init(n), actions); owner < |s.fibers| && Owns(s.fibers[owner]) == 1 && MovesOn(s, mover)
  {
    InitInv(n);
    RunInv(Init(n), actions);
    var s := Run(Init(n), actions);
    assert Remembers(s, f);
    QueueHasOwner(s);
    owner := SumWitness(s.fibers, OwnsFn());
    mover := OwnerOrSpinnerMoves(s, owner);
  }

  // --- Every fiber gets the mutex

  ghost predicate AllOutside(s: State) {
    forall f :: 0 <= f < |s.fibers| ==> s.fibers[f].Outside?
  }

  /** An upper bound of the steps a fiber needs, if it is run when that helps. */
  ghost function Steps(pc: Pc): int {
    match pc
    case Outside => 0
    case Schedule(_, _) => 1
    case UnlockUnspin(_, _) => 2
    case StoreStatus(_, _) => 3
    case Unpark => 4
    case UnlockSpin => 5
    case FastUnlock => 6
    case Holding => 7
    case Ready(_) => 8
    case Parked(_) => 8
    case FastLock => 8
    case ParkUnspin(_) => 9
    case RetryUnspin => 9
    case Park => 10
    case MarkWaiter => 11
    case LoadStatus => 12
    case LockSpin => 13
  }

  ghost function StepsFn(): Pc -> int { (pc: Pc) => Steps(pc) }

  ghost predicate Helps(s: State, a: Action) {
    && !a.Lock? && |Step(s, a).fibers| == |s.fibers|
    && Sum(Step(s, a).fibers, StepsFn()) < Sum(s.fibers, StepsFn())
  }

  lemma StepHelps(s: State, a: Action, f: nat)
    requires f < |s.fibers| == |Step(s, a).fibers| && !a.Lock?
    requires Step(s, a).fibers == s.fibers[f := Step(s, a).fibers[f]]
    requires Steps(Step(s, a).fibers[f]) < Steps(s.fibers[f])
    ensures Helps(s, a)
  {
    SumUpdate(s.fibers, f, Step(s, a).fibers[f], StepsFn());
  }

  /** Whoever has the spinlock can go on until it gives it back. */
  lemma SpinnerHelps(s: State) returns (a: Action)
    requires Inv(s) && s.spin
    ensures Helps(s, a)
  {
    var f := SumWitness(s.fibers, InSpinFn());
    a := Tick(f);
    SpinnerSteps(s, f);
    StepHelps(s, a, f);
  }

  lemma SpinnerSteps(s: State, f: nat)
    requires Inv(s) && f < |s.fibers| && InSpin(s.fibers[f]) == 1
    ensures var s' := Step(s, Tick(f)); |s'.fibers| == |s.fibers| && s'.fibers == s.fibers[f := s'.fibers[f]]
    ensures Steps(Step(s, Tick(f)).fibers[f]) < Steps(s.fibers[f])
  {
    if s.fibers[f].Unpark? {
      assert Remembers(s, f);
      OldestWaits(s, f);
    }
  }

  /** While the spinlock is free the owner can go on. */
  lemma OwnerHelps(s: State) returns (a: Action)
    requires Inv(s) && !s.spin && s.status != None
    ensures Helps(s, a)
  {
    var f := SumWitness(s.fibers, OwnsFn());
    NobodySpins(s);
    assert Remembers(s, f);
    a := NextAction(s, f);
    if s.fibers[f].Schedule? { ScheduleHelps(s, f); } else { StepHelps(s, a, f); }
  }

  lemma ScheduleHelps(s: State, f: nat)
    requires f < |s.fibers| && s.fibers[f].Schedule? && Remembers(s, f)
    ensures Helps(s, Tick(f))
  {
    var u, ready := s.fibers[f].fiber, Ready(s.fibers[f].k);
    SumUpdate(s.fibers, u, ready, StepsFn());
    SumUpdate(s.fibers[u := ready], f, Outside, StepsFn());
  }

  /** While nobody owns the mutex nobody is parked, and whoever wants it can go on. */
  lemma NewcomerHelps(s: State) returns (a: Action)
    requires Inv(s) && !s.spin && s.status == None && !AllOutside(s)
    ensures Helps(s, a)
  {
    var f: nat :| f < |s.fibers| && !s.fibers[f].Outside?;
    NobodySpins(s);
    QueueHasOwner(s);
    SumBounds(s.fibers, OwnsFn());
    assert Remembers(s, f) && OwnsFn()(s.fibers[f]) <= 0;
    a := Tick(f);
    StepHelps(s, a, f);
  }

  lemma {:induction false} CanFinish(s: State) returns (more: seq<Action>)
    requires Inv(s)
    ensures AllOutside(Run(s, more)) && forall a :: a in more ==> !a.Lock?
    decreases Sum(s.fibers, StepsFn())
  {
    if AllOutside(s) {
      more := [];
    } else {
      var a;
      if s.spin {
        a := SpinnerHelps(s);
      } else if s.status != None {
        a := OwnerHelps(s);
      } else {
        a := NewcomerHelps(s);
      }
      StepInv(s, a);
      SumBounds(Step(s, a).fibers, StepsFn());
      var rest := CanFinish(Step(s, a));
      more := [a] + rest;
    }
  }

  /** Inside Lock, parked or about to run on included. */
  predicate Locking(pc: Pc) {
    !pc.Outside? && !pc.Holding? && !Unlocking(pc)
  }

  /** At some point of the run fiber `f` holds the mutex. */
  ghost predicate GetsIn(s: State, actions: seq<Action>, f: nat)
    decreases |actions|
  {
    (f < |s.fibers| && s.fibers[f].Holding?) || (actions != [] && GetsIn(Step(s, actions[0]), actions[1..], f))
  }

  lemma LockerStays(s: State, a: Action, f: nat)
    requires Inv(s) && f < |s.fibers| && Locking(s.fibers[f])
    ensures f < |Step(s, a).fibers| && (Locking(Step(s, a).fibers[f]) || Step(s, a).fibers[f].Holding?)
  {
    if a.f < |s.fibers| {
      if a.f == f {
        LockerSteps(s, a);
      } else if a.Tick? && s.fibers[a.f].Schedule? {
        assert Remembers(s, a.f);
      } else {
        OtherStays(s, a, f);
      }
    }
  }

  lemma LockerSteps(s: State, a: Action)
    requires a.f < |s.fibers| && Locking(s.fibers[a.f])
    ensures a.f < |Step(s, a).fibers| && (Locking(Step(s, a).fibers[a.f]) || Step(s, a).fibers[a.f].Holding?)
  {
  }

  lemma OtherStays(s: State, a: Action, f: nat)
    requires a.f < |s.fibers| && f < |s.fibers| && f != a.f && (a.Tick? ==> !s.fibers[a.f].Schedule?)
    ensures f < |Step(s, a).fibers| && Step(s, a).fibers[f] == s.fibers[f]
  {
    if a.Tick? {
      if Unlocking(s.fibers[a.f]) {
        assert Step(s, a) == UnlockStep(s, a.f);
      } else {
        assert Step(s, a) == LockStep(s, a.f);
      }
    }
  }

  lemma {:induction false} LockerGetsIn(s: State, actions: seq<Action>, f: nat)
    requires Inv(s) && f < |s.fibers| && Locking(s.fibers[f]) && AllOutside(Run(s, actions))
    ensures GetsIn(s, actions, f)
    decreases |actions|
  {
    if actions != [] {
      var s' := Step(s, actions[0]);
      LockerStays(s, actions[0], f);
      StepInv(s, actions[0]);
      if !s'.fibers[f].Holding? { LockerGetsIn(s', actions[1..], f); }
    }
  }

  /** From whatever a run has led to, the fibers inside Lock, parked or not, can all be brought to hold
      the mutex and leave it, with no new call: owners unlock, and fibers made ready are resumed. */
  lemma EverybodyGetsIn(n: nat, actions: seq<Action>) returns (more: seq<Action>)
    ensures AllOutside(Run(Run(Init(n), actions), more)) && forall a :: a in more ==> !a.Lock?
    ensures var s := Run(Init(n), actions);
      forall f :: 0 <= f < |s.fibers| && Locking(s.fibers[f]) ==> GetsIn(s, more, f)
  {
    InitInv(n);
    RunInv(Init(n), actions);
    var s := Run(Init(n), actions);
    more := CanFinish(s);
    forall f | 0 <= f < |s.fibers| && Locking(s.fibers[f]) ensures GetsIn(s, more, f) { LockerGetsIn(s, more, f); }
  }

  /** A fiber outside gets in too, if it calls. */
  lemma CallerGetsIn(n: nat, actions: seq<Action>, f: nat) returns (more: seq<Action>)
    requires var s := Run(Init(n), actions); f < |s.fibers| && s.fibers[f].Outside?
    ensures more != [] && more[0] == Lock(f) && forall a :: a in more[1..] ==> !a.Lock?
    ensures AllOutside(Run(Run(Init(n), actions), more)) && GetsIn(Run(Init(n), actions), more, f)
  {
    InitInv(n);
    RunInv(Init(n), actions);
    var s := Run(Init(n), actions);
    StepInv(s, Lock(f));
    var rest := CanFinish(Step(s, Lock(f)));
    LockerGetsIn(Step(s, Lock(f)), rest, f);
    more := [Lock(f)] + rest;
  }

  // --- One fiber at a time

  lemma RunMore(s: State, a: Action, more: seq<Action>)
    ensures Run(s, [a] + more) == Run(Step(s, a), more)
  {
    assert ([a] + more)[1..] == more;
  }

  /** `n` steps of fiber `f`, and then some. */
  function Ticks(f: nat, n: nat, more: seq<Action>): seq<Action> {
    if n == 0 then more else [Tick(f)] + Ticks(f, n - 1, more)
  }

  lemma OneTick(s: State, f: nat, n: nat, more: seq<Action>, s': State)
    requires n > 0 && s' == Step(s, Tick(f))
    ensures Run(s, Ticks(f, n, more)) == Run(s', Ticks(f, n - 1, more))
  {
    RunMore(s, Tick(f), Ticks(f, n - 1, more));
  }

  /** The mutex is free. */
  lemma LockFree(s: State, f: nat)
    requires f < |s.fibers| && s.fibers[f].Outside? && s.status == None
    ensures Run(s, [Lock(f)] + Ticks(f, 1, [])) == s.(status := LockedNoWaiter, fibers := s.fibers[f := Holding])
  {
    var s1 := Step(s, Lock(f));
    var s2 := Step(s1, Tick(f));
    RunMore(s, Lock(f), Ticks(f, 1, []));
    OneTick(s1, f, 1, [], s2);
    assert s2.fibers == s.fibers[f := Holding];
  }

  lemma ParkedAlone(s: State, f: nat, k: nat)
    requires f < |s.fibers| && s.fibers[f] == ParkUnspin(k)
    ensures Run(s, Ticks(f, 1, [])) == s.(spin := false, fibers := s.fibers[f := Parked(k)])
  {
    OneTick(s, f, 1, [], s.(spin := false, fibers := s.fibers[f := Parked(k)]));
  }

  lemma ParkAlone(s: State, f: nat)
    requires f < |s.fibers| && s.fibers[f].Park?
    ensures Run(s, Ticks(f, 2, [])) ==
      s.(spin := false, queue := s.queue + [f], parked := s.parked + [f], fibers := s.fibers[f := Parked(|s.parked|)])
  {
    var k := |s.parked|;
    var s1 := s.(queue := s.queue + [f], parked := s.parked + [f], fibers := s.fibers[f := ParkUnspin(k)]);
    OneTick(s, f, 2, [], s1);
    ParkedAlone(s1, f, k);
    assert s1.fibers[f := Parked(k)] == s.fibers[f := Parked(k)];
  }

  /** Inside the spinlock a fiber makes the status LockedWithWaiters, if it is not, and parks. */
  lemma MarkAndPark(s: State, f: nat)
    requires f < |s.fibers| && s.fibers[f].LoadStatus? && s.spin && s.status != None
    ensures Run(s, Ticks(f, if s.status == LockedNoWaiter then 4 else 3, [])) ==
      s.(status := LockedWithWaiters, spin := false, queue := s.queue + [f], parked := s.parked + [f],
         fibers := s.fibers[f := Parked(|s.parked|)])
  {
    var s1 := Step(s, Tick(f));
    if s.status == LockedNoWaiter {
      var s2 := Step(s1, Tick(f));
      OneTick(s, f, 4, [], s1);
      OneTick(s1, f, 3, [], s2);
      ParkAlone(s2, f);
      assert s2.fibers[f := Parked(|s.parked|)] == s.fibers[f := Parked(|s.parked|)];
    } else {
      OneTick(s, f, 3, [], s1);
      ParkAlone(s1, f);
      assert s1.fibers[f := Parked(|s.parked|)] == s.fibers[f := Parked(|s.parked|)];
    }
  }

  /** A call of Lock that is left alone, while the spinlock is free, takes a free mutex at once; otherwise it
      marks the status once, parks behind the others and leaves the spinlock free. */
  lemma LockAlone(s: State, f: nat)
    requires f < |s.fibers| && s.fibers[f].Outside? && !s.spin
    ensures Run(s, [Lock(f)] + Ticks(f, if s.status == None then 1 else if s.status == LockedNoWaiter then 6 else 5, [])) ==
      if s.status == None then s.(status := LockedNoWaiter, fibers := s.fibers[f := Holding])
      else s.(status := LockedWithWaiters, queue := s.queue + [f], parked := s.parked + [f],
              fibers := s.fibers[f := Parked(|s.parked|)])
  {
    if s.status == None {
      LockFree(s, f);
    } else {
      var n := if s.status == LockedNoWaiter then 6 else 5;
      var s1 := Step(s, Lock(f));
      var s2 := Step(s1, Tick(f));
      var s3 := Step(s2, Tick(f));
      RunMore(s, Lock(f), Ticks(f, n, []));
      OneTick(s1, f, n, [], s2);
      OneTick(s2, f, n - 1, [], s3);
      MarkAndPark(s3, f);
      assert s3.fibers[f := Parked(|s.parked|)] == s.fibers[f := Parked(|s.parked|)];
    }
  }

  /** Unlock without waiters frees the mutex at once. */
  lemma UnlockFree(s: State, f: nat)
    requires f < |s.fibers| && s.fibers[f].Holding? && s.status == LockedNoWaiter
    ensures Run(s, [Unlock(f)] + Ticks(f, 1, [])) == s.(status := None, fibers := s.fibers[f := Outside])
  {
    var s1 := Step(s, Unlock(f));
    var s2 := Step(s1, Tick(f));
    RunMore(s, Unlock(f), Ticks(f, 1, []));
    OneTick(s1, f, 1, [], s2);
    assert s2.fibers == s.fibers[f := Outside];
  }

  // From the back: the oldest fiber is made ready and runs on.

  lemma ScheduleAlone(s: State, f: nat, u: nat, k: nat)
    requires f < |s.fibers| && s.fibers[f] == Schedule(u, k) && u < |s.fibers| && u != f
    ensures Run(s, Ticks(f, 1, [Resume(u)])) == s.(resumed := s.resumed + [u], fibers := s.fibers[f := Outside][u := Holding])
  {
    var s1 := s.(fibers := s.fibers[u := Ready(k)][f := Outside]);
    OneTick(s, f, 1, [Resume(u)], s1);
    RunMore(s1, Resume(u), []);
    assert [Resume(u)] + [] == [Resume(u)];
    assert s1.fibers[u := Holding] == s.fibers[f := Outside][u := Holding];
  }

  lemma UnspinAlone(s: State, f: nat, u: nat, k: nat)
    requires f < |s.fibers| && s.fibers[f] == UnlockUnspin(u, k) && u < |s.fibers| && u != f
    ensures Run(s, Ticks(f, 2, [Resume(u)])) ==
      s.(spin := false, resumed := s.resumed + [u], fibers := s.fibers[f := Outside][u := Holding])
  {
    var s1 := s.(spin := false, fibers := s.fibers[f := Schedule(u, k)]);
    OneTick(s, f, 2, [Resume(u)], s1);
    ScheduleAlone(s1, f, u, k);
    assert s1.fibers[f := Outside] == s.fibers[f := Outside];
  }

  lemma StoreAlone(s: State, f: nat, u: nat, k: nat)
    requires f < |s.fibers| && s.fibers[f] == StoreStatus(u, k) && u < |s.fibers| && u != f
    ensures Run(s, Ticks(f, 3, [Resume(u)])) ==
      s.(status := if s.queue == [] then LockedNoWaiter else LockedWithWaiters, spin := false,
         resumed := s.resumed + [u], fibers := s.fibers[f := Outside][u := Holding])
  {
    var s1 := s.(status := if s.queue == [] then LockedNoWaiter else LockedWithWaiters,
                 fibers := s.fibers[f := UnlockUnspin(u, k)]);
    OneTick(s, f, 3, [Resume(u)], s1);
    UnspinAlone(s1, f, u, k);
    assert s1.fibers[f := Outside] == s.fibers[f := Outside];
  }

  lemma UnparkAlone(s: State, f: nat, u: nat)
    requires f < |s.fibers| && s.fibers[f].Unpark? && s.queue != [] && u == s.queue[0] && u < |s.fibers| && u != f
    ensures Run(s, Ticks(f, 4, [Resume(u)])) ==
      s.(status := if |s.queue| == 1 then LockedNoWaiter else LockedWithWaiters, spin := false, queue := s.queue[1..],
         granted := s.granted + 1, resumed := s.resumed + [u], fibers := s.fibers[f := Outside][u := Holding])
  {
    var s1 := s.(queue := s.queue[1..], granted := s.granted + 1, fibers := s.fibers[f := StoreStatus(u, s.granted)]);
    OneTick(s, f, 4, [Resume(u)], s1);
    StoreAlone(s1, f, u, s.granted);
    assert s1.fibers[f := Outside] == s.fibers[f := Outside];
  }

  lemma SlowUnlockAlone(s: State, f: nat, u: nat)
    requires f < |s.fibers| && s.fibers[f].FastUnlock? && s.status == LockedWithWaiters && !s.spin
    requires s.queue != [] && u == s.queue[0] && u < |s.fibers| && u != f
    ensures Run(s, Ticks(f, 6, [Resume(u)])) ==
      s.(status := if |s.queue| == 1 then LockedNoWaiter else LockedWithWaiters, queue := s.queue[1..],
         granted := s.granted + 1, resumed := s.resumed + [u], fibers := s.fibers[f := Outside][u := Holding])
  {
    var s1 := s.(fibers := s.fibers[f := UnlockSpin]);
    var s2 := s.(spin := true, fibers := s.fibers[f := Unpark]);
    OneTick(s, f, 6, [Resume(u)], s1);
    assert s1.fibers[f := Unpark] == s2.fibers;
    OneTick(s1, f, 5, [Resume(u)], s2);
    UnparkAlone(s2, f, u);
    assert s2.fibers[f := Outside] == s.fibers[f := Outside];
  }

  lemma WaiterIsThere(s: State, f: nat)
    requires Inv(s) && f < |s.fibers| && s.fibers[f].Holding? && s.status == LockedWithWaiters && !s.spin
    ensures s.queue != [] && s.queue[0] < |s.fibers| && s.queue[0] != f
  {
    NobodySpins(s);
    assert TicketOk(s, s.granted);
  }

  /** Unlock with waiters, left alone while the spinlock is free, hands the mutex to the oldest of them, which
      runs on as its holder; the status then tells whether others wait. */
  lemma UnlockAlone(s: State, f: nat)
    requires Inv(s) && f < |s.fibers| && s.fibers[f].Holding? && s.status == LockedWithWaiters && !s.spin
    ensures s.queue != [] && s.queue[0] < |s.fibers| && s.queue[0] != f
    ensures Run(s, [Unlock(f)] + Ticks(f, 6, [Resume(s.queue[0])])) ==
      s.(status := if |s.queue| == 1 then LockedNoWaiter else LockedWithWaiters, queue := s.queue[1..],
         granted := s.granted + 1, resumed := s.resumed + [s.queue[0]], fibers := s.fibers[f := Outside][s.queue[0] := Holding])
  {
    WaiterIsThere(s, f);
    var u, s1 := s.queue[0], s.(fibers := s.fibers[f := FastUnlock]);
    RunMore(s, Unlock(f), Ticks(f, 6, [Resume(u)]));
    SlowUnlockAlone(s1, f, u);
    assert s1.fibers[f := Outside] == s.fibers[f := Outside];
  }

  // --- Every call gets in once

  /** How often fiber `f`, being outside, calls Lock. */
  function Calls(s: State, actions: seq<Action>, f: nat): nat
    decreases |actions|
  {
    if actions == [] then 0
    else
      (if actions[0] == Lock(f) && f < |s.fibers| && s.fibers[f] == Outside then 1 else 0) +
      Calls(Step(s, actions[0]), actions[1..], f)
  }

  /** How often it comes to hold the mutex. */
  function Entries(s: State, actions: seq<Action>, f: nat): nat
    decreases |actions|
  {
    if actions == [] then 0
    else
      var s' := Step(s, actions[0]);
      (if f < |s.fibers| && f < |s'.fibers| && s.fibers[f] != Holding && s'.fibers[f] == Holding then 1 else 0) +
      Entries(s', actions[1..], f)
  }

  function Owed(pc: Pc): nat {
    if Locking(pc) then 1 else 0
  }

  ghost predicate StepOwed(s: State, a: Action, s': State, f: nat)
    requires f < |s.fibers|
  {
    && |s'.fibers| == |s.fibers|
    && (if a == Lock(f) && s.fibers[f].Outside? then 1 else 0) + Owed(s.fibers[f]) ==
       (if !s.fibers[f].Holding? && s'.fibers[f].Holding? then 1 else 0) + Owed(s'.fibers[f])
  }

  lemma StepOwes(s: State, a: Action, f: nat)
    requires Inv(s) && f < |s.fibers|
    ensures StepOwed(s, a, Step(s, a), f)
  {
    if a.f < |s.fibers| {
      if a.f == f {
        OwnStepOwes(s, a);
      } else if a.Tick? && s.fibers[a.f].Schedule? {
        assert Remembers(s, a.f);
      } else {
        OtherStays(s, a, f);
      }
    }
  }

  lemma OwnStepOwes(s: State, a: Action)
    requires Inv(s) && a.f < |s.fibers|
    ensures StepOwed(s, a, Step(s, a), a.f)
  {
    assert Remembers(s, a.f);
    if a.Tick? {
      if Unlocking(s.fibers[a.f]) { UnlockOwes(s, a.f); } else { LockOwes(s, a.f); }
    }
  }

  lemma UnlockOwes(s: State, f: nat)
    requires f < |s.fibers| && Unlocking(s.fibers[f]) && Remembers(s, f)
    ensures StepOwed(s, Tick(f), UnlockStep(s, f), f)
  {
  }

  lemma LockOwes(s: State, f: nat)
    requires f < |s.fibers| && !Unlocking(s.fibers[f])
    ensures StepOwed(s, Tick(f), LockStep(s, f), f)
  {
  }

  lemma {:induction false} CallsEnter(s: State, actions: seq<Action>, f: nat)
    requires Inv(s) && f < |s.fibers|
    ensures var s' := Run(s, actions);
      |s'.fibers| == |s.fibers| && Calls(s, actions, f) + Owed(s.fibers[f]) == Entries(s, actions, f) + Owed(s'.fibers[f])
    decreases |actions|
  {
    if actions != [] {
      StepOwes(s, actions[0], f);
      StepInv(s, actions[0]);
      CallsEnter(Step(s, actions[0]), actions[1..], f);
    }
  }

  /** In every run a fiber has come to hold the mutex once for each of its calls of Lock, up to the one
      it is still inside. */
  lemma EachCallEntersOnce(n: nat, actions: seq<Action>, f: nat)
    requires f < n
    ensures var s := Run(Init(n), actions);
      && |s.fibers| == n
      && Calls(Init(n), actions, f) == Entries(Init(n), actions, f) + if Locking(s.fibers[f]) then 1 else 0
  {
    InitInv(n);
    CallsEnter(Init(n), actions, f);
  }

  // --- The mutex object

  class Mutex {
    var status: Status
    var spin: bool
    var queue: seq<nat>
    var fibers: seq<Pc>
    // auxiliary
    var parked: seq<nat>
    var granted: nat
    var resumed: seq<nat>

    ghost function View(): State reads this {
      State(status, spin, queue, fibers, false, parked, granted, resumed)
    }

    constructor (n: nat)
      ensures View() == Init(n) && Inv(View())
    {
      status, spin, queue, fibers := None, false, [], seq(n, _ => Outside);
      parked, granted, resumed := [], 0, [];
      new;
      InitInv(n);
    }

    method MoveTo(f: nat, pc: Pc)
      requires f < |fibers|
      modifies this`fibers
      ensures View() == Goto(old(View()), f, pc)
    {
      fibers := fibers[f := pc];
    }

    /** The next access of a LockAwaiter. */
    method LockAwait(f: nat)
      requires Inv(View()) && f < |fibers| && !Unlocking(fibers[f])
      modifies this
      ensures View() == LockStep(old(View()), f) && Inv(View())
    {
      StepInv(View(), Tick(f));
      var pc := fibers[f];
      if pc.FastLock? {
        if status == None {
          status := LockedNoWaiter;
          MoveTo(f, Holding);
        } else {
          MoveTo(f, LockSpin);
        }
      } else if pc.LockSpin? {
        if !spin {
          spin := true;
          MoveTo(f, LoadStatus);
        }
      } else if pc.LoadStatus? {
        MoveTo(f, if status == LockedWithWaiters then Park else MarkWaiter);
      } else {
        ParkOrRetry(f, pc);
      }
    }

    method ParkOrRetry(f: nat, pc: Pc)
      requires f < |fibers| && fibers[f] == pc && !pc.FastLock? && !pc.LockSpin? && !pc.LoadStatus?
      modifies this
      ensures View() == LockStep(old(View()), f)
    {
      if pc.MarkWaiter? {
        if status == LockedNoWaiter {
          status := LockedWithWaiters;
          MoveTo(f, Park);
        } else {
          MoveTo(f, RetryUnspin);
        }
      } else if pc.Park? {
        queue, parked := queue + [f], parked + [f];
        MoveTo(f, ParkUnspin(|parked| - 1));
      } else if pc.ParkUnspin? {
        spin := false;
        MoveTo(f, Parked(pc.k));
      } else if pc.RetryUnspin? {
        spin := false;
        MoveTo(f, FastLock);
      }
    }

    /** The next access of an UnlockAwaiter; the queue is not empty where it takes. */
    method UnlockAwait(f: nat)
      requires Inv(View()) && f < |fibers| && Unlocking(fibers[f])
      modifies this
      ensures View() == UnlockStep(old(View()), f) && Inv(View())
    {
      StepInv(View(), Tick(f));
      var pc := fibers[f];
      if pc.FastUnlock? {
        if status == LockedNoWaiter {
          status := None;
          MoveTo(f, Outside);
        } else {
          MoveTo(f, UnlockSpin);
        }
      } else if pc.UnlockSpin? {
        if !spin {
          spin := true;
          MoveTo(f, Unpark);
        }
      } else {
        if pc.Unpark? { UnparkInv(View(), f); }
        if pc.Schedule? { ScheduleInv(View(), f); }
        HandOver(f, pc);
      }
    }

    method HandOver(f: nat, pc: Pc)
      requires f < |fibers| && fibers[f] == pc && (pc.Unpark? || pc.StoreStatus? || pc.UnlockUnspin? || pc.Schedule?)
      requires (pc.Unpark? ==> queue != []) && (pc.Schedule? ==> pc.fiber < |fibers|)
      modifies this
      ensures View() == UnlockStep(old(View()), f)
    {
      if pc.Unpark? {
        var fiber := queue[0];
        queue, granted := queue[1..], granted + 1;
        MoveTo(f, StoreStatus(fiber, granted - 1));
      } else if pc.StoreStatus? {
        status := if queue == [] then LockedNoWaiter else LockedWithWaiters;
        MoveTo(f, UnlockUnspin(pc.fiber, pc.k));
      } else if pc.UnlockUnspin? {
        spin := false;
        MoveTo(f, Schedule(pc.fiber, pc.k));
      } else {
        MoveTo(pc.fiber, Ready(pc.k));
        MoveTo(f, Outside);
      }
    }

    method Perform(a: Action)
      requires Inv(View())
      modifies this
      ensures View() == Step(old(View()), a) && Inv(View())
    {
      StepInv(View(), a);
      if a.f < |fibers| {
        var pc := fibers[a.f];
        if a.Lock? {
          if pc.Outside? { MoveTo(a.f, FastLock); }
        } else if a.Unlock? {
          if pc.Holding? { MoveTo(a.f, FastUnlock); }
        } else if a.Resume? {
          if pc.Ready? {
            resumed := resumed + [a.f];
            MoveTo(a.f, Holding);
          }
        } else if Unlocking(pc) {
          UnlockAwait(a.f);
        } else {
          LockAwait(a.f);
        }
      }
    }

    /** Any schedule: what the theorems say of runs holds of the object. */
    method Execute(actions: seq<Action>)
      requires Inv(View())
      modifies this
      ensures View() == Run(old(View()), actions) && Inv(View())
    {
      var i := 0;
      while i < |actions|
        invariant i <= |actions|
        invariant Inv(View()) && Run(View(), actions[i..]) == Run(old(View()), actions)
      {
        assert actions[i..][0] == actions[i] && actions[i..][1..] == actions[i + 1..];
        Perform(actions[i]);
        i := i + 1;
      }
    }
  }
}
