/** The cyclic barrier (tasks/cond/barrier/cyclic_barrier.hpp), with exactly `participants_` threads
    that call ArriveAndWait again and again.

    One action is one lock or unlock of the mutex, one access to a shared variable outside it, or one
    access inside it; memory is sequentially consistent. A wait on a condition variable releases the
    mutex and sleeps in one step, may wake for no reason, and takes the mutex again before it looks at
    its condition. */
module CyclicBarrier {
  import opened Counting
  import opened Options

  /** Where a thread stands in ArriveAndWait. */
  datatype Pc =
    | Outside
    | GateArrived    // unlocked: is arrived_ below the number of participants?
    | GateDeparted   // unlocked: is departed_ 0?
    | GateLock
    | GateCheck      // locked: both again
    | GateAsleep     // on limit_reached_cv_
    | GateUnlock
    | ArriveLock
    | Arrive         // raise arrived_
    | WaitCheck      // have all arrived?
    | WaitAsleep     // on arrival_waiting_cv_
    | WaitRelock
    | Notify         // the first one through wakes the others
    | Depart         // raise departed_
    | LastCheck      // have all departed?
    | ResetArrived
    | ResetDeparted
    | ResetNotify    // lower is_notified_ and wake the threads at the gate
    | Unlock

  /** Auxiliary counters: calls begun, arrivals, departures and calls completed of the thread. */
  datatype Thread = Thread(pc: Pc, begun: nat, arrivals: nat, departures: nat, completed: nat)

  /** `owner` is the thread that holds the mutex; `round` is auxiliary, the number of resets. */
  datatype State = State(arrived: nat, departed: nat, notified: bool, owner: Option<nat>, threads: seq<Thread>, round: nat)

  datatype Action = Call(t: nat) | Tick(t: nat) | Spurious(t: nat)

  function Init(participants: nat): State {
    State(0, 0, false, None, seq(participants, _ => Thread(Outside, 0, 0, 0, 0)), 0)
  }

  // --- ArriveAndWait, one step at a time

  function Step(s: State, a: Action): State {
    if a.t >= |s.threads| then s else
    var th := s.threads[a.t];
    match a
    case Call(t) => if th.pc.Outside? then Put(s, t, th.(pc := GateArrived, begun := th.begun + 1)) else s
    case Spurious(t) =>
      if th.pc.GateAsleep? then Goto(s, t, GateLock) else if th.pc.WaitAsleep? then Goto(s, t, WaitRelock) else s
    case Tick(t) =>
      if Unlocked(th.pc) then OpenStep(s, t) else if s.owner == Some(t) then LockedStep(s, t) else s
  }

  /** The steps a thread takes without the mutex. */
  predicate Unlocked(pc: Pc) {
    pc.GateArrived? || pc.GateDeparted? || pc.GateLock? || pc.ArriveLock? || pc.WaitRelock?
  }

  function Put(s: State, t: nat, th: Thread): State
    requires t < |s.threads|
  {
    s.(threads := s.threads[t := th])
  }

  function Goto(s: State, t: nat, pc: Pc): State
    requires t < |s.threads|
  {
    Put(s, t, s.threads[t].(pc := pc))
  }

  function TakeMutex(s: State, t: nat, pc: Pc): State
    requires t < |s.threads|
  {
    if s.owner.None? then Goto(s.(owner := Some(t)), t, pc) else s
  }

  function OpenStep(s: State, t: nat): State
    requires t < |s.threads|
  {
    match s.threads[t].pc
    case GateArrived => Goto(s, t, if s.arrived >= |s.threads| then GateLock else GateDeparted)
    case GateDeparted => Goto(s, t, if s.departed != 0 then GateLock else ArriveLock)
    case GateLock => TakeMutex(s, t, GateCheck)
    case ArriveLock => TakeMutex(s, t, Arrive)
    case WaitRelock => TakeMutex(s, t, WaitCheck)
    case _ => s
  }

  function LockedStep(s: State, t: nat): State
    requires t < |s.threads|
  {
    var th := s.threads[t];
    match th.pc
    case GateCheck =>
      if s.arrived < |s.threads| && s.departed == 0 then Goto(s, t, GateUnlock) else Goto(s.(owner := None), t, GateAsleep)
    case GateUnlock => Goto(s.(owner := None), t, ArriveLock)
    case Arrive => Put(s.(arrived := s.arrived + 1), t, th.(pc := WaitCheck, arrivals := th.arrivals + 1))
    case WaitCheck =>
      if s.arrived == |s.threads| then Goto(s, t, Notify) else Goto(s.(owner := None), t, WaitAsleep)
    case Notify =>
      if s.arrived == |s.threads| && !s.notified
      then Goto(s.(notified := true, threads := WakeWaiters(s.threads)), t, Depart)
      else Goto(s, t, Depart)
    case Depart => Put(s.(departed := s.departed + 1), t, th.(pc := LastCheck, departures := th.departures + 1))
    case LastCheck => Goto(s, t, if s.departed == s.arrived then ResetArrived else Unlock)
    case ResetArrived => Goto(s.(arrived := 0, round := s.round + 1), t, ResetDeparted)
    case ResetDeparted => Goto(s.(departed := 0), t, ResetNotify)
    case ResetNotify => Goto(s.(notified := false, threads := WakeGate(s.threads)), t, Unlock)
    case Unlock => Put(s.(owner := None), t, th.(pc := Outside, completed := th.completed + 1))
    case _ => s
  }

  /** notify_all on the two condition variables. */
  function WakeWaiters(ts: seq<Thread>): (r: seq<Thread>)
    ensures |r| == |ts| && forall i :: 0 <= i < |ts| ==> r[i] == Woken(ts[i], WaitAsleep, WaitRelock)
  {
    if ts == [] then [] else [Woken(ts[0], WaitAsleep, WaitRelock)] + WakeWaiters(ts[1..])
  }

  function WakeGate(ts: seq<Thread>): (r: seq<Thread>)
    ensures |r| == |ts| && forall i :: 0 <= i < |ts| ==> r[i] == Woken(ts[i], GateAsleep, GateLock)
  {
    if ts == [] then [] else [Woken(ts[0], GateAsleep, GateLock)] + WakeGate(ts[1..])
  }

  function Woken(th: Thread, from: Pc, to: Pc): Thread {
    if th.pc == from then th.(pc := to) else th
  }

  function Run(s: State, actions: seq<Action>): State
    decreases |actions|
  {
    if actions == [] then s else Run(Step(s, actions[0]), actions[1..])
  }

  // --- The invariant

  /** Inside the mutex. */
  predicate Inside(pc: Pc) {
    !pc.Outside? && !Unlocked(pc) && !pc.GateAsleep? && !pc.WaitAsleep?
  }

  ghost predicate OwnerIs(s: State, t: nat)
    requires t < |s.threads|
  {
    Inside(s.threads[t].pc) <==> s.owner == Some(t)
  }

  /** What the mutex owner, if any, is about to do. */
  ghost predicate OwnerAt(s: State, pc: Pc) {
    s.owner.Some? && s.owner.value < |s.threads| && s.threads[s.owner.value].pc == pc
  }

  ghost function ArrFn(round: nat): Thread -> int { (th: Thread) => th.arrivals - round }
  ghost function DepFn(round: nat): Thread -> int { (th: Thread) => th.departures - round }

  /** arrived_ counts the threads that have arrived in this round, departed_ those that have departed;
      nobody departs before all have arrived. */
  ghost predicate Counted(s: State) {
    && s.arrived == Sum(s.threads, ArrFn(s.round))
    && s.departed == (if OwnerAt(s, ResetDeparted) then |s.threads| else Sum(s.threads, DepFn(s.round)))
    && (forall t :: 0 <= t < |s.threads| ==> s.round <= s.threads[t].departures <= s.threads[t].arrivals <= s.round + 1)
    && (forall t :: 0 <= t < |s.threads| && s.threads[t].departures > s.round ==> s.arrived == |s.threads|)
  }

  predicate BeforeArrival(pc: Pc) {
    pc.GateArrived? || pc.GateDeparted? || pc.GateLock? || pc.GateCheck? || pc.GateAsleep? || pc.GateUnlock? ||
    pc.ArriveLock? || pc.Arrive?
  }

  predicate Waiting(pc: Pc) {
    pc.WaitCheck? || pc.WaitAsleep? || pc.WaitRelock? || pc.Notify? || pc.Depart?
  }

  /** The calls of a thread, its arrivals and departures, by its place in the code. */
  ghost predicate Steady(th: Thread) {
    if th.pc.Outside? then th.begun == th.arrivals == th.departures == th.completed
    else if BeforeArrival(th.pc) then th.begun == th.arrivals + 1 && th.arrivals == th.departures == th.completed
    else if Waiting(th.pc) then th.begun == th.arrivals == th.departures + 1 && th.departures == th.completed
    else th.begun == th.arrivals == th.departures == th.completed + 1
  }

  ghost predicate Remembers(s: State, t: nat)
    requires t < |s.threads|
  {
    var th, n := s.threads[t], |s.threads|;
    && Steady(th) && OwnerIs(s, t)
    && match th.pc
       case GateDeparted => th.arrivals == s.round
       case GateUnlock => th.arrivals == s.round
       case ArriveLock => th.arrivals == s.round
       case Arrive => th.arrivals == s.round
       case GateAsleep => s.arrived < n && s.departed == 0 ==> OwnerAt(s, ResetNotify)
       case WaitAsleep => s.arrived == n ==> !s.notified && (OwnerAt(s, WaitCheck) || OwnerAt(s, Notify))
       case Notify => s.arrived == n
       case Depart => s.arrived == n
       case LastCheck => th.departures == s.round + 1
       case ResetArrived => th.departures == s.round + 1 && s.departed == n
       case ResetDeparted => th.departures == s.round && s.arrived == 0
       case ResetNotify => th.departures == s.round && s.departed == 0 && s.arrived == 0
       case _ => true
  }

  /** Only a full round is announced. */
  ghost predicate FlagLaw(s: State) {
    s.notified ==> s.arrived == |s.threads| || OwnerAt(s, ResetDeparted) || OwnerAt(s, ResetNotify)
  }

  /** The last one to depart resets. */
  ghost predicate ResetLaw(s: State) {
    s.departed == |s.threads| > 0 ==> OwnerAt(s, LastCheck) || OwnerAt(s, ResetArrived) || OwnerAt(s, ResetDeparted)
  }

  ghost predicate Inv(s: State) {
    && Counted(s) && FlagLaw(s) && ResetLaw(s)
    && (s.owner.Some? ==> s.owner.value < |s.threads|)
    && forall t :: 0 <= t < |s.threads| ==> Remembers(s, t)
  }

  // --- Every step keeps the invariant

  /** Nobody arrives or departs. */
  ghost predicate SameCounts(s: State, s': State) {
    && s'.arrived == s.arrived && s'.departed == s.departed && s'.round == s.round && |s'.threads| == |s.threads|
    && (forall u :: 0 <= u < |s.threads| ==>
          s'.threads[u].arrivals == s.threads[u].arrivals && s'.threads[u].departures == s.threads[u].departures)
    && OwnerAt(s, ResetDeparted) == OwnerAt(s', ResetDeparted)
  }

  lemma CountsKept(s: State, s': State)
    requires Counted(s) && SameCounts(s, s')
    ensures Counted(s')
  {
    SumPointwise(s.threads, s'.threads, ArrFn(s.round));
    SumPointwise(s.threads, s'.threads, DepFn(s.round));
  }

  /** Thread `t` moves without changing a counter, the flag or another thread; at most it takes the
      mutex or lets it go. */
  ghost predicate Moves(s: State, s': State, t: nat) {
    && t < |s.threads| == |s'.threads| && s'.threads == s.threads[t := s'.threads[t]]
    && SameCounts(s, s') && s'.notified == s.notified
    && (s'.owner == s.owner || (s.owner == Some(t) && s'.owner == None) || (s.owner == None && s'.owner == Some(t)))
  }

  /** An owner about to wake sleepers does not just go away. */
  ghost predicate KeepsDuty(s: State, s': State, t: nat)
    requires t < |s.threads|
  {
    s.owner == Some(t) ==>
      && !s.threads[t].pc.ResetNotify? && !s.threads[t].pc.Notify?
      && (s.threads[t].pc.WaitCheck? && s.arrived == |s.threads| ==> OwnerAt(s', Notify))
  }

  lemma MoveInv(s: State, s': State, t: nat)
    requires Inv(s) && Moves(s, s', t) && KeepsDuty(s, s', t)
    requires Remembers(s', t) && FlagLaw(s') && ResetLaw(s')
    ensures Inv(s')
  {
    CountsKept(s, s');
    forall u | 0 <= u < |s'.threads| ensures Remembers(s', u) {
      if u != t {
        assert Remembers(s, u) && s'.threads[u] == s.threads[u];
        assert s.owner == Some(t) && OwnerAt(s, WaitCheck) ==> s.threads[t].pc.WaitCheck?;
      }
    }
  }

  /** Calls and spurious wake-ups. */
  lemma CallInv(s: State, a: Action)
    requires Inv(s) && a.t < |s.threads| && !a.Tick?
    ensures Inv(Step(s, a))
  {
    var s' := Step(s, a);
    assert Remembers(s, a.t);
    if s' != s {
      assert s.owner != Some(a.t);
      MoveInv(s, s', a.t);
    }
  }

  /** The unlocked look at the counters. Whoever finds arrived_ low has not yet arrived in this round. */
  lemma GateLookInv(s: State, t: nat)
    requires Inv(s) && t < |s.threads| && (s.threads[t].pc.GateArrived? || s.threads[t].pc.GateDeparted?)
    ensures Inv(OpenStep(s, t))
  {
    assert Remembers(s, t);
    assert s.owner != Some(t);
    MoveInv(s, OpenStep(s, t), t);
  }

  /** Where a thread goes once it has the mutex. */
  predicate Locks(from: Pc, to: Pc) {
    (from.GateLock? && to.GateCheck?) || (from.ArriveLock? && to.Arrive?) || (from.WaitRelock? && to.WaitCheck?)
  }

  lemma TakeMutexInv(s: State, t: nat, pc: Pc)
    requires Inv(s) && t < |s.threads| && s.owner.None?
    requires Locks(s.threads[t].pc, pc)
    ensures Inv(TakeMutex(s, t, pc))
  {
    assert Remembers(s, t);
    MoveInv(s, TakeMutex(s, t, pc), t);
  }

  /** The owner moves on, or lets the mutex go, without arriving, departing or waking anybody. */
  lemma LookInv(s: State, t: nat)
    requires Inv(s) && t < |s.threads| && s.owner == Some(t)
    requires s.threads[t].pc.GateCheck? || s.threads[t].pc.GateUnlock? || s.threads[t].pc.WaitCheck? || s.threads[t].pc.Unlock?
    ensures Inv(LockedStep(s, t))
  {
    assert Remembers(s, t);
    MoveInv(s, LockedStep(s, t), t);
  }

  lemma ArriveRemembers(s: State, t: nat, u: nat)
    requires Inv(s) && t < |s.threads| && s.owner == Some(t) && s.threads[t].pc.Arrive? && u < |s.threads|
    ensures |LockedStep(s, t).threads| == |s.threads| && Remembers(LockedStep(s, t), u)
  {
    assert Remembers(s, t) && Remembers(s, u);
  }

  /** One more thread has arrived, and there was room for it. */
  lemma ArriveCounts(s: State, t: nat)
    requires Counted(s) && t < |s.threads| && s.owner == Some(t) && s.threads[t].pc.Arrive? && Remembers(s, t)
    ensures Counted(LockedStep(s, t)) && s.arrived < |s.threads|
  {
    var s' := LockedStep(s, t);
    SumUpdate(s.threads, t, s'.threads[t], ArrFn(s.round));
    SumUpdate(s.threads, t, s'.threads[t], DepFn(s.round));
    SumFull(s.threads, ArrFn(s.round));
    assert ArrFn(s.round)(s.threads[t]) == 0;
  }

  lemma ArriveInv(s: State, t: nat)
    requires Inv(s) && t < |s.threads| && s.owner == Some(t) && s.threads[t].pc.Arrive?
    ensures Inv(LockedStep(s, t))
  {
    var s' := LockedStep(s, t);
    assert Remembers(s, t);
    ArriveCounts(s, t);
    forall u | 0 <= u < |s'.threads| ensures Remembers(s', u) { ArriveRemembers(s, t, u); }
  }

  lemma NotifyRemembers(s: State, t: nat, u: nat)
    requires Inv(s) && t < |s.threads| && s.owner == Some(t) && s.threads[t].pc.Notify? && u < |s.threads|
    ensures |LockedStep(s, t).threads| == |s.threads| && Remembers(LockedStep(s, t), u)
  {
    assert Remembers(s, t) && Remembers(s, u);
    if s.arrived == |s.threads| && !s.notified {
      FirstNotifyRemembers(s, LockedStep(s, t), t, u);
    }
  }

  lemma FirstNotifyRemembers(s: State, s': State, t: nat, u: nat)
    requires t < |s.threads| && s.owner == Some(t) && s.threads[t].pc.Notify? && u < |s.threads|
    requires s.arrived == |s.threads| && !s.notified && s' == LockedStep(s, t) && Remembers(s, u) && Remembers(s, t)
    ensures |s'.threads| == |s.threads| && Remembers(s', u)
  {
    assert s'.threads[u] == if u == t then s.threads[t].(pc := Depart) else Woken(s.threads[u], WaitAsleep, WaitRelock);
  }

  lemma NotifyInv(s: State, t: nat)
    requires Inv(s) && t < |s.threads| && s.owner == Some(t) && s.threads[t].pc.Notify?
    ensures Inv(LockedStep(s, t))
  {
    var s' := LockedStep(s, t);
    assert Remembers(s, t);
    CountsKept(s, s');
    forall u | 0 <= u < |s'.threads| ensures Remembers(s', u) { NotifyRemembers(s, t, u); }
  }

  lemma DepartRemembers(s: State, t: nat, u: nat)
    requires Inv(s) && t < |s.threads| && s.owner == Some(t) && s.threads[t].pc.Depart? && u < |s.threads|
    ensures |LockedStep(s, t).threads| == |s.threads| && Remembers(LockedStep(s, t), u)
  {
    assert Remembers(s, t) && Remembers(s, u);
  }

  lemma DepartInv(s: State, t: nat)
    requires Inv(s) && t < |s.threads| && s.owner == Some(t) && s.threads[t].pc.Depart?
    ensures Inv(LockedStep(s, t))
  {
    var s' := LockedStep(s, t);
    assert Remembers(s, t);
    SumUpdate(s.threads, t, s'.threads[t], ArrFn(s.round));
    SumUpdate(s.threads, t, s'.threads[t], DepFn(s.round));
    forall u | 0 <= u < |s'.threads| ensures Remembers(s', u) { DepartRemembers(s, t, u); }
  }

  /** All have departed exactly when the counters agree, and then all have arrived. */
  lemma LastCheckInv(s: State, t: nat)
    requires Inv(s) && t < |s.threads| && s.owner == Some(t) && s.threads[t].pc.LastCheck?
    ensures Inv(LockedStep(s, t))
  {
    assert Remembers(s, t);
    MoveInv(s, LockedStep(s, t), t);
  }

  lemma ResetArrivedRemembers(s: State, t: nat, u: nat)
    requires Inv(s) && t < |s.threads| && s.owner == Some(t) && s.threads[t].pc.ResetArrived? && u < |s.threads|
    ensures |LockedStep(s, t).threads| == |s.threads| && Remembers(LockedStep(s, t), u)
  {
    assert Remembers(s, t) && Remembers(s, u);
    SumFull(s.threads, DepFn(s.round));
    assert DepFn(s.round)(s.threads[u]) == 1;
  }

  /** A new round begins: nobody has arrived or departed in it. */
  lemma ResetArrivedInv(s: State, t: nat)
    requires Inv(s) && t < |s.threads| && s.owner == Some(t) && s.threads[t].pc.ResetArrived?
    ensures Inv(LockedStep(s, t))
  {
    var s' := LockedStep(s, t);
    assert Remembers(s, t);
    SumFull(s.threads, DepFn(s.round));
    assert forall u :: 0 <= u < |s.threads| ==> DepFn(s.round)(s.threads[u]) == 1;
    SumAllZero(s'.threads, ArrFn(s'.round));
    forall u | 0 <= u < |s'.threads| ensures Remembers(s', u) { ResetArrivedRemembers(s, t, u); }
  }

  lemma ResetDepartedRemembers(s: State, t: nat, u: nat)
    requires Inv(s) && t < |s.threads| && s.owner == Some(t) && s.threads[t].pc.ResetDeparted? && u < |s.threads|
    ensures |LockedStep(s, t).threads| == |s.threads| && Remembers(LockedStep(s, t), u)
  {
    assert Remembers(s, t) && Remembers(s, u);
  }

  lemma ResetDepartedInv(s: State, t: nat)
    requires Inv(s) && t < |s.threads| && s.owner == Some(t) && s.threads[t].pc.ResetDeparted?
    ensures Inv(LockedStep(s, t))
  {
    var s' := LockedStep(s, t);
    assert Remembers(s, t);
    SumAllZero(s.threads, DepFn(s.round));
    SumPointwise(s.threads, s'.threads, ArrFn(s.round));
    SumPointwise(s.threads, s'.threads, DepFn(s.round));
    forall u | 0 <= u < |s'.threads| ensures Remembers(s', u) { ResetDepartedRemembers(s, t, u); }
  }

  lemma ResetNotifyRemembers(s: State, t: nat, u: nat)
    requires Inv(s) && t < |s.threads| && s.owner == Some(t) && s.threads[t].pc.ResetNotify? && u < |s.threads|
    ensures |LockedStep(s, t).threads| == |s.threads| && Remembers(LockedStep(s, t), u)
  {
    assert Remembers(s, t) && Remembers(s, u);
  }

  lemma ResetNotifyInv(s: State, t: nat)
    requires Inv(s) && t < |s.threads| && s.owner == Some(t) && s.threads[t].pc.ResetNotify?
    ensures Inv(LockedStep(s, t))
  {
    var s' := LockedStep(s, t);
    assert Remembers(s, t);
    CountsKept(s, s');
    forall u | 0 <= u < |s'.threads| ensures Remembers(s', u) { ResetNotifyRemembers(s, t, u); }
  }

  lemma TickInv(s: State, t: nat)
    requires Inv(s) && t < |s.threads|
    ensures Inv(Step(s, Tick(t)))
  {
    var pc := s.threads[t].pc;
    assert Remembers(s, t);
    if pc.GateArrived? || pc.GateDeparted? {
      GateLookInv(s, t);
    } else if Unlocked(pc) {
      if s.owner.None? { TakeMutexInv(s, t, if pc.GateLock? then GateCheck else if pc.ArriveLock? then Arrive else WaitCheck); }
    } else if s.owner == Some(t) {
      LockedStepInv(s, t);
    }
  }

  lemma LockedStepInv(s: State, t: nat)
    requires Inv(s) && t < |s.threads| && s.owner == Some(t)
    ensures Inv(LockedStep(s, t))
  {
    var pc := s.threads[t].pc;
    assert Remembers(s, t);
    if pc.Arrive? {
      ArriveInv(s, t);
    } else if pc.Notify? {
      NotifyInv(s, t);
    } else if pc.Depart? {
      DepartInv(s, t);
    } else if pc.LastCheck? {
      LastCheckInv(s, t);
    } else if pc.ResetArrived? {
      ResetArrivedInv(s, t);
    } else if pc.ResetDeparted? {
      ResetDepartedInv(s, t);
    } else if pc.ResetNotify? {
      ResetNotifyInv(s, t);
    } else {
      LookInv(s, t);
    }
  }

  lemma StepInv(s: State, a: Action)
    requires Inv(s)
    ensures Inv(Step(s, a))
  {
    if a.t < |s.threads| {
      if a.Tick? { TickInv(s, a.t); } else { CallInv(s, a); }
    }
  }

  // --- Every run

  lemma {:induction false} RunInv(s: State, actions: seq<Action>)
    requires Inv(s)
    ensures Inv(Run(s, actions)) && |Run(s, actions).threads| == |s.threads|
    decreases |actions|
  {
    if actions != [] {
      StepInv(s, actions[0]);
      StepKeepsThreads(s, actions[0]);
      RunInv(Step(s, actions[0]), actions[1..]);
    }
  }

  lemma StepKeepsThreads(s: State, a: Action)
    ensures |Step(s, a).threads| == |s.threads|
  {
    if a.t < |s.threads| && a.Tick? {
      if Unlocked(s.threads[a.t].pc) {
        assert |OpenStep(s, a.t).threads| == |s.threads|;
      } else {
        assert |LockedStep(s, a.t).threads| == |s.threads|;
      }
    }
  }

  lemma InitInv(participants: nat)
    ensures Inv(Init(participants))
  {
    SumAllZero(Init(participants).threads, ArrFn(0));
    SumAllZero(Init(participants).threads, DepFn(0));
  }

  lemma Reached(participants: nat, actions: seq<Action>)
    ensures Inv(Run(Init(participants), actions)) && |Run(Init(participants), actions).threads| == participants
  {
    InitInv(participants);
    RunInv(Init(participants), actions);
  }

  /** In every run, for any two of the threads: one has completed at most as many calls as the other
      has begun, so nobody returns from its k-th call before all have begun theirs; and their numbers of
      completed calls differ by at most one. */
  lemma NobodyReturnsEarly(participants: nat, actions: seq<Action>, t: nat, u: nat)
    requires t < participants && u < participants
    ensures var s := Run(Init(participants), actions);
      && |s.threads| == participants
      && s.threads[t].completed <= s.threads[u].begun
      && s.threads[t].completed <= s.threads[u].completed + 1
  {
    Reached(participants, actions);
    CallsInStep(Run(Init(participants), actions), t, u);
  }

  lemma CallsInStep(s: State, t: nat, u: nat)
    requires Inv(s) && t < |s.threads| && u < |s.threads|
    ensures s.threads[t].completed <= s.threads[u].begun
    ensures s.threads[t].completed <= s.threads[u].completed + 1
  {
    assert Remembers(s, t) && Remembers(s, u);
    if s.threads[t].departures > s.round {
      SumFull(s.threads, ArrFn(s.round));
      assert ArrFn(s.round)(s.threads[u]) == 1;
    }
  }

  /** In every run: arrived_ is the number of threads that have arrived in the current round, departed_
      (except between the two stores of a reset) the number that have departed; every thread is in this
      round or has completed it; and a thread past its wait has all others arrived beside it. So the
      rounds never mix. */
  lemma RoundsNeverMix(participants: nat, actions: seq<Action>, t: nat)
    requires t < participants
    ensures var s := Run(Init(participants), actions);
      && |s.threads| == participants && Counted(s)
      && (s.threads[t].pc.Notify? || s.threads[t].pc.Depart? || s.threads[t].departures > s.round ==>
            forall u :: 0 <= u < participants ==> s.threads[u].arrivals == s.round + 1)
  {
    Reached(participants, actions);
    var s := Run(Init(participants), actions);
    assert Remembers(s, t);
    if s.threads[t].pc.Notify? || s.threads[t].pc.Depart? || s.threads[t].departures > s.round {
      SumFull(s.threads, ArrFn(s.round));
      forall u | 0 <= u < participants ensures s.threads[u].arrivals == s.round + 1 {
        assert ArrFn(s.round)(s.threads[u]) == 1;
      }
    }
  }

  /** In every run: a thread asleep at the wait whose condition holds is about to be woken by the owner
      of the mutex, and so is a thread asleep at the gate. */
  lemma NobodyOversleeps(participants: nat, actions: seq<Action>, t: nat)
    requires t < participants
    ensures var s := Run(Init(participants), actions); |s.threads| == participants
    ensures var s := Run(Init(participants), actions);
      s.threads[t].pc.WaitAsleep? && s.arrived == participants ==> !s.notified && (OwnerAt(s, WaitCheck) || OwnerAt(s, Notify))
    ensures var s := Run(Init(participants), actions);
      s.threads[t].pc.GateAsleep? && s.arrived < participants && s.departed == 0 ==> OwnerAt(s, ResetNotify)
  {
    Reached(participants, actions);
    assert Remembers(Run(Init(participants), actions), t);
  }

  predicate MovesOn(s: State, t: nat) {
    t < |s.threads| == |Step(s, Tick(t)).threads| && Step(s, Tick(t)).threads[t].pc != s.threads[t].pc
  }

  predicate AllInside(s: State) {
    |s.threads| > 0 && forall t :: 0 <= t < |s.threads| ==> !s.threads[t].pc.Outside?
  }

  /** In every run: while all threads are inside ArriveAndWait, some thread can move on. */
  lemma NeverDeadlocked(participants: nat, actions: seq<Action>) returns (t: nat)
    requires AllInside(Run(Init(participants), actions))
    ensures MovesOn(Run(Init(participants), actions), t)
  {
    Reached(participants, actions);
    t := SomebodyMoves(Run(Init(participants), actions));
  }

  lemma SomebodyMoves(s: State) returns (t: nat)
    requires Inv(s) && AllInside(s)
    ensures MovesOn(s, t)
  {
    if s.owner.Some? {
      t := s.owner.value;
      assert Remembers(s, t);
      OwnerMoves(s, t);
    } else {
      t := SomebodyAwake(s);
    }
  }

  lemma OwnerMoves(s: State, t: nat)
    requires t < |s.threads| && s.owner == Some(t) && Inside(s.threads[t].pc)
    ensures MovesOn(s, t)
  {
  }

  ghost predicate AllAsleep(s: State) {
    forall u :: 0 <= u < |s.threads| ==> s.threads[u].pc.GateAsleep? || s.threads[u].pc.WaitAsleep?
  }

  /** If all have arrived and all sleep, they sleep at the gate: all have departed. */
  lemma AllDeparted(s: State)
    requires Inv(s) && s.owner.None? && AllAsleep(s) && s.arrived == |s.threads|
    ensures s.departed == |s.threads|
  {
    SumFull(s.threads, ArrFn(s.round));
    SumFull(s.threads, DepFn(s.round));
    forall u | 0 <= u < |s.threads| ensures DepFn(s.round)(s.threads[u]) == 1 {
      assert ArrFn(s.round)(s.threads[u]) == 1;
      assert Remembers(s, u);
    }
  }

  /** If not all have arrived and all sleep, nobody has departed, so they sleep at the wait. */
  lemma AllArrived(s: State)
    requires Inv(s) && s.owner.None? && AllAsleep(s) && s.arrived < |s.threads|
    ensures s.departed == 0 && forall u :: 0 <= u < |s.threads| ==> s.threads[u].arrivals == s.round + 1
  {
    SumAllZero(s.threads, DepFn(s.round));
    forall u | 0 <= u < |s.threads| ensures s.threads[u].arrivals == s.round + 1 { assert Remembers(s, u); }
  }

  lemma SomebodyAwake(s: State) returns (t: nat)
    requires Inv(s) && AllInside(s) && s.owner.None?
    ensures t < |s.threads| && Unlocked(s.threads[t].pc)
  {
    t := 0;
    if u: nat :| u < |s.threads| && Unlocked(s.threads[u].pc) {
      t := u;
    } else {
      forall u | 0 <= u < |s.threads| ensures s.threads[u].pc.GateAsleep? || s.threads[u].pc.WaitAsleep? {
        assert Remembers(s, u);
      }
      SumFull(s.threads, ArrFn(s.round));
      if s.arrived == |s.threads| { AllDeparted(s); } else { AllArrived(s); }
      assert false;
    }
  }

  // --- Everybody leaves

  /** An upper bound of the steps that a thread and those it wakes can take before somebody calls again;
      `n` is the number of threads. */
  ghost function Work(pc: Pc, n: nat): nat {
    match pc
    case Outside => 0
    case Unlock => 1
    case ResetNotify => 2 * n + 2
    case ResetDeparted => 2 * n + 3
    case ResetArrived => 2 * n + 4
    case LastCheck => 2 * n + 5
    case Depart => 2 * n + 6
    case Notify => 4 * n + 7
    case WaitAsleep => 4 * n + 8
    case WaitCheck => 4 * n + 9
    case WaitRelock => 4 * n + 10
    case Arrive => 4 * n + 11
    case ArriveLock => 4 * n + 12
    case GateUnlock => 4 * n + 13
    case GateAsleep => 4 * n + 14
    case GateCheck => 4 * n + 15
    case GateLock => 4 * n + 16
    case GateDeparted => 4 * n + 17
    case GateArrived => 4 * n + 18
  }

  ghost function WorkFn(n: nat): Thread -> int { (th: Thread) => Work(th.pc, n) }

  ghost function WorkLeft(s: State): int { Sum(s.threads, WorkFn(|s.threads|)) }

  /** Waking costs at most two steps for each thread woken. */
  lemma {:induction false} WakingCosts(ts: seq<Thread>, n: nat)
    ensures Sum(WakeWaiters(ts), WorkFn(n)) <= Sum(ts, WorkFn(n)) + 2 * |ts|
    ensures Sum(WakeGate(ts), WorkFn(n)) <= Sum(ts, WorkFn(n)) + 2 * |ts|
  {
    if ts != [] {
      WakingCosts(ts[1..], n);
      assert WakeWaiters(ts)[1..] == WakeWaiters(ts[1..]) && WakeGate(ts)[1..] == WakeGate(ts[1..]);
    }
  }

  lemma OpenWorks(s: State, t: nat)
    requires t < |s.threads| && Unlocked(s.threads[t].pc) && OpenStep(s, t) != s
    ensures |OpenStep(s, t).threads| == |s.threads| && WorkLeft(OpenStep(s, t)) < WorkLeft(s)
  {
    SumUpdate(s.threads, t, OpenStep(s, t).threads[t], WorkFn(|s.threads|));
  }

  lemma WokenWorks(ts: seq<Thread>, woken: seq<Thread>, t: nat, th: Thread, n: nat)
    requires t < |ts| == |woken| == n && woken[t] == ts[t] && Sum(woken, WorkFn(n)) <= Sum(ts, WorkFn(n)) + 2 * n
    requires Work(th.pc, n) + 2 * n < Work(ts[t].pc, n)
    ensures Sum(woken[t := th], WorkFn(n)) < Sum(ts, WorkFn(n))
  {
    SumUpdate(woken, t, th, WorkFn(n));
  }

  lemma NotifyWorks(s: State, t: nat)
    requires t < |s.threads| && s.threads[t].pc.Notify?
    ensures |LockedStep(s, t).threads| == |s.threads| && WorkLeft(LockedStep(s, t)) < WorkLeft(s)
  {
    var ts, n, th, s' := s.threads, |s.threads|, s.threads[t].(pc := Depart), LockedStep(s, t);
    if s.arrived == n && !s.notified {
      assert s'.threads == WakeWaiters(ts)[t := th];
      WaitersWork(ts, WakeWaiters(ts), t, th, n);
    } else {
      assert s'.threads == ts[t := th];
      SumUpdate(ts, t, th, WorkFn(n));
    }
  }

  lemma WaitersWork(ts: seq<Thread>, woken: seq<Thread>, t: nat, th: Thread, n: nat)
    requires t < |ts| == n && ts[t].pc.Notify? && th.pc.Depart? && woken == WakeWaiters(ts)
    ensures |woken| == n && Sum(woken[t := th], WorkFn(n)) < Sum(ts, WorkFn(n))
  {
    assert woken[t] == ts[t];
    assert Work(th.pc, n) + 2 * n < Work(ts[t].pc, n);
    WakingCosts(ts, n);
    WokenWorks(ts, woken, t, th, n);
  }

  lemma ResetNotifyWorks(s: State, t: nat)
    requires t < |s.threads| && s.threads[t].pc.ResetNotify?
    ensures |LockedStep(s, t).threads| == |s.threads| && WorkLeft(LockedStep(s, t)) < WorkLeft(s)
  {
    var ts, n, th := s.threads, |s.threads|, s.threads[t].(pc := Unlock);
    WakingCosts(ts, n);
    WokenWorks(ts, WakeGate(ts), t, th, n);
    assert LockedStep(s, t).threads == WakeGate(ts)[t := th];
  }

  lemma LockedFrame(s: State, t: nat)
    requires t < |s.threads| && Inside(s.threads[t].pc) && !s.threads[t].pc.Notify? && !s.threads[t].pc.ResetNotify?
    ensures var ts, ts' := s.threads, LockedStep(s, t).threads;
      && |ts'| == |ts| && ts' == ts[t := ts'[t]] && ts'[t].begun == ts[t].begun
      && Work(ts'[t].pc, |ts|) < Work(ts[t].pc, |ts|)
  {
    match s.threads[t].pc
    case GateCheck =>
    case WaitCheck =>
    case Arrive =>
    case Depart =>
    case LastCheck =>
    case ResetArrived =>
    case _ =>
  }

  lemma LockedWorks(s: State, t: nat)
    requires t < |s.threads| && Inside(s.threads[t].pc)
    ensures |LockedStep(s, t).threads| == |s.threads| && WorkLeft(LockedStep(s, t)) < WorkLeft(s)
  {
    if s.threads[t].pc.Notify? {
      NotifyWorks(s, t);
    } else if s.threads[t].pc.ResetNotify? {
      ResetNotifyWorks(s, t);
    } else {
      LockedFrame(s, t);
      SumUpdate(s.threads, t, LockedStep(s, t).threads[t], WorkFn(|s.threads|));
    }
  }

  /** Every step without a new call uses up some of the work left. */
  lemma TickWorks(s: State, t: nat)
    requires Inv(s) && Step(s, Tick(t)) != s
    ensures |Step(s, Tick(t)).threads| == |s.threads| && WorkLeft(Step(s, Tick(t))) < WorkLeft(s)
  {
    assert Remembers(s, t);
    if Unlocked(s.threads[t].pc) { OpenWorks(s, t); } else { LockedWorks(s, t); }
  }

  lemma TickKeepsCalls(s: State, t: nat, u: nat)
    requires Inv(s) && u < |s.threads| == |Step(s, Tick(t)).threads|
    ensures Step(s, Tick(t)).threads[u].begun == s.threads[u].begun
  {
    if t < |s.threads| {
      assert Remembers(s, t);
      if Unlocked(s.threads[t].pc) {
        OpenKeepsCalls(s, t, u);
      } else if s.threads[t].pc.Notify? || s.threads[t].pc.ResetNotify? {
        NotifyKeepsCalls(s, t, u);
      } else if s.owner == Some(t) {
        LockedFrame(s, t);
      }
    }
  }

  lemma OpenKeepsCalls(s: State, t: nat, u: nat)
    requires t < |s.threads| && u < |s.threads| && Unlocked(s.threads[t].pc)
    ensures u < |OpenStep(s, t).threads| && OpenStep(s, t).threads[u].begun == s.threads[u].begun
  {
  }

  lemma NotifyKeepsCalls(s: State, t: nat, u: nat)
    requires t < |s.threads| && u < |s.threads| && (s.threads[t].pc.Notify? || s.threads[t].pc.ResetNotify?)
    ensures u < |LockedStep(s, t).threads| && LockedStep(s, t).threads[u].begun == s.threads[u].begun
  {
  }

  ghost predicate OnlyCallsAndTicks(actions: seq<Action>) {
    forall a :: a in actions ==> !a.Spurious?
  }

  /** Nobody can do anything more by itself. */
  ghost predicate Still(s: State) {
    forall t: nat :: Step(s, Tick(t)) == s
  }

  /** Left to themselves the threads come to a standstill. */
  lemma {:induction false} ComesToRest(s: State) returns (more: seq<Action>)
    requires Inv(s)
    ensures var s' := Run(s, more); Inv(s') && Still(s') && |s'.threads| == |s.threads|
    ensures forall u :: 0 <= u < |s.threads| ==> Run(s, more).threads[u].begun == s.threads[u].begun
    ensures OnlyCallsAndTicks(more)
    decreases WorkLeft(s)
  {
    if Still(s) {
      more := [];
    } else {
      var t: nat :| Step(s, Tick(t)) != s;
      var s' := Step(s, Tick(t));
      TickWorks(s, t);
      StepInv(s, Tick(t));
      SumBounds(s'.threads, WorkFn(|s'.threads|));
      var rest := ComesToRest(s');
      forall u | 0 <= u < |s.threads| ensures s'.threads[u].begun == s.threads[u].begun { TickKeepsCalls(s, t, u); }
      more := [Tick(t)] + rest;
    }
  }

  /** Then whoever is inside waits for somebody who is outside. */
  lemma StillWaits(s: State)
    requires Inv(s) && Still(s)
    ensures forall t :: 0 <= t < |s.threads| ==>
      s.threads[t].pc.Outside? || (s.threads[t].pc.WaitAsleep? && s.arrived < |s.threads|)
  {
    if s.owner.Some? {
      assert Remembers(s, s.owner.value);
      OwnerMoves(s, s.owner.value);
    }
    assert s.owner.None?;
    SumFull(s.threads, ArrFn(s.round));
    forall t | 0 <= t < |s.threads| ensures !s.threads[t].pc.GateAsleep? && Resting(s, t) {
      assert Remembers(s, t) && Step(s, Tick(t)) == s;
      if s.threads[t].pc.GateAsleep? { GateIsOpen(s); }
    }
  }

  ghost predicate Resting(s: State, t: nat)
    requires t < |s.threads|
  {
    s.threads[t].pc.Outside? || s.threads[t].pc.GateAsleep? || (s.threads[t].pc.WaitAsleep? && s.arrived < |s.threads|)
  }

  /** With nobody on the move the gate is open: a round in which somebody has departed has been reset. */
  lemma GateIsOpen(s: State)
    requires Inv(s) && Still(s) && s.owner.None?
    ensures |s.threads| == 0 || (s.arrived < |s.threads| && s.departed == 0)
  {
    forall t | 0 <= t < |s.threads| ensures s.arrived == |s.threads| ==> DepFn(s.round)(s.threads[t]) == 1 {
      assert Remembers(s, t) && Step(s, Tick(t)) == s;
      if s.arrived == |s.threads| {
        SumFull(s.threads, ArrFn(s.round));
        assert ArrFn(s.round)(s.threads[t]) == 1;
      }
    }
    SumFull(s.threads, ArrFn(s.round));
    SumFull(s.threads, DepFn(s.round));
    if s.arrived < |s.threads| { SumAllZero(s.threads, DepFn(s.round)); }
  }

  /** Everybody outside calls once. */
  lemma {:induction false} AllCall(s: State, k: nat) returns (calls: seq<Action>)
    requires Inv(s) && k <= |s.threads|
    ensures var s' := Run(s, calls);
      && Inv(s') && |s'.threads| == |s.threads|
      && forall t :: 0 <= t < |s.threads| ==>
           s'.threads[t].begun == s.threads[t].begun + if t >= k && s.threads[t].pc.Outside? then 1 else 0
    ensures OnlyCallsAndTicks(calls)
    decreases |s.threads| - k
  {
    if k == |s.threads| {
      calls := [];
    } else {
      var s' := Step(s, Call(k));
      StepInv(s, Call(k));
      var rest := AllCall(s', k + 1);
      calls := [Call(k)] + rest;
    }
  }

  /** All in the same call, and at a standstill: nobody is left inside. */
  lemma SameCallEnds(s: State, b: nat)
    requires Inv(s) && Still(s) && forall t :: 0 <= t < |s.threads| ==> s.threads[t].begun == b
    ensures forall t :: 0 <= t < |s.threads| ==> s.threads[t].pc.Outside?
  {
    StillWaits(s);
    SumFull(s.threads, ArrFn(s.round));
    forall t | 0 <= t < |s.threads| ensures s.threads[t].pc.Outside? {
      if !s.threads[t].pc.Outside? {
        assert Remembers(s, t);
        forall u | 0 <= u < |s.threads| ensures ArrFn(s.round)(s.threads[u]) == 1 { assert Remembers(s, u); }
      }
    }
  }

  /** When a thread waits for those outside, all are about to be in the same call. */
  lemma WaiterTellsCall(s: State, w: nat, t: nat)
    requires Inv(s) && Still(s) && w < |s.threads| && t < |s.threads| && s.threads[w].pc.WaitAsleep?
    ensures s.threads[t].begun + (if s.threads[t].pc.Outside? then 1 else 0) == s.threads[w].begun
  {
    StillWaits(s);
    assert Remembers(s, w) && Remembers(s, t);
  }

  ghost predicate AllOutside(s: State) {
    forall t :: 0 <= t < |s.threads| ==> s.threads[t].pc.Outside?
  }

  lemma RunConcat(s: State, xs: seq<Action>, ys: seq<Action>)
    ensures Run(s, xs + ys) == Run(Run(s, xs), ys)
    decreases |xs|
  {
    if xs == [] {
      assert xs + ys == ys;
    } else {
      assert (xs + ys)[0] == xs[0] && (xs + ys)[1..] == xs[1..] + ys;
      RunConcat(Step(s, xs[0]), xs[1..], ys);
    }
  }

  lemma CanLeave(s: State) returns (more: seq<Action>)
    requires Inv(s)
    ensures AllOutside(Run(s, more)) && |Run(s, more).threads| == |s.threads| && OnlyCallsAndTicks(more)
    ensures forall t :: 0 <= t < |s.threads| ==> Run(s, more).threads[t].begun <= s.threads[t].begun + 1
  {
    var first := ComesToRest(s);
    var s1 := Run(s, first);
    StillWaits(s1);
    if AllOutside(s1) {
      more := first;
    } else {
      var w: nat :| w < |s1.threads| && !s1.threads[w].pc.Outside?;
      var calls := AllCall(s1, 0);
      var s2 := Run(s1, calls);
      forall t | 0 <= t < |s2.threads| ensures s2.threads[t].begun == s1.threads[w].begun { WaiterTellsCall(s1, w, t); }
      var last := ComesToRest(s2);
      SameCallEnds(Run(s2, last), s1.threads[w].begun);
      more := first + (calls + last);
      RunConcat(s1, calls, last);
      RunConcat(s, first, calls + last);
    }
  }

  /** From whatever a run has led to, everybody can be brought out of the barrier, each of the threads
      calling at most once more, and no spurious wake-up is needed. */
  lemma EverybodyLeaves(participants: nat, actions: seq<Action>) returns (more: seq<Action>)
    ensures var s := Run(Init(participants), actions); var s' := Run(s, more);
      && AllOutside(s') && |s'.threads| == |s.threads| == participants && OnlyCallsAndTicks(more)
      && forall t :: 0 <= t < participants ==> s'.threads[t].begun <= s.threads[t].begun + 1
  {
    Reached(participants, actions);
    more := CanLeave(Run(Init(participants), actions));
  }

  /** With everybody outside, all are done with the same rounds. */
  lemma OutsideIsBetween(s: State)
    requires Inv(s) && AllOutside(s)
    ensures forall t :: 0 <= t < |s.threads| ==> s.threads[t].begun == s.threads[t].completed == s.round
  {
    if s.owner.Some? { OwnerIsInside(s, s.owner.value); }
    SumFull(s.threads, ArrFn(s.round));
    SumFull(s.threads, DepFn(s.round));
    forall t | 0 <= t < |s.threads| ensures s.threads[t].begun == s.threads[t].completed == s.round {
      assert Remembers(s, t);
      if s.threads[t].departures > s.round { AllDepart(s); }
    }
  }

  lemma OwnerIsInside(s: State, t: nat)
    requires Inv(s) && t < |s.threads| && s.owner == Some(t)
    ensures Inside(s.threads[t].pc)
  {
    assert Remembers(s, t);
  }

  lemma AllDepart(s: State)
    requires Inv(s) && AllOutside(s) && s.arrived == |s.threads|
    ensures forall u :: 0 <= u < |s.threads| ==> DepFn(s.round)(s.threads[u]) == 1
  {
    SumFull(s.threads, ArrFn(s.round));
    forall u | 0 <= u < |s.threads| ensures DepFn(s.round)(s.threads[u]) == 1 {
      assert Remembers(s, u) && ArrFn(s.round)(s.threads[u]) == 1;
    }
  }

  /** Whenever all are outside, all can call and complete one call more, with no spurious wake-up. */
  lemma AnotherRound(participants: nat, actions: seq<Action>) returns (more: seq<Action>)
    requires AllOutside(Run(Init(participants), actions))
    ensures var s := Run(Init(participants), actions); var s' := Run(s, more);
      && AllOutside(s') && |s'.threads| == |s.threads| == participants && OnlyCallsAndTicks(more)
      && forall t :: 0 <= t < participants ==>
           s'.threads[t].begun == s.threads[t].begun + 1 && s'.threads[t].completed == s.threads[t].completed + 1
  {
    Reached(participants, actions);
    var s := Run(Init(participants), actions);
    OutsideIsBetween(s);
    var calls := AllCall(s, 0);
    var last := ComesToRest(Run(s, calls));
    more := calls + last;
    RunConcat(s, calls, last);
    var s' := Run(s, more);
    SameCallEnds(s', s.round + 1);
    OutsideIsBetween(s');
  }

  // --- One thread at a time

  lemma RunMore(s: State, a: Action, more: seq<Action>)
    ensures Run(s, [a] + more) == Run(Step(s, a), more)
  {
    assert ([a] + more)[1..] == more;
  }

  /** `n` steps of thread `t`. */
  function Ticks(t: nat, n: nat): seq<Action> {
    if n == 0 then [] else [Tick(t)] + Ticks(t, n - 1)
  }

  lemma OneTick(s: State, t: nat, n: nat, s': State)
    requires s' == Step(s, Tick(t)) && n > 0
    ensures Run(s, Ticks(t, n)) == Run(s', Ticks(t, n - 1))
  {
    RunMore(s, Tick(t), Ticks(t, n - 1));
  }

  lemma TwoTicks(s: State, t: nat, s1: State, s2: State)
    requires s1 == Step(s, Tick(t)) && s2 == Step(s1, Tick(t))
    ensures Run(s, Ticks(t, 2)) == s2
  {
    OneTick(s, t, 2, s1);
    OneTick(s1, t, 1, s2);
  }

  lemma TakesMutex(s: State, t: nat, pc: Pc)
    requires t < |s.threads| && s.owner.None?
    requires (s.threads[t].pc.GateLock? && pc.GateCheck?) || (s.threads[t].pc.ArriveLock? && pc.Arrive?) ||
             (s.threads[t].pc.WaitRelock? && pc.WaitCheck?)
    ensures Step(s, Tick(t)) == s.(owner := Some(t), threads := s.threads[t := s.threads[t].(pc := pc)])
  {
  }

  lemma Arrives(s: State, t: nat)
    requires t < |s.threads| && s.owner == Some(t) && s.threads[t].pc.Arrive?
    ensures var th := s.threads[t];
      Step(s, Tick(t)) == s.(arrived := s.arrived + 1, threads := s.threads[t := th.(pc := WaitCheck, arrivals := th.arrivals + 1)])
  {
  }

  lemma FallsAsleep(s: State, t: nat)
    requires t < |s.threads| && s.owner == Some(t)
    requires (s.threads[t].pc.WaitCheck? && s.arrived != |s.threads|) || (s.threads[t].pc.GateCheck? && !GateOpen(s))
    ensures var asleep := if s.threads[t].pc.WaitCheck? then WaitAsleep else GateAsleep;
      Step(s, Tick(t)) == s.(owner := None, threads := s.threads[t := s.threads[t].(pc := asleep)])
  {
  }

  predicate GateOpen(s: State) {
    s.arrived < |s.threads| && s.departed == 0
  }

  lemma ArriveAlone(s: State, t: nat)
    requires t < |s.threads| && s.threads[t].pc.ArriveLock? && s.owner.None? && s.arrived + 1 < |s.threads|
    ensures var th := s.threads[t];
      Run(s, Ticks(t, 3)) ==
        s.(arrived := s.arrived + 1, threads := s.threads[t := th.(pc := WaitAsleep, arrivals := th.arrivals + 1)])
  {
    var th := s.threads[t];
    var s1 := s.(owner := Some(t), threads := s.threads[t := th.(pc := Arrive)]);
    var s2 := s1.(arrived := s.arrived + 1, threads := s.threads[t := th.(pc := WaitCheck, arrivals := th.arrivals + 1)]);
    TakesMutex(s, t, Arrive);
    Arrives(s1, t);
    assert s1.threads[t := th.(pc := WaitCheck, arrivals := th.arrivals + 1)] == s2.threads;
    FallsAsleep(s2, t);
    ThreeTicks(s, t, s1, s2, Step(s2, Tick(t)));
    assert s2.threads[t := th.(pc := WaitAsleep, arrivals := th.arrivals + 1)] ==
           s.threads[t := th.(pc := WaitAsleep, arrivals := th.arrivals + 1)];
  }

  lemma ThreeTicks(s: State, t: nat, s1: State, s2: State, s3: State)
    requires s1 == Step(s, Tick(t)) && s2 == Step(s1, Tick(t)) && s3 == Step(s2, Tick(t))
    ensures Run(s, Ticks(t, 3)) == s3
  {
    OneTick(s, t, 3, s1);
    TwoTicks(s1, t, s2, s3);
  }

  lemma GateAlone(s: State, t: nat)
    requires t < |s.threads| && s.threads[t].pc.GateLock? && s.owner.None? && !GateOpen(s)
    ensures Run(s, Ticks(t, 2)) == s.(threads := s.threads[t := s.threads[t].(pc := GateAsleep)])
  {
    var th := s.threads[t];
    var s1 := s.(owner := Some(t), threads := s.threads[t := th.(pc := GateCheck)]);
    TakesMutex(s, t, GateCheck);
    FallsAsleep(s1, t);
    TwoTicks(s, t, s1, Step(s1, Tick(t)));
    assert s1.threads[t := th.(pc := GateAsleep)] == s.threads[t := th.(pc := GateAsleep)];
  }

  lemma ClosedGate(s: State, t: nat, n: nat)
    requires t < |s.threads| && s.owner.None? && !GateOpen(s) && n == 3
    requires if s.arrived >= |s.threads| then s.threads[t].pc.GateArrived? else s.threads[t].pc.GateDeparted?
    ensures Run(s, Ticks(t, n)) == s.(threads := s.threads[t := s.threads[t].(pc := GateAsleep)])
  {
    var s1 := s.(threads := s.threads[t := s.threads[t].(pc := GateLock)]);
    OneTick(s, t, 3, s1);
    GateAlone(s1, t);
    assert s1.threads[t := s.threads[t].(pc := GateAsleep)] == s.threads[t := s.threads[t].(pc := GateAsleep)];
  }

  lemma OpenGate(s: State, t: nat)
    requires t < |s.threads| && s.owner.None? && GateOpen(s) && s.threads[t].pc.GateDeparted? && s.arrived + 1 < |s.threads|
    ensures var th := s.threads[t];
      Run(s, Ticks(t, 4)) ==
        s.(arrived := s.arrived + 1, threads := s.threads[t := th.(pc := WaitAsleep, arrivals := th.arrivals + 1)])
  {
    var th := s.threads[t];
    var s1 := s.(threads := s.threads[t := th.(pc := ArriveLock)]);
    OneTick(s, t, 4, s1);
    ArriveAlone(s1, t);
    assert s1.threads[t := th.(pc := WaitAsleep, arrivals := th.arrivals + 1)] ==
           s.threads[t := th.(pc := WaitAsleep, arrivals := th.arrivals + 1)];
  }

  /** A thread that has been woken at the gate and finds it open lets the mutex go, and takes it again to arrive. */
  lemma LeavesGate(s: State, t: nat)
    requires t < |s.threads| && s.threads[t].pc.GateCheck? && s.owner == Some(t) && GateOpen(s)
    ensures Run(s, Ticks(t, 2)) == s.(owner := None, threads := s.threads[t := s.threads[t].(pc := ArriveLock)])
  {
    var th := s.threads[t];
    var s1 := s.(threads := s.threads[t := th.(pc := GateUnlock)]);
    assert s1 == Step(s, Tick(t));
    TwoTicks(s, t, s1, Step(s1, Tick(t)));
    assert s1.threads[t := th.(pc := ArriveLock)] == s.threads[t := th.(pc := ArriveLock)];
  }

  /** How many steps a thread at the gate takes, alone, before it sleeps. */
  function StepsToSleep(s: State): nat {
    if GateOpen(s) then 5 else if s.arrived >= |s.threads| then 3 else 4
  }

  /** Thread `t`, recorded as `th`, asleep: at the wait and counted if the gate was open, else at the gate. */
  function Slept(s: State, t: nat, th: Thread): State
    requires t < |s.threads|
  {
    if GateOpen(s) then
      s.(arrived := s.arrived + 1, threads := s.threads[t := th.(pc := WaitAsleep, arrivals := th.arrivals + 1)])
    else s.(threads := s.threads[t := th.(pc := GateAsleep)])
  }

  lemma SleptSame(s: State, s1: State, t: nat, th: Thread, pc: Pc)
    requires t < |s.threads| && s1 == s.(threads := s.threads[t := th.(pc := pc)])
    ensures Slept(s1, t, s1.threads[t]) == Slept(s, t, th)
  {
    assert s1.threads[t := th.(pc := GateAsleep)] == s.threads[t := th.(pc := GateAsleep)];
    assert s1.threads[t := th.(pc := WaitAsleep, arrivals := th.arrivals + 1)] ==
           s.threads[t := th.(pc := WaitAsleep, arrivals := th.arrivals + 1)];
  }

  lemma FromDeparted(s: State, t: nat)
    requires t < |s.threads| && s.threads[t].pc.GateDeparted? && s.owner.None? && s.arrived < |s.threads|
    requires GateOpen(s) ==> s.arrived + 1 < |s.threads|
    ensures Run(s, Ticks(t, StepsToSleep(s) - 1)) == Slept(s, t, s.threads[t])
  {
    if s.departed != 0 { ClosedGate(s, t, 3); } else { OpenGate(s, t); }
  }

  lemma FromTheGate(s: State, t: nat)
    requires t < |s.threads| && s.threads[t].pc.GateArrived? && s.owner.None? && (GateOpen(s) ==> s.arrived + 1 < |s.threads|)
    ensures Run(s, Ticks(t, StepsToSleep(s))) == Slept(s, t, s.threads[t])
  {
    if s.arrived >= |s.threads| {
      ClosedGate(s, t, 3);
    } else {
      var s1 := s.(threads := s.threads[t := s.threads[t].(pc := GateDeparted)]);
      OneTick(s, t, StepsToSleep(s), s1);
      FromDeparted(s1, t);
      SleptSame(s, s1, t, s.threads[t], GateDeparted);
    }
  }

  lemma Calling(s: State, t: nat, s1: State, more: seq<Action>)
    requires t < |s.threads| && s.threads[t].pc.Outside?
    requires s1 == s.(threads := s.threads[t := s.threads[t].(begun := s.threads[t].begun + 1).(pc := GateArrived)])
    ensures Run(s, [Call(t)] + more) == Run(s1, more)
  {
    RunMore(s, Call(t), more);
  }

  /** A call that is left alone while nobody owns the mutex: at an open gate it takes the mutex once, arrives,
      and, unless it is the last, sleeps at the wait; at a closed gate it takes the mutex once and sleeps
      there, uncounted. */
  lemma CallAlone(s: State, t: nat)
    requires t < |s.threads| && s.threads[t].pc.Outside? && s.owner.None? && (GateOpen(s) ==> s.arrived + 1 < |s.threads|)
    ensures Run(s, [Call(t)] + Ticks(t, StepsToSleep(s))) ==
      Slept(s, t, s.threads[t].(begun := s.threads[t].begun + 1))
  {
    var th := s.threads[t].(begun := s.threads[t].begun + 1);
    var s1 := s.(threads := s.threads[t := th.(pc := GateArrived)]);
    Calling(s, t, s1, Ticks(t, StepsToSleep(s)));
    FromTheGate(s1, t);
    SleptSame(s, s1, t, th, GateArrived);
  }

  /** A thread woken for no reason, whose condition does not hold, finds the mutex free and goes back to
      sleep: nothing has changed. */
  lemma SpuriousWakeUp(s: State, t: nat, more: seq<Action>)
    requires t < |s.threads| && s.owner.None? && more == [Spurious(t)] + Ticks(t, 2)
    requires
      || (s.threads[t].pc.WaitAsleep? && s.arrived != |s.threads|)
      || (s.threads[t].pc.GateAsleep? && (s.arrived >= |s.threads| || s.departed != 0))
    ensures Run(s, more) == s
  {
    var s1 := Step(s, Spurious(t));
    RunMore(s, Spurious(t), Ticks(t, 2));
    if s.threads[t].pc.GateAsleep? {
      GateAlone(s1, t);
      assert s1.threads[t := s.threads[t]] == s.threads;
    } else {
      var s2 := s1.(owner := Some(t), threads := s1.threads[t := s1.threads[t].(pc := WaitCheck)]);
      TakesMutex(s1, t, WaitCheck);
      FallsAsleep(s2, t);
      TwoTicks(s1, t, s2, Step(s2, Tick(t)));
      assert s2.threads[t := s.threads[t]] == s.threads;
    }
  }

  // --- Every call is completed once

  /** Thread `t`, being outside, calls ArriveAndWait. */
  predicate Enters(s: State, a: Action, t: nat) {
    a == Call(t) && t < |s.threads| && s.threads[t].pc == Outside
  }

  /** How often it does. */
  function Calls(s: State, actions: seq<Action>, t: nat): nat
    decreases |actions|
  {
    if actions == [] then 0
    else if Enters(s, actions[0], t) then Calls(Step(s, actions[0]), actions[1..], t) + 1
    else Calls(Step(s, actions[0]), actions[1..], t)
  }

  lemma StepBegins(s: State, a: Action, t: nat)
    requires Inv(s) && t < |s.threads| == |Step(s, a).threads|
    ensures Step(s, a).threads[t].begun == s.threads[t].begun + if Enters(s, a, t) then 1 else 0
  {
    if a.Tick? { TickKeepsCalls(s, a.t, t); }
  }

  ghost predicate Begins(s: State, actions: seq<Action>, end: State, t: nat)
    requires t < |s.threads|
  {
    t < |end.threads| && end.threads[t].begun == s.threads[t].begun + Calls(s, actions, t)
  }

  lemma {:induction false} CallsBegin(s: State, actions: seq<Action>, t: nat)
    requires Inv(s) && t < |s.threads|
    ensures Begins(s, actions, Run(s, actions), t)
    decreases |actions|
  {
    if actions != [] {
      var s' := Step(s, actions[0]);
      StepInv(s, actions[0]);
      StepKeepsThreads(s, actions[0]);
      StepBegins(s, actions[0], t);
      CallsBegin(s', actions[1..], t);
      BeginsFirst(s, actions, s', Run(s', actions[1..]), t);
    }
  }

  lemma BeginsFirst(s: State, actions: seq<Action>, s': State, end: State, t: nat)
    requires actions != [] && s' == Step(s, actions[0]) && t < |s.threads| == |s'.threads|
    requires s'.threads[t].begun == s.threads[t].begun + if Enters(s, actions[0], t) then 1 else 0
    requires Begins(s', actions[1..], end, t)
    ensures Begins(s, actions, end, t)
  {
  }

  /** In every run a thread has completed each of its calls, up to the one it is still inside. */
  lemma EachCallCompletesOnce(participants: nat, actions: seq<Action>, t: nat)
    requires t < participants
    ensures var s := Run(Init(participants), actions);
      && |s.threads| == participants
      && Calls(Init(participants), actions, t) == s.threads[t].completed + if s.threads[t].pc.Outside? then 0 else 1
  {
    Reached(participants, actions);
    InitInv(participants);
    CallsBegin(Init(participants), actions, t);
    assert Remembers(Run(Init(participants), actions), t);
  }

  // --- The barrier object

  class Barrier {
    var arrived: nat
    var departed: nat
    var notified: bool
    var owner: Option<nat>
    var threads: seq<Thread>
    // auxiliary
    var round: nat

    ghost function View(): State reads this {
      State(arrived, departed, notified, owner, threads, round)
    }

    constructor (participants: nat)
      ensures View() == Init(participants) && Inv(View())
    {
      arrived, departed, notified, owner := 0, 0, false, None;
      threads, round := seq(participants, _ => Thread(Outside, 0, 0, 0, 0)), 0;
      new;
      InitInv(participants);
    }

    method Update(t: nat, th: Thread)
      requires t < |threads|
      modifies this`threads
      ensures View() == Put(old(View()), t, th)
    {
      threads := threads[t := th];
    }

    /** The next step of a thread that has to take the mutex, or looks at the counters without it. */
    method Approach(t: nat)
      requires Inv(View()) && t < |threads| && Unlocked(threads[t].pc)
      modifies this
      ensures View() == OpenStep(old(View()), t) && Inv(View())
    {
      TickInv(View(), t);
      var th := threads[t];
      if th.pc.GateArrived? {
        Update(t, th.(pc := if arrived >= |threads| then GateLock else GateDeparted));
      } else if th.pc.GateDeparted? {
        Update(t, th.(pc := if departed != 0 then GateLock else ArriveLock));
      } else if owner.None? {
        owner := Some(t);
        Update(t, th.(pc := if th.pc.GateLock? then GateCheck else if th.pc.ArriveLock? then Arrive else WaitCheck));
      }
    }

    /** The next step of the owner of the mutex. */
    method Proceed(t: nat)
      requires Inv(View()) && t < |threads| && owner == Some(t)
      modifies this
      ensures View() == LockedStep(old(View()), t) && Inv(View())
    {
      LockedStepInv(View(), t);
      var pc := threads[t].pc;
      if pc.GateCheck? || pc.GateUnlock? || pc.Arrive? || pc.WaitCheck? || pc.Unlock? {
        ComeOrGo(t);
      } else {
        PassThrough(t);
      }
    }

    /** The gate, the arrival, the wait and the way out. */
    method ComeOrGo(t: nat)
      requires t < |threads| && owner == Some(t)
      requires var pc := threads[t].pc; pc.GateCheck? || pc.GateUnlock? || pc.Arrive? || pc.WaitCheck? || pc.Unlock?
      modifies this
      ensures View() == LockedStep(old(View()), t)
    {
      var th := threads[t];
      if th.pc.GateCheck? {
        if arrived < |threads| && departed == 0 {
          Update(t, th.(pc := GateUnlock));
        } else {
          owner := None;
          Update(t, th.(pc := GateAsleep));
        }
      } else if th.pc.GateUnlock? {
        owner := None;
        Update(t, th.(pc := ArriveLock));
      } else if th.pc.Arrive? {
        arrived := arrived + 1;
        Update(t, th.(pc := WaitCheck, arrivals := th.arrivals + 1));
      } else if th.pc.WaitCheck? {
        if arrived == |threads| {
          Update(t, th.(pc := Notify));
        } else {
          owner := None;
          Update(t, th.(pc := WaitAsleep));
        }
      } else {
        owner := None;
        Update(t, th.(pc := Outside, completed := th.completed + 1));
      }
    }

    /** From the notification to the reset. */
    method PassThrough(t: nat)
      requires t < |threads| && owner == Some(t)
      requires var pc := threads[t].pc; !(pc.GateCheck? || pc.GateUnlock? || pc.Arrive? || pc.WaitCheck? || pc.Unlock?)
      modifies this
      ensures View() == LockedStep(old(View()), t)
    {
      var th := threads[t];
      if th.pc.Notify? {
        if arrived == |threads| && !notified { notified, threads := true, WakeWaiters(threads); }
        Update(t, threads[t].(pc := Depart));
      } else if th.pc.Depart? {
        departed := departed + 1;
        Update(t, th.(pc := LastCheck, departures := th.departures + 1));
      } else if th.pc.LastCheck? {
        Update(t, th.(pc := if departed == arrived then ResetArrived else Unlock));
      } else if th.pc.ResetArrived? {
        arrived, round := 0, round + 1;
        Update(t, th.(pc := ResetDeparted));
      } else if th.pc.ResetDeparted? {
        departed := 0;
        Update(t, th.(pc := ResetNotify));
      } else if th.pc.ResetNotify? {
        notified, threads := false, WakeGate(threads);
        Update(t, threads[t].(pc := Unlock));
      }
    }

    method Perform(a: Action)
      requires Inv(View())
      modifies this
      ensures View() == Step(old(View()), a) && Inv(View())
    {
      StepInv(View(), a);
      if a.t < |threads| {
        var th := threads[a.t];
        if a.Call? {
          if th.pc.Outside? { Update(a.t, th.(pc := GateArrived, begun := th.begun + 1)); }
        } else if a.Spurious? {
          if th.pc.GateAsleep? {
            Update(a.t, th.(pc := GateLock));
          } else if th.pc.WaitAsleep? {
            Update(a.t, th.(pc := WaitRelock));
          }
        } else if Unlocked(th.pc) {
          Approach(a.t);
        } else if owner == Some(a.t) {
          Proceed(a.t);
        }
      }
    }

    /** Any schedule: what the theorems say of runs holds of the object. */
    method Execute(actions: seq<Action>)
      requires Inv(View())
      modifies this
      ensures View() == Run(old(View()), actions) && Inv(View())
    {
      var i := 0;
      while i < |actions|
        invariant i <= |actions|
        invariant Inv(View()) && Run(View(), actions[i..]) == Run(old(View()), actions)
      {
        assert actions[i..][0] == actions[i] && actions[i..][1..] == actions[i + 1..];
        Perform(actions[i]);
        i := i + 1;
      }
    }
  }
}
