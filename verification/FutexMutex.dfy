/** The three-state futex mutex (tasks/mutex/mutex/mutex.hpp).

    Any number of threads lock and unlock again and again; one action is one atomic operation or one
    futex call, memory is sequentially consistent. Wait puts a thread to sleep only if the word still
    has the value it names, atomically; a sleeper may wake for no reason; WakeOne wakes one sleeper of
    the scheduler's choice, if there is any. */
module FutexMutex {
  import opened Counting

  const UNLOCKED: nat := 0
  const LOCKED: nat := 1
  const SLEEPING: nat := 2

  /** Where a thread stands. */
  datatype Pc =
    | Idle
    | FastLock     // Cmpxchg(Unlocked, Locked)
    | Mark         // Cmpxchg(Locked, Sleeping)
    | Wait         // futex wait for Sleeping to change
    | Asleep
    | SlowLock     // Cmpxchg(Unlocked, Sleeping)
    | Held
    | Wake         // WakeOne

  datatype State = State(word: nat, threads: seq<Pc>)

  datatype Action =
    | Lock(t: nat)
    | Unlock(t: nat)
    | Tick(t: nat, sleeper: nat)  // `sleeper` is whom a WakeOne wakes
    | Spurious(t: nat)

  function Init(n: nat): State {
    State(UNLOCKED, seq(n, _ => Idle))
  }

  // --- The operations, one atomic step at a time

  function Goto(s: State, t: nat, pc: Pc): State
    requires t < |s.threads|
  {
    s.(threads := s.threads[t := pc])
  }

  /** The word after Cmpxchg; its value before is the result. */
  function Exchanged(word: nat, expected: nat, desired: nat): nat {
    if word == expected then desired else word
  }

  function Step(s: State, a: Action): State {
    if a.t >= |s.threads| then s else
    var pc := s.threads[a.t];
    match a
    case Lock(t) => if pc.Idle? then Goto(s, t, FastLock) else s
    case Unlock(t) =>
      if pc.Held? then Goto(s.(word := UNLOCKED), t, if s.word != LOCKED then Wake else Idle) else s
    case Spurious(t) => if pc.Asleep? then Goto(s, t, SlowLock) else s
    case Tick(t, sleeper) => if pc.Wake? then WakeStep(s, t, sleeper) else LockStep(s, t)
  }

  function LockStep(s: State, t: nat): State
    requires t < |s.threads|
  {
    match s.threads[t]
    case FastLock =>
      var s' := s.(word := Exchanged(s.word, UNLOCKED, LOCKED));
      if s.word == UNLOCKED then Goto(s', t, Held) else Goto(s', t, if s.word == SLEEPING then Wait else Mark)
    case Mark =>
      Goto(s.(word := Exchanged(s.word, LOCKED, SLEEPING)), t, if s.word != UNLOCKED then Wait else SlowLock)
    case Wait => Goto(s, t, if s.word == SLEEPING then Asleep else SlowLock)
    case SlowLock =>
      var s' := s.(word := Exchanged(s.word, UNLOCKED, SLEEPING));
      if s.word == UNLOCKED then Goto(s', t, Held) else Goto(s', t, if s.word == SLEEPING then Wait else Mark)
    case _ => s
  }

  predicate SomebodySleeps(s: State) {
    exists u :: 0 <= u < |s.threads| && s.threads[u].Asleep?
  }

  function WakeStep(s: State, t: nat, sleeper: nat): State
    requires t < |s.threads| && s.threads[t].Wake?
  {
    if sleeper < |s.threads| && s.threads[sleeper].Asleep? then Goto(Goto(s, sleeper, SlowLock), t, Idle)
    else if SomebodySleeps(s) then s
    else Goto(s, t, Idle)
  }

  function Run(s: State, actions: seq<Action>): State
    decreases |actions|
  {
    if actions == [] then s else Run(Step(s, actions[0]), actions[1..])
  }

  // --- The invariant

  ghost function Holds(pc: Pc): int { if pc.Held? then 1 else 0 }

  ghost function HoldsFn(): Pc -> int { (pc: Pc) => Holds(pc) }

  /** Awake, and bound to look at the word again before it can sleep or leave. */
  predicate InSlowPath(pc: Pc) {
    pc.Mark? || pc.Wait? || pc.SlowLock?
  }

  /** The word is Unlocked exactly while nobody holds the mutex, and never two threads hold it. */
  ghost predicate OneHolder(s: State) {
    s.word <= SLEEPING && Sum(s.threads, HoldsFn()) == if s.word == UNLOCKED then 0 else 1
  }

  predicate SomebodyLooks(s: State) {
    exists u :: 0 <= u < |s.threads| && (InSlowPath(s.threads[u]) || s.threads[u].Wake?)
  }

  /** No wake-up is lost: a sleeper is announced in the word, or an unlocker still owes a WakeOne, or
      another thread is awake in the slow path. */
  ghost predicate Announced(s: State) {
    SomebodySleeps(s) ==> s.word == SLEEPING || SomebodyLooks(s)
  }

  ghost predicate Inv(s: State) {
    OneHolder(s) && Announced(s)
  }

  // --- Every step keeps the invariant

  lemma HoldsMove(ts: seq<Pc>, t: nat, pc: Pc)
    requires t < |ts|
    ensures Sum(ts[t := pc], HoldsFn()) == Sum(ts, HoldsFn()) - Holds(ts[t]) + Holds(pc)
  {
    SumUpdate(ts, t, pc, HoldsFn());
  }

  lemma HolderLocks(s: State, t: nat)
    requires OneHolder(s) && t < |s.threads| && s.threads[t].Held?
    ensures s.word != UNLOCKED && forall u :: 0 <= u < |s.threads| && s.threads[u].Held? ==> u == t
  {
    SumBounds(s.threads, HoldsFn());
    forall u | 0 <= u < |s.threads| && s.threads[u].Held? ensures u == t {
      if u < t { SumTwo(s.threads, u, t, HoldsFn()); } else if t < u { SumTwo(s.threads, t, u, HoldsFn()); }
    }
  }

  /** A step of one thread: a sleeper or a looker among the others stays one. */
  lemma AnnouncedKept(s: State, s': State, t: nat)
    requires Announced(s) && t < |s.threads| == |s'.threads|
    requires forall u :: 0 <= u < |s.threads| && u != t ==> s'.threads[u] == s.threads[u]
    requires s'.threads[t].Asleep? ==> s.threads[t].Asleep? || s'.word == SLEEPING
    requires s.word == SLEEPING ==> s'.word == SLEEPING || s'.threads[t].Wake?
    requires InSlowPath(s.threads[t]) || s.threads[t].Wake? ==> s'.word == SLEEPING || InSlowPath(s'.threads[t]) || s'.threads[t].Wake?
    ensures Announced(s')
  {
    if SomebodySleeps(s') && s'.word != SLEEPING {
      var u :| 0 <= u < |s'.threads| && s'.threads[u].Asleep?;
      assert s.threads[u].Asleep? && SomebodySleeps(s);
      if s.word == SLEEPING {
        assert s'.threads[t].Wake?;
      } else {
        var v :| 0 <= v < |s.threads| && (InSlowPath(s.threads[v]) || s.threads[v].Wake?);
        assert InSlowPath(s'.threads[v]) || s'.threads[v].Wake?;
      }
    }
  }

  lemma LockStepInv(s: State, t: nat)
    requires Inv(s) && t < |s.threads| && !s.threads[t].Wake?
    ensures Inv(LockStep(s, t))
  {
    var s' := LockStep(s, t);
    HoldsMove(s.threads, t, s'.threads[t]);
    assert s'.threads == s.threads[t := s'.threads[t]];
    AnnouncedKept(s, s', t);
  }

  lemma WakeStepInv(s: State, t: nat, sleeper: nat)
    requires Inv(s) && t < |s.threads| && s.threads[t].Wake?
    ensures Inv(WakeStep(s, t, sleeper))
  {
    var s' := WakeStep(s, t, sleeper);
    if sleeper < |s.threads| && s.threads[sleeper].Asleep? {
      var s1 := Goto(s, sleeper, SlowLock);
      HoldsMove(s.threads, sleeper, SlowLock);
      HoldsMove(s1.threads, t, Idle);
      assert InSlowPath(s'.threads[sleeper]);
    } else if !SomebodySleeps(s) {
      HoldsMove(s.threads, t, Idle);
      forall u | 0 <= u < |s'.threads| ensures !s'.threads[u].Asleep? {}
    }
  }

  lemma StepInv(s: State, a: Action)
    requires Inv(s)
    ensures Inv(Step(s, a))
  {
    if a.t < |s.threads| {
      var t, s' := a.t, Step(s, a);
      if !a.Tick? {
        HoldsMove(s.threads, t, s'.threads[t]);
        assert s'.threads == s.threads[t := s'.threads[t]];
        if s.threads[t].Held? { HolderLocks(s, t); }
        AnnouncedKept(s, s', t);
      } else if s.threads[t].Wake? {
        WakeStepInv(s, t, a.sleeper);
      } else {
        LockStepInv(s, t);
      }
    }
  }

  // --- Every run

  lemma {:induction false} RunInv(s: State, actions: seq<Action>)
    requires Inv(s)
    ensures Inv(Run(s, actions))
    decreases |actions|
  {
    if actions != [] {
      StepInv(s, actions[0]);
      RunInv(Step(s, actions[0]), actions[1..]);
    }
  }

  lemma InitInv(n: nat)
    ensures Inv(Init(n))
  {
    SumAllZero(Init(n).threads, HoldsFn());
  }

  /** In every run: two threads never hold the mutex at once, and while one does the word says so. */
  lemma MutualExclusion(n: nat, actions: seq<Action>, t: nat, u: nat)
    requires var s := Run(Init(n), actions); t < |s.threads| && u < |s.threads| && s.threads[t].Held? && s.threads[u].Held?
    ensures t == u && Run(Init(n), actions).word in {LOCKED, SLEEPING}
  {
    InitInv(n);
    RunInv(Init(n), actions);
    HolderLocks(Run(Init(n), actions), t);
  }

  /** Thread `t` is awake and answers for the sleepers: it holds a mutex marked Sleeping, or owes a
      WakeOne, or is in the slow path. */
  predicate AnswersForSleepers(s: State, t: nat) {
    t < |s.threads| && ((s.threads[t].Held? && s.word == SLEEPING) || s.threads[t].Wake? || InSlowPath(s.threads[t]))
  }

  /** In every run, whenever a thread sleeps, some thread that is able to step answers for it: its next
      step, here with `t` as the sleeper a WakeOne would choose, moves it on. */
  lemma NoLostWakeUp(n: nat, actions: seq<Action>, t: nat) returns (u: nat)
    requires var s := Run(Init(n), actions); t < |s.threads| && s.threads[t].Asleep?
    ensures AnswersForSleepers(Run(Init(n), actions), u)
    ensures MovesOn(Run(Init(n), actions), u, if Run(Init(n), actions).threads[u].Held? then Unlock(u) else Tick(u, t))
  {
    InitInv(n);
    RunInv(Init(n), actions);
    u := LookerOrHolder(Run(Init(n), actions), t);
  }

  predicate MovesOn(s: State, t: nat, a: Action) {
    a.t == t && t < |s.threads| == |Step(s, a).threads| && Step(s, a).threads[t] != s.threads[t]
  }

  lemma LookerOrHolder(s: State, t: nat) returns (u: nat)
    requires Inv(s) && t < |s.threads| && s.threads[t].Asleep?
    ensures AnswersForSleepers(s, u)
  {
    assert SomebodySleeps(s);
    if s.word == SLEEPING {
      u := SumWitness(s.threads, HoldsFn());
    } else {
      var v: nat :| v < |s.threads| && (InSlowPath(s.threads[v]) || s.threads[v].Wake?);
      u := v;
    }
  }

  /** So when all threads are idle or asleep, none is asleep, and the mutex is free. */
  lemma NobodyIsLeftAsleep(n: nat, actions: seq<Action>)
    requires Still(Run(Init(n), actions))
    ensures var s := Run(Init(n), actions); s.word == UNLOCKED && forall t :: 0 <= t < |s.threads| ==> s.threads[t].Idle?
  {
    InitInv(n);
    RunInv(Init(n), actions);
    var s := Run(Init(n), actions);
    SumAllZero(s.threads, HoldsFn());
    assert s.word == UNLOCKED && !SomebodyLooks(s);
    assert !SomebodySleeps(s);
  }

  ghost predicate Still(s: State) {
    forall t :: 0 <= t < |s.threads| ==> s.threads[t].Idle? || s.threads[t].Asleep?
  }

  // --- Everybody gets the mutex

  ghost predicate AllIdle(s: State) {
    forall t :: 0 <= t < |s.threads| ==> s.threads[t].Idle?
  }

  /** An upper bound of the steps a thread needs, if it is run when that helps. */
  ghost function Steps(pc: Pc): int {
    match pc
    case Idle => 0
    case Wake => 1
    case Held => 2
    case SlowLock => 3
    case FastLock => 3
    case Asleep => 3
    case _ => 4
  }

  ghost function StepsFn(): Pc -> int { (pc: Pc) => Steps(pc) }

  lemma StepsMove(ts: seq<Pc>, t: nat, pc: Pc)
    requires t < |ts|
    ensures Sum(ts[t := pc], StepsFn()) == Sum(ts, StepsFn()) - Steps(ts[t]) + Steps(pc)
  {
    SumUpdate(ts, t, pc, StepsFn());
  }

  /** A WakeOne wakes a sleeper if there is one. */
  lemma WakeHelps(s: State, t: nat) returns (a: Action)
    requires t < |s.threads| && s.threads[t].Wake?
    ensures a.Tick? && |Step(s, a).threads| == |s.threads|
    ensures Sum(Step(s, a).threads, StepsFn()) < Sum(s.threads, StepsFn())
  {
    if SomebodySleeps(s) {
      var u :| 0 <= u < |s.threads| && s.threads[u].Asleep?;
      a := Tick(t, u);
      StepsMove(s.threads, u, SlowLock);
      StepsMove(s.threads[u := SlowLock], t, Idle);
    } else {
      a := Tick(t, 0);
      StepsMove(s.threads, t, Idle);
    }
  }

  /** Unless all are idle, some step brings them closer to it. */
  lemma SomethingHelps(s: State) returns (a: Action)
    requires Inv(s) && !AllIdle(s)
    ensures a.Tick? || a.Unlock?
    ensures |Step(s, a).threads| == |s.threads| && Sum(Step(s, a).threads, StepsFn()) < Sum(s.threads, StepsFn())
  {
    if exists t :: 0 <= t < |s.threads| && s.threads[t].Wake? {
      var t: nat :| t < |s.threads| && s.threads[t].Wake?;
      a := WakeHelps(s, t);
    } else if exists t :: 0 <= t < |s.threads| && s.threads[t].Held? {
      var t: nat :| t < |s.threads| && s.threads[t].Held?;
      a := Unlock(t);
      StepsMove(s.threads, t, Step(s, a).threads[t]);
    } else {
      SumAllZero(s.threads, HoldsFn());
      var t := SomebodyTries(s);
      a := Tick(t, 0);
      TryHelps(s, t);
    }
  }

  lemma TryHelps(s: State, t: nat)
    requires t < |s.threads| && s.word == UNLOCKED && (s.threads[t].FastLock? || InSlowPath(s.threads[t]))
    ensures var s' := Step(s, Tick(t, 0));
      |s'.threads| == |s.threads| && Sum(s'.threads, StepsFn()) < Sum(s.threads, StepsFn())
  {
    StepsMove(s.threads, t, Step(s, Tick(t, 0)).threads[t]);
  }

  lemma SomebodyTries(s: State) returns (t: nat)
    requires Inv(s) && !AllIdle(s) && s.word == UNLOCKED
    requires forall u :: 0 <= u < |s.threads| ==> !s.threads[u].Wake? && !s.threads[u].Held?
    ensures t < |s.threads| && (s.threads[t].FastLock? || InSlowPath(s.threads[t]))
  {
    t :| t < |s.threads| && !s.threads[t].Idle?;
    if s.threads[t].Asleep? {
      assert SomebodySleeps(s);
      t :| t < |s.threads| && InSlowPath(s.threads[t]);
    }
  }

  lemma {:induction false} CanFinish(s: State) returns (more: seq<Action>)
    requires Inv(s)
    ensures AllIdle(Run(s, more)) && forall a :: a in more ==> a.Tick? || a.Unlock?
    decreases Sum(s.threads, StepsFn())
  {
    if AllIdle(s) {
      more := [];
    } else {
      var a := SomethingHelps(s);
      StepInv(s, a);
      SumBounds(Step(s, a).threads, StepsFn());
      var rest := CanFinish(Step(s, a));
      more := [a] + rest;
    }
  }

  /** Inside Lock. */
  predicate Locking(pc: Pc) {
    !pc.Idle? && !pc.Wake? && !pc.Held?
  }

  /** At some point of the run thread `t` holds the mutex. */
  ghost predicate GetsIn(s: State, actions: seq<Action>, t: nat)
    decreases |actions|
  {
    (t < |s.threads| && s.threads[t].Held?) || (actions != [] && GetsIn(Step(s, actions[0]), actions[1..], t))
  }

  lemma {:induction false} LockerGetsIn(s: State, actions: seq<Action>, t: nat)
    requires t < |s.threads| && Locking(s.threads[t]) && AllIdle(Run(s, actions))
    ensures GetsIn(s, actions, t)
    decreases |actions|
  {
    if actions != [] {
      var s' := Step(s, actions[0]);
      assert |s'.threads| == |s.threads| && (Locking(s'.threads[t]) || s'.threads[t].Held?);
      if !s'.threads[t].Held? { LockerGetsIn(s', actions[1..], t); }
    }
  }

  /** From whatever a run has led to, the threads inside Lock, asleep or not, can all be brought to hold
      the mutex and leave it, with no help but that holders unlock: no new call and no spurious
      wake-up is needed. */
  lemma EverybodyGetsIn(n: nat, actions: seq<Action>) returns (more: seq<Action>)
    ensures AllIdle(Run(Run(Init(n), actions), more)) && forall a :: a in more ==> a.Tick? || a.Unlock?
    ensures var s := Run(Init(n), actions);
      forall t :: 0 <= t < |s.threads| && Locking(s.threads[t]) ==> GetsIn(s, more, t)
  {
    InitInv(n);
    RunInv(Init(n), actions);
    var s := Run(Init(n), actions);
    more := CanFinish(s);
    forall t | 0 <= t < |s.threads| && Locking(s.threads[t]) ensures GetsIn(s, more, t) { LockerGetsIn(s, more, t); }
  }

  /** A thread outside gets in too, if it calls. */
  lemma CallerGetsIn(n: nat, actions: seq<Action>, t: nat) returns (more: seq<Action>)
    requires var s := Run(Init(n), actions); t < |s.threads| && s.threads[t].Idle?
    ensures more != [] && more[0] == Lock(t) && forall a :: a in more[1..] ==> a.Tick? || a.Unlock?
    ensures AllIdle(Run(Run(Init(n), actions), more)) && GetsIn(Run(Init(n), actions), more, t)
  {
    InitInv(n);
    RunInv(Init(n), actions);
    var s := Run(Init(n), actions);
    StepInv(s, Lock(t));
    var rest := CanFinish(Step(s, Lock(t)));
    LockerGetsIn(Step(s, Lock(t)), rest, t);
    more := [Lock(t)] + rest;
  }

  // --- One thread at a time

  lemma RunMore(s: State, a: Action, more: seq<Action>)
    ensures Run(s, [a] + more) == Run(Step(s, a), more)
  {
    assert ([a] + more)[1..] == more;
  }

  /** `n` steps of thread `t`. */
  function Ticks(t: nat, n: nat): seq<Action> {
    if n == 0 then [] else [Tick(t, 0)] + Ticks(t, n - 1)
  }

  lemma OneTick(s: State, t: nat, n: nat, s': State)
    requires s' == Step(s, Tick(t, 0)) && n > 0
    ensures Run(s, Ticks(t, n)) == Run(s', Ticks(t, n - 1))
  {
    RunMore(s, Tick(t, 0), Ticks(t, n - 1));
  }

  /** From the attempt that takes a free mutex and marks it Sleeping: a thread left alone gets it, or sleeps. */
  lemma SlowLockAlone(s: State, t: nat)
    requires s.word <= SLEEPING && t < |s.threads| && s.threads[t].SlowLock?
    ensures Run(s, Ticks(t, if s.word == UNLOCKED then 1 else if s.word == LOCKED then 3 else 2)) ==
      State(SLEEPING, s.threads[t := if s.word == UNLOCKED then Held else Asleep])
  {
    var s1 := Step(s, Tick(t, 0));
    if s.word == UNLOCKED {
      OneTick(s, t, 1, s1);
    } else if s.word == SLEEPING {
      OneTick(s, t, 2, s1);
      WaitAlone(s1, t);
    } else {
      OneTick(s, t, 3, s1);
      MarkAlone(s1, t);
    }
  }

  lemma WaitAlone(s: State, t: nat)
    requires s.word == SLEEPING && t < |s.threads| && s.threads[t].Wait?
    ensures Run(s, Ticks(t, 1)) == State(SLEEPING, s.threads[t := Asleep])
  {
    OneTick(s, t, 1, Step(s, Tick(t, 0)));
  }

  lemma MarkAlone(s: State, t: nat)
    requires s.word == LOCKED && t < |s.threads| && s.threads[t].Mark?
    ensures Run(s, Ticks(t, 2)) == State(SLEEPING, s.threads[t := Asleep])
  {
    var s1 := Step(s, Tick(t, 0));
    OneTick(s, t, 2, s1);
    WaitAlone(s1, t);
  }

  /** A call of Lock that is left alone takes a free mutex at once; otherwise the word is marked Sleeping and
      the thread sleeps, after one attempt, one mark if there is none yet, and one wait. */
  lemma LockAlone(s: State, t: nat)
    requires Inv(s) && t < |s.threads| && s.threads[t].Idle?
    ensures Run(s, [Lock(t)] + Ticks(t, if s.word == UNLOCKED then 1 else if s.word == LOCKED then 3 else 2)) ==
      if s.word == UNLOCKED then State(LOCKED, s.threads[t := Held]) else State(SLEEPING, s.threads[t := Asleep])
  {
    var n := if s.word == UNLOCKED then 1 else if s.word == LOCKED then 3 else 2;
    var s1 := Step(s, Lock(t));
    var s2 := Step(s1, Tick(t, 0));
    RunMore(s, Lock(t), Ticks(t, n));
    OneTick(s1, t, n, s2);
    if s.word == LOCKED { MarkAlone(s2, t); } else if s.word == SLEEPING { WaitAlone(s2, t); }
  }

  /** Unlock frees the mutex, and if the word was Sleeping wakes one of the sleepers, if there are any. */
  lemma UnlockAlone(s: State, t: nat, u: nat)
    requires Inv(s) && t < |s.threads| && s.threads[t].Held? && u < |s.threads|
    requires SomebodySleeps(s) ==> s.threads[u].Asleep?
    ensures Run(s, [Unlock(t)] + (if s.word == LOCKED then [] else [Tick(t, u)])) ==
      State(UNLOCKED, if s.word != LOCKED && SomebodySleeps(s) then s.threads[u := SlowLock][t := Idle] else s.threads[t := Idle])
  {
    HolderLocks(s, t);
    var s1 := Step(s, Unlock(t));
    RunMore(s, Unlock(t), if s.word == LOCKED then [] else [Tick(t, u)]);
    if s.word != LOCKED {
      RunMore(s1, Tick(t, u), []);
      assert [Tick(t, u)] + [] == [Tick(t, u)];
      SleepersStay(s, s1, t);
      assert s1.threads[u := SlowLock][t := Idle] == s.threads[u := SlowLock][t := Idle];
    }
  }

  lemma SleepersStay(s: State, s': State, t: nat)
    requires t < |s.threads| && !s.threads[t].Asleep? && s'.threads == s.threads[t := Wake]
    ensures SomebodySleeps(s') <==> SomebodySleeps(s)
  {
    if u :| 0 <= u < |s.threads| && s.threads[u].Asleep? { assert s'.threads[u].Asleep?; }
    if u :| 0 <= u < |s'.threads| && s'.threads[u].Asleep? { assert s.threads[u].Asleep?; }
  }

  /** A thread woken for no reason takes the mutex if it is free, and otherwise, left to itself, goes back
      to sleep with the word announcing it; nothing else has changed. */
  lemma SpuriousWakeUp(s: State, t: nat)
    requires Inv(s) && t < |s.threads| && s.threads[t].Asleep?
    ensures Run(s, [Spurious(t)] + Ticks(t, if s.word == UNLOCKED then 1 else if s.word == LOCKED then 3 else 2)) ==
      State(SLEEPING, s.threads[t := if s.word == UNLOCKED then Held else Asleep])
  {
    RunMore(s, Spurious(t), Ticks(t, if s.word == UNLOCKED then 1 else if s.word == LOCKED then 3 else 2));
    SlowLockAlone(Step(s, Spurious(t)), t);
  }

  // --- Every call gets in once

  /** How often thread `t`, being outside, calls Lock. */
  function Calls(s: State, actions: seq<Action>, t: nat): nat
    decreases |actions|
  {
    if actions == [] then 0
    else
      (if actions[0] == Lock(t) && t < |s.threads| && s.threads[t] == Idle then 1 else 0) +
      Calls(Step(s, actions[0]), actions[1..], t)
  }

  /** How often it comes to hold the mutex. */
  function Entries(s: State, actions: seq<Action>, t: nat): nat
    decreases |actions|
  {
    if actions == [] then 0
    else
      var s' := Step(s, actions[0]);
      (if t < |s.threads| && t < |s'.threads| && s.threads[t] != Held && s'.threads[t] == Held then 1 else 0) +
      Entries(s', actions[1..], t)
  }

  function Owed(pc: Pc): nat {
    if Locking(pc) then 1 else 0
  }

  lemma StepOwes(s: State, a: Action, t: nat)
    requires t < |s.threads|
    ensures var s' := Step(s, a);
      && |s'.threads| == |s.threads|
      && (if a == Lock(t) && s.threads[t].Idle? then 1 else 0) + Owed(s.threads[t]) ==
         (if !s.threads[t].Held? && s'.threads[t].Held? then 1 else 0) + Owed(s'.threads[t])
  {
  }

  lemma {:induction false} CallsEnter(s: State, actions: seq<Action>, t: nat)
    requires t < |s.threads|
    ensures var s' := Run(s, actions);
      |s'.threads| == |s.threads| && Calls(s, actions, t) + Owed(s.threads[t]) == Entries(s, actions, t) + Owed(s'.threads[t])
    decreases |actions|
  {
    if actions != [] {
      StepOwes(s, actions[0], t);
      CallsEnter(Step(s, actions[0]), actions[1..], t);
    }
  }

  /** In every run a thread has come to hold the mutex once for each of its calls of Lock, up to the one
      it is still inside. */
  lemma EachCallEntersOnce(n: nat, actions: seq<Action>, t: nat)
    requires t < n
    ensures var s := Run(Init(n), actions);
      && |s.threads| == n
      && Calls(Init(n), actions, t) == Entries(Init(n), actions, t) + if Locking(s.threads[t]) then 1 else 0
  {
    CallsEnter(Init(n), actions, t);
  }

  // --- The mutex object

  class Mutex {
    var word: nat
    var threads: seq<Pc>

    ghost function View(): State reads this {
      State(word, threads)
    }

    constructor (n: nat)
      ensures View() == Init(n) && Inv(View())
    {
      word, threads := UNLOCKED, seq(n, _ => Idle);
      new;
      InitInv(n);
    }

    method MoveTo(t: nat, pc: Pc)
      requires t < |threads|
      modifies this`threads
      ensures View() == Goto(old(View()), t, pc)
    {
      threads := threads[t := pc];
    }

    /** Returns the word as it was. */
    method Cmpxchg(expected: nat, desired: nat) returns (found: nat)
      modifies this`word
      ensures found == old(word) && word == Exchanged(old(word), expected, desired)
    {
      found := word;
      if word == expected { word := desired; }
    }

    /** The next step of a thread inside Lock. */
    method LockNext(t: nat)
      requires Inv(View()) && t < |threads| && !threads[t].Wake?
      modifies this
      ensures View() == LockStep(old(View()), t) && Inv(View())
    {
      LockStepInv(View(), t);
      var pc := threads[t];
      if pc.FastLock? || pc.SlowLock? {
        var c := Cmpxchg(UNLOCKED, if pc.FastLock? then LOCKED else SLEEPING);
        if c == UNLOCKED {
          MoveTo(t, Held);
        } else {
          MoveTo(t, if c == SLEEPING then Wait else Mark);
        }
      } else if pc.Mark? {
        var c := Cmpxchg(LOCKED, SLEEPING);
        MoveTo(t, if c != UNLOCKED then Wait else SlowLock);
      } else if pc.Wait? {
        MoveTo(t, if word == SLEEPING then Asleep else SlowLock);
      }
    }

    /** The exchange of Unlock. */
    method Release(t: nat)
      requires Inv(View()) && t < |threads| && threads[t].Held?
      modifies this
      ensures View() == Step(old(View()), Unlock(t)) && Inv(View())
    {
      StepInv(View(), Unlock(t));
      var found := word;
      word := UNLOCKED;
      MoveTo(t, if found != LOCKED then Wake else Idle);
    }

    /** WakeOne: `sleeper` sleeps, or nobody does. */
    method WakeOne(t: nat, sleeper: nat)
      requires Inv(View()) && t < |threads| && threads[t].Wake?
      requires SomebodySleeps(View()) ==> sleeper < |threads| && threads[sleeper].Asleep?
      modifies this
      ensures View() == WakeStep(old(View()), t, sleeper) && Inv(View())
    {
      WakeStepInv(View(), t, sleeper);
      if sleeper < |threads| && threads[sleeper].Asleep? { MoveTo(sleeper, SlowLock); }
      MoveTo(t, Idle);
    }

    method Perform(a: Action)
      requires Inv(View())
      modifies this
      ensures View() == Step(old(View()), a) && Inv(View())
    {
      StepInv(View(), a);
      if a.t < |threads| {
        var pc := threads[a.t];
        if a.Lock? {
          if pc.Idle? { MoveTo(a.t, FastLock); }
        } else if a.Unlock? {
          if pc.Held? { Release(a.t); }
        } else if a.Spurious? {
          if pc.Asleep? { MoveTo(a.t, SlowLock); }
        } else if !pc.Wake? {
          LockNext(a.t);
        } else if (a.sleeper < |threads| && threads[a.sleeper].Asleep?) || Asleep !in threads {
          WakeOne(a.t, a.sleeper);
        }
      }
    }

    /** Any schedule: what the theorems say of runs holds of the object. */
    method Execute(actions: seq<Action>)
      requires Inv(View())
      modifies this
      ensures View() == Run(old(View()), actions) && Inv(View())
    {
      var i := 0;
      while i < |actions|
        invariant i <= |actions|
        invariant Inv(View()) && Run(View(), actions[i..]) == Run(old(View()), actions)
      {
        assert actions[i..][0] == actions[i] && actions[i..][1..] == actions[i + 1..];
        Perform(actions[i]);
        i := i + 1;
      }
    }
  }
}
