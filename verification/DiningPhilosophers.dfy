/** The dining philosophers (tasks/mutex/dining/philosopher.cpp and table.hpp): every seat takes its
    left fork first, except seat 0, which takes its right fork first.

    One philosopher per seat, who eats again and again; one action is one lock or unlock of a fork,
    one access to a plate or one increment, memory is sequentially consistent. A lock waits while the
    fork is held, also by the caller itself. */
module DiningPhilosophers {
  import opened Counting
  import opened Options

  /** Where a philosopher stands in Eat. */
  datatype Pc = Thinking | TakeFirst | TakeSecond | OwnPlate | RightPlate | CountMeal | DropRight | DropLeft

  /** `begun` is auxiliary: how often Eat was called. */
  datatype Philosopher = Philosopher(pc: Pc, meals: nat, begun: nat)

  /** `forks[f]` is the holder of fork f. */
  datatype State = State(forks: seq<Option<nat>>, seats: seq<Philosopher>)

  datatype Action = Eat(seat: nat) | Tick(seat: nat)

  function Init(n: nat): State {
    State(seq(n, _ => None), seq(n, _ => Philosopher(Thinking, 0, 0)))
  }

  // --- The table

  function ToRight(n: nat, seat: nat): nat
    requires n > 0
  {
    (seat + 1) % n
  }

  function LeftFork(n: nat, seat: nat): nat {
    seat
  }

  function RightFork(n: nat, seat: nat): nat
    requires n > 0
  {
    ToRight(n, seat)
  }

  function FirstFork(n: nat, seat: nat): nat
    requires n > 0
  {
    if seat == 0 then RightFork(n, seat) else LeftFork(n, seat)
  }

  function SecondFork(n: nat, seat: nat): nat
    requires n > 0
  {
    if seat == 0 then LeftFork(n, seat) else RightFork(n, seat)
  }

  // --- Eating, one step at a time

  function Goto(s: State, p: nat, pc: Pc): State
    requires p < |s.seats|
  {
    s.(seats := s.seats[p := s.seats[p].(pc := pc)])
  }

  /** Locks fork `f` if it is free, and waits otherwise. */
  function TakeFork(s: State, p: nat, f: nat, pc: Pc): State
    requires p < |s.seats|
  {
    if f < |s.forks| && s.forks[f].None? then Goto(s.(forks := s.forks[f := Some(p)]), p, pc) else s
  }

  function DropFork(s: State, p: nat, f: nat, pc: Pc): State
    requires p < |s.seats|
  {
    Goto(if f < |s.forks| then s.(forks := s.forks[f := None]) else s, p, pc)
  }

  function Step(s: State, a: Action): State {
    if a.seat >= |s.seats| then s else
    match a
    case Eat(p) =>
      if s.seats[p].pc.Thinking?
      then s.(seats := s.seats[p := s.seats[p].(pc := TakeFirst, begun := s.seats[p].begun + 1)]) else s
    case Tick(p) => EatStep(s, p)
  }

  function EatStep(s: State, p: nat): State
    requires p < |s.seats|
  {
    var n := |s.seats|;
    match s.seats[p].pc
    case Thinking => s
    case TakeFirst => TakeFork(s, p, FirstFork(n, p), TakeSecond)
    case TakeSecond => TakeFork(s, p, SecondFork(n, p), OwnPlate)
    case OwnPlate => Goto(s, p, RightPlate)
    case RightPlate => Goto(s, p, CountMeal)
    case CountMeal => s.(seats := s.seats[p := s.seats[p].(pc := DropRight, meals := s.seats[p].meals + 1)])
    case DropRight => DropFork(s, p, RightFork(n, p), DropLeft)
    case DropLeft => DropFork(s, p, LeftFork(n, p), Thinking)
  }

  function Run(s: State, actions: seq<Action>): State
    decreases |actions|
  {
    if actions == [] then s else Run(Step(s, actions[0]), actions[1..])
  }

  // --- The invariant

  predicate HasBoth(pc: Pc) {
    pc.OwnPlate? || pc.RightPlate? || pc.CountMeal? || pc.DropRight?
  }

  /** The forks a philosopher holds, by his place in the code. */
  predicate Holds(s: State, p: nat, f: nat)
    requires p < |s.seats|
  {
    var n, pc := |s.seats|, s.seats[p].pc;
    || (pc.TakeSecond? && f == FirstFork(n, p))
    || (HasBoth(pc) && (f == LeftFork(n, p) || f == RightFork(n, p)))
    || (pc.DropLeft? && f == LeftFork(n, p))
  }

  ghost predicate ForkOk(s: State, f: nat)
    requires f < |s.forks|
  {
    forall p :: 0 <= p < |s.seats| ==> (s.forks[f] == Some(p) <==> Holds(s, p, f))
  }

  /** Every call that has come to the count is one meal; at a table of one seat nobody gets beyond
      his second fork. */
  ghost predicate SeatOk(s: State, p: nat)
    requires p < |s.seats|
  {
    var ph := s.seats[p];
    && ph.begun == ph.meals + (if ph.pc.Thinking? || ph.pc.DropRight? || ph.pc.DropLeft? then 0 else 1)
    && (|s.seats| == 1 ==> ph.pc.Thinking? || ph.pc.TakeFirst? || ph.pc.TakeSecond?)
  }

  ghost predicate Inv(s: State) {
    && |s.forks| == |s.seats|
    && (forall f :: 0 <= f < |s.forks| ==> ForkOk(s, f))
    && (forall f :: 0 <= f < |s.forks| && s.forks[f].Some? ==> s.forks[f].value < |s.seats|)
    && (forall p :: 0 <= p < |s.seats| ==> SeatOk(s, p))
  }

  /** On a table of at least two seats, a philosopher's two forks differ. */
  lemma TwoForks(n: nat, p: nat)
    requires n >= 2 && p < n
    ensures RightFork(n, p) < n && RightFork(n, p) != p
    ensures FirstFork(n, p) != SecondFork(n, p)
    ensures RightFork(n, p) == if p + 1 < n then p + 1 else 0
  {
  }

  /** On a table of one seat they are the same. */
  lemma OneFork(p: nat)
    requires p < 1
    ensures RightFork(1, p) == LeftFork(1, p) == 0
  {
  }

  /** Only philosopher `p` and his fork `f` change. */
  ghost predicate OnlyAt(s: State, s': State, p: nat, f: nat) {
    && p < |s.seats| == |s'.seats| == |s.forks| == |s'.forks|
    && (forall q :: 0 <= q < |s.seats| && q != p ==> s'.seats[q] == s.seats[q])
    && (forall g :: 0 <= g < |s.forks| && g != f ==> s'.forks[g] == s.forks[g])
  }

  /** Fork `f` becomes his, or free, as he says; the others stay whose they were. */
  lemma ForksKept(s: State, s': State, p: nat, f: nat)
    requires Inv(s) && OnlyAt(s, s', p, f) && SeatOk(s', p)
    requires f < |s.forks| ==> s'.forks[f] == (if Holds(s', p, f) then Some(p) else None)
    requires f < |s.forks| ==> s.forks[f].None? || s.forks[f] == Some(p)
    requires forall g :: 0 <= g < |s.forks| && g != f ==> (Holds(s', p, g) <==> Holds(s, p, g))
    ensures Inv(s')
  {
    forall g | 0 <= g < |s'.forks| ensures ForkOk(s', g) {
      assert ForkOk(s, g);
      forall q | 0 <= q < |s'.seats| ensures s'.forks[g] == Some(q) <==> Holds(s', q, g) {
        assert q != p ==> (Holds(s', q, g) <==> Holds(s, q, g));
      }
    }
    forall q | 0 <= q < |s'.seats| ensures SeatOk(s', q) { assert SeatOk(s, q); }
  }

  lemma TakeInv(s: State, p: nat)
    requires Inv(s) && p < |s.seats| && (s.seats[p].pc.TakeFirst? || s.seats[p].pc.TakeSecond?)
    ensures Inv(EatStep(s, p))
  {
    var n, s' := |s.seats|, EatStep(s, p);
    var f := if s.seats[p].pc.TakeFirst? then FirstFork(n, p) else SecondFork(n, p);
    assert SeatOk(s, p);
    if n >= 2 { TwoForks(n, p); } else { OneFork(p); }
    if s' != s {
      assert ForkOk(s, f) && ForkOk(s, FirstFork(n, p));
      ForksKept(s, s', p, f);
    }
  }

  lemma DropInv(s: State, p: nat)
    requires Inv(s) && p < |s.seats| && (s.seats[p].pc.DropRight? || s.seats[p].pc.DropLeft?)
    ensures Inv(EatStep(s, p))
  {
    var n, s' := |s.seats|, EatStep(s, p);
    var f := if s.seats[p].pc.DropRight? then RightFork(n, p) else LeftFork(n, p);
    assert SeatOk(s, p);
    TwoForks(n, p);
    assert ForkOk(s, f);
    ForksKept(s, s', p, f);
  }

  lemma MealInv(s: State, a: Action)
    requires Inv(s) && a.seat < |s.seats|
    requires a.Eat? || s.seats[a.seat].pc.OwnPlate? || s.seats[a.seat].pc.RightPlate? || s.seats[a.seat].pc.CountMeal?
    ensures Inv(Step(s, a))
  {
    assert SeatOk(s, a.seat);
    ForksKept(s, Step(s, a), a.seat, |s.seats|);
  }

  lemma StepInv(s: State, a: Action)
    requires Inv(s)
    ensures Inv(Step(s, a)) && |Step(s, a).seats| == |s.seats|
  {
    if a.seat < |s.seats| {
      var pc := s.seats[a.seat].pc;
      if a.Eat? || pc.OwnPlate? || pc.RightPlate? || pc.CountMeal? {
        MealInv(s, a);
      } else if pc.TakeFirst? || pc.TakeSecond? {
        TakeInv(s, a.seat);
      } else if !pc.Thinking? {
        DropInv(s, a.seat);
      }
    }
  }

  // --- Every run

  lemma {:induction false} RunInv(s: State, actions: seq<Action>)
    requires Inv(s)
    ensures Inv(Run(s, actions)) && |Run(s, actions).seats| == |s.seats|
    decreases |actions|
  {
    if actions != [] {
      StepInv(s, actions[0]);
      RunInv(Step(s, actions[0]), actions[1..]);
    }
  }

  lemma InitInv(n: nat)
    ensures Inv(Init(n))
  {
  }

  lemma Reached(n: nat, actions: seq<Action>)
    ensures Inv(Run(Init(n), actions)) && |Run(Init(n), actions).seats| == n
  {
    InitInv(n);
    RunInv(Init(n), actions);
  }

  /** Philosopher `p` is at plate `i`. */
  predicate AtPlate(s: State, p: nat, i: nat)
    requires p < |s.seats|
  {
    (s.seats[p].pc.OwnPlate? && i == p) || (s.seats[p].pc.RightPlate? && i == ToRight(|s.seats|, p))
  }

  lemma PlateHolder(s: State, p: nat, i: nat)
    requires Inv(s) && p < |s.seats| && i < |s.seats| && AtPlate(s, p, i)
    ensures s.forks[i] == Some(p)
  {
    assert ForkOk(s, i);
    assert Holds(s, p, i);
  }

  /** In every run: only the holder of fork i is at plate i, so no two philosophers are at one plate; and
      each has counted exactly the meals he has finished. */
  lemma PlatesAreGuarded(n: nat, actions: seq<Action>, p: nat, q: nat, i: nat)
    requires p < n && q < n && i < n
    ensures var s := Run(Init(n), actions);
      && |s.seats| == |s.forks| == n
      && (AtPlate(s, p, i) ==> s.forks[i] == Some(p))
      && (AtPlate(s, p, i) && AtPlate(s, q, i) ==> p == q)
      && SeatOk(s, p)
  {
    Reached(n, actions);
    var s := Run(Init(n), actions);
    if AtPlate(s, p, i) { PlateHolder(s, p, i); }
    if AtPlate(s, q, i) { PlateHolder(s, q, i); }
  }

  // --- Deadlock freedom

  /** The order in which all philosophers of a table of at least two seats take their forks. */
  function Rank(n: nat, f: nat): nat {
    if f == 0 then n else f
  }

  lemma RanksRise(n: nat, p: nat)
    requires n >= 2 && p < n
    ensures Rank(n, FirstFork(n, p)) < Rank(n, SecondFork(n, p)) <= n
  {
    TwoForks(n, p);
  }

  /** The philosopher's next step is possible. */
  predicate CanStep(s: State, p: nat) {
    p < |s.seats| && EatStep(s, p) != s
  }

  /** The fork a philosopher waits for. */
  function Wanted(s: State, p: nat): nat
    requires p < |s.seats|
  {
    if s.seats[p].pc.TakeFirst? then FirstFork(|s.seats|, p) else SecondFork(|s.seats|, p)
  }

  /** Whoever holds the fork a philosopher waits for can step, or waits for one of higher rank. */
  lemma {:induction false} SomebodySteps(s: State, p: nat) returns (q: nat)
    requires Inv(s) && |s.seats| >= 2 && p < |s.seats| && !s.seats[p].pc.Thinking?
    ensures CanStep(s, q)
    decreases if s.seats[p].pc.TakeFirst? || s.seats[p].pc.TakeSecond? then |s.seats| + 1 - Rank(|s.seats|, Wanted(s, p)) else 0
  {
    var n := |s.seats|;
    TwoForks(n, p);
    RanksRise(n, p);
    q := p;
    if !CanStep(s, p) {
      var f := Wanted(s, p);
      assert s.forks[f].Some? && ForkOk(s, f);
      var holder := s.forks[f].value;
      assert Holds(s, holder, f);
      RanksRise(n, holder);
      q := SomebodySteps(s, holder);
    }
  }

  /** Somebody is hungry and nobody can step. */
  ghost predicate Deadlocked(s: State) {
    (exists p :: 0 <= p < |s.seats| && !s.seats[p].pc.Thinking?) && forall q :: 0 <= q < |s.seats| ==> !CanStep(s, q)
  }

  ghost predicate EndsInDeadlock(n: nat, actions: seq<Action>) {
    Deadlocked(Run(Init(n), actions))
  }

  lemma TwoSeatsNeverDeadlock(n: nat, actions: seq<Action>)
    requires n != 1
    ensures !EndsInDeadlock(n, actions)
  {
    Reached(n, actions);
    var s := Run(Init(n), actions);
    if p: nat :| p < |s.seats| && !s.seats[p].pc.Thinking? {
      var q := SomebodySteps(s, p);
    }
  }

  /** The only philosopher of a table waits for the fork he holds. */
  lemma OneSeatDeadlocks()
    ensures EndsInDeadlock(1, [Eat(0), Tick(0)])
  {
    var s := Init(1);
    var s1 := Step(s, Eat(0));
    var s2 := Step(s1, Tick(0));
    OneFork(0);
    assert [Eat(0), Tick(0)][1..] == [Tick(0)] && [Tick(0)][1..] == [];
    assert Run(s1, [Tick(0)]) == Run(s2, []) == s2;
    assert s2.seats[0].pc == TakeSecond && s2.forks[0] == Some(0);
    assert EatStep(s2, 0) == s2;
  }

  /** No run deadlocks, exactly when the table does not have just one seat. */
  lemma DeadlockFreeUnlessOneSeat(n: nat)
    ensures (forall actions :: !EndsInDeadlock(n, actions)) <==> n != 1
  {
    if n == 1 {
      OneSeatDeadlocks();
      assert EndsInDeadlock(n, [Eat(0), Tick(0)]);
    } else {
      forall actions ensures !EndsInDeadlock(n, actions) { TwoSeatsNeverDeadlock(n, actions); }
    }
  }

  // --- Hungry philosophers finish

  function StepsLeft(pc: Pc): nat {
    match pc
    case Thinking => 0
    case TakeFirst => 7
    case TakeSecond => 6
    case OwnPlate => 5
    case RightPlate => 4
    case CountMeal => 3
    case DropRight => 2
    case DropLeft => 1
  }

  ghost function LeftFn(): Philosopher -> int { (ph: Philosopher) => StepsLeft(ph.pc) }

  ghost function Left(s: State): int {
    Sum(s.seats, LeftFn())
  }

  /** Every step that is not a wait brings the table nearer to rest: as long as nobody sits down again,
      at most seven steps per seat, of which one is always possible, end all meals. */
  lemma StepsEndMeals(s: State, p: nat)
    requires CanStep(s, p)
    ensures Left(EatStep(s, p)) == Left(s) - 1
  {
    var s' := EatStep(s, p);
    SumUpdate(s.seats, p, s'.seats[p], LeftFn());
    assert s'.seats == s.seats[p := s'.seats[p]];
  }

  lemma AtRest(s: State)
    ensures Left(s) >= 0
    ensures Left(s) == 0 <==> forall p :: 0 <= p < |s.seats| ==> s.seats[p].pc.Thinking?
  {
    SumBounds(s.seats, LeftFn());
    if forall p :: 0 <= p < |s.seats| ==> s.seats[p].pc.Thinking? {
      SumAllZero(s.seats, LeftFn());
    } else {
      var p :| 0 <= p < |s.seats| && !s.seats[p].pc.Thinking?;
      assert LeftFn()(s.seats[p]) > 0;
    }
  }

  /** From any state a run reaches, on a table of at least two seats, all can finish their meals. */
  lemma {:induction false} AllCanFinish(s: State) returns (ticks: seq<Action>)
    requires Inv(s) && |s.seats| >= 2
    ensures |ticks| == Left(s) && forall a :: a in ticks ==> a.Tick?
    ensures forall p :: 0 <= p < |Run(s, ticks).seats| ==> Run(s, ticks).seats[p].pc.Thinking?
    decreases Left(s)
  {
    AtRest(s);
    if Left(s) == 0 {
      ticks := [];
    } else {
      var p :| 0 <= p < |s.seats| && !s.seats[p].pc.Thinking?;
      var q := SomebodySteps(s, p);
      StepInv(s, Tick(q));
      StepsEndMeals(s, q);
      AtRest(Step(s, Tick(q)));
      var rest := AllCanFinish(Step(s, Tick(q)));
      ticks := [Tick(q)] + rest;
      assert ticks[1..] == rest;
    }
  }

  // --- Every call is a meal

  /** How often philosopher `p`, while thinking, is asked to eat. */
  function Calls(s: State, actions: seq<Action>, p: nat): nat
    decreases |actions|
  {
    if actions == [] then 0
    else
      (if actions[0] == Eat(p) && p < |s.seats| && s.seats[p].pc == Thinking then 1 else 0) +
      Calls(Step(s, actions[0]), actions[1..], p)
  }

  lemma StepBegins(s: State, a: Action, p: nat)
    requires p < |s.seats|
    ensures |Step(s, a).seats| == |s.seats|
    ensures Step(s, a).seats[p].begun == s.seats[p].begun + if a == Eat(p) && s.seats[p].pc.Thinking? then 1 else 0
  {
  }

  lemma {:induction false} CallsBegin(s: State, actions: seq<Action>, p: nat)
    requires p < |s.seats|
    ensures |Run(s, actions).seats| == |s.seats|
    ensures Run(s, actions).seats[p].begun == s.seats[p].begun + Calls(s, actions, p)
    decreases |actions|
  {
    if actions != [] {
      StepBegins(s, actions[0], p);
      CallsBegin(Step(s, actions[0]), actions[1..], p);
    }
  }

  /** In every run a philosopher who thinks has had one meal for each time he was asked to eat. */
  lemma MealsAreCalls(n: nat, actions: seq<Action>, p: nat)
    requires p < n
    ensures var s := Run(Init(n), actions);
      |s.seats| == n && (s.seats[p].pc.Thinking? ==> s.seats[p].meals == Calls(Init(n), actions, p))
  {
    Reached(n, actions);
    CallsBegin(Init(n), actions, p);
    assert SeatOk(Run(Init(n), actions), p);
  }

  lemma {:induction false} TicksBegin(s: State, ticks: seq<Action>, p: nat)
    requires p < |s.seats| && forall a :: a in ticks ==> a.Tick?
    ensures |Run(s, ticks).seats| == |s.seats| && Run(s, ticks).seats[p].begun == s.seats[p].begun
    decreases |ticks|
  {
    if ticks != [] {
      assert ticks[0] in ticks;
      StepBegins(s, ticks[0], p);
      TicksBegin(Step(s, ticks[0]), ticks[1..], p);
    }
  }

  /** Whoever thinks, at a table of at least two seats, can sit down and have one meal more, and all others
      finish theirs. */
  lemma AnybodyCanEat(n: nat, actions: seq<Action>, p: nat) returns (ticks: seq<Action>)
    requires p < n && n >= 2 && |Run(Init(n), actions).seats| == n
    requires Run(Init(n), actions).seats[p].pc.Thinking?
    ensures forall a :: a in ticks ==> a.Tick?
    ensures var s := Run(Init(n), actions); var s' := Run(s, [Eat(p)] + ticks);
      && |s'.seats| == n && s'.seats[p].meals == s.seats[p].meals + 1
      && forall q :: 0 <= q < n ==> s'.seats[q].pc.Thinking?
  {
    Reached(n, actions);
    var s := Run(Init(n), actions);
    var s1 := Step(s, Eat(p));
    StepInv(s, Eat(p));
    ticks := AllCanFinish(s1);
    assert ([Eat(p)] + ticks)[1..] == ticks;
    var s' := Run(s1, ticks);
    RunInv(s1, ticks);
    TicksBegin(s1, ticks, p);
    assert SeatOk(s, p) && SeatOk(s', p);
  }

  // --- The table object

  class Table {
    var forks: seq<Option<nat>>
    var seats: seq<Philosopher>

    ghost function View(): State reads this {
      State(forks, seats)
    }

    constructor (n: nat)
      ensures View() == Init(n) && Inv(View())
    {
      forks, seats := seq(n, _ => None), seq(n, _ => Philosopher(Thinking, 0, 0));
      new;
      InitInv(n);
    }

    method MoveTo(p: nat, pc: Pc)
      requires p < |seats|
      modifies this`seats
      ensures View() == Goto(old(View()), p, pc)
    {
      seats := seats[p := seats[p].(pc := pc)];
    }

    method LockFork(p: nat, f: nat, pc: Pc)
      requires p < |seats| && f < |forks|
      modifies this
      ensures View() == TakeFork(old(View()), p, f, pc)
    {
      if forks[f].None? {
        forks := forks[f := Some(p)];
        MoveTo(p, pc);
      }
    }

    method UnlockFork(p: nat, f: nat, pc: Pc)
      requires p < |seats| && f < |forks|
      modifies this
      ensures View() == DropFork(old(View()), p, f, pc)
    {
      forks := forks[f := None];
      MoveTo(p, pc);
    }

    /** The next step of AcquireForks, EatWithForks or ReleaseForks. */
    method EatNext(p: nat)
      requires Inv(View()) && p < |seats|
      modifies this
      ensures View() == EatStep(old(View()), p) && Inv(View())
    {
      StepInv(View(), Tick(p));
      var n, pc := |seats|, seats[p].pc;
      if pc.TakeFirst? {
        LockFork(p, FirstFork(n, p), TakeSecond);
      } else if pc.TakeSecond? {
        LockFork(p, SecondFork(n, p), OwnPlate);
      } else if pc.OwnPlate? {
        MoveTo(p, RightPlate);
      } else if pc.RightPlate? {
        MoveTo(p, CountMeal);
      } else if pc.CountMeal? {
        seats := seats[p := seats[p].(pc := DropRight, meals := seats[p].meals + 1)];
      } else if pc.DropRight? {
        UnlockFork(p, RightFork(n, p), DropLeft);
      } else if pc.DropLeft? {
        UnlockFork(p, LeftFork(n, p), Thinking);
      }
    }

    method Perform(a: Action)
      requires Inv(View())
      modifies this
      ensures View() == Step(old(View()), a) && Inv(View())
    {
      StepInv(View(), a);
      if a.seat < |seats| {
        if a.Tick? {
          EatNext(a.seat);
        } else if seats[a.seat].pc.Thinking? {
          seats := seats[a.seat := seats[a.seat].(pc := TakeFirst, begun := seats[a.seat].begun + 1)];
        }
      }
    }

    /** Any schedule: what the theorems say of runs holds of the object. */
    method Execute(actions: seq<Action>)
      requires Inv(View())
      modifies this
      ensures View() == Run(old(View()), actions) && Inv(View())
    {
      var i := 0;
      while i < |actions|
        invariant i <= |actions|
        invariant Inv(View()) && Run(View(), actions[i..]) == Run(old(View()), actions)
      {
        assert actions[i..][0] == actions[i] && actions[i..][1..] == actions[i + 1..];
        Perform(actions[i]);
        i := i + 1;
      }
    }
  }
}
