/** When a caller of CompareExchangeWeak must keep a reference to `desired` (module SharedPointers). */
module UnkeptDesired {
  import opened Options
  import opened SharedPointers

  predicate AllStampsFit(s: State, actions: seq<Action>)
    decreases |actions|
  {
    actions == [] || (StampsFit(s, actions[0]) && AllStampsFit(Step(s, actions[0]), actions[1..]))
  }

  /** No run touches a freed block, whatever callers keep. */
  ghost predicate SafeAnyway(threads: nat, cells: nat) {
    forall actions :: AllStampsFit(Init(threads, cells), actions) ==> !Run(Init(threads, cells), actions).fault
  }

  /** Callers may move their only reference into CompareExchangeWeak exactly if there is nobody else, or
      no cell: otherwise the reference is published before it is counted, and another thread can store
      over the cell and free the block in between. No stamp is involved. */
  lemma PromiseNeeded(threads: nat, cells: nat)
    ensures SafeAnyway(threads, cells) <==> threads <= 1 || cells == 0
  {
    if threads <= 1 || cells == 0 {
      forall actions | AllStampsFit(Init(threads, cells), actions) ensures !Run(Init(threads, cells), actions).fault {
        AllFitAnyway(Init(threads, cells), actions);
        Reached(threads, cells, actions);
      }
    } else {
      var actions := UseAfterFree(threads, cells);
    }
  }

  // --- Nobody else, or no cell

  lemma StepSizes(s: State, a: Action)
    ensures |Step(s, a).threads| == |s.threads| && |Step(s, a).cells| == |s.cells|
  {
    if a.t < |s.threads| && a.Tick? { TickSizes(s, a.t, a.flaky); }
  }

  lemma TickSizes(s: State, t: nat, flaky: bool)
    requires t < |s.threads|
    ensures |TickStep(s, t, flaky).threads| == |s.threads| && |TickStep(s, t, flaky).cells| == |s.cells|
  {
    match s.threads[t].pc
    case Count(_, _, _) =>
    case Delete(_, _, _) =>
    case Acquire(_, _) =>
    case Stamp(_, _, _) =>
    case Swing(_, _, _, _) =>
    case _ =>
  }

  lemma {:induction false} AllFitAnyway(s: State, actions: seq<Action>)
    requires (|s.threads| <= 1 || |s.cells| == 0) && AllStampsFit(s, actions)
    ensures AllFit(s, actions)
    decreases |actions|
  {
    if actions != [] {
      StepSizes(s, actions[0]);
      AllFitAnyway(Step(s, actions[0]), actions[1..]);
    }
  }

  // --- Thread 0 publishes block 1 in cell 0; thread 1 stores null over it

  lemma RunCons(s: State, a: Action, rest: seq<Action>)
    ensures Run(s, [a] + rest) == Run(Step(s, a), rest)
    ensures AllStampsFit(s, [a] + rest) <==> StampsFit(s, a) && AllStampsFit(Step(s, a), rest)
  {
    assert ([a] + rest)[1..] == rest;
  }

  lemma RunTwo(s: State, a: Action, b: Action)
    ensures Run(s, [a, b]) == Step(Step(s, a), b)
    ensures AllStampsFit(s, [a, b]) <==> StampsFit(s, a) && StampsFit(Step(s, a), b)
  {
    assert [a, b] == [a] + ([b] + []);
    RunCons(s, a, [b] + []);
    RunCons(Step(s, a), b, []);
  }

  lemma {:induction false} RunConcat(s: State, xs: seq<Action>, ys: seq<Action>)
    ensures Run(s, xs + ys) == Run(Run(s, xs), ys)
    ensures AllStampsFit(s, xs + ys) <==> AllStampsFit(s, xs) && AllStampsFit(Run(s, xs), ys)
    decreases |xs|
  {
    if xs == [] {
      assert xs + ys == ys;
    } else {
      assert (xs + ys)[0] == xs[0] && (xs + ys)[1..] == xs[1..] + ys;
      RunConcat(Step(s, xs[0]), xs[1..], ys);
    }
  }

  /** At least two threads and a cell, with these in the first ones, and block 1 with this count. */
  predicate At(s: State, cell: Stamped, strong: int, pc0: Pc, pc1: Pc) {
    && |s.threads| >= 2 && |s.cells| >= 1 && s.cells[0] == cell && s.blocks == map[1 := Block(strong, 0)]
    && s.links == [] && s.threads[0].pc == pc0 && s.threads[1].pc == pc1
  }

  /** Thread 0 has published its only reference and is about to count it. */
  function Uncounted(): Pc {
    Count(AfterSwing(Stamped(0, 0), 1), None, Finish)
  }

  lemma Makes(s: State)
    requires |s.threads| >= 2 && |s.cells| >= 1 && s == Init(|s.threads|, |s.cells|)
    ensures At(Step(s, Make(0, 1)), Stamped(0, 0), 1, Idle, Idle) && 1 in Step(s, Make(0, 1)).threads[0].handles
    ensures StampsFit(s, Make(0, 1))
  {
  }

  lemma CallsCas(s: State)
    requires At(s, Stamped(0, 0), 1, Idle, Idle) && 1 in s.threads[0].handles
    ensures var a := CallCas(0, 0, 0, 1, false, false);
      At(Step(s, a), Stamped(0, 0), 1, Acquire(0, ForCas(0, 1, false)), Idle) && StampsFit(s, a)
  {
  }

  lemma Calls(s: State)
    requires |s.threads| >= 2 && |s.cells| >= 1 && s == Init(|s.threads|, |s.cells|)
    ensures var actions := [Make(0, 1), CallCas(0, 0, 0, 1, false, false)];
      AllStampsFit(s, actions) && At(Run(s, actions), Stamped(0, 0), 1, Acquire(0, ForCas(0, 1, false)), Idle)
  {
    var a, b := Make(0, 1), CallCas(0, 0, 0, 1, false, false);
    Makes(s);
    CallsCas(Step(s, a));
    CallsTwo(s, a, b, Step(s, a), Step(Step(s, a), b));
  }

  lemma CallsTwo(s: State, a: Action, b: Action, s1: State, s2: State)
    requires s1 == Step(s, a) && s2 == Step(s1, b) && StampsFit(s, a) && StampsFit(s1, b)
    ensures AllStampsFit(s, [a, b]) && Run(s, [a, b]) == s2
  {
    RunTwo(s, a, b);
  }

  lemma Publishes(s: State)
    requires At(s, Stamped(0, 0), 1, Acquire(0, ForCas(0, 1, false)), Idle)
    ensures var actions := [Tick(0, false), Tick(0, false)];
      AllStampsFit(s, actions) && At(Run(s, actions), Stamped(1, 0), 1, Uncounted(), Idle)
  {
    var s1 := Step(s, Tick(0, false));
    assert s1.threads[0].pc == Swing(0, Stamped(0, 0), 1, false);
    assert s1.links + Sealed(0, 1, false) == [];
    RunTwo(s, Tick(0, false), Tick(0, false));
  }

  lemma CallsStore(s: State)
    requires At(s, Stamped(1, 0), 1, Uncounted(), Idle)
    ensures var actions := [CallStore(1, 0, 0, false), Tick(1, false)];
      AllStampsFit(s, actions) && At(Run(s, actions), Stamped(1, 0), 1, Uncounted(), Swap(0, 0))
  {
    var s1 := Step(s, CallStore(1, 0, 0, false));
    assert s1.threads[1].pc == Count(Adjust(0, 1, 0, Nil), None, ThenSwap(0, 0));
    RunTwo(s, CallStore(1, 0, 0, false), Tick(1, false));
  }

  lemma Overwrites(s: State)
    requires At(s, Stamped(1, 0), 1, Uncounted(), Swap(0, 0))
    ensures AllStampsFit(s, [Tick(1, false)])
    ensures At(Run(s, [Tick(1, false)]), Stamped(0, 0), 1, Uncounted(), Count(AfterSwap(Stamped(1, 0), 0), None, Finish))
  {
    assert [Tick(1, false)] == [Tick(1, false)] + [];
    RunCons(s, Tick(1, false), []);
  }

  /** One call of IncrementCounter by thread 1 that leaves the count above zero. */
  lemma Counts(s: State, strong: int, d: int, rest: Todo)
    requires At(s, Stamped(0, 0), strong, Uncounted(), Count(Adjust(1, d, 0, rest), None, Finish))
    requires strong + d != 0 && rest.Adjust?
    ensures var actions := [Tick(1, false), Tick(1, false)];
      AllStampsFit(s, actions) && At(Run(s, actions), Stamped(0, 0), strong + d, Uncounted(), Count(rest, None, Finish))
  {
    var s1 := Step(s, Tick(1, false));
    assert s1.threads[1].pc == Count(Adjust(1, d, 0, rest), Some(Block(strong, 0)), Finish);
    RunTwo(s, Tick(1, false), Tick(1, false));
  }

  lemma Frees(s: State, rest: Todo)
    requires At(s, Stamped(0, 0), 1, Uncounted(), Count(Adjust(1, -1, 0, rest), None, Finish))
    ensures var actions := [Tick(1, false), Tick(1, false)];
      AllStampsFit(s, actions) && At(Run(s, actions), Stamped(0, 0), 0, Uncounted(), Delete(1, rest, Finish))
  {
    var s1 := Step(s, Tick(1, false));
    assert s1.threads[1].pc == Count(Adjust(1, -1, 0, rest), Some(Block(1, 0)), Finish);
    RunTwo(s, Tick(1, false), Tick(1, false));
  }

  lemma Faults(s: State, rest: Todo)
    requires At(s, Stamped(0, 0), 0, Uncounted(), Delete(1, rest, Finish))
    ensures var actions := [Tick(1, false), Tick(0, false)]; AllStampsFit(s, actions) && Run(s, actions).fault
  {
    var s1 := Step(s, Tick(1, false));
    assert 1 !in s1.blocks && s1.threads[0].pc == Uncounted();
    RunTwo(s, Tick(1, false), Tick(0, false));
  }

  /** From the overwritten cell on: thread 1 drops block 1, and thread 0 counts it. */
  lemma FreesAndFaults(s: State) returns (actions: seq<Action>)
    requires At(s, Stamped(0, 0), 1, Uncounted(), Count(AfterSwap(Stamped(1, 0), 0), None, Finish))
    ensures AllStampsFit(s, actions) && Run(s, actions).fault
  {
    var two, last := [Tick(1, false), Tick(1, false)], [Tick(1, false), Tick(0, false)];
    var l1 := Adjust(0, -1, 0, Nil);
    var l2 := Adjust(1, -1, 0, l1);
    Counts(s, 1, 1, Adjust(1, -1, 0, l2));
    var s1 := Run(s, two);
    Counts(s1, 2, -1, l2);
    var s2 := Run(s1, two);
    Frees(s2, l1);
    var s3 := Run(s2, two);
    Faults(s3, l1);
    actions := two + (two + (two + last));
    RunConcat(s2, two, last);
    RunConcat(s1, two, two + last);
    RunConcat(s, two, two + (two + last));
  }

  lemma PublishesAndOverwrites(s: State) returns (actions: seq<Action>)
    requires |s.threads| >= 2 && |s.cells| >= 1 && s == Init(|s.threads|, |s.cells|)
    ensures AllStampsFit(s, actions)
    ensures At(Run(s, actions), Stamped(0, 0), 1, Uncounted(), Count(AfterSwap(Stamped(1, 0), 0), None, Finish))
  {
    var call, publish := [Make(0, 1), CallCas(0, 0, 0, 1, false, false)], [Tick(0, false), Tick(0, false)];
    var store, overwrite := [CallStore(1, 0, 0, false), Tick(1, false)], [Tick(1, false)];
    Calls(s);
    var s1 := Run(s, call);
    Publishes(s1);
    var s2 := Run(s1, publish);
    CallsStore(s2);
    var s3 := Run(s2, store);
    Overwrites(s3);
    actions := call + (publish + (store + overwrite));
    RunConcat(s2, store, overwrite);
    RunConcat(s1, publish, store + overwrite);
    RunConcat(s, call, publish + (store + overwrite));
  }

  lemma UseAfterFree(threads: nat, cells: nat) returns (actions: seq<Action>)
    requires threads >= 2 && cells >= 1
    ensures AllStampsFit(Init(threads, cells), actions) && Run(Init(threads, cells), actions).fault
  {
    var s := Init(threads, cells);
    var first := PublishesAndOverwrites(s);
    var second := FreesAndFaults(Run(s, first));
    actions := first + second;
    RunConcat(s, first, second);
  }
}
