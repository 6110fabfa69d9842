/** Futures chained by Map, AndThen and OrElse (tasks/futures/fun/exe/futures/state/shared_state.hpp
    and combine/seq/map.hpp, and_then.hpp, or_else.hpp).

    Shared state number i holds the input of stage i; the last one holds the final result. In every
    state a producer sets the result and a subscriber sets the callback, in any order and
    interleaving; whoever comes second submits the callback to the executor, which runs it at any
    later time (an inline executor at once). One action is one access, memory is sequentially
    consistent. */
module FutureChain {
  import opened Counting
  import opened Options

  type Value = int
  type Error = int

  datatype Result = Ok(value: Value) | Err(error: Error)

  /** The user's functions are arbitrary. */
  datatype Stage = Map(fun: Value -> Value) | AndThen(next: Value -> Result) | OrElse(recover: Error -> Result)

  /** What the callback of a stage passes on. */
  function Apply(stage: Stage, r: Result): Result {
    match stage
    case Map(fun) => (match r case Ok(v) => Ok(fun(v)) case Err(e) => Err(e))
    case AndThen(next) => (match r case Ok(v) => next(v) case Err(e) => r)
    case OrElse(recover) => (match r case Ok(v) => r case Err(e) => recover(e))
  }

  datatype Plan = Plan(stages: seq<Stage>, input: Result)

  /** The result of the first `i` stages, one after the other. */
  function Fold(plan: Plan, i: nat): Result
    requires i <= |plan.stages|
  {
    if i == 0 then plan.input else Apply(plan.stages[i - 1], Fold(plan, i - 1))
  }

  datatype Flag = Initial | CallbackSet | ResultSet

  datatype Producer = Unset | Emplace(r: Result) | ExchangeResult | SubmitAsProducer | HasSet

  datatype Subscriber = Unsubscribed | StoreCallback | ExchangeCallback | SubmitAsSubscriber | HasSubscribed

  datatype Job = NotSubmitted | Queued(r: Result) | Invoked

  /** `result` and `callback` are emptied when the callback is submitted; `submissions` is auxiliary. */
  datatype Cell = Cell(result: Option<Result>, callback: bool, flag: Flag,
                       producer: Producer, subscriber: Subscriber, job: Job, submissions: nat)

  /** `fault` is raised by submitting without a result or a callback; `got` is what GetResult returned. */
  datatype State = State(cells: seq<Cell>, got: Option<Result>, fault: bool)

  datatype Action =
    | Provide               // the promise of the first state is about to be set
    | Subscribe(i: nat)     // stage i is about to subscribe to state i
    | ProducerStep(i: nat)
    | SubscriberStep(i: nat)
    | RunCallback(i: nat)   // the executor runs the callback of stage i
    | GetResult

  const FRESH: Cell := Cell(None, false, Initial, Unset, Unsubscribed, NotSubmitted, 0)

  function Init(plan: Plan): State {
    State(seq(|plan.stages| + 1, _ => FRESH), None, false)
  }

  // --- One access at a time

  function Step(plan: Plan, s: State, a: Action): State {
    match a
    case Provide =>
      if |s.cells| > 0 && s.cells[0].producer.Unset? then Put(s, 0, s.cells[0].(producer := Emplace(plan.input))) else s
    case Subscribe(i) =>
      if i < |plan.stages| && i < |s.cells| && s.cells[i].subscriber.Unsubscribed?
      then Put(s, i, s.cells[i].(subscriber := StoreCallback)) else s
    case ProducerStep(i) => if i < |s.cells| then ProducerNext(s, i) else s
    case SubscriberStep(i) => if i < |s.cells| then SubscriberNext(s, i) else s
    case RunCallback(i) =>
      if i < |plan.stages| && i + 1 < |s.cells| && s.cells[i].job.Queued? then Invoke(plan, s, i) else s
    case GetResult =>
      if |s.cells| > 0 && s.cells[|s.cells| - 1].result.Some? && s.got.None?
      then s.(got := s.cells[|s.cells| - 1].result) else s
  }

  function Put(s: State, i: nat, c: Cell): State
    requires i < |s.cells|
  {
    s.(cells := s.cells[i := c])
  }

  /** SetResult. */
  function ProducerNext(s: State, i: nat): State
    requires i < |s.cells|
  {
    var c := s.cells[i];
    match c.producer
    case Emplace(r) => Put(s, i, c.(result := Some(r), producer := ExchangeResult))
    case ExchangeResult =>
      Put(s, i, c.(flag := ResultSet, producer := if c.flag == CallbackSet then SubmitAsProducer else HasSet))
    case SubmitAsProducer => Submit(s, i, c.(producer := HasSet))
    case _ => s
  }

  /** SetCallback. */
  function SubscriberNext(s: State, i: nat): State
    requires i < |s.cells|
  {
    var c := s.cells[i];
    match c.subscriber
    case StoreCallback => Put(s, i, c.(callback := true, subscriber := ExchangeCallback))
    case ExchangeCallback =>
      Put(s, i, c.(flag := CallbackSet, subscriber := if c.flag == ResultSet then SubmitAsSubscriber else HasSubscribed))
    case SubmitAsSubscriber => Submit(s, i, c.(subscriber := HasSubscribed))
    case _ => s
  }

  /** SubmitCallbackIntoExecutor: result and callback move into what is submitted. */
  function Submit(s: State, i: nat, c: Cell): State
    requires i < |s.cells|
  {
    if c.result.None? || !c.callback then s.(fault := true)
    else Put(s, i, c.(result := None, callback := false, job := Queued(c.result.value), submissions := c.submissions + 1))
  }

  /** The callback of stage i runs: it is about to set the promise of the next state. */
  function Invoke(plan: Plan, s: State, i: nat): State
    requires i < |plan.stages| && i + 1 < |s.cells| && s.cells[i].job.Queued?
  {
    var s1 := Put(s, i, s.cells[i].(job := Invoked));
    Put(s1, i + 1, s.cells[i + 1].(producer := Emplace(Apply(plan.stages[i], s.cells[i].job.r))))
  }

  function Run(plan: Plan, s: State, actions: seq<Action>): State
    decreases |actions|
  {
    if actions == [] then s else Run(plan, Step(plan, s, actions[0]), actions[1..])
  }

  // --- The invariant

  predicate Announced(p: Producer) {
    p.SubmitAsProducer? || p.HasSet?
  }

  predicate Registered(u: Subscriber) {
    u.SubmitAsSubscriber? || u.HasSubscribed?
  }

  /** Of two that have met, exactly one has submitted or is about to; the result and the callback wait
      for it until then; and every result is the fold of the stages before. */
  ghost predicate CellOk(c: Cell, expected: Result) {
    var p, u := Announced(c.producer), Registered(c.subscriber);
    && (c.producer.Emplace? ==> c.producer.r == expected)
    && (c.flag == if p && u then c.flag else if p then ResultSet else if u then CallbackSet else Initial)
    && (p && u ==> c.flag != Initial)
    && c.submissions + (if c.producer.SubmitAsProducer? then 1 else 0) + (if c.subscriber.SubmitAsSubscriber? then 1 else 0) ==
         (if p && u then 1 else 0)
    && c.result == (if c.submissions == 0 && (p || c.producer.ExchangeResult?) then Some(expected) else None)
    && (c.callback <==> c.submissions == 0 && (u || c.subscriber.ExchangeCallback?))
    && (c.job.NotSubmitted? <==> c.submissions == 0)
    && (c.job.Queued? ==> c.job.r == expected)
  }

  ghost predicate CellFine(plan: Plan, s: State, i: nat)
    requires i < |s.cells| == |plan.stages| + 1
  {
    && CellOk(s.cells[i], Fold(plan, i))
    && (i > 0 ==> (s.cells[i].producer.Unset? <==> !s.cells[i - 1].job.Invoked?))
    && (i == |plan.stages| ==> s.cells[i].subscriber.Unsubscribed?)
  }

  ghost predicate Inv(plan: Plan, s: State) {
    && !s.fault && |s.cells| == |plan.stages| + 1
    && (forall i :: 0 <= i < |s.cells| ==> CellFine(plan, s, i))
    && (s.got.Some? ==> s.got.value == Fold(plan, |plan.stages|))
  }

  // --- Every step keeps the invariant

  lemma ProducerInv(plan: Plan, s: State, i: nat)
    requires Inv(plan, s) && i < |s.cells|
    ensures Inv(plan, ProducerNext(s, i))
  {
    assert CellFine(plan, s, i);
    var s' := ProducerNext(s, i);
    forall j | 0 <= j < |s'.cells| ensures CellFine(plan, s', j) { assert CellFine(plan, s, j); }
  }

  lemma SubscriberInv(plan: Plan, s: State, i: nat)
    requires Inv(plan, s) && i < |s.cells|
    ensures Inv(plan, SubscriberNext(s, i))
  {
    assert CellFine(plan, s, i);
    var s' := SubscriberNext(s, i);
    forall j | 0 <= j < |s'.cells| ensures CellFine(plan, s', j) { assert CellFine(plan, s, j); }
  }

  lemma InvokeInv(plan: Plan, s: State, i: nat)
    requires Inv(plan, s) && i < |plan.stages| && s.cells[i].job.Queued?
    ensures Inv(plan, Invoke(plan, s, i))
  {
    assert CellFine(plan, s, i) && CellFine(plan, s, i + 1);
    var s' := Invoke(plan, s, i);
    assert Fold(plan, i + 1) == Apply(plan.stages[i], Fold(plan, i));
    forall j | 0 <= j < |s'.cells| ensures CellFine(plan, s', j) { assert CellFine(plan, s, j); }
  }

  lemma StepInv(plan: Plan, s: State, a: Action)
    requires Inv(plan, s)
    ensures Inv(plan, Step(plan, s, a))
  {
    match a
    case ProducerStep(i) => if i < |s.cells| { ProducerInv(plan, s, i); }
    case SubscriberStep(i) => if i < |s.cells| { SubscriberInv(plan, s, i); }
    case RunCallback(i) => if i < |plan.stages| && s.cells[i].job.Queued? { InvokeInv(plan, s, i); }
    case _ => CallInv(plan, s, a);
  }

  lemma CallInv(plan: Plan, s: State, a: Action)
    requires Inv(plan, s) && (a.Provide? || a.Subscribe? || a.GetResult?)
    ensures Inv(plan, Step(plan, s, a))
  {
    var s' := Step(plan, s, a);
    assert CellFine(plan, s, |plan.stages|);
    forall j | 0 <= j < |s'.cells| ensures CellFine(plan, s', j) { assert CellFine(plan, s, j); }
  }

  // --- Every run

  lemma {:induction false} RunInv(plan: Plan, s: State, actions: seq<Action>)
    requires Inv(plan, s)
    ensures Inv(plan, Run(plan, s, actions))
    decreases |actions|
  {
    if actions != [] {
      StepInv(plan, s, actions[0]);
      RunInv(plan, Step(plan, s, actions[0]), actions[1..]);
    }
  }

  lemma InitInv(plan: Plan)
    ensures Inv(plan, Init(plan))
  {
    forall i | 0 <= i <= |plan.stages| ensures CellFine(plan, Init(plan), i) {}
  }

  lemma Reached(plan: Plan, actions: seq<Action>)
    ensures Inv(plan, Run(plan, Init(plan), actions))
  {
    InitInv(plan);
    RunInv(plan, Init(plan), actions);
  }

  /** In every run, for every stage: its callback is submitted at most once, never before both result
      and callback are there, and once both sides are through it has been submitted exactly once. */
  lemma SubmittedExactlyOnce(plan: Plan, actions: seq<Action>, i: nat)
    requires i <= |plan.stages|
    ensures var s := Run(plan, Init(plan), actions);
      && !s.fault && i < |s.cells| && s.cells[i].submissions <= 1
      && (s.cells[i].submissions == 1 ==> Announced(s.cells[i].producer) && Registered(s.cells[i].subscriber))
      && (s.cells[i].producer.HasSet? && s.cells[i].subscriber.HasSubscribed? ==> s.cells[i].submissions == 1)
  {
    Reached(plan, actions);
    assert CellFine(plan, Run(plan, Init(plan), actions), i);
  }

  /** In every run, whatever is in the last state, and whatever GetResult returned, is the fold of all
      stages over the input; and every callback is submitted with the fold of the stages before it. */
  lemma ResultsAreFolds(plan: Plan, actions: seq<Action>, i: nat)
    requires i <= |plan.stages|
    ensures var s := Run(plan, Init(plan), actions);
      && i < |s.cells|
      && (s.cells[i].result.Some? ==> s.cells[i].result.value == Fold(plan, i))
      && (s.cells[i].job.Queued? ==> s.cells[i].job.r == Fold(plan, i))
      && (s.got.Some? ==> s.got.value == Fold(plan, |plan.stages|))
  {
    Reached(plan, actions);
    assert CellFine(plan, Run(plan, Init(plan), actions), i);
  }

  /** The input is provided, every stage has subscribed, and nobody has a step left to take. */
  ghost predicate Settled(plan: Plan, s: State)
    requires |s.cells| == |plan.stages| + 1
  {
    && !s.cells[0].producer.Unset?
    && (forall i :: 0 <= i < |plan.stages| ==> s.cells[i].subscriber.HasSubscribed? && !s.cells[i].job.Queued?)
    && (forall i :: 0 <= i < |s.cells| ==> s.cells[i].producer.Unset? || s.cells[i].producer.HasSet?)
  }

  /** Then every callback has run, exactly once, and the final result is there. */
  lemma SettledMeansDone(plan: Plan, actions: seq<Action>)
    ensures var s := Run(plan, Init(plan), actions);
      && |s.cells| == |plan.stages| + 1
      && (Settled(plan, s) ==>
            && s.cells[|plan.stages|].result == Some(Fold(plan, |plan.stages|))
            && (forall i :: 0 <= i < |plan.stages| ==> s.cells[i].submissions == 1 && s.cells[i].job.Invoked?))
  {
    Reached(plan, actions);
    var s := Run(plan, Init(plan), actions);
    if Settled(plan, s) {
      forall i: nat | i <= |plan.stages| ensures s.cells[i].producer.HasSet? { ProducersSet(plan, s, i); }
      forall i | 0 <= i < |plan.stages| ensures s.cells[i].submissions == 1 && s.cells[i].job.Invoked? {
        assert CellFine(plan, s, i) && CellFine(plan, s, i + 1);
      }
      assert CellFine(plan, s, |plan.stages|);
    }
  }

  lemma {:induction false} ProducersSet(plan: Plan, s: State, i: nat)
    requires Inv(plan, s) && Settled(plan, s) && i <= |plan.stages|
    ensures s.cells[i].producer.HasSet?
  {
    if i > 0 {
      ProducersSet(plan, s, i - 1);
      assert CellFine(plan, s, i - 1) && CellFine(plan, s, i);
    }
  }

  // --- No run gets stuck or goes on for ever

  ghost function ProducerWorkLeft(p: Producer): int {
    match p
    case Unset => 4
    case Emplace(_) => 3
    case ExchangeResult => 2
    case SubmitAsProducer => 1
    case HasSet => 0
  }

  ghost function SubscriberWorkLeft(u: Subscriber): int {
    match u
    case Unsubscribed => 4
    case StoreCallback => 3
    case ExchangeCallback => 2
    case SubmitAsSubscriber => 1
    case HasSubscribed => 0
  }

  ghost function Work(c: Cell): int {
    ProducerWorkLeft(c.producer) + SubscriberWorkLeft(c.subscriber) +
    (match c.job case NotSubmitted => 2 case Queued(_) => 1 case Invoked => 0)
  }

  ghost function WorkFn(): Cell -> int { (c: Cell) => Work(c) }

  ghost function Left(s: State): int {
    Sum(s.cells, WorkFn()) + if s.got.Some? then 0 else 1
  }

  lemma PutWork(s: State, i: nat, c: Cell)
    requires i < |s.cells|
    ensures Left(Put(s, i, c)) == Left(s) - Work(s.cells[i]) + Work(c)
  {
    SumUpdate(s.cells, i, c, WorkFn());
  }

  lemma ProducerWork(plan: Plan, s: State, i: nat)
    requires Inv(plan, s) && i < |s.cells|
    ensures ProducerNext(s, i) == s || Left(ProducerNext(s, i)) < Left(s)
  {
    assert CellFine(plan, s, i);
    PutWork(s, i, ProducerNext(s, i).cells[i]);
  }

  lemma SubscriberWork(plan: Plan, s: State, i: nat)
    requires Inv(plan, s) && i < |s.cells|
    ensures SubscriberNext(s, i) == s || Left(SubscriberNext(s, i)) < Left(s)
  {
    assert CellFine(plan, s, i);
    PutWork(s, i, SubscriberNext(s, i).cells[i]);
  }

  /** Every step that does anything uses up some of the work left. */
  lemma EveryStepCounts(plan: Plan, s: State, a: Action)
    requires Inv(plan, s)
    ensures Step(plan, s, a) == s || 0 <= Left(Step(plan, s, a)) < Left(s)
  {
    var s' := Step(plan, s, a);
    StepInv(plan, s, a);
    SumBounds(s'.cells, WorkFn());
    match a
    case Provide => if s' != s { PutWork(s, 0, s'.cells[0]); }
    case Subscribe(i) => if s' != s { PutWork(s, i, s'.cells[i]); }
    case ProducerStep(i) => if i < |s.cells| { ProducerWork(plan, s, i); }
    case SubscriberStep(i) => if i < |s.cells| { SubscriberWork(plan, s, i); }
    case RunCallback(i) => if s' != s { InvokeWork(plan, s, i); }
    case GetResult =>
  }

  lemma InvokeWork(plan: Plan, s: State, i: nat)
    requires Inv(plan, s) && i < |plan.stages| && s.cells[i].job.Queued?
    ensures Left(Invoke(plan, s, i)) == Left(s) - 2
  {
    assert CellFine(plan, s, i + 1);
    var s1 := Put(s, i, s.cells[i].(job := Invoked));
    PutWork(s, i, s1.cells[i]);
    PutWork(s1, i + 1, Invoke(plan, s, i).cells[i + 1]);
  }

  /** The number of steps of a run that change anything. */
  ghost function Effective(plan: Plan, s: State, actions: seq<Action>): nat
    decreases |actions|
  {
    if actions == [] then 0
    else (if Step(plan, s, actions[0]) == s then 0 else 1) + Effective(plan, Step(plan, s, actions[0]), actions[1..])
  }

  lemma {:induction false} RunsAreFinite(plan: Plan, s: State, actions: seq<Action>)
    requires Inv(plan, s)
    ensures Effective(plan, s, actions) <= Left(s)
    decreases |actions|
  {
    SumBounds(s.cells, WorkFn());
    if actions != [] {
      StepInv(plan, s, actions[0]);
      EveryStepCounts(plan, s, actions[0]);
      RunsAreFinite(plan, Step(plan, s, actions[0]), actions[1..]);
    }
  }

  /** In every run, as long as the final result is not there, some step is possible: the input or a
      subscription is still to come, or a producer, a subscriber or the executor has something to do. */
  lemma NeverStuck(plan: Plan, actions: seq<Action>) returns (a: Action)
    requires var s := Run(plan, Init(plan), actions); s.cells != [] ==> s.cells[|s.cells| - 1].result.None?
    ensures var s := Run(plan, Init(plan), actions); Step(plan, s, a) != s
  {
    Reached(plan, actions);
    assert CellFine(plan, Run(plan, Init(plan), actions), |plan.stages|);
    a := NextStep(plan, Run(plan, Init(plan), actions), |plan.stages|);
  }

  /** If the result of state `i` is not there, something is possible in the states up to `i`. */
  lemma NextStep(plan: Plan, s: State, i: nat) returns (a: Action)
    requires Inv(plan, s) && i <= |plan.stages| && s.cells[i].result.None? && s.cells[i].submissions == 0
    ensures Step(plan, s, a) != s
  {
    assert CellFine(plan, s, i);
    if s.cells[i].producer.Emplace? {
      a := ProducerStep(i);
    } else if i == 0 {
      a := Provide;
    } else {
      a := StepOfPredecessor(plan, s, i);
    }
  }

  lemma {:induction false} StepOfPredecessor(plan: Plan, s: State, i: nat) returns (a: Action)
    requires Inv(plan, s) && 0 < i <= |plan.stages| && s.cells[i].producer.Unset?
    ensures Step(plan, s, a) != s
    decreases i, 0
  {
    assert CellFine(plan, s, i) && CellFine(plan, s, i - 1);
    var c := s.cells[i - 1];
    if c.job.Queued? {
      a := RunCallback(i - 1);
    } else if c.subscriber.Unsubscribed? {
      a := Subscribe(i - 1);
    } else if !c.subscriber.HasSubscribed? {
      a := SubscriberStep(i - 1);
      assert Step(plan, s, a).fault || Step(plan, s, a).cells[i - 1] != c;
    } else if c.producer.Unset? {
      if i == 1 { a := Provide; } else { a := StepOfPredecessor(plan, s, i - 1); }
    } else {
      a := ProducerStep(i - 1);
      assert Step(plan, s, a).fault || Step(plan, s, a).cells[i - 1] != c;
    }
  }

  // --- What the fold means

  /** An error passes all stages up to the next OrElse. */
  lemma {:induction false} ErrorsPass(plan: Plan, i: nat, j: nat)
    requires i <= j <= |plan.stages| && Fold(plan, i).Err?
    requires forall k :: i <= k < j ==> !plan.stages[k].OrElse?
    ensures Fold(plan, j) == Fold(plan, i)
    decreases j
  {
    if i < j { ErrorsPass(plan, i, j - 1); }
  }

  /** A value passes all OrElse stages. */
  lemma {:induction false} ValuesPass(plan: Plan, i: nat, j: nat)
    requires i <= j <= |plan.stages| && Fold(plan, i).Ok?
    requires forall k :: i <= k < j ==> plan.stages[k].OrElse?
    ensures Fold(plan, j) == Fold(plan, i)
    decreases j
  {
    if i < j { ValuesPass(plan, i, j - 1); }
  }

  /** The same meaning read from the front, on two rails: on the value rail Map and AndThen act, on the
      error rail OrElse does; AndThen and OrElse choose the rail on which the rest goes on. */
  function OnValue(stages: seq<Stage>, v: Value): Result
    decreases |stages|, 0
  {
    if stages == [] then Ok(v) else
    match stages[0]
    case Map(fun) => OnValue(stages[1..], fun(v))
    case AndThen(next) => GoOn(stages[1..], next(v))
    case OrElse(_) => OnValue(stages[1..], v)
  }

  function OnError(stages: seq<Stage>, e: Error): Result
    decreases |stages|, 0
  {
    if stages == [] then Err(e) else
    match stages[0]
    case OrElse(recover) => GoOn(stages[1..], recover(e))
    case _ => OnError(stages[1..], e)
  }

  function GoOn(stages: seq<Stage>, r: Result): Result
    decreases |stages|, 1
  {
    match r
    case Ok(v) => OnValue(stages, v)
    case Err(e) => OnError(stages, e)
  }

  /** What is left to do after `i` stages, done to their fold, is the whole. */
  lemma {:induction false} FoldIsTwoRails(plan: Plan, i: nat)
    requires i <= |plan.stages|
    ensures GoOn(plan.stages[i..], Fold(plan, i)) == GoOn(plan.stages, plan.input)
    decreases i
  {
    if i == 0 {
      assert plan.stages[0..] == plan.stages;
    } else {
      FoldIsTwoRails(plan, i - 1);
      assert plan.stages[i - 1..][0] == plan.stages[i - 1] && plan.stages[i - 1..][1..] == plan.stages[i..];
    }
  }

  /** In every run, what GetResult returned is the two-rail meaning of the chain. */
  lemma ResultIsTwoRails(plan: Plan, actions: seq<Action>)
    ensures var s := Run(plan, Init(plan), actions); s.got.Some? ==> s.got.value == GoOn(plan.stages, plan.input)
  {
    Reached(plan, actions);
    FoldIsTwoRails(plan, |plan.stages|);
    assert plan.stages[|plan.stages|..] == [];
  }

  /** GetResult returns: whenever the final result is there, that is, at the latest when all is settled, it
      yields the two-rail meaning of the chain. */
  lemma GetResultReturns(plan: Plan, actions: seq<Action>)
    ensures var s := Run(plan, Init(plan), actions);
      && |s.cells| == |plan.stages| + 1
      && (Settled(plan, s) ==> s.cells[|plan.stages|].result.Some?)
      && (s.cells[|plan.stages|].result.Some? ==> Step(plan, s, GetResult).got == Some(GoOn(plan.stages, plan.input)))
  {
    Reached(plan, actions);
    SettledMeansDone(plan, actions);
    ResultIsTwoRails(plan, actions);
    ResultIsTwoRails(plan, actions + [GetResult]);
    RunConcat(plan, Init(plan), actions, [GetResult]);
  }

  lemma RunConcat(plan: Plan, s: State, xs: seq<Action>, ys: seq<Action>)
    ensures Run(plan, s, xs + ys) == Run(plan, Run(plan, s, xs), ys)
    decreases |xs|
  {
    if xs == [] {
      assert xs + ys == ys;
    } else {
      assert (xs + ys)[0] == xs[0] && (xs + ys)[1..] == xs[1..] + ys;
      RunConcat(plan, Step(plan, s, xs[0]), xs[1..], ys);
    }
  }

  lemma {:induction false} CanGetResult(plan: Plan, s: State) returns (more: seq<Action>)
    requires Inv(plan, s)
    ensures Run(plan, s, more).got.Some?
    decreases Left(s)
  {
    if s.got.Some? {
      more := [];
    } else {
      assert CellFine(plan, s, |plan.stages|);
      var a := GetResult;
      if s.cells[|plan.stages|].result.None? { a := NextStep(plan, s, |plan.stages|); }
      StepInv(plan, s, a);
      EveryStepCounts(plan, s, a);
      var rest := CanGetResult(plan, Step(plan, s, a));
      more := [a] + rest;
    }
  }

  /** From whatever a run has led to, some continuation makes GetResult return the two-rail meaning. */
  lemma ResultArrives(plan: Plan, actions: seq<Action>) returns (more: seq<Action>)
    ensures Run(plan, Run(plan, Init(plan), actions), more).got == Some(GoOn(plan.stages, plan.input))
  {
    Reached(plan, actions);
    more := CanGetResult(plan, Run(plan, Init(plan), actions));
    RunConcat(plan, Init(plan), actions, more);
    ResultIsTwoRails(plan, actions + more);
  }

  // --- The chain object

  class Chain {
    const plan: Plan
    var cells: seq<Cell>
    var got: Option<Result>

    ghost function View(): State reads this {
      State(cells, got, false)
    }

    constructor (p: Plan)
      ensures plan == p && View() == Init(p) && Inv(p, View())
    {
      plan, cells, got := p, seq(|p.stages| + 1, _ => FRESH), None;
      new;
      InitInv(p);
    }

    method Update(i: nat, c: Cell)
      requires i < |cells|
      modifies this`cells
      ensures View() == Put(old(View()), i, c)
    {
      cells := cells[i := c];
    }

    /** The next access of SetResult. */
    method SetResult(i: nat)
      requires Inv(plan, View()) && i < |cells|
      modifies this`cells
      ensures View() == ProducerNext(old(View()), i) && Inv(plan, View())
    {
      ProducerInv(plan, View(), i);
      assert CellFine(plan, View(), i);
      var c := cells[i];
      if c.producer.Emplace? {
        Update(i, c.(result := Some(c.producer.r), producer := ExchangeResult));
      } else if c.producer.ExchangeResult? {
        Update(i, c.(flag := ResultSet, producer := if c.flag == CallbackSet then SubmitAsProducer else HasSet));
      } else if c.producer.SubmitAsProducer? {
        SubmitCallback(i, true);
      }
    }

    /** The next access of SetCallback. */
    method SetCallback(i: nat)
      requires Inv(plan, View()) && i < |cells|
      modifies this`cells
      ensures View() == SubscriberNext(old(View()), i) && Inv(plan, View())
    {
      SubscriberInv(plan, View(), i);
      assert CellFine(plan, View(), i);
      var c := cells[i];
      if c.subscriber.StoreCallback? {
        Update(i, c.(callback := true, subscriber := ExchangeCallback));
      } else if c.subscriber.ExchangeCallback? {
        Update(i, c.(flag := CallbackSet, subscriber := if c.flag == ResultSet then SubmitAsSubscriber else HasSubscribed));
      } else if c.subscriber.SubmitAsSubscriber? {
        SubmitCallback(i, false);
      }
    }

    /** Whoever came second submits: the result and the callback are there and move out, for the first
        and only time, and what the executor is given is the fold of the stages before. */
    method SubmitCallback(i: nat, byProducer: bool)
      requires Inv(plan, View()) && i < |cells|
      requires if byProducer then cells[i].producer.SubmitAsProducer? else cells[i].subscriber.SubmitAsSubscriber?
      modifies this`cells
      ensures View() == (if byProducer then ProducerNext(old(View()), i) else SubscriberNext(old(View()), i))
      ensures Inv(plan, View()) && old(cells)[i].submissions == 0 && cells[i].submissions == 1
      ensures cells[i].producer.HasSet? && cells[i].subscriber.HasSubscribed?
      ensures cells[i].job == Queued(Fold(plan, i)) && cells[i].result.None? && !cells[i].callback
    {
      if byProducer { ProducerInv(plan, View(), i); } else { SubscriberInv(plan, View(), i); }
      assert CellFine(plan, View(), i);
      var c := if byProducer then cells[i].(producer := HasSet) else cells[i].(subscriber := HasSubscribed);
      Update(i, c.(result := None, callback := false, job := Queued(c.result.value), submissions := c.submissions + 1));
    }

    /** The executor runs the callback of stage i. */
    method RunTask(i: nat)
      requires Inv(plan, View()) && i < |plan.stages| && cells[i].job.Queued?
      modifies this`cells
      ensures View() == Invoke(plan, old(View()), i) && Inv(plan, View())
    {
      InvokeInv(plan, View(), i);
      var output := Apply(plan.stages[i], cells[i].job.r);
      Update(i, cells[i].(job := Invoked));
      Update(i + 1, cells[i + 1].(producer := Emplace(output)));
    }

    method Perform(a: Action)
      requires Inv(plan, View())
      modifies this
      ensures View() == Step(plan, old(View()), a) && Inv(plan, View())
    {
      StepInv(plan, View(), a);
      if a.ProducerStep? {
        if a.i < |cells| { SetResult(a.i); }
      } else if a.SubscriberStep? {
        if a.i < |cells| { SetCallback(a.i); }
      } else if a.RunCallback? {
        if a.i < |plan.stages| && cells[a.i].job.Queued? { RunTask(a.i); }
      } else if a.Provide? {
        if cells[0].producer.Unset? { Update(0, cells[0].(producer := Emplace(plan.input))); }
      } else if a.Subscribe? {
        if a.i < |plan.stages| && cells[a.i].subscriber.Unsubscribed? { Update(a.i, cells[a.i].(subscriber := StoreCallback)); }
      } else if cells[|cells| - 1].result.Some? && got.None? {
        got := cells[|cells| - 1].result;
      }
    }

    /** Any schedule: what the theorems say of runs holds of the object. */
    method Execute(actions: seq<Action>)
      requires Inv(plan, View())
      modifies this
      ensures View() == Run(plan, old(View()), actions) && Inv(plan, View())
    {
      var i := 0;
      while i < |actions|
        invariant i <= |actions|
        invariant Inv(plan, View()) && Run(plan, View(), actions[i..]) == Run(plan, old(View()), actions)
      {
        assert actions[i..][0] == actions[i] && actions[i..][1..] == actions[i + 1..];
        Perform(actions[i]);
        i := i + 1;
      }
    }
  }
}
