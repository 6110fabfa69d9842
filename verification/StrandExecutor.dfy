/** The strand (tasks/tasks/executors/exe/executors/strand.cpp and strand.hpp, with the reference
    count of support/refer/ref_counted.hpp and the queue of support/msqueue.hpp).

    Any number of threads submit tasks and run the jobs of the underlying executor; one action is one
    atomic operation, memory is sequentially consistent. The task queue is the linearizable FIFO of
    module MichaelScottQueue, whose size_ is raised after the link and lowered after the unlink.
    A task that itself submits, or drops the strand, does so as one of the other threads. */
module StrandExecutor {
  import opened Counting
  import opened Words

  type Task = int

  /** Where a thread stands: inside Submit, or inside Run with its local queue `batch`. */
  datatype Pc =
    | Idle
    | SubmitLink(task: Task)                            // link the task into tasks_
    | SubmitSize                                        // raise tasks_.size_
    | SubmitCount                                       // raise scheduled_
    | SubmitAddRef                                      // SubmitSelf: one more reference
    | SubmitPool                                        // SubmitSelf: hand a Run to the executor
    | RunTake(batch: seq<Task>)                         // unlink the oldest task
    | RunTaken(batch: seq<Task>, task: Task)            // lower tasks_.size_
    | RunCheck(batch: seq<Task>)                        // is tasks_.size_ 0?
    | RunTasks(batch: seq<Task>, count: nat)            // start the next task, if any
    | RunTask(task: Task, batch: seq<Task>, count: nat) // executing it
    | RunComplete(count: nat)                           // lower scheduled_
    | RunAddRef
    | RunResubmit
    | RunRelease                                        // ReleaseRef

  /** `pool` is the number of Runs the executor holds; `deaths` how often the Impl was deleted; `fault`
      is raised by Take on an empty queue or by an access to a deleted Impl. Auxiliary: `linked` all
      tasks ever linked, `sized`, `subtracted`, `entered`, `completed` what was added to and
      subtracted from size_ and scheduled_, `taken` how many were unlinked, `done` those executed. */
  datatype State = State(queue: seq<Task>, size: int, scheduled: int, refs: int, alive: bool, pool: nat, deaths: nat,
                         threads: seq<Pc>, fault: bool,
                         linked: seq<Task>, sized: nat, entered: nat, taken: nat, subtracted: nat, completed: nat, done: seq<Task>)

  datatype Action =
    | CallSubmit(t: nat, task: Task)
    | Start(t: nat)  // a thread of the executor begins a Run
    | Tick(t: nat)
    | Drop           // the Strand is destroyed

  /** A new strand; its Ref is the only reference. */
  function Init(n: nat): State {
    State([], 0, 0, 1, true, 0, 0, seq(n, _ => Idle), false, [], 0, 0, 0, 0, 0, [])
  }

  // --- The operations, one atomic step at a time

  function Step(s: State, a: Action): State {
    match a
    case Drop => if s.alive then ReleaseRef(s.(alive := false)) else s
    case CallSubmit(t, task) =>
      if t < |s.threads| && s.threads[t].Idle? && s.alive then Goto(s, t, SubmitLink(task)) else s
    case Start(t) =>
      if t < |s.threads| && s.threads[t].Idle? && s.pool > 0 then Goto(s.(pool := s.pool - 1), t, RunTake([])) else s
    case Tick(t) =>
      if t >= |s.threads| || s.threads[t].Idle? then s
      else if s.threads[t].RunTasks? || s.threads[t].RunTask? then WorkStep(s, t)
      else if s.deaths > 0 then s.(fault := true)
      else if Submitting(s.threads[t]) then SubmitStep(s, t)
      else RunStep(s, t)
  }

  predicate Submitting(pc: Pc) {
    pc.SubmitLink? || pc.SubmitSize? || pc.SubmitCount? || pc.SubmitAddRef? || pc.SubmitPool?
  }

  /** From its first Take until its update of scheduled_. */
  predicate Running(pc: Pc) {
    pc.RunTake? || pc.RunTaken? || pc.RunCheck? || pc.RunTasks? || pc.RunTask? || pc.RunComplete?
  }

  function Goto(s: State, t: nat, pc: Pc): State
    requires t < |s.threads|
  {
    s.(threads := s.threads[t := pc])
  }

  function ReleaseRef(s: State): State {
    s.(refs := s.refs - 1, deaths := if s.refs == 1 then s.deaths + 1 else s.deaths)
  }

  function SubmitStep(s: State, t: nat): State
    requires t < |s.threads|
  {
    match s.threads[t]
    case SubmitLink(task) => Goto(s.(queue := s.queue + [task], linked := s.linked + [task]), t, SubmitSize)
    case SubmitSize => Goto(s.(size := Wrap(s.size + 1), sized := s.sized + 1), t, SubmitCount)
    case SubmitCount =>
      Goto(s.(scheduled := Wrap(s.scheduled + 1), entered := s.entered + 1), t,
           if s.scheduled == 0 then SubmitAddRef else Idle)
    case SubmitAddRef => Goto(s.(refs := s.refs + 1), t, SubmitPool)
    case SubmitPool => Goto(s.(pool := s.pool + 1), t, Idle)
    case _ => s
  }

  function RunStep(s: State, t: nat): State
    requires t < |s.threads|
  {
    match s.threads[t]
    case RunTake(batch) =>
      if s.queue == [] then s.(fault := true)
      else Goto(s.(queue := s.queue[1..], taken := s.taken + 1), t, RunTaken(batch, s.queue[0]))
    case RunTaken(batch, task) =>
      Goto(s.(size := Wrap(s.size - 1), subtracted := s.subtracted + 1), t, RunCheck(batch + [task]))
    case RunCheck(batch) => Goto(s, t, if s.size == 0 then RunTasks(batch, 0) else RunTake(batch))
    case RunComplete(count) =>
      Goto(s.(scheduled := Wrap(s.scheduled - count), completed := s.completed + count), t,
           if s.scheduled > count then RunAddRef else RunRelease)
    case RunAddRef => Goto(s.(refs := s.refs + 1), t, RunResubmit)
    case RunResubmit => Goto(s.(pool := s.pool + 1), t, RunRelease)
    case RunRelease => Goto(ReleaseRef(s), t, Idle)
    case _ => s
  }

  /** RunTasks works on the local queue only. */
  function WorkStep(s: State, t: nat): State
    requires t < |s.threads|
  {
    match s.threads[t]
    case RunTasks(batch, count) =>
      Goto(s, t, if batch == [] then RunComplete(count) else RunTask(batch[0], batch[1..], count))
    case RunTask(task, batch, count) => Goto(s.(done := s.done + [task]), t, RunTasks(batch, count + 1))
    case _ => s
  }

  function Run(s: State, actions: seq<Action>): State
    decreases |actions|
  {
    if actions == [] then s else Run(Step(s, actions[0]), actions[1..])
  }

  /** Inside Submit, without a reference of its own. */
  predicate Entering(pc: Pc) {
    pc.SubmitLink? || pc.SubmitSize? || pc.SubmitCount? || pc.SubmitAddRef?
  }

  /** Nobody is inside Submit without a reference, or a Run is pending that nobody else can begin. */
  predicate SafeDrop(s: State) {
    (|s.threads| == 1 && s.pool > 0) || forall t :: 0 <= t < |s.threads| ==> !Entering(s.threads[t])
  }

  /** What the client promises: the Strand is destroyed only when that is safe; and there are fewer
      than 2^64 tasks. */
  predicate Fits(s: State, a: Action) {
    && (a.Drop? && s.alive ==> SafeDrop(s))
    && (a.Tick? && a.t < |s.threads| && s.threads[a.t].SubmitLink? ==> |s.linked| + 1 < WORD)
  }

  predicate AllFit(s: State, actions: seq<Action>)
    decreases |actions|
  {
    actions == [] || (Fits(s, actions[0]) && AllFit(Step(s, actions[0]), actions[1..]))
  }

  // --- The invariant

  ghost function Unsized(pc: Pc): int { if pc.SubmitSize? then 1 else 0 }
  ghost function Unentered(pc: Pc): int { if pc.SubmitCount? then 1 else 0 }

  /** The thread is about to hand a Run to the executor, or is that Run until it gives the turn up. */
  ghost function Token(pc: Pc): int {
    if pc.SubmitAddRef? || pc.SubmitPool? || pc.RunAddRef? || pc.RunResubmit? || Running(pc) then 1 else 0
  }

  /** The references a thread stands for: one per Run, one per Run about to be handed over. */
  ghost function Refs(pc: Pc): int {
    if pc.RunResubmit? then 2
    else if pc.SubmitPool? || pc.RunAddRef? || pc.RunRelease? || Running(pc) then 1
    else 0
  }

  ghost function UnsizedFn(): Pc -> int { (pc: Pc) => Unsized(pc) }
  ghost function UnenteredFn(): Pc -> int { (pc: Pc) => Unentered(pc) }
  ghost function TokenFn(): Pc -> int { (pc: Pc) => Token(pc) }
  ghost function RefsFn(): Pc -> int { (pc: Pc) => Refs(pc) }

  /** The queue holds what was linked and not taken; tasks are executed in link order. */
  ghost predicate Ordered(s: State) {
    && s.taken <= |s.linked| < WORD && s.queue == s.linked[s.taken..]
    && s.completed <= |s.done| <= s.taken && s.done == s.linked[..|s.done|]
  }

  ghost predicate Counted(s: State) {
    && s.sized == |s.linked| - Sum(s.threads, UnsizedFn())
    && s.entered == s.sized - Sum(s.threads, UnenteredFn())
    && s.entered <= s.sized <= |s.linked|
    && s.size == Wrap(s.sized - s.subtracted)
    && s.scheduled == Wrap(s.entered - s.completed)
  }

  /** scheduled_, read as the integer entered - completed, is at least 1 exactly while one Run is
      pending, executing or about to be handed over. */
  ghost predicate OneTurn(s: State) {
    s.pool + Sum(s.threads, TokenFn()) == if s.entered > s.completed then 1 else 0
  }

  ghost predicate RefLaw(s: State) {
    && s.refs == (if s.alive then 1 else 0) + s.pool + Sum(s.threads, RefsFn())
    && s.refs >= 0 && s.deaths == if s.refs == 0 then 1 else 0
  }

  ghost predicate Resting(s: State) {
    s.taken == s.subtracted == s.completed == |s.done|
  }

  /** `batch` is the tasks linked as number `from`, ..., `to` - 1. */
  ghost predicate Batch(s: State, from: nat, to: nat, batch: seq<Task>) {
    from <= to <= |s.linked| && |batch| == to - from && forall i :: 0 <= i < |batch| ==> batch[i] == s.linked[from + i]
  }

  ghost predicate Remembers(s: State, t: nat)
    requires t < |s.threads|
  {
    match s.threads[t]
    case RunTake(batch) =>
      s.completed == |s.done| && s.subtracted == s.taken && Batch(s, s.completed, s.taken, batch) && s.taken < s.sized
    case RunTaken(batch, task) =>
      s.completed == |s.done| && s.subtracted + 1 == s.taken && Batch(s, s.completed, s.taken, batch + [task]) && s.taken <= s.sized
    case RunCheck(batch) =>
      && s.completed == |s.done| && s.subtracted == s.taken && Batch(s, s.completed, s.taken, batch) && s.taken <= s.sized
      && batch != []
    case RunTasks(batch, count) =>
      && s.completed + count == |s.done| && s.subtracted == s.taken && Batch(s, |s.done|, s.taken, batch)
      && count + |batch| > 0
    case RunTask(task, batch, count) =>
      s.completed + count == |s.done| && s.subtracted == s.taken && Batch(s, |s.done|, s.taken, [task] + batch)
    case RunComplete(count) => count > 0 && s.completed + count == |s.done| && s.subtracted == s.taken == |s.done|
    case _ => Entering(s.threads[t]) ==> s.alive || (|s.threads| == 1 && s.pool > 0)
  }

  ghost predicate NobodyRuns(s: State) {
    forall t :: 0 <= t < |s.threads| ==> !Running(s.threads[t])
  }

  ghost predicate Inv(s: State) {
    && !s.fault && Ordered(s) && Counted(s) && OneTurn(s) && RefLaw(s)
    && (NobodyRuns(s) ==> Resting(s))
    && forall t :: 0 <= t < |s.threads| ==> Remembers(s, t)
  }

  // --- Consequences of the counts

  /** Two threads cannot both have the turn, nor a thread and a pending Run. */
  lemma TurnIsUnique(s: State, t: nat)
    requires OneTurn(s) && t < |s.threads| && Token(s.threads[t]) == 1
    ensures s.pool == 0 && s.entered > s.completed
    ensures forall u :: 0 <= u < |s.threads| && u != t ==> Token(s.threads[u]) == 0
  {
    SumBounds(s.threads, TokenFn());
    forall u | 0 <= u < |s.threads| && u != t ensures Token(s.threads[u]) == 0 {
      if u < t { SumTwo(s.threads, u, t, TokenFn()); } else { SumTwo(s.threads, t, u, TokenFn()); }
    }
  }

  lemma NobodyHasTheTurn(s: State)
    requires OneTurn(s) && (s.pool > 0 || s.entered <= s.completed)
    ensures forall u :: 0 <= u < |s.threads| ==> Token(s.threads[u]) == 0
    ensures NobodyRuns(s)
  {
    SumBounds(s.threads, TokenFn());
  }

  /** A thread that stands for a reference keeps the Impl alive. */
  lemma HolderKeepsAlive(s: State, t: nat)
    requires RefLaw(s) && t < |s.threads| && (Refs(s.threads[t]) > 0 || s.alive || s.pool > 0)
    ensures s.refs > 0 && s.deaths == 0
  {
    SumBounds(s.threads, RefsFn());
  }

  lemma TokenMoves(ts: seq<Pc>, t: nat, pc: Pc)
    requires t < |ts|
    ensures Sum(ts[t := pc], TokenFn()) == Sum(ts, TokenFn()) - Token(ts[t]) + Token(pc)
  {
    SumUpdate(ts, t, pc, TokenFn());
  }

  lemma RefsMove(ts: seq<Pc>, t: nat, pc: Pc)
    requires t < |ts|
    ensures Sum(ts[t := pc], RefsFn()) == Sum(ts, RefsFn()) - Refs(ts[t]) + Refs(pc)
  {
    SumUpdate(ts, t, pc, RefsFn());
  }

  lemma CountsMove(ts: seq<Pc>, t: nat, pc: Pc)
    requires t < |ts|
    ensures Sum(ts[t := pc], UnsizedFn()) == Sum(ts, UnsizedFn()) - Unsized(ts[t]) + Unsized(pc)
    ensures Sum(ts[t := pc], UnenteredFn()) == Sum(ts, UnenteredFn()) - Unentered(ts[t]) + Unentered(pc)
  {
    SumUpdate(ts, t, pc, UnsizedFn());
    SumUpdate(ts, t, pc, UnenteredFn());
  }

  lemma SumsMove(ts: seq<Pc>, t: nat, pc: Pc)
    requires t < |ts| && Unsized(pc) == Unsized(ts[t]) && Unentered(pc) == Unentered(ts[t])
    ensures Sum(ts[t := pc], UnsizedFn()) == Sum(ts, UnsizedFn())
    ensures Sum(ts[t := pc], UnenteredFn()) == Sum(ts, UnenteredFn())
    ensures Sum(ts[t := pc], TokenFn()) == Sum(ts, TokenFn()) - Token(ts[t]) + Token(pc)
    ensures Sum(ts[t := pc], RefsFn()) == Sum(ts, RefsFn()) - Refs(ts[t]) + Refs(pc)
  {
    CountsMove(ts, t, pc);
    TokenMoves(ts, t, pc);
    RefsMove(ts, t, pc);
  }

  // --- Every step keeps the invariant

  /** What a step of a thread without the turn may change. */
  ghost predicate Grows(s: State, s': State) {
    && |s.linked| <= |s'.linked| && (forall i :: 0 <= i < |s.linked| ==> s'.linked[i] == s.linked[i])
    && s.sized <= s'.sized && s'.alive == s.alive
    && s'.taken == s.taken && s'.subtracted == s.subtracted && s'.completed == s.completed && s'.done == s.done
  }

  lemma OtherRemembers(s: State, s': State, u: nat)
    requires u < |s.threads| && u < |s'.threads| && s'.threads[u] == s.threads[u] && |s.threads| >= 2
    requires Remembers(s, u)
    requires if Running(s.threads[u]) then Grows(s, s') else s'.alive == s.alive
    ensures Remembers(s', u)
  {
    match s.threads[u]
    case RunTaken(batch, task) => assert Batch(s', s.completed, s.taken, batch + [task]);
    case RunTask(task, batch, _) => assert Batch(s', |s.done|, s.taken, [task] + batch);
    case _ =>
  }

  /** Only thread `t` moves. */
  ghost predicate Moves(s: State, s': State, t: nat) {
    t < |s.threads| == |s'.threads| && s'.threads == s.threads[t := s'.threads[t]] && s'.alive == s.alive
  }

  /** Nobody else runs, or nothing a Run relies on changes: the other threads remember. */
  lemma OthersRemember(s: State, s': State, t: nat)
    requires Inv(s) && Moves(s, s', t) && Remembers(s', t)
    requires Token(s.threads[t]) == 1 || Grows(s, s')
    ensures forall u :: 0 <= u < |s'.threads| ==> Remembers(s', u)
  {
    if Token(s.threads[t]) == 1 { TurnIsUnique(s, t); }
    forall u | 0 <= u < |s'.threads| ensures Remembers(s', u) {
      if u != t { OtherRemembers(s, s', u); }
    }
  }

  /** A thread that does not run leaves a resting strand resting. */
  lemma RestKept(s: State, s': State, t: nat)
    requires Inv(s) && Moves(s, s', t) && !Running(s.threads[t]) && Grows(s, s')
    ensures NobodyRuns(s') ==> Resting(s')
  {
    if NobodyRuns(s') {
      forall u | 0 <= u < |s.threads| ensures !Running(s.threads[u]) {
        if u != t { assert s'.threads[u] == s.threads[u]; }
      }
    }
  }

  lemma CountsBelow(s: State, s': State, t: nat)
    requires Counted(s) && Moves(s, s', t)
    requires s'.sized + Unsized(s'.threads[t]) - |s'.linked| == s.sized + Unsized(s.threads[t]) - |s.linked|
    requires s'.entered + Unentered(s'.threads[t]) - s'.sized == s.entered + Unentered(s.threads[t]) - s.sized
    requires s'.size == Wrap(s'.sized - s'.subtracted) && s'.scheduled == Wrap(s'.entered - s'.completed)
    ensures Counted(s')
  {
    CountsMove(s.threads, t, s'.threads[t]);
    SumBounds(s'.threads, UnsizedFn());
    SumBounds(s'.threads, UnenteredFn());
  }

  lemma SubmitCounted(s: State, t: nat)
    requires Counted(s) && Ordered(s) && t < |s.threads| && Submitting(s.threads[t])
    ensures Counted(SubmitStep(s, t))
  {
    WrapAdd(s.sized - s.subtracted, 1);
    WrapAdd(s.entered - s.completed, 1);
    CountsBelow(s, SubmitStep(s, t), t);
  }

  lemma TurnKept(s: State, s': State, t: nat, turn: int, turn': int)
    requires OneTurn(s) && Moves(s, s', t)
    requires turn == (if s.entered > s.completed then 1 else 0) && turn' == (if s'.entered > s'.completed then 1 else 0)
    requires s'.pool + Token(s'.threads[t]) - turn' == s.pool + Token(s.threads[t]) - turn
    ensures OneTurn(s')
  {
    TokenMoves(s.threads, t, s'.threads[t]);
  }

  /** The one thread whose increment finds 0 gets the turn, and only when nobody has it. */
  lemma SubmitTurn(s: State, t: nat)
    requires Counted(s) && Ordered(s) && OneTurn(s) && t < |s.threads| && Submitting(s.threads[t])
    ensures OneTurn(SubmitStep(s, t))
  {
    var s' := SubmitStep(s, t);
    WrapZero(s.entered - s.completed);
    TurnKept(s, s', t, if s.entered > s.completed then 1 else 0, if s'.entered > s'.completed then 1 else 0);
  }

  lemma RefLawKept(s: State, s': State, t: nat)
    requires RefLaw(s) && Moves(s, s', t) && s.refs > 0 && s'.refs > 0 && s'.deaths == s.deaths
    requires s'.refs - s.refs == s'.pool - s.pool + Refs(s'.threads[t]) - Refs(s.threads[t])
    ensures RefLaw(s')
  {
    RefsMove(s.threads, t, s'.threads[t]);
  }

  lemma SubmitRefs(s: State, t: nat)
    requires RefLaw(s) && s.refs > 0 && t < |s.threads| && Submitting(s.threads[t])
    ensures RefLaw(SubmitStep(s, t))
  {
    RefLawKept(s, SubmitStep(s, t), t);
  }

  lemma SubmitStepInv(s: State, t: nat)
    requires Inv(s) && t < |s.threads| && Submitting(s.threads[t])
    requires s.threads[t].SubmitLink? ==> |s.linked| + 1 < WORD
    ensures s.deaths == 0 && Inv(SubmitStep(s, t))
  {
    assert Remembers(s, t);
    HolderKeepsAlive(s, t);
    SubmitMoves(s, t);
    SubmitCounted(s, t);
    SubmitTurn(s, t);
    SubmitRefs(s, t);
    OthersRemember(s, SubmitStep(s, t), t);
    RestKept(s, SubmitStep(s, t), t);
  }

  lemma SubmitMoves(s: State, t: nat)
    requires Ordered(s) && t < |s.threads| && Submitting(s.threads[t]) && Remembers(s, t)
    requires s.threads[t].SubmitLink? ==> |s.linked| + 1 < WORD
    ensures var s' := SubmitStep(s, t);
      Ordered(s') && Moves(s, s', t) && Grows(s, s') && Remembers(s', t) && s'.fault == s.fault && s'.alive == s.alive
  {
  }

  /** Nothing changes but the threads, the pool, references and deaths. */
  ghost predicate SameTasks(s: State, s': State) {
    && s'.queue == s.queue && s'.size == s.size && s'.scheduled == s.scheduled && s'.linked == s.linked
    && s'.sized == s.sized && s'.entered == s.entered && s'.taken == s.taken && s'.subtracted == s.subtracted
    && s'.completed == s.completed && s'.done == s.done && s'.fault == s.fault
  }

  /** A step that leaves the tasks and their counters alone. */
  lemma MoveInv(s: State, s': State, t: nat)
    requires Inv(s) && SameTasks(s, s') && Moves(s, s', t) && Remembers(s', t)
    requires Unsized(s'.threads[t]) == Unsized(s.threads[t]) && Unentered(s'.threads[t]) == Unentered(s.threads[t])
    requires s'.pool + Token(s'.threads[t]) == s.pool + Token(s.threads[t])
    requires RefLaw(s')
    requires Running(s.threads[t]) ==> Running(s'.threads[t])
    ensures Inv(s')
  {
    SumsMove(s.threads, t, s'.threads[t]);
    OthersRemember(s, s', t);
    if !Running(s.threads[t]) { RestKept(s, s', t); }
  }

  lemma StartInv(s: State, t: nat)
    requires Inv(s) && t < |s.threads| && s.threads[t].Idle? && s.pool > 0
    ensures Inv(Step(s, Start(t)))
  {
    NobodyHasTheTurn(s);
    SumBounds(s.threads, TokenFn());
    var s' := Step(s, Start(t));
    SumsMove(s.threads, t, s'.threads[t]);
    MoveInv(s, s', t);
  }

  /** Take finds a task, and the oldest one. */
  lemma TakeInv(s: State, t: nat)
    requires Inv(s) && t < |s.threads| && s.threads[t].RunTake?
    ensures Inv(RunStep(s, t))
  {
    assert Remembers(s, t);
    TakesNext(s, t);
    var s' := RunStep(s, t);
    SumsMove(s.threads, t, s'.threads[t]);
    OthersRemember(s, s', t);
    assert Running(s'.threads[t]);
  }

  lemma TakesNext(s: State, t: nat)
    requires Ordered(s) && Counted(s) && t < |s.threads| && s.threads[t].RunTake? && Remembers(s, t)
    ensures s.queue != [] && Ordered(RunStep(s, t)) && Remembers(RunStep(s, t), t)
  {
    var s' := RunStep(s, t);
    assert s.queue[0] == s.linked[s.taken];
    assert Batch(s', s.completed, s'.taken, s.threads[t].batch + [s.queue[0]]);
  }

  lemma TakenCounts(s: State, t: nat)
    requires Inv(s) && t < |s.threads| && s.threads[t].RunTaken?
    ensures Counted(RunStep(s, t)) && OneTurn(RunStep(s, t)) && RefLaw(RunStep(s, t))
  {
    SumsMove(s.threads, t, RunStep(s, t).threads[t]);
    WrapAdd(s.sized - s.subtracted, -1);
  }

  lemma TakenInv(s: State, t: nat)
    requires Inv(s) && t < |s.threads| && s.threads[t].RunTaken?
    ensures Inv(RunStep(s, t))
  {
    assert Remembers(s, t);
    TakenCounts(s, t);
    OthersRemember(s, RunStep(s, t), t);
    assert Running(RunStep(s, t).threads[t]);
  }

  lemma CheckInv(s: State, t: nat)
    requires Inv(s) && t < |s.threads| && s.threads[t].RunCheck?
    ensures Inv(RunStep(s, t))
  {
    assert Remembers(s, t);
    var s' := RunStep(s, t);
    WrapSmall(s.sized - s.subtracted);
    SumsMove(s.threads, t, s'.threads[t]);
    MoveInv(s, s', t);
  }

  /** The unsigned comparison decides exactly whether tasks entered since are waiting. */
  lemma UnsignedTestIsRight(s: State, t: nat)
    requires Inv(s) && t < |s.threads| && s.threads[t].RunComplete?
    ensures s.scheduled > s.threads[t].count <==> s.entered > s.completed + s.threads[t].count
  {
    assert Remembers(s, t);
    TurnIsUnique(s, t);
    WrapSmall(s.entered - s.completed);
  }

  lemma CompleteInv(s: State, t: nat)
    requires Inv(s) && t < |s.threads| && s.threads[t].RunComplete?
    ensures Inv(RunStep(s, t))
  {
    assert Remembers(s, t);
    var s' := RunStep(s, t);
    CompleteTurn(s, t);
    OthersRemember(s, s', t);
    HolderKeepsAlive(s, t);
  }

  /** The turn is kept exactly if more tasks have been counted in than completed. */
  lemma CompleteTurn(s: State, t: nat)
    requires Inv(s) && t < |s.threads| && s.threads[t].RunComplete?
    ensures Counted(RunStep(s, t)) && OneTurn(RunStep(s, t))
    ensures Sum(RunStep(s, t).threads, RefsFn()) == Sum(s.threads, RefsFn())
  {
    assert Remembers(s, t);
    UnsignedTestIsRight(s, t);
    TurnIsUnique(s, t);
    SumsMove(s.threads, t, RunStep(s, t).threads[t]);
    WrapAdd(s.entered - s.completed, 0 - s.threads[t].count);
  }

  lemma HandOverRefs(s: State, t: nat)
    requires RefLaw(s) && t < |s.threads| && (s.threads[t].RunAddRef? || s.threads[t].RunResubmit? || s.threads[t].RunRelease?)
    ensures RefLaw(RunStep(s, t))
  {
    var s' := RunStep(s, t);
    HolderKeepsAlive(s, t);
    RefsMove(s.threads, t, s'.threads[t]);
  }

  lemma HandOverMoves(s: State, t: nat)
    requires t < |s.threads| && (s.threads[t].RunAddRef? || s.threads[t].RunResubmit? || s.threads[t].RunRelease?)
    ensures var s' := RunStep(s, t);
      && SameTasks(s, s') && Moves(s, s', t) && Remembers(s', t)
      && s'.pool + Token(s'.threads[t]) == s.pool + Token(s.threads[t])
  {
  }

  lemma HandOverInv(s: State, t: nat)
    requires Inv(s) && t < |s.threads| && (s.threads[t].RunAddRef? || s.threads[t].RunResubmit? || s.threads[t].RunRelease?)
    ensures Inv(RunStep(s, t))
  {
    HandOverRefs(s, t);
    HandOverMoves(s, t);
    MoveInv(s, RunStep(s, t), t);
  }

  lemma RunStepInv(s: State, t: nat)
    requires Inv(s) && t < |s.threads|
    requires !s.threads[t].Idle? && !Submitting(s.threads[t]) && !s.threads[t].RunTasks? && !s.threads[t].RunTask?
    ensures s.deaths == 0 && Inv(RunStep(s, t))
  {
    HolderKeepsAlive(s, t);
    var pc := s.threads[t];
    if pc.RunTake? {
      TakeInv(s, t);
    } else if pc.RunTaken? {
      TakenInv(s, t);
    } else if pc.RunCheck? {
      CheckInv(s, t);
    } else if pc.RunComplete? {
      CompleteInv(s, t);
    } else {
      HandOverInv(s, t);
    }
  }

  lemma NextTaskInv(s: State, t: nat)
    requires Inv(s) && t < |s.threads| && s.threads[t].RunTasks?
    ensures Inv(WorkStep(s, t))
  {
    assert Remembers(s, t);
    var s' := WorkStep(s, t);
    NextRemembered(s, t);
    SumsMove(s.threads, t, s'.threads[t]);
    MoveInv(s, s', t);
  }

  lemma NextRemembered(s: State, t: nat)
    requires t < |s.threads| && s.threads[t].RunTasks? && Remembers(s, t)
    ensures Remembers(WorkStep(s, t), t)
  {
    var batch := s.threads[t].batch;
    assert batch != [] ==> [batch[0]] + batch[1..] == batch;
  }

  lemma BatchTail(s: State, from: nat, to: nat, task: Task, batch: seq<Task>)
    requires Batch(s, from, to, [task] + batch)
    ensures task == s.linked[from] && Batch(s, from + 1, to, batch)
  {
    assert ([task] + batch)[0] == task;
    assert forall i :: 0 <= i < |batch| ==> batch[i] == ([task] + batch)[i + 1];
  }

  lemma ExecutesNext(s: State, t: nat)
    requires Ordered(s) && t < |s.threads| && s.threads[t].RunTask? && Remembers(s, t)
    ensures Ordered(WorkStep(s, t)) && Remembers(WorkStep(s, t), t)
  {
    var RunTask(task, batch, count) := s.threads[t];
    BatchTail(s, |s.done|, s.taken, task, batch);
    assert Batch(WorkStep(s, t), |s.done| + 1, s.taken, batch);
  }

  /** The counters and the turn stay. */
  lemma ExecuteCounts(s: State, t: nat)
    requires Inv(s) && t < |s.threads| && s.threads[t].RunTask?
    ensures Counted(WorkStep(s, t)) && OneTurn(WorkStep(s, t)) && RefLaw(WorkStep(s, t))
  {
    SumsMove(s.threads, t, WorkStep(s, t).threads[t]);
  }

  lemma ExecuteInv(s: State, t: nat)
    requires Inv(s) && t < |s.threads| && s.threads[t].RunTask?
    ensures Inv(WorkStep(s, t))
  {
    assert Remembers(s, t);
    ExecutesNext(s, t);
    ExecuteCounts(s, t);
    OthersRemember(s, WorkStep(s, t), t);
    assert Running(WorkStep(s, t).threads[t]);
  }

  lemma DropRemembers(s: State, s': State, u: nat)
    requires u < |s.threads| && s'.threads == s.threads && SameTasks(s, s') && s'.pool == s.pool && Remembers(s, u)
    requires !Entering(s.threads[u]) || (|s.threads| == 1 && s.pool > 0)
    ensures Remembers(s', u)
  {
    match s.threads[u]
    case RunTaken(batch, task) => assert Batch(s', s.completed, s.taken, batch + [task]);
    case RunTask(task, batch, _) => assert Batch(s', |s.done|, s.taken, [task] + batch);
    case _ =>
  }

  lemma DropInv(s: State)
    requires Inv(s) && s.alive && SafeDrop(s)
    ensures Inv(Step(s, Drop))
  {
    var s' := Step(s, Drop);
    SumBounds(s.threads, RefsFn());
    forall u | 0 <= u < |s'.threads| ensures Remembers(s', u) {
      assert Remembers(s, u);
      DropRemembers(s, s', u);
    }
  }

  lemma StepInv(s: State, a: Action)
    requires Inv(s) && Fits(s, a)
    ensures Inv(Step(s, a))
  {
    match a
    case Drop => if s.alive { DropInv(s); }
    case Start(t) => if t < |s.threads| && s.threads[t].Idle? && s.pool > 0 { StartInv(s, t); }
    case CallSubmit(t, task) =>
      if t < |s.threads| && s.threads[t].Idle? && s.alive {
        RefsMove(s.threads, t, SubmitLink(task));
        MoveInv(s, Step(s, a), t);
      }
    case Tick(t) => TickInv(s, t);
  }

  lemma TickInv(s: State, t: nat)
    requires Inv(s) && Fits(s, Tick(t))
    ensures Inv(Step(s, Tick(t)))
    ensures t < |s.threads| && !s.threads[t].Idle? && !s.threads[t].RunTasks? && !s.threads[t].RunTask? ==> s.deaths == 0
  {
    if t < |s.threads| && !s.threads[t].Idle? {
      if s.threads[t].RunTasks? {
        NextTaskInv(s, t);
      } else if s.threads[t].RunTask? {
        ExecuteInv(s, t);
      } else if Submitting(s.threads[t]) {
        SubmitStepInv(s, t);
      } else {
        RunStepInv(s, t);
      }
    }
  }

  // --- Every run

  lemma {:induction false} RunInv(s: State, actions: seq<Action>)
    requires Inv(s) && AllFit(s, actions)
    ensures Inv(Run(s, actions))
    decreases |actions|
  {
    if actions != [] {
      StepInv(s, actions[0]);
      RunInv(Step(s, actions[0]), actions[1..]);
    }
  }

  lemma InitInv(n: nat)
    ensures Inv(Init(n))
  {
    var s := Init(n);
    SumAllZero(s.threads, UnsizedFn());
    SumAllZero(s.threads, UnenteredFn());
    SumAllZero(s.threads, TokenFn());
    SumAllZero(s.threads, RefsFn());
  }

  lemma Reached(n: nat, actions: seq<Action>)
    requires AllFit(Init(n), actions)
    ensures Inv(Run(Init(n), actions))
  {
    InitInv(n);
    RunInv(Init(n), actions);
  }

  /** In every run: at most one thread is inside a Run, so tasks are never executed concurrently; and
      while one is, no other Run is pending. */
  lemma MutualExclusion(n: nat, actions: seq<Action>, t: nat, u: nat)
    requires AllFit(Init(n), actions)
    ensures var s := Run(Init(n), actions);
      && (t < |s.threads| && u < |s.threads| && Running(s.threads[t]) && Running(s.threads[u]) ==> t == u)
      && (t < |s.threads| && Running(s.threads[t]) ==> s.pool == 0)
  {
    Reached(n, actions);
    var s := Run(Init(n), actions);
    if t < |s.threads| && Running(s.threads[t]) { TurnIsUnique(s, t); }
  }

  /** The tasks that have left the queue and are not yet executed: those of the one active Run. */
  ghost predicate InHand(pc: Pc, tasks: seq<Task>) {
    match pc
    case RunTake(batch) => tasks == batch
    case RunTaken(batch, task) => tasks == batch + [task]
    case RunCheck(batch) => tasks == batch
    case RunTasks(batch, _) => tasks == batch
    case RunTask(task, batch, _) => tasks == [task] + batch
    case _ => tasks == []
  }

  lemma InHandInOrder(s: State, t: nat, tasks: seq<Task>)
    requires Inv(s) && t < |s.threads| && InHand(s.threads[t], tasks) && (Running(s.threads[t]) || NobodyRuns(s))
    ensures s.done + tasks + s.queue == s.linked
  {
    assert Remembers(s, t);
    assert tasks == s.linked[|s.done|..s.taken];
  }

  // --- The tasks submitted are the tasks linked

  /** The task that this action submits, if the call is made. */
  ghost function Submitted(s: State, a: Action): seq<Task> {
    if a.CallSubmit? && a.t < |s.threads| && s.threads[a.t].Idle? && s.alive then [a.task] else []
  }

  /** The tasks that the client submits in a run. */
  ghost function Accepted(s: State, actions: seq<Action>): seq<Task>
    decreases |actions|
  {
    if actions == [] then [] else Submitted(s, actions[0]) + Accepted(Step(s, actions[0]), actions[1..])
  }

  ghost function LinkingFn(task: Task): Pc -> int { (pc: Pc) => if pc == SubmitLink(task) then 1 else 0 }

  /** How often a task is linked or on its way to be. */
  ghost function Received(s: State, task: Task): int {
    multiset(s.linked)[task] + Sum(s.threads, LinkingFn(task))
  }

  /** A step that links nothing. */
  ghost predicate LinksNothing(s: State, s': State, t: nat) {
    && t < |s.threads| && s'.linked == s.linked && |s'.threads| == |s.threads|
    && s'.threads == s.threads[t := s'.threads[t]] && !s.threads[t].SubmitLink? && !s'.threads[t].SubmitLink?
  }

  lemma NothingReceived(s: State, s': State, t: nat, task: Task)
    requires LinksNothing(s, s', t)
    ensures Received(s', task) == Received(s, task)
  {
    SumUpdate(s.threads, t, s'.threads[t], LinkingFn(task));
  }

  lemma LinkReceives(s: State, t: nat, task: Task)
    requires t < |s.threads| && s.threads[t].SubmitLink?
    ensures Received(SubmitStep(s, t), task) == Received(s, task)
  {
    SumUpdate(s.threads, t, SubmitSize, LinkingFn(task));
  }

  lemma SubmitLinksNothing(s: State, t: nat)
    requires t < |s.threads| && Submitting(s.threads[t]) && !s.threads[t].SubmitLink?
    ensures LinksNothing(s, SubmitStep(s, t), t)
  {
  }

  lemma RunLinksNothing(s: State, t: nat)
    requires t < |s.threads| && !Submitting(s.threads[t])
    ensures LinksNothing(s, RunStep(s, t), t) && LinksNothing(s, WorkStep(s, t), t)
  {
  }

  lemma SubmitReceives(s: State, t: nat, submitted: Task, task: Task)
    requires t < |s.threads| && s.threads[t].Idle?
    ensures Received(Goto(s, t, SubmitLink(submitted)), task) == Received(s, task) + multiset([submitted])[task]
  {
    SumUpdate(s.threads, t, SubmitLink(submitted), LinkingFn(task));
  }

  lemma StartReceives(s: State, t: nat, task: Task)
    ensures Received(Step(s, Start(t)), task) == Received(s, task)
  {
    var s' := Step(s, Start(t));
    if t < |s.threads| && s.threads[t].Idle? && s.pool > 0 { NothingReceived(s, s', t, task); }
  }

  lemma CallReceives(s: State, a: Action, task: Task)
    requires !a.Tick?
    ensures Received(Step(s, a), task) == Received(s, task) + multiset(Submitted(s, a))[task]
  {
    if a.Start? {
      StartReceives(s, a.t, task);
    } else if a.CallSubmit? && Submitted(s, a) != [] {
      SubmitReceives(s, a.t, a.task, task);
    }
  }

  lemma TickReceives(s: State, t: nat, task: Task)
    ensures Received(Step(s, Tick(t)), task) == Received(s, task)
  {
    if t < |s.threads| && !s.threads[t].Idle? {
      if s.threads[t].SubmitLink? {
        LinkReceives(s, t, task);
      } else if Submitting(s.threads[t]) {
        SubmitLinksNothing(s, t);
        NothingReceived(s, SubmitStep(s, t), t, task);
      } else {
        RunLinksNothing(s, t);
        NothingReceived(s, RunStep(s, t), t, task);
        NothingReceived(s, WorkStep(s, t), t, task);
      }
    }
  }

  lemma StepReceives(s: State, a: Action, task: Task)
    ensures Received(Step(s, a), task) == Received(s, task) + multiset(Submitted(s, a))[task]
  {
    if a.Tick? { TickReceives(s, a.t, task); } else { CallReceives(s, a, task); }
  }

  lemma {:induction false} RunReceives(s: State, actions: seq<Action>, task: Task)
    ensures Received(Run(s, actions), task) == Received(s, task) + multiset(Accepted(s, actions))[task]
    decreases |actions|
  {
    if actions != [] {
      StepReceives(s, actions[0], task);
      RunReceives(Step(s, actions[0]), actions[1..], task);
    }
  }

  lemma AllReceived(s: State, actions: seq<Action>, s': State)
    requires s' == Run(s, actions) && s.linked == [] && forall t :: 0 <= t < |s.threads| ==> s.threads[t].Idle?
    ensures forall task :: Received(s', task) == multiset(Accepted(s, actions))[task]
  {
    forall task ensures Received(s', task) == multiset(Accepted(s, actions))[task] {
      RunReceives(s, actions, task);
      SumAllZero(s.threads, LinkingFn(task));
    }
  }

  lemma InitReceived(n: nat, actions: seq<Action>)
    ensures forall task :: Received(Run(Init(n), actions), task) == multiset(Accepted(Init(n), actions))[task]
  {
    AllReceived(Init(n), actions, Run(Init(n), actions));
  }

  /** In every run: Take never meets an empty queue and nothing deleted is touched; the tasks executed,
      then those in the hands of the running thread, then the queue, are exactly the tasks linked, in
      link order; and each task has been linked, or is about to be, as often as the client submitted
      it. So each is executed at most once, in that order, and none is lost. */
  lemma NothingLost(n: nat, actions: seq<Action>, t: nat, tasks: seq<Task>)
    requires AllFit(Init(n), actions)
    requires var s := Run(Init(n), actions); t < |s.threads| && InHand(s.threads[t], tasks)
    requires var s := Run(Init(n), actions); Running(s.threads[t]) || NobodyRuns(s)
    ensures var s := Run(Init(n), actions);
      && !s.fault && s.done + tasks + s.queue == s.linked
      && forall task :: multiset(s.linked)[task] + Sum(s.threads, LinkingFn(task)) == multiset(Accepted(Init(n), actions))[task]
  {
    Reached(n, actions);
    InitReceived(n, actions);
    var s := Run(Init(n), actions);
    InHandInOrder(s, t, tasks);
  }

  lemma SizeCountsTaken(s: State, t: nat)
    requires Inv(s) && t < |s.threads| && s.threads[t].RunTaken?
    ensures s.size >= 1
  {
    assert Remembers(s, t);
    WrapSmall(s.sized - s.subtracted);
  }

  /** In every run: scheduled_ is the wrapped difference of submissions counted and tasks completed,
      which may be negative; that difference is positive exactly while one Run is pending, executing
      or about to be handed over; and size_, wherever a Run lowers it, is at least 1. */
  lemma CountersMean(n: nat, actions: seq<Action>)
    requires AllFit(Init(n), actions)
    ensures var s := Run(Init(n), actions);
      && s.scheduled == Wrap(s.entered - s.completed)
      && s.pool + Sum(s.threads, TokenFn()) == (if s.entered > s.completed then 1 else 0)
      && s.size == Wrap(s.sized - s.subtracted)
      && (forall t :: 0 <= t < |s.threads| && s.threads[t].RunTaken? ==> s.size >= 1)
  {
    Reached(n, actions);
    CountsOf(Run(Init(n), actions));
  }

  lemma CountsOf(s: State)
    requires Inv(s)
    ensures s.scheduled == Wrap(s.entered - s.completed) && s.size == Wrap(s.sized - s.subtracted)
    ensures s.pool + Sum(s.threads, TokenFn()) == (if s.entered > s.completed then 1 else 0)
    ensures forall t :: 0 <= t < |s.threads| && s.threads[t].RunTaken? ==> s.size >= 1
  {
    forall t | 0 <= t < |s.threads| && s.threads[t].RunTaken? ensures s.size >= 1 { SizeCountsTaken(s, t); }
  }

  ghost predicate Quiet(s: State) {
    s.pool == 0 && forall t :: 0 <= t < |s.threads| ==> s.threads[t].Idle?
  }

  lemma QuietIsDone(s: State)
    requires Inv(s) && Quiet(s)
    ensures s.queue == [] && s.done == s.linked && s.size == 0 && s.scheduled == 0
  {
    SumAllZero(s.threads, UnsizedFn());
    SumAllZero(s.threads, UnenteredFn());
    SumAllZero(s.threads, TokenFn());
    assert NobodyRuns(s);
    assert s.entered == s.sized == |s.linked| == s.completed;
  }

  lemma QuietHasReceived(s: State, accepted: seq<Task>)
    requires Quiet(s) && forall task :: Received(s, task) == multiset(accepted)[task]
    ensures multiset(s.linked) == multiset(accepted)
  {
    forall task ensures multiset(s.linked)[task] == multiset(accepted)[task] {
      SumAllZero(s.threads, LinkingFn(task));
      assert Received(s, task) == multiset(accepted)[task];
    }
  }

  /** When no Submit and no Run is outstanding, exactly the tasks that the client submitted have been
      executed, each as often as it was submitted, the queue is empty and both counters are back to 0. */
  lemma QuietMeansDone(n: nat, actions: seq<Action>)
    requires AllFit(Init(n), actions) && Quiet(Run(Init(n), actions))
    ensures var s := Run(Init(n), actions);
      && multiset(s.done) == multiset(Accepted(Init(n), actions)) && s.done == s.linked
      && s.queue == [] && s.size == 0 && s.scheduled == 0
  {
    Reached(n, actions);
    InitReceived(n, actions);
    var s := Run(Init(n), actions);
    QuietIsDone(s);
    QuietHasReceived(s, Accepted(Init(n), actions));
  }

  lemma UnreferencedIsQuiet(s: State)
    requires Inv(s) && s.refs == 0
    ensures Quiet(s) && s.queue == [] && s.done == s.linked
  {
    NobodyTouches(s);
    QuietIsDone(s);
  }

  lemma NobodyTouches(s: State)
    requires Inv(s) && s.refs == 0
    ensures Quiet(s)
  {
    SumBounds(s.threads, RefsFn());
    forall t | 0 <= t < |s.threads| ensures s.threads[t].Idle? {
      assert Remembers(s, t);
      assert RefsFn()(s.threads[t]) <= 0;
    }
  }

  /** In every run: the references are the Strand's own, while it is alive, plus one for every Run
      handed over and not yet released (two while a Run hands over its successor); the Impl is deleted
      at most once, exactly when they are gone, and then nothing is queued, every task submitted has
      been executed and no thread will touch the Impl again. */
  lemma Lifetime(n: nat, actions: seq<Action>)
    requires AllFit(Init(n), actions)
    ensures var s := Run(Init(n), actions);
      && s.refs == (if s.alive then 1 else 0) + s.pool + Sum(s.threads, RefsFn())
      && s.deaths == (if s.refs == 0 then 1 else 0)
      && (s.deaths == 1 ==> Quiet(s) && s.queue == [] && multiset(s.done) == multiset(Accepted(Init(n), actions)))
  {
    Reached(n, actions);
    var s := Run(Init(n), actions);
    if s.refs == 0 {
      UnreferencedIsQuiet(s);
      InitReceived(n, actions);
      QuietHasReceived(s, Accepted(Init(n), actions));
    }
  }

  lemma NoReferences(s: State)
    requires Inv(s)
    ensures s.refs == 0 <==> !s.alive && s.pool == 0 && forall t :: 0 <= t < |s.threads| ==> Refs(s.threads[t]) == 0
    ensures s.refs == 0 ==> Quiet(s) && s.queue == [] && s.done == s.linked
  {
    if s.refs == 0 { UnreferencedIsQuiet(s); }
    if forall t :: 0 <= t < |s.threads| ==> Refs(s.threads[t]) == 0 { SumAllZero(s.threads, RefsFn()); }
  }

  // --- When the Strand may be destroyed

  /** From this state on no run of fewer than 2^64 tasks touches the deleted Impl. */
  ghost predicate NeverFaults(s: State) {
    forall actions :: AllFit(s, actions) ==> !Run(s, actions).fault
  }

  /** The client's promise is exactly what is needed: destroying the Strand is safe if and only if
      nobody is inside Submit before its AddRef, or the only thread is and a Run is pending. */
  lemma DropIsSafeExactly(s: State)
    requires Inv(s) && s.alive && |s.linked| + |s.threads| < WORD
    ensures NeverFaults(Step(s, Drop)) <==> SafeDrop(s)
  {
    if SafeDrop(s) {
      StepInv(s, Drop);
      forall actions | AllFit(Step(s, Drop), actions) ensures !Run(Step(s, Drop), actions).fault {
        RunInv(Step(s, Drop), actions);
      }
    } else {
      var t :| 0 <= t < |s.threads| && Entering(s.threads[t]);
      LinkersBound(s.threads);
      SumBounds(s.threads, TokenFn());
      var actions := DrainAndFault(s, t);
    }
  }

  ghost function LinkerFn(): Pc -> int { (pc: Pc) => if pc.SubmitLink? then 1 else 0 }

  ghost function Linkers(ts: seq<Pc>): int { Sum(ts, LinkerFn()) }

  lemma LinkersBound(ts: seq<Pc>)
    ensures 0 <= Linkers(ts) <= |ts|
    ensures forall t :: 0 <= t < |ts| && ts[t].SubmitLink? ==> Linkers(ts) >= 1
  {
    SumFull(ts, LinkerFn());
    SumBounds(ts, LinkerFn());
    assert forall t :: 0 <= t < |ts| && ts[t].SubmitLink? ==> LinkerFn()(ts[t]) == 1;
  }

  /** What the other threads have still to do when `n` tasks have been linked. */
  ghost function Work(pc: Pc, n: nat): nat {
    match pc
    case Idle => 0
    case SubmitLink(_) => 0
    case SubmitSize => 2 * n + 14
    case SubmitCount => 2 * n + 13
    case SubmitAddRef => 2 * n + 12
    case SubmitPool => 2 * n + 11
    case RunTake(_) => 2 * n + 6
    case RunTaken(_, _) => 2 * n + 8
    case RunCheck(_) => 2 * n + 7
    case RunTasks(batch, _) => 2 * |batch| + 5
    case RunTask(_, batch, _) => 2 * |batch| + 6
    case RunComplete(_) => 4
    case RunAddRef => 2 * n + 12
    case RunResubmit => 2 * n + 11
    case RunRelease => 1
  }

  ghost function WorkFn(n: nat): Pc -> int { (pc: Pc) => Work(pc, n) }

  ghost function WorkLeft(s: State): nat
    requires Ordered(s)
  {
    SumBounds(s.threads, WorkFn(|s.linked|));
    3 * (|s.linked| - s.taken) + (if s.pool > 0 then 2 * |s.linked| + 9 else 0) + Sum(s.threads, WorkFn(|s.linked|))
  }

  /** One more thing that a thread other than `t` can do. */
  ghost predicate Drains(s: State, t: nat, a: Action) {
    && (a.Tick? || a.Start?) && a.t < |s.threads| && a.t != t
    && (if a.Start? then s.threads[a.t].Idle? && s.pool > 0 else !s.threads[a.t].Idle?)
  }

  lemma SomethingDrains(s: State, t: nat) returns (a: Action)
    requires RefLaw(s) && s.alive && s.refs >= 2 && t < |s.threads| && Entering(s.threads[t])
    requires |s.threads| >= 2 || s.pool == 0
    ensures Drains(s, t, a)
  {
    if Sum(s.threads, RefsFn()) > 0 {
      var u := SumWitness(s.threads, RefsFn());
      a := Tick(u);
    } else {
      var v: nat := if t == 0 then 1 else 0;
      a := if s.threads[v].Idle? then Start(v) else Tick(v);
    }
  }

  function Dropped(s: State): State {
    ReleaseRef(s.(alive := false))
  }

  lemma SubmitCommutes(s: State, u: nat)
    requires s.refs >= 2 && u < |s.threads| && Submitting(s.threads[u])
    ensures SubmitStep(Dropped(s), u) == Dropped(SubmitStep(s, u)) && SubmitStep(s, u).alive == s.alive
  {
  }

  lemma RunCommutes(s: State, u: nat)
    requires s.refs >= 2 && u < |s.threads| && !Submitting(s.threads[u])
    ensures RunStep(Dropped(s), u) == Dropped(RunStep(s, u)) && RunStep(s, u).alive == s.alive
  {
    match s.threads[u]
    case RunTake(_) =>
    case RunTaken(_, _) =>
    case RunCheck(_) =>
    case RunComplete(_) =>
    case RunRelease =>
    case _ =>
  }

  lemma WorkCommutes(s: State, u: nat)
    requires s.refs >= 2 && u < |s.threads| && (s.threads[u].RunTasks? || s.threads[u].RunTask?)
    ensures WorkStep(Dropped(s), u) == Dropped(WorkStep(s, u)) && WorkStep(s, u).alive == s.alive
  {
  }

  /** As long as others hold references, what they do is the same before and after the Drop. */
  lemma DropCommutes(s: State, t: nat, a: Action)
    requires RefLaw(s) && s.alive && s.refs >= 2 && Drains(s, t, a)
    ensures Step(Step(s, Drop), a) == Step(Step(s, a), Drop) && Step(s, a).alive
  {
    if a.Tick? {
      if Submitting(s.threads[a.t]) {
        SubmitCommutes(s, a.t);
      } else if s.threads[a.t].RunTasks? || s.threads[a.t].RunTask? {
        WorkCommutes(s, a.t);
      } else {
        RunCommutes(s, a.t);
      }
    }
  }

  /** Draining makes progress: a task is linked, or some are completed, or less work is left. */
  ghost predicate Progress(s: State, s': State)
    requires Ordered(s) && Ordered(s')
  {
    && Linkers(s'.threads) <= Linkers(s.threads)
    && |s'.linked| + Linkers(s'.threads) == |s.linked| + Linkers(s.threads)
    && (Linkers(s'.threads) == Linkers(s.threads) ==>
          s'.completed > s.completed || (s'.completed == s.completed && WorkLeft(s') < WorkLeft(s)))
  }

  /** Less work, with the same tasks linked and completed. */
  lemma LessWork(s: State, s': State, u: nat)
    requires Ordered(s) && Ordered(s') && u < |s.threads| == |s'.threads| && s'.threads == s.threads[u := s'.threads[u]]
    requires s'.linked == s.linked && s'.completed == s.completed
    requires !s.threads[u].SubmitLink? && !s'.threads[u].SubmitLink?
    requires var n := |s.linked|;
             (if s'.pool > 0 then 2 * n + 9 else 0) + Work(s'.threads[u], n) - 3 * s'.taken
             < (if s.pool > 0 then 2 * n + 9 else 0) + Work(s.threads[u], n) - 3 * s.taken
    ensures Progress(s, s')
  {
    SumUpdate(s.threads, u, s'.threads[u], WorkFn(|s.linked|));
    SumUpdate(s.threads, u, s'.threads[u], LinkerFn());
  }

  lemma StartProgresses(s: State, t: nat, a: Action)
    requires Inv(s) && Drains(s, t, a) && a.Start?
    ensures Ordered(Step(s, a)) && Progress(s, Step(s, a))
  {
    SumBounds(s.threads, TokenFn());
    LessWork(s, Step(s, a), a.t);
  }

  lemma LinkProgresses(s: State, u: nat)
    requires Ordered(s) && u < |s.threads| && s.threads[u].SubmitLink? && Ordered(SubmitStep(s, u))
    ensures Progress(s, SubmitStep(s, u))
  {
    SumUpdate(s.threads, u, SubmitSize, LinkerFn());
  }

  lemma SubmitProgresses(s: State, u: nat)
    requires Inv(s) && u < |s.threads| && Submitting(s.threads[u]) && Ordered(SubmitStep(s, u))
    ensures Progress(s, SubmitStep(s, u))
  {
    if s.threads[u].SubmitLink? {
      LinkProgresses(s, u);
    } else {
      if Token(s.threads[u]) == 1 { TurnIsUnique(s, u); }
      LessWork(s, SubmitStep(s, u), u);
    }
  }

  lemma CompleteProgresses(s: State, u: nat)
    requires Ordered(s) && u < |s.threads| && s.threads[u].RunComplete? && s.threads[u].count > 0 && Ordered(RunStep(s, u))
    ensures Progress(s, RunStep(s, u))
  {
    SumUpdate(s.threads, u, RunStep(s, u).threads[u], LinkerFn());
  }

  lemma RunProgresses(s: State, u: nat)
    requires Inv(s) && u < |s.threads| && !Submitting(s.threads[u]) && !s.threads[u].Idle?
    requires !s.threads[u].RunTasks? && !s.threads[u].RunTask? && Ordered(RunStep(s, u))
    ensures Progress(s, RunStep(s, u))
  {
    assert Remembers(s, u);
    if s.threads[u].RunComplete? {
      CompleteProgresses(s, u);
    } else {
      if Token(s.threads[u]) == 1 { TurnIsUnique(s, u); }
      LessWork(s, RunStep(s, u), u);
    }
  }

  lemma WorkProgresses(s: State, u: nat)
    requires Inv(s) && u < |s.threads| && (s.threads[u].RunTasks? || s.threads[u].RunTask?) && Ordered(WorkStep(s, u))
    ensures Progress(s, WorkStep(s, u))
  {
    LessWork(s, WorkStep(s, u), u);
  }

  lemma DrainProgresses(s: State, t: nat, a: Action)
    requires Inv(s) && Drains(s, t, a) && s.deaths == 0 && |s.linked| + Linkers(s.threads) < WORD
    ensures Fits(s, a) && Ordered(Step(s, a)) && Progress(s, Step(s, a))
  {
    LinkersBound(s.threads);
    StepInv(s, a);
    if a.Start? {
      StartProgresses(s, t, a);
    } else if Submitting(s.threads[a.t]) {
      SubmitProgresses(s, a.t);
    } else if s.threads[a.t].RunTasks? || s.threads[a.t].RunTask? {
      WorkProgresses(s, a.t);
    } else {
      RunProgresses(s, a.t);
    }
  }

  lemma DrainKeepsThread(s: State, t: nat, a: Action)
    requires Drains(s, t, a) && t < |s.threads|
    ensures |Step(s, a).threads| == |s.threads| && Step(s, a).threads[t] == s.threads[t]
  {
    if a.Tick? {
      if s.threads[a.t].RunTasks? || s.threads[a.t].RunTask? {
        assert Step(s, a) == WorkStep(s, a.t);
      } else if s.deaths == 0 && Submitting(s.threads[a.t]) {
        assert Step(s, a) == SubmitStep(s, a.t);
      } else if s.deaths == 0 {
        assert Step(s, a) == RunStep(s, a.t);
      }
    }
  }

  /** After an unsafe Drop the others can be run until no reference is left; then thread `t` touches the
      deleted Impl. */
  lemma {:induction false} DrainAndFault(s: State, t: nat) returns (actions: seq<Action>)
    requires Inv(s) && s.alive && t < |s.threads| && Entering(s.threads[t])
    requires |s.threads| >= 2 || s.pool == 0
    requires |s.linked| + Linkers(s.threads) < WORD
    ensures AllFit(Step(s, Drop), actions) && Run(Step(s, Drop), actions).fault
    decreases Linkers(s.threads), |s.linked| - s.completed, WorkLeft(s)
  {
    LinkersBound(s.threads);
    HolderKeepsAlive(s, t);
    if s.refs == 1 {
      actions := [Tick(t)];
      RunCons(Step(s, Drop), Tick(t), []);
      assert [Tick(t)] + [] == [Tick(t)];
    } else {
      var a := SomethingDrains(s, t);
      DrainProgresses(s, t, a);
      StepInv(s, a);
      DropCommutes(s, t, a);
      DrainKeepsThread(s, t, a);
      SoloHasNoOther(s, t, a);
      var rest := DrainAndFault(Step(s, a), t);
      actions := [a] + rest;
      RunCons(Step(s, Drop), a, rest);
    }
  }

  lemma SoloHasNoOther(s: State, t: nat, a: Action)
    requires Drains(s, t, a) && t < |s.threads|
    ensures |s.threads| >= 2
  {
  }

  lemma RunCons(s: State, a: Action, rest: seq<Action>)
    ensures Run(s, [a] + rest) == Run(Step(s, a), rest)
    ensures AllFit(s, [a] + rest) <==> Fits(s, a) && AllFit(Step(s, a), rest)
  {
    assert ([a] + rest)[1..] == rest;
  }

  // --- Everything submitted gets done

  /** Unless all is quiet, some thread has something to do, or a Run is pending and some thread is idle. */
  lemma SomethingIsLeft(s: State) returns (a: Action)
    requires Inv(s) && !Quiet(s) && |s.threads| > 0
    ensures Drains(s, |s.threads|, a) && s.deaths == 0
  {
    if s.refs == 0 { NobodyTouches(s); }
    if t: nat :| t < |s.threads| && !s.threads[t].Idle? {
      a := Tick(t);
    } else {
      a := Start(0);
    }
  }

  lemma NothingSubmitted(s: State, a: Action, task: Task)
    requires a.Tick? || a.Start?
    ensures Received(Step(s, a), task) == Received(s, task)
  {
    StepReceives(s, a, task);
  }

  lemma DrainKeepsCount(s: State, a: Action)
    requires Drains(s, |s.threads|, a)
    ensures |Step(s, a).threads| == |s.threads|
  {
    if a.Tick? {
      if s.threads[a.t].RunTasks? || s.threads[a.t].RunTask? {
        assert Step(s, a) == WorkStep(s, a.t);
      } else if s.deaths == 0 && Submitting(s.threads[a.t]) {
        assert Step(s, a) == SubmitStep(s, a.t);
      } else if s.deaths == 0 {
        assert Step(s, a) == RunStep(s, a.t);
      }
    }
  }

  lemma {:induction false} CanFinish(s: State) returns (more: seq<Action>)
    requires Inv(s) && |s.linked| + Linkers(s.threads) < WORD && |s.threads| > 0
    ensures AllFit(s, more) && Quiet(Run(s, more)) && forall a :: a in more ==> a.Tick? || a.Start?
    ensures forall task :: Received(Run(s, more), task) == Received(s, task)
    decreases Linkers(s.threads), |s.linked| - s.completed, WorkLeft(s)
  {
    LinkersBound(s.threads);
    if Quiet(s) {
      more := [];
    } else {
      var a := SomethingIsLeft(s);
      DrainProgresses(s, |s.threads|, a);
      StepInv(s, a);
      DrainKeepsCount(s, a);
      LinkersBound(Step(s, a).threads);
      var rest := CanFinish(Step(s, a));
      more := [a] + rest;
      RunCons(s, a, rest);
      forall task ensures Received(Run(s, more), task) == Received(s, task) { NothingSubmitted(s, a, task); }
    }
  }

  lemma {:induction false} NobodyThere(s: State, actions: seq<Action>)
    requires |s.threads| == 0 && s.pool == 0
    ensures Quiet(Run(s, actions))
    decreases |actions|
  {
    if actions != [] { NobodyThere(Step(s, actions[0]), actions[1..]); }
  }

  /** What has been submitted by the end of a run has been executed when all is quiet. */
  ghost predicate AllDone(s: State, accepted: seq<Task>) {
    Quiet(s) && s.queue == [] && multiset(s.done) == multiset(accepted)
  }

  lemma QuietAllDone(s: State, accepted: seq<Task>)
    requires Inv(s) && Quiet(s) && forall task :: Received(s, task) == multiset(accepted)[task]
    ensures AllDone(s, accepted)
  {
    QuietIsDone(s);
    QuietHasReceived(s, accepted);
  }

  lemma FinishesFrom(s: State, accepted: seq<Task>) returns (more: seq<Action>)
    requires Inv(s) && |s.linked| + |s.threads| < WORD && (|s.threads| == 0 ==> Quiet(s))
    requires forall task :: Received(s, task) == multiset(accepted)[task]
    ensures AllFit(s, more) && AllDone(Run(s, more), accepted) && forall a :: a in more ==> a.Tick? || a.Start?
  {
    LinkersBound(s.threads);
    if |s.threads| == 0 {
      more := [];
    } else {
      more := CanFinish(s);
      RunInv(s, more);
    }
    QuietAllDone(Run(s, more), accepted);
  }

  /** From whatever a run has led to, of fewer than 2^64 tasks, the threads can be brought to rest with
      everything submitted executed, the Strand destroyed meanwhile or not, and with no new Submit. */
  lemma EverythingGetsDone(n: nat, actions: seq<Action>) returns (more: seq<Action>)
    requires AllFit(Init(n), actions) && |Run(Init(n), actions).linked| + |Run(Init(n), actions).threads| < WORD
    ensures var s := Run(Init(n), actions);
      && AllFit(s, more) && AllDone(Run(s, more), Accepted(Init(n), actions))
      && forall a :: a in more ==> a.Tick? || a.Start?
  {
    Reached(n, actions);
    InitReceived(n, actions);
    if n == 0 { NobodyThere(Init(n), actions); }
    ThreadsStay(Init(n), actions);
    more := FinishesFrom(Run(Init(n), actions), Accepted(Init(n), actions));
  }

  lemma {:induction false} ThreadsStay(s: State, actions: seq<Action>)
    ensures |Run(s, actions).threads| == |s.threads|
    decreases |actions|
  {
    if actions != [] {
      StepKeepsThreads(s, actions[0]);
      ThreadsStay(Step(s, actions[0]), actions[1..]);
    }
  }

  lemma StepKeepsThreads(s: State, a: Action)
    ensures |Step(s, a).threads| == |s.threads|
  {
    if a.Tick? && a.t < |s.threads| && !s.threads[a.t].Idle? { DrainKeepsCount(s, a); }
  }

  // --- The strand object

  class StrandImpl {
    var queue: seq<Task>
    var size: int
    var scheduled: int
    var refs: int
    var alive: bool
    var pool: nat
    var deaths: nat
    var threads: seq<Pc>
    // auxiliary
    var linked: seq<Task>
    var sized: nat
    var entered: nat
    var taken: nat
    var subtracted: nat
    var completed: nat
    var done: seq<Task>

    ghost function View(): State reads this {
      State(queue, size, scheduled, refs, alive, pool, deaths, threads, false,
            linked, sized, entered, taken, subtracted, completed, done)
    }

    constructor (n: nat)
      ensures View() == Init(n) && Inv(View())
    {
      queue, size, scheduled, refs, alive, pool, deaths := [], 0, 0, 1, true, 0, 0;
      threads := seq(n, _ => Idle);
      linked, sized, entered, taken, subtracted, completed, done := [], 0, 0, 0, 0, 0, [];
      new;
      assert View() == Init(n);
      InitInv(n);
    }

    method MoveTo(t: nat, pc: Pc)
      requires t < |threads|
      modifies this`threads
      ensures View() == Goto(old(View()), t, pc)
    {
      threads := threads[t := pc];
    }

    method AddRef()
      modifies this`refs
      ensures View() == old(View()).(refs := old(refs) + 1)
    {
      refs := refs + 1;
    }

    method Unref()
      modifies this`refs, this`deaths
      ensures View() == ReleaseRef(old(View()))
    {
      if refs == 1 { deaths := deaths + 1; }
      refs := refs - 1;
    }

    /** A Run gives up its reference. This deletes the Impl exactly when nobody else holds one, and then
        every task linked has been executed and nobody will come back to the Impl. */
    method Release(t: nat)
      requires Inv(View()) && t < |threads| && threads[t].RunRelease?
      modifies this
      ensures View() == RunStep(old(View()), t) && Inv(View()) && old(deaths) == 0
      ensures deaths == 1 <==> !alive && pool == 0 && forall u :: 0 <= u < |threads| ==> Refs(threads[u]) == 0
      ensures deaths == 1 ==> Quiet(View()) && queue == [] && done == linked
    {
      RunStepInv(View(), t);
      Unref();
      MoveTo(t, Idle);
      NoReferences(View());
    }

    /** The next access of a thread inside Submit or the SubmitSelf it calls. */
    method Submit(t: nat)
      requires Inv(View()) && t < |threads| && Submitting(threads[t])
      requires threads[t].SubmitLink? ==> |linked| + 1 < WORD
      modifies this
      ensures View() == SubmitStep(old(View()), t) && Inv(View()) && old(deaths) == 0
    {
      SubmitStepInv(View(), t);
      if threads[t].SubmitAddRef? || threads[t].SubmitPool? {
        SubmitSelf(t);
      } else {
        Enter(t);
      }
    }

    /** Link the task, then count it, then see whether the turn is free. */
    method Enter(t: nat)
      requires t < |threads| && (threads[t].SubmitLink? || threads[t].SubmitSize? || threads[t].SubmitCount?)
      modifies this
      ensures View() == SubmitStep(old(View()), t)
    {
      var pc := threads[t];
      if pc.SubmitLink? {
        queue, linked := queue + [pc.task], linked + [pc.task];
        MoveTo(t, SubmitSize);
      } else if pc.SubmitSize? {
        size, sized := Wrap(size + 1), sized + 1;
        MoveTo(t, SubmitCount);
      } else {
        var first := scheduled == 0;
        scheduled, entered := Wrap(scheduled + 1), entered + 1;
        MoveTo(t, if first then SubmitAddRef else Idle);
      }
    }

    method SubmitSelf(t: nat)
      requires t < |threads| && (threads[t].SubmitAddRef? || threads[t].SubmitPool?)
      modifies this
      ensures View() == SubmitStep(old(View()), t)
    {
      if threads[t].SubmitAddRef? {
        AddRef();
        MoveTo(t, SubmitPool);
      } else {
        pool := pool + 1;
        MoveTo(t, Idle);
      }
    }

    /** The next access of a thread inside Run: the queue is not empty where it takes. */
    method RunLoop(t: nat)
      requires Inv(View()) && t < |threads| && !threads[t].Idle? && !Submitting(threads[t])
      requires !threads[t].RunTasks? && !threads[t].RunTask?
      modifies this
      ensures View() == RunStep(old(View()), t) && Inv(View()) && old(deaths) == 0
    {
      RunStepInv(View(), t);
      var pc := threads[t];
      if pc.RunTake? || pc.RunTaken? || pc.RunCheck? {
        Gather(t, pc);
      } else if pc.RunRelease? {
        Release(t);
      } else {
        HandOver(t, pc);
      }
    }

    /** Moving tasks into the local queue until size_ is 0. */
    method Gather(t: nat, pc: Pc)
      requires t < |threads| && threads[t] == pc && (pc.RunTake? || pc.RunTaken? || pc.RunCheck?)
      requires pc.RunTake? ==> queue != []
      modifies this
      ensures View() == RunStep(old(View()), t)
    {
      if pc.RunTake? {
        var task := queue[0];
        queue, taken := queue[1..], taken + 1;
        MoveTo(t, RunTaken(pc.batch, task));
      } else if pc.RunTaken? {
        size, subtracted := Wrap(size - 1), subtracted + 1;
        MoveTo(t, RunCheck(pc.batch + [pc.task]));
      } else {
        MoveTo(t, if size == 0 then RunTasks(pc.batch, 0) else RunTake(pc.batch));
      }
    }

    /** From the update of scheduled_ on. */
    method HandOver(t: nat, pc: Pc)
      requires t < |threads| && threads[t] == pc && (pc.RunComplete? || pc.RunAddRef? || pc.RunResubmit?)
      modifies this
      ensures View() == RunStep(old(View()), t)
    {
      if pc.RunComplete? {
        var more := scheduled > pc.count;
        scheduled, completed := Wrap(scheduled - pc.count), completed + pc.count;
        MoveTo(t, if more then RunAddRef else RunRelease);
      } else if pc.RunAddRef? {
        AddRef();
        MoveTo(t, RunResubmit);
      } else {
        pool := pool + 1;
        MoveTo(t, RunRelease);
      }
    }

    /** The next step of RunTasks. */
    method Work(t: nat)
      requires Inv(View()) && t < |threads| && (threads[t].RunTasks? || threads[t].RunTask?)
      modifies this
      ensures View() == WorkStep(old(View()), t) && Inv(View())
    {
      var pc := threads[t];
      if pc.RunTasks? {
        NextTaskInv(View(), t);
        MoveTo(t, if pc.batch == [] then RunComplete(pc.count) else RunTask(pc.batch[0], pc.batch[1..], pc.count));
      } else {
        ExecuteInv(View(), t);
        done := done + [pc.task];
        MoveTo(t, RunTasks(pc.batch, pc.count + 1));
      }
    }

    method Perform(a: Action)
      requires Inv(View()) && Fits(View(), a)
      modifies this
      ensures View() == Step(old(View()), a) && Inv(View())
    {
      StepInv(View(), a);
      if a.Tick? {
        if a.t < |threads| && !threads[a.t].Idle? {
          if threads[a.t].RunTasks? || threads[a.t].RunTask? {
            Work(a.t);
          } else if Submitting(threads[a.t]) {
            Submit(a.t);
          } else {
            RunLoop(a.t);
          }
        }
      } else {
        Handle(a);
      }
    }

    /** A client calls Submit or destroys the Strand; the executor starts a Run. */
    method Handle(a: Action)
      requires !a.Tick?
      modifies this
      ensures View() == Step(old(View()), a)
    {
      if a.Drop? {
        if alive {
          alive := false;
          Unref();
        }
      } else if a.CallSubmit? {
        if a.t < |threads| && threads[a.t].Idle? && alive { MoveTo(a.t, SubmitLink(a.task)); }
      } else if a.t < |threads| && threads[a.t].Idle? && pool > 0 {
        pool := pool - 1;
        MoveTo(a.t, RunTake([]));
      }
    }

    /** Any schedule: what the theorems say of runs holds of the object. */
    method Execute(actions: seq<Action>)
      requires Inv(View()) && AllFit(View(), actions)
      modifies this
      ensures View() == Run(old(View()), actions) && Inv(View())
    {
      var i := 0;
      while i < |actions|
        invariant i <= |actions|
        invariant Inv(View()) && AllFit(View(), actions[i..])
        invariant Run(View(), actions[i..]) == Run(old(View()), actions)
      {
        assert actions[i..][0] == actions[i] && actions[i..][1..] == actions[i + 1..];
        Perform(actions[i]);
        i := i + 1;
      }
    }
  }
}
