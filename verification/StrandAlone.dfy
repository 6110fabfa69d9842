/** Batching of the strand (module StrandExecutor): a Run takes whatever has been counted before it begins to
    execute, and if nobody submits meanwhile it executes everything by itself. */
module StrandAlone {
  import opened Counting
  import opened Words
  import opened StrandExecutor

  // --- A Run begins to execute when nothing counted is left

  predicate Gathering(pc: Pc) {
    pc.RunTake? || pc.RunTaken? || pc.RunCheck?
  }

  predicate Executing(pc: Pc) {
    pc.RunTasks? || pc.RunTask? || pc.RunComplete?
  }

  lemma OthersStay(s: State, a: Action, t: nat)
    requires t < |s.threads| && Gathering(s.threads[t]) && a != Tick(t)
    ensures t < |Step(s, a).threads| && Step(s, a).threads[t] == s.threads[t]
  {
    if a.Tick? && a.t < |s.threads| {
      if s.threads[a.t].RunTasks? || s.threads[a.t].RunTask? {
        assert WorkStep(s, a.t).threads[t] == s.threads[t];
      } else if Submitting(s.threads[a.t]) {
        assert SubmitStep(s, a.t).threads[t] == s.threads[t];
      } else {
        RunStepStays(s, a.t, t);
      }
    }
  }

  lemma RunStepStays(s: State, u: nat, t: nat)
    requires u < |s.threads| && t < |s.threads| && u != t
    ensures t < |RunStep(s, u).threads| && RunStep(s, u).threads[t] == s.threads[t]
  {
  }

  lemma OnlyOwnStep(s: State, a: Action, t: nat)
    requires t < |s.threads| && t < |Step(s, a).threads|
    requires Gathering(s.threads[t]) && Executing(Step(s, a).threads[t])
    ensures a == Tick(t) && s.threads[t].RunCheck? && s.size == 0
  {
    if a != Tick(t) { OthersStay(s, a, t); }
  }

  lemma CheckedAll(s: State, t: nat)
    requires Inv(s) && t < |s.threads| && s.threads[t].RunCheck? && s.size == 0
    ensures s.sized == s.subtracted == s.taken
    ensures (forall u :: 0 <= u < |s.threads| ==> !s.threads[u].SubmitSize?) ==> s.queue == []
  {
    assert Remembers(s, t);
    WrapSmall(s.sized - s.subtracted);
    if forall u :: 0 <= u < |s.threads| ==> !s.threads[u].SubmitSize? { SumAllZero(s.threads, UnsizedFn()); }
  }

  /** In every run, when a Run goes over from gathering to executing, all tasks counted in size_ have been
      taken; and if nobody is between its link and that count, the queue is empty. */
  lemma RunTakesAllCounted(n: nat, actions: seq<Action>, a: Action, t: nat)
    requires AllFit(Init(n), actions)
    requires var s := Run(Init(n), actions);
      t < |s.threads| && t < |Step(s, a).threads| && Gathering(s.threads[t]) && Executing(Step(s, a).threads[t])
    ensures var s := Run(Init(n), actions);
      && s.sized == s.subtracted == s.taken
      && ((forall u :: 0 <= u < |s.threads| ==> !s.threads[u].SubmitSize?) ==> s.queue == [])
  {
    Reached(n, actions);
    OnlyOwnStep(Run(Init(n), actions), a, t);
    CheckedAll(Run(Init(n), actions), t);
  }

  // --- One Run does it all

  /** All other threads are idle. */
  ghost predicate Solo(s: State, t: nat) {
    t < |s.threads| && forall u :: 0 <= u < |s.threads| && u != t ==> s.threads[u].Idle?
  }

  /** How many steps more the Run takes, if nobody else does anything. */
  function Effort(s: State, pc: Pc): nat {
    match pc
    case RunTake(batch) => 5 * |s.queue| + 2 * |batch| + 3
    case RunTaken(batch, _) => 5 * |s.queue| + 2 * |batch| + 7
    case RunCheck(batch) => 5 * |s.queue| + 2 * |batch| + 4
    case RunTasks(batch, _) => 2 * |batch| + 3
    case RunTask(_, batch, _) => 2 * |batch| + 4
    case RunComplete(_) => 2
    case RunRelease => 1
    case _ => 0
  }

  /** The Run of thread `t` is under way; by the time it has executed its tasks it will have executed all, and
      it does not hand over to another. */
  ghost predicate DoesAll(s: State, t: nat) {
    && Inv(s) && Solo(s, t) && s.pool == 0
    && (s.threads[t].RunRelease? || s.threads[t].Idle? || Running(s.threads[t]))
    && (!Gathering(s.threads[t]) ==> s.queue == [])
    && (!Running(s.threads[t]) ==> s.done == s.linked)
  }

  ghost predicate Nearer(s: State, s': State, t: nat)
    requires t < |s.threads| && t < |s'.threads|
  {
    DoesAll(s', t) && s'.linked == s.linked && Effort(s', s'.threads[t]) < Effort(s, s.threads[t])
  }

  lemma SoloCounts(s: State, t: nat)
    requires Inv(s) && Solo(s, t) && !Submitting(s.threads[t])
    ensures s.entered == s.sized == |s.linked|
  {
    SumAllZero(s.threads, UnsizedFn());
    SumAllZero(s.threads, UnenteredFn());
  }

  lemma TakeNearer(s: State, s': State, t: nat)
    requires DoesAll(s, t) && s.threads[t].RunTake? && s' == Step(s, Tick(t)) && Inv(s')
    ensures t < |s'.threads| && Nearer(s, s', t)
  {
    assert Remembers(s, t);
    RunIsAlive(s, t);
  }

  lemma TakenNearer(s: State, s': State, t: nat)
    requires DoesAll(s, t) && s.threads[t].RunTaken? && s' == Step(s, Tick(t)) && Inv(s')
    ensures t < |s'.threads| && Nearer(s, s', t)
  {
    assert Remembers(s, t);
    RunIsAlive(s, t);
  }

  lemma CheckNearer(s: State, s': State, t: nat)
    requires DoesAll(s, t) && s.threads[t].RunCheck? && s' == Step(s, Tick(t)) && Inv(s')
    ensures t < |s'.threads| && Nearer(s, s', t)
  {
    assert Remembers(s, t);
    RunIsAlive(s, t);
    SoloCounts(s, t);
    WrapSmall(s.sized - s.subtracted);
  }

  lemma RunIsAlive(s: State, t: nat)
    requires Inv(s) && t < |s.threads| && (Running(s.threads[t]) || s.threads[t].RunRelease?)
    ensures s.deaths == 0
  {
    HolderKeepsAlive(s, t);
  }

  lemma WorkNearer(s: State, s': State, t: nat)
    requires DoesAll(s, t) && (s.threads[t].RunTasks? || s.threads[t].RunTask?) && s' == Step(s, Tick(t)) && Inv(s')
    ensures t < |s'.threads| && Nearer(s, s', t)
  {
    assert Remembers(s, t);
  }

  lemma EndNearer(s: State, s': State, t: nat)
    requires DoesAll(s, t) && (s.threads[t].RunComplete? || s.threads[t].RunRelease?) && s' == Step(s, Tick(t)) && Inv(s')
    ensures t < |s'.threads| && Nearer(s, s', t)
  {
    assert Remembers(s, t);
    SoloCounts(s, t);
    RunIsAlive(s, t);
    WrapSmall(s.entered - s.completed);
  }

  lemma {:induction false} OneRunFinishes(s: State, t: nat, more: seq<Action>)
    requires DoesAll(s, t) && |more| >= Effort(s, s.threads[t]) && forall i :: 0 <= i < |more| ==> more[i] == Tick(t)
    ensures var s' := Run(s, more); DoesAll(s', t) && s'.threads[t].Idle? && s'.linked == s.linked
    decreases |more|
  {
    if more != [] {
      var s' := Step(s, Tick(t));
      StepInv(s, Tick(t));
      if s.threads[t].RunTake? {
        TakeNearer(s, s', t);
      } else if s.threads[t].RunTaken? {
        TakenNearer(s, s', t);
      } else if s.threads[t].RunCheck? {
        CheckNearer(s, s', t);
      } else if s.threads[t].RunTasks? || s.threads[t].RunTask? {
        WorkNearer(s, s', t);
      } else if !s.threads[t].Idle? {
        EndNearer(s, s', t);
      }
      OneRunFinishes(s', t, more[1..]);
    }
  }

  /** When no Submit is under way and a Run is pending, that one Run, begun by any thread and left alone,
      executes all tasks there are, in their order and in five steps each, and hands over to no other. */
  lemma OneRunDoesAll(n: nat, actions: seq<Action>, t: nat, more: seq<Action>)
    requires AllFit(Init(n), actions)
    requires var s := Run(Init(n), actions);
      && t < |s.threads| && (forall u :: 0 <= u < |s.threads| ==> s.threads[u].Idle?) && s.pool > 0
      && |more| >= 5 * |s.queue| + 3 && forall i :: 0 <= i < |more| ==> more[i] == Tick(t)
    ensures var s := Run(Init(n), actions); var s' := Run(s, [Start(t)] + more);
      && |s'.threads| > t && s'.threads[t].Idle? && s'.queue == [] && s'.pool == 0 && s'.done == s.done + s.queue
  {
    Reached(n, actions);
    var s := Run(Init(n), actions);
    var s1 := Step(s, Start(t));
    StepInv(s, Start(t));
    RunCons(s, Start(t), more);
    SumAllZero(s.threads, TokenFn());
    OneRunFinishes(s1, t, more);
    assert s.linked == s.done + s.queue;
  }
}
