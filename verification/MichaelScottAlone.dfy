/** Progress of the Michael-Scott queue (module MichaelScottQueue): a thread left alone inside Push or
    TryPop, with no spurious failure, is done within a bounded number of its steps, wherever tail_ has been
    left, and with the right effect. */
module MichaelScottAlone {
  import opened Options
  import opened Histories
  import opened MichaelScottQueue

  function NextOf(s: State, a: nat): nat {
    if a in s.heap then s.heap[a].next else 0
  }

  /** How many nodes of the chain lie behind this one. */
  ghost function Lag(s: State, a: nat): nat {
    if InChain(s, a) then |s.chain| - 1 - Pos(s, a) else 0
  }

  /** From the load of tail_ on: each turn of the loop helps tail_ one node forward, the last one links. */
  ghost function TailCost(s: State, tail: nat): nat {
    4 * Lag(s, tail) + 5
  }

  ghost function LinkCost(s: State, a: nat): nat {
    if NextOf(s, a) == 0 then 3 else 1 + TailCost(s, s.tail)
  }

  ghost function HelpCost(s: State, a: nat, next: nat): nat {
    if s.tail == a then 1 + TailCost(s, next) else 1 + LinkCost(s, s.tail)
  }

  /** How many steps more a thread takes, if it is left alone. */
  ghost function Effort(s: State, pc: Pc): nat {
    match pc
    case Idle => 0
    case PushTail(_) => TailCost(s, s.tail)
    case PushCheck(_, a) => if NextOf(s, a) == 0 then 4 else 2 + HelpCost(s, a, NextOf(s, a))
    case PushHelpRead(_, a) => 1 + HelpCost(s, a, NextOf(s, a))
    case PushHelp(_, a, next) => HelpCost(s, a, next)
    case PushLink(_, a) => LinkCost(s, a)
    case PushFinish(_) => 2
    case PushCount => 1
    case PopHead => 7
    case PopCheck(h) => if NextOf(s, h) == 0 then 1 else if h == s.head then 6 else 10
    case PopRead(h) => if h == s.head then 5 else 9
    case PopSwing(h, _) => if h == s.head then 4 else 8
    case PopNext(_, _) => 3
    case PopTake(_, _) => 2
    case PopCount(_, _) => 1
    case Returned(_, _) => 0
  }

  predicate Busy(pc: Pc) {
    !pc.Idle? && !pc.Returned?
  }

  lemma EffortBound(s: State, pc: Pc)
    requires Inv(s) && Busy(pc)
    ensures Effort(s, pc) <= if Pushing(pc) then 4 * |s.chain| + 5 else 10
  {
  }

  /** The values held once the thread is done. */
  ghost function After(s: State, pc: Pc): seq<Item>
    requires s.popped <= |s.items|
  {
    var items := Contents(s);
    if !Pending(pc) then items
    else if Pushing(pc) then items + [if NodeOf(pc) in s.heap then ValueOf(s.heap[NodeOf(pc)]) else 0]
    else if items == [] then [] else items[1..]
  }

  function NodeOf(pc: Pc): nat {
    if Pushing(pc) && !pc.PushCount? then pc.node else 0
  }

  ghost function PoppedAt(log: seq<Event>, lin: nat): Option<Item> {
    if lin < |log| && log[lin].Popped? then Some(log[lin].value) else None
  }

  /** What it has been answered by then: TryPop yields the oldest value there is. */
  ghost function Due(s: State, th: Thread): seq<Answer>
    requires s.popped <= |s.items|
  {
    var items, pc := Contents(s), th.pc;
    if pc.Idle? then th.answers
    else if Pushing(pc) then th.answers + [Done]
    else if pc.Returned? then th.answers + [Gave(pc.result)]
    else if pc.PopCount? then th.answers + [Gave(Some(pc.value))]
    else if pc.PopNext? || pc.PopTake? then th.answers + [Gave(PoppedAt(s.log, pc.lin))]
    else if items == [] then th.answers + [Gave(None)]
    else th.answers + [Gave(Some(items[0]))]
  }

  /** A step of thread `t`, alone. */
  ghost predicate Nearer(s: State, s': State, t: nat)
    requires t < |s.threads|
  {
    && |s'.threads| == |s.threads| && s.popped <= |s.items| && s'.popped <= |s'.items|
    && var th, th' := s.threads[t], s'.threads[t];
       && Effort(s', th'.pc) < Effort(s, th.pc)
       && After(s', th'.pc) == After(s, th.pc) && Due(s', th') == Due(s, th)
       && (if Pushing(th.pc) then Pushing(th'.pc) || th'.pc.Idle? else !Pushing(th'.pc) && !th'.pc.Idle?)
  }

  lemma SearchNearer(s: State, s': State, t: nat, junk: nat)
    requires Inv(s) && t < |s.threads| && s' == PushStep(s, t, false, junk)
    requires s.threads[t].pc.PushTail? || s.threads[t].pc.PushCheck? || s.threads[t].pc.PushHelpRead?
    ensures Nearer(s, s', t)
  {
    assert Remembers(s, t);
    var a := if s.threads[t].pc.PushTail? then s.tail else s.threads[t].pc.tail;
    LookAhead(s, a);
    assert NodeOk(s, Pos(s, a));
    if Pos(s, a) + 1 < |s.chain| { assert NodeOk(s, Pos(s, a) + 1); }
  }

  lemma HelpNearer(s: State, s': State, t: nat, junk: nat)
    requires Inv(s) && t < |s.threads| && s' == PushStep(s, t, false, junk) && s.threads[t].pc.PushHelp?
    ensures Nearer(s, s', t)
  {
    assert Remembers(s, t);
  }

  lemma LinkNearer(s: State, s': State, t: nat, junk: nat)
    requires Inv(s) && t < |s.threads| && s' == PushStep(s, t, false, junk) && s.threads[t].pc.PushLink?
    ensures Nearer(s, s', t)
  {
    assert Remembers(s, t);
    assert NodeOk(s, Pos(s, s.threads[t].pc.tail));
  }

  lemma FinishNearer(s: State, s': State, t: nat, junk: nat)
    requires Inv(s) && t < |s.threads| && s' == PushStep(s, t, false, junk)
    requires s.threads[t].pc.PushFinish? || s.threads[t].pc.PushCount?
    ensures Nearer(s, s', t)
  {
  }

  lemma HeadNearer(s: State, s': State, t: nat)
    requires Inv(s) && t < |s.threads| && s' == PopStep(s, t, false) && s.threads[t].pc.PopHead?
    ensures Nearer(s, s', t)
  {
    assert NodeOk(s, s.popped);
  }

  lemma CheckNearer(s: State, s': State, t: nat)
    requires Inv(s) && t < |s.threads| && s' == PopStep(s, t, false) && s.threads[t].pc.PopCheck?
    ensures Nearer(s, s', t)
  {
    assert Remembers(s, t);
    LookAhead(s, s.threads[t].pc.head);
  }

  lemma ReadNearer(s: State, s': State, t: nat)
    requires Inv(s) && t < |s.threads| && s' == PopStep(s, t, false) && s.threads[t].pc.PopRead?
    ensures Nearer(s, s', t)
  {
    assert Remembers(s, t);
    LookAhead(s, s.threads[t].pc.head);
  }

  lemma SwingNearer(s: State, s': State, t: nat)
    requires Inv(s) && t < |s.threads| && s' == PopStep(s, t, false) && s.threads[t].pc.PopSwing?
    ensures Nearer(s, s', t)
  {
    assert Remembers(s, t);
    assert NodeOk(s, s.popped);
  }

  lemma TakeNearer(s: State, s': State, t: nat)
    requires Inv(s) && t < |s.threads| && s' == PopStep(s, t, false)
    requires s.threads[t].pc.PopNext? || s.threads[t].pc.PopTake? || s.threads[t].pc.PopCount?
    ensures Nearer(s, s', t)
  {
    assert Remembers(s, t);
    if s.threads[t].pc.PopNext? { LookAhead(s, s.threads[t].pc.head); }
  }

  lemma OwnTick(s: State, t: nat, junk: nat)
    requires Inv(s) && t < |s.threads| && Busy(s.threads[t].pc)
    ensures Nearer(s, Step(s, Tick(t, false, junk)), t)
  {
    var pc, s' := s.threads[t].pc, Step(s, Tick(t, false, junk));
    if pc.PushTail? || pc.PushCheck? || pc.PushHelpRead? {
      SearchNearer(s, s', t, junk);
    } else if pc.PushHelp? {
      HelpNearer(s, s', t, junk);
    } else if pc.PushLink? {
      LinkNearer(s, s', t, junk);
    } else if Pushing(pc) {
      FinishNearer(s, s', t, junk);
    } else if pc.PopSwing? {
      SwingNearer(s, s', t);
    } else if pc.PopHead? {
      HeadNearer(s, s', t);
    } else if pc.PopCheck? {
      CheckNearer(s, s', t);
    } else if pc.PopRead? {
      ReadNearer(s, s', t);
    } else {
      TakeNearer(s, s', t);
    }
  }

  /** Steps of thread `t`, none of which fails for no reason. */
  predicate OwnTicks(actions: seq<Action>, t: nat) {
    forall i :: 0 <= i < |actions| ==> actions[i].Tick? && actions[i].t == t && !actions[i].flaky
  }

  /** The thread is done, with the answer and the effect that were due. */
  ghost predicate Ends(s: State, s': State, t: nat)
    requires t < |s.threads|
  {
    && |s'.threads| == |s.threads| && s.popped <= |s.items| && s'.popped <= |s'.items|
    && var th, th' := s.threads[t], s'.threads[t];
       && !Busy(th'.pc) && Contents(s') == After(s, th.pc) && Due(s', th') == Due(s, th)
       && (if Pushing(th.pc) || th.pc.Idle? then th'.pc.Idle? else th'.pc.Returned?)
  }

  lemma {:induction false} AloneEnds(s: State, t: nat, more: seq<Action>)
    requires Inv(s) && t < |s.threads| && OwnTicks(more, t) && |more| >= Effort(s, s.threads[t].pc)
    ensures Ends(s, Run(s, more), t)
    decreases |more|
  {
    if more != [] {
      var s' := Step(s, more[0]);
      if Busy(s.threads[t].pc) {
        OwnTick(s, t, more[0].junk);
        StepInv(s, more[0]);
      }
      AloneEnds(s', t, more[1..]);
      EndsFirst(s, s', Run(s', more[1..]), t);
    }
  }

  lemma EndsFirst(s: State, s': State, end: State, t: nat)
    requires t < |s.threads| && (s' == s || Nearer(s, s', t)) && Ends(s', end, t)
    ensures Ends(s, end, t)
  {
  }

  lemma Reached(n: nat, actions: seq<Action>)
    ensures var s := Run(Init(n), actions); Inv(s) && |s.threads| == n && s.popped <= |s.items|
  {
    InitKeeps(n);
    RunKeeps(Init(n), actions);
    ThreadsStay(Init(n), actions);
  }

  /** From whatever a run has led to, a thread inside Push or TryPop that is left alone is done, within four
      steps for each node ever linked and five more in Push and within ten in TryPop. */
  lemma AloneReturns(n: nat, actions: seq<Action>, t: nat, more: seq<Action>)
    requires var s := Run(Init(n), actions);
      && t < |s.threads| && Busy(s.threads[t].pc) && OwnTicks(more, t)
      && |more| >= if Pushing(s.threads[t].pc) then 4 * |s.chain| + 5 else 10
    ensures var s := Run(Init(n), actions); var s' := Run(s, more);
      && |s'.threads| == |s.threads|
      && if !Pushing(s.threads[t].pc) then s'.threads[t].pc.Returned?
         else s'.threads[t].pc.Idle? && s'.threads[t].answers == s.threads[t].answers + [Done]
  {
    Reached(n, actions);
    var s := Run(Init(n), actions);
    EffortBound(s, s.threads[t].pc);
    AloneEnds(s, t, more);
  }

  lemma RunMore(s: State, a: Action, more: seq<Action>)
    ensures Run(s, [a] + more) == Run(Step(s, a), more)
  {
    assert ([a] + more)[1..] == more;
  }

  /** A Push begun after any run, with a node at any free address, and left alone puts its value behind
      those held. */
  lemma PushAlone(n: nat, actions: seq<Action>, t: nat, v: Item, addr: nat, more: seq<Action>)
    requires var s := Run(Init(n), actions);
      && t < |s.threads| && s.threads[t].pc.Idle? && addr != 0 && addr !in s.heap
      && OwnTicks(more, t) && |more| >= 4 * |s.chain| + 5
    ensures var s := Run(Init(n), actions); var s' := Run(s, [CallPush(t, v, addr)] + more);
      && s.popped <= |s.items| && s'.popped <= |s'.items| && Contents(s') == Contents(s) + [v]
      && |s'.threads| == |s.threads| && s'.threads[t].pc.Idle? && s'.threads[t].answers == s.threads[t].answers + [Done]
  {
    Reached(n, actions);
    var s := Run(Init(n), actions);
    var s1 := Step(s, CallPush(t, v, addr));
    StepInv(s, CallPush(t, v, addr));
    EffortBound(s1, s1.threads[t].pc);
    RunMore(s, CallPush(t, v, addr), more);
    AloneEnds(s1, t, more);
  }

  /** A TryPop begun after any run and left alone yields the oldest value held and takes it out, and
      nothing if none is held. */
  lemma TryPopAlone(n: nat, actions: seq<Action>, t: nat, more: seq<Action>)
    requires var s := Run(Init(n), actions);
      t < |s.threads| && s.threads[t].pc.Idle? && OwnTicks(more, t) && |more| >= 10
    ensures var s := Run(Init(n), actions); var s' := Step(Run(s, [CallPop(t)] + more), Collect(t));
      && s.popped <= |s.items| && s'.popped <= |s'.items| && |s'.threads| == |s.threads| && s'.threads[t].pc.Idle?
      && var items := Contents(s);
         && Contents(s') == (if items == [] then [] else items[1..])
         && s'.threads[t].answers == s.threads[t].answers + [Gave(if items == [] then None else Some(items[0]))]
  {
    Reached(n, actions);
    var s := Run(Init(n), actions);
    var s1 := Step(s, CallPop(t));
    StepInv(s, CallPop(t));
    EffortBound(s1, s1.threads[t].pc);
    RunMore(s, CallPop(t), more);
    AloneEnds(s1, t, more);
    AnswerIs(s1, Run(s1, more), t);
  }

  lemma AnswerIs(s: State, end: State, t: nat)
    requires t < |s.threads| && s.threads[t].pc.PopHead? && Ends(s, end, t)
    ensures var s', items := Step(end, Collect(t)), Contents(s);
      && |s'.threads| == |s.threads| && s'.threads[t].pc.Idle? && s'.popped == end.popped && s'.items == end.items
      && s'.threads[t].answers == s.threads[t].answers + [Gave(if items == [] then None else Some(items[0]))]
  {
  }

  /** When Push has linked its node behind the one that tail_ points to, its last compare-and-swap brings
      tail_ to that node, the last of the chain, if the variable that was never assigned happens to hold
      tail_, and otherwise leaves tail_ one node behind. */
  lemma TailFollowsByLuck(s: State, t: nat, any: nat, flaky: bool, junk: nat)
    requires Inv(s) && t < |s.threads| && s.threads[t].pc.PushLink? && s.threads[t].pc.tail == s.tail
    requires NextOf(s, s.tail) == 0
    ensures var n := s.threads[t].pc.node; var s' := Step(Step(s, Tick(t, false, any)), Tick(t, flaky, junk));
      && s'.chain == s.chain + [n] && s'.tail == (if junk == s.tail then n else s.tail)
      && InChain(s', s'.tail) && Lag(s', s'.tail) == if junk == s.tail then 0 else 1
  {
    assert Remembers(s, t);
    LookAhead(s, s.tail);
    var s1 := Step(s, Tick(t, false, any));
    StepInv(s, Tick(t, false, any));
    StepInv(s1, Tick(t, flaky, junk));
    assert s1.threads[t].pc == PushFinish(s.threads[t].pc.node) && s1.chain == s.chain + [s.threads[t].pc.node];
    assert NodeOk(s1, |s.chain|) && NodeOk(s1, |s.chain| - 1);
  }

  /** A compare-and-swap that fails for no reason changes nothing but where its thread stands. */
  lemma SpuriousFailure(s: State, t: nat, junk: nat)
    requires t < |s.threads| && Inv(s)
    requires s.threads[t].pc.PushHelp? || s.threads[t].pc.PushLink? || s.threads[t].pc.PopSwing?
    ensures var s' := Step(s, Tick(t, true, junk)); var pc' := s'.threads[t].pc;
      && s' == Goto(s, t, pc') && pc' != s.threads[t].pc && Pending(pc')
  {
    assert Remembers(s, t);
    if s.threads[t].pc.PushLink? { LookAhead(s, s.threads[t].pc.tail); }
  }
}
