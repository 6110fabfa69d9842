/** Progress of the stack over AtomicSharedPtr (module SharedStack): a thread left alone inside Push or
    TryPop, with no spurious failure, is done within a bounded number of its steps, those of the memory and
    the deletion of nodes included, and a call left alone from its start has the right effect. */
module SharedStackAlone {
  import opened Options
  import opened Histories
  import opened SharedStack
  import Ptr = SharedPointers
  import Memory = SharedPointersAlone

  predicate Busy(pc: Pc) {
    !pc.Idle? && !pc.Returned?
  }

  // --- How long it takes

  /** The client's record of the memory once its operation there has returned. */
  function Then(out: Memory.Outcome): Ptr.Thread {
    Ptr.Thread(out.handles, Ptr.Idle, [], out.answers)
  }

  function Top(out: Memory.Outcome): nat {
    if out.cells == [] then 0 else out.cells[0].ptr
  }

  /** From CompareExchangeWeak(new_node->next, new_node) on, when it is called with `p`. */
  function PublishCost(out: Memory.Outcome, p: nat): nat {
    if p == Top(out) then 25 else 45
  }

  /** What remains to be done when the operation on the memory has returned with this outcome. */
  function Rest(pc: Pc, out: Memory.Outcome): nat {
    var last, p := LastAnswer(Then(out)), Found(Then(out));
    match pc
    case Idle => 0
    case Returned(_) => 0
    case PushNew(_) => 38
    case PushLoad(_) => PublishCost(out, p)
    case PushCas(_, _) => if last.Exchanged? then 5 else PublishCost(out, p)
    case PushDrop => 1
    case PopLoad => if p == Top(out) then 27 else 65
    case PopNext(c) => if c == Top(out) then 26 else 64
    case PopCas(_, _) => if last.Exchanged? then 6 else 44
    case PopRead(_) => 5
    case PopDrop(r) => if r.Some? then 1 else 40
  }

  /** How many steps more a thread takes, if it is left alone. */
  function Effort(s: State, t: nat): nat
    requires t < |s.clients| && t < |s.mem.threads|
  {
    if !Busy(s.clients[t].pc) then 0
    else Memory.Work(s.mem, s.mem.threads[t].pc) + Rest(s.clients[t].pc, Memory.Due(s.mem, s.mem.threads[t]))
  }

  ghost predicate Nearer(s: State, s': State, t: nat)
    requires t < |s.clients| && t < |s.mem.threads|
  {
    && |s'.clients| == |s.clients| && |s'.mem.threads| == |s.mem.threads|
    && Effort(s', t) < Effort(s, t)
  }

  lemma FollowNearer(s: State, s': State, t: nat)
    requires Inv(s) && t < |s.clients| && Busy(s.clients[t].pc) && !s.mem.threads[t].pc.Idle?
    requires Ptr.StampsFit(s.mem, Ptr.Tick(t, false)) && s' == Follow(s, Ask(s, Ptr.Tick(t, false)), t)
    ensures Nearer(s, s', t)
  {
    Memory.OwnTick(s.mem, t);
    assert s'.mem == Ptr.Step(s.mem, Ptr.Tick(t, false)) && s'.clients == s.clients;
  }

  /** The thread has called an operation of the memory: what it costs, and what comes of it. */
  ghost predicate Asked(mem: Ptr.State, mem': Ptr.State, t: nat, m: Ptr.Action) {
    && t < |mem.threads| == |mem'.threads| && (m.CallLoad? || m.CallCas?) && |mem.cells| == 1 && m.cell == 0
    && Memory.Work(mem', mem'.threads[t].pc) <= 3 * |mem.links| + (if m.CallLoad? then 12 else 19)
    && Memory.Due(mem', mem'.threads[t]) == Memory.Performed(mem.cells, mem.threads[t], m)
  }

  lemma CallAsked(mem: Ptr.State, t: nat, m: Ptr.Action)
    requires Ptr.Inv(mem) && Asks(mem, m, t) && (m.CallLoad? || m.CallCas?) && |mem.cells| == 1 && m.cell == 0
    ensures Asked(mem, Ptr.Step(mem, m), t, m)
  {
    AskChanges(mem, m, t);
    var mem', th' := Ptr.Step(mem, m), Ptr.Called(mem.threads[t], m);
    Memory.CallBegins(mem, mem.threads[t], m, th');
    Memory.DueIsTheCells(mem, mem', th');
  }

  lemma DropAsked(mem: Ptr.State, t: nat, p: nat)
    requires Ptr.Inv(mem) && Asks(mem, Ptr.Drop(t, p), t)
    ensures var mem' := Ptr.Step(mem, Ptr.Drop(t, p));
      && |mem'.threads| == |mem.threads| && Memory.Work(mem', mem'.threads[t].pc) <= 3 + 3 * |mem.links|
      && var out := Memory.Due(mem', mem'.threads[t]);
         out.cells == mem.cells && out.answers == mem.threads[t].answers
  {
    AskChanges(mem, Ptr.Drop(t, p), t);
    var mem', th' := Ptr.Step(mem, Ptr.Drop(t, p)), Ptr.Called(mem.threads[t], Ptr.Drop(t, p));
    Memory.PassedCost(p, true, Ptr.Nil);
    assert Memory.TodoCost(Ptr.Adjust(p, -1, 0, Ptr.Nil)) == 3;
    Memory.GoesOn(mem', th', Ptr.Adjust(p, -1, 0, Ptr.Nil), Ptr.Finish);
  }

  /** After a Load of top_, the pointer found is the one there. */
  lemma LoadRest(mem: Ptr.State, mem': Ptr.State, t: nat, pc: Pc)
    requires Asked(mem, mem', t, Ptr.CallLoad(t, 0)) && (pc.PushLoad? || pc.PopLoad?)
    ensures Rest(pc, Memory.Due(mem', mem'.threads[t])) == if pc.PushLoad? then 25 else 27
  {
  }

  /** A CompareExchangeWeak that expects what top_ holds exchanges it; another finds what top_ holds. */
  lemma CasRest(mem: Ptr.State, mem': Ptr.State, t: nat, e: nat, d: nat, seal: bool, pc: Pc)
    requires Asked(mem, mem', t, Ptr.CallCas(t, 0, e, d, true, seal)) && (pc.PushCas? || pc.PopCas?)
    ensures var rest := Rest(pc, Memory.Due(mem', mem'.threads[t]));
      if mem.cells[0].ptr == e then rest == (if pc.PushCas? then 5 else 6) else rest == (if pc.PushCas? then 25 else 44)
  {
  }

  lemma PublishNearer(s: State, s': State, t: nat, n: nat, p: nat)
    requires Inv(s) && t < |s.clients| && s.mem.threads[t].pc.Idle? && s' == TryPublish(s, t, n, p)
    requires Asks(s.mem, Ptr.CallCas(t, 0, p, n, true, true), t) && Busy(s.clients[t].pc)
    requires Rest(s.clients[t].pc, Memory.Due(s.mem, s.mem.threads[t])) == if p == s.mem.cells[0].ptr then 25 else 45
    ensures Nearer(s, s', t)
  {
    CallAsked(s.mem, t, Ptr.CallCas(t, 0, p, n, true, true));
    CasRest(s.mem, s'.mem, t, p, n, true, PushCas(n, p));
  }

  lemma LoadNearer(s: State, s': State, t: nat, pc: Pc)
    requires Inv(s) && t < |s.clients| && s.mem.threads[t].pc.Idle? && (pc.PushLoad? || pc.PopLoad?)
    requires Asks(s.mem, Ptr.CallLoad(t, 0), t) && s' == Goto(Ask(s, Ptr.CallLoad(t, 0)), t, pc)
    requires if pc.PushLoad? then s.clients[t].pc.PushNew? else s.clients[t].pc == PopDrop(None)
    ensures Nearer(s, s', t)
  {
    CallAsked(s.mem, t, Ptr.CallLoad(t, 0));
    LoadRest(s.mem, s'.mem, t, pc);
  }

  lemma DropNearer(s: State, s': State, t: nat, p: nat, pc: Pc)
    requires Inv(s) && t < |s.clients| && s.mem.threads[t].pc.Idle? && Asks(s.mem, Ptr.Drop(t, p), t)
    requires s'.mem == Ptr.Step(s.mem, Ptr.Drop(t, p)) && s'.clients == s.clients[t := s.clients[t].(pc := pc)]
    requires Busy(s.clients[t].pc) && (pc.PushDrop? || pc.PopDrop?)
    requires Rest(s.clients[t].pc, Memory.Due(s.mem, s.mem.threads[t])) ==
      if pc.PushDrop? then 5 else if pc.result.Some? then 5 else 44
    ensures Nearer(s, s', t)
  {
    DropAsked(s.mem, t, p);
  }

  // What the stack asks of its memory, the memory allows.

  lemma PublishAsks(s: State, t: nat, n: nat, p: nat)
    requires Inv(s) && t < |s.clients| && s.mem.threads[t].pc.Idle? && Mine(s, t, n)
    requires s.mem.threads[t].handles == multiset{n} + Ptr.Ref(p)
    ensures Asks(s.mem, Ptr.CallCas(t, 0, p, n, true, true), t)
  {
    TryPublishInv(s, t, n, p);
  }

  lemma LoadAsks(s: State, t: nat, pc: Pc)
    requires Inv(s) && t < |s.clients| && s.mem.threads[t].pc.Idle?
    requires (s.clients[t].pc.PushNew? && pc == PushLoad(s.clients[t].pc.node)) || (s.clients[t].pc == PopDrop(None) && pc == PopLoad)
    ensures Asks(s.mem, Ptr.CallLoad(t, 0), t)
  {
    AskLoadInv(s, t, pc);
  }

  lemma DropAsks(s: State, t: nat, p: nat, pc: Pc)
    requires Inv(s) && t < |s.clients| && s.mem.threads[t].pc.Idle? && s.mem.threads[t].handles == Ptr.Ref(p)
    requires pc == PushDrop || pc == PopDrop(None)
    ensures Asks(s.mem, Ptr.Drop(t, p), t)
  {
    AskDropInv(s, t, p, pc);
  }

  lemma ReadAsks(s: State, t: nat)
    requires Inv(s) && t < |s.clients| && s.mem.threads[t].pc.Idle? && s.clients[t].pc.PopRead?
    ensures var c := s.clients[t].pc.curr;
      c in s.mem.blocks && c in s.values && s.values[c].Some? && Asks(s.mem, Ptr.Drop(t, c), t)
  {
    PopReadInv(s, t);
  }

  lemma NextAsks(s: State, t: nat)
    requires Inv(s) && t < |s.clients| && s.mem.threads[t].pc.Idle? && s.clients[t].pc.PopNext?
    ensures var c := s.clients[t].pc.curr;
      c in s.mem.blocks && Asks(s.mem, Ptr.CallCas(t, 0, c, NextOf(s.mem.links, c), true, false), t)
  {
    PopNextInv(s, t);
  }

  lemma PushNearer(s: State, s': State, t: nat)
    requires Inv(s) && t < |s.clients| && s.mem.threads[t].pc.Idle? && Pushing(s.clients[t].pc) && s' == Advance(s, t)
    ensures Nearer(s, s', t)
  {
    assert Settled(s, t) by { assert Remembers(s, t); }
    var pc, p := s.clients[t].pc, Found(s.mem.threads[t]);
    if pc.PushNew? {
      LoadAsks(s, t, PushLoad(pc.node));
      LoadNearer(s, s', t, PushLoad(pc.node));
    } else if pc.PushCas? && LastAnswer(s.mem.threads[t]).Exchanged? {
      DropAsks(s, t, pc.node, PushDrop);
      DropNearer(s, s', t, pc.node, PushDrop);
    } else if pc.PushLoad? || pc.PushCas? {
      PublishAsks(s, t, pc.node, p);
      PublishNearer(s, s', t, pc.node, p);
    }
  }

  lemma NextNearer(s: State, s': State, t: nat)
    requires Inv(s) && t < |s.clients| && s.mem.threads[t].pc.Idle? && s.clients[t].pc.PopNext? && s' == Advance(s, t)
    ensures Nearer(s, s', t)
  {
    var c := s.clients[t].pc.curr;
    NextAsks(s, t);
    UnlinkNearer(s, s', t, c, NextOf(s.mem.links, c));
  }

  lemma UnlinkNearer(s: State, s': State, t: nat, c: nat, d: nat)
    requires Inv(s) && t < |s.clients| && s.mem.threads[t].pc.Idle? && s.clients[t].pc == PopNext(c)
    requires Asks(s.mem, Ptr.CallCas(t, 0, c, d, true, false), t)
    requires s' == Goto(Ask(s, Ptr.CallCas(t, 0, c, d, true, false)), t, PopCas(c, d))
    ensures Nearer(s, s', t)
  {
    CallAsked(s.mem, t, Ptr.CallCas(t, 0, c, d, true, false));
    CasRest(s.mem, s'.mem, t, c, d, false, PopCas(c, d));
  }

  lemma PopNearer(s: State, s': State, t: nat)
    requires Inv(s) && t < |s.clients| && s.mem.threads[t].pc.Idle? && Busy(s.clients[t].pc) && !Pushing(s.clients[t].pc)
    requires s' == Advance(s, t)
    ensures Nearer(s, s', t)
  {
    assert Settled(s, t) by { assert Remembers(s, t); }
    var pc, p := s.clients[t].pc, Found(s.mem.threads[t]);
    if pc.PopNext? {
      NextNearer(s, s', t);
    } else if pc.PopRead? {
      ReadAsks(s, t);
      DropNearer(s, s', t, pc.curr, s'.clients[t].pc);
    } else if pc.PopCas? && !LastAnswer(s.mem.threads[t]).Exchanged? {
      DropAsks(s, t, p, PopDrop(None));
      DropNearer(s, s', t, p, PopDrop(None));
    } else if pc == PopDrop(None) {
      LoadAsks(s, t, PopLoad);
      LoadNearer(s, s', t, PopLoad);
    }
  }

  lemma OwnStep(s: State, t: nat)
    requires Inv(s) && t < |s.clients| && Busy(s.clients[t].pc) && Fits(s, Go(t, false))
    ensures Nearer(s, Step(s, Go(t, false)), t)
  {
    var s' := Step(s, Go(t, false));
    if !s.mem.threads[t].pc.Idle? {
      FollowNearer(s, s', t);
    } else if Pushing(s.clients[t].pc) {
      PushNearer(s, s', t);
    } else {
      PopNearer(s, s', t);
    }
  }

  // --- What comes of it

  /** Since state `s0`, in which the call of thread `t` was pending, nothing has taken effect, or that call. */
  ghost predicate Underway(s0: State, s: State, t: nat)
    requires t < |s0.clients|
  {
    && t < |s.clients| == |s.mem.threads| == |s0.clients|
    && (if Pending(s, t) then s.log == s0.log && s.items == s0.items else Taken(s0, s, t))
    && var c0, c := s0.clients[t], s.clients[t];
       && (if Pushing(c0.pc) then Pushing(c.pc) || c.pc.Idle? else !Pushing(c.pc) && !c.pc.Idle?)
       && c.answers == (if c.pc.Idle? then c0.answers + [Done] else c0.answers) && c.calls == c0.calls && c.calls != []
  }

  ghost predicate Taken(s0: State, s: State, t: nat)
    requires t < |s0.clients|
  {
    && |s.log| == |s0.log| + 1
    && var e := s.log[|s0.log|];
       && s.log == s0.log + [e] && e.t == t && Apply(Legal(s0.items), e) == Legal(s.items)
       && (Pushing(s0.clients[t].pc) ==> s0.clients[t].calls != [] && e.Pushed? && Matches(s0.clients[t].calls[|s0.clients[t].calls| - 1], e))
       && (!Pushing(s0.clients[t].pc) ==> !e.Pushed?)
  }

  lemma GoodStaysUnderway(s0: State, s: State, s': State, t: nat)
    requires t < |s0.clients| && Underway(s0, s, t) && Busy(s.clients[t].pc) && Good(s, s', t)
    ensures Underway(s0, s', t)
  {
    if !Quiet(s, s', t) {
      var e :| Happens(s, s', t, e);
      assert s'.log[|s0.log|] == e;
    }
  }

  lemma OwnStepStaysUnderway(s0: State, s: State, t: nat)
    requires Inv(s) && Fits(s, Go(t, false)) && t < |s0.clients| && Underway(s0, s, t) && Busy(s.clients[t].pc)
    ensures Underway(s0, Step(s, Go(t, false)), t)
  {
    var s', pc := Step(s, Go(t, false)), s.clients[t].pc;
    if !s.mem.threads[t].pc.Idle? {
      FollowGood(s, t, false);
      GoodStaysUnderway(s0, s, s', t);
    } else if pc.PushDrop? {
      ReturnProceeds(s, t);
    } else if Pushing(pc) {
      AdvancePushGood(s, t);
      GoodStaysUnderway(s0, s, s', t);
    } else {
      AdvancePopGood(s, t);
      GoodStaysUnderway(s0, s, s', t);
    }
  }

  // --- Every run

  /** Steps of thread `t`, none of which fails for no reason. */
  predicate OwnSteps(actions: seq<Action>, t: nat) {
    forall i :: 0 <= i < |actions| ==> actions[i] == Go(t, false)
  }

  /** The thread is out of Push, or has the answer of TryPop. */
  ghost predicate Through(s: State, s': State, t: nat)
    requires t < |s.clients|
  {
    && |s'.clients| == |s.clients| == |s'.mem.threads|
    && if Pushing(s.clients[t].pc) || s.clients[t].pc.Idle? then s'.clients[t].pc.Idle? else s'.clients[t].pc.Returned?
  }

  lemma OwnStepStays(s: State, t: nat)
    requires Inv(s) && Fits(s, Go(t, false)) && t < |s.clients| && Busy(s.clients[t].pc)
    ensures var s' := Step(s, Go(t, false));
      && Inv(s') && |s'.clients| == |s.clients|
      && if Pushing(s.clients[t].pc) then Pushing(s'.clients[t].pc) || s'.clients[t].pc.Idle?
         else !Pushing(s'.clients[t].pc) && !s'.clients[t].pc.Idle?
  {
    StepProceeds(s, Go(t, false));
  }

  lemma {:induction false} AloneEnds(s: State, t: nat, more: seq<Action>)
    requires Inv(s) && t < |s.clients| && OwnSteps(more, t) && AllFit(s, more) && |more| >= Effort(s, t)
    ensures Inv(Run(s, more)) && Through(s, Run(s, more), t)
    decreases |more|
  {
    if more != [] {
      var s' := Step(s, more[0]);
      if Busy(s.clients[t].pc) {
        OwnStep(s, t);
        OwnStepStays(s, t);
      } else {
        DoneStays(s, t);
      }
      AloneEnds(s', t, more[1..]);
    }
  }

  lemma DoneStays(s: State, t: nat)
    requires Inv(s) && t < |s.clients| && !Busy(s.clients[t].pc)
    ensures Step(s, Go(t, false)) == s
  {
    assert Remembers(s, t);
  }

  lemma {:induction false} AloneStaysUnderway(s0: State, s: State, t: nat, more: seq<Action>)
    requires Inv(s) && t < |s0.clients| && Underway(s0, s, t) && OwnSteps(more, t) && AllFit(s, more)
    ensures Underway(s0, Run(s, more), t)
    decreases |more|
  {
    if more != [] {
      if Busy(s.clients[t].pc) {
        OwnStepStaysUnderway(s0, s, t);
        OwnStepStays(s, t);
      } else {
        DoneStays(s, t);
      }
      AloneStaysUnderway(s0, Step(s, more[0]), t, more[1..]);
    }
  }

  lemma Reached(n: nat, actions: seq<Action>)
    requires AllFit(Init(n), actions)
    ensures Inv(Run(Init(n), actions)) && Recorded(Run(Init(n), actions)) && |Run(Init(n), actions).clients| == n
  {
    InitKeeps(n);
    RunKeeps(Init(n), actions);
  }

  /** From whatever a run has led to, a thread inside Push or TryPop that is left alone is done, within as
      many steps as Effort says. */
  lemma AloneReturns(n: nat, actions: seq<Action>, t: nat, more: seq<Action>)
    requires AllFit(Init(n), actions)
    requires var s := Run(Init(n), actions);
      && t < |s.clients| && t < |s.mem.threads| && Busy(s.clients[t].pc)
      && OwnSteps(more, t) && AllFit(s, more) && |more| >= Effort(s, t)
    ensures var s := Run(Init(n), actions); Through(s, Run(s, more), t)
  {
    Reached(n, actions);
    AloneEnds(Run(Init(n), actions), t, more);
  }

  lemma RunMore(s: State, a: Action, more: seq<Action>)
    ensures Run(s, [a] + more) == Run(Step(s, a), more)
    ensures AllFit(s, [a] + more) == (Fits(s, a) && AllFit(Step(s, a), more))
  {
    assert ([a] + more)[1..] == more;
  }

  lemma CallStarts(s: State, call: Action)
    requires Inv(s) && Recorded(s) && Begun(s, call, call.t) != [] && Fits(s, call)
    ensures var s' := Step(s, call);
      && Inv(s') && Underway(s', s', call.t) && s'.items == s.items && s'.log == s.log && |s'.clients| == |s.clients|
      && s'.clients[call.t].calls == s.clients[call.t].calls + Begun(s, call, call.t)
      && s'.clients[call.t].answers == s.clients[call.t].answers
      && (Pushing(s'.clients[call.t].pc) <==> call.CallPush?)
  {
    StepProceeds(s, call);
  }

  lemma PushCosts(s: State, t: nat, v: Item, addr: nat)
    requires Inv(s) && t < |s.clients| && s.clients[t].pc.Idle? && addr != 0 && addr !in s.mem.blocks
    ensures var s' := Step(s, CallPush(t, v, addr));
      t < |s'.clients| == |s'.mem.threads| && Effort(s', t) <= 38 + 3 * |s.mem.links|
  {
    assert Remembers(s, t);
    MakeChanges(s.mem, t, addr);
  }

  lemma PopCosts(s: State, t: nat)
    requires Inv(s) && t < |s.clients| && s.clients[t].pc.Idle?
    ensures var s' := Step(s, CallPop(t)); t < |s'.clients| == |s'.mem.threads| && Effort(s', t) <= 39 + 3 * |s.mem.links|
  {
    assert Remembers(s, t);
    CallPopInv(s, t);
    CallAsked(s.mem, t, Ptr.CallLoad(t, 0));
    LoadRest(s.mem, Step(s, CallPop(t)).mem, t, PopLoad);
  }

  /** A Push begun after any run, with a node at any free address, and left alone puts its value on top. */
  lemma PushAlone(n: nat, actions: seq<Action>, t: nat, v: Item, addr: nat, more: seq<Action>)
    requires AllFit(Init(n), actions)
    requires var s := Run(Init(n), actions);
      && t < |s.clients| && s.clients[t].pc.Idle? && addr != 0 && addr !in s.mem.blocks
      && OwnSteps(more, t) && AllFit(s, [CallPush(t, v, addr)] + more) && |more| >= 38 + 3 * |s.mem.links|
    ensures var s := Run(Init(n), actions); var s' := Run(s, [CallPush(t, v, addr)] + more);
      && s'.items == s.items + [v] && |s'.clients| == |s.clients|
      && s'.clients[t].pc.Idle? && s'.clients[t].answers == s.clients[t].answers + [Done]
  {
    Reached(n, actions);
    var s, call := Run(Init(n), actions), CallPush(t, v, addr);
    var s1 := Step(s, call);
    assert Remembers(s, t);
    RunMore(s, call, more);
    CallStarts(s, call);
    PushCosts(s, t, v, addr);
    AloneEnds(s1, t, more);
    AloneStaysUnderway(s1, s1, t, more);
    PushDone(s, v, s1, Run(s1, more), t);
  }

  lemma PushDone(s: State, v: Item, s1: State, end: State, t: nat)
    requires t < |s.clients| == |s1.clients| && s1.items == s.items && s1.clients[t].answers == s.clients[t].answers
    requires s1.clients[t].calls == s.clients[t].calls + [PushCall(v)] && Pushing(s1.clients[t].pc)
    requires Underway(s1, end, t) && end.clients[t].pc.Idle?
    ensures end.items == s.items + [v] && end.clients[t].answers == s.clients[t].answers + [Done]
  {
  }

  /** A TryPop begun after any run and left alone yields the value on top and takes it off, and nothing if
      the stack is empty. */
  lemma TryPopAlone(n: nat, actions: seq<Action>, t: nat, more: seq<Action>)
    requires AllFit(Init(n), actions)
    requires var s := Run(Init(n), actions);
      && t < |s.clients| && s.clients[t].pc.Idle?
      && OwnSteps(more, t) && AllFit(s, [CallPop(t)] + more) && |more| >= 39 + 3 * |s.mem.links|
    ensures var s := Run(Init(n), actions); var s' := Step(Run(s, [CallPop(t)] + more), Collect(t));
      && |s'.clients| == |s.clients| && s'.clients[t].pc.Idle?
      && s'.items == (if s.items == [] then [] else s.items[..|s.items| - 1])
      && s'.clients[t].answers ==
         s.clients[t].answers + [Gave(if s.items == [] then None else Some(s.items[|s.items| - 1]))]
  {
    Reached(n, actions);
    var s := Run(Init(n), actions);
    var s1 := Step(s, CallPop(t));
    assert Remembers(s, t);
    RunMore(s, CallPop(t), more);
    CallStarts(s, CallPop(t));
    PopCosts(s, t);
    AloneEnds(s1, t, more);
    AloneStaysUnderway(s1, s1, t, more);
    PopDone(s, s1, Run(s1, more), t);
  }

  lemma PopDone(s: State, s1: State, end: State, t: nat)
    requires t < |s.clients| == |s1.clients| && s1.items == s.items && !Pushing(s1.clients[t].pc)
    requires s1.clients[t].answers == s.clients[t].answers
    requires Underway(s1, end, t) && end.clients[t].pc.Returned? && Inv(end)
    ensures var s' := Step(end, Collect(t));
      && |s'.clients| == |s.clients| && s'.clients[t].pc.Idle?
      && s'.items == (if s.items == [] then [] else s.items[..|s.items| - 1])
      && s'.clients[t].answers ==
         s.clients[t].answers + [Gave(if s.items == [] then None else Some(s.items[|s.items| - 1]))]
  {
    assert Remembers(end, t) && !Pending(end, t);
    OfAppend(s1.log, end.log[|s1.log|], t);
  }
}
