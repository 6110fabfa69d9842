/** Progress of the split-count stack (module SplitCountStack): a thread left alone inside Push or TryPop,
    with no spurious failure, is done within a fixed number of its steps and with the right effect, whatever
    the other threads hold. */
module SplitCountAlone {
  import opened Options
  import opened Histories
  import opened SplitCountStack

  predicate Pushing(pc: Pc) {
    pc.PushLoad? || pc.PushCas?
  }

  predicate Busy(pc: Pc) {
    !pc.Idle? && !pc.Returned?
  }

  /** TryPop from its load of head_ on. */
  function LoadCost(s: State): nat {
    if s.head.ptr == 0 then 1 else 7
  }

  /** How many steps more a thread takes, if it is left alone. */
  function Effort(s: State, pc: Pc): nat {
    match pc
    case Idle => 0
    case PushLoad(_) => 2
    case PushCas(n) => if n in s.heap && s.head == s.heap[n].next then 1 else 2
    case PopLoad => LoadCost(s)
    case PopAcquire(seen) => if s.head == Word(seen) then 6 else 1 + LoadCost(s)
    case PopNext(held) => if s.head == Word(held) then 5 else 4 + LoadCost(s)
    case PopSwing(held, _) => if s.head == Word(held) then 4 else 3 + LoadCost(s)
    case PopValue(_, _) => 3
    case PopFold(_, _, _) => 2
    case PopRelease(_) => 2 + LoadCost(s)
    case Free(_, after) => if after.Retry? then 1 + LoadCost(s) else 1
    case Returned(_, _) => 0
  }

  lemma EffortBound(s: State, pc: Pc)
    ensures Effort(s, pc) <= if Pushing(pc) then 2 else 11
  {
  }

  /** The values held once the thread is done. */
  ghost function After(s: State, pc: Pc): seq<Item> {
    var items := Contents(s);
    if Pushing(pc) then [ValueAt(s, pc.node)] + items
    else if !Pending(pc) || items == [] then items
    else items[1..]
  }

  ghost function PoppedAt(log: seq<Event>, lin: nat): Option<Item> {
    if lin < |log| && log[lin].Popped? then Some(log[lin].value) else None
  }

  /** What it has been answered by then: TryPop yields the newest value there is. */
  ghost function Due(s: State, th: Thread): seq<Answer> {
    var items, pc := Contents(s), th.pc;
    if pc.Idle? then th.answers
    else if Pushing(pc) then th.answers + [Done]
    else if pc.Returned? then th.answers + [Gave(pc.result)]
    else if pc.PopFold? then th.answers + [Gave(Some(pc.value))]
    else if pc.PopValue? then th.answers + [Gave(PoppedAt(s.log, pc.lin))]
    else if pc.Free? && pc.after.Return? then th.answers + [Gave(Some(pc.after.value))]
    else th.answers + [Gave(if |items| == 0 then None else Some(items[0]))]
  }

  /** A step of thread `t`, alone. */
  ghost predicate Nearer(s: State, s': State, t: nat)
    requires t < |s.threads|
  {
    && |s'.threads| == |s.threads|
    && var th, th' := s.threads[t], s'.threads[t];
       && Effort(s', th'.pc) < Effort(s, th.pc)
       && After(s', th'.pc) == After(s, th.pc) && Due(s', th') == Due(s, th)
       && (if Pushing(th.pc) then Pushing(th'.pc) || th'.pc.Idle? else !Pushing(th'.pc) && !th'.pc.Idle?)
  }

  /** The chain is as before, and so are the values in it. */
  lemma SameItems(s: State, s': State)
    requires s'.chain == s.chain
    requires forall i :: 0 <= i < |s.chain| ==> ValueAt(s', s.chain[i]) == ValueAt(s, s.chain[i])
    ensures Contents(s') == Contents(s)
  {
  }

  lemma NodeIsThere(s: State, t: nat)
    requires Inv(s) && t < |s.threads| && Pushing(s.threads[t].pc)
    ensures s.threads[t].pc.node in s.heap && s.threads[t].pc.node !in s.chain
  {
    assert NodeLaw(s, s.threads[t].pc.node);
    ThreadCounts(s.threads, t, s.threads[t].pc.node);
  }

  lemma LoadHeadNearer(s: State, s': State, t: nat)
    requires Inv(s) && t < |s.threads| && Pushing(s.threads[t].pc) && s' == PushStep(s, t, false)
    requires s'.threads[t].pc.PushCas?
    ensures Nearer(s, s', t)
  {
    NodeIsThere(s, t);
    SameItems(s, s');
  }

  lemma PublishNearer(s: State, s': State, t: nat)
    requires Inv(s) && t < |s.threads| && s.threads[t].pc.PushCas? && s' == PushStep(s, t, false)
    requires s'.threads[t].pc.Idle?
    ensures Nearer(s, s', t)
  {
    NodeIsThere(s, t);
    assert Contents(s') == [ValueAt(s, s.threads[t].pc.node)] + Contents(s);
  }

  lemma PushNearer(s: State, s': State, t: nat)
    requires Inv(s) && t < |s.threads| && Pushing(s.threads[t].pc) && s' == PushStep(s, t, false)
    ensures Nearer(s, s', t)
  {
    NodeIsThere(s, t);
    if s'.threads[t].pc.PushCas? { LoadHeadNearer(s, s', t); } else { PublishNearer(s, s', t); }
  }

  lemma HeadTellsEmpty(s: State)
    requires Inv(s)
    ensures s.head.ptr == 0 <==> |Contents(s)| == 0
    ensures s.chain != [] ==> s.chain[0] == s.head.ptr && Contents(s)[0] == ValueAt(s, s.head.ptr)
  {
  }

  lemma LoadNearer(s: State, s': State, t: nat)
    requires Inv(s) && t < |s.threads| && s.threads[t].pc.PopLoad? && s' == PopStep(s, t, false)
    ensures Nearer(s, s', t)
  {
    HeadTellsEmpty(s);
    SameItems(s, s');
  }

  lemma AcquireNearer(s: State, s': State, t: nat)
    requires Inv(s) && t < |s.threads| && s.threads[t].pc.PopAcquire? && s' == PopStep(s, t, false)
    requires Fits(s, Tick(t, false))
    ensures Nearer(s, s', t)
  {
    assert Remembers(s, t);
    SameItems(s, s');
  }

  lemma NextNearer(s: State, s': State, t: nat)
    requires Inv(s) && t < |s.threads| && s.threads[t].pc.PopNext? && s' == PopStep(s, t, false)
    ensures Nearer(s, s', t)
  {
    HeldIsThere(s, t);
    SameItems(s, s');
  }

  lemma SwingNearer(s: State, s': State, t: nat)
    requires Inv(s) && t < |s.threads| && s.threads[t].pc.PopSwing? && s' == PopStep(s, t, false)
    ensures Nearer(s, s', t)
  {
    HeadTellsEmpty(s);
    if s.head == Word(s.threads[t].pc.held) {
      TopIsHeld(s, t);
      assert Contents(s') == Contents(s)[1..];
    } else {
      SameItems(s, s');
    }
  }

  lemma HeldIsThere(s: State, t: nat)
    requires Inv(s) && t < |s.threads|
    requires s.threads[t].pc.PopNext? || s.threads[t].pc.PopValue? || s.threads[t].pc.PopFold? || s.threads[t].pc.PopRelease?
    ensures s.threads[t].pc.held.ptr in s.heap
  {
    assert NodeLaw(s, s.threads[t].pc.held.ptr);
    ThreadCounts(s.threads, t, s.threads[t].pc.held.ptr);
  }

  lemma ValueNearer(s: State, s': State, t: nat)
    requires Inv(s) && t < |s.threads| && s.threads[t].pc.PopValue? && s' == PopStep(s, t, false)
    ensures Nearer(s, s', t)
  {
    HeldIsThere(s, t);
    assert Remembers(s, t);
    SameItems(s, s');
  }

  lemma FoldNearer(s: State, s': State, t: nat)
    requires Inv(s) && t < |s.threads| && s.threads[t].pc.PopFold? && s' == PopStep(s, t, false)
    ensures Nearer(s, s', t)
  {
    HeldIsThere(s, t);
    assert Remembers(s, t);
    SameItems(s, s');
  }

  lemma ReleaseNearer(s: State, s': State, t: nat)
    requires Inv(s) && t < |s.threads| && s.threads[t].pc.PopRelease? && s' == PopStep(s, t, false)
    ensures Nearer(s, s', t)
  {
    HeldIsThere(s, t);
    assert Remembers(s, t);
    SameItems(s, s');
  }

  lemma FreeNearer(s: State, s': State, t: nat)
    requires Inv(s) && t < |s.threads| && s.threads[t].pc.Free? && s' == PopStep(s, t, false)
    ensures Nearer(s, s', t)
  {
    var a := s.threads[t].pc.node;
    assert NodeLaw(s, a);
    ThreadCounts(s.threads, t, a);
    SameItems(s, s');
  }

  lemma OwnTick(s: State, t: nat)
    requires Inv(s) && t < |s.threads| && Busy(s.threads[t].pc) && Fits(s, Tick(t, false))
    ensures Nearer(s, Step(s, Tick(t, false)), t)
  {
    var pc, s' := s.threads[t].pc, Step(s, Tick(t, false));
    if Pushing(pc) {
      PushNearer(s, s', t);
    } else if pc.PopSwing? {
      SwingNearer(s, s', t);
    } else if pc.Free? {
      FreeNearer(s, s', t);
    } else if pc.PopLoad? {
      LoadNearer(s, s', t);
    } else if pc.PopAcquire? {
      AcquireNearer(s, s', t);
    } else if pc.PopNext? {
      NextNearer(s, s', t);
    } else if pc.PopValue? {
      ValueNearer(s, s', t);
    } else if pc.PopFold? {
      FoldNearer(s, s', t);
    } else {
      ReleaseNearer(s, s', t);
    }
  }

  /** Steps of thread `t`, none of which fails for no reason. */
  predicate OwnTicks(actions: seq<Action>, t: nat) {
    forall i :: 0 <= i < |actions| ==> actions[i] == Tick(t, false)
  }

  /** The thread is done, with the answer and the effect that were due. */
  ghost predicate Ends(s: State, s': State, t: nat)
    requires t < |s.threads|
  {
    && |s'.threads| == |s.threads|
    && var th, th' := s.threads[t], s'.threads[t];
       && !Busy(th'.pc) && Contents(s') == After(s, th.pc) && Due(s', th') == Due(s, th)
       && (if Pushing(th.pc) || th.pc.Idle? then th'.pc.Idle? else th'.pc.Returned?)
  }

  lemma {:induction false} AloneEnds(s: State, t: nat, more: seq<Action>)
    requires Inv(s) && t < |s.threads| && OwnTicks(more, t) && AllFit(s, more) && |more| >= Effort(s, s.threads[t].pc)
    ensures Ends(s, Run(s, more), t)
    decreases |more|
  {
    if more != [] {
      var s' := Step(s, more[0]);
      if Busy(s.threads[t].pc) {
        OwnTick(s, t);
        StepInv(s, more[0]);
      }
      AloneEnds(s', t, more[1..]);
      EndsFirst(s, s', Run(s', more[1..]), t);
    }
  }

  lemma EndsFirst(s: State, s': State, end: State, t: nat)
    requires t < |s.threads| && (s' == s || Nearer(s, s', t)) && Ends(s', end, t)
    ensures Ends(s, end, t)
  {
  }

  lemma Reached(n: nat, actions: seq<Action>)
    requires AllFit(Init(n), actions)
    ensures Inv(Run(Init(n), actions))
  {
    InitKeeps(n);
    RunKeeps(Init(n), actions);
  }

  /** From whatever a run has led to, a thread inside Push or TryPop that is left alone is done, within two
      steps in Push and within eleven in TryPop. */
  lemma AloneReturns(n: nat, actions: seq<Action>, t: nat, more: seq<Action>)
    requires AllFit(Init(n), actions)
    requires var s := Run(Init(n), actions);
      && t < |s.threads| && Busy(s.threads[t].pc) && OwnTicks(more, t) && AllFit(s, more)
      && |more| >= if Pushing(s.threads[t].pc) then 2 else 11
    ensures var s := Run(Init(n), actions); var s' := Run(s, more);
      && |s'.threads| == |s.threads|
      && if !Pushing(s.threads[t].pc) then s'.threads[t].pc.Returned?
         else s'.threads[t].pc.Idle? && s'.threads[t].answers == s.threads[t].answers + [Done]
  {
    Reached(n, actions);
    var s := Run(Init(n), actions);
    EffortBound(s, s.threads[t].pc);
    AloneEnds(s, t, more);
  }

  lemma RunMore(s: State, a: Action, more: seq<Action>)
    ensures Run(s, [a] + more) == Run(Step(s, a), more)
    ensures AllFit(s, [a] + more) == (Fits(s, a) && AllFit(Step(s, a), more))
  {
    assert ([a] + more)[1..] == more;
  }

  /** A Push begun after any run, with a node at any free address, and left alone puts its value on top. */
  lemma PushAlone(n: nat, actions: seq<Action>, t: nat, v: Item, addr: nat, more: seq<Action>)
    requires AllFit(Init(n), actions)
    requires var s := Run(Init(n), actions);
      && t < |s.threads| && s.threads[t].pc.Idle? && addr != 0 && addr !in s.heap
      && OwnTicks(more, t) && AllFit(s, [CallPush(t, v, addr)] + more) && |more| >= 2
    ensures var s := Run(Init(n), actions); var s' := Run(s, [CallPush(t, v, addr)] + more);
      && Contents(s') == [v] + Contents(s)
      && |s'.threads| == |s.threads| && s'.threads[t].pc.Idle? && s'.threads[t].answers == s.threads[t].answers + [Done]
  {
    Reached(n, actions);
    var s := Run(Init(n), actions);
    var s1 := Step(s, CallPush(t, v, addr));
    StepInv(s, CallPush(t, v, addr));
    RunMore(s, CallPush(t, v, addr), more);
    SameItems(s, s1);
    AloneEnds(s1, t, more);
  }

  /** A TryPop begun after any run and left alone yields the newest value held and takes it out, and nothing
      if none is held. */
  lemma TryPopAlone(n: nat, actions: seq<Action>, t: nat, more: seq<Action>)
    requires AllFit(Init(n), actions)
    requires var s := Run(Init(n), actions);
      && t < |s.threads| && s.threads[t].pc.Idle?
      && OwnTicks(more, t) && AllFit(s, [CallPop(t)] + more) && |more| >= 11
    ensures var s := Run(Init(n), actions); var s' := Step(Run(s, [CallPop(t)] + more), Collect(t));
      && |s'.threads| == |s.threads| && s'.threads[t].pc.Idle?
      && var items := Contents(s);
         && Contents(s') == (if items == [] then [] else items[1..])
         && s'.threads[t].answers == s.threads[t].answers + [Gave(if items == [] then None else Some(items[0]))]
  {
    Reached(n, actions);
    var s := Run(Init(n), actions);
    var s1 := Step(s, CallPop(t));
    StepInv(s, CallPop(t));
    EffortBound(s1, s1.threads[t].pc);
    RunMore(s, CallPop(t), more);
    SameItems(s, s1);
    AloneEnds(s1, t, more);
    AnswerIs(s1, Run(s1, more), t);
  }

  lemma AnswerIs(s: State, end: State, t: nat)
    requires t < |s.threads| && s.threads[t].pc.PopLoad? && Ends(s, end, t)
    ensures var s', items := Step(end, Collect(t)), Contents(s);
      && |s'.threads| == |s.threads| && s'.threads[t].pc.Idle? && Contents(s') == After(s, PopLoad)
      && s'.threads[t].answers == s.threads[t].answers + [Gave(if items == [] then None else Some(items[0]))]
  {
    SameItems(end, Step(end, Collect(t)));
  }

  /** A compare-and-swap of head_ that fails for no reason leaves head_ and the chain alone, and its thread
      where it would be had it failed for another reason. */
  lemma SpuriousFailure(s: State, t: nat)
    requires t < |s.threads| && Inv(s)
    requires s.threads[t].pc.PushCas? || s.threads[t].pc.PopAcquire? || s.threads[t].pc.PopSwing?
    ensures var pc, s' := s.threads[t].pc, Step(s, Tick(t, true)); var pc' := s'.threads[t].pc;
      && s'.head == s.head && s'.chain == s.chain && s'.log == s.log && !s'.fault
      && pc' == (if pc.PushCas? then pc else if pc.PopAcquire? then PopLoad else PopRelease(pc.held))
  {
    if s.threads[t].pc.PushCas? {
      assert NodeLaw(s, s.threads[t].pc.node);
      ThreadCounts(s.threads, t, s.threads[t].pc.node);
    }
  }
}
