/** Cells as registers: module SharedPointers seen by its callers. Every Load, Store and
    CompareExchangeWeak takes effect at one instant, answers what it did there, and leaves its caller
    with the references that the answer says. */
module SharedRegisters {
  import opened Options
  import opened SharedPointers

  // --- Refinement to registers

  datatype Replayed = Legal(registers: seq<nat>) | Illegal

  /** The events as operations on plain registers that hold references. A compare-exchange may fail
      for no reason, but it fails with the pointer it read. */
  function Apply(r: Replayed, e: Event): Replayed {
    if r.Illegal? || e.cell >= |r.registers| then Illegal else
    match e
    case Loaded(_, c, p) => if r.registers[c] == p then r else Illegal
    case Stored(_, c, p) => Legal(r.registers[c := p])
    case Swapped(_, c, e, d) => if r.registers[c] == e then Legal(r.registers[c := d]) else Illegal
    case Failed(_, c, _, p) => if r.registers[c] == p then r else Illegal
  }

  function Replay(cells: nat, log: seq<Event>): Replayed {
    if log == [] then Legal(seq(cells, _ => 0)) else Apply(Replay(cells, log[..|log| - 1]), log[|log| - 1])
  }

  lemma ReplayAppend(cells: nat, log: seq<Event>, e: Event)
    ensures Replay(cells, log + [e]) == Apply(Replay(cells, log), e)
  {
    assert (log + [e])[..|log|] == log;
  }

  ghost function Pointers(cells: seq<Stamped>): seq<nat> {
    seq(|cells|, i requires 0 <= i < |cells| => cells[i].ptr)
  }

  ghost predicate Refines(s: State) {
    Replay(|s.cells|, s.log) == Legal(Pointers(s.cells))
  }

  // --- The history of one thread

  /** The events of one thread. */
  ghost function Of(log: seq<Event>, t: nat): seq<Event> {
    if log == [] then []
    else
      var rest := Of(log[..|log| - 1], t);
      if log[|log| - 1].t == t then rest + [log[|log| - 1]] else rest
  }

  lemma OfAppend(log: seq<Event>, e: Event, t: nat)
    ensures Of(log + [e], t) == if e.t == t then Of(log, t) + [e] else Of(log, t)
  {
    assert (log + [e])[..|log|] == log;
  }

  /** The event is the call's own. */
  predicate Matches(call: Call, e: Event) {
    match e
    case Loaded(_, c, _) => call == LoadCall(c)
    case Stored(_, c, p) => call == StoreCall(c, p)
    case Swapped(_, c, x, d) => call.CasCall? && call.cell == c && call.expected == x && call.desired == d
    case Failed(_, c, x, _) => call.CasCall? && call.cell == c && call.expected == x
  }

  /** A call on a cell is under way and has not yet taken effect. */
  predicate Deciding(pc: Pc) {
    match pc
    case Count(_, _, after) => after.ThenSwap? || after.ThenAcquire?
    case Delete(_, _, after) => after.ThenSwap? || after.ThenAcquire?
    case Idle => false
    case Write(_, _, _) => false
    case _ => true
  }

  predicate ServesPurpose(c: nat, why: Purpose, call: Call) {
    match why
    case ForLoad => call == LoadCall(c)
    case ForReload(e, d) => call.CasCall? && call.cell == c && call.expected == e && call.desired == d
    case ForCas(e, d, seal) => call == CasCall(c, e, d, seal)
  }

  predicate ServesAfter(after: After, call: Call) {
    match after
    case ThenSwap(c, p) => call == StoreCall(c, p)
    case ThenAcquire(c, why) => ServesPurpose(c, why, call)
    case _ => true
  }

  /** The thread is doing what the call asks. */
  predicate Serves(pc: Pc, call: Call) {
    match pc
    case Count(_, _, after) => ServesAfter(after, call)
    case Delete(_, _, after) => ServesAfter(after, call)
    case Acquire(c, why) => ServesPurpose(c, why, call)
    case Stamp(c, _, why) => ServesPurpose(c, why, call)
    case Swap(c, p) => call == StoreCall(c, p)
    case Swing(c, held, d, seal) => call == CasCall(c, held.ptr, d, seal)
    case _ => true
  }

  /** The events of a thread are, one by one, those of what it has asked, up to the call that is still
      undecided, and its answers are those of its events. */
  ghost predicate HistoryOf(s: State, t: nat, asked: seq<Call>)
    requires t < |s.threads|
  {
    var th, events := s.threads[t], Of(s.log, t);
    && |events| == |th.answers| == |asked| - (if Deciding(th.pc) then 1 else 0)
    && (forall k :: 0 <= k < |events| ==>
          events[k].t == t && Matches(asked[k], events[k]) && th.answers[k] == AnswerOf(events[k]))
    && (Deciding(th.pc) ==> Serves(th.pc, asked[|asked| - 1]))
  }

  ghost predicate Recorded(s: State) {
    forall t :: 0 <= t < |s.threads| ==> HistoryOf(s, t, s.threads[t].calls)
  }

  // --- The two kinds of steps

  /** Nothing asked of a cell takes effect, and thread `t` goes on with what it was asked. */
  ghost predicate Silent(s: State, s': State, t: nat)
    requires t < |s.threads|
  {
    && s'.log == s.log && Pointers(s'.cells) == Pointers(s.cells)
    && |s'.threads| == |s.threads| && (forall u :: 0 <= u < |s.threads| && u != t ==> s'.threads[u] == s.threads[u])
    && var th, th' := s.threads[t], s'.threads[t];
       && th'.calls == th.calls && th'.answers == th.answers && th'.handles == th.handles
       && (Deciding(th'.pc) <==> Deciding(th.pc))
       && (forall call :: Deciding(th.pc) && Serves(th.pc, call) ==> Serves(th'.pc, call))
  }

  /** What the answer does to the caller's references. */
  function Result(handles: multiset<nat>, call: Call, e: Event): multiset<nat> {
    match e
    case Loaded(_, _, p) => handles + Ref(p)
    case Stored(_, _, _) => handles
    case Swapped(_, _, x, _) => if call.CasCall? && call.seal then handles - Ref(x) else handles
    case Failed(_, _, x, p) => handles - Ref(x) + Ref(p)
  }

  /** The pending call of thread `t` takes effect as event `e`. */
  ghost predicate Effect(s: State, s': State, t: nat, e: Event)
    requires t < |s.threads|
  {
    && s'.log == s.log + [e] && e.t == t
    && Apply(Legal(Pointers(s.cells)), e) == Legal(Pointers(s'.cells))
    && |s'.threads| == |s.threads| && (forall u :: 0 <= u < |s.threads| && u != t ==> s'.threads[u] == s.threads[u])
    && var th, th' := s.threads[t], s'.threads[t];
       && th'.calls == th.calls && th'.answers == th.answers + [AnswerOf(e)]
       && Deciding(th.pc) && !Deciding(th'.pc)
       && (forall call :: Serves(th.pc, call) ==> Matches(call, e) && th'.handles == Result(th.handles, call, e))
  }

  lemma PointersUpdate(cells: seq<Stamped>, c: nat, x: Stamped)
    requires c < |cells|
    ensures Pointers(cells[c := x]) == Pointers(cells)[c := x.ptr]
    ensures x.ptr == cells[c].ptr ==> Pointers(cells[c := x]) == Pointers(cells)
  {
  }

  lemma CountIsSilent(s: State, t: nat, flaky: bool)
    requires Inv(s) && t < |s.threads| && s.threads[t].pc.Count?
    ensures Silent(s, TickStep(s, t, flaky), t)
  {
    assert InRange(s.threads[t].pc, |s.cells|);
  }

  lemma DeleteIsSilent(s: State, t: nat)
    requires Inv(s) && t < |s.threads| && s.threads[t].pc.Delete?
    ensures forall flaky :: Silent(s, TickStep(s, t, flaky), t)
  {
    var Delete(p, todo, after) := s.threads[t].pc;
    DoomedIsDead(s, t);
    ContinueServes(Released(s.links, p, todo), after);
  }

  lemma ContinueServes(todo: Todo, after: After)
    ensures var pc := Continue(todo, after);
      && (Deciding(pc) <==> after.ThenSwap? || after.ThenAcquire?)
      && (forall call :: ServesAfter(after, call) ==> Serves(pc, call))
  {
  }

  lemma WriteIsSilent(s: State, t: nat)
    requires Inv(s) && t < |s.threads| && s.threads[t].pc.Write? && StampsFit(s, Tick(t, false))
    ensures forall flaky :: Silent(s, TickStep(s, t, flaky), t)
  {
    var Write(c, x, drops) := s.threads[t].pc;
    assert InRange(s.threads[t].pc, |s.cells|);
    PointersUpdate(s.cells, c, x);
    ContinueServes(drops, Finish);
  }

  lemma SwapTakesEffect(s: State, t: nat, flaky: bool) returns (e: Event)
    requires Inv(s) && t < |s.threads| && s.threads[t].pc.Swap?
    ensures Effect(s, TickStep(s, t, flaky), t, e)
  {
    var Swap(c, target) := s.threads[t].pc;
    assert InRange(s.threads[t].pc, |s.cells|);
    e := Stored(t, c, target);
    PointersUpdate(s.cells, c, Stamped(target, 0));
  }

  lemma SwungTakesEffect(s: State, t: nat) returns (e: Event)
    requires Inv(s) && t < |s.threads| && s.threads[t].pc.Swing? && s.threads[t].pc.cell < |s.cells|
    requires s.cells[s.threads[t].pc.cell] == s.threads[t].pc.held
    ensures Effect(s, Swung(s, t), t, e)
  {
    var Swing(c, held, d, seal) := s.threads[t].pc;
    e := Swapped(t, c, held.ptr, d);
    PointersUpdate(s.cells, c, Stamped(d, 0));
  }

  lemma MissIsSilent(s: State, t: nat)
    requires t < |s.threads| && s.threads[t].pc.Swing?
    ensures var Swing(c, held, d, _) := s.threads[t].pc;
      Silent(s, Goto(s, t, Continue(Adopt(held.ptr, Nil), ThenAcquire(c, ForReload(held.ptr, d)))), t)
  {
  }

  /** A pointer acquired decides the call, unless CompareExchangeWeak found what it expected. */
  lemma AcquiredTakesEffect(s: State, s1: State, t: nat, c: nat, got: Stamped, why: Purpose) returns (e: Event)
    requires t < |s.threads| && c < |s.cells| && got.ptr == s.cells[c].ptr && Pointers(s1.cells) == Pointers(s.cells)
    requires s1.threads == s.threads && s1.log == s.log
    requires s.threads[t].pc == Acquire(c, why) || (s.threads[t].pc.Stamp? && s.threads[t].pc.cell == c && s.threads[t].pc.why == why)
    requires why.ForCas? ==> got.ptr != why.expected
    ensures Effect(s, Acquired(s1, t, c, got, why), t, e)
  {
    e := match why
         case ForLoad => Loaded(t, c, got.ptr)
         case ForReload(x, _) => Failed(t, c, x, got.ptr)
         case ForCas(x, _, _) => Failed(t, c, x, got.ptr);
    assert Pointers(s.cells)[c] == got.ptr;
  }

  lemma FoundIsSilent(s: State, s1: State, t: nat, c: nat, got: Stamped, why: Purpose)
    requires t < |s.threads| && Pointers(s1.cells) == Pointers(s.cells) && s1.threads == s.threads && s1.log == s.log
    requires s.threads[t].pc == Acquire(c, why) || (s.threads[t].pc.Stamp? && s.threads[t].pc.cell == c && s.threads[t].pc.why == why)
    requires why.ForCas? && got.ptr == why.expected
    ensures Silent(s, Acquired(s1, t, c, got, why), t)
  {
  }

  ghost predicate SilentOrEffect(s: State, s': State, t: nat)
    requires t < |s.threads|
  {
    Silent(s, s', t) || exists e :: Effect(s, s', t, e)
  }

  lemma AcquiredShape(s: State, s1: State, t: nat, c: nat, got: Stamped, why: Purpose)
    requires t < |s.threads| && c < |s.cells| && got.ptr == s.cells[c].ptr && Pointers(s1.cells) == Pointers(s.cells)
    requires s1.threads == s.threads && s1.log == s.log
    requires s.threads[t].pc == Acquire(c, why) || (s.threads[t].pc.Stamp? && s.threads[t].pc.cell == c && s.threads[t].pc.why == why)
    ensures SilentOrEffect(s, Acquired(s1, t, c, got, why), t)
  {
    if why.ForCas? && got.ptr == why.expected {
      FoundIsSilent(s, s1, t, c, got, why);
    } else {
      var e := AcquiredTakesEffect(s, s1, t, c, got, why);
    }
  }

  lemma AcquireShape(s: State, t: nat, flaky: bool)
    requires Inv(s) && t < |s.threads| && (s.threads[t].pc.Acquire? || s.threads[t].pc.Stamp?)
    ensures SilentOrEffect(s, TickStep(s, t, flaky), t)
  {
    var pc := s.threads[t].pc;
    var c, why := pc.cell, pc.why;
    assert InRange(pc, |s.cells|);
    if pc.Stamp? && !flaky && s.cells[c] == pc.seen {
      var next := Stamped(pc.seen.ptr, pc.seen.stamp + 1);
      PointersUpdate(s.cells, c, Word(next));
      AcquiredShape(s, s.(cells := s.cells[c := Word(next)]), t, c, next, why);
    } else if s.cells[c].ptr == 0 {
      AcquiredShape(s, s, t, c, s.cells[c], why);
    }
  }

  lemma TickShape(s: State, t: nat, flaky: bool)
    requires Inv(s) && t < |s.threads| && StampsFit(s, Tick(t, flaky))
    ensures SilentOrEffect(s, TickStep(s, t, flaky), t)
  {
    var pc := s.threads[t].pc;
    if pc.Count? {
      CountIsSilent(s, t, flaky);
    } else if pc.Delete? {
      DeleteIsSilent(s, t);
    } else if pc.Acquire? || pc.Stamp? {
      AcquireShape(s, t, flaky);
    } else if pc.Swap? {
      var e := SwapTakesEffect(s, t, flaky);
    } else if pc.Swing? {
      assert InRange(pc, |s.cells|) && Word(pc.held) == pc.held;
      if !flaky && s.cells[pc.cell] == pc.held { var e := SwungTakesEffect(s, t); } else { MissIsSilent(s, t); }
    } else if pc.Write? {
      WriteIsSilent(s, t);
    }
  }

  // --- Every step keeps the record

  lemma SilentKeeps(s: State, s': State, t: nat)
    requires t < |s.threads| && Silent(s, s', t) && Recorded(s) && Refines(s)
    ensures Recorded(s') && Refines(s')
  {
    assert |Pointers(s'.cells)| == |Pointers(s.cells)|;
    forall u | 0 <= u < |s'.threads| ensures HistoryOf(s', u, s'.threads[u].calls) {
      assert HistoryOf(s, u, s.threads[u].calls);
    }
  }

  lemma EffectKeeps(s: State, s': State, t: nat, e: Event)
    requires t < |s.threads| && Effect(s, s', t, e) && Recorded(s) && Refines(s)
    ensures Recorded(s') && Refines(s')
  {
    ReplayAppend(|s.cells|, s.log, e);
    assert |Pointers(s'.cells)| == |Pointers(s.cells)|;
    forall u | 0 <= u < |s'.threads| ensures HistoryOf(s', u, s'.threads[u].calls) {
      assert HistoryOf(s, u, s.threads[u].calls);
      OfAppend(s.log, e, u);
    }
  }

  /** The data of a block that the thread refers to hold a reference to `p`. */
  predicate InData(s: State, th: Thread, p: nat) {
    exists l :: l in s.links && l.to == p && l.from in th.handles
  }

  /** What a client is free to do, between calls: allocate at a free address; copy a reference it owns or
      reads in the data of a block, drop one, hand one to another thread, move one into a block; and call
      an operation of a cell with references it owns or, where they are passed as copies, reads. */
  predicate Allowed(s: State, a: Action) {
    && a.t < |s.threads| && s.threads[a.t].pc == Idle
    && var th := s.threads[a.t];
       match a
       case Make(_, addr) => addr != 0 && addr !in s.blocks
       case Copy(_, p) => p == 0 || p in th.handles || InData(s, th, p)
       case Drop(_, p) => p == 0 || p in th.handles
       case Give(_, u, p) => (p == 0 || p in th.handles) && u < |s.threads| && u != a.t
       case Attach(_, into, p) => into in th.handles && p in th.handles && into != 0 && p != 0
       case CallLoad(_, c) => c < |s.cells|
       case CallStore(_, c, p, keep) => c < |s.cells| && (p == 0 || p in th.handles || (keep && InData(s, th, p)))
       case CallCas(_, c, e, d, keep, seal) =>
         && c < |s.cells| && (e == 0 || e in th.handles) && (d == 0 || d in th.handles || (keep && InData(s, th, d)))
         && (e == d && d != 0 && !keep ==> th.handles[d] >= 2) && (seal ==> d != 0 && d in th.handles)
       case Tick(_, _) => false
  }

  /** All that it is free to do takes place, and nothing else. */
  lemma AllowedTakesPlace(s: State, a: Action)
    requires a.t < |s.threads|
    ensures Allowed(s, a) <==> s.threads[a.t].pc.Idle? && Applies(s, a)
    ensures Allowed(s, a) ==> Step(s, a) == CallStep(s, a)
  {
  }

  /** The call of thread `t` that begins with this action, if one does. */
  ghost function Begun(s: State, a: Action, t: nat): seq<Call> {
    if a.t != t || !Allowed(s, a) then []
    else
      match a
      case CallLoad(_, c) => [LoadCall(c)]
      case CallStore(_, c, p, _) => [StoreCall(c, p)]
      case CallCas(_, c, e, d, _, seal) => [CasCall(c, e, d, seal)]
      case _ => []
  }

  /** A client action: no access to a cell yet. */
  lemma CallFrame(s: State, a: Action)
    requires !a.Tick?
    ensures Step(s, a).log == s.log && Step(s, a).cells == s.cells && |Step(s, a).threads| == |s.threads|
    ensures forall u :: 0 <= u < |s.threads| && u != a.t ==>
      Step(s, a).threads[u] == s.threads[u].(handles := Step(s, a).threads[u].handles)
  {
  }

  lemma CallShape(s: State, a: Action, u: nat)
    requires u < |s.threads| && !a.Tick? && HistoryOf(s, u, s.threads[u].calls)
    ensures |Step(s, a).threads| == |s.threads|
    ensures Step(s, a).threads[u].calls == s.threads[u].calls + Begun(s, a, u)
    ensures HistoryOf(Step(s, a), u, Step(s, a).threads[u].calls)
  {
    CallFrame(s, a);
    if u == a.t { AllowedTakesPlace(s, a); }
    if u == a.t && s.threads[u].pc.Idle? && Applies(s, a) {
      CalledServes(s, a);
      BeginKeeps(s, Step(s, a), u, Begun(s, a, u));
    }
  }

  lemma BeginKeeps(s: State, s': State, u: nat, begun: seq<Call>)
    requires u < |s.threads| == |s'.threads| && s'.log == s.log && s.threads[u].pc.Idle?
    requires HistoryOf(s, u, s.threads[u].calls)
    requires var th, th' := s.threads[u], s'.threads[u];
      && th'.calls == th.calls + begun && th'.answers == th.answers && |begun| <= 1
      && (Deciding(th'.pc) <==> begun != []) && (Deciding(th'.pc) ==> Serves(th'.pc, begun[0]))
    ensures HistoryOf(s', u, s'.threads[u].calls)
  {
  }

  lemma PassingServes(th: Thread, a: Action)
    requires a.CallStore? || a.CallCas?
    ensures var th' := Called(th, a);
      && th'.answers == th.answers && Deciding(th'.pc)
      && th'.calls == th.calls + [if a.CallStore? then StoreCall(a.cell, a.target)
                                  else CasCall(a.cell, a.expected, a.desired, a.seal)]
      && Serves(th'.pc, th'.calls[|th.calls|])
  {
    if a.CallStore? {
      ContinueServes(Passed(a.target, a.keep, Adjust(a.target, 1, 0, Nil)), ThenSwap(a.cell, a.target));
    } else {
      ContinueServes(Passed(a.desired, a.keep, Nil), ThenAcquire(a.cell, ForCas(a.expected, a.desired, a.seal)));
    }
  }

  /** A move of references, or a Load: the call itself, if it is one, is all there is. */
  lemma OtherCallServes(s: State, a: Action)
    requires a.t < |s.threads| && s.threads[a.t].pc.Idle? && Applies(s, a) && !a.CallStore? && !a.CallCas?
    ensures var th, th' := s.threads[a.t], CallStep(s, a).threads[a.t];
      && th'.calls == th.calls + Begun(s, a, a.t) && th'.answers == th.answers
      && (if a.CallLoad? then th'.pc == Acquire(a.cell, ForLoad) else !Deciding(th'.pc))
  {
    AllowedTakesPlace(s, a);
    match a
    case Give(_, _, _) =>
    case Copy(_, _) =>
    case Drop(_, _) =>
    case _ =>
  }

  lemma CalledServes(s: State, a: Action)
    requires a.t < |s.threads| && s.threads[a.t].pc.Idle? && Applies(s, a)
    ensures var th, th' := s.threads[a.t], CallStep(s, a).threads[a.t];
      && th'.calls == th.calls + Begun(s, a, a.t) && th'.answers == th.answers
      && (Deciding(th'.pc) <==> Begun(s, a, a.t) != [])
      && (Deciding(th'.pc) ==> Serves(th'.pc, Begun(s, a, a.t)[0]))
  {
    if a.CallStore? || a.CallCas? { PassingCallServes(s, a); } else { OtherCallServes(s, a); }
  }

  lemma PassingCallServes(s: State, a: Action)
    requires a.t < |s.threads| && s.threads[a.t].pc.Idle? && Applies(s, a) && (a.CallStore? || a.CallCas?)
    ensures var th, th' := s.threads[a.t], CallStep(s, a).threads[a.t];
      && th'.calls == th.calls + Begun(s, a, a.t) && th'.answers == th.answers
      && Deciding(th'.pc) && Begun(s, a, a.t) != [] && Serves(th'.pc, Begun(s, a, a.t)[0])
  {
    AllowedTakesPlace(s, a);
    PassingServes(s.threads[a.t], a);
  }

  lemma CallKeeps(s: State, a: Action)
    requires Recorded(s) && Refines(s) && !a.Tick?
    ensures Recorded(Step(s, a)) && Refines(Step(s, a))
  {
    forall u | 0 <= u < |s.threads|
      ensures HistoryOf(Step(s, a), u, Step(s, a).threads[u].calls) && |Step(s, a).threads| == |s.threads|
    {
      CallShape(s, a, u);
    }
    if |s.threads| > 0 { CallShape(s, a, 0); }
  }

  lemma StepKeeps(s: State, a: Action)
    requires Inv(s) && Fits(s, a) && Recorded(s) && Refines(s)
    ensures Recorded(Step(s, a)) && Refines(Step(s, a))
  {
    if !a.Tick? {
      CallKeeps(s, a);
    } else if a.t < |s.threads| {
      TickShape(s, a.t, a.flaky);
      var s' := TickStep(s, a.t, a.flaky);
      if Silent(s, s', a.t) {
        SilentKeeps(s, s', a.t);
      } else {
        var e :| Effect(s, s', a.t, e);
        EffectKeeps(s, s', a.t, e);
      }
    }
  }

  // --- Every run

  /** What the client asks of the cells from thread `t` in a run. */
  ghost function Asked(s: State, actions: seq<Action>, t: nat): seq<Call>
    decreases |actions|
  {
    if actions == [] then [] else Begun(s, actions[0], t) + Asked(Step(s, actions[0]), actions[1..], t)
  }

  /** The references that thread `t` has after an action, if it had `handles`: its own moves, what others
      give it, and what the answers of its calls bring or take. */
  ghost function Settle(handles: multiset<nat>, s: State, a: Action, t: nat): multiset<nat>
    requires t < |s.threads|
  {
    if a.Tick? then
      var log, calls := Step(s, a).log, s.threads[t].calls;
      if a.t == t && |log| > |s.log| && calls != [] then Result(handles, calls[|calls| - 1], log[|s.log|]) else handles
    else if !Allowed(s, a) then handles
    else if a.t != t then (if a.Give? && a.to == t then handles + Ref(a.p) else handles)
    else
      match a
      case Make(_, addr) => handles + Ref(addr)
      case Copy(_, p) => handles + Ref(p)
      case Drop(_, p) => handles - Ref(p)
      case Give(_, _, p) => handles - Ref(p)
      case Attach(_, _, p) => handles - Ref(p)
      case CallStore(_, _, p, keep) => if keep then handles else handles - Ref(p)
      case CallCas(_, _, _, d, keep, _) => if keep then handles else handles - Ref(d)
      case _ => handles
  }

  /** The references that a run leaves thread `t` with. */
  ghost function Earned(handles: multiset<nat>, s: State, actions: seq<Action>, t: nat): multiset<nat>
    requires t < |s.threads|
    decreases |actions|
  {
    if actions == [] then handles
    else if t < |Step(s, actions[0]).threads| then
      Earned(Settle(handles, s, actions[0], t), Step(s, actions[0]), actions[1..], t)
    else handles
  }

  lemma TickSettles(s: State, a: Action, t: nat)
    requires Inv(s) && Fits(s, a) && a.Tick? && t < |s.threads| && HistoryOf(s, t, s.threads[t].calls)
    ensures |Step(s, a).threads| == |s.threads|
    ensures Step(s, a).threads[t].handles == Settle(s.threads[t].handles, s, a, t)
    ensures Step(s, a).threads[t].calls == s.threads[t].calls
  {
    if a.t < |s.threads| {
      TickShape(s, a.t, a.flaky);
      var s' := TickStep(s, a.t, a.flaky);
      if !Silent(s, s', a.t) {
        var e :| Effect(s, s', a.t, e);
        if a.t == t { assert Serves(s.threads[t].pc, s.threads[t].calls[|s.threads[t].calls| - 1]); }
      }
    }
  }

  lemma GiveSettles(s: State, a: Action, t: nat)
    requires a.Give? && t < |s.threads|
    ensures |Step(s, a).threads| == |s.threads|
    ensures Step(s, a).threads[t].handles == Settle(s.threads[t].handles, s, a, t)
  {
    if a.t < |s.threads| { AllowedTakesPlace(s, a); }
  }

  lemma CallSettles(s: State, a: Action, t: nat)
    requires !a.Tick? && t < |s.threads|
    ensures |Step(s, a).threads| == |s.threads|
    ensures Step(s, a).threads[t].handles == Settle(s.threads[t].handles, s, a, t)
  {
    if a.t < |s.threads| { AllowedTakesPlace(s, a); }
    if a.Give? {
      GiveSettles(s, a, t);
    } else if a.t < |s.threads| && s.threads[a.t].pc.Idle? && Applies(s, a) {
      match a
      case Make(_, _) =>
      case Attach(_, _, _) =>
      case CallStore(_, _, _, _) =>
      case CallCas(_, _, _, _, _, _) =>
      case _ =>
    }
  }

  lemma StepSettles(s: State, a: Action, t: nat)
    requires Inv(s) && Fits(s, a) && t < |s.threads| && HistoryOf(s, t, s.threads[t].calls)
    ensures |Step(s, a).threads| == |s.threads|
    ensures Step(s, a).threads[t].handles == Settle(s.threads[t].handles, s, a, t)
    ensures Step(s, a).threads[t].calls == s.threads[t].calls + Begun(s, a, t)
  {
    if a.Tick? {
      TickSettles(s, a, t);
    } else {
      CallSettles(s, a, t);
      CallShape(s, a, t);
    }
  }

  lemma {:induction false} RunKeeps(s: State, actions: seq<Action>)
    requires Inv(s) && Recorded(s) && Refines(s) && AllFit(s, actions)
    ensures Inv(Run(s, actions)) && Recorded(Run(s, actions)) && Refines(Run(s, actions))
    decreases |actions|
  {
    if actions != [] {
      StepInv(s, actions[0]);
      StepKeeps(s, actions[0]);
      RunKeeps(Step(s, actions[0]), actions[1..]);
    }
  }

  /** What a run from `s0` has given thread `t`, if its calls were `calls` before. */
  ghost predicate Outcome(s0: State, actions: seq<Action>, s: State, t: nat, calls: seq<Call>, handles: multiset<nat>)
    requires t < |s0.threads|
  {
    && |s.threads| == |s0.threads|
    && s.threads[t].calls == calls + Asked(s0, actions, t)
    && s.threads[t].handles == Earned(handles, s0, actions, t)
  }

  lemma {:induction false} RunSettles(s: State, actions: seq<Action>, t: nat)
    requires Inv(s) && Recorded(s) && Refines(s) && AllFit(s, actions) && t < |s.threads|
    ensures Outcome(s, actions, Run(s, actions), t, s.threads[t].calls, s.threads[t].handles)
    decreases |actions|
  {
    if actions != [] {
      var s' := Step(s, actions[0]);
      assert HistoryOf(s, t, s.threads[t].calls);
      StepInv(s, actions[0]);
      StepKeeps(s, actions[0]);
      StepSettles(s, actions[0], t);
      RunSettles(s', actions[1..], t);
      OutcomeFirst(s, actions, s', Run(s', actions[1..]), t);
    }
  }

  lemma OutcomeFirst(s: State, actions: seq<Action>, s': State, end: State, t: nat)
    requires actions != [] && s' == Step(s, actions[0]) && t < |s.threads| == |s'.threads|
    requires s'.threads[t].calls == s.threads[t].calls + Begun(s, actions[0], t)
    requires s'.threads[t].handles == Settle(s.threads[t].handles, s, actions[0], t)
    requires Outcome(s', actions[1..], end, t, s'.threads[t].calls, s'.threads[t].handles)
    ensures Outcome(s, actions, end, t, s.threads[t].calls, s.threads[t].handles)
  {
    AskedUnfolds(s, actions, s', t, s.threads[t].calls);
    EarnedUnfolds(s, actions, s', t, s.threads[t].handles);
  }

  lemma AskedUnfolds(s: State, actions: seq<Action>, s': State, t: nat, calls: seq<Call>)
    requires actions != [] && s' == Step(s, actions[0])
    ensures calls + Asked(s, actions, t) == (calls + Begun(s, actions[0], t)) + Asked(s', actions[1..], t)
  {
    var begun, rest := Begun(s, actions[0], t), Asked(s', actions[1..], t);
    assert (calls + begun) + rest == calls + (begun + rest);
  }

  lemma EarnedUnfolds(s: State, actions: seq<Action>, s': State, t: nat, handles: multiset<nat>)
    requires actions != [] && s' == Step(s, actions[0]) && t < |s.threads| == |s'.threads|
    ensures Earned(handles, s, actions, t) == Earned(Settle(handles, s, actions[0], t), s', actions[1..], t)
  {
  }

  lemma InitKeeps(threads: nat, cells: nat)
    ensures Inv(Init(threads, cells)) && Recorded(Init(threads, cells)) && Refines(Init(threads, cells))
  {
    InitInv(threads, cells);
    assert Pointers(Init(threads, cells).cells) == seq(cells, _ => 0);
  }

  /** In every run that fits, the cells behave as atomic registers: the log replays on plain registers
      and leaves what the cells point to. The events of each thread are, one by one, the loads, stores
      and compare-exchanges that the client called from it, up to the call still undecided; each answer
      (the pointer loaded, success, or failure with the pointer found) is that of its event; and the
      references the thread owns are exactly those that its own moves and these answers amount to. */
  lemma Linearizable(threads: nat, cells: nat, actions: seq<Action>)
    requires AllFit(Init(threads, cells), actions)
    ensures var s0, s := Init(threads, cells), Run(Init(threads, cells), actions);
      && Replay(|s.cells|, s.log) == Legal(Pointers(s.cells))
      && |s.threads| == threads && forall t :: 0 <= t < threads ==> Served(s0, actions, s, t)
  {
    InitKeeps(threads, cells);
    HistoriesHold(Init(threads, cells), actions, Run(Init(threads, cells), actions));
  }

  /** Thread `t` has asked, and been answered and given, what the run from `s0` says. */
  ghost predicate Served(s0: State, actions: seq<Action>, s: State, t: nat)
    requires t < |s0.threads| && t < |s.threads|
  {
    HistoryOf(s, t, Asked(s0, actions, t)) && s.threads[t].handles == Earned(multiset{}, s0, actions, t)
  }

  lemma {:induction false} ThreadsStay(s: State, actions: seq<Action>)
    requires Inv(s) && Recorded(s) && Refines(s) && AllFit(s, actions)
    ensures |Run(s, actions).threads| == |s.threads|
    decreases |actions|
  {
    if actions != [] {
      if |s.threads| > 0 { assert HistoryOf(s, 0, s.threads[0].calls); StepSettles(s, actions[0], 0); }
      StepInv(s, actions[0]);
      StepKeeps(s, actions[0]);
      ThreadsStay(Step(s, actions[0]), actions[1..]);
    }
  }

  lemma HistoriesHold(s: State, actions: seq<Action>, s': State)
    requires Inv(s) && Recorded(s) && Refines(s) && AllFit(s, actions) && s' == Run(s, actions)
    requires forall t :: 0 <= t < |s.threads| ==> s.threads[t].calls == [] && s.threads[t].handles == multiset{}
    ensures Refines(s') && |s'.threads| == |s.threads|
    ensures forall t :: 0 <= t < |s.threads| ==> Served(s, actions, s', t)
  {
    RunKeeps(s, actions);
    ThreadsStay(s, actions);
    forall t | 0 <= t < |s.threads| ensures Served(s, actions, s', t) {
      RunSettles(s, actions, t);
      OutcomeServed(s, actions, s', t);
    }
  }

  lemma OutcomeServed(s: State, actions: seq<Action>, s': State, t: nat)
    requires t < |s.threads| && s.threads[t].calls == [] && s.threads[t].handles == multiset{} && Recorded(s')
    requires Outcome(s, actions, s', t, s.threads[t].calls, s.threads[t].handles)
    ensures Served(s, actions, s', t)
  {
    var asked := Asked(s, actions, t);
    assert [] + asked == asked;
    HistoryAsked(s', t, asked);
  }

  lemma HistoryAsked(s: State, t: nat, asked: seq<Call>)
    requires t < |s.threads| && Recorded(s) && s.threads[t].calls == asked
    ensures HistoryOf(s, t, asked)
  {
    assert HistoryOf(s, t, s.threads[t].calls);
  }
}
