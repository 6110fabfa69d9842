/** Progress of AtomicSharedPtr (module SharedPointers): a thread left alone inside an operation, with no
    spurious failure, is done within a bounded number of its steps, the blocks that it deletes on the way
    and the references in their data included; and a call left alone from its start loads, stores or
    exchanges what it should. */
module SharedPointersAlone {
  import opened Options
  import opened SharedPointers
  import Registers = SharedRegisters

  // --- How long it takes

  /** For each call of IncrementCounter: load the counter, exchange it, delete the block. */
  function TodoCost(todo: Todo): nat {
    if todo.Nil? then 0 else 3 + TodoCost(todo.rest)
  }

  /** Once the pointer is acquired. */
  function DecisionCost(why: Purpose): nat {
    match why
    case ForLoad => 10
    case ForReload(_, _) => 19
    case ForCas(_, _, _) => 13
  }

  function AfterCost(after: After): nat {
    match after
    case Finish => 0
    case ThenSwap(_, _) => 13
    case ThenAcquire(_, why) => 2 + DecisionCost(why)
    case ThenWrite(_, _, drops) => 1 + TodoCost(drops)
  }

  predicate Holds(s: State, c: nat, x: Stamped) {
    c < |s.cells| && s.cells[c] == x
  }

  /** The counter loaded is the block's. */
  predicate Loaded(s: State, todo: Todo, counter: Option<Block>) {
    todo.Adjust? && todo.ptr in s.blocks && counter == Some(s.blocks[todo.ptr])
  }

  function CountCost(s: State, todo: Todo, counter: Option<Block>): nat {
    if todo.Nil? then 1 else TodoCost(todo.rest) + if Loaded(s, todo, counter) then 2 else 3
  }

  function PcCost(s: State, pc: Pc): nat {
    match pc
    case Idle => 0
    case Count(todo, counter, after) => CountCost(s, todo, counter) + AfterCost(after)
    case Delete(_, todo, after) => 1 + TodoCost(todo) + AfterCost(after)
    case Acquire(_, why) => 2 + DecisionCost(why)
    case Stamp(c, seen, why) => DecisionCost(why) + if Holds(s, c, seen) then 1 else 2
    case Swap(_, _) => 13
    case Swing(c, held, _, _) => if Holds(s, c, Word(held)) then 13 else 28
    case Write(_, _, drops) => 1 + TodoCost(drops)
  }

  /** What a thread has to do, if it is left alone; a reference in a block costs as much as a call. */
  function Work(s: State, pc: Pc): nat {
    PcCost(s, pc) + 3 * |s.links|
  }

  /** How many steps more it takes. */
  function Effort(s: State, pc: Pc): nat {
    if pc.Idle? then 0 else Work(s, pc)
  }

  lemma AdoptCost(p: nat, rest: Todo)
    ensures TodoCost(Adopt(p, rest)) == 6 + TodoCost(rest)
  {
  }

  lemma ListCosts(x: Stamped, p: nat, e: nat, d: nat)
    ensures TodoCost(AfterSwap(x, p)) == 12 && TodoCost(AfterSwing(x, p)) == 9
    ensures TodoCost(AfterMismatch(p, e, d)) == 12 && TodoCost(AfterReload(e, d)) == 9
  {
    assert TodoCost(Adjust(p, -1, 0, Nil)) == TodoCost(Adjust(d, -1, 0, Nil)) == 3;
    assert TodoCost(Adjust(x.ptr, -1, 0, Adjust(p, -1, 0, Nil))) == 6;
    assert TodoCost(Adjust(p, 0, -1, Adjust(d, -1, 0, Nil))) == 6;
  }

  // --- What comes of it

  /** The cells once the thread is done, its answers and its references. */
  datatype Outcome = Outcome(cells: seq<Stamped>, answers: seq<Answer>, handles: multiset<nat>)

  /** A Load raises the stamp by one, and above the limit folds the limit back. */
  function Folded(x: Stamped): Stamped {
    if x.ptr == 0 then x
    else Stamped(x.ptr, if x.stamp + 1 <= LIMIT then x.stamp + 1 else x.stamp + 1 - LIMIT)
  }

  function Raised(x: Stamped): Stamped {
    if x.ptr == 0 then x else Stamped(x.ptr, x.stamp + 1)
  }

  function Decided(s: State, th: Thread, c: nat, why: Purpose): Outcome {
    if c >= |s.cells| then Outcome(s.cells, th.answers, th.handles) else
    var x := s.cells[c];
    match why
    case ForLoad => Outcome(s.cells[c := Folded(x)], th.answers + [Got(x.ptr)], th.handles + Ref(x.ptr))
    case ForReload(e, _) =>
      Outcome(s.cells[c := Folded(x)], th.answers + [Refused(x.ptr)], th.handles - Ref(e) + Ref(x.ptr))
    case ForCas(e, d, seal) =>
      if x.ptr == e then Outcome(s.cells[c := Stamped(d, 0)], th.answers + [Exchanged], AfterSeal(th.handles, e, seal))
      else Outcome(s.cells[c := Raised(x)], th.answers + [Refused(x.ptr)], th.handles - Ref(e) + Ref(x.ptr))
  }

  function Wrote(s: State, th: Thread, c: nat, x: Stamped): Outcome {
    Outcome(if c < |s.cells| then s.cells[c := x] else s.cells, th.answers, th.handles)
  }

  function StoredIn(s: State, th: Thread, c: nat, p: nat): Outcome {
    if c < |s.cells| then Outcome(s.cells[c := Stamped(p, 0)], th.answers + [Done], th.handles)
    else Outcome(s.cells, th.answers, th.handles)
  }

  function AfterAll(s: State, th: Thread, after: After): Outcome {
    match after
    case Finish => Outcome(s.cells, th.answers, th.handles)
    case ThenSwap(c, p) => StoredIn(s, th, c, p)
    case ThenAcquire(c, why) => Decided(s, th, c, why)
    case ThenWrite(c, x, _) => Wrote(s, th, c, x)
  }

  function Due(s: State, th: Thread): Outcome {
    match th.pc
    case Idle => Outcome(s.cells, th.answers, th.handles)
    case Count(_, _, after) => AfterAll(s, th, after)
    case Delete(_, _, after) => AfterAll(s, th, after)
    case Acquire(c, why) => Decided(s, th, c, why)
    case Stamp(c, _, why) => Decided(s, th, c, why)
    case Swap(c, p) => StoredIn(s, th, c, p)
    case Swing(c, held, d, seal) =>
      if Holds(s, c, Word(held)) then
        Outcome(s.cells[c := Stamped(d, 0)], th.answers + [Exchanged], AfterSeal(th.handles, held.ptr, seal))
      else Decided(s, th, c, ForReload(held.ptr, d))
    case Write(c, x, _) => Wrote(s, th, c, x)
  }

  // --- Each step brings it nearer

  ghost predicate Nearer(s: State, s': State, t: nat)
    requires t < |s.threads|
  {
    && |s'.threads| == |s.threads|
    && Work(s', s'.threads[t].pc) < Work(s, s.threads[t].pc)
    && Due(s', s'.threads[t]) == Due(s, s.threads[t])
  }

  /** Going on costs what remains, and leads where it was to lead. */
  lemma GoesOn(s: State, th: Thread, todo: Todo, after: After)
    requires th.pc == Continue(todo, after)
    ensures PcCost(s, th.pc) <= TodoCost(todo) + AfterCost(after)
    ensures Due(s, th) == AfterAll(s, th, after)
  {
  }

  lemma CountNearer(s: State, s': State, t: nat)
    requires Inv(s) && t < |s.threads| && s.threads[t].pc.Count? && s' == CountStep(s, t, false)
    ensures Nearer(s, s', t)
  {
    var Count(todo, counter, after) := s.threads[t].pc;
    if todo.Adjust? && todo.ptr != 0 { CountedIsAlive(s, t); }
    if !s'.threads[t].pc.Delete? && !(s'.threads[t].pc.Count? && s'.threads[t].pc.todo == todo) {
      GoesOn(s', s'.threads[t], if todo.Nil? then todo else todo.rest, after);
    }
  }

  lemma {:induction false} ReleasedCost(links: seq<Link>, p: nat, todo: Todo)
    ensures TodoCost(Released(links, p, todo)) + 3 * |Without(links, p)| == TodoCost(todo) + 3 * |links|
  {
    if links != [] { ReleasedCost(links[1..], p, todo); }
  }

  lemma DeleteNearer(s: State, s': State, t: nat)
    requires Inv(s) && t < |s.threads| && s.threads[t].pc.Delete? && s' == TickStep(s, t, false)
    ensures Nearer(s, s', t)
  {
    var Delete(p, todo, after) := s.threads[t].pc;
    DoomedIsDead(s, t);
    ReleasedCost(s.links, p, todo);
    GoesOn(s', s'.threads[t], Released(s.links, p, todo), after);
  }

  /** Acquired, with the stamp raised if the pointer is not null. */
  ghost predicate Acquires(s: State, s': State, t: nat, c: nat, got: Stamped, why: Purpose) {
    && t < |s.threads| && c < |s.cells| && CellsOk(s.cells) && got == Raised(s.cells[c]) && got.stamp <= MAX_STAMP
    && s' == Acquired(s.(cells := s.cells[c := got]), t, c, got, why)
  }

  ghost predicate Decides(s: State, s': State, t: nat, c: nat, why: Purpose)
    requires t < |s.threads|
  {
    && |s'.threads| == |s.threads| && s'.links == s.links
    && PcCost(s', s'.threads[t].pc) <= DecisionCost(why)
    && Due(s', s'.threads[t]) == Decided(s, s.threads[t], c, why)
  }

  lemma LoadDecides(s: State, s': State, t: nat, c: nat, got: Stamped)
    requires Acquires(s, s', t, c, got, ForLoad)
    ensures Decides(s, s', t, c, ForLoad)
  {
    AdoptedNearer(s', s'.threads[t], c, got, Nil);
  }

  lemma ReloadDecides(s: State, s': State, t: nat, c: nat, got: Stamped, e: nat, d: nat)
    requires Acquires(s, s', t, c, got, ForReload(e, d))
    ensures Decides(s, s', t, c, ForReload(e, d))
  {
    ListCosts(got, 0, e, d);
    AdoptedNearer(s', s'.threads[t], c, got, AfterReload(e, d));
  }

  lemma CasDecides(s: State, s': State, t: nat, c: nat, got: Stamped, e: nat, d: nat, seal: bool)
    requires Acquires(s, s', t, c, got, ForCas(e, d, seal))
    ensures Decides(s, s', t, c, ForCas(e, d, seal))
  {
    if got.ptr == e {
      assert s'.threads[t] == s.threads[t].(pc := Swing(c, got, d, seal));
    } else {
      MismatchDecides(s, s', t, c, got, e, d, seal);
    }
  }

  lemma MismatchDecides(s: State, s': State, t: nat, c: nat, got: Stamped, e: nat, d: nat, seal: bool)
    requires Acquires(s, s', t, c, got, ForCas(e, d, seal)) && got.ptr != e
    ensures Decides(s, s', t, c, ForCas(e, d, seal))
  {
    ListCosts(got, got.ptr, e, d);
    GoesOn(s', s'.threads[t], AfterMismatch(got.ptr, e, d), Finish);
  }

  lemma AcquiredNearer(s: State, s': State, t: nat, c: nat, got: Stamped, why: Purpose)
    requires Acquires(s, s', t, c, got, why)
    ensures Decides(s, s', t, c, why)
  {
    match why
    case ForLoad => LoadDecides(s, s', t, c, got);
    case ForReload(e, d) => ReloadDecides(s, s', t, c, got, e, d);
    case ForCas(e, d, seal) => CasDecides(s, s', t, c, got, e, d, seal);
  }

  lemma AdoptedNearer(s: State, th: Thread, c: nat, got: Stamped, drops: Todo)
    requires th.pc == Adopting(c, got, drops) && Holds(s, c, got)
    ensures PcCost(s, th.pc) <= 10 + TodoCost(drops)
    ensures Due(s, th) ==
      Wrote(s, th, c, if got.stamp <= LIMIT then got else Stamped(got.ptr, got.stamp - LIMIT))
  {
    AdoptCost(got.ptr, drops);
    AdoptCost(got.ptr, Adjust(got.ptr, 0, LIMIT, Nil));
    if got.stamp <= LIMIT {
      GoesOn(s, th, Adopt(got.ptr, drops), Finish);
    } else {
      GoesOn(s, th, Adopt(got.ptr, Adjust(got.ptr, 0, LIMIT, Nil)), ThenWrite(c, Stamped(got.ptr, got.stamp - LIMIT), drops));
    }
  }

  lemma AcquireNearer(s: State, s': State, t: nat)
    requires Inv(s) && t < |s.threads| && s.threads[t].pc.Acquire? && s' == TickStep(s, t, false)
    ensures Nearer(s, s', t)
  {
    assert InRange(s.threads[t].pc, |s.cells|);
    if s.cells[s.threads[t].pc.cell].ptr == 0 { NullNearer(s, s', t); } else { ReadNearer(s, s', t); }
  }

  lemma ReadNearer(s: State, s': State, t: nat)
    requires t < |s.threads| && s.threads[t].pc.Acquire? && s.threads[t].pc.cell < |s.cells|
    requires s.cells[s.threads[t].pc.cell].ptr != 0
    requires s' == Goto(s, t, Stamp(s.threads[t].pc.cell, s.cells[s.threads[t].pc.cell], s.threads[t].pc.why))
    ensures Nearer(s, s', t)
  {
  }

  lemma NullNearer(s: State, s': State, t: nat)
    requires Inv(s) && t < |s.threads| && s.threads[t].pc.Acquire? && s.threads[t].pc.cell < |s.cells|
    requires s.cells[s.threads[t].pc.cell].ptr == 0 && s' == TickStep(s, t, false)
    ensures Nearer(s, s', t)
  {
    var Acquire(c, why) := s.threads[t].pc;
    assert s.cells[c := s.cells[c]] == s.cells;
    AcquiredNearer(s, s', t, c, s.cells[c], why);
  }

  lemma StampNearer(s: State, s': State, t: nat)
    requires Inv(s) && t < |s.threads| && s.threads[t].pc.Stamp? && Fits(s, Tick(t, false)) && s' == TickStep(s, t, false)
    ensures Nearer(s, s', t)
  {
    var Stamp(c, seen, why) := s.threads[t].pc;
    assert InRange(s.threads[t].pc, |s.cells|);
    if s.cells[c] == seen {
      var next := Raised(seen);
      AcquiredNearer(s, s', t, c, next, why);
    } else if s.cells[c].ptr == 0 {
      assert s.cells[c := s.cells[c]] == s.cells;
      AcquiredNearer(s, s', t, c, s.cells[c], why);
    }
  }

  lemma SwapNearer(s: State, s': State, t: nat)
    requires Inv(s) && t < |s.threads| && s.threads[t].pc.Swap? && s' == TickStep(s, t, false)
    ensures Nearer(s, s', t)
  {
    var Swap(c, target) := s.threads[t].pc;
    assert InRange(s.threads[t].pc, |s.cells|);
    ListCosts(s.cells[c], target, 0, 0);
    GoesOn(s', s'.threads[t], AfterSwap(s.cells[c], target), Finish);
  }

  lemma SwingNearer(s: State, s': State, t: nat)
    requires Inv(s) && t < |s.threads| && s.threads[t].pc.Swing? && s' == TickStep(s, t, false)
    ensures Nearer(s, s', t)
  {
    var Swing(c, held, d, seal) := s.threads[t].pc;
    assert InRange(s.threads[t].pc, |s.cells|);
    ListCosts(held, d, 0, 0);
    AdoptCost(held.ptr, Nil);
    if s.cells[c] == Word(held) {
      GoesOn(s', s'.threads[t], AfterSwing(held, d), Finish);
    } else {
      GoesOn(s', s'.threads[t], Adopt(held.ptr, Nil), ThenAcquire(c, ForReload(held.ptr, d)));
    }
  }

  lemma WriteNearer(s: State, s': State, t: nat)
    requires Inv(s) && t < |s.threads| && s.threads[t].pc.Write? && s' == TickStep(s, t, false)
    ensures Nearer(s, s', t)
  {
    var Write(c, x, drops) := s.threads[t].pc;
    assert InRange(s.threads[t].pc, |s.cells|);
    GoesOn(s', s'.threads[t], drops, Finish);
  }

  lemma OwnTick(s: State, t: nat)
    requires Inv(s) && t < |s.threads| && !s.threads[t].pc.Idle? && Fits(s, Tick(t, false))
    ensures Nearer(s, Step(s, Tick(t, false)), t)
  {
    var s' := Step(s, Tick(t, false));
    match s.threads[t].pc
    case Count(_, _, _) => CountNearer(s, s', t);
    case Delete(_, _, _) => DeleteNearer(s, s', t);
    case Acquire(_, _) => AcquireNearer(s, s', t);
    case Stamp(_, _, _) => StampNearer(s, s', t);
    case Swap(_, _) => SwapNearer(s, s', t);
    case Swing(_, _, _, _) => SwingNearer(s, s', t);
    case Write(_, _, _) => WriteNearer(s, s', t);
  }

  // --- Every run

  /** Steps of thread `t`, none of which fails for no reason. */
  predicate OwnTicks(actions: seq<Action>, t: nat) {
    forall i :: 0 <= i < |actions| ==> actions[i] == Tick(t, false)
  }

  ghost predicate Ends(s: State, s': State, t: nat)
    requires t < |s.threads|
  {
    && |s'.threads| == |s.threads| && s'.threads[t].pc.Idle?
    && Outcome(s'.cells, s'.threads[t].answers, s'.threads[t].handles) == Due(s, s.threads[t])
  }

  lemma {:induction false} AloneEnds(s: State, t: nat, more: seq<Action>)
    requires Inv(s) && t < |s.threads| && OwnTicks(more, t) && AllFit(s, more) && |more| >= Effort(s, s.threads[t].pc)
    ensures Ends(s, Run(s, more), t)
    decreases |more|
  {
    if more != [] {
      var s' := Step(s, more[0]);
      if !s.threads[t].pc.Idle? {
        OwnTick(s, t);
        StepInv(s, more[0]);
      }
      AloneEnds(s', t, more[1..]);
      EndsFirst(s, s', Run(s', more[1..]), t);
    }
  }

  lemma EndsFirst(s: State, s': State, end: State, t: nat)
    requires t < |s.threads| && (s' == s || Nearer(s, s', t)) && Ends(s', end, t)
    ensures Ends(s, end, t)
  {
  }

  /** From whatever a run has led to, a thread inside any operation that is left alone is done within as
      many steps as Effort says. */
  lemma AloneReturns(threads: nat, cells: nat, actions: seq<Action>, t: nat, more: seq<Action>)
    requires AllFit(Init(threads, cells), actions)
    requires var s := Run(Init(threads, cells), actions);
      t < |s.threads| && OwnTicks(more, t) && AllFit(s, more) && |more| >= Effort(s, s.threads[t].pc)
    ensures var s' := Run(Run(Init(threads, cells), actions), more); t < |s'.threads| && s'.threads[t].pc.Idle?
  {
    Reached(threads, cells, actions);
    AloneEnds(Run(Init(threads, cells), actions), t, more);
  }

  lemma RunMore(s: State, a: Action, more: seq<Action>)
    ensures Run(s, [a] + more) == Run(Step(s, a), more)
    ensures AllFit(s, [a] + more) == (Fits(s, a) && AllFit(Step(s, a), more))
  {
    assert ([a] + more)[1..] == more;
  }

  /** What a call does to its cell, answers, and brings its caller, if nobody comes in between. */
  function Performed(cells: seq<Stamped>, th: Thread, call: Action): Outcome
    requires call.CallLoad? || call.CallStore? || call.CallCas?
    requires call.cell < |cells|
  {
    var c, x := call.cell, cells[call.cell];
    match call
    case CallLoad(_, _) => Outcome(cells[c := Folded(x)], th.answers + [Got(x.ptr)], th.handles + Ref(x.ptr))
    case CallStore(_, _, p, keep) =>
      Outcome(cells[c := Stamped(p, 0)], th.answers + [Done], if keep then th.handles else th.handles - Ref(p))
    case CallCas(_, _, e, d, keep, seal) =>
      var left := if keep then th.handles else th.handles - Ref(d);
      if x.ptr == e then
        Outcome(cells[c := Stamped(d, 0)], th.answers + [Exchanged], if seal then left - Ref(e) else left)
      else
        Outcome(cells[c := Raised(x)], th.answers + [Refused(x.ptr)], left - Ref(e) + Ref(x.ptr))
  }

  lemma PassedCost(p: nat, keep: bool, rest: Todo)
    ensures TodoCost(Passed(p, keep, rest)) <= 3 + TodoCost(rest) && TodoCost(Adjust(p, 1, 0, Nil)) == 3
  {
  }

  lemma StoreBegins(s: State, th: Thread, call: Action, th': Thread)
    requires call.CallStore? && call.cell < |s.cells| && th' == Called(th, call)
    ensures PcCost(s, th'.pc) <= 19 && Due(s, th') == Performed(s.cells, th, call)
  {
    PassedCost(call.target, call.keep, Adjust(call.target, 1, 0, Nil));
    GoesOn(s, th', Passed(call.target, call.keep, Adjust(call.target, 1, 0, Nil)), ThenSwap(call.cell, call.target));
  }

  lemma CasBegins(s: State, th: Thread, call: Action, th': Thread)
    requires call.CallCas? && call.cell < |s.cells| && th' == Called(th, call)
    ensures PcCost(s, th'.pc) <= 19 && Due(s, th') == Performed(s.cells, th, call)
  {
    PassedCost(call.desired, call.keep, Nil);
    GoesOn(s, th', Passed(call.desired, call.keep, Nil),
           ThenAcquire(call.cell, ForCas(call.expected, call.desired, call.seal)));
  }

  lemma CallBegins(s: State, th: Thread, call: Action, th': Thread)
    requires call.CallLoad? || call.CallStore? || call.CallCas?
    requires call.cell < |s.cells| && th' == Called(th, call)
    ensures PcCost(s, th'.pc) <= 19 && Due(s, th') == Performed(s.cells, th, call)
  {
    if call.CallStore? { StoreBegins(s, th, call, th'); } else if call.CallCas? { CasBegins(s, th, call, th'); }
  }

  lemma CalledState(s: State, call: Action, s': State)
    requires call.t < |s.threads| && Registers.Allowed(s, call) && s' == Step(s, call)
    requires call.CallLoad? || call.CallStore? || call.CallCas?
    ensures s' == s.(threads := s.threads[call.t := Called(s.threads[call.t], call)]) && call.cell < |s.cells|
  {
    Registers.AllowedTakesPlace(s, call);
  }

  lemma DueIsTheCells(s: State, s': State, th: Thread)
    requires s'.cells == s.cells && s'.blocks == s.blocks
    ensures Due(s', th) == Due(s, th) && PcCost(s', th.pc) == PcCost(s, th.pc)
  {
  }

  /** A call begun after any run and left alone is over within 19 of its steps and three for each reference
      in a block: Load yields the cell's pointer, folding a stamp above the limit; Store overwrites it; and
      CompareExchangeWeak exchanges it if it is the expected one and otherwise yields it. */
  lemma CallAlone(threads: nat, cells: nat, actions: seq<Action>, call: Action, more: seq<Action>)
    requires AllFit(Init(threads, cells), actions)
    requires var s := Run(Init(threads, cells), actions);
      && Registers.Allowed(s, call) && (call.CallLoad? || call.CallStore? || call.CallCas?)
      && AllFit(s, [call] + more) && OwnTicks(more, call.t) && |more| >= 19 + 3 * |s.links|
    ensures var s := Run(Init(threads, cells), actions); var s' := Run(s, [call] + more);
      && |s'.threads| == |s.threads| && s'.threads[call.t].pc.Idle?
      && Outcome(s'.cells, s'.threads[call.t].answers, s'.threads[call.t].handles) ==
         Performed(s.cells, s.threads[call.t], call)
  {
    Reached(threads, cells, actions);
    CallEnds(Run(Init(threads, cells), actions), call, more);
  }

  lemma CallEnds(s: State, call: Action, more: seq<Action>)
    requires Inv(s) && Registers.Allowed(s, call) && (call.CallLoad? || call.CallStore? || call.CallCas?)
    requires AllFit(s, [call] + more) && OwnTicks(more, call.t) && |more| >= 19 + 3 * |s.links|
    ensures var s' := Run(s, [call] + more);
      && |s'.threads| == |s.threads| && s'.threads[call.t].pc.Idle?
      && Outcome(s'.cells, s'.threads[call.t].answers, s'.threads[call.t].handles) ==
         Performed(s.cells, s.threads[call.t], call)
  {
    var s', th := Step(s, call), s.threads[call.t];
    RunMore(s, call, more);
    StepInv(s, call);
    CalledState(s, call, s');
    CallBegins(s, th, call, s'.threads[call.t]);
    DueIsTheCells(s, s', s'.threads[call.t]);
    AloneEnds(s', call.t, more);
  }

  /** A compare-and-swap that fails for no reason, of a counter, a stamp or a cell, changes none of them. */
  lemma SpuriousFailure(s: State, t: nat)
    requires Inv(s) && t < |s.threads| && (s.threads[t].pc.Count? || s.threads[t].pc.Stamp? || s.threads[t].pc.Swing?)
    ensures var s' := Step(s, Tick(t, true));
      && s'.cells == s.cells && s'.blocks == s.blocks && s'.links == s.links && !s'.fault
      && |s'.threads| == |s.threads| && (s.threads[t].pc.Swing? ==> s'.threads[t].pc != s.threads[t].pc)
  {
    if s.threads[t].pc.Count? && s.threads[t].pc.todo.Adjust? && s.threads[t].pc.todo.ptr != 0 { CountedIsAlive(s, t); }
    assert InRange(s.threads[t].pc, |s.cells|);
  }
}
