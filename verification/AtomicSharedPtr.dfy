/** The cells of module SharedPointers as objects updated in place. */
module AtomicSharedPtr {
  import opened Options
  import opened SharedPointers

  /** What a successful exchange leaves the thread to settle for block `b`: the old pointer's count now
      is the thread's to drop, the new pointer's is the cell's, and the old stamp, less the thread's
      own acquisition, is to be folded into the old block. */
  ghost predicate Settles(th: Thread, th': Thread, prev: Stamped, next: nat, seal: bool, b: nat) {
    && Strong(th', b) == Strong(th, b) + One(prev.ptr, b) - One(next, b) - (if seal then One(prev.ptr, b) else 0)
    && Transient(th', b) == Transient(th, b) - StampOf(prev, b)
  }

  lemma SwapSettles(s: State, t: nat, b: nat)
    requires Inv(s) && t < |s.threads| && s.threads[t].pc.Swap? && s.threads[t].pc.cell < |s.cells| && b != 0
    ensures var Swap(c, target) := s.threads[t].pc;
      Settles(s.threads[t], TickStep(s, t, false).threads[t], s.cells[c], target, false, b)
  {
    var Swap(c, target) := s.threads[t].pc;
    AfterSwapBacked(s.threads[t].handles[b], s.cells[c], target, b, false);
    var th, todo := TickStep(s, t, false).threads[t], AfterSwap(s.cells[c], target);
    Continued(th, s.threads[t].handles[b], todo, Finish, b, false, false);
  }

  lemma SwungSettles(s: State, t: nat, b: nat)
    requires Inv(s) && t < |s.threads| && s.threads[t].pc.Swing? && s.threads[t].pc.cell < |s.cells| && b != 0
    ensures var Swing(c, held, d, seal) := s.threads[t].pc;
      Settles(s.threads[t], Swung(s, t).threads[t], held, d, seal, b)
  {
    SwungAccounts(s, Swung(s, t), t, b);
  }

  /** Exactly if the compare-and-swap of the cell succeeds, its stamp is one higher and the thread has one
      acquisition more of the block it points to; nothing else changes in cells and accounts. */
  ghost predicate Raises(s: State, s': State, t: nat, flaky: bool)
    requires t < |s.threads| && t < |s'.threads| && (s.threads[t].pc.Acquire? || s.threads[t].pc.Stamp?)
    requires s.threads[t].pc.cell < |s.cells|
  {
    var c, th, th' := s.threads[t].pc.cell, s.threads[t], s'.threads[t];
    var raised, p := th.pc.Stamp? && !flaky && s.cells[c] == th.pc.seen, s.cells[c].ptr;
    && s'.cells == s.cells[c := Stamped(p, s.cells[c].stamp + if raised then 1 else 0)]
    && forall b :: b != 0 ==>
         Strong(th', b) == Strong(th, b) && Transient(th', b) == Transient(th, b) + if raised then One(p, b) else 0
  }

  lemma AcquireRaises(s: State, t: nat, flaky: bool)
    requires Inv(s) && t < |s.threads| && (s.threads[t].pc.Acquire? || s.threads[t].pc.Stamp?)
    requires StampsFit(s, Action.Tick(t, flaky))
    ensures |TickStep(s, t, flaky).threads| == |s.threads| && s.threads[t].pc.cell < |s.cells|
    ensures Raises(s, TickStep(s, t, flaky), t, flaky)
  {
    var pc, s' := s.threads[t].pc, TickStep(s, t, flaky);
    assert InRange(pc, |s.cells|);
    if pc.Stamp? && !flaky && s.cells[pc.cell] == pc.seen {
      Acquires(s, s', t, Stamped(pc.seen.ptr, pc.seen.stamp + 1), pc.why);
    } else if s.cells[pc.cell].ptr == 0 {
      Acquires(s, s', t, s.cells[pc.cell], pc.why);
    }
  }

  /** An acquisition changes the thread's accounts by one acquisition of that block. */
  lemma Acquires(s: State, s': State, t: nat, got: Stamped, why: Purpose)
    requires Inv(s) && t < |s.threads| == |s'.threads|
    requires (s.threads[t].pc.Acquire? || s.threads[t].pc.Stamp?) && s.threads[t].pc.why == why
    requires s'.threads == Acquired(s, t, s.threads[t].pc.cell, got, why).threads && s'.links == s.links
    requires got.ptr != 0 ==> got.stamp >= 1
    ensures forall b :: b != 0 ==>
      && Strong(s'.threads[t], b) == Strong(s.threads[t], b)
      && Transient(s'.threads[t], b) == Transient(s.threads[t], b) + One(got.ptr, b)
  {
    forall b | b != 0
      ensures Strong(s'.threads[t], b) == Strong(s.threads[t], b)
      ensures Transient(s'.threads[t], b) == Transient(s.threads[t], b) + One(got.ptr, b)
    {
      AcquireAccounts(s, s', t, s.threads[t].pc.cell, got, why, b);
    }
  }

  /** The cells (AtomicSharedPtr objects), the control blocks and the threads that use them. Each
      method performs the next access of a thread inside the source function it is named after;
      the map accesses are the dereferences of the program, proved to hit an allocated block. */
  class AtomicSharedPtrs {
    var cells: seq<Stamped>
    var blocks: map<nat, Block>
    var links: seq<Link>
    var threads: seq<Thread>
    var log: seq<Event>   // auxiliary

    ghost function View(): State reads this {
      State(cells, blocks, links, threads, false, log)
    }

    constructor (nThreads: nat, nCells: nat)
      ensures View() == Init(nThreads, nCells) && Inv(View())
    {
      cells := seq(nCells, _ => Stamped(0, 0));
      blocks, links, log := map[], [], [];
      threads := seq(nThreads, _ => FRESH);
      new;
      InitInv(nThreads, nCells);
    }

    method MoveTo(t: nat, pc: Pc)
      requires t < |threads|
      modifies this`threads
      ensures View() == Goto(old(View()), t, pc)
    {
      threads := threads[t := threads[t].(pc := pc)];
    }

    /** IncrementCounter: a successful compare-and-swap changes both counts by what was asked, and the
        thread goes on to delete the block exactly if they are zero, which means that nobody refers to
        the block any more. */
    method IncrementCounter(t: nat, flaky: bool)
      requires Inv(View()) && t < |threads| && threads[t].pc.Count?
      modifies this
      ensures View() == TickStep(old(View()), t, flaky) && Inv(View())
      ensures var Count(todo, counter, _) := old(threads)[t].pc;
        todo.Nil? || todo.ptr == 0 || counter.None? ||
          (todo.ptr in old(blocks) && todo.ptr in blocks &&
           (if counter.value != old(blocks)[todo.ptr] || flaky then blocks == old(blocks)
            else
              && blocks[todo.ptr] == Block(counter.value.strong + todo.strong, counter.value.transient + todo.transient)
              && (threads[t].pc.Delete? <==> blocks[todo.ptr] == Block(0, 0))
              && (threads[t].pc.Delete? ==> threads[t].pc.ptr == todo.ptr && Unreachable(View(), t, todo.ptr))))
    {
      CountInv(View(), t, flaky);
      var Count(todo, counter, after) := threads[t].pc;
      if todo.Nil? || todo.ptr == 0 {
        MoveTo(t, Continue(if todo.Nil? then todo else todo.rest, after));
      } else {
        CountedIsAlive(View(), t);
        var now := blocks[todo.ptr];
        if counter == Some(now) && !flaky {
          var next := Block(now.strong + todo.strong, now.transient + todo.transient);
          blocks := blocks[todo.ptr := next];
          MoveTo(t, if next == Block(0, 0) then Delete(todo.ptr, todo.rest, after) else Continue(todo.rest, after));
          if next == Block(0, 0) { DoomedIsUnreachable(View(), t); }
        } else {
          MoveTo(t, Count(todo, Some(now), after));
        }
      }
    }

    /** The destructor of a control block, and of the references in its data. */
    method DeleteBlock(t: nat)
      requires Inv(View()) && t < |threads| && threads[t].pc.Delete?
      modifies this
      ensures (forall flaky :: View() == TickStep(old(View()), t, flaky)) && Inv(View())
      ensures old(threads)[t].pc.ptr in old(blocks) && blocks == old(blocks) - {old(threads)[t].pc.ptr}
    {
      DoomedIsDead(View(), t);
      DeleteInv(View(), t);
      var Delete(p, todo, after) := threads[t].pc;
      MoveTo(t, Continue(Released(links, p, todo), after));
      blocks, links := blocks - {p}, Without(links, p);
    }

    /** AcquireTransientRef, and what Load or CompareExchangeWeak makes of it. */
    method AcquireTransientRef(t: nat, flaky: bool)
      requires Inv(View()) && t < |threads| && (threads[t].pc.Acquire? || threads[t].pc.Stamp?)
      requires StampsFit(View(), Action.Tick(t, flaky))
      modifies this
      ensures View() == TickStep(old(View()), t, flaky) && Inv(View()) && blocks == old(blocks)
      ensures old(threads)[t].pc.cell < |old(cells)| && Raises(old(View()), View(), t, flaky)
    {
      AcquiredInv(View(), t, flaky);
      AcquireRaises(View(), t, flaky);
      assert InRange(threads[t].pc, |cells|);
      var pc := threads[t].pc;
      var c := pc.cell;
      if pc.Stamp? && !flaky && cells[c] == pc.seen {
        cells := cells[c := Word(Stamped(pc.seen.ptr, pc.seen.stamp + 1))];
        Take(t, c, Stamped(pc.seen.ptr, pc.seen.stamp + 1), pc.why);
      } else if cells[c].ptr == 0 {
        Take(t, c, cells[c], pc.why);
      } else {
        MoveTo(t, Stamp(c, cells[c], pc.why));
      }
    }

    method Take(t: nat, c: nat, got: Stamped, why: Purpose)
      requires t < |threads|
      modifies this`threads, this`log
      ensures View() == Acquired(old(View()), t, c, got, why)
    {
      var handles := threads[t].handles;
      if why.ForLoad? {
        Answer(t, Loaded(t, c, got.ptr), handles + Ref(got.ptr), Adopting(c, got, Nil));
      } else if got.ptr == why.expected && why.ForCas? {
        MoveTo(t, Swing(c, got, why.desired, why.seal));
      } else {
        Answer(t, Failed(t, c, why.expected, got.ptr), handles - Ref(why.expected) + Ref(got.ptr),
               if why.ForReload? then Adopting(c, got, AfterReload(why.expected, why.desired))
               else Continue(AfterMismatch(got.ptr, why.expected, why.desired), Finish));
      }
    }

    method Answer(t: nat, e: Event, handles: multiset<nat>, pc: Pc)
      requires t < |threads|
      modifies this`threads, this`log
      ensures View() == Conclude(old(View()), t, e, handles, pc)
    {
      log := log + [e];
      threads := threads[t := Thread(handles, pc, threads[t].calls, threads[t].answers + [AnswerOf(e)])];
    }

    /** Store: the exchange. The cell points to the target with stamp 0, and the thread is left with
        folding exactly the old stamp and with the old pointer's count. */
    method Store(t: nat)
      requires Inv(View()) && t < |threads| && threads[t].pc.Swap?
      modifies this
      ensures (forall flaky :: View() == TickStep(old(View()), t, flaky)) && Inv(View())
      ensures var Swap(c, target) := old(threads)[t].pc;
        && c < |old(cells)| && cells == old(cells)[c := Stamped(target, 0)]
        && forall b :: b != 0 ==> Settles(old(threads)[t], threads[t], old(cells)[c], target, false, b)
    {
      SwapInv(View(), t);
      assert InRange(threads[t].pc, |cells|);
      var Swap(c, target) := threads[t].pc;
      forall b | b != 0 ensures Settles(threads[t], TickStep(View(), t, false).threads[t], cells[c], target, false, b) {
        SwapSettles(View(), t, b);
      }
      var prev := cells[c];
      cells := cells[c := Stamped(target, 0)];
      Answer(t, Stored(t, c, target), threads[t].handles, Continue(AfterSwap(prev, target), Finish));
    }

    /** CompareExchangeWeak: the swing of the cell. It succeeds exactly if the cell still is as acquired
        and the compare-and-swap does not fail for no reason; then the cell points to `desired`, the
        answer is success and the old stamp less this acquisition is to be folded. Otherwise nothing
        changes but that the acquisition is to be given back. */
    method CompareExchangeWeak(t: nat, flaky: bool)
      requires Inv(View()) && t < |threads| && threads[t].pc.Swing?
      modifies this
      ensures View() == TickStep(old(View()), t, flaky) && Inv(View())
      ensures var Swing(c, held, d, seal) := old(threads)[t].pc;
        && c < |old(cells)|
        && if !flaky && old(cells)[c] == held then
             && cells == old(cells)[c := Stamped(d, 0)] && threads[t].answers == old(threads)[t].answers + [Exchanged]
             && forall b :: b != 0 ==> Settles(old(threads)[t], threads[t], held, d, seal, b)
           else
             && cells == old(cells) && blocks == old(blocks) && threads[t].answers == old(threads)[t].answers
             && forall b :: b != 0 ==> SameAccounts(old(threads)[t], threads[t], b)
    {
      ghost var s := View();
      SwingInv(s, t, flaky);
      assert InRange(threads[t].pc, |cells|) && Word(threads[t].pc.held) == threads[t].pc.held;
      var Swing(c, held, d, seal) := threads[t].pc;
      if !flaky && cells[c] == Word(held) {
        cells, links := cells[c := Stamped(d, 0)], links + Sealed(held.ptr, d, seal);
        Answer(t, Swapped(t, c, held.ptr, d), AfterSeal(threads[t].handles, held.ptr, seal),
               Continue(AfterSwing(held, d), Finish));
        forall b | b != 0 ensures Settles(s.threads[t], threads[t], held, d, seal, b) {
          SwungSettles(s, t, b);
        }
      } else {
        MoveTo(t, Continue(Adopt(held.ptr, Nil), ThenAcquire(c, ForReload(held.ptr, d))));
        forall b | b != 0 ensures SameAccounts(s.threads[t], threads[t], b) {
          assert GuardedAt(s, t, b);
          MissAccounts(s.threads[t], threads[t], b, Lent(s, t, b), Spare(s, t, b), false, false);
        }
      }
    }

    /** Load takes what it has folded off the cell. */
    method Overwrite(t: nat)
      requires Inv(View()) && t < |threads| && threads[t].pc.Write? && StampsFit(View(), Action.Tick(t, false))
      modifies this
      ensures (forall flaky :: View() == TickStep(old(View()), t, flaky)) && Inv(View())
    {
      WriteInv(View(), t);
      assert InRange(threads[t].pc, |cells|);
      var Write(c, x, drops) := threads[t].pc;
      cells := cells[c := x];
      MoveTo(t, Continue(drops, Finish));
    }

    /** The next access of thread `t`, whatever it is. */
    method Tick(t: nat, flaky: bool)
      requires Inv(View()) && t < |threads| && StampsFit(View(), Action.Tick(t, flaky))
      modifies this
      ensures View() == TickStep(old(View()), t, flaky) && Inv(View())
    {
      var pc := threads[t].pc;
      if pc.Count? {
        IncrementCounter(t, flaky);
      } else if pc.Delete? {
        DeleteBlock(t);
      } else if pc.Acquire? || pc.Stamp? {
        AcquireTransientRef(t, flaky);
      } else if pc.Swap? {
        Store(t);
      } else if pc.Swing? {
        CompareExchangeWeak(t, flaky);
      } else if pc.Write? {
        Overwrite(t);
      }
    }

    /** The beginning of an operation by an idle thread. */
    method Call(a: Action)
      requires a.t < |threads| && threads[a.t].pc.Idle? && !a.Tick? && Applies(View(), a)
      modifies this
      ensures View() == CallStep(old(View()), a)
    {
      var th := threads[a.t];
      if a.Make? {
        blocks := blocks[a.addr := Block(1, 0)];
        threads := threads[a.t := th.(handles := th.handles + Ref(a.addr))];
      } else if a.Give? {
        threads := threads[a.t := th.(handles := th.handles - Ref(a.p))];
        threads := threads[a.to := threads[a.to].(handles := threads[a.to].handles + Ref(a.p))];
      } else if a.Attach? {
        links := links + [Link(a.into, a.p)];
        threads := threads[a.t := th.(handles := th.handles - Ref(a.p))];
      } else {
        threads := threads[a.t := Called(th, a)];
      }
    }

    method Perform(a: Action)
      requires Inv(View()) && Fits(View(), a)
      modifies this
      ensures View() == Step(old(View()), a) && Inv(View())
    {
      StepInv(View(), a);
      if a.t < |threads| {
        if a.Tick? {
          Tick(a.t, a.flaky);
        } else if threads[a.t].pc.Idle? {
          var applies := Applies(State(cells, blocks, links, threads, false, log), a);
          if applies { Call(a); }
        }
      }
    }

    /** Any schedule that fits: what the theorems say of runs holds of the objects. */
    method Execute(actions: seq<Action>)
      requires Inv(View()) && AllFit(View(), actions)
      modifies this
      ensures View() == Run(old(View()), actions) && Inv(View())
    {
      var i := 0;
      while i < |actions|
        invariant i <= |actions|
        invariant Inv(View()) && AllFit(View(), actions[i..])
        invariant Run(View(), actions[i..]) == Run(old(View()), actions)
      {
        assert actions[i..][0] == actions[i] && actions[i..][1..] == actions[i + 1..];
        Perform(actions[i]);
        i := i + 1;
      }
    }
  }
}
