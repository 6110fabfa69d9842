/** Why stamps have to fit (module SharedPointers): a run of one thread whose failing compare-exchanges
    raise the stamp of a cell past 16 bits, after which a block is never deleted. */
module StampOverflow {
  import opened Options
  import opened SharedPointers

  /** One thread and one cell, with block 1 the only one. */
  predicate At(s: State, cell: Stamped, strong: int, transient: int, pc: Pc, handles: multiset<nat>) {
    && |s.threads| == 1 && |s.cells| == 1 && s.cells[0] == cell && s.blocks == map[1 := Block(strong, transient)]
    && s.links == [] && s.threads[0].pc == pc && s.threads[0].handles == handles
  }

  /** Nobody refers to the block, no operation is under way, and it is still allocated. */
  predicate Leaked(s: State) {
    At(s, Stamped(0, 0), 0, -(MAX_STAMP + 1), Idle, multiset{})
  }

  const GO: Action := Tick(0, false)

  // --- Getting from one state to another

  ghost predicate Path<S>(link: (S, S) -> bool, states: seq<S>) {
    states != [] && forall i :: 0 <= i < |states| - 1 ==> link(states[i], states[i + 1])
  }

  lemma Joined<S>(link: (S, S) -> bool, xs: seq<S>, ys: seq<S>)
    requires Path(link, xs) && Path(link, ys) && xs[|xs| - 1] == ys[0]
    ensures Path(link, xs + ys[1..]) && (xs + ys[1..])[|xs + ys[1..]| - 1] == ys[|ys| - 1]
  {
    var zs := xs + ys[1..];
    forall i | 0 <= i < |zs| - 1 ensures link(zs[i], zs[i + 1]) {
      if i < |xs| - 1 {
        assert link(xs[i], xs[i + 1]);
      } else {
        var j := i - (|xs| - 1);
        assert link(ys[j], ys[j + 1]) && zs[i] == ys[j];
      }
    }
  }

  ghost predicate IsStep(s: State, s': State) {
    exists a :: Step(s, a) == s'
  }

  /** Some run passes from `s` to `s'`. */
  ghost predicate Leads(s: State, s': State) {
    exists states :: Path(IsStep, states) && states[0] == s && states[|states| - 1] == s'
  }

  lemma LeadsOn(s: State, s1: State, s2: State)
    requires Leads(s, s1) && Leads(s1, s2)
    ensures Leads(s, s2)
  {
    var xs :| Path(IsStep, xs) && xs[0] == s && xs[|xs| - 1] == s1;
    var ys :| Path(IsStep, ys) && ys[0] == s1 && ys[|ys| - 1] == s2;
    Joined(IsStep, xs, ys);
  }

  lemma StayLeads(s: State)
    ensures Leads(s, s)
  {
    assert Path(IsStep, [s]);
  }

  lemma StepLeads(s: State, a: Action, s': State)
    requires s' == Step(s, a)
    ensures Leads(s, s')
  {
    assert IsStep(s, s');
    assert Path(IsStep, [s, s']);
  }

  lemma {:induction false} PathRuns(states: seq<State>) returns (actions: seq<Action>)
    requires Path(IsStep, states)
    ensures Run(states[0], actions) == states[|states| - 1]
  {
    if |states| == 1 {
      actions := [];
    } else {
      assert IsStep(states[0], states[1]);
      var a :| Step(states[0], a) == states[1];
      var later := PathRuns(states[1..]);
      RunFrom(states[0], a, later);
      actions := [a] + later;
    }
  }

  lemma RunFrom(s: State, a: Action, actions: seq<Action>)
    ensures Run(s, [a] + actions) == Run(Step(s, a), actions)
  {
    assert ([a] + actions)[1..] == actions;
  }

  // --- Counting

  /** One call of IncrementCounter, undisturbed. */
  lemma Counts(s: State, cell: Stamped, strong: int, transient: int, todo: Todo, after: After, h: multiset<nat>)
    returns (s': State)
    requires At(s, cell, strong, transient, Count(todo, None, after), h) && todo.Adjust? && todo.ptr == 1
    requires Block(strong + todo.strong, transient + todo.transient) != Block(0, 0)
    ensures Leads(s, s')
    ensures At(s', cell, strong + todo.strong, transient + todo.transient, Continue(todo.rest, after), h)
  {
    var s1 := Step(s, GO);
    assert s1.threads[0].pc == Count(todo, Some(Block(strong, transient)), after);
    s' := Step(s1, GO);
    StepLeads(s, GO, s1);
    StepLeads(s1, GO, s');
    LeadsOn(s, s1, s');
  }

  /** On null it does nothing. */
  lemma Skips(s: State, cell: Stamped, strong: int, transient: int, todo: Todo, after: After, h: multiset<nat>)
    returns (s': State)
    requires At(s, cell, strong, transient, Count(todo, None, after), h) && todo.Adjust? && todo.ptr == 0
    ensures Leads(s, s') && At(s', cell, strong, transient, Continue(todo.rest, after), h)
  {
    s' := Step(s, GO);
    StepLeads(s, GO, s');
  }

  /** A list of calls that neither deletes the block nor touches another. */
  ghost predicate Harmless(strong: int, transient: int, todo: Todo)
    decreases todo
  {
    todo.Adjust? ==>
      && todo.ptr <= 1
      && (todo.ptr == 1 ==> Block(strong + todo.strong, transient + todo.transient) != Block(0, 0))
      && if todo.ptr == 1 then Harmless(strong + todo.strong, transient + todo.transient, todo.rest)
         else Harmless(strong, transient, todo.rest)
  }

  lemma CountsOrSkips(s: State, cell: Stamped, strong: int, transient: int, todo: Todo, after: After, h: multiset<nat>,
                      strong': int, transient': int) returns (s': State)
    requires At(s, cell, strong, transient, Continue(todo, after), h)
    requires Harmless(strong, transient, todo) && todo.Adjust?
    requires strong' == strong + todo.ptr * todo.strong && transient' == transient + todo.ptr * todo.transient
    ensures Leads(s, s') && At(s', cell, strong', transient', Continue(todo.rest, after), h)
    ensures Harmless(strong', transient', todo.rest)
  {
    if todo.ptr == 1 {
      s' := Counts(s, cell, strong, transient, todo, after, h);
    } else {
      s' := Skips(s, cell, strong, transient, todo, after, h);
    }
  }

  lemma {:induction false} CountsAll(s: State, cell: Stamped, strong: int, transient: int, todo: Todo, after: After,
                                     h: multiset<nat>) returns (s': State)
    requires At(s, cell, strong, transient, Continue(todo, after), h) && Harmless(strong, transient, todo)
    ensures Leads(s, s')
    ensures At(s', cell, strong + AddsStrong(todo, 1), transient + AddsTransient(todo, 1), Continue(Nil, after), h)
    decreases todo
  {
    if todo.Nil? {
      s' := s;
      StayLeads(s);
    } else {
      var strong', transient' := strong + todo.ptr * todo.strong, transient + todo.ptr * todo.transient;
      var s1 := CountsOrSkips(s, cell, strong, transient, todo, after, h, strong', transient');
      s' := CountsAll(s1, cell, strong', transient', todo.rest, after, h);
      LeadsOn(s, s1, s');
    }
  }

  // --- A compare-exchange that fails

  /** CompareExchangeWeak, expecting null, acquires the pointer and finds another one. */
  lemma Acquires(s: State, k: nat, todo: Todo) returns (s': State)
    requires k <= MAX_STAMP && todo == AfterMismatch(1, 0, 0) && At(s, Stamped(1, k), 1, 0 - k, Idle, multiset{})
    ensures Leads(s, s')
    ensures At(s', Word(Stamped(1, k + 1)), 1, 0 - k, Continue(todo, Finish), multiset{1})
  {
    var call := CallCas(0, 0, 0, 0, false, false);
    var s1 := Step(s, call);
    assert s1.threads[0].pc == Acquire(0, ForCas(0, 0, false));
    var s2 := Step(s1, GO);
    assert s2.threads[0].pc == Stamp(0, Stamped(1, k), ForCas(0, 0, false));
    s' := Step(s2, GO);
    StepLeads(s, call, s1);
    StepLeads(s1, GO, s2);
    StepLeads(s2, GO, s');
    LeadsOn(s, s1, s2);
    LeadsOn(s, s2, s');
  }

  lemma Drops(s: State, cell: Stamped, k: nat) returns (s': State)
    requires At(s, cell, 2, 0 - k, Idle, multiset{1})
    ensures Leads(s, s') && At(s', cell, 1, 0 - k, Idle, multiset{})
  {
    var todo, s1 := Adjust(1, -1, 0, Nil), Step(s, Drop(0, 1));
    assert Harmless(2, 0 - k, todo);
    assert multiset{1} - Ref(1) == multiset{};
    StepLeads(s, Drop(0, 1), s1);
    s' := CountsAll(s1, cell, 2, 0 - k, todo, Finish, multiset{});
    LeadsOn(s, s1, s');
  }

  lemma MismatchCounts(k: nat, todo: Todo)
    requires k > 0 && todo == AfterMismatch(1, 0, 0)
    ensures Harmless(1, 1 - k, todo) && AddsStrong(todo, 1) == 1 && AddsTransient(todo, 1) == -1
  {
    var l1 := Adjust(0, -1, 0, Nil);
    var l2 := Adjust(1, 0, -1, l1);
    var l3 := Adjust(0, -1, 0, l2);
    assert Harmless(2, 0 - k, l1) && AddsStrong(l1, 1) == 0 && AddsTransient(l1, 1) == 0;
    assert Harmless(2, 1 - k, l2) && AddsStrong(l2, 1) == 0 && AddsTransient(l2, 1) == -1;
    assert Harmless(2, 1 - k, l3) && AddsStrong(l3, 1) == 0 && AddsTransient(l3, 1) == -1;
  }

  /** A failing compare-exchange, whose answer is dropped, leaves the stamp one higher. */
  lemma Fails(s: State, k: nat) returns (s': State)
    requires k <= MAX_STAMP && At(s, Stamped(1, k), 1, 0 - k, Idle, multiset{})
    ensures Leads(s, s') && At(s', Word(Stamped(1, k + 1)), 1, 0 - (k + 1), Idle, multiset{})
  {
    var cell, todo := Word(Stamped(1, k + 1)), AfterMismatch(1, 0, 0);
    var s1 := Acquires(s, k, todo);
    MismatchCounts(k + 1, todo);
    var s2 := CountsAll(s1, cell, 1, 0 - k, todo, Finish, multiset{1});
    s' := Drops(s2, cell, k + 1);
    LeadsOn(s, s1, s2);
    LeadsOn(s, s2, s');
  }

  lemma {:induction false} FailsOften(s: State, k: nat) returns (s': State)
    requires k <= MAX_STAMP && At(s, Stamped(1, 0), 1, 0, Idle, multiset{})
    ensures Leads(s, s') && At(s', Stamped(1, k), 1, 0 - k, Idle, multiset{})
  {
    if k == 0 {
      s' := s;
      StayLeads(s);
    } else {
      var s1 := FailsOften(s, k - 1);
      s' := Fails(s1, k - 1);
      LeadsOn(s, s1, s');
    }
  }

  // --- Storing over the cell

  lemma Swaps(s: State, prev: Stamped, strong: int, transient: int, target: nat) returns (s': State)
    requires At(s, prev, strong, transient, Swap(0, target), multiset{})
    ensures Leads(s, s')
    ensures At(s', Stamped(target, 0), strong, transient, Continue(AfterSwap(prev, target), Finish), multiset{})
  {
    s' := Step(s, GO);
    StepLeads(s, GO, s');
  }

  /** Store, by a thread that has called it with a moved argument. */
  lemma Stores(s: State, prev: Stamped, strong: int, transient: int, target: nat, folded: int) returns (s': State)
    requires At(s, prev, strong, transient, Continue(Adjust(target, 1, 0, Nil), ThenSwap(0, target)), multiset{})
    requires target <= 1 && prev.ptr <= 1 && folded == transient + if prev.ptr == 1 then prev.stamp else 0
    requires Harmless(strong, transient, Adjust(target, 1, 0, Nil))
    requires Harmless(strong + target, transient, AfterSwap(prev, target))
    ensures Leads(s, s') && At(s', Stamped(target, 0), strong - prev.ptr, folded, Idle, multiset{})
  {
    SwapCounts(prev, target);
    var s1 := CountsAll(s, prev, strong, transient, Adjust(target, 1, 0, Nil), ThenSwap(0, target), multiset{});
    var s2 := Swaps(s1, prev, strong + target, transient, target);
    s' := CountsAll(s2, Stamped(target, 0), strong + target, transient, AfterSwap(prev, target), Finish, multiset{});
    LeadsOn(s, s1, s2);
    LeadsOn(s, s2, s');
  }

  lemma SwapCounts(prev: Stamped, target: nat)
    requires prev.ptr <= 1 && target <= 1
    ensures AddsStrong(AfterSwap(prev, target), 1) == 0 - prev.ptr - target
    ensures AddsTransient(AfterSwap(prev, target), 1) == if prev.ptr == 1 then prev.stamp else 0
  {
    AfterSwapBacked(0, prev, target, 1, true);
  }

  lemma NewIsHarmless()
    ensures Harmless(2, 0, AfterSwap(Stamped(0, 0), 1))
  {
    var l1 := Adjust(1, -1, 0, Nil);
    assert Harmless(2, 0, l1) && Harmless(2, 0, Adjust(0, -1, 0, l1));
    assert Harmless(2, 0, Adjust(0, -1, 0, Adjust(0, -1, 0, l1)));
  }

  lemma RestartedIsHarmless(transient: int)
    requires transient != 0
    ensures Harmless(1, transient, AfterSwap(Stamped(1, 0), 0))
  {
    var l1 := Adjust(0, -1, 0, Nil);
    assert Harmless(0, transient, l1) && Harmless(1, transient, Adjust(1, -1, 0, l1));
    assert Harmless(2, transient, Adjust(1, -1, 0, Adjust(1, -1, 0, l1)));
  }

  lemma MakesFirst(s: State) returns (s': State)
    requires s == Init(1, 1)
    ensures Leads(s, s') && At(s', Stamped(0, 0), 1, 0, Idle, multiset{1})
  {
    s' := Step(s, Make(0, 1));
    StepLeads(s, Make(0, 1), s');
    assert multiset{} + Ref(1) == multiset{1};
  }

  lemma CallsStore(s: State, cell: Stamped, transient: int, p: nat, h: multiset<nat>) returns (s': State)
    requires At(s, cell, 1, transient, Idle, h) && p <= 1 && h == Ref(p)
    ensures Leads(s, s')
    ensures At(s', cell, 1, transient, Continue(Adjust(p, 1, 0, Nil), ThenSwap(0, p)), multiset{})
  {
    var call := CallStore(0, 0, p, false);
    s' := Step(s, call);
    StepLeads(s, call, s');
    assert h - Ref(p) == multiset{};
  }

  /** A new block is stored into the cell. */
  lemma StoresNew(s: State) returns (s': State)
    requires s == Init(1, 1)
    ensures Leads(s, s') && At(s', Stamped(1, 0), 1, 0, Idle, multiset{})
  {
    var s1 := MakesFirst(s);
    var s2 := CallsStore(s1, Stamped(0, 0), 0, 1, multiset{1});
    NewIsHarmless();
    s' := Stores(s2, Stamped(0, 0), 1, 0, 1, 0);
    LeadsOn(s, s1, s2);
    LeadsOn(s, s2, s');
  }

  /** Null is stored over a cell whose stamp has restarted. */
  lemma StoresNull(s: State) returns (s': State)
    requires At(s, Stamped(1, 0), 1, -(MAX_STAMP + 1), Idle, multiset{})
    ensures Leads(s, s') && Leaked(s')
  {
    var s1 := CallsStore(s, Stamped(1, 0), -(MAX_STAMP + 1), 0, multiset{});
    RestartedIsHarmless(-(MAX_STAMP + 1));
    s' := Stores(s1, Stamped(1, 0), 1, -(MAX_STAMP + 1), 0, -(MAX_STAMP + 1));
    LeadsOn(s, s1, s');
  }

  /** 65536 failing compare-exchanges on the same pointer restart its stamp, and when the cell is emptied
      the block stays allocated with nobody to refer to it. No run that fits ends so. */
  lemma OverflowLeaks() returns (actions: seq<Action>)
    ensures Leaked(Run(Init(1, 1), actions))
    ensures forall fitting :: AllFit(Init(1, 1), fitting) ==> !Leaked(Run(Init(1, 1), fitting))
  {
    var s := Init(1, 1);
    var s1 := StoresNew(s);
    var s2 := FailsOften(s1, MAX_STAMP);
    var s3 := Fails(s2, MAX_STAMP);
    var s4 := StoresNull(s3);
    LeadsOn(s, s1, s2);
    LeadsOn(s, s2, s3);
    LeadsOn(s, s3, s4);
    var states :| Path(IsStep, states) && states[0] == s && states[|states| - 1] == s4;
    actions := PathRuns(states);
    forall fitting | AllFit(s, fitting) ensures !Leaked(Run(s, fitting)) {
      Reached(1, 1, fitting);
      NotLeaked(Run(s, fitting));
    }
  }

  lemma NotLeaked(s: State)
    requires Inv(s)
    ensures !Leaked(s)
  {
    if Leaked(s) {
      NoCellsNoStamps(s.cells, 1);
      QuietBlock(s, 1);
    }
  }
}
