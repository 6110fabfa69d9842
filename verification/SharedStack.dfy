/** The Treiber stack over AtomicSharedPtr (tasks/lockfree/shared_ptr/lock_free_stack.hpp).

    The memory is a state of module SharedPointers with one cell, top_. What the stack does with it are
    actions of that module: a thread inside Load, CompareExchangeWeak or a destructor takes the steps
    of that operation, one atomic operation at a time, and nodes are deleted when their counts say
    so. A node is a block whose data are the value and, as a reference to the node below, `next`. */
module SharedStack {
  import opened Counting
  import opened Options
  import opened Histories
  import Ptr = SharedPointers
  import Reg = SharedRegisters
  import Objects = AtomicSharedPtr

  /** Where a client stands: what its thread in the memory is doing, or has just done. */
  datatype Pc =
    | Idle
    | PushNew(node: nat)                // new_node is made
    | PushLoad(node: nat)               // Load top_ into its next
    | PushCas(node: nat, next: nat)     // CompareExchangeWeak(new_node->next, new_node)
    | PushDrop                          // drop new_node
    | PopLoad                           // Load top_
    | PopNext(curr: nat)                // it is not null: read its next
    | PopCas(curr: nat, next: nat)      // CompareExchangeWeak(curr_top, curr_top->next)
    | PopRead(curr: nat)                // move the value out
    | PopDrop(result: Option<Item>)     // drop curr_top; then return the value, if there is one
    | Returned(result: Option<Item>)

  datatype Client = Client(pc: Pc, calls: seq<Call>, answers: seq<Answer>)

  /** Auxiliary: what a node is. Depth 0 is the bottom of the stack. */
  datatype Place = Private(t: nat) | Stacked(depth: nat) | Won(t: nat) | Spent

  /** `values` are the values in the data of the nodes, None once moved out; `fault` is raised by an
      access to the data of a node that is not allocated, or to a value that is gone. `line` and
      `items`, the nodes of the stack and their values from the bottom up, `place`, `log` and the
      histories of the clients are auxiliary. */
  datatype State = State(mem: Ptr.State, values: map<nat, Option<Item>>, clients: seq<Client>, fault: bool,
                         line: seq<nat>, items: seq<Item>, place: map<nat, Place>, log: seq<Event>)

  /** `Go` is the next step of a thread: an access of the operation it is in, or, when that has
      returned, what Push or TryPop does next. */
  datatype Action =
    | CallPush(t: nat, value: Item, addr: nat)
    | CallPop(t: nat)
    | Go(t: nat, flaky: bool)
    | Collect(t: nat)

  function Init(n: nat): State {
    State(Ptr.Init(n, 1), map[], seq(n, _ => Client(Idle, [], [])), false, [], [], map[], [])
  }

  // --- The operations, one atomic step at a time

  /** The member `next` of a node's data; null until a reference has been moved into it. */
  function NextOf(links: seq<Ptr.Link>, a: nat): nat {
    if links == [] then 0 else if links[0].from == a then links[0].to else NextOf(links[1..], a)
  }

  function LastAnswer(th: Ptr.Thread): Ptr.Answer {
    if th.answers == [] then Ptr.Done else th.answers[|th.answers| - 1]
  }

  /** The pointer that the last Load, or failed CompareExchangeWeak, came back with. */
  function Found(th: Ptr.Thread): nat {
    match LastAnswer(th)
    case Got(p) => p
    case Refused(p) => p
    case _ => 0
  }

  /** Actions that do not apply leave the state alone. */
  function Step(s: State, a: Action): State {
    if a.t >= |s.clients| || a.t >= |s.mem.threads| then s else
    var pc, idle := s.clients[a.t].pc, s.mem.threads[a.t].pc.Idle?;
    match a
    case CallPush(t, v, addr) =>
      if pc.Idle? && idle && addr != 0 && addr !in s.mem.blocks then
        Begin(Ask(s.(values := s.values[addr := Some(v)], place := s.place[addr := Private(t)]), Ptr.Make(t, addr)), t,
              PushNew(addr), PushCall(v))
      else s
    case CallPop(t) => if pc.Idle? && idle then Begin(Ask(s, Ptr.CallLoad(t, 0)), t, PopLoad, PopCall) else s
    case Collect(t) => if pc.Returned? then Finish(s, t, Gave(pc.result)) else s
    case Go(t, flaky) => if idle then Advance(s, t) else Follow(s, Ask(s, Ptr.Tick(t, flaky)), t)
  }

  function Ask(s: State, a: Ptr.Action): State {
    s.(mem := Ptr.Step(s.mem, a))
  }

  function Goto(s: State, t: nat, pc: Pc): State
    requires t < |s.clients|
  {
    s.(clients := s.clients[t := s.clients[t].(pc := pc)])
  }

  function Begin(s: State, t: nat, pc: Pc, c: Call): State
    requires t < |s.clients|
  {
    s.(clients := s.clients[t := Client(pc, s.clients[t].calls + [c], s.clients[t].answers)])
  }

  function Finish(s: State, t: nat, a: Answer): State
    requires t < |s.clients|
  {
    s.(clients := s.clients[t := Client(Idle, s.clients[t].calls, s.clients[t].answers + [a])])
  }

  /** The operation on the memory has returned. */
  function Advance(s: State, t: nat): State
    requires t < |s.clients| && t < |s.mem.threads|
  {
    var last, p := LastAnswer(s.mem.threads[t]), Found(s.mem.threads[t]);
    match s.clients[t].pc
    case PushNew(n) => Goto(Ask(s, Ptr.CallLoad(t, 0)), t, PushLoad(n))
    case PushLoad(n) => TryPublish(s, t, n, p)
    case PushCas(n, _) => if last.Exchanged? then Goto(Ask(s, Ptr.Drop(t, n)), t, PushDrop) else TryPublish(s, t, n, p)
    case PushDrop => Finish(s, t, Done)
    case PopLoad => Goto(s, t, if p == 0 then Returned(None) else PopNext(p))
    case PopNext(c) =>
      if c !in s.mem.blocks then s.(fault := true)
      else
        var d := NextOf(s.mem.links, c);
        Goto(Ask(s, Ptr.CallCas(t, 0, c, d, true, false)), t, PopCas(c, d))
    case PopCas(c, _) => if last.Exchanged? then Goto(s, t, PopRead(c)) else Goto(Ask(s, Ptr.Drop(t, p)), t, PopDrop(None))
    case PopRead(c) =>
      if c !in s.mem.blocks || c !in s.values || s.values[c].None? then s.(fault := true)
      else
        Goto(Ask(s.(values := s.values[c := None], place := s.place[c := Spent]), Ptr.Drop(t, c)), t, PopDrop(s.values[c]))
    case PopDrop(None) => Goto(Ask(s, Ptr.CallLoad(t, 0)), t, PopLoad)
    case PopDrop(Some(v)) => Goto(s, t, Returned(Some(v)))
    case _ => s
  }

  /** `new_node->next`, which holds the pointer found, is `expected`; on success it is part of the stack. */
  function TryPublish(s: State, t: nat, n: nat, p: nat): State
    requires t < |s.clients|
  {
    Goto(Ask(s, Ptr.CallCas(t, 0, p, n, true, true)), t, PushCas(n, p))
  }

  /** A step of the memory: a deleted node takes its value along; and what the step means for the stack. */
  function Follow(s: State, s1: State, t: nat): State
    requires t < |s.clients| && t < |s.mem.threads|
  {
    var pc := s.mem.threads[t].pc;
    if pc.Delete? then s1.(values := s1.values - {pc.ptr}, place := s1.place - {pc.ptr})
    else if |s1.mem.log| <= |s.mem.log| then s1
    else
      var e := s1.mem.log[|s.mem.log|];
      match s.clients[t].pc
      case PushCas(n, _) => if e.Swapped? then Publish(s1, t, n) else s1
      case PopLoad => if e.Loaded? && e.ptr == 0 then s1.(log := s1.log + [SawEmpty(t)]) else s1
      case PopCas(c, _) => if e.Swapped? then Unlink(s1, t, c) else s1
      case _ => s1
  }

  function ValueAt(s: State, a: nat): Item {
    if a in s.values && s.values[a].Some? then s.values[a].value else 0
  }

  /** The linearization point of Push. */
  function Publish(s: State, t: nat, n: nat): State {
    var v := ValueAt(s, n);
    s.(line := s.line + [n], items := s.items + [v], place := s.place[n := Stacked(|s.line|)], log := s.log + [Pushed(t, v)])
  }

  function ButLast<T>(q: seq<T>): seq<T> {
    if q == [] then [] else q[..|q| - 1]
  }

  /** The linearization point of TryPop. */
  function Unlink(s: State, t: nat, c: nat): State {
    s.(line := ButLast(s.line), items := ButLast(s.items), place := s.place[c := Won(t)],
       log := s.log + [Popped(t, ValueAt(s, c))])
  }

  function Run(s: State, actions: seq<Action>): State
    decreases |actions|
  {
    if actions == [] then s else Run(Step(s, actions[0]), actions[1..])
  }

  /** The one assumption: the stamps of the memory fit. */
  predicate Fits(s: State, a: Action) {
    a.Go? && a.t < |s.mem.threads| && !s.mem.threads[a.t].pc.Idle? ==> Ptr.StampsFit(s.mem, Ptr.Tick(a.t, a.flaky))
  }

  predicate AllFit(s: State, actions: seq<Action>)
    decreases |actions|
  {
    actions == [] || (Fits(s, actions[0]) && AllFit(Step(s, actions[0]), actions[1..]))
  }

  // --- The invariant

  ghost function Below(line: seq<nat>, i: nat): nat
    requires i <= |line|
  {
    if i == 0 then 0 else line[i - 1]
  }

  /** Node `i` from the bottom knows its depth, holds its value, and points to the one below. */
  ghost predicate NodeOk(s: State, i: nat)
    requires i < |s.line| == |s.items|
  {
    var a := s.line[i];
    && a != 0 && a in s.place && s.place[a] == Stacked(i) && a in s.values && s.values[a] == Some(s.items[i])
    && NextOf(s.mem.links, a) == Below(s.line, i)
  }

  ghost predicate Stacks(s: State) {
    && s.place.Keys == s.mem.blocks.Keys && s.values.Keys == s.mem.blocks.Keys
    && |s.line| == |s.items| && |s.mem.cells| == 1 && s.mem.cells[0].ptr == Below(s.line, |s.line|)
    && (forall i :: 0 <= i < |s.line| ==> NodeOk(s, i))
    && (forall l :: l in s.mem.links ==> l.from != l.to)
  }

  /** A node is linked below after the node that it links to: no link leads to a node whose own link comes
      later. */
  ghost predicate Ordered(links: seq<Ptr.Link>) {
    links == [] || (Ordered(links[1..]) && forall l :: l in links ==> l.from != links[0].to)
  }

  /** Each node has at most one `next`, and nothing links to a node that is not published. */
  ghost predicate Tidy(s: State) {
    && Ordered(s.mem.links)
    && forall l :: l in s.mem.links ==>
         NextOf(s.mem.links, l.from) == l.to && l.to in s.place && !s.place[l.to].Private?
  }

  /** A node that threads may share: not the new node of one of them. */
  ghost predicate Shared(s: State, a: nat) {
    a != 0 && a in s.place && !s.place[a].Private?
  }

  /** The new node of thread `t` holds the argument of its call. */
  ghost predicate Mine(s: State, t: nat, n: nat)
    requires t < |s.clients|
  {
    var calls := s.clients[t].calls;
    && n != 0 && n in s.place && s.place[n] == Private(t) && n in s.values && s.values[n].Some?
    && calls != [] && calls[|calls| - 1] == PushCall(s.values[n].value) && NextOf(s.mem.links, n) == 0
  }

  ghost predicate LastIs(log: seq<Event>, t: nat, e: Event) {
    Of(log, t) != [] && Of(log, t)[|Of(log, t)| - 1] == e
  }

  /** Thread `t` has popped node `c` and not yet moved its value out. */
  ghost predicate Owed(s: State, t: nat, c: nat) {
    && c != 0 && c in s.place && s.place[c] == Won(t) && c in s.values && s.values[c].Some?
    && LastIs(s.log, t, Popped(t, s.values[c].value))
  }

  /** What a client asks of top_. */
  function Asked(pc: Pc): Ptr.Call {
    match pc
    case PushCas(n, e) => Ptr.CasCall(0, e, n, true)
    case PopCas(c, d) => Ptr.CasCall(0, c, d, false)
    case _ => Ptr.LoadCall(0)
  }

  /** The references of a thread while that is undecided. */
  function Holding(pc: Pc): multiset<nat> {
    match pc
    case PushLoad(n) => multiset{n}
    case PushCas(n, e) => multiset{n} + Ptr.Ref(e)
    case PopCas(c, _) => multiset{c}
    case _ => multiset{}
  }

  /** What thread `t` remembers while it is undecided. */
  ghost predicate Undecided(s: State, t: nat)
    requires t < |s.clients|
  {
    match s.clients[t].pc
    case PushLoad(n) => Mine(s, t, n)
    case PushCas(n, _) => Mine(s, t, n)
    case PopLoad => true
    case PopCas(c, d) => Shared(s, c) && d == NextOf(s.mem.links, c)
    case _ => false
  }

  /** What is true when it has been decided, or there was nothing to decide. */
  ghost predicate Settled(s: State, t: nat)
    requires t < |s.clients| && t < |s.mem.threads|
  {
    var th := s.mem.threads[t];
    var last, p, idle := LastAnswer(th), Found(th), th.pc.Idle?;
    match s.clients[t].pc
    case Idle => idle && th.handles == multiset{}
    case PushNew(n) => idle && th.handles == multiset{n} && Mine(s, t, n)
    case PushLoad(n) => th.handles == multiset{n} + Ptr.Ref(p) && Mine(s, t, n)
    case PushCas(n, _) =>
      if last.Exchanged? then th.handles == multiset{n} && n != 0 else th.handles == multiset{n} + Ptr.Ref(p) && Mine(s, t, n)
    case PushDrop => th.handles == multiset{}
    case PopLoad => th.handles == Ptr.Ref(p) && (if p == 0 then LastIs(s.log, t, SawEmpty(t)) else Shared(s, p))
    case PopNext(c) => idle && th.handles == multiset{c} && Shared(s, c)
    case PopCas(c, _) => if last.Exchanged? then th.handles == multiset{c} && Owed(s, t, c) else th.handles == Ptr.Ref(p)
    case PopRead(c) => idle && th.handles == multiset{c} && Owed(s, t, c)
    case PopDrop(r) => th.handles == multiset{} && (r.Some? ==> LastIs(s.log, t, Popped(t, r.value)))
    case Returned(r) => idle && th.handles == multiset{} && LastIs(s.log, t, EventOf(t, PopCall, Gave(r)))
  }

  ghost predicate Remembers(s: State, t: nat)
    requires t < |s.clients| && t < |s.mem.threads|
  {
    var th, pc := s.mem.threads[t], s.clients[t].pc;
    if Reg.Deciding(th.pc) then Reg.Serves(th.pc, Asked(pc)) && th.handles == Holding(pc) && Undecided(s, t) else Settled(s, t)
  }

  ghost predicate Inv(s: State) {
    && !s.fault && Ptr.Inv(s.mem) && Stacks(s) && Tidy(s) && |s.clients| == |s.mem.threads|
    && forall t :: 0 <= t < |s.clients| ==> Remembers(s, t)
  }

  // --- The `next` of a node

  lemma {:induction false} NextOfAppend(links: seq<Ptr.Link>, l: Ptr.Link, a: nat)
    ensures l.from != a ==> NextOf(links + [l], a) == NextOf(links, a)
    ensures (forall k :: k in links ==> k.from != a) && l.from == a ==> NextOf(links + [l], a) == l.to
  {
    if links != [] {
      assert (links + [l])[1..] == links[1..] + [l];
      NextOfAppend(links[1..], l, a);
    }
  }

  lemma {:induction false} NextOfNone(links: seq<Ptr.Link>, a: nat)
    requires forall k :: k in links ==> k.to != 0
    ensures NextOf(links, a) == 0 <==> forall k :: k in links ==> k.from != a
    ensures NextOf(links, a) != 0 ==> Ptr.Link(a, NextOf(links, a)) in links
  {
    if links != [] {
      NextOfNone(links[1..], a);
      assert links == [links[0]] + links[1..];
    }
  }

  lemma {:induction false} NextOfWithout(links: seq<Ptr.Link>, p: nat, a: nat)
    requires a != p
    ensures NextOf(Ptr.Without(links, p), a) == NextOf(links, a)
  {
    if links != [] {
      NextOfWithout(links[1..], p, a);
      assert ([links[0]] + Ptr.Without(links[1..], p))[1..] == Ptr.Without(links[1..], p);
    }
  }

  lemma {:induction false} OrderedAppend(links: seq<Ptr.Link>, l: Ptr.Link)
    requires Ordered(links) && l.from != l.to && forall k :: k in links ==> k.to != l.from
    ensures Ordered(links + [l])
  {
    if links == [] {
      assert (links + [l])[1..] == [];
    } else {
      assert (links + [l])[1..] == links[1..] + [l];
      OrderedAppend(links[1..], l);
    }
  }

  lemma {:induction false} OrderedWithout(links: seq<Ptr.Link>, p: nat)
    requires Ordered(links)
    ensures Ordered(Ptr.Without(links, p))
  {
    if links != [] {
      OrderedWithout(links[1..], p);
      Ptr.WithoutKeeps(links[1..], p);
      assert ([links[0]] + Ptr.Without(links[1..], p))[1..] == Ptr.Without(links[1..], p);
    }
  }

  // --- What others remember

  /** What a step of thread `t` may change about node `a`. */
  ghost predicate KeepsNode(s: State, s': State, t: nat, a: nat)
    requires a in s.place && a in s.values
  {
    && a in s'.place && a in s'.values
    && match s.place[a]
       case Private(u) =>
         u != t ==> s'.place[a] == s.place[a] && s'.values[a] == s.values[a] && NextOf(s'.mem.links, a) == NextOf(s.mem.links, a)
       case Won(u) =>
         && (u != t ==> s'.place[a] == s.place[a] && s'.values[a] == s.values[a])
         && !s'.place[a].Private? && NextOf(s'.mem.links, a) == NextOf(s.mem.links, a)
       case _ => !s'.place[a].Private? && NextOf(s'.mem.links, a) == NextOf(s.mem.links, a)
  }

  ghost predicate HeldByOthers(s: State, t: nat, a: nat) {
    exists u :: 0 <= u < |s.mem.threads| && u != t && a in s.mem.threads[u].handles
  }

  /** A step of thread `t`: a node that is gone is referred to by nobody. */
  ghost predicate Grows(s: State, s': State, t: nat) {
    && |s'.clients| == |s.clients| && |s'.mem.threads| == |s.mem.threads|
    && (forall u :: 0 <= u < |s.clients| && u != t ==> s'.clients[u] == s.clients[u])
    && (forall u :: 0 <= u < |s.mem.threads| && u != t ==> s'.mem.threads[u] == s.mem.threads[u])
    && (forall a :: a in s.place && a in s.values && HeldByOthers(s, t, a) ==> KeepsNode(s, s', t, a))
    && (forall u: nat :: u != t ==> Of(s'.log, u) == Of(s.log, u))
  }

  lemma MineKept(s: State, s': State, t: nat, u: nat, n: nat)
    requires Grows(s, s', t) && u != t && u < |s.clients| == |s.mem.threads| && n in s.mem.threads[u].handles
    requires Mine(s, u, n)
    ensures Mine(s', u, n)
  {
    assert KeepsNode(s, s', t, n);
  }

  lemma SharedKept(s: State, s': State, t: nat, u: nat, a: nat)
    requires Grows(s, s', t) && u != t && u < |s.mem.threads| && a in s.mem.threads[u].handles && Shared(s, a)
    requires a in s.values
    ensures Shared(s', a) && NextOf(s'.mem.links, a) == NextOf(s.mem.links, a)
    ensures Owed(s, u, a) ==> Owed(s', u, a)
  {
    assert KeepsNode(s, s', t, a);
  }

  lemma OtherUndecided(s: State, s': State, t: nat, u: nat)
    requires Grows(s, s', t) && u != t && u < |s.clients| == |s.mem.threads| && s.place.Keys == s.values.Keys
    requires s.mem.threads[u].handles == Holding(s.clients[u].pc) && Undecided(s, u)
    ensures Undecided(s', u)
  {
    match s.clients[u].pc
    case PushLoad(n) => MineKept(s, s', t, u, n);
    case PushCas(n, _) => MineKept(s, s', t, u, n);
    case PopCas(c, _) => SharedKept(s, s', t, u, c);
    case _ =>
  }

  lemma OtherSettled(s: State, s': State, t: nat, u: nat)
    requires Grows(s, s', t) && u != t && u < |s.clients| == |s.mem.threads| && s.place.Keys == s.values.Keys
    requires Settled(s, u)
    ensures Settled(s', u)
  {
    var th := s.mem.threads[u];
    match s.clients[u].pc
    case PushNew(n) => MineKept(s, s', t, u, n);
    case PushLoad(n) => MineKept(s, s', t, u, n);
    case PushCas(n, _) => if !LastAnswer(th).Exchanged? { MineKept(s, s', t, u, n); }
    case PopLoad => if Found(th) != 0 { SharedKept(s, s', t, u, Found(th)); }
    case PopNext(c) => SharedKept(s, s', t, u, c);
    case PopCas(c, _) => if LastAnswer(th).Exchanged? { SharedKept(s, s', t, u, c); }
    case PopRead(c) => SharedKept(s, s', t, u, c);
    case _ =>
  }

  lemma OtherRemembers(s: State, s': State, t: nat, u: nat)
    requires Grows(s, s', t) && u != t && u < |s.clients| == |s.mem.threads| && Remembers(s, u)
    requires s.place.Keys == s.values.Keys
    ensures Remembers(s', u)
  {
    if Reg.Deciding(s.mem.threads[u].pc) { OtherUndecided(s, s', t, u); } else { OtherSettled(s, s', t, u); }
  }

  /** What remains to be shown of a step of thread `t`. */
  lemma MoveKeeps(s: State, s': State, t: nat)
    requires Inv(s) && !s'.fault && Ptr.Inv(s'.mem) && Stacks(s') && Tidy(s') && Grows(s, s', t) && t < |s.clients|
    requires Remembers(s', t)
    ensures Inv(s')
  {
    forall u | 0 <= u < |s'.clients| ensures Remembers(s', u) {
      if u != t { OtherRemembers(s, s', t, u); }
    }
  }

  // --- What a client does when an operation on the memory has returned

  /** An operation on the memory begins: only the thread's own record changes. */
  ghost predicate Asks(mem: Ptr.State, m: Ptr.Action, t: nat) {
    && t < |mem.threads| && m.t == t && mem.threads[t].pc.Idle? && (m.Drop? || m.CallLoad? || m.CallCas?)
    && Ptr.Applies(mem, m) && Ptr.Kept(mem, m)
  }

  lemma AskChanges(mem: Ptr.State, m: Ptr.Action, t: nat)
    requires Ptr.Inv(mem) && Asks(mem, m, t)
    ensures Ptr.Step(mem, m) == mem.(threads := mem.threads[t := Ptr.Called(mem.threads[t], m)])
    ensures Ptr.Inv(Ptr.Step(mem, m))
  {
    Ptr.StepInv(mem, m);
  }

  lemma LoadAsked(th: Ptr.Thread, t: nat)
    ensures var th' := Ptr.Called(th, Ptr.CallLoad(t, 0));
      Reg.Deciding(th'.pc) && Reg.Serves(th'.pc, Ptr.LoadCall(0)) && th'.handles == th.handles
  {
  }

  lemma CasAsked(th: Ptr.Thread, t: nat, e: nat, d: nat, seal: bool)
    ensures var th' := Ptr.Called(th, Ptr.CallCas(t, 0, e, d, true, seal));
      Reg.Deciding(th'.pc) && Reg.Serves(th'.pc, Ptr.CasCall(0, e, d, seal)) && th'.handles == th.handles
  {
    Reg.PassingServes(th, Ptr.CallCas(t, 0, e, d, true, seal));
  }

  lemma DropAsked(th: Ptr.Thread, t: nat, p: nat)
    ensures var th' := Ptr.Called(th, Ptr.Drop(t, p)); !Reg.Deciding(th'.pc) && th'.handles == th.handles - Ptr.Ref(p)
  {
  }

  /** Only thread `t` and the values and places of its own popped nodes change. */
  lemma LocalKeeps(s: State, s': State, t: nat)
    requires Inv(s) && t < |s.clients| && !s'.fault && |s'.clients| == |s.clients|
    requires |s'.mem.threads| == |s.mem.threads|
    requires s'.mem == s.mem.(threads := s'.mem.threads) && Ptr.Inv(s'.mem)
    requires forall u :: 0 <= u < |s.clients| && u != t ==> s'.clients[u] == s.clients[u] && s'.mem.threads[u] == s.mem.threads[u]
    requires s'.line == s.line && s'.items == s.items && s'.log == s.log
    requires s'.place.Keys == s.place.Keys && s'.values.Keys == s.values.Keys
    requires forall a :: a in s.place && a in s.values && s.place[a] != Won(t) ==>
      s'.place[a] == s.place[a] && s'.values[a] == s.values[a]
    requires forall a :: a in s.place && s.place[a] == Won(t) ==> !s'.place[a].Private?
    requires Remembers(s', t)
    ensures Inv(s')
  {
    forall i | 0 <= i < |s'.line| ensures NodeOk(s', i) { assert NodeOk(s, i); }
    MoveKeeps(s, s', t);
  }

  lemma AskKeeps(s: State, m: Ptr.Action, t: nat, pc: Pc)
    requires Inv(s) && t < |s.clients| && Asks(s.mem, m, t) && Remembers(Goto(Ask(s, m), t, pc), t)
    ensures Inv(Goto(Ask(s, m), t, pc))
  {
    AskChanges(s.mem, m, t);
    LocalKeeps(s, Goto(Ask(s, m), t, pc), t);
  }

  lemma GotoKeeps(s: State, t: nat, pc: Pc)
    requires Inv(s) && t < |s.clients| && Remembers(Goto(s, t, pc), t)
    ensures Inv(Goto(s, t, pc))
  {
    LocalKeeps(s, Goto(s, t, pc), t);
  }

  lemma PublishAsked(mem: Ptr.State, t: nat, n: nat, p: nat)
    requires t < |mem.threads| && mem.threads[t].pc.Idle? && n != 0 && |mem.cells| == 1
    requires mem.threads[t].handles == multiset{n} + Ptr.Ref(p)
    ensures Asks(mem, Ptr.CallCas(t, 0, p, n, true, true), t)
  {
    Ptr.RefCount(mem.threads[t].handles, p, n);
    assert n in Ptr.AfterSeal(mem.threads[t].handles, p, true);
  }

  /** A node that is nobody else's, with `next` still null, can be tried. */
  lemma TryPublishInv(s: State, t: nat, n: nat, p: nat)
    requires Inv(s) && t < |s.clients| && s.mem.threads[t].pc.Idle? && Mine(s, t, n)
    requires s.mem.threads[t].handles == multiset{n} + Ptr.Ref(p)
    ensures Asks(s.mem, Ptr.CallCas(t, 0, p, n, true, true), t) && Inv(TryPublish(s, t, n, p))
  {
    var m := Ptr.CallCas(t, 0, p, n, true, true);
    PublishAsked(s.mem, t, n, p);
    AskChanges(s.mem, m, t);
    CasAsked(s.mem.threads[t], t, p, n, true);
    AskKeeps(s, m, t, PushCas(n, p));
  }

  lemma AskLoadInv(s: State, t: nat, pc: Pc)
    requires Inv(s) && t < |s.clients| && s.mem.threads[t].pc.Idle?
    requires (s.clients[t].pc.PushNew? && pc == PushLoad(s.clients[t].pc.node)) || (s.clients[t].pc == PopDrop(None) && pc == PopLoad)
    ensures Asks(s.mem, Ptr.CallLoad(t, 0), t) && Inv(Goto(Ask(s, Ptr.CallLoad(t, 0)), t, pc))
  {
    assert Remembers(s, t);
    AskChanges(s.mem, Ptr.CallLoad(t, 0), t);
    LoadAsked(s.mem.threads[t], t);
    AskKeeps(s, Ptr.CallLoad(t, 0), t, pc);
  }

  lemma AskDropInv(s: State, t: nat, p: nat, pc: Pc)
    requires Inv(s) && t < |s.clients| && s.mem.threads[t].pc.Idle? && s.mem.threads[t].handles == Ptr.Ref(p)
    requires pc == PushDrop || pc == PopDrop(None)
    ensures Asks(s.mem, Ptr.Drop(t, p), t) && Inv(Goto(Ask(s, Ptr.Drop(t, p)), t, pc))
  {
    AskChanges(s.mem, Ptr.Drop(t, p), t);
    DropAsked(s.mem.threads[t], t, p);
    AskKeeps(s, Ptr.Drop(t, p), t, pc);
  }

  /** The node is allocated, because the thread refers to it, and so is the one its data refer to: the
      caller keeps a way to `desired`, and the memory is asked nothing it does not allow. */
  lemma PopNextInv(s: State, t: nat)
    requires Inv(s) && t < |s.clients| && s.mem.threads[t].pc.Idle? && s.clients[t].pc.PopNext?
    ensures var c := s.clients[t].pc.curr;
      c in s.mem.blocks && Asks(s.mem, Ptr.CallCas(t, 0, c, NextOf(s.mem.links, c), true, false), t)
    ensures Inv(Advance(s, t))
  {
    assert Remembers(s, t);
    var c := s.clients[t].pc.curr;
    var d := NextOf(s.mem.links, c);
    var m := Ptr.CallCas(t, 0, c, d, true, false);
    Ptr.HandleKeepsAlive(s.mem, t, c);
    NextOfNone(s.mem.links, c);
    assert d != 0 ==> Ptr.Link(c, d) in s.mem.links;
    AskChanges(s.mem, m, t);
    CasAsked(s.mem.threads[t], t, c, d, false);
    AskKeeps(s, m, t, PopCas(c, d));
  }

  lemma PopReadInv(s: State, t: nat)
    requires Inv(s) && t < |s.clients| && s.mem.threads[t].pc.Idle? && s.clients[t].pc.PopRead?
    ensures var c := s.clients[t].pc.curr;
      c in s.mem.blocks && c in s.values && s.values[c].Some? && Asks(s.mem, Ptr.Drop(t, c), t)
    ensures Inv(Advance(s, t))
  {
    assert Remembers(s, t);
    var c := s.clients[t].pc.curr;
    AskChanges(s.mem, Ptr.Drop(t, c), t);
    DropAsked(s.mem.threads[t], t, c);
    LocalKeeps(s, Advance(s, t), t);
  }

  lemma FinishKeeps(s: State, t: nat, a: Answer)
    requires Inv(s) && t < |s.clients| && s.mem.threads[t].pc.Idle? && s.mem.threads[t].handles == multiset{}
    ensures Inv(Finish(s, t, a))
  {
    LocalKeeps(s, Finish(s, t, a), t);
  }

  lemma AdvancePushInv(s: State, t: nat)
    requires Inv(s) && t < |s.clients| && s.mem.threads[t].pc.Idle?
    requires var pc := s.clients[t].pc; (pc.PushNew? || pc.PushLoad? || pc.PushCas? || pc.PushDrop?)
    ensures Inv(Advance(s, t))
  {
    assert Settled(s, t) by { assert Remembers(s, t); }
    var pc, p := s.clients[t].pc, Found(s.mem.threads[t]);
    if pc.PushNew? {
      AskLoadInv(s, t, PushLoad(pc.node));
    } else if pc.PushLoad? {
      TryPublishInv(s, t, pc.node, p);
    } else if pc.PushCas? {
      if LastAnswer(s.mem.threads[t]).Exchanged? {
        AskDropInv(s, t, pc.node, PushDrop);
      } else {
        TryPublishInv(s, t, pc.node, p);
      }
    } else {
      FinishKeeps(s, t, Done);
    }
  }

  lemma AdvancePopInv(s: State, t: nat)
    requires Inv(s) && t < |s.clients| && s.mem.threads[t].pc.Idle?
    requires var pc := s.clients[t].pc; (pc.PopLoad? || pc.PopNext? || pc.PopCas? || pc.PopRead? || pc.PopDrop?)
    ensures Inv(Advance(s, t))
  {
    assert Settled(s, t) by { assert Remembers(s, t); }
    var pc, p := s.clients[t].pc, Found(s.mem.threads[t]);
    if pc.PopLoad? {
      GotoKeeps(s, t, if p == 0 then Returned(None) else PopNext(p));
    } else if pc.PopNext? {
      PopNextInv(s, t);
    } else if pc.PopCas? {
      if LastAnswer(s.mem.threads[t]).Exchanged? {
        GotoKeeps(s, t, PopRead(pc.curr));
      } else {
        AskDropInv(s, t, p, PopDrop(None));
      }
    } else if pc.PopRead? {
      PopReadInv(s, t);
    } else if pc.result.None? {
      AskLoadInv(s, t, PopLoad);
    } else {
      GotoKeeps(s, t, Returned(pc.result));
    }
  }

  // --- Calls

  lemma CallPushInv(s: State, t: nat, v: Item, addr: nat)
    requires Inv(s) && t < |s.clients| && s.clients[t].pc.Idle? && s.mem.threads[t].pc.Idle? && addr != 0
    requires addr !in s.mem.blocks
    ensures Inv(Step(s, CallPush(t, v, addr)))
  {
    assert Remembers(s, t);
    MakeChanges(s.mem, t, addr);
    NextOfNone(s.mem.links, addr);
    NewNodeKeeps(s, Step(s, CallPush(t, v, addr)), t, v, addr);
  }

  lemma MakeChanges(mem: Ptr.State, t: nat, addr: nat)
    requires Ptr.Inv(mem) && t < |mem.threads| && mem.threads[t].pc.Idle? && addr != 0 && addr !in mem.blocks
    ensures var th := mem.threads[t];
      Ptr.Step(mem, Ptr.Make(t, addr)) ==
        mem.(blocks := mem.blocks[addr := Ptr.Block(1, 0)], threads := mem.threads[t := th.(handles := th.handles + Ptr.Ref(addr))])
    ensures Ptr.Inv(Ptr.Step(mem, Ptr.Make(t, addr))) && Ptr.LinksOk(mem)
  {
    Ptr.StepInv(mem, Ptr.Make(t, addr));
  }

  lemma NewNodeKeeps(s: State, s': State, t: nat, v: Item, addr: nat)
    requires Inv(s) && t < |s.clients| && s.mem.threads[t].pc.Idle? && s.mem.threads[t].handles == multiset{}
    requires addr != 0 && addr !in s.mem.blocks
    requires NextOf(s.mem.links, addr) == 0 && Ptr.Inv(s'.mem)
    requires var th := s.mem.threads[t];
      s'.mem == s.mem.(blocks := s.mem.blocks[addr := Ptr.Block(1, 0)],
                       threads := s.mem.threads[t := th.(handles := th.handles + Ptr.Ref(addr))])
    requires s' == Begin(s.(mem := s'.mem, values := s.values[addr := Some(v)], place := s.place[addr := Private(t)]), t,
                         PushNew(addr), PushCall(v))
    ensures Inv(s')
  {
    NewNodeStacks(s, s', addr);
    assert multiset{} + Ptr.Ref(addr) == multiset{addr};
    MoveKeeps(s, s', t);
  }

  lemma NewNodeStacks(s: State, s': State, addr: nat)
    requires Stacks(s) && Tidy(s) && addr !in s.mem.blocks && s'.mem.links == s.mem.links && s'.mem.cells == s.mem.cells
    requires s'.line == s.line && s'.items == s.items && s'.mem.blocks.Keys == s.mem.blocks.Keys + {addr}
    requires s'.place.Keys == s'.values.Keys == s'.mem.blocks.Keys
    requires forall a :: a in s.place ==> s'.place[a] == s.place[a]
    requires forall a :: a in s.values ==> s'.values[a] == s.values[a]
    ensures Stacks(s') && Tidy(s')
  {
    forall i | 0 <= i < |s'.line| ensures NodeOk(s', i) { assert NodeOk(s, i); }
  }

  lemma CallPopInv(s: State, t: nat)
    requires Inv(s) && t < |s.clients| && s.clients[t].pc.Idle? && s.mem.threads[t].pc.Idle?
    ensures Inv(Step(s, CallPop(t))) && Asks(s.mem, Ptr.CallLoad(t, 0), t)
  {
    assert Remembers(s, t);
    AskChanges(s.mem, Ptr.CallLoad(t, 0), t);
    LoadAsked(s.mem.threads[t], t);
    LocalKeeps(s, Step(s, CallPop(t)), t);
  }

  lemma CollectInv(s: State, t: nat)
    requires Inv(s) && t < |s.clients| && s.clients[t].pc.Returned?
    ensures Inv(Step(s, Collect(t)))
  {
    assert Remembers(s, t);
    FinishKeeps(s, t, Gave(s.clients[t].pc.result));
  }

  // --- What a step of the memory means

  lemma DeleteFrame(m: Ptr.State, t: nat, flaky: bool)
    requires Ptr.Inv(m) && t < |m.threads| && m.threads[t].pc.Delete?
    ensures var m', p := Ptr.TickStep(m, t, flaky), m.threads[t].pc.ptr;
      && p != 0 && p in m.blocks && Ptr.Unreachable(m, t, p) && m'.blocks == m.blocks - {p} && m'.links == Ptr.Without(m.links, p)
      && m'.cells == m.cells && m'.log == m.log
  {
    Ptr.DoomedIsDead(m, t);
    Ptr.DoomedIsUnreachable(m, t);
  }

  /** Nothing but the swing of a compare-exchange touches links. */
  lemma OtherFrame(m: Ptr.State, t: nat, flaky: bool)
    requires Ptr.Inv(m) && t < |m.threads| && !m.threads[t].pc.Delete? && !m.threads[t].pc.Swing?
    ensures var m' := Ptr.TickStep(m, t, flaky);
      && m'.blocks.Keys == m.blocks.Keys && m'.links == m.links && |m'.cells| == |m.cells|
      && (|m'.log| > |m.log| ==> !m'.log[|m.log|].Swapped?)
  {
    match m.threads[t].pc
    case Count(_, _, _) =>
    case Acquire(_, _) =>
    case Stamp(_, _, _) =>
    case Swap(_, _) =>
    case _ =>
  }

  lemma SwingFrame(m: Ptr.State, t: nat, flaky: bool)
    requires Ptr.Inv(m) && t < |m.threads| && m.threads[t].pc.Swing?
    ensures var m' := Ptr.TickStep(m, t, flaky);
      var Swing(c, held, d, seal) := m.threads[t].pc;
      && m'.blocks == m.blocks && |m'.cells| == |m.cells|
      && (m'.log == m.log ==> m'.links == m.links)
      && (m'.log != m.log ==>
            && m'.links == m.links + Ptr.Sealed(held.ptr, d, seal)
            && m'.log == m.log + [Ptr.Swapped(t, c, held.ptr, d)])
  {
    assert Ptr.InRange(m.threads[t].pc, |m.cells|);
  }

  /** The thread is as far as it was. */
  ghost predicate SameThread(th: Ptr.Thread, th': Ptr.Thread, call: Ptr.Call) {
    && th'.handles == th.handles && th'.answers == th.answers && (Reg.Deciding(th'.pc) <==> Reg.Deciding(th.pc))
    && (Reg.Deciding(th.pc) && Reg.Serves(th.pc, call) ==> Reg.Serves(th'.pc, call))
  }

  lemma SilentRemembers(s: State, s': State, t: nat)
    requires t < |s.clients| == |s.mem.threads| && t < |s'.mem.threads| && Remembers(s, t) && !s.mem.threads[t].pc.Idle?
    requires s' == s.(mem := s'.mem) && s'.mem.links == s.mem.links
    requires SameThread(s.mem.threads[t], s'.mem.threads[t], Asked(s.clients[t].pc))
    ensures Remembers(s', t)
  {
  }

  /** Nothing asked of top_ takes effect, and no node is deleted. */
  lemma SilentInv(s: State, s': State, t: nat)
    requires Inv(s) && t < |s.clients| && !s.mem.threads[t].pc.Idle? && s' == s.(mem := s'.mem) && Ptr.Inv(s'.mem)
    requires Reg.Silent(s.mem, s'.mem, t) && s'.mem.links == s.mem.links && s'.mem.blocks.Keys == s.mem.blocks.Keys
    requires |s'.mem.cells| == |s.mem.cells|
    ensures Inv(s')
  {
    assert Remembers(s, t);
    SilentRemembers(s, s', t);
    assert Reg.Pointers(s'.mem.cells)[0] == Reg.Pointers(s.mem.cells)[0];
    SameStack(s, s');
    MoveKeeps(s, s', t);
  }

  lemma SameStack(s: State, s': State)
    requires Stacks(s) && s'.place == s.place && s'.values == s.values && s'.line == s.line && s'.items == s.items
    requires s'.mem.links == s.mem.links && s'.mem.blocks.Keys == s.mem.blocks.Keys
    requires |s'.mem.cells| == 1 && s'.mem.cells[0].ptr == s.mem.cells[0].ptr
    ensures Stacks(s')
  {
    forall i | 0 <= i < |s'.line| ensures NodeOk(s', i) { assert NodeOk(s, i); }
  }

  /** A node of the stack is referred to, by top_ or by the node above it. */
  lemma LineIsReferred(s: State, i: nat, t: nat, p: nat)
    requires Inv(s) && i < |s.line| && Ptr.Unreachable(s.mem, t, p)
    ensures s.line[i] != p
  {
    assert NodeOk(s, i);
    if i + 1 < |s.line| {
      assert NodeOk(s, i + 1);
      NextOfNone(s.mem.links, s.line[i + 1]);
    }
  }

  lemma DeleteKeepsNodes(s: State, s': State, t: nat, p: nat, a: nat)
    requires s'.mem.links == Ptr.Without(s.mem.links, p) && a != p && a in s.place && a in s.values
    requires s'.values == s.values - {p} && s'.place == s.place - {p}
    ensures KeepsNode(s, s', t, a) && s'.values[a] == s.values[a] && s'.place[a] == s.place[a]
    ensures NextOf(s'.mem.links, a) == NextOf(s.mem.links, a)
  {
    NextOfWithout(s.mem.links, p, a);
  }

  lemma DeletedTidy(s: State, s': State, t: nat, p: nat)
    requires Inv(s) && Ptr.Unreachable(s.mem, t, p)
    requires s'.mem.links == Ptr.Without(s.mem.links, p) && s'.place == s.place - {p}
    ensures Tidy(s')
  {
    OrderedWithout(s.mem.links, p);
    Ptr.WithoutKeeps(s.mem.links, p);
    forall l | l in s'.mem.links ensures NextOf(s'.mem.links, l.from) == l.to && l.to in s'.place && !s'.place[l.to].Private? {
      NextOfWithout(s.mem.links, p, l.from);
    }
  }

  /** A node is deleted. */
  lemma DeletedInv(s: State, s': State, t: nat, p: nat)
    requires Inv(s) && t < |s.clients| && !s.mem.threads[t].pc.Idle? && Ptr.Inv(s'.mem) && Ptr.Unreachable(s.mem, t, p)
    requires s' == s.(mem := s'.mem, values := s.values - {p}, place := s.place - {p})
    requires s'.mem.blocks == s.mem.blocks - {p} && s'.mem.links == Ptr.Without(s.mem.links, p)
    requires s'.mem.cells == s.mem.cells
    requires Reg.Silent(s.mem, s'.mem, t)
    ensures Inv(s')
  {
    forall i | 0 <= i < |s'.line| ensures NodeOk(s', i) {
      assert NodeOk(s, i);
      LineIsReferred(s, i, t, p);
      DeleteKeepsNodes(s, s', t, p, s.line[i]);
    }
    Ptr.WithoutKeeps(s.mem.links, p);
    forall a | a in s.place && a in s.values && a != p ensures KeepsNode(s, s', t, a) { DeleteKeepsNodes(s, s', t, p, a); }
    DeletedRemembers(s, s', t, p);
    DeletedTidy(s, s', t, p);
    MoveKeeps(s, s', t);
  }

  /** The deleted node is none of those the thread still refers to. */
  lemma DeletedRemembers(s: State, s': State, t: nat, p: nat)
    requires Inv(s) && t < |s.clients| && t < |s'.mem.threads| && !s.mem.threads[t].pc.Idle?
    requires p !in s.mem.threads[t].handles
    requires s' == s.(mem := s'.mem, values := s.values - {p}, place := s.place - {p})
    requires s'.mem.links == Ptr.Without(s.mem.links, p)
    requires SameThread(s.mem.threads[t], s'.mem.threads[t], Asked(s.clients[t].pc))
    ensures Remembers(s', t)
  {
    assert Remembers(s, t);
    if Reg.Deciding(s.mem.threads[t].pc) { DeletedUndecided(s, s', t, p); } else { DeletedSettled(s, s', t, p); }
  }

  lemma DeletedUndecided(s: State, s': State, t: nat, p: nat)
    requires Stacks(s) && t < |s.clients| && t < |s.mem.threads|
    requires s.mem.threads[t].handles == Holding(s.clients[t].pc) && p !in Holding(s.clients[t].pc) && Undecided(s, t)
    requires s' == s.(mem := s'.mem, values := s.values - {p}, place := s.place - {p})
    requires s'.mem.links == Ptr.Without(s.mem.links, p)
    ensures Undecided(s', t)
  {
    match s.clients[t].pc
    case PushLoad(n) => DeleteKeepsNodes(s, s', t, p, n);
    case PushCas(n, _) => DeleteKeepsNodes(s, s', t, p, n);
    case PopCas(c, _) => DeleteKeepsNodes(s, s', t, p, c);
    case _ =>
  }

  lemma DeletedSettled(s: State, s': State, t: nat, p: nat)
    requires Stacks(s) && t < |s.clients| && t < |s.mem.threads| && t < |s'.mem.threads| && !s.mem.threads[t].pc.Idle?
    requires p !in s.mem.threads[t].handles && Settled(s, t)
    requires s' == s.(mem := s'.mem, values := s.values - {p}, place := s.place - {p})
    requires s'.mem.links == Ptr.Without(s.mem.links, p)
    requires s'.mem.threads[t].handles == s.mem.threads[t].handles
    requires s'.mem.threads[t].answers == s.mem.threads[t].answers
    ensures Settled(s', t)
  {
    var q := Found(s.mem.threads[t]);
    match s.clients[t].pc
    case PushLoad(n) => DeleteKeepsNodes(s, s', t, p, n);
    case PushCas(n, _) => if !LastAnswer(s.mem.threads[t]).Exchanged? { DeleteKeepsNodes(s, s', t, p, n); }
    case PopLoad => if q != 0 { DeleteKeepsNodes(s, s', t, p, q); }
    case PopCas(c, _) => if LastAnswer(s.mem.threads[t]).Exchanged? { DeleteKeepsNodes(s, s', t, p, c); }
    case _ =>
  }

  /** What an event on the one cell says about top_. */
  lemma EventOfTop(m: Ptr.State, m': Ptr.State, t: nat, call: Ptr.Call, e: Ptr.Event)
    requires t < |m.threads| && |m.cells| == |m'.cells| == 1 && Reg.Effect(m, m', t, e)
    requires Reg.Serves(m.threads[t].pc, call)
    requires call == Ptr.LoadCall(0) || (call.CasCall? && call.cell == 0)
    ensures !e.Stored? && (call.LoadCall? <==> e.Loaded?)
    ensures e.Loaded? || e.Failed? ==> m.cells[0].ptr == e.ptr == m'.cells[0].ptr
    ensures e.Swapped? ==> m.cells[0].ptr == e.expected == call.expected && m'.cells[0].ptr == e.desired == call.desired
    ensures e.Failed? ==> e.expected == call.expected
    ensures m'.threads[t].handles == Reg.Result(m.threads[t].handles, call, e)
    ensures LastAnswer(m'.threads[t]) == Ptr.AnswerOf(e) && !Reg.Deciding(m'.threads[t].pc)
  {
    assert Reg.Matches(call, e);
    assert Reg.Pointers(m.cells)[0] == m.cells[0].ptr && Reg.Pointers(m'.cells)[0] == m'.cells[0].ptr;
  }

  lemma OthersOf(log: seq<Event>, e: Event, t: nat)
    requires e.t == t
    ensures (forall u: nat :: u != t ==> Of(log + [e], u) == Of(log, u)) && LastIs(log + [e], t, e)
  {
    forall u: nat ensures Of(log + [e], u) == if u == t then Of(log, u) + [e] else Of(log, u) { OfAppend(log, e, u); }
  }

  /** A pointer is found: it replaces what the thread expected. Only an empty stack is an event. */
  lemma FoundInv(s: State, s': State, t: nat, e: Ptr.Event)
    requires Inv(s) && t < |s.clients| && s' == s.(mem := s'.mem, log := s'.log) && Ptr.Inv(s'.mem)
    requires Reg.Effect(s.mem, s'.mem, t, e) && !e.Swapped?
    requires s'.mem.links == s.mem.links && s'.mem.blocks.Keys == s.mem.blocks.Keys && |s'.mem.cells| == |s.mem.cells|
    requires s'.log == if s.clients[t].pc.PopLoad? && e.Loaded? && e.ptr == 0 then s.log + [SawEmpty(t)] else s.log
    ensures Inv(s')
  {
    assert Remembers(s, t);
    EventOfTop(s.mem, s'.mem, t, Asked(s.clients[t].pc), e);
    OthersOf(s.log, SawEmpty(t), t);
    TopIsShared(s);
    if e.Loaded? { LoadedSettled(s, s', t, e.ptr); } else { FailedSettled(s, s', t, e.expected, e.ptr); }
    FoundKeeps(s, s', t);
  }

  lemma TopIsShared(s: State)
    requires Stacks(s)
    ensures s.mem.cells[0].ptr != 0 ==> Shared(s, s.mem.cells[0].ptr)
  {
    if s.line != [] { assert NodeOk(s, |s.line| - 1); }
  }

  lemma FoundKeeps(s: State, s': State, t: nat)
    requires Inv(s) && t < |s.clients| && s' == s.(mem := s'.mem, log := s'.log) && Ptr.Inv(s'.mem)
    requires OnlyOneMoves(s, s', t)
    requires s'.mem.links == s.mem.links && s'.mem.blocks.Keys == s.mem.blocks.Keys
    requires |s'.mem.cells| == 1 && s'.mem.cells[0].ptr == s.mem.cells[0].ptr
    requires forall u: nat :: u != t ==> Of(s'.log, u) == Of(s.log, u)
    requires !Reg.Deciding(s'.mem.threads[t].pc) && Settled(s', t)
    ensures Inv(s')
  {
    SameStack(s, s');
    MoveKeeps(s, s', t);
  }

  lemma LoadedSettled(s: State, s': State, t: nat, p: nat)
    requires t < |s.clients| && t < |s.mem.threads| && s' == s.(mem := s'.mem, log := s'.log) && t < |s'.mem.threads|
    requires Undecided(s, t) && s.mem.threads[t].handles == Holding(s.clients[t].pc) && s'.mem.links == s.mem.links
    requires Asked(s.clients[t].pc).LoadCall? && LastAnswer(s'.mem.threads[t]) == Ptr.Got(p)
    requires s'.mem.threads[t].handles == s.mem.threads[t].handles + Ptr.Ref(p)
    requires p != 0 ==> Shared(s, p)
    requires s.clients[t].pc.PopLoad? && p == 0 ==> LastIs(s'.log, t, SawEmpty(t))
    ensures Settled(s', t)
  {
    assert Found(s'.mem.threads[t]) == p;
    if s.clients[t].pc.PopLoad? { assert multiset{} + Ptr.Ref(p) == Ptr.Ref(p); }
  }

  lemma Replaced(h: multiset<nat>, x: nat, p: nat)
    ensures (h + Ptr.Ref(x)) - Ptr.Ref(x) + Ptr.Ref(p) == h + Ptr.Ref(p)
  {
  }

  lemma FailedSettled(s: State, s': State, t: nat, x: nat, p: nat)
    requires t < |s.clients| && t < |s.mem.threads| && s' == s.(mem := s'.mem, log := s'.log) && t < |s'.mem.threads|
    requires Undecided(s, t) && s.mem.threads[t].handles == Holding(s.clients[t].pc) && s'.mem.links == s.mem.links
    requires Asked(s.clients[t].pc).CasCall? && x == Asked(s.clients[t].pc).expected
    requires LastAnswer(s'.mem.threads[t]) == Ptr.Refused(p)
    requires s'.mem.threads[t].handles == s.mem.threads[t].handles - Ptr.Ref(x) + Ptr.Ref(p)
    ensures Settled(s', t)
  {
    assert Found(s'.mem.threads[t]) == p;
    if s.clients[t].pc.PushCas? {
      Replaced(multiset{s.clients[t].pc.node}, x, p);
    } else {
      Replaced(multiset{}, x, p);
      assert multiset{x} == multiset{} + Ptr.Ref(x) && multiset{} + Ptr.Ref(p) == Ptr.Ref(p);
    }
  }

  lemma PublishedLinks(s: State, links: seq<Ptr.Link>, t: nat, n: nat, x: nat, a: nat)
    requires Inv(s) && t < |s.clients| && Mine(s, t, n) && links == s.mem.links + Ptr.Sealed(x, n, true)
    ensures NextOf(links, a) == if a == n then x else NextOf(s.mem.links, a)
  {
    NextOfNone(s.mem.links, n);
    if x != 0 { NextOfAppend(s.mem.links, Ptr.Link(n, x), a); } else { assert links == s.mem.links; }
  }

  lemma PublishInv(s: State, s': State, t: nat)
    requires Inv(s) && t < |s.clients| && s.clients[t].pc.PushCas? && Reg.Deciding(s.mem.threads[t].pc)
    requires var PushCas(n, x) := s.clients[t].pc;
      && Reg.Effect(s.mem, s'.mem, t, Ptr.Swapped(t, 0, x, n)) && s'.mem.links == s.mem.links + Ptr.Sealed(x, n, true)
      && s' == Publish(s.(mem := s'.mem), t, n)
    requires Ptr.Inv(s'.mem) && s'.mem.blocks.Keys == s.mem.blocks.Keys && |s'.mem.cells| == |s.mem.cells|
    ensures Inv(s')
  {
    assert Remembers(s, t);
    var PushCas(n, x) := s.clients[t].pc;
    EventOfTop(s.mem, s'.mem, t, Asked(s.clients[t].pc), Ptr.Swapped(t, 0, x, n));
    forall a ensures NextOf(s'.mem.links, a) == if a == n then x else NextOf(s.mem.links, a) {
      PublishedLinks(s, s'.mem.links, t, n, x, a);
    }
    PublishStacks(s, s', t);
    PublishTidy(s, s', t);
    PublishSettled(s, s', t);
    OthersOf(s.log, s'.log[|s.log|], t);
    PublishKeeps(s, s', t);
  }

  lemma PublishSettled(s: State, s': State, t: nat)
    requires t < |s.clients| == |s'.clients| && s'.clients == s.clients && t < |s'.mem.threads|
    requires s.clients[t].pc.PushCas?
    requires var PushCas(n, x) := s.clients[t].pc;
      n != 0 && s'.mem.threads[t].handles == multiset{n} + Ptr.Ref(x) - Ptr.Ref(x) && LastAnswer(s'.mem.threads[t]).Exchanged?
    ensures Settled(s', t)
  {
    var PushCas(n, x) := s.clients[t].pc;
    assert multiset{n} + Ptr.Ref(x) - Ptr.Ref(x) == multiset{n};
  }

  lemma PublishKeeps(s: State, s': State, t: nat)
    requires Inv(s) && t < |s.clients| && s.clients[t].pc.PushCas? && Mine(s, t, s.clients[t].pc.node)
    requires s' == Publish(s.(mem := s'.mem), t, s.clients[t].pc.node) && Ptr.Inv(s'.mem) && Stacks(s') && Tidy(s')
    requires OnlyOneMoves(s, s', t) && !Reg.Deciding(s'.mem.threads[t].pc) && Settled(s', t)
    requires forall a :: a != s.clients[t].pc.node ==> NextOf(s'.mem.links, a) == NextOf(s.mem.links, a)
    requires forall u: nat :: u != t ==> Of(s'.log, u) == Of(s.log, u)
    ensures Inv(s')
  {
    MoveKeeps(s, s', t);
  }

  ghost predicate OnlyOneMoves(s: State, s': State, t: nat) {
    && |s'.mem.threads| == |s.mem.threads|
    && forall u :: 0 <= u < |s.mem.threads| && u != t ==> s'.mem.threads[u] == s.mem.threads[u]
  }

  /** The new node lies on what was the top when it was published. */
  lemma PublishStacks(s: State, s': State, t: nat)
    requires Inv(s) && t < |s.clients| && s.clients[t].pc.PushCas? && Mine(s, t, s.clients[t].pc.node)
    requires |s.mem.cells| == |s'.mem.cells| == 1 && s'.mem.blocks.Keys == s.mem.blocks.Keys
    requires var PushCas(n, x) := s.clients[t].pc;
      && s' == Publish(s.(mem := s'.mem), t, n) && x == s.mem.cells[0].ptr && s'.mem.cells[0].ptr == n
      && (forall a :: NextOf(s'.mem.links, a) == if a == n then x else NextOf(s.mem.links, a))
      && s'.mem.links == s.mem.links + Ptr.Sealed(x, n, true)
    ensures Stacks(s')
  {
    var PushCas(n, x) := s.clients[t].pc;
    if s.line != [] { assert NodeOk(s, |s.line| - 1); }
    forall i | 0 <= i < |s'.line| ensures NodeOk(s', i) {
      if i < |s.line| { assert NodeOk(s, i); }
    }
  }

  lemma PublishTidy(s: State, s': State, t: nat)
    requires Inv(s) && t < |s.clients| && s.clients[t].pc.PushCas? && Mine(s, t, s.clients[t].pc.node)
    requires |s.mem.cells| == 1
    requires var PushCas(n, x) := s.clients[t].pc;
      && s' == Publish(s.(mem := s'.mem), t, n) && x == s.mem.cells[0].ptr
      && (forall a :: NextOf(s'.mem.links, a) == if a == n then x else NextOf(s.mem.links, a))
      && s'.mem.links == s.mem.links + Ptr.Sealed(x, n, true)
    ensures Tidy(s')
  {
    var PushCas(n, x) := s.clients[t].pc;
    TopIsShared(s);
    NextOfNone(s.mem.links, n);
    if x != 0 { OrderedAppend(s.mem.links, Ptr.Link(n, x)); } else { assert s'.mem.links == s.mem.links; }
    forall l | l in s'.mem.links ensures NextOf(s'.mem.links, l.from) == l.to && l.to in s'.place && !s'.place[l.to].Private? {
      if l in s.mem.links { assert l.from != n; }
    }
  }

  lemma UnlinkInv(s: State, s': State, t: nat)
    requires Inv(s) && t < |s.clients| && s.clients[t].pc.PopCas? && Reg.Deciding(s.mem.threads[t].pc)
    requires var PopCas(c, d) := s.clients[t].pc;
      Reg.Effect(s.mem, s'.mem, t, Ptr.Swapped(t, 0, c, d)) && s' == Unlink(s.(mem := s'.mem), t, c)
    requires Ptr.Inv(s'.mem) && s'.mem.blocks.Keys == s.mem.blocks.Keys && |s'.mem.cells| == |s.mem.cells|
    requires s'.mem.links == s.mem.links
    ensures s.line != [] && s.line[|s.line| - 1] == s.clients[t].pc.curr && NodeOk(s, |s.line| - 1)
    ensures Inv(s')
  {
    assert Remembers(s, t);
    var PopCas(c, d) := s.clients[t].pc;
    EventOfTop(s.mem, s'.mem, t, Asked(s.clients[t].pc), Ptr.Swapped(t, 0, c, d));
    UnlinkStacks(s, s', t);
    OthersOf(s.log, s'.log[|s.log|], t);
    MoveKeeps(s, s', t);
  }

  /** The node taken was the top, and its `next` the node below. */
  lemma UnlinkStacks(s: State, s': State, t: nat)
    requires Inv(s) && t < |s.clients| && s.clients[t].pc.PopCas? && Undecided(s, t)
    requires |s'.mem.cells| == 1 && s'.mem.blocks.Keys == s.mem.blocks.Keys && s'.mem.links == s.mem.links
    requires var PopCas(c, d) := s.clients[t].pc;
      s.mem.cells[0].ptr == c && s'.mem.cells[0].ptr == d && s' == Unlink(s.(mem := s'.mem), t, c)
    ensures s.line != [] && s.line[|s.line| - 1] == s.clients[t].pc.curr && NodeOk(s, |s.line| - 1)
    ensures Stacks(s')
  {
    assert NodeOk(s, |s.line| - 1);
    forall i | 0 <= i < |s'.line| ensures NodeOk(s', i) { assert NodeOk(s, i); }
  }

  // --- Refinement to a sequential stack

  datatype Replayed = Legal(items: seq<Item>) | Illegal

  /** A stack as the sequence of its values, the top last. */
  function Apply(r: Replayed, e: Event): Replayed {
    if r.Illegal? then Illegal else
    match e
    case Pushed(_, v) => Legal(r.items + [v])
    case Popped(_, v) => if r.items != [] && r.items[|r.items| - 1] == v then Legal(r.items[..|r.items| - 1]) else Illegal
    case SawEmpty(_) => if r.items == [] then r else Illegal
  }

  function Replay(log: seq<Event>): Replayed {
    if log == [] then Legal([]) else Apply(Replay(log[..|log| - 1]), log[|log| - 1])
  }

  lemma ReplayAppend(log: seq<Event>, e: Event)
    ensures Replay(log + [e]) == Apply(Replay(log), e)
  {
    assert (log + [e])[..|log|] == log;
  }

  predicate Pushing(pc: Pc) {
    pc.PushNew? || pc.PushLoad? || pc.PushCas? || pc.PushDrop?
  }

  /** The operation is under way and has not yet taken effect. */
  ghost predicate Pending(s: State, t: nat)
    requires t < |s.clients| && t < |s.mem.threads|
  {
    var th := s.mem.threads[t];
    match s.clients[t].pc
    case PushNew(_) => true
    case PushLoad(_) => true
    case PushCas(_, _) => Reg.Deciding(th.pc) || !LastAnswer(th).Exchanged?
    case PopLoad => Reg.Deciding(th.pc) || Found(th) != 0
    case PopNext(_) => true
    case PopCas(_, _) => Reg.Deciding(th.pc) || !LastAnswer(th).Exchanged?
    case PopDrop(r) => r.None?
    case _ => false
  }

  ghost predicate OnlyThread(s: State, s': State, t: nat) {
    && t < |s.clients| == |s'.clients| && |s.mem.threads| == |s'.mem.threads| == |s.clients|
    && (forall u :: 0 <= u < |s.clients| && u != t ==> s'.clients[u] == s.clients[u] && s'.mem.threads[u] == s.mem.threads[u])
  }

  /** Nothing takes effect. */
  ghost predicate Quiet(s: State, s': State, t: nat) {
    && OnlyThread(s, s', t) && s'.log == s.log && s'.items == s.items
    && s'.clients[t].calls == s.clients[t].calls && s'.clients[t].answers == s.clients[t].answers
    && (s'.clients[t].pc.Idle? <==> s.clients[t].pc.Idle?) && (Pushing(s'.clients[t].pc) <==> Pushing(s.clients[t].pc))
    && (Pending(s', t) <==> Pending(s, t))
  }

  /** The operation of thread `t` takes effect. */
  ghost predicate Happens(s: State, s': State, t: nat, e: Event) {
    && OnlyThread(s, s', t) && s'.clients == s.clients && s'.log == s.log + [e] && e.t == t
    && Apply(Legal(s.items), e) == Legal(s'.items)
    && Pending(s, t) && !Pending(s', t)
    && var pc, calls := s.clients[t].pc, s.clients[t].calls;
       if Pushing(pc) then e.Pushed? && calls != [] && Matches(calls[|calls| - 1], e) else !pc.Idle? && !e.Pushed?
  }

  /** A step inside an operation keeps the invariant, and at most takes effect. */
  ghost predicate Good(s: State, s': State, t: nat) {
    Inv(s') && (Quiet(s, s', t) || exists e :: Happens(s, s', t, e))
  }

  lemma PublishHappens(s: State, s': State, t: nat)
    requires Inv(s) && t < |s.clients| && s.clients[t].pc.PushCas? && Reg.Deciding(s.mem.threads[t].pc)
    requires var PushCas(n, x) := s.clients[t].pc;
      && Reg.Effect(s.mem, s'.mem, t, Ptr.Swapped(t, 0, x, n)) && s'.mem.links == s.mem.links + Ptr.Sealed(x, n, true)
      && s' == Publish(s.(mem := s'.mem), t, n)
    requires Ptr.Inv(s'.mem) && s'.mem.blocks.Keys == s.mem.blocks.Keys && |s'.mem.cells| == |s.mem.cells|
    ensures Good(s, s', t)
  {
    PublishInv(s, s', t);
    assert Remembers(s, t);
    assert Happens(s, s', t, Pushed(t, ValueAt(s, s.clients[t].pc.node)));
  }

  lemma UnlinkHappens(s: State, s': State, t: nat)
    requires Inv(s) && t < |s.clients| && s.clients[t].pc.PopCas? && Reg.Deciding(s.mem.threads[t].pc)
    requires var PopCas(c, d) := s.clients[t].pc;
      Reg.Effect(s.mem, s'.mem, t, Ptr.Swapped(t, 0, c, d)) && s' == Unlink(s.(mem := s'.mem), t, c)
    requires Ptr.Inv(s'.mem) && s'.mem.blocks.Keys == s.mem.blocks.Keys && |s'.mem.cells| == |s.mem.cells|
    requires s'.mem.links == s.mem.links
    ensures Good(s, s', t)
  {
    UnlinkInv(s, s', t);
    assert Happens(s, s', t, Popped(t, ValueAt(s, s.clients[t].pc.curr)));
  }

  lemma FoundIsQuiet(s: State, s': State, t: nat, e: Ptr.Event)
    requires OnlyThread(s, s', t) && s' == s.(mem := s'.mem) && Remembers(s, t) && Reg.Deciding(s.mem.threads[t].pc)
    requires LastAnswer(s'.mem.threads[t]) == Ptr.AnswerOf(e) && !Reg.Deciding(s'.mem.threads[t].pc)
    requires e.Loaded? || e.Failed?
    requires s.clients[t].pc.PopLoad? ==> e.ptr != 0
    ensures Quiet(s, s', t)
  {
    assert Found(s'.mem.threads[t]) == e.ptr;
  }

  lemma EmptyHappens(s: State, s': State, t: nat)
    requires Stacks(s) && OnlyThread(s, s', t) && s' == s.(mem := s'.mem, log := s.log + [SawEmpty(t)])
    requires s.clients[t].pc.PopLoad? && Reg.Deciding(s.mem.threads[t].pc) && s.mem.cells[0].ptr == 0
    requires LastAnswer(s'.mem.threads[t]) == Ptr.Got(0) && !Reg.Deciding(s'.mem.threads[t].pc)
    ensures Happens(s, s', t, SawEmpty(t))
  {
    assert s.line != [] ==> NodeOk(s, |s.line| - 1);
  }

  lemma FoundHappens(s: State, s': State, t: nat, e: Ptr.Event)
    requires Inv(s) && t < |s.clients| && s' == s.(mem := s'.mem, log := s'.log) && Ptr.Inv(s'.mem)
    requires Reg.Effect(s.mem, s'.mem, t, e) && !e.Swapped?
    requires s'.mem.links == s.mem.links && s'.mem.blocks.Keys == s.mem.blocks.Keys && |s'.mem.cells| == |s.mem.cells|
    requires s'.log == if s.clients[t].pc.PopLoad? && e.Loaded? && e.ptr == 0 then s.log + [SawEmpty(t)] else s.log
    ensures Good(s, s', t)
  {
    FoundInv(s, s', t, e);
    assert Remembers(s, t);
    EventOfTop(s.mem, s'.mem, t, Asked(s.clients[t].pc), e);
    if s.clients[t].pc.PopLoad? && e.ptr == 0 {
      EmptyHappens(s, s', t);
    } else {
      FoundIsQuiet(s, s', t, e);
    }
  }

  lemma SilentIsQuiet(s: State, s': State, t: nat)
    requires Inv(s) && t < |s.clients| && s' == s.(mem := s'.mem, values := s'.values, place := s'.place)
    requires Reg.Silent(s.mem, s'.mem, t)
    ensures Quiet(s, s', t)
  {
  }

  lemma SwungFollows(s: State, t: nat, flaky: bool, e: Ptr.Event)
    requires Inv(s) && t < |s.clients| && s.mem.threads[t].pc.Swing?
    requires Ptr.Inv(Ptr.TickStep(s.mem, t, flaky)) && Reg.Effect(s.mem, Ptr.TickStep(s.mem, t, flaky), t, e)
    ensures Good(s, Follow(s, s.(mem := Ptr.TickStep(s.mem, t, flaky)), t), t)
  {
    var m' := Ptr.TickStep(s.mem, t, flaky);
    var s' := Follow(s, s.(mem := m'), t);
    SwingFrame(s.mem, t, flaky);
    assert Remembers(s, t);
    assert m'.log[|s.mem.log|] == e;
    if s.clients[t].pc.PushCas? { PublishHappens(s, s', t); } else { UnlinkHappens(s, s', t); }
  }

  lemma EffectFollows(s: State, m': Ptr.State, t: nat, e: Ptr.Event)
    requires Inv(s) && t < |s.clients| && !s.mem.threads[t].pc.Delete? && Ptr.Inv(m')
    requires m'.blocks.Keys == s.mem.blocks.Keys && m'.links == s.mem.links && |m'.cells| == |s.mem.cells|
    requires Reg.Effect(s.mem, m', t, e) && !e.Swapped?
    ensures Good(s, Follow(s, s.(mem := m'), t), t)
  {
    assert m'.log[|s.mem.log|] == e;
    FoundHappens(s, Follow(s, s.(mem := m'), t), t, e);
  }

  lemma SilentFollows(s: State, t: nat, flaky: bool)
    requires Inv(s) && t < |s.clients| && !s.mem.threads[t].pc.Idle?
    requires Ptr.Inv(Ptr.TickStep(s.mem, t, flaky)) && Reg.Silent(s.mem, Ptr.TickStep(s.mem, t, flaky), t)
    ensures Good(s, Follow(s, s.(mem := Ptr.TickStep(s.mem, t, flaky)), t), t)
  {
    var m' := Ptr.TickStep(s.mem, t, flaky);
    var s' := Follow(s, s.(mem := m'), t);
    if s.mem.threads[t].pc.Delete? {
      DeleteFrame(s.mem, t, flaky);
      DeletedInv(s, s', t, s.mem.threads[t].pc.ptr);
    } else {
      if s.mem.threads[t].pc.Swing? { SwingFrame(s.mem, t, flaky); } else { OtherFrame(s.mem, t, flaky); }
      SilentInv(s, s', t);
    }
    SilentIsQuiet(s, s', t);
  }

  lemma OnlyOthersDelete(m: Ptr.State, m': Ptr.State, t: nat, e: Ptr.Event)
    requires Ptr.Inv(m) && t < |m.threads| && (exists flaky :: m' == Ptr.TickStep(m, t, flaky)) && Reg.Effect(m, m', t, e)
    ensures !m.threads[t].pc.Delete?
  {
    if m.threads[t].pc.Delete? {
      var flaky :| m' == Ptr.TickStep(m, t, flaky);
      DeleteFrame(m, t, flaky);
    }
  }

  lemma FollowGood(s: State, t: nat, flaky: bool)
    requires Inv(s) && t < |s.clients| && !s.mem.threads[t].pc.Idle? && Ptr.StampsFit(s.mem, Ptr.Tick(t, flaky))
    ensures Good(s, Follow(s, Ask(s, Ptr.Tick(t, flaky)), t), t)
  {
    Ptr.StepInv(s.mem, Ptr.Tick(t, flaky));
    Reg.TickShape(s.mem, t, flaky);
    var m' := Ptr.TickStep(s.mem, t, flaky);
    if Reg.Silent(s.mem, m', t) {
      SilentFollows(s, t, flaky);
    } else {
      var e :| Reg.Effect(s.mem, m', t, e);
      OnlyOthersDelete(s.mem, m', t, e);
      if s.mem.threads[t].pc.Swing? {
        SwungFollows(s, t, flaky, e);
      } else {
        OtherFrame(s.mem, t, flaky);
        assert m'.log[|s.mem.log|] == e;
        EffectFollows(s, m', t, e);
      }
    }
  }

  // --- Every step

  /** What one step does to the history of its client. */
  ghost predicate Answers(s: State, s': State, t: nat, a: Answer) {
    && OnlyThread(s, s', t) && s'.log == s.log && s'.items == s.items
    && s'.clients[t] == Client(Idle, s.clients[t].calls, s.clients[t].answers + [a])
    && !s.clients[t].pc.Idle? && !Pending(s, t)
    && (if Pushing(s.clients[t].pc) then a == Done else a.Gave? && LastIs(s.log, t, EventOf(t, PopCall, a)))
  }

  lemma CallPending(th: Ptr.Thread, m: Ptr.Action)
    requires m.CallCas? || m.CallLoad?
    ensures Reg.Deciding(Ptr.Called(th, m).pc)
  {
    if m.CallCas? { Reg.PassingServes(th, m); }
  }

  /** Where the answer of top_ is awaited. */
  predicate Asking(pc: Pc) {
    pc.PushLoad? || pc.PushCas? || pc.PopLoad? || pc.PopCas?
  }

  /** A call on the memory is not yet an effect: before it, the operation was pending exactly if it is
      after. */
  lemma AskIsQuiet(s: State, s': State, m: Ptr.Action, t: nat)
    requires Inv(s) && t < |s.clients| && Asks(s.mem, m, t) && !s.clients[t].pc.Idle?
    requires s' == s.(mem := Ptr.Step(s.mem, m), values := s'.values, place := s'.place, clients := s'.clients)
    requires exists pc :: s'.clients == s.clients[t := s.clients[t].(pc := pc)]
    requires Pushing(s'.clients[t].pc) == Pushing(s.clients[t].pc) && !s'.clients[t].pc.Idle?
    requires if m.Drop? then !s'.clients[t].pc.PopLoad? && Pending(s', t) == Pending(s, t)
             else Pending(s, t) && Asking(s'.clients[t].pc)
    ensures Quiet(s, s', t)
  {
    AskChanges(s.mem, m, t);
    if !m.Drop? { CallPending(s.mem.threads[t], m); }
  }

  lemma AdvancePushGood(s: State, t: nat)
    requires Inv(s) && t < |s.clients| && s.mem.threads[t].pc.Idle?
    requires var pc := s.clients[t].pc; (pc.PushNew? || pc.PushLoad? || pc.PushCas?)
    ensures Good(s, Advance(s, t), t)
  {
    AdvancePushInv(s, t);
    assert Settled(s, t) by { assert Remembers(s, t); }
    var th, pc, p := s.mem.threads[t], s.clients[t].pc, Found(s.mem.threads[t]);
    if pc.PushNew? {
      AskLoadInv(s, t, PushLoad(pc.node));
      AskIsQuiet(s, Advance(s, t), Ptr.CallLoad(t, 0), t);
    } else if pc.PushCas? && LastAnswer(th).Exchanged? {
      AskDropInv(s, t, pc.node, PushDrop);
      AskIsQuiet(s, Advance(s, t), Ptr.Drop(t, pc.node), t);
    } else {
      TryPublishInv(s, t, pc.node, p);
      AskIsQuiet(s, Advance(s, t), Ptr.CallCas(t, 0, p, pc.node, true, true), t);
    }
  }

  lemma PopNextGood(s: State, t: nat)
    requires Inv(s) && t < |s.clients| && s.mem.threads[t].pc.Idle? && s.clients[t].pc.PopNext?
    ensures Quiet(s, Advance(s, t), t)
  {
    var c := s.clients[t].pc.curr;
    PopNextInv(s, t);
    AskIsQuiet(s, Advance(s, t), Ptr.CallCas(t, 0, c, NextOf(s.mem.links, c), true, false), t);
  }

  lemma PopReadGood(s: State, t: nat)
    requires Inv(s) && t < |s.clients| && s.mem.threads[t].pc.Idle? && s.clients[t].pc.PopRead?
    ensures Quiet(s, Advance(s, t), t)
  {
    PopReadInv(s, t);
    AskIsQuiet(s, Advance(s, t), Ptr.Drop(t, s.clients[t].pc.curr), t);
  }

  lemma PopCasGood(s: State, t: nat)
    requires Inv(s) && t < |s.clients| && s.mem.threads[t].pc.Idle? && s.clients[t].pc.PopCas?
    ensures Quiet(s, Advance(s, t), t)
  {
    assert Settled(s, t) by { assert Remembers(s, t); }
    if !LastAnswer(s.mem.threads[t]).Exchanged? {
      AskDropInv(s, t, Found(s.mem.threads[t]), PopDrop(None));
      AskIsQuiet(s, Advance(s, t), Ptr.Drop(t, Found(s.mem.threads[t])), t);
    }
  }

  lemma PopRetryGood(s: State, t: nat)
    requires Inv(s) && t < |s.clients| && s.mem.threads[t].pc.Idle? && (s.clients[t].pc.PopLoad? || s.clients[t].pc.PopDrop?)
    ensures Quiet(s, Advance(s, t), t)
  {
    if s.clients[t].pc == PopDrop(None) {
      AskLoadInv(s, t, PopLoad);
      AskIsQuiet(s, Advance(s, t), Ptr.CallLoad(t, 0), t);
    }
  }

  lemma AdvancePopGood(s: State, t: nat)
    requires Inv(s) && t < |s.clients| && s.mem.threads[t].pc.Idle?
    requires var pc := s.clients[t].pc; (pc.PopLoad? || pc.PopNext? || pc.PopCas? || pc.PopRead? || pc.PopDrop?)
    ensures Good(s, Advance(s, t), t)
  {
    AdvancePopInv(s, t);
    var pc := s.clients[t].pc;
    if pc.PopNext? {
      PopNextGood(s, t);
    } else if pc.PopCas? {
      PopCasGood(s, t);
    } else if pc.PopRead? {
      PopReadGood(s, t);
    } else {
      PopRetryGood(s, t);
    }
  }

  /** The three kinds of steps. */
  ghost predicate Begins(s: State, s': State, t: nat, c: Call) {
    && OnlyThread(s, s', t) && s'.log == s.log && s'.items == s.items && s.clients[t].pc.Idle? && !s'.clients[t].pc.Idle?
    && s'.clients[t].calls == s.clients[t].calls + [c] && s'.clients[t].answers == s.clients[t].answers
    && Pending(s', t) && (Pushing(s'.clients[t].pc) <==> c.PushCall?)
  }

  /** The call that thread `t` begins with this action, if it begins one. */
  ghost function Begun(s: State, a: Action, t: nat): seq<Call> {
    if a.t != t || t >= |s.clients| || t >= |s.mem.threads| || !s.clients[t].pc.Idle? || !s.mem.threads[t].pc.Idle? then []
    else if a.CallPop? then [PopCall]
    else if a.CallPush? && a.addr != 0 && a.addr !in s.mem.blocks then [PushCall(a.value)]
    else []
  }

  /** Inside an operation, at its return, at its beginning, or nothing at all. */
  ghost predicate Proceeds(s: State, s': State, a: Action) {
    && Inv(s')
    && if Begun(s, a, a.t) != [] then Begins(s, s', a.t, Begun(s, a, a.t)[0])
       else s' == s || Good(s, s', a.t) || exists b :: Answers(s, s', a.t, b)
  }

  lemma CallProceeds(s: State, a: Action)
    requires Inv(s) && a.t < |s.clients| && (a.CallPush? || a.CallPop?) && Begun(s, a, a.t) != []
    ensures Inv(Step(s, a)) && Begins(s, Step(s, a), a.t, Begun(s, a, a.t)[0])
  {
    if a.CallPush? {
      CallPushInv(s, a.t, a.value, a.addr);
      MakeChanges(s.mem, a.t, a.addr);
    } else {
      CallPopInv(s, a.t);
      AskChanges(s.mem, Ptr.CallLoad(a.t, 0), a.t);
      CallPending(s.mem.threads[a.t], Ptr.CallLoad(a.t, 0));
    }
  }

  lemma ReturnProceeds(s: State, t: nat)
    requires Inv(s) && t < |s.clients|
    ensures s.clients[t].pc.Returned? ==>
      Inv(Step(s, Collect(t))) && Answers(s, Step(s, Collect(t)), t, Gave(s.clients[t].pc.result))
    ensures s.clients[t].pc.PushDrop? && s.mem.threads[t].pc.Idle? ==> Inv(Advance(s, t)) && Answers(s, Advance(s, t), t, Done)
  {
    if s.clients[t].pc.Returned? {
      CollectInv(s, t);
      assert Remembers(s, t);
    } else if s.clients[t].pc.PushDrop? && s.mem.threads[t].pc.Idle? {
      AdvancePushInv(s, t);
    }
  }

  lemma GoProceeds(s: State, t: nat, flaky: bool)
    requires Inv(s) && Fits(s, Go(t, flaky)) && t < |s.clients|
    ensures Proceeds(s, Step(s, Go(t, flaky)), Go(t, flaky))
  {
    var pc := s.clients[t].pc;
    if !s.mem.threads[t].pc.Idle? {
      FollowGood(s, t, flaky);
    } else if pc.PushDrop? {
      ReturnProceeds(s, t);
    } else if Pushing(pc) {
      AdvancePushGood(s, t);
    } else if !pc.Idle? && !pc.Returned? {
      AdvancePopGood(s, t);
    }
  }

  lemma StepProceeds(s: State, a: Action)
    requires Inv(s) && Fits(s, a)
    ensures Proceeds(s, Step(s, a), a)
  {
    if a.t < |s.clients| {
      if a.Go? {
        GoProceeds(s, a.t, a.flaky);
      } else if a.Collect? {
        ReturnProceeds(s, a.t);
      } else if Begun(s, a, a.t) != [] {
        CallProceeds(s, a);
      }
    }
  }

  // --- Each operation takes effect exactly once

  /** The events of thread `t` are its calls, and its answers are those of its events. */
  ghost predicate CountedAt(s: State, t: nat)
    requires t < |s.clients| && t < |s.mem.threads|
  {
    var c := s.clients[t];
    && Accounted(s.log, t, c.calls, c.answers, Pending(s, t))
    && |c.answers| + (if c.pc.Idle? then 0 else 1) == |c.calls|
    && (!c.pc.Idle? ==> c.calls[|c.calls| - 1].PushCall? == Pushing(c.pc))
  }

  ghost predicate Recorded(s: State) {
    && |s.clients| == |s.mem.threads| && Replay(s.log) == Legal(s.items)
    && forall t :: 0 <= t < |s.clients| ==> CountedAt(s, t)
  }

  lemma QuietKeeps(s: State, s': State, t: nat)
    requires Recorded(s) && Quiet(s, s', t)
    ensures Recorded(s')
  {
    forall u | 0 <= u < |s'.clients| ensures CountedAt(s', u) { assert CountedAt(s, u); }
  }

  lemma EventCounts(s: State, s': State, t: nat, e: Event, u: nat)
    requires Recorded(s) && Happens(s, s', t, e) && u < |s'.clients| == |s'.mem.threads|
    ensures CountedAt(s', u)
  {
    assert CountedAt(s, u);
    var c := s.clients[u];
    if u != t {
      AccountedOther(s.log, e, u, c.calls, c.answers, Pending(s, u));
    } else {
      AccountedEffect(s.log, e, u, c.calls, c.answers);
    }
  }

  lemma EventKeeps(s: State, s': State, t: nat, e: Event)
    requires Recorded(s) && Happens(s, s', t, e)
    ensures Recorded(s')
  {
    ReplayAppend(s.log, e);
    forall u | 0 <= u < |s'.clients| ensures CountedAt(s', u) { EventCounts(s, s', t, e, u); }
  }

  lemma AnswerKeeps(s: State, s': State, t: nat, a: Answer)
    requires Recorded(s) && Answers(s, s', t, a)
    ensures Recorded(s')
  {
    forall u | 0 <= u < |s'.clients| ensures CountedAt(s', u) {
      assert CountedAt(s, u);
      if u == t { AccountedReturn(s.log, t, s.clients[t].calls, s.clients[t].answers, a); }
    }
  }

  lemma BeginKeeps(s: State, s': State, t: nat, c: Call)
    requires Recorded(s) && Begins(s, s', t, c)
    ensures Recorded(s')
  {
    forall u | 0 <= u < |s'.clients| ensures CountedAt(s', u) {
      assert CountedAt(s, u);
      if u == t { AccountedCall(s.log, t, s.clients[t].calls, s.clients[t].answers, c); }
    }
  }

  lemma StepInv(s: State, a: Action)
    requires Inv(s) && Fits(s, a) && Recorded(s)
    ensures Inv(Step(s, a)) && Recorded(Step(s, a)) && |Step(s, a).clients| == |s.clients|
    ensures forall t :: 0 <= t < |s.clients| ==> Step(s, a).clients[t].calls == s.clients[t].calls + Begun(s, a, t)
  {
    StepProceeds(s, a);
    var s' := Step(s, a);
    if s' == s {
    } else if Quiet(s, s', a.t) {
      QuietKeeps(s, s', a.t);
    } else if exists e :: Happens(s, s', a.t, e) {
      var e :| Happens(s, s', a.t, e);
      EventKeeps(s, s', a.t, e);
    } else if exists b :: Answers(s, s', a.t, b) {
      var b :| Answers(s, s', a.t, b);
      AnswerKeeps(s, s', a.t, b);
    } else {
      BeginKeeps(s, s', a.t, Begun(s, a, a.t)[0]);
    }
  }

  // --- Every run

  lemma {:induction false} RunKeeps(s: State, actions: seq<Action>)
    requires Inv(s) && Recorded(s) && AllFit(s, actions)
    ensures Inv(Run(s, actions)) && Recorded(Run(s, actions)) && |Run(s, actions).clients| == |s.clients|
    decreases |actions|
  {
    if actions != [] {
      StepInv(s, actions[0]);
      RunKeeps(Step(s, actions[0]), actions[1..]);
    }
  }

  lemma InitKeeps(n: nat)
    ensures Inv(Init(n)) && Recorded(Init(n))
  {
    Ptr.InitInv(n, 1);
  }

  /** The calls that the client makes from thread `t` in a run. */
  ghost function Calls(s: State, actions: seq<Action>, t: nat): seq<Call>
    decreases |actions|
  {
    if actions == [] then [] else Begun(s, actions[0], t) + Calls(Step(s, actions[0]), actions[1..], t)
  }

  /** What a run from `s` has made of the calls of thread `t`. */
  ghost predicate Called(s: State, actions: seq<Action>, end: State, t: nat)
    requires t < |s.clients|
  {
    |end.clients| == |s.clients| && end.clients[t].calls == s.clients[t].calls + Calls(s, actions, t)
  }

  lemma {:induction false} RunCalls(s: State, actions: seq<Action>, t: nat)
    requires Inv(s) && Recorded(s) && AllFit(s, actions) && t < |s.clients|
    ensures Called(s, actions, Run(s, actions), t)
    decreases |actions|
  {
    if actions != [] {
      var s' := Step(s, actions[0]);
      StepInv(s, actions[0]);
      RunCalls(s', actions[1..], t);
      CalledFirst(s, actions, s', Run(s', actions[1..]), t);
    }
  }

  lemma CalledFirst(s: State, actions: seq<Action>, s': State, end: State, t: nat)
    requires actions != [] && s' == Step(s, actions[0]) && t < |s.clients| == |s'.clients|
    requires s'.clients[t].calls == s.clients[t].calls + Begun(s, actions[0], t) && Called(s', actions[1..], end, t)
    ensures Called(s, actions, end, t)
  {
    CallsUnfolds(s, actions, s', t, s.clients[t].calls);
  }

  lemma CallsUnfolds(s: State, actions: seq<Action>, s': State, t: nat, calls: seq<Call>)
    requires actions != [] && s' == Step(s, actions[0])
    ensures calls + Calls(s, actions, t) == (calls + Begun(s, actions[0], t)) + Calls(s', actions[1..], t)
  {
    var begun, rest := Begun(s, actions[0], t), Calls(s', actions[1..], t);
    assert (calls + begun) + rest == calls + (begun + rest);
  }

  /** What thread `t` asked and was answered is what its events say. */
  ghost predicate HistoryOf(s: State, t: nat, asked: seq<Call>)
    requires t < |s.clients| && t < |s.mem.threads|
  {
    var c := s.clients[t];
    && Accounted(s.log, t, asked, c.answers, Pending(s, t))
    && |c.answers| + (if c.pc.Idle? then 0 else 1) == |asked|
    && (c.pc.Returned? ==> LastIs(s.log, t, EventOf(t, PopCall, Gave(c.pc.result))))
  }

  lemma HistoriesHold(s: State, actions: seq<Action>, s': State)
    requires Inv(s) && Recorded(s) && AllFit(s, actions) && s' == Run(s, actions)
    requires forall t :: 0 <= t < |s.clients| ==> s.clients[t].calls == []
    ensures Inv(s') && Recorded(s') && |s'.clients| == |s.clients|
    ensures forall t :: 0 <= t < |s'.clients| ==> HistoryOf(s', t, Calls(s, actions, t))
  {
    RunKeeps(s, actions);
    forall t | 0 <= t < |s'.clients| ensures HistoryOf(s', t, Calls(s, actions, t)) {
      RunCalls(s, actions, t);
      assert CountedAt(s', t) && Remembers(s', t);
    }
  }

  /** Reading the nodes from `p` on along their next references, down to null, yields these nodes and values
      (from the bottom up), and all are allocated. */
  ghost predicate Reads(s: State, p: nat, nodes: seq<nat>, items: seq<Item>)
    decreases |nodes|
  {
    if nodes == [] || items == [] then p == 0 && nodes == [] && items == []
    else
      && p != 0 && p == nodes[|nodes| - 1] && p in s.mem.blocks && p in s.values && s.values[p] == Some(items[|items| - 1])
      && Reads(s, NextOf(s.mem.links, p), ButLast(nodes), ButLast(items))
  }

  lemma {:induction false} LineReads(s: State, k: nat)
    requires Stacks(s) && k <= |s.line|
    ensures Reads(s, Below(s.line, k), s.line[..k], s.items[..k])
  {
    if k > 0 {
      assert NodeOk(s, k - 1);
      assert ButLast(s.line[..k]) == s.line[..k - 1] && ButLast(s.items[..k]) == s.items[..k - 1];
      LineReads(s, k - 1);
    }
  }

  lemma TopReads(s: State)
    requires Stacks(s)
    ensures |s.mem.cells| == 1 && Reads(s, s.mem.cells[0].ptr, s.line, s.items)
  {
    LineReads(s, |s.line|);
    assert s.line[..|s.line|] == s.line && s.items[..|s.line|] == s.items;
  }

  /** In every run whose stamps fit: no access misses its node or its value, although nodes are deleted
      and their addresses used again whenever their counts say so; the log of linearization points is a
      legal LIFO history that leaves exactly the values to be read from top_ along next. The events of each thread are, one by
      one, the calls that the client made from it, with the values passed to Push, up to the call still
      pending; and what each TryPop answered is what its event recorded. */
  lemma Linearizable(n: nat, actions: seq<Action>)
    requires AllFit(Init(n), actions)
    ensures var s := Run(Init(n), actions);
      && !s.fault && !s.mem.fault && Replay(s.log) == Legal(s.items)
      && |s.mem.cells| == 1 && Reads(s, s.mem.cells[0].ptr, s.line, s.items)
      && |s.clients| == |s.mem.threads| == n && forall t :: 0 <= t < n ==> HistoryOf(s, t, Calls(Init(n), actions, t))
  {
    InitKeeps(n);
    HistoriesHold(Init(n), actions, Run(Init(n), actions));
    TopReads(Run(Init(n), actions));
  }

  // --- The memory of the stack is a memory of module SharedPointers, used as it asks

  /** What a step of the stack does with the memory. */
  ghost function Uses(s: State, a: Action): seq<Ptr.Action> {
    if a.t >= |s.clients| || a.t >= |s.mem.threads| then []
    else if a.Go? && !s.mem.threads[a.t].pc.Idle? then [Ptr.Tick(a.t, a.flaky)]
    else if a.Go? then Requests(s, a.t)
    else if Begun(s, a, a.t) == [] then []
    else if a.CallPush? then [Ptr.Make(a.t, a.addr)] else [Ptr.CallLoad(a.t, 0)]
  }

  ghost function Requests(s: State, t: nat): seq<Ptr.Action>
    requires t < |s.clients| && t < |s.mem.threads|
  {
    var last, p := LastAnswer(s.mem.threads[t]), Found(s.mem.threads[t]);
    match s.clients[t].pc
    case PushNew(_) => [Ptr.CallLoad(t, 0)]
    case PushLoad(n) => [Ptr.CallCas(t, 0, p, n, true, true)]
    case PushCas(n, _) => if last.Exchanged? then [Ptr.Drop(t, n)] else [Ptr.CallCas(t, 0, p, n, true, true)]
    case PopNext(c) =>
      if c in s.mem.blocks then [Ptr.CallCas(t, 0, c, NextOf(s.mem.links, c), true, false)] else []
    case PopCas(_, _) => if last.Exchanged? then [] else [Ptr.Drop(t, p)]
    case PopRead(c) => if c in s.mem.blocks && c in s.values && s.values[c].Some? then [Ptr.Drop(t, c)] else []
    case PopDrop(None) => [Ptr.CallLoad(t, 0)]
    case _ => []
  }

  ghost function AllUses(s: State, actions: seq<Action>): seq<Ptr.Action>
    decreases |actions|
  {
    if actions == [] then [] else Uses(s, actions[0]) + AllUses(Step(s, actions[0]), actions[1..])
  }

  /** Everything the stack asks for applies, and CompareExchangeWeak is called as SharedPointers wants. */
  ghost predicate Proper(mem: Ptr.State, uses: seq<Ptr.Action>, mem': Ptr.State) {
    if uses == [] then mem' == mem
    else
      && |uses| == 1 && mem' == Ptr.Step(mem, uses[0]) && Ptr.Fits(mem, uses[0]) && uses[0].t < |mem.threads|
      && (!uses[0].Tick? ==> mem.threads[uses[0].t].pc.Idle? && Ptr.Applies(mem, uses[0]))
  }

  lemma PushRequestsAreProper(s: State, t: nat)
    requires Inv(s) && t < |s.clients| && s.mem.threads[t].pc.Idle? && Pushing(s.clients[t].pc)
    ensures Proper(s.mem, Requests(s, t), Advance(s, t).mem)
  {
    assert Settled(s, t) by { assert Remembers(s, t); }
    var pc, p := s.clients[t].pc, Found(s.mem.threads[t]);
    if pc.PushLoad? || (pc.PushCas? && !LastAnswer(s.mem.threads[t]).Exchanged?) { TryPublishInv(s, t, pc.node, p); }
  }

  lemma PopRequestsAreProper(s: State, t: nat)
    requires Inv(s) && t < |s.clients| && s.mem.threads[t].pc.Idle? && !Pushing(s.clients[t].pc)
    ensures Proper(s.mem, Requests(s, t), Advance(s, t).mem)
  {
    var pc := s.clients[t].pc;
    if pc.PopNext? {
      PopNextInv(s, t);
    } else if pc.PopRead? {
      PopReadInv(s, t);
    } else {
      assert Settled(s, t) by { assert Remembers(s, t); }
    }
  }

  lemma RequestsAreProper(s: State, t: nat)
    requires Inv(s) && t < |s.clients| && s.mem.threads[t].pc.Idle?
    ensures Proper(s.mem, Requests(s, t), Advance(s, t).mem)
  {
    if Pushing(s.clients[t].pc) { PushRequestsAreProper(s, t); } else { PopRequestsAreProper(s, t); }
  }

  lemma UsesAreProper(s: State, a: Action)
    requires Inv(s) && Fits(s, a)
    ensures Proper(s.mem, Uses(s, a), Step(s, a).mem)
  {
    if a.t < |s.clients| && a.Go? && s.mem.threads[a.t].pc.Idle? { RequestsAreProper(s, a.t); }
  }

  lemma ProperRun(mem: Ptr.State, uses: seq<Ptr.Action>, mem': Ptr.State, rest: seq<Ptr.Action>)
    requires Proper(mem, uses, mem')
    ensures Ptr.Run(mem, uses + rest) == Ptr.Run(mem', rest)
    ensures Ptr.AllFit(mem, uses + rest) <==> Ptr.AllFit(mem', rest)
  {
    if uses == [] {
      assert uses + rest == rest;
    } else {
      assert (uses + rest)[0] == uses[0] && (uses + rest)[1..] == rest;
    }
  }

  lemma {:induction false} UsesRun(s: State, actions: seq<Action>)
    requires Inv(s) && Recorded(s) && AllFit(s, actions)
    ensures Run(s, actions).mem == Ptr.Run(s.mem, AllUses(s, actions)) && Ptr.AllFit(s.mem, AllUses(s, actions))
    decreases |actions|
  {
    if actions != [] {
      var s' := Step(s, actions[0]);
      UsesAreProper(s, actions[0]);
      StepInv(s, actions[0]);
      UsesRun(s', actions[1..]);
      ProperRun(s.mem, Uses(s, actions[0]), s'.mem, AllUses(s', actions[1..]));
    }
  }

  /** In every run whose stamps fit, the memory of the stack is what a run of module SharedPointers
      leaves, and that run fits: at every CompareExchangeWeak the caller keeps a reference to `desired`
      (in Push) or to a node whose data hold one (in TryPop). All that is proved there of runs that fit
      (conservation, reclamation, registers) so holds of the stack's memory. */
  lemma MemoryIsUsedProperly(n: nat, actions: seq<Action>)
    requires AllFit(Init(n), actions)
    ensures var uses := AllUses(Init(n), actions);
      Run(Init(n), actions).mem == Ptr.Run(Ptr.Init(n, 1), uses) && Ptr.AllFit(Ptr.Init(n, 1), uses)
  {
    InitKeeps(n);
    UsesRun(Init(n), actions);
  }

  // --- Nothing leaks

  ghost predicate AtRest(s: State) {
    forall t :: 0 <= t < |s.clients| ==> s.clients[t].pc.Idle? || s.clients[t].pc.Returned?
  }

  lemma RestingMemory(s: State, b: nat)
    requires Inv(s) && AtRest(s) && b in s.mem.blocks
    ensures s.mem.cells[0].ptr == b || exists l :: l in s.mem.links && l.to == b
  {
    forall t | 0 <= t < |s.mem.threads| ensures s.mem.threads[t].pc.Idle? && Ptr.HandlesFn(b)(s.mem.threads[t]) == 0 {
      assert Remembers(s, t);
    }
    Ptr.QuietBlock(s.mem, b);
    SumAllZero(s.mem.threads, Ptr.HandlesFn(b));
    if s.mem.cells[0].ptr != b { SumAllZero(s.mem.cells, Ptr.CellFn(b)); }
    if forall l :: l in s.mem.links ==> l.to != b { Ptr.NoLinks(s.mem.links, b); }
  }

  ghost predicate OnLine(s: State, a: nat) {
    a in s.line
  }

  lemma TopOnLine(s: State, a: nat)
    requires Stacks(s) && a != 0 && s.mem.cells[0].ptr == a
    ensures OnLine(s, a)
  {
    assert s.line[|s.line| - 1] == a;
  }

  lemma BelowOnLine(s: State, l: Ptr.Link)
    requires Inv(s) && l in s.mem.links && OnLine(s, l.from)
    ensures OnLine(s, l.to)
  {
    var i :| 0 <= i < |s.line| && s.line[i] == l.from;
    assert NodeOk(s, i);
    assert Ptr.LinksOk(s.mem);
  }

  /** From the youngest link on: the node that links is referred to by top_ or by a younger link. */
  lemma {:induction false} LinkersOnLine(s: State, k: nat)
    requires Inv(s) && AtRest(s) && k <= |s.mem.links|
    ensures forall i :: k <= i < |s.mem.links| ==> OnLine(s, s.mem.links[i].from)
    decreases |s.mem.links| - k
  {
    if k < |s.mem.links| {
      LinkersOnLine(s, k + 1);
      var a := s.mem.links[k].from;
      assert Ptr.LinksOk(s.mem) && s.mem.links[k] in s.mem.links;
      RestingMemory(s, a);
      if s.mem.cells[0].ptr == a {
        TopOnLine(s, a);
      } else {
        var l :| l in s.mem.links && l.to == a;
        var j :| 0 <= j < |s.mem.links| && s.mem.links[j] == l;
        YoungerLinks(s.mem.links, j, k);
        BelowOnLine(s, l);
      }
    }
  }

  lemma {:induction false} YoungerLinks(links: seq<Ptr.Link>, j: nat, k: nat)
    requires Ordered(links) && j < |links| && k < |links| && links[j].to == links[k].from
    ensures k < j
  {
    assert links[k] in links;
    if j > 0 && k > 0 { YoungerLinks(links[1..], j - 1, k - 1); }
  }

  lemma RestingNodes(s: State)
    requires Inv(s) && AtRest(s)
    ensures s.mem.blocks.Keys == (set a | a in s.line)
  {
    LinkersOnLine(s, 0);
    forall b | b in s.mem.blocks ensures b in s.line {
      RestingMemory(s, b);
      if s.mem.cells[0].ptr == b {
        TopOnLine(s, b);
      } else {
        var l :| l in s.mem.links && l.to == b;
        BelowOnLine(s, l);
      }
    }
    forall a | a in s.line ensures a in s.mem.blocks {
      var i :| 0 <= i < |s.line| && s.line[i] == a;
      assert NodeOk(s, i);
    }
  }

  /** When no operation is under way, exactly the nodes to be read from top_ along next are allocated: every
      popped node has been deleted, by the counts alone. */
  lemma QuietStackOwnsTheMemory(n: nat, actions: seq<Action>)
    requires AllFit(Init(n), actions) && AtRest(Run(Init(n), actions))
    ensures var s := Run(Init(n), actions);
      && s.mem.blocks.Keys == (set a | a in s.line)
      && |s.mem.cells| == 1 && Reads(s, s.mem.cells[0].ptr, s.line, s.items)
  {
    InitKeeps(n);
    RunKeeps(Init(n), actions);
    RestingNodes(Run(Init(n), actions));
    TopReads(Run(Init(n), actions));
  }

  // --- The stack object

  class LockFreeStack {
    const mem: Objects.AtomicSharedPtrs
    var values: map<nat, Option<Item>>
    var clients: seq<Client>
    // auxiliary
    var line: seq<nat>
    var items: seq<Item>
    var place: map<nat, Place>
    var log: seq<Event>

    ghost function View(): State reads this, mem {
      State(mem.View(), values, clients, false, line, items, place, log)
    }

    constructor (n: nat)
      ensures fresh(mem) && View() == Init(n) && Inv(View()) && Recorded(View())
    {
      mem := new Objects.AtomicSharedPtrs(n, 1);
      values, clients := map[], seq(n, _ => Client(Idle, [], []));
      line, items, place, log := [], [], map[], [];
      new;
      InitKeeps(n);
    }

    method MoveTo(t: nat, pc: Pc)
      requires t < |clients|
      modifies this`clients
      ensures View() == Goto(old(View()), t, pc)
    {
      clients := clients[t := clients[t].(pc := pc)];
    }

    method Leave(t: nat, answer: Answer)
      requires t < |clients|
      modifies this`clients
      ensures View() == Finish(old(View()), t, answer)
    {
      clients := clients[t := Client(Idle, clients[t].calls, clients[t].answers + [answer])];
    }

    /** Asking something of the memory, and going to where its return is awaited. */
    method Request(t: nat, m: Ptr.Action, pc: Pc)
      requires t < |clients| && Ptr.Inv(mem.View()) && Ptr.Fits(mem.View(), m)
      modifies mem, this`clients
      ensures View() == Goto(Ask(old(View()), m), t, pc) && Ptr.Inv(mem.View())
    {
      mem.Perform(m);
      MoveTo(t, pc);
    }

    /** What Push does next when its last operation on the memory has returned. */
    method Push(t: nat)
      requires Inv(View()) && t < |clients| && Pushing(clients[t].pc) && mem.threads[t].pc.Idle?
      modifies this, mem
      ensures View() == Advance(old(View()), t) && Inv(View())
    {
      AdvancePushInv(View(), t);
      RequestsAreProper(View(), t);
      var pc, last, p := clients[t].pc, LastAnswer(mem.threads[t]), Found(mem.threads[t]);
      if pc.PushNew? {
        Request(t, Ptr.CallLoad(t, 0), PushLoad(pc.node));
      } else if pc.PushDrop? {
        Leave(t, Done);
      } else if pc.PushCas? && last.Exchanged? {
        Request(t, Ptr.Drop(t, pc.node), PushDrop);
      } else {
        Request(t, Ptr.CallCas(t, 0, p, pc.node, true, true), PushCas(pc.node, p));
      }
    }

    /** What TryPop does next when its last operation on the memory has returned. */
    method TryPop(t: nat)
      requires Inv(View()) && t < |clients| && mem.threads[t].pc.Idle?
      requires !Pushing(clients[t].pc) && !clients[t].pc.Idle? && !clients[t].pc.Returned?
      modifies this, mem
      ensures View() == Advance(old(View()), t) && Inv(View())
    {
      AdvancePopInv(View(), t);
      RequestsAreProper(View(), t);
      var pc, last, p := clients[t].pc, LastAnswer(mem.threads[t]), Found(mem.threads[t]);
      if pc.PopLoad? {
        MoveTo(t, if p == 0 then Returned(None) else PopNext(p));
      } else if pc.PopNext? {
        ReadNext(t, pc.curr);
      } else if pc.PopCas? {
        if last.Exchanged? { MoveTo(t, PopRead(pc.curr)); } else { Request(t, Ptr.Drop(t, p), PopDrop(None)); }
      } else if pc.PopRead? {
        MoveOut(t, pc.curr);
      } else if pc.result.None? {
        Request(t, Ptr.CallLoad(t, 0), PopLoad);
      } else {
        MoveTo(t, Returned(pc.result));
      }
    }

    method ReadNext(t: nat, c: nat)
      requires Inv(View()) && t < |clients| && mem.threads[t].pc.Idle? && clients[t].pc == PopNext(c)
      modifies this, mem
      ensures View() == Advance(old(View()), t)
    {
      PopNextInv(View(), t);
      var d := NextOf(mem.links, c);
      Request(t, Ptr.CallCas(t, 0, c, d, true, false), PopCas(c, d));
    }

    /** The value is there, and is taken once. */
    method MoveOut(t: nat, c: nat)
      requires Inv(View()) && t < |clients| && mem.threads[t].pc.Idle? && clients[t].pc == PopRead(c)
      modifies this, mem
      ensures View() == Advance(old(View()), t)
      ensures c in old(values) && old(values)[c].Some? && values == old(values)[c := None]
    {
      PopReadInv(View(), t);
      var v := values[c];
      values, place := values[c := None], place[c := Spent];
      Request(t, Ptr.Drop(t, c), PopDrop(v));
    }

    /** One access of the operation that the thread is in. */
    method Access(t: nat, flaky: bool)
      requires Inv(View()) && t < |clients| && !mem.threads[t].pc.Idle? && Ptr.StampsFit(mem.View(), Ptr.Tick(t, flaky))
      modifies this, mem
      ensures View() == Follow(old(View()), Ask(old(View()), Ptr.Tick(t, flaky)), t) && Inv(View())
    {
      FollowGood(View(), t, flaky);
      var pc, before := mem.threads[t].pc, |mem.log|;
      mem.Perform(Ptr.Tick(t, flaky));
      if pc.Delete? {
        values, place := values - {pc.ptr}, place - {pc.ptr};
      } else if |mem.log| > before {
        Note(t, mem.log[before]);
      }
    }

    /** Auxiliary: what happened in the memory is an effect of the client's operation. */
    method Note(t: nat, e: Ptr.Event)
      requires t < |clients|
      modifies this`line, this`items, this`place, this`log
      ensures View() == match clients[t].pc
                        case PushCas(n, _) => if e.Swapped? then Publish(old(View()), t, n) else old(View())
                        case PopLoad => if e.Loaded? && e.ptr == 0 then old(View()).(log := old(log) + [SawEmpty(t)]) else old(View())
                        case PopCas(c, _) => if e.Swapped? then Unlink(old(View()), t, c) else old(View())
                        case _ => old(View())
    {
      var pc := clients[t].pc;
      if pc.PushCas? && e.Swapped? {
        var v := if pc.node in values && values[pc.node].Some? then values[pc.node].value else 0;
        place := place[pc.node := Stacked(|line|)];
        line, items, log := line + [pc.node], items + [v], log + [Pushed(t, v)];
      } else if pc.PopLoad? && e.Loaded? && e.ptr == 0 {
        log := log + [SawEmpty(t)];
      } else if pc.PopCas? && e.Swapped? {
        var v := if pc.curr in values && values[pc.curr].Some? then values[pc.curr].value else 0;
        line, items, place, log := ButLast(line), ButLast(items), place[pc.curr := Won(t)], log + [Popped(t, v)];
      }
    }

    /** A call begins, with the new node made for a Push. */
    method Call(a: Action)
      requires Inv(View()) && a.t < |clients| && (a.CallPush? || a.CallPop?) && Begun(View(), a, a.t) != []
      modifies this, mem
      ensures View() == Step(old(View()), a)
    {
      var c := clients[a.t];
      if a.CallPush? {
        MakeChanges(mem.View(), a.t, a.addr);
        mem.Perform(Ptr.Make(a.t, a.addr));
        values, place := values[a.addr := Some(a.value)], place[a.addr := Private(a.t)];
        clients := clients[a.t := Client(PushNew(a.addr), c.calls + [PushCall(a.value)], c.answers)];
      } else {
        mem.Perform(Ptr.CallLoad(a.t, 0));
        clients := clients[a.t := Client(PopLoad, c.calls + [PopCall], c.answers)];
      }
    }

    method Perform(a: Action)
      requires Inv(View()) && Fits(View(), a)
      modifies this, mem
      ensures View() == Step(old(View()), a) && Inv(View())
    {
      StepProceeds(View(), a);
      if a.t < |clients| {
        var pc, idle := clients[a.t].pc, mem.threads[a.t].pc.Idle?;
        if a.Go? {
          if !idle {
            Access(a.t, a.flaky);
          } else if Pushing(pc) {
            Push(a.t);
          } else if !pc.Idle? && !pc.Returned? {
            TryPop(a.t);
          }
        } else if a.Collect? {
          if pc.Returned? { Leave(a.t, Gave(pc.result)); }
        } else if pc.Idle? && idle && (a.CallPop? || (a.addr != 0 && a.addr !in mem.blocks)) {
          Call(a);
        }
      }
    }

    /** Any schedule that fits: what the theorems say of runs holds of the object. */
    method Execute(actions: seq<Action>)
      requires Inv(View()) && AllFit(View(), actions)
      modifies this, mem
      ensures View() == Run(old(View()), actions) && Inv(View())
    {
      var i := 0;
      while i < |actions|
        invariant i <= |actions|
        invariant Inv(View()) && AllFit(View(), actions[i..])
        invariant Run(View(), actions[i..]) == Run(old(View()), actions)
      {
        assert actions[i..][0] == actions[i] && actions[i..][1..] == actions[i + 1..];
        Perform(actions[i]);
        i := i + 1;
      }
    }
  }
}
