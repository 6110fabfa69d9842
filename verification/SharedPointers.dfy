/** AtomicSharedPtr: differential reference counting (tasks/lockfree/shared_ptr/shared_ptr.hpp).

    A block is counted in two words: its own counter (strong, transient) and the stamp beside each
    pointer to it in an atomic cell. Any number of threads load, store and compare-exchange any
    number of cells, and copy, drop, hand over and create references of their own. A block may hold
    references too, as members of its data; they are dropped when it is deleted. One action is one
    atomic operation; memory is sequentially consistent, a weak compare-and-swap may fail for no
    reason, and addresses are reused as soon as they are freed. */
module SharedPointers {
  import opened Counting
  import opened Options

  /** Above this stamp Load folds the cell's stamp back into the block. */
  const LIMIT: nat := 64000

  const MAX_STAMP: nat := 0xFFFF

  /** Pointer 0 is null. */
  datatype Stamped = Stamped(ptr: nat, stamp: nat)

  /** What a pair becomes when packed into one word: the stamp keeps its low 16 bits. */
  function Word(p: Stamped): Stamped {
    Stamped(p.ptr, p.stamp % (MAX_STAMP + 1))
  }

  datatype Block = Block(strong: int, transient: int)

  /** A reference to `to` that the data of block `from` holds. */
  datatype Link = Link(from: nat, to: nat)

  /** The calls of IncrementCounter that a thread still has to make, in order. */
  datatype Todo = Nil | Adjust(ptr: nat, strong: int, transient: int, rest: Todo)

  /** Why a cell is being acquired: for Load; for the Load at the end of a CompareExchangeWeak that
      lost its swing; or for CompareExchangeWeak itself. `seal` says that `expected` is a member of
      the data of `desired`, which nobody else sees until the exchange has succeeded. */
  datatype Purpose =
    | ForLoad
    | ForReload(expected: nat, desired: nat)
    | ForCas(expected: nat, desired: nat, seal: bool)

  datatype After =
    | Finish
    | ThenSwap(cell: nat, target: nat)
    | ThenAcquire(cell: nat, why: Purpose)
    | ThenWrite(cell: nat, value: Stamped, drops: Todo)

  datatype Pc =
    | Idle
    | Count(todo: Todo, counter: Option<Block>, after: After)          // load the counter, then compare-and-swap it
    | Delete(ptr: nat, todo: Todo, after: After)                    // this thread brought both counts to zero
    | Acquire(cell: nat, why: Purpose)                              // read the cell
    | Stamp(cell: nat, seen: Stamped, why: Purpose)                 // raise its stamp
    | Swap(cell: nat, target: nat)                                  // Store: exchange the cell
    | Swing(cell: nat, held: Stamped, desired: nat, seal: bool)     // compare-exchange the cell
    | Write(cell: nat, value: Stamped, drops: Todo)                 // Load after an overflow: overwrite the cell

  datatype Call =
    | LoadCall(cell: nat)
    | StoreCall(cell: nat, target: nat)
    | CasCall(cell: nat, expected: nat, desired: nat, seal: bool)

  /** A failed compare-exchange answers with the pointer that replaces the expected one. */
  datatype Answer = Got(ptr: nat) | Done | Exchanged | Refused(ptr: nat)

  /** `handles` are the references (SharedPtr objects) of the thread that are, or will be once its
      pending counting is done, its own. Auxiliary: `calls` and `answers`, what the thread has asked
      of the cells and what it was, or will on return be, answered. */
  datatype Thread = Thread(handles: multiset<nat>, pc: Pc, calls: seq<Call>, answers: seq<Answer>)

  datatype Event =
    | Loaded(t: nat, cell: nat, ptr: nat)
    | Stored(t: nat, cell: nat, ptr: nat)
    | Swapped(t: nat, cell: nat, expected: nat, desired: nat)
    | Failed(t: nat, cell: nat, expected: nat, ptr: nat)

  /** `fault` is raised by an access to a block that is not allocated; `log` is auxiliary. */
  datatype State = State(cells: seq<Stamped>, blocks: map<nat, Block>, links: seq<Link>, threads: seq<Thread>,
                         fault: bool, log: seq<Event>)

  /** `keep` says that the caller passes a copy and keeps its own reference; otherwise it moves it. */
  datatype Action =
    | Make(t: nat, addr: nat)
    | Copy(t: nat, p: nat)
    | Drop(t: nat, p: nat)
    | Give(t: nat, to: nat, p: nat)
    | Attach(t: nat, into: nat, p: nat)   // move a reference into the data of a block
    | CallLoad(t: nat, cell: nat)
    | CallStore(t: nat, cell: nat, target: nat, keep: bool)
    | CallCas(t: nat, cell: nat, expected: nat, desired: nat, keep: bool, seal: bool)
    | Tick(t: nat, flaky: bool)

  const FRESH: Thread := Thread(multiset{}, Idle, [], [])

  function Init(threads: nat, cells: nat): State {
    State(seq(cells, _ => Stamped(0, 0)), map[], [], seq(threads, _ => FRESH), false, [])
  }

  // --- The operations, one atomic step at a time

  /** Where a thread goes when the calls in `todo` remain. */
  function Continue(todo: Todo, after: After): Pc {
    if todo.Adjust? then Count(todo, None, after) else
    match after
    case Finish => Idle
    case ThenSwap(c, target) => Swap(c, target)
    case ThenAcquire(c, why) => Acquire(c, why)
    case ThenWrite(c, x, drops) => Write(c, x, drops)
  }

  function Goto(s: State, t: nat, pc: Pc): State
    requires t < |s.threads|
  {
    s.(threads := s.threads[t := s.threads[t].(pc := pc)])
  }

  function Ref(p: nat): multiset<nat> {
    if p == 0 then multiset{} else multiset{p}
  }

  predicate Owns(th: Thread, p: nat) {
    p == 0 || p in th.handles
  }

  /** The thread can copy a reference to `p`: its own, or one in the data of a block it refers to. */
  predicate Readable(th: Thread, links: seq<Link>, p: nat) {
    Owns(th, p) || exists l :: l in links && l.to == p && l.from in th.handles
  }

  predicate MayPass(th: Thread, links: seq<Link>, p: nat, keep: bool) {
    if keep then Readable(th, links, p) else Owns(th, p)
  }

  /** Copying a parameter counts it; moving it takes it from the caller. */
  function Passed(p: nat, keep: bool, rest: Todo): Todo {
    if keep then Adjust(p, 1, 0, rest) else rest
  }

  function Left(th: Thread, p: nat, keep: bool): multiset<nat> {
    if keep then th.handles else th.handles - Ref(p)
  }

  /** Actions that do not apply leave the state alone. */
  function Step(s: State, a: Action): State {
    if a.t >= |s.threads| then s
    else if a.Tick? then TickStep(s, a.t, a.flaky)
    else if s.threads[a.t].pc.Idle? && Applies(s, a) then CallStep(s, a)
    else s
  }

  predicate Applies(s: State, a: Action)
    requires a.t < |s.threads|
  {
    var th := s.threads[a.t];
    match a
    case Make(_, addr) => addr != 0 && addr !in s.blocks
    case Copy(_, p) => Readable(th, s.links, p)
    case Drop(_, p) => Owns(th, p)
    case Give(t, u, p) => Owns(th, p) && u < |s.threads| && u != t
    case Attach(_, into, p) => into in th.handles && p in th.handles && into != 0 && p != 0
    case CallLoad(_, c) => c < |s.cells|
    case CallStore(_, c, target, keep) => c < |s.cells| && MayPass(th, s.links, target, keep)
    case CallCas(_, c, e, d, keep, seal) =>
      && c < |s.cells| && Owns(th, e) && MayPass(th, s.links, d, keep) && (e == d != 0 && !keep ==> th.handles[e] >= 2)
      && (seal ==> d != 0 && Owns(th, d))
    case Tick(_, _) => false
  }

  function CallStep(s: State, a: Action): State
    requires a.t < |s.threads|
  {
    var th := s.threads[a.t];
    match a
    case Make(t, addr) =>
      s.(blocks := s.blocks[addr := Block(1, 0)], threads := s.threads[t := th.(handles := th.handles + Ref(addr))])
    case Give(t, u, p) =>
      if u >= |s.threads| then s
      else
        var ts := s.threads[t := th.(handles := th.handles - Ref(p))];
        s.(threads := ts[u := ts[u].(handles := ts[u].handles + Ref(p))])
    case Attach(t, into, p) =>
      s.(links := s.links + [Link(into, p)], threads := s.threads[t := th.(handles := th.handles - Ref(p))])
    case _ => s.(threads := s.threads[a.t := Called(th, a)])
  }

  /** The other calls concern the calling thread alone, until its first access. */
  function Called(th: Thread, a: Action): Thread {
    match a
    case Copy(_, p) => th.(handles := th.handles + Ref(p), pc := Continue(Adjust(p, 1, 0, Nil), Finish))
    case Drop(_, p) => th.(handles := th.handles - Ref(p), pc := Continue(Adjust(p, -1, 0, Nil), Finish))
    case CallLoad(_, c) => Asking(th, LoadCall(c), th.handles, Acquire(c, ForLoad))
    case CallStore(_, c, target, keep) =>
      Asking(th, StoreCall(c, target), Left(th, target, keep),
             Continue(Passed(target, keep, Adjust(target, 1, 0, Nil)), ThenSwap(c, target)))
    case CallCas(_, c, e, d, keep, seal) =>
      Asking(th, CasCall(c, e, d, seal), Left(th, d, keep), Continue(Passed(d, keep, Nil), ThenAcquire(c, ForCas(e, d, seal))))
    case _ => th
  }

  function Asking(th: Thread, call: Call, handles: multiset<nat>, pc: Pc): Thread {
    Thread(handles, pc, th.calls + [call], th.answers)
  }

  function TickStep(s: State, t: nat, flaky: bool): State
    requires t < |s.threads|
  {
    var th := s.threads[t];
    match th.pc
    case Idle => s
    case Count(_, _, _) => CountStep(s, t, flaky)
    case Delete(p, todo, after) =>
      if p !in s.blocks then s.(fault := true)
      else Goto(s.(blocks := s.blocks - {p}, links := Without(s.links, p)), t, Continue(Released(s.links, p, todo), after))
    case Acquire(c, why) =>
      if c >= |s.cells| then s
      else if s.cells[c].ptr == 0 then Acquired(s, t, c, s.cells[c], why)
      else Goto(s, t, Stamp(c, s.cells[c], why))
    case Stamp(c, seen, why) =>
      if c >= |s.cells| then s
      else if !flaky && s.cells[c] == seen then
        var next := Stamped(seen.ptr, seen.stamp + 1);
        Acquired(s.(cells := s.cells[c := Word(next)]), t, c, next, why)
      else if s.cells[c].ptr == 0 then Acquired(s, t, c, s.cells[c], why)
      else Goto(s, t, Stamp(c, s.cells[c], why))
    case Swap(c, target) =>
      if c >= |s.cells| then s
      else
        Conclude(s.(cells := s.cells[c := Stamped(target, 0)]), t, Stored(t, c, target), th.handles,
                 Continue(AfterSwap(s.cells[c], target), Finish))
    case Swing(c, held, d, seal) =>
      if c >= |s.cells| then s
      else if !flaky && s.cells[c] == Word(held) then Swung(s, t)
      else Goto(s, t, Continue(Adopt(held.ptr, Nil), ThenAcquire(c, ForReload(held.ptr, d))))
    case Write(c, x, drops) =>
      if c >= |s.cells| then s
      else Goto(s.(cells := s.cells[c := x]), t, Continue(drops, Finish))
  }

  /** What is asked of a cell takes effect, and the answer is known. */
  function Conclude(s: State, t: nat, e: Event, handles: multiset<nat>, pc: Pc): State
    requires t < |s.threads|
  {
    s.(log := s.log + [e],
       threads := s.threads[t := Thread(handles, pc, s.threads[t].calls, s.threads[t].answers + [AnswerOf(e)])])
  }

  function AnswerOf(e: Event): Answer {
    match e
    case Loaded(_, _, p) => Got(p)
    case Stored(_, _, _) => Done
    case Swapped(_, _, _, _) => Exchanged
    case Failed(_, _, _, p) => Refused(p)
  }

  /** CompareExchangeWeak succeeds; an expected reference inside the data of `desired` goes with it. */
  function Swung(s: State, t: nat): State
    requires t < |s.threads| && s.threads[t].pc.Swing? && s.threads[t].pc.cell < |s.cells|
  {
    var Swing(c, held, d, seal) := s.threads[t].pc;
    Conclude(s.(cells := s.cells[c := Stamped(d, 0)], links := s.links + Sealed(held.ptr, d, seal)), t,
             Swapped(t, c, held.ptr, d), AfterSeal(s.threads[t].handles, held.ptr, seal),
             Continue(AfterSwing(held, d), Finish))
  }

  function Sealed(e: nat, d: nat, seal: bool): seq<Link> {
    if seal && e != 0 then [Link(d, e)] else []
  }

  function AfterSeal(handles: multiset<nat>, e: nat, seal: bool): multiset<nat> {
    if seal then handles - Ref(e) else handles
  }

  /** One access of IncrementCounter; on null it does nothing. */
  function CountStep(s: State, t: nat, flaky: bool): State
    requires t < |s.threads| && s.threads[t].pc.Count?
  {
    var Count(todo, counter, after) := s.threads[t].pc;
    if todo.Nil? || todo.ptr == 0 then Goto(s, t, Continue(if todo.Nil? then todo else todo.rest, after))
    else if todo.ptr !in s.blocks then s.(fault := true)
    else
      var now := s.blocks[todo.ptr];
      if counter == Some(now) && !flaky then
        var next := Block(now.strong + todo.strong, now.transient + todo.transient);
        Goto(s.(blocks := s.blocks[todo.ptr := next]), t,
             if next == Block(0, 0) then Delete(todo.ptr, todo.rest, after) else Continue(todo.rest, after))
      else Goto(s, t, Count(todo, Some(now), after))
  }

  /** Deleting block `p` drops the references in its data. */
  function Released(links: seq<Link>, p: nat, todo: Todo): Todo {
    if links == [] then todo
    else if links[0].from == p then Adjust(links[0].to, -1, 0, Released(links[1..], p, todo))
    else Released(links[1..], p, todo)
  }

  function Without(links: seq<Link>, p: nat): seq<Link> {
    if links == [] then []
    else if links[0].from == p then Without(links[1..], p)
    else [links[0]] + Without(links[1..], p)
  }

  /** A reference made from an acquired pointer: count it, then give the acquisition back. */
  function Adopt(p: nat, rest: Todo): Todo {
    Adjust(p, 1, 0, Adjust(p, 0, -1, rest))
  }

  /** Store: a reference to the old block, the cell's count and stamp folded, both references dropped. */
  function AfterSwap(prev: Stamped, target: nat): Todo {
    Adjust(prev.ptr, 1, 0, Adjust(prev.ptr, -1, prev.stamp, Adjust(prev.ptr, -1, 0, Adjust(target, -1, 0, Nil))))
  }

  function AfterSwing(held: Stamped, desired: nat): Todo {
    Adjust(desired, 1, 0, Adjust(held.ptr, -1, held.stamp - 1, Adjust(desired, -1, 0, Nil)))
  }

  function AfterMismatch(p: nat, e: nat, d: nat): Todo {
    Adjust(p, 1, 0, Adjust(e, -1, 0, Adjust(p, 0, -1, Adjust(d, -1, 0, Nil))))
  }

  /** The loaded reference replaces the expected one; then the two temporaries are dropped. */
  function AfterReload(e: nat, desired: nat): Todo {
    Adjust(e, -1, 0, Adjust(e, -1, 0, Adjust(desired, -1, 0, Nil)))
  }

  /** Load adopts the pointer; above the limit it then folds most of the stamp. */
  function Adopting(c: nat, got: Stamped, drops: Todo): Pc {
    if got.stamp <= LIMIT then Continue(Adopt(got.ptr, drops), Finish)
    else Continue(Adopt(got.ptr, Adjust(got.ptr, 0, LIMIT, Nil)), ThenWrite(c, Stamped(got.ptr, got.stamp - LIMIT), drops))
  }

  /** The cell held `got.ptr`; if it is not null the acquisition is now recorded in its stamp.
      CompareExchangeWeak goes on to its swing if the pointer is the expected one; otherwise the
      pointer replaces the expected reference. */
  function Acquired(s: State, t: nat, c: nat, got: Stamped, why: Purpose): State
    requires t < |s.threads|
  {
    var handles := s.threads[t].handles;
    match why
    case ForLoad => Conclude(s, t, Loaded(t, c, got.ptr), handles + Ref(got.ptr), Adopting(c, got, Nil))
    case ForReload(e, d) =>
      Conclude(s, t, Failed(t, c, e, got.ptr), handles - Ref(e) + Ref(got.ptr), Adopting(c, got, AfterReload(e, d)))
    case ForCas(e, d, seal) =>
      if got.ptr == e then Goto(s, t, Swing(c, got, d, seal))
      else
        Conclude(s, t, Failed(t, c, e, got.ptr), handles - Ref(e) + Ref(got.ptr),
                 Continue(AfterMismatch(got.ptr, e, d), Finish))
  }

  function Run(s: State, actions: seq<Action>): State
    decreases |actions|
  {
    if actions == [] then s else Run(Step(s, actions[0]), actions[1..])
  }

  // --- What each thread accounts for

  function One(p: nat, b: nat): int {
    if p == b then 1 else 0
  }

  function StampOf(x: Stamped, b: nat): int {
    if x.ptr == b then x.stamp else 0
  }

  /** The total a list of pending calls adds to the strong and to the transient count of `b`. */
  function AddsStrong(todo: Todo, b: nat): int {
    match todo
    case Nil => 0
    case Adjust(p, d, _, rest) => (if p == b then d else 0) + AddsStrong(rest, b)
  }

  function AddsTransient(todo: Todo, b: nat): int {
    match todo
    case Nil => 0
    case Adjust(p, _, d, rest) => (if p == b then d else 0) + AddsTransient(rest, b)
  }

  predicate Mentions(todo: Todo, b: nat) {
    todo.Adjust? && (todo.ptr == b || Mentions(todo.rest, b))
  }

  /** References held by the parameters and temporaries of an unfinished operation. */
  function HeldFor(why: Purpose, b: nat): int {
    match why
    case ForLoad => 0
    case ForReload(e, d) => One(e, b) + One(d, b)
    case ForCas(_, d, _) => One(d, b)
  }

  function HeldAfter(after: After, b: nat): int {
    match after
    case Finish => 0
    case ThenSwap(_, target) => 2 * One(target, b)
    case ThenAcquire(_, why) => HeldFor(why, b)
    case ThenWrite(_, _, drops) => -AddsStrong(drops, b)
  }

  /** Load has folded this much of the stamp into the block and not yet taken it off the cell. */
  function OwedAfter(after: After, b: nat): int {
    if after.ThenWrite? then LIMIT * One(after.value.ptr, b) else 0
  }

  /** The part of `b`'s strong count that the thread stands for. */
  function Strong(th: Thread, b: nat): int {
    th.handles[b] +
    match th.pc
    case Idle => 0
    case Count(todo, _, after) => HeldAfter(after, b) - AddsStrong(todo, b)
    case Delete(_, todo, after) => HeldAfter(after, b) - AddsStrong(todo, b)
    case Acquire(_, why) => HeldFor(why, b)
    case Stamp(_, _, why) => HeldFor(why, b)
    case Swap(_, target) => 2 * One(target, b)
    case Swing(_, _, d, _) => One(d, b)
    case Write(_, _, drops) => -AddsStrong(drops, b)
  }

  /** Its acquisitions of `b` in flight, less the stamps it has taken from cells and not yet folded. */
  function Transient(th: Thread, b: nat): int {
    match th.pc
    case Count(todo, _, after) => OwedAfter(after, b) - AddsTransient(todo, b)
    case Delete(_, todo, after) => OwedAfter(after, b) - AddsTransient(todo, b)
    case Swing(_, held, _, _) => One(held.ptr, b)
    case Write(_, x, _) => LIMIT * One(x.ptr, b)
    case _ => 0
  }

  function Deletes(th: Thread, b: nat): int {
    if th.pc.Delete? then One(th.pc.ptr, b) else 0
  }

  ghost function StrongFn(b: nat): Thread -> int { (th: Thread) => Strong(th, b) }
  ghost function TransientFn(b: nat): Thread -> int { (th: Thread) => Transient(th, b) }
  ghost function DeletesFn(b: nat): Thread -> int { (th: Thread) => Deletes(th, b) }
  ghost function CellFn(b: nat): Stamped -> int { (c: Stamped) => One(c.ptr, b) }
  ghost function StampFn(b: nat): Stamped -> int { (c: Stamped) => StampOf(c, b) }
  ghost function LinkFn(b: nat): Link -> int { (l: Link) => One(l.to, b) }

  ghost function StrongSum(ts: seq<Thread>, b: nat): int { Sum(ts, StrongFn(b)) }
  ghost function TransientSum(ts: seq<Thread>, b: nat): int { Sum(ts, TransientFn(b)) }
  ghost function Deleters(ts: seq<Thread>, b: nat): int { Sum(ts, DeletesFn(b)) }
  /** Cells that point to `b`, the stamps beside those pointers, and references to `b` in blocks. */
  ghost function Cells(cells: seq<Stamped>, b: nat): int { Sum(cells, CellFn(b)) }
  ghost function Stamps(cells: seq<Stamped>, b: nat): int { Sum(cells, StampFn(b)) }
  ghost function LinksTo(links: seq<Link>, b: nat): int { Sum(links, LinkFn(b)) }

  lemma ThreadMoves(ts: seq<Thread>, t: nat, th: Thread, b: nat)
    requires t < |ts|
    ensures StrongSum(ts[t := th], b) == StrongSum(ts, b) - Strong(ts[t], b) + Strong(th, b)
    ensures TransientSum(ts[t := th], b) == TransientSum(ts, b) - Transient(ts[t], b) + Transient(th, b)
    ensures Deleters(ts[t := th], b) == Deleters(ts, b) - Deletes(ts[t], b) + Deletes(th, b)
  {
    SumUpdate(ts, t, th, StrongFn(b));
    SumUpdate(ts, t, th, TransientFn(b));
    SumUpdate(ts, t, th, DeletesFn(b));
  }

  lemma CellMoves(cells: seq<Stamped>, c: nat, x: Stamped, b: nat)
    requires c < |cells|
    ensures Cells(cells[c := x], b) == Cells(cells, b) - One(cells[c].ptr, b) + One(x.ptr, b)
    ensures Stamps(cells[c := x], b) == Stamps(cells, b) - StampOf(cells[c], b) + StampOf(x, b)
  {
    SumUpdate(cells, c, x, CellFn(b));
    SumUpdate(cells, c, x, StampFn(b));
  }

  // --- The invariant

  // A block counts as lent to a thread while another block, which the thread refers to, holds a
  // reference to it.

  /** No call in the list raises the strong count of `x` more than later ones lower it. */
  ghost predicate NoDebt(todo: Todo, x: nat) {
    AddsStrong(todo, x) <= 0 && (todo.Adjust? ==> NoDebt(todo.rest, x))
  }

  function Pending(pc: Pc): Todo {
    if pc.Count? || pc.Delete? then pc.todo else Nil
  }

  /** The purpose a thread is acquiring, or about to acquire, a cell for. */
  function Seeks(pc: Pc): Option<Purpose> {
    match pc
    case Count(_, _, ThenAcquire(_, why)) => Some(why)
    case Delete(_, _, ThenAcquire(_, why)) => Some(why)
    case Acquire(_, why) => Some(why)
    case Stamp(_, _, why) => Some(why)
    case Swing(_, held, d, seal) => Some(ForCas(held.ptr, d, seal))
    case _ => None
  }

  /** References to `x` that will move into another block. */
  function Promised(pc: Pc, x: nat): int {
    if Seeks(pc).Some? && Seeks(pc).value.ForCas? && Seeks(pc).value.seal then One(Seeks(pc).value.expected, x) else 0
  }

  /** Until its call is over the thread keeps block `x`, and the references in its data, alive. */
  ghost predicate Lends(th: Thread, x: nat) {
    && th.handles[x] > Promised(th.pc, x) && NoDebt(Pending(th.pc), x)
    && !(Seeks(th.pc).Some? && Seeks(th.pc).value.ForReload?)
    && !th.pc.Write? && !((th.pc.Count? || th.pc.Delete?) && th.pc.after.ThenWrite?)
  }

  ghost predicate LinkLent(links: seq<Link>, th: Thread, b: nat) {
    exists l :: l in links && l.to == b && l.from != b && Lends(th, l.from)
  }

  /** However far the pending calls have got, the thread never stands for less than nothing of
      `b`; it owes a stamp only while it also stands for a strong reference; and as long as a call
      on `b` is pending it stands for a strong reference or an acquisition, or `b` is lent to it. */
  ghost predicate Backed(strong: int, owed: int, todo: Todo, b: nat, lent: bool)
    decreases todo
  {
    var s, t := strong - AddsStrong(todo, b), owed - AddsTransient(todo, b);
    && s >= 0
    && (s == 0 ==> t >= 0)
    && (Mentions(todo, b) ==> s >= 1 || t >= 1 || lent)
    && (todo.Adjust? ==> Backed(strong, owed, todo.rest, b, lent))
  }

  /** `own` is the number of the thread's own references to `b`. */
  ghost predicate BackedPurpose(own: int, why: Purpose, b: nat, spare: bool) {
    match why
    case ForLoad => true
    case ForReload(e, _) => e == b ==> own >= 1
    case ForCas(e, d, _) => (e == b ==> own >= 1) && (d == b ==> own >= 1 || spare)
  }

  /** Calls that each drop one reference. */
  predicate OnlyDrops(todo: Todo) {
    todo.Adjust? ==> todo.strong == -1 && todo.transient == 0 && OnlyDrops(todo.rest)
  }

  ghost predicate BackedPending(own: int, todo: Todo, after: After, b: nat, lent: bool, spare: bool) {
    && Backed(own + HeldAfter(after, b), OwedAfter(after, b), todo, b, lent)
    && (after.ThenAcquire? ==> BackedPurpose(own, after.why, b, spare))
    && (after.ThenWrite? ==> OnlyDrops(after.drops))
  }

  ghost predicate Guarded(th: Thread, b: nat, lent: bool, spare: bool) {
    match th.pc
    case Idle => true
    case Count(todo, _, after) => BackedPending(th.handles[b], todo, after, b, lent, spare)
    case Delete(_, todo, after) => BackedPending(th.handles[b], todo, after, b, lent, spare)
    case Acquire(_, why) => BackedPurpose(th.handles[b], why, b, spare)
    case Stamp(_, _, why) => BackedPurpose(th.handles[b], why, b, spare)
    case Swap(_, _) => true
    case Write(_, _, drops) => OnlyDrops(drops)
    case Swing(_, held, d, _) => (held.ptr == b ==> th.handles[b] >= 1 && held.stamp >= 1) && (d == b ==> th.handles[b] >= 1 || spare)
  }

  /** A lone thread relies on its cells too: nobody else overwrites them. */
  ghost predicate Lent(s: State, t: nat, b: nat)
    requires t < |s.threads|
  {
    LinkLent(s.links, s.threads[t], b) || (|s.threads| == 1 && Cells(s.cells, b) >= 1)
  }

  ghost predicate Spare(s: State, t: nat, b: nat)
    requires t < |s.threads|
  {
    LinkLent(s.links, s.threads[t], b) || |s.threads| == 1
  }

  ghost predicate GuardedAt(s: State, t: nat, b: nat)
    requires t < |s.threads|
  {
    Guarded(s.threads[t], b, Lent(s, t, b), Spare(s, t, b))
  }

  /** Conservation. For an allocated block: strong == cells + links + what the threads stand for, and
      transient + the stamps of the cells == what the threads have in flight; both are zero exactly
      when one thread is about to delete it. An address that is not allocated stands for nothing. */
  ghost predicate Law(s: State, b: nat) {
    var cells, links, strong, transient, deleters :=
      Cells(s.cells, b), LinksTo(s.links, b), StrongSum(s.threads, b), TransientSum(s.threads, b), Deleters(s.threads, b);
    if b in s.blocks then
      && s.blocks[b].strong == cells + links + strong
      && s.blocks[b].transient + Stamps(s.cells, b) == transient
      && deleters == (if s.blocks[b] == Block(0, 0) then 1 else 0)
    else
      cells == 0 && links == 0 && strong == 0 && transient == 0 && deleters == 0
  }

  ghost predicate Sealable(why: Purpose) {
    why.ForCas? && why.seal ==> why.desired != 0
  }

  /** The cells of unfinished operations exist, and what they remember makes sense. */
  ghost predicate InRange(pc: Pc, n: nat) {
    match pc
    case Idle => true
    case Count(_, _, after) => AfterInRange(after, n)
    case Delete(p, _, after) => p != 0 && AfterInRange(after, n)
    case Acquire(c, why) => c < n && Sealable(why)
    case Stamp(c, seen, why) => c < n && seen.ptr != 0 && Sealable(why)
    case Swap(c, _) => c < n
    case Swing(c, held, d, seal) => c < n && held.stamp <= MAX_STAMP && (seal ==> d != 0)
    case Write(c, x, _) => c < n && x.ptr != 0
  }

  ghost predicate AfterInRange(after: After, n: nat) {
    match after
    case Finish => true
    case ThenSwap(c, _) => c < n
    case ThenAcquire(c, why) => c < n && Sealable(why)
    case ThenWrite(c, x, _) => c < n && x.ptr != 0
  }

  ghost predicate Inv(s: State) {
    && !s.fault
    && 0 !in s.blocks
    && (forall b :: b != 0 ==> Law(s, b))
    && (forall t, b :: 0 <= t < |s.threads| && b != 0 ==> GuardedAt(s, t, b))
    && (forall t :: 0 <= t < |s.threads| ==> InRange(s.threads[t].pc, |s.cells|))
    && CellsOk(s.cells)
    && LinksOk(s)
  }

  ghost predicate CellsOk(cells: seq<Stamped>) {
    forall c :: 0 <= c < |cells| ==> cells[c].stamp <= MAX_STAMP && (cells[c].ptr == 0 ==> cells[c].stamp == 0)
  }

  ghost predicate LinksOk(s: State) {
    forall l :: l in s.links ==> l.from in s.blocks && l.to != 0
  }

  // --- What the invariant says about blocks

  /** More backing never hurts. */
  lemma {:induction false} BackedMore(strong: int, more: nat, owed: int, todo: Todo, b: nat, lent: bool, lent': bool)
    requires Backed(strong, owed, todo, b, lent) && (lent ==> lent')
    ensures Backed(strong + more, owed, todo, b, lent')
    decreases todo
  {
    if todo.Adjust? {
      BackedMore(strong, more, owed, todo.rest, b, lent, lent');
    }
  }

  lemma GuardedMore(th: Thread, b: nat, p: nat, lent: bool, spare: bool, lent': bool, spare': bool)
    requires b != 0 && Guarded(th, b, lent, spare) && (lent ==> lent') && (spare ==> spare')
    ensures Guarded(th, b, lent', spare')
    ensures var th' := th.(handles := th.handles + Ref(p));
      && Guarded(th', b, lent', spare') && Strong(th', b) == Strong(th, b) + One(p, b)
      && Transient(th', b) == Transient(th, b) && Deletes(th', b) == Deletes(th, b)
  {
    RefCount(th.handles, p, b);
    if th.pc.Count? || th.pc.Delete? {
      var strong, owed := th.handles[b] + HeldAfter(th.pc.after, b), OwedAfter(th.pc.after, b);
      BackedMore(strong, 0, owed, th.pc.todo, b, lent, lent');
      BackedMore(strong, One(p, b), owed, th.pc.todo, b, lent, lent');
    }
  }

  lemma RefCount(h: multiset<nat>, p: nat, b: nat)
    requires b != 0
    ensures (h + Ref(p))[b] == h[b] + One(p, b)
    ensures (h - Ref(p))[b] == if p == b && h[b] > 0 then h[b] - 1 else h[b]
  {
  }

  lemma {:induction false} DropsCount(todo: Todo, b: nat)
    requires OnlyDrops(todo)
    ensures AddsStrong(todo, b) <= 0 && AddsTransient(todo, b) == 0 && (Mentions(todo, b) ==> AddsStrong(todo, b) < 0)
    decreases todo
  {
    if todo.Adjust? { DropsCount(todo.rest, b); }
  }

  /** References of one's own can always be dropped. */
  lemma {:induction false} DropsBacked(own: int, owed: nat, todo: Todo, b: nat, lent: bool)
    requires OnlyDrops(todo) && own >= 0
    ensures Backed(own, owed, todo, b, lent)
    decreases todo
  {
    DropsCount(todo, b);
    if todo.Adjust? { DropsBacked(own, owed, todo.rest, b, lent); }
  }

  lemma GuardedAccounts(th: Thread, b: nat, lent: bool, spare: bool)
    requires b != 0 && Guarded(th, b, lent, spare)
    ensures Strong(th, b) >= 0 && (Strong(th, b) == 0 ==> Transient(th, b) >= 0)
  {
    if th.pc.Write? { DropsCount(th.pc.drops, b); }
  }

  lemma NoCellsNoStamps(cells: seq<Stamped>, b: nat)
    ensures Cells(cells, b) >= 0
    ensures Cells(cells, b) == 0 ==> Stamps(cells, b) == 0
    ensures forall c :: 0 <= c < |cells| && cells[c].ptr == b ==> Cells(cells, b) >= 1
  {
    SumBounds(cells, CellFn(b));
    forall c | 0 <= c < |cells| && cells[c].ptr == b ensures Cells(cells, b) >= 1 {
      assert CellFn(b)(cells[c]) == 1;
    }
    if Cells(cells, b) == 0 {
      SumAllZero(cells, StampFn(b));
    }
  }

  lemma LinksCount(links: seq<Link>, b: nat)
    ensures LinksTo(links, b) >= 0
    ensures forall l :: l in links && l.to == b ==> LinksTo(links, b) >= 1
  {
    SumBounds(links, LinkFn(b));
    forall l | l in links && l.to == b ensures LinksTo(links, b) >= 1 {
      var k :| 0 <= k < |links| && links[k] == l;
      assert LinkFn(b)(links[k]) == 1;
    }
  }

  lemma StrongNonneg(s: State, b: nat)
    requires b != 0 && (forall t :: 0 <= t < |s.threads| ==> GuardedAt(s, t, b))
    ensures StrongSum(s.threads, b) >= 0
  {
    forall t | 0 <= t < |s.threads| ensures StrongFn(b)(s.threads[t]) >= 0 {
      assert GuardedAt(s, t, b);
      GuardedAccounts(s.threads[t], b, Lent(s, t, b), Spare(s, t, b));
    }
    SumBounds(s.threads, StrongFn(b));
  }

  /** A block that nobody stands for: every thread's account of it is empty. */
  lemma NobodyLeft(s: State, b: nat)
    requires b != 0 && (forall t :: 0 <= t < |s.threads| ==> GuardedAt(s, t, b))
    requires StrongSum(s.threads, b) == 0 && TransientSum(s.threads, b) == 0
    ensures forall t :: 0 <= t < |s.threads| ==> Strong(s.threads[t], b) == 0 && Transient(s.threads[t], b) == 0
  {
    forall t | 0 <= t < |s.threads|
      ensures StrongFn(b)(s.threads[t]) >= 0 && (Strong(s.threads[t], b) == 0 ==> Transient(s.threads[t], b) >= 0)
    {
      assert GuardedAt(s, t, b);
      GuardedAccounts(s.threads[t], b, Lent(s, t, b), Spare(s, t, b));
    }
    SumBounds(s.threads, StrongFn(b));
    forall t | 0 <= t < |s.threads| ensures Strong(s.threads[t], b) == 0 && TransientFn(b)(s.threads[t]) >= 0 {
      assert StrongFn(b)(s.threads[t]) == Strong(s.threads[t], b);
    }
    SumBounds(s.threads, TransientFn(b));
    forall t | 0 <= t < |s.threads| ensures Transient(s.threads[t], b) == 0 {
      assert TransientFn(b)(s.threads[t]) == Transient(s.threads[t], b);
    }
  }

  /** A block that is gone, or about to go, is nowhere to be found. */
  lemma DeadIsUnreferenced(s: State, b: nat)
    requires Inv(s) && b != 0 && (b !in s.blocks || s.blocks[b] == Block(0, 0))
    ensures Cells(s.cells, b) == 0 && LinksTo(s.links, b) == 0
    ensures forall t :: 0 <= t < |s.threads| ==> Strong(s.threads[t], b) == 0 && Transient(s.threads[t], b) == 0
    ensures forall l :: l in s.links ==> l.to != b
    ensures forall t :: 0 <= t < |s.threads| ==> !Lent(s, t, b)
  {
    assert Law(s, b);
    NoCellsNoStamps(s.cells, b);
    LinksCount(s.links, b);
    StrongNonneg(s, b);
    NobodyLeft(s, b);
  }

  /** A thread about to touch `b` finds it allocated, with counts that are not both zero. */
  lemma TouchedIsAlive(s: State, t: nat, b: nat)
    requires Inv(s) && t < |s.threads| && b != 0
    requires Strong(s.threads[t], b) >= 1 || Transient(s.threads[t], b) >= 1 || Lent(s, t, b)
    ensures b in s.blocks && s.blocks[b] != Block(0, 0)
  {
    if b !in s.blocks || s.blocks[b] == Block(0, 0) {
      DeadIsUnreferenced(s, b);
    }
  }

  /** What the pending calls add to a block they add to or not at all. */
  lemma {:induction false} AddsMentioned(todo: Todo, b: nat)
    ensures AddsStrong(todo, b) != 0 ==> Mentions(todo, b)
    decreases todo
  {
    if todo.Adjust? { AddsMentioned(todo.rest, b); }
  }

  lemma HeldIsNonneg(th: Thread, b: nat, lent: bool, spare: bool)
    requires b != 0 && Guarded(th, b, lent, spare)
    ensures (th.pc.Count? || th.pc.Delete?) ==> HeldAfter(th.pc.after, b) >= 0
    ensures Strong(th, b) >= th.handles[b] - AddsStrong(Pending(th.pc), b)
  {
    if th.pc.Write? { DropsCount(th.pc.drops, b); }
    if (th.pc.Count? || th.pc.Delete?) && th.pc.after.ThenWrite? { DropsCount(th.pc.after.drops, b); }
  }

  /** The guarantee of SharedPtr: a block that a thread refers to is allocated. */
  lemma HandleKeepsAlive(s: State, t: nat, b: nat)
    requires Inv(s) && t < |s.threads| && b != 0 && b in s.threads[t].handles
    ensures b in s.blocks && s.blocks[b] != Block(0, 0)
  {
    var th := s.threads[t];
    assert GuardedAt(s, t, b);
    HeldIsNonneg(th, b, Lent(s, t, b), Spare(s, t, b));
    AddsMentioned(Pending(th.pc), b);
    TouchedIsAlive(s, t, b);
  }

  /** So is a block that the data of such a block refers to. */
  lemma LinkKeepsAlive(s: State, l: Link)
    requires Inv(s) && l in s.links
    ensures l.to in s.blocks && s.blocks[l.to] != Block(0, 0)
  {
    if l.to !in s.blocks || s.blocks[l.to] == Block(0, 0) {
      DeadIsUnreferenced(s, l.to);
    }
  }

  lemma LenderStands(s: State, t: nat, x: nat)
    requires Inv(s) && t < |s.threads| && x != 0 && Lends(s.threads[t], x)
    ensures Strong(s.threads[t], x) >= 1
  {
    var th := s.threads[t];
    assert GuardedAt(s, t, x);
    HeldIsNonneg(th, x, Lent(s, t, x), Spare(s, t, x));
  }

  // --- How a step keeps the invariant

  /** A step of thread `t` takes no link away from another thread that relies on it. */
  ghost predicate KeepsLinks(s: State, s': State, t: nat) {
    forall l, u :: l in s.links && 0 <= u < |s.threads| && u != t && Lends(s.threads[u], l.from) ==> l in s'.links
  }

  lemma OtherGuarded(s: State, s': State, t: nat, u: nat, b: nat)
    requires t < |s.threads| == |s'.threads| && u < |s.threads| && u != t && s'.threads[u] == s.threads[u]
    requires KeepsLinks(s, s', t) && GuardedAt(s, u, b) && b != 0
    ensures GuardedAt(s', u, b)
  {
    assert LinkLent(s.links, s.threads[u], b) ==> LinkLent(s'.links, s'.threads[u], b);
    GuardedMore(s.threads[u], b, 0, Lent(s, u, b), Spare(s, u, b), Lent(s', u, b), Spare(s', u, b));
  }

  /** What remains to be shown of a step that only moves thread `t`. */
  lemma MoveKeeps(s: State, s': State, t: nat)
    requires Inv(s) && t < |s.threads| && !s'.fault && 0 !in s'.blocks && |s'.cells| == |s.cells|
    requires |s'.threads| == |s.threads| && forall u :: 0 <= u < |s.threads| && u != t ==> s'.threads[u] == s.threads[u]
    requires forall b :: b != 0 ==> Law(s', b) && GuardedAt(s', t, b)
    requires InRange(s'.threads[t].pc, |s.cells|) && CellsOk(s'.cells) && LinksOk(s') && KeepsLinks(s, s', t)
    ensures Inv(s')
  {
    forall u, b | 0 <= u < |s'.threads| && b != 0 ensures GuardedAt(s', u, b) {
      if u != t { assert GuardedAt(s, u, b); OtherGuarded(s, s', t, u, b); }
    }
    forall u | 0 <= u < |s'.threads| ensures InRange(s'.threads[u].pc, |s'.cells|) {
      if u != t { assert InRange(s.threads[u].pc, |s.cells|); }
    }
  }

  /** The law of one block when the thread, the cells and the links change in step. */
  lemma LawMoves(s: State, s': State, t: nat, b: nat)
    requires Law(s, b) && t < |s.threads| == |s'.threads| && s'.threads == s.threads[t := s'.threads[t]]
    requires s'.blocks == s.blocks
    requires Deletes(s'.threads[t], b) == Deletes(s.threads[t], b)
    requires Cells(s'.cells, b) + LinksTo(s'.links, b) + Strong(s'.threads[t], b) ==
             Cells(s.cells, b) + LinksTo(s.links, b) + Strong(s.threads[t], b)
    requires Transient(s'.threads[t], b) - Stamps(s'.cells, b) == Transient(s.threads[t], b) - Stamps(s.cells, b)
    requires b !in s.blocks ==> Cells(s'.cells, b) == 0 && LinksTo(s'.links, b) == 0 && Stamps(s'.cells, b) == 0
    ensures Law(s', b)
  {
    ThreadMoves(s.threads, t, s'.threads[t], b);
    NoCellsNoStamps(s.cells, b);
  }

  /** The thread's accounts of `b` do not change. */
  ghost predicate SameAccounts(th: Thread, th': Thread, b: nat) {
    Strong(th', b) == Strong(th, b) && Transient(th', b) == Transient(th, b) && Deletes(th', b) == Deletes(th, b)
  }

  /** Steps that only move obligations around inside one thread. */
  lemma ThreadInv(s: State, s': State, t: nat)
    requires Inv(s) && t < |s.threads| == |s'.threads| && s'.threads == s.threads[t := s'.threads[t]]
    requires s'.cells == s.cells && s'.blocks == s.blocks && s'.links == s.links && s'.fault == s.fault
    requires InRange(s'.threads[t].pc, |s.cells|)
    requires forall b :: b != 0 ==> GuardedAt(s', t, b) && SameAccounts(s.threads[t], s'.threads[t], b)
    ensures Inv(s')
  {
    forall b | b != 0 ensures Law(s', b) {
      assert Law(s, b) && SameAccounts(s.threads[t], s'.threads[t], b);
      NoCellsNoStamps(s.cells, b);
      LawMoves(s, s', t, b);
    }
    MoveKeeps(s, s', t);
  }

  /** One more call in front of a backed list. */
  lemma Pend(strong: int, owed: int, p: nat, ds: int, dt: int, rest: Todo, b: nat, lent: bool)
    requires Backed(strong, owed, rest, b, lent)
    requires p == b ==> strong - AddsStrong(rest, b) - ds >= 0
    requires p == b && strong - AddsStrong(rest, b) - ds == 0 ==> owed - AddsTransient(rest, b) - dt >= 0
    requires p == b ==> strong - AddsStrong(rest, b) - ds >= 1 || owed - AddsTransient(rest, b) - dt >= 1 || lent
    ensures Backed(strong, owed, Adjust(p, ds, dt, rest), b, lent)
    ensures AddsStrong(Adjust(p, ds, dt, rest), b) == AddsStrong(rest, b) + if p == b then ds else 0
    ensures AddsTransient(Adjust(p, ds, dt, rest), b) == AddsTransient(rest, b) + if p == b then dt else 0
  {
  }

  /** Going on with what remains keeps the thread's accounts and backing. */
  lemma Continued(th: Thread, own: int, todo: Todo, after: After, b: nat, lent: bool, spare: bool)
    requires b != 0 && BackedPending(own, todo, after, b, lent, spare)
    requires th.pc == Continue(todo, after) && th.handles[b] == own
    ensures Guarded(th, b, lent, spare) && Deletes(th, b) == 0
    ensures Strong(th, b) == own + HeldAfter(after, b) - AddsStrong(todo, b)
    ensures Transient(th, b) == OwedAfter(after, b) - AddsTransient(todo, b)
  {
  }

  // --- Calls

  /** The assumption on callers of CompareExchangeWeak: as long as it runs, the caller has another
      reference to `desired` of its own, or one to a block whose data holds such a reference. A lone
      thread need not bother. */
  predicate Kept(s: State, a: Action) {
    a.CallCas? && a.t < |s.threads| && |s.threads| >= 2 && Applies(s, a) && a.desired != 0 ==>
      Keeps(AfterSeal(Left(s.threads[a.t], a.desired, a.keep), a.expected, a.seal), s.links, a.desired) ||
      (a.desired == a.expected)
  }

  predicate Keeps(handles: multiset<nat>, links: seq<Link>, d: nat) {
    d in handles || exists l :: l in links && l.to == d && l.from != d && l.from in handles
  }

  lemma CopyAccounts(th: Thread, a: Action, b: nat, lent: bool, spare: bool)
    requires b != 0 && th.pc.Idle? && a.Copy? && (a.p == b ==> th.handles[b] >= 1 || lent)
    ensures Guarded(Called(th, a), b, lent, spare) && SameAccounts(th, Called(th, a), b)
  {
    var own, todo := th.handles[b] + One(a.p, b), Adjust(a.p, 1, 0, Nil);
    RefCount(th.handles, a.p, b);
    Pend(own, 0, a.p, 1, 0, Nil, b, lent);
    Continued(Called(th, a), own, todo, Finish, b, lent, spare);
  }

  lemma DropAccounts(th: Thread, a: Action, b: nat, lent: bool, spare: bool)
    requires b != 0 && th.pc.Idle? && a.Drop? && Owns(th, a.p)
    ensures Guarded(Called(th, a), b, lent, spare) && SameAccounts(th, Called(th, a), b)
  {
    var own, todo := th.handles[b] - One(a.p, b), Adjust(a.p, -1, 0, Nil);
    RefCount(th.handles, a.p, b);
    Pend(own, 0, a.p, -1, 0, Nil, b, lent);
    Continued(Called(th, a), own, todo, Finish, b, lent, spare);
  }

  /** Passing a reference by value: what stays with the caller. */
  lemma LeftCount(th: Thread, p: nat, keep: bool, b: nat)
    requires b != 0 && (!keep ==> Owns(th, p))
    ensures Left(th, p, keep)[b] == th.handles[b] - if keep then 0 else One(p, b)
  {
    RefCount(th.handles, p, b);
  }

  lemma StoreAccounts(th: Thread, a: Action, b: nat, lent: bool, spare: bool)
    requires b != 0 && th.pc.Idle? && a.CallStore?
    requires if a.keep then a.target == b ==> th.handles[b] >= 1 || lent else Owns(th, a.target)
    ensures Guarded(Called(th, a), b, lent, spare) && SameAccounts(th, Called(th, a), b)
  {
    var p, own := a.target, Left(th, a.target, a.keep)[b];
    var todo := Adjust(p, 1, 0, Nil);
    LeftCount(th, p, a.keep, b);
    var strong := own + 2 * One(p, b);
    Pend(strong, 0, p, 1, 0, Nil, b, lent);
    if a.keep { Pend(strong, 0, p, 1, 0, todo, b, lent); }
    Continued(Called(th, a), own, Passed(p, a.keep, todo), ThenSwap(a.cell, p), b, lent, spare);
  }

  lemma KeptCasAccounts(th: Thread, a: Action, b: nat, lent: bool, spare: bool)
    requires b != 0 && th.pc.Idle? && a.CallCas? && a.keep && (a.expected == b ==> th.handles[b] >= 1)
    requires a.desired == b ==> (th.handles[b] >= 1 || lent) && (th.handles[b] >= 1 || spare)
    ensures Guarded(Called(th, a), b, lent, spare) && SameAccounts(th, Called(th, a), b)
  {
    var d, own := a.desired, th.handles[b];
    Pend(own + One(d, b), 0, d, 1, 0, Nil, b, lent);
    Continued(Called(th, a), own, Adjust(d, 1, 0, Nil), ThenAcquire(a.cell, ForCas(a.expected, d, a.seal)), b, lent, spare);
  }

  lemma MovedCasAccounts(th: Thread, a: Action, b: nat, lent: bool, spare: bool)
    requires b != 0 && th.pc.Idle? && a.CallCas? && !a.keep && Owns(th, a.desired)
    requires a.expected == b ==> Left(th, a.desired, false)[b] >= 1
    requires a.desired == b ==> Left(th, a.desired, false)[b] >= 1 || spare
    ensures Guarded(Called(th, a), b, lent, spare) && SameAccounts(th, Called(th, a), b)
  {
    LeftCount(th, a.desired, false, b);
  }

  lemma NoDebtElsewhere(p: nat, x: nat)
    requires x != p
    ensures NoDebt(Adjust(p, 1, 0, Nil), x) && NoDebt(Adjust(p, 1, 0, Adjust(p, 1, 0, Nil)), x)
  {
    var todo := Adjust(p, 1, 0, Nil);
    assert AddsStrong(todo, x) == 0;
    assert AddsStrong(Adjust(p, 1, 0, todo), x) == 0;
  }

  /** A reference read from the data of a block stays there while the call runs. */
  lemma ReadableIsLent(s: State, a: Action, p: nat)
    requires a.t < |s.threads| && s.threads[a.t].pc.Idle? && Applies(s, a)
    requires a == Copy(a.t, p) || (a.CallStore? && a.keep && a.target == p) || (a.CallCas? && a.keep && a.desired == p)
    requires p != 0 && p !in s.threads[a.t].handles
    ensures LinkLent(s.links, Called(s.threads[a.t], a), p)
  {
    var th, th' := s.threads[a.t], Called(s.threads[a.t], a);
    var l :| l in s.links && l.to == p && l.from in th.handles;
    NoDebtElsewhere(p, l.from);
    assert Lends(th', l.from);
  }

  /** A kept reference to `desired` stays with the caller, or stays lent to it. */
  lemma KeptIsSpare(s: State, a: Action)
    requires Inv(s) && a.t < |s.threads| && s.threads[a.t].pc.Idle? && Applies(s, a) && a.CallCas? && Kept(s, a)
    requires a.desired != 0
    ensures var th' := Called(s.threads[a.t], a);
            a.desired in th'.handles || LinkLent(s.links, th', a.desired) || |s.threads| == 1
  {
    var d, th, th' := a.desired, s.threads[a.t], Called(s.threads[a.t], a);
    var left := AfterSeal(th'.handles, a.expected, a.seal);
    if d == a.expected {
      ExpectedStays(th, a, s);
    } else if |s.threads| >= 2 && d !in th'.handles {
      var l :| l in s.links && l.to == d && l.from != d && l.from in left;
      CasLends(th, a, l.from);
    }
  }

  lemma CasLends(th: Thread, a: Action, x: nat)
    requires th.pc.Idle? && a.CallCas? && x != 0 && x != a.desired
    requires x in AfterSeal(Called(th, a).handles, a.expected, a.seal)
    ensures Lends(Called(th, a), x)
  {
    var th', why := Called(th, a), ForCas(a.expected, a.desired, a.seal);
    RefCount(th'.handles, a.expected, x);
    if a.keep {
      KeptCasLends(th', a.cell, why, x);
    } else {
      assert th'.pc == Acquire(a.cell, why);
    }
  }

  lemma KeptCasLends(th: Thread, c: nat, why: Purpose, x: nat)
    requires why.ForCas? && th.pc == Count(Adjust(why.desired, 1, 0, Nil), None, ThenAcquire(c, why))
    requires x != why.desired && th.handles[x] > if why.seal then One(why.expected, x) else 0
    ensures Lends(th, x)
  {
    assert NoDebt(Adjust(why.desired, 1, 0, Nil), x);
    assert Seeks(th.pc) == Some(why);
  }

  lemma ExpectedStays(th: Thread, a: Action, s: State)
    requires a.t < |s.threads| && th == s.threads[a.t] && th.pc.Idle? && Applies(s, a) && a.CallCas? && a.expected != 0
    ensures a.expected in Called(th, a).handles
  {
  }

  lemma CallKeepsAccounts(s: State, a: Action, b: nat)
    requires Inv(s) && a.t < |s.threads| && s.threads[a.t].pc.Idle? && Kept(s, a) && Applies(s, a) && b != 0
    requires !a.Make? && !a.Give? && !a.Attach?
    ensures GuardedAt(CallStep(s, a), a.t, b) && SameAccounts(s.threads[a.t], Called(s.threads[a.t], a), b)
  {
    var th := s.threads[a.t];
    var lent, spare := Lent(CallStep(s, a), a.t, b), Spare(CallStep(s, a), a.t, b);
    match a
    case Copy(_, p) =>
      if p == b && b !in th.handles { ReadableIsLent(s, a, b); }
      CopyAccounts(th, a, b, lent, spare);
    case Drop(_, p) => DropAccounts(th, a, b, lent, spare);
    case CallLoad(_, c) =>
    case CallStore(_, c, p, keep) =>
      if keep && p == b && b !in th.handles { ReadableIsLent(s, a, b); }
      StoreAccounts(th, a, b, lent, spare);
    case CallCas(_, c, e, d, keep, seal) => CasKeepsAccounts(s, a, b, lent, spare);
  }

  lemma CasKeepsAccounts(s: State, a: Action, b: nat, lent: bool, spare: bool)
    requires Inv(s) && a.t < |s.threads| && s.threads[a.t].pc.Idle? && Kept(s, a) && Applies(s, a) && b != 0
    requires a.CallCas?
    requires lent == Lent(CallStep(s, a), a.t, b) && spare == Spare(CallStep(s, a), a.t, b)
    ensures Guarded(Called(s.threads[a.t], a), b, lent, spare)
    ensures SameAccounts(s.threads[a.t], Called(s.threads[a.t], a), b)
  {
    var th := s.threads[a.t];
    if a.expected == b { ExpectedStays(th, a, s); }
    if a.desired == b { KeptIsSpare(s, a); }
    if a.keep {
      if a.desired == b && b !in th.handles { ReadableIsLent(s, a, b); }
      KeptCasAccounts(th, a, b, lent, spare);
    } else {
      MovedCasAccounts(th, a, b, lent, spare);
    }
  }

  lemma CalledInRange(s: State, a: Action)
    requires a.t < |s.threads| && s.threads[a.t].pc.Idle? && Applies(s, a)
    ensures InRange(Called(s.threads[a.t], a).pc, |s.cells|)
  {
  }

  lemma ThreadCallInv(s: State, a: Action)
    requires Inv(s) && a.t < |s.threads| && s.threads[a.t].pc.Idle? && Kept(s, a) && Applies(s, a)
    requires !a.Make? && !a.Give? && !a.Attach?
    ensures Inv(CallStep(s, a))
  {
    forall b | b != 0
      ensures GuardedAt(CallStep(s, a), a.t, b) && SameAccounts(s.threads[a.t], Called(s.threads[a.t], a), b)
    {
      CallKeepsAccounts(s, a, b);
    }
    CalledInRange(s, a);
    CalledInv(s, CallStep(s, a), a.t, Called(s.threads[a.t], a));
  }

  lemma CalledInv(s: State, s': State, t: nat, th: Thread)
    requires Inv(s) && t < |s.threads| && s' == s.(threads := s.threads[t := th]) && InRange(th.pc, |s.cells|)
    requires forall b :: b != 0 ==> GuardedAt(s', t, b) && SameAccounts(s.threads[t], th, b)
    ensures Inv(s')
  {
    ThreadInv(s, s', t);
  }

  lemma MakeInv(s: State, t: nat, addr: nat)
    requires Inv(s) && t < |s.threads| && s.threads[t].pc.Idle? && addr != 0 && addr !in s.blocks
    ensures Inv(CallStep(s, Make(t, addr)))
  {
    var s' := CallStep(s, Make(t, addr));
    NoCellsNoStamps(s.cells, addr);
    forall b | b != 0 ensures Law(s', b) {
      assert Law(s, b);
      ThreadMoves(s.threads, t, s'.threads[t], b);
    }
    MoveKeeps(s, s', t);
  }

  lemma AttachInv(s: State, t: nat, into: nat, p: nat)
    requires Inv(s) && t < |s.threads| && s.threads[t].pc.Idle? && Applies(s, Attach(t, into, p))
    ensures Inv(CallStep(s, Attach(t, into, p)))
  {
    var s' := CallStep(s, Attach(t, into, p));
    HandleKeepsAlive(s, t, into);
    HandleKeepsAlive(s, t, p);
    forall b | b != 0 ensures Law(s', b) {
      assert Law(s, b);
      SumAppend(s.links, Link(into, p), LinkFn(b));
      RefCount(s.threads[t].handles, p, b);
      NoCellsNoStamps(s.cells, b);
      LawMoves(s, s', t, b);
    }
    MoveKeeps(s, s', t);
  }

  /** The receiver may be in the middle of an operation. */
  lemma ReceivedGuarded(s: State, s': State, u: nat, p: nat, b: nat)
    requires u < |s.threads| == |s'.threads| && s'.threads[u] == s.threads[u].(handles := s.threads[u].handles + Ref(p))
    requires s'.links == s.links && s'.cells == s.cells && GuardedAt(s, u, b) && b != 0
    ensures GuardedAt(s', u, b) && Strong(s'.threads[u], b) == Strong(s.threads[u], b) + One(p, b)
    ensures Transient(s'.threads[u], b) == Transient(s.threads[u], b)
    ensures Deletes(s'.threads[u], b) == Deletes(s.threads[u], b)
  {
    if LinkLent(s.links, s.threads[u], b) { MoreLent(s.links, s.threads[u], p, b); }
    GuardedMore(s.threads[u], b, p, Lent(s, u, b), Spare(s, u, b), Lent(s', u, b), Spare(s', u, b));
  }

  lemma MoreLent(links: seq<Link>, th: Thread, p: nat, b: nat)
    requires LinkLent(links, th, b)
    ensures LinkLent(links, th.(handles := th.handles + Ref(p)), b)
  {
    var l :| l in links && l.to == b && l.from != b && Lends(th, l.from);
    assert Lends(th.(handles := th.handles + Ref(p)), l.from);
  }

  lemma GiveLaw(s: State, t: nat, u: nat, p: nat, b: nat)
    requires Inv(s) && t < |s.threads| && u < |s.threads| && t != u && s.threads[t].pc.Idle? && Owns(s.threads[t], p)
    requires b != 0
    ensures Law(CallStep(s, Give(t, u, p)), b) && GuardedAt(CallStep(s, Give(t, u, p)), u, b)
  {
    var s' := CallStep(s, Give(t, u, p));
    var mid := s.threads[t := s'.threads[t]];
    assert Law(s, b) && GuardedAt(s, u, b);
    ThreadMoves(s.threads, t, s'.threads[t], b);
    ThreadMoves(mid, u, s'.threads[u], b);
    RefCount(s.threads[t].handles, p, b);
    ReceivedGuarded(s, s', u, p, b);
  }

  lemma GiveInv(s: State, t: nat, u: nat, p: nat)
    requires Inv(s) && t < |s.threads| && u < |s.threads| && t != u && s.threads[t].pc.Idle? && Owns(s.threads[t], p)
    ensures Inv(CallStep(s, Give(t, u, p)))
  {
    var s' := CallStep(s, Give(t, u, p));
    forall b | b != 0 ensures Law(s', b) { GiveLaw(s, t, u, p, b); }
    forall v, b | 0 <= v < |s'.threads| && b != 0 ensures GuardedAt(s', v, b) {
      if v == u {
        GiveLaw(s, t, u, p, b);
      } else if v != t {
        assert GuardedAt(s, v, b);
        OtherGuarded(s, s', t, v, b);
      }
    }
  }

  lemma CallInv(s: State, a: Action)
    requires Inv(s) && a.t < |s.threads| && s.threads[a.t].pc.Idle? && Kept(s, a) && Applies(s, a)
    ensures Inv(CallStep(s, a))
  {
    if a.Make? {
      MakeInv(s, a.t, a.addr);
    } else if a.Give? {
      GiveInv(s, a.t, a.to, a.p);
    } else if a.Attach? {
      AttachInv(s, a.t, a.into, a.p);
    } else {
      ThreadCallInv(s, a);
    }
  }

  // --- Counting, and the decision to delete

  /** Going on does not end a loan. */
  lemma CountRestLends(s: State, s': State, t: nat, b: nat)
    requires t < |s.threads| == |s'.threads| && s.threads[t].pc.Count? && s'.threads[t].handles == s.threads[t].handles
    requires s'.links == s.links && s'.cells == s.cells
    requires var Count(todo, _, after) := s.threads[t].pc;
      || s'.threads[t].pc == Continue(if todo.Nil? then todo else todo.rest, after)
      || (todo.Adjust? && s'.threads[t].pc == Delete(todo.ptr, todo.rest, after))
      || exists counter :: s'.threads[t].pc == Count(todo, counter, after)
    ensures (Lent(s, t, b) ==> Lent(s', t, b)) && (Spare(s, t, b) ==> Spare(s', t, b))
  {
    if LinkLent(s.links, s.threads[t], b) {
      var l :| l in s.links && l.to == b && l.from != b && Lends(s.threads[t], l.from);
      assert Lends(s'.threads[t], l.from);
    }
  }

  /** Skipping a null pointer, or loading the counter. */
  lemma CountWaits(s: State, s': State, t: nat, b: nat)
    requires Inv(s) && t < |s.threads| == |s'.threads| && s.threads[t].pc.Count? && b != 0
    requires s'.links == s.links && s'.cells == s.cells
    requires var Count(todo, _, after) := s.threads[t].pc;
      exists counter :: s'.threads[t] == s.threads[t].(pc := Count(todo, counter, after))
    ensures GuardedAt(s', t, b) && SameAccounts(s.threads[t], s'.threads[t], b)
  {
    assert GuardedAt(s, t, b);
    CountRestLends(s, s', t, b);
    GuardedMore(s.threads[t], b, 0, Lent(s, t, b), Spare(s, t, b), Lent(s', t, b), Spare(s', t, b));
  }

  lemma SkipAccounts(s: State, s': State, t: nat, b: nat)
    requires Inv(s) && t < |s.threads| == |s'.threads| && s.threads[t].pc.Count? && b != 0
    requires s.threads[t].pc.todo.Nil? || s.threads[t].pc.todo.ptr == 0
    requires s'.links == s.links && s'.cells == s.cells
    requires var Count(todo, _, after) := s.threads[t].pc;
      s'.threads[t] == s.threads[t].(pc := Continue(if todo.Nil? then todo else todo.rest, after))
    ensures GuardedAt(s', t, b) && SameAccounts(s.threads[t], s'.threads[t], b)
  {
    var th := s.threads[t];
    assert GuardedAt(s, t, b);
    CountRestLends(s, s', t, b);
    GuardedMore(th, b, 0, Lent(s, t, b), Spare(s, t, b), Lent(s', t, b), Spare(s', t, b));
    var rest := if th.pc.todo.Nil? then th.pc.todo else th.pc.todo.rest;
    Continued(s'.threads[t], th.handles[b], rest, th.pc.after, b, Lent(s', t, b), Spare(s', t, b));
  }

  lemma ContinueInRange(todo: Todo, after: After, n: nat)
    requires AfterInRange(after, n)
    ensures InRange(Continue(todo, after), n)
  {
  }

  lemma CountInv(s: State, t: nat, flaky: bool)
    requires Inv(s) && t < |s.threads| && s.threads[t].pc.Count?
    ensures Inv(CountStep(s, t, flaky))
  {
    var th, s' := s.threads[t], CountStep(s, t, flaky);
    var Count(todo, counter, after) := th.pc;
    assert InRange(th.pc, |s.cells|);
    if todo.Nil? || todo.ptr == 0 {
      var rest := if todo.Nil? then todo else todo.rest;
      ContinueInRange(rest, after, |s.cells|);
      forall b | b != 0 ensures GuardedAt(s', t, b) && SameAccounts(th, s'.threads[t], b) { SkipAccounts(s, s', t, b); }
      ThreadInv(s, s', t);
    } else {
      CountedIsAlive(s, t);
      if counter == Some(s.blocks[todo.ptr]) && !flaky {
        CountedInv(s, t);
      } else {
        assert s'.threads[t] == th.(pc := Count(todo, Some(s.blocks[todo.ptr]), after));
        forall b | b != 0 ensures GuardedAt(s', t, b) && SameAccounts(th, s'.threads[t], b) { CountWaits(s, s', t, b); }
        ThreadInv(s, s', t);
      }
    }
  }

  lemma CountedIsAlive(s: State, t: nat)
    requires Inv(s) && t < |s.threads| && s.threads[t].pc.Count? && s.threads[t].pc.todo.Adjust?
    requires s.threads[t].pc.todo.ptr != 0
    ensures s.threads[t].pc.todo.ptr in s.blocks && s.blocks[s.threads[t].pc.todo.ptr] != Block(0, 0)
  {
    assert GuardedAt(s, t, s.threads[t].pc.todo.ptr);
    TouchedIsAlive(s, t, s.threads[t].pc.todo.ptr);
  }

  /** A successful compare-and-swap of a counter, which may bring it to zero. */
  lemma CountedInv(s: State, t: nat)
    requires Inv(s) && t < |s.threads| && s.threads[t].pc.Count? && s.threads[t].pc.todo.Adjust?
    requires s.threads[t].pc.todo.ptr != 0 && s.threads[t].pc.todo.ptr in s.blocks
    requires s.blocks[s.threads[t].pc.todo.ptr] != Block(0, 0)
    requires s.threads[t].pc.counter == Some(s.blocks[s.threads[t].pc.todo.ptr])
    ensures Inv(CountStep(s, t, false))
  {
    var th, s' := s.threads[t], CountStep(s, t, false);
    var todo, after := th.pc.todo, th.pc.after;
    forall b | b != 0 ensures GuardedAt(s', t, b) && Law(s', b) {
      assert Law(s, b) && GuardedAt(s, t, b);
      ThreadMoves(s.threads, t, s'.threads[t], b);
      CountRestLends(s, s', t, b);
      CountedAccounts(th, s'.threads[t], b, Lent(s, t, b), Spare(s, t, b), Lent(s', t, b), Spare(s', t, b));
    }
    assert InRange(th.pc, |s.cells|);
    ContinueInRange(todo.rest, after, |s.cells|);
    MoveKeeps(s, s', t);
  }

  lemma CountedAccounts(th: Thread, th': Thread, b: nat, lent: bool, spare: bool, lent': bool, spare': bool)
    requires b != 0 && Guarded(th, b, lent, spare) && th.pc.Count? && th.pc.todo.Adjust? && th'.handles == th.handles
    requires (lent ==> lent') && (spare ==> spare')
    requires th'.pc == Continue(th.pc.todo.rest, th.pc.after) || th'.pc == Delete(th.pc.todo.ptr, th.pc.todo.rest, th.pc.after)
    ensures Guarded(th', b, lent', spare')
    ensures Strong(th', b) == Strong(th, b) + if th.pc.todo.ptr == b then th.pc.todo.strong else 0
    ensures Transient(th', b) == Transient(th, b) + if th.pc.todo.ptr == b then th.pc.todo.transient else 0
    ensures Deletes(th, b) == 0 && Deletes(th', b) == if th'.pc.Delete? then One(th.pc.todo.ptr, b) else 0
  {
    GuardedMore(th, b, 0, lent, spare, lent', spare');
    if !th'.pc.Delete? {
      Continued(th', th.handles[b], th.pc.todo.rest, th.pc.after, b, lent', spare');
    }
  }

  // --- Deleting a block

  lemma {:induction false} ReleasedAdds(links: seq<Link>, p: nat, todo: Todo, b: nat)
    ensures AddsStrong(Released(links, p, todo), b) == AddsStrong(todo, b) - LinksTo(links, b) + LinksTo(Without(links, p), b)
    ensures AddsTransient(Released(links, p, todo), b) == AddsTransient(todo, b)
  {
    if links != [] {
      ReleasedAdds(links[1..], p, todo, b);
      assert ([links[0]] + Without(links[1..], p))[1..] == Without(links[1..], p);
    }
  }

  lemma {:induction false} ReleasedBacked(strong: int, owed: int, links: seq<Link>, p: nat, todo: Todo, b: nat, lent: bool)
    requires Backed(strong, owed, todo, b, lent)
    ensures Backed(strong, owed, Released(links, p, todo), b, lent)
  {
    if links != [] {
      ReleasedBacked(strong, owed, links[1..], p, todo, b, lent);
      Pend(strong, owed, links[0].to, -1, 0, Released(links[1..], p, todo), b, lent);
    }
  }

  lemma {:induction false} ReleasedNoDebt(links: seq<Link>, p: nat, todo: Todo, x: nat)
    requires NoDebt(todo, x)
    ensures NoDebt(Released(links, p, todo), x)
  {
    if links != [] { ReleasedNoDebt(links[1..], p, todo, x); }
  }

  lemma {:induction false} WithoutKeeps(links: seq<Link>, p: nat)
    ensures forall l :: l in Without(links, p) <==> l in links && l.from != p
  {
    if links != [] {
      WithoutKeeps(links[1..], p);
      assert links == [links[0]] + links[1..];
    }
  }

  lemma NoLinks(links: seq<Link>, b: nat)
    requires forall l :: l in links ==> l.to != b
    ensures LinksTo(links, b) == 0
  {
    SumAllZero(links, LinkFn(b));
  }

  lemma DeletesCounts(ts: seq<Thread>, t: nat, b: nat)
    requires t < |ts|
    ensures 0 <= Deletes(ts[t], b) <= Deleters(ts, b)
  {
    SumBounds(ts, DeletesFn(b));
    assert DeletesFn(b)(ts[t]) == Deletes(ts[t], b);
  }

  /** Whoever deletes a block has brought its counts to zero. */
  lemma DoomedIsDead(s: State, t: nat)
    requires Inv(s) && t < |s.threads| && s.threads[t].pc.Delete?
    ensures var p := s.threads[t].pc.ptr; p != 0 && p in s.blocks && s.blocks[p] == Block(0, 0)
  {
    var p := s.threads[t].pc.ptr;
    assert InRange(s.threads[t].pc, |s.cells|) && Law(s, p);
    DeletesCounts(s.threads, t, p);
  }

  lemma LenderIsNotDoomed(s: State, p: nat)
    requires Inv(s) && p != 0 && p in s.blocks && s.blocks[p] == Block(0, 0)
    ensures forall u :: 0 <= u < |s.threads| ==> !Lends(s.threads[u], p)
  {
    DeadIsUnreferenced(s, p);
    forall u | 0 <= u < |s.threads| ensures !Lends(s.threads[u], p) {
      if Lends(s.threads[u], p) { LenderStands(s, u, p); }
    }
  }

  lemma DeleteLaw(s: State, s': State, t: nat, b: nat)
    requires Inv(s) && t < |s.threads| && s.threads[t].pc.Delete? && s' == TickStep(s, t, false) && b != 0
    ensures Law(s', b)
  {
    var th := s.threads[t];
    var Delete(p, todo, after) := th.pc;
    DoomedIsDead(s, t);
    DeadIsUnreferenced(s, p);
    assert Law(s, b) && GuardedAt(s, t, b);
    ReleasedAdds(s.links, p, todo, b);
    ThreadMoves(s.threads, t, s'.threads[t], b);
    LinksCount(s.links, b);
    WithoutKeeps(s.links, p);
    if b == p || b !in s.blocks { NoLinks(s'.links, b); }
    NoCellsNoStamps(s.cells, b);
    DeletedAccounts(th, s'.threads[t], Released(s.links, p, todo), b, Lent(s, t, b), Spare(s, t, b));
  }

  lemma DeletedAccounts(th: Thread, th': Thread, released: Todo, b: nat, lent: bool, spare: bool)
    requires b != 0 && th.pc.Delete? && Guarded(th, b, lent, spare) && th' == th.(pc := Continue(released, th.pc.after))
    ensures Strong(th', b) == Strong(th, b) + AddsStrong(th.pc.todo, b) - AddsStrong(released, b)
    ensures Transient(th', b) == Transient(th, b) + AddsTransient(th.pc.todo, b) - AddsTransient(released, b)
    ensures Deletes(th', b) == 0 && Deletes(th, b) == One(th.pc.ptr, b)
  {
  }

  lemma DeleteLoans(s: State, s': State, t: nat, b: nat)
    requires Inv(s) && t < |s.threads| && s.threads[t].pc.Delete? && s' == TickStep(s, t, false) && b != 0
    ensures (Lent(s, t, b) ==> Lent(s', t, b)) && (Spare(s, t, b) ==> Spare(s', t, b))
  {
    var th := s.threads[t];
    var p := th.pc.ptr;
    DoomedIsDead(s, t);
    LenderIsNotDoomed(s, p);
    WithoutKeeps(s.links, p);
    if LinkLent(s.links, th, b) {
      var l :| l in s.links && l.to == b && l.from != b && Lends(th, l.from);
      ReleasedNoDebt(s.links, p, th.pc.todo, l.from);
      assert Lends(s'.threads[t], l.from) && l in s'.links;
    }
  }

  lemma DeleteGuarded(s: State, s': State, t: nat, b: nat)
    requires Inv(s) && t < |s.threads| && s.threads[t].pc.Delete? && s' == TickStep(s, t, false) && b != 0
    ensures GuardedAt(s', t, b)
  {
    var th := s.threads[t];
    var Delete(p, todo, after) := th.pc;
    DoomedIsDead(s, t);
    DeleteLoans(s, s', t, b);
    assert GuardedAt(s, t, b);
    GuardedMore(th, b, 0, Lent(s, t, b), Spare(s, t, b), Lent(s', t, b), Spare(s', t, b));
    ReleasedBacked(th.handles[b] + HeldAfter(after, b), OwedAfter(after, b), s.links, p, todo, b, Lent(s', t, b));
    Continued(s'.threads[t], th.handles[b], Released(s.links, p, todo), after, b, Lent(s', t, b), Spare(s', t, b));
  }

  lemma DeleteInv(s: State, t: nat)
    requires Inv(s) && t < |s.threads| && s.threads[t].pc.Delete?
    ensures Inv(TickStep(s, t, false)) && forall flaky :: TickStep(s, t, flaky) == TickStep(s, t, false)
  {
    var Delete(p, todo, after) := s.threads[t].pc;
    var s' := TickStep(s, t, false);
    DoomedIsDead(s, t);
    LenderIsNotDoomed(s, p);
    WithoutKeeps(s.links, p);
    forall b | b != 0 ensures Law(s', b) && GuardedAt(s', t, b) {
      DeleteLaw(s, s', t, b);
      DeleteGuarded(s, s', t, b);
    }
    assert InRange(s.threads[t].pc, |s.cells|);
    ContinueInRange(Released(s.links, p, todo), after, |s.cells|);
    MoveKeeps(s, s', t);
  }

  // --- Cells

  /** The lists of calls that follow an acquisition need no loan. */
  lemma AdoptBacked(own: int, p: nat, rest: Todo, b: nat, lent: bool)
    requires own >= One(p, b) && OnlyDrops(rest)
    ensures Backed(own, 0, Adopt(p, rest), b, lent)
    ensures AddsStrong(Adopt(p, rest), b) == AddsStrong(rest, b) + One(p, b)
    ensures AddsTransient(Adopt(p, rest), b) == AddsTransient(rest, b) - One(p, b)
  {
    DropsBacked(own, 0, rest, b, lent);
    DropsCount(rest, b);
    Pend(own, 0, p, 0, -1, rest, b, lent);
    Pend(own, 0, p, 1, 0, Adjust(p, 0, -1, rest), b, lent);
  }

  lemma FoldBacked(own: int, p: nat, drops: Todo, b: nat, lent: bool)
    requires own >= One(p, b) && OnlyDrops(drops)
    ensures Backed(own - AddsStrong(drops, b), LIMIT * One(p, b), Adopt(p, Adjust(p, 0, LIMIT, Nil)), b, lent)
    ensures AddsStrong(Adopt(p, Adjust(p, 0, LIMIT, Nil)), b) == One(p, b)
    ensures AddsTransient(Adopt(p, Adjust(p, 0, LIMIT, Nil)), b) == (LIMIT - 1) * One(p, b)
  {
    DropsCount(drops, b);
    var strong, owed, fold := own - AddsStrong(drops, b), LIMIT * One(p, b), Adjust(p, 0, LIMIT, Nil);
    Pend(strong, owed, p, 0, LIMIT, Nil, b, lent);
    Pend(strong, owed, p, 0, -1, fold, b, lent);
    Pend(strong, owed, p, 1, 0, Adjust(p, 0, -1, fold), b, lent);
  }

  lemma AdoptedAccounts(th: Thread, own: int, p: nat, drops: Todo, b: nat, lent: bool, spare: bool)
    requires b != 0 && th.pc == Continue(Adopt(p, drops), Finish) && th.handles[b] == own >= One(p, b)
    requires OnlyDrops(drops)
    ensures Guarded(th, b, lent, spare) && Deletes(th, b) == 0
    ensures Strong(th, b) == own - One(p, b) - AddsStrong(drops, b) && Transient(th, b) == One(p, b)
  {
    DropsCount(drops, b);
    AdoptBacked(own, p, drops, b, lent);
    Continued(th, own, Adopt(p, drops), Finish, b, lent, spare);
  }

  lemma FoldedAccounts(th: Thread, own: int, after: After, p: nat, b: nat, lent: bool, spare: bool)
    requires after.ThenWrite? && after.value.ptr == p && OnlyDrops(after.drops)
    requires b != 0 && th.pc == Continue(Adopt(p, Adjust(p, 0, LIMIT, Nil)), after) && th.handles[b] == own >= One(p, b)
    ensures Guarded(th, b, lent, spare) && Deletes(th, b) == 0
    ensures Strong(th, b) == own - One(p, b) - AddsStrong(after.drops, b) && Transient(th, b) == One(p, b)
  {
    FoldBacked(own, p, after.drops, b, lent);
    Continued(th, own, Adopt(p, Adjust(p, 0, LIMIT, Nil)), after, b, lent, spare);
  }

  lemma AdoptingAccounts(th: Thread, c: nat, got: Stamped, drops: Todo, b: nat, lent: bool, spare: bool)
    requires b != 0 && th.pc == Adopting(c, got, drops) && th.handles[b] >= One(got.ptr, b) && OnlyDrops(drops)
    ensures Guarded(th, b, lent, spare) && Deletes(th, b) == 0
    ensures Strong(th, b) == th.handles[b] - One(got.ptr, b) - AddsStrong(drops, b)
    ensures Transient(th, b) == One(got.ptr, b)
  {
    if got.stamp <= LIMIT {
      AdoptedAccounts(th, th.handles[b], got.ptr, drops, b, lent, spare);
    } else {
      var after := ThenWrite(c, Stamped(got.ptr, got.stamp - LIMIT), drops);
      FoldedAccounts(th, th.handles[b], after, got.ptr, b, lent, spare);
    }
  }

  lemma ReloadDrops(e: nat, d: nat, b: nat)
    ensures OnlyDrops(AfterReload(e, d)) && AddsStrong(AfterReload(e, d), b) == -2 * One(e, b) - One(d, b)
  {
    var l := Adjust(d, -1, 0, Nil);
    assert OnlyDrops(l) && OnlyDrops(Adjust(e, -1, 0, l));
    assert AddsStrong(l, b) == 0 - One(d, b);
    assert AddsStrong(Adjust(e, -1, 0, l), b) == 0 - One(e, b) - One(d, b);
  }

  lemma MismatchBacked(own: int, p: nat, e: nat, d: nat, b: nat, lent: bool)
    requires own >= 0 && p != e && (e == b ==> own >= 1)
    ensures Backed(own - One(e, b) + One(p, b), 0, AfterMismatch(p, e, d), b, lent)
    ensures AddsStrong(AfterMismatch(p, e, d), b) == One(p, b) - One(e, b) - One(d, b)
    ensures AddsTransient(AfterMismatch(p, e, d), b) == -One(p, b)
  {
    var strong := own - One(e, b) + One(p, b);
    var l1 := Adjust(d, -1, 0, Nil);
    var l2 := Adjust(p, 0, -1, l1);
    Pend(strong, 0, d, -1, 0, Nil, b, lent);
    Pend(strong, 0, p, 0, -1, l1, b, lent);
    Pend(strong, 0, e, -1, 0, l2, b, lent);
    Pend(strong, 0, p, 1, 0, Adjust(e, -1, 0, l2), b, lent);
  }

  lemma AfterSwapBacked(own: int, prev: Stamped, target: nat, b: nat, lent: bool)
    requires own >= 0
    ensures Backed(own, 0, AfterSwap(prev, target), b, lent)
    ensures AddsStrong(AfterSwap(prev, target), b) == -One(prev.ptr, b) - One(target, b)
    ensures AddsTransient(AfterSwap(prev, target), b) == StampOf(prev, b)
  {
    var p := prev.ptr;
    var l1 := Adjust(target, -1, 0, Nil);
    var l2 := Adjust(p, -1, 0, l1);
    var l3 := Adjust(p, -1, prev.stamp, l2);
    Pend(own, 0, target, -1, 0, Nil, b, lent);
    Pend(own, 0, p, -1, 0, l1, b, lent);
    Pend(own, 0, p, -1, prev.stamp, l2, b, lent);
    Pend(own, 0, p, 1, 0, l3, b, lent);
  }

  lemma AfterSwingBacked(own: int, held: Stamped, d: nat, b: nat, lent: bool)
    requires own >= 0 && (held.ptr == b ==> held.stamp >= 1) && (d == b != held.ptr ==> own >= 1 || lent)
    ensures Backed(own, 0, AfterSwing(held, d), b, lent)
    ensures AddsStrong(AfterSwing(held, d), b) == -One(held.ptr, b)
    ensures AddsTransient(AfterSwing(held, d), b) == if held.ptr == b then held.stamp - 1 else 0
  {
    var l1 := Adjust(d, -1, 0, Nil);
    var l2 := Adjust(held.ptr, -1, held.stamp - 1, l1);
    Pend(own, 0, d, -1, 0, Nil, b, lent);
    Pend(own, 0, held.ptr, -1, held.stamp - 1, l1, b, lent);
    Pend(own, 0, d, 1, 0, l2, b, lent);
  }

  /** A pointer just acquired: the thread gains an acquisition of it and nothing else changes. */
  lemma LoadAccounts(th: Thread, th': Thread, c: nat, got: Stamped, b: nat, lent: bool, spare: bool)
    requires b != 0 && (th.pc.Acquire? || th.pc.Stamp?)
    requires th.pc.why.ForLoad? && th'.handles == th.handles + Ref(got.ptr) && th'.pc == Adopting(c, got, Nil)
    ensures Guarded(th', b, lent, spare) && Deletes(th', b) == Deletes(th, b)
    ensures Strong(th', b) == Strong(th, b) && Transient(th', b) == Transient(th, b) + One(got.ptr, b)
  {
    RefCount(th.handles, got.ptr, b);
    AdoptingAccounts(th', c, got, Nil, b, lent, spare);
  }

  lemma ReloadAccounts(th: Thread, th': Thread, c: nat, got: Stamped, b: nat, lent: bool, spare: bool, lent': bool, spare': bool)
    requires b != 0 && (th.pc.Acquire? || th.pc.Stamp?) && Guarded(th, b, lent, spare)
    requires th.pc.why.ForReload? && th'.handles == th.handles - Ref(th.pc.why.expected) + Ref(got.ptr)
    requires th'.pc == Adopting(c, got, AfterReload(th.pc.why.expected, th.pc.why.desired))
    ensures Guarded(th', b, lent', spare') && Deletes(th', b) == Deletes(th, b)
    ensures Strong(th', b) == Strong(th, b) && Transient(th', b) == Transient(th, b) + One(got.ptr, b)
  {
    var e, d := th.pc.why.expected, th.pc.why.desired;
    RefCount(th.handles, e, b);
    RefCount(th.handles - Ref(e), got.ptr, b);
    ReloadDrops(e, d, b);
    AdoptingAccounts(th', c, got, AfterReload(e, d), b, lent', spare');
  }

  lemma MismatchAccounts(th: Thread, th': Thread, got: Stamped, b: nat, lent: bool, spare: bool, lent': bool, spare': bool)
    requires b != 0 && (th.pc.Acquire? || th.pc.Stamp?) && Guarded(th, b, lent, spare)
    requires th.pc.why.ForCas? && got.ptr != th.pc.why.expected
    requires th'.handles == th.handles - Ref(th.pc.why.expected) + Ref(got.ptr)
    requires th'.pc == Continue(AfterMismatch(got.ptr, th.pc.why.expected, th.pc.why.desired), Finish)
    ensures Guarded(th', b, lent', spare') && Deletes(th', b) == Deletes(th, b)
    ensures Strong(th', b) == Strong(th, b) && Transient(th', b) == Transient(th, b) + One(got.ptr, b)
  {
    var e, d := th.pc.why.expected, th.pc.why.desired;
    RefCount(th.handles, e, b);
    RefCount(th.handles - Ref(e), got.ptr, b);
    MismatchBacked(th.handles[b], got.ptr, e, d, b, lent');
    Continued(th', th'.handles[b], AfterMismatch(got.ptr, e, d), Finish, b, lent', spare');
  }

  /** CompareExchangeWeak found what it expected: what was lent to it still is. */
  lemma MatchAccounts(links: seq<Link>, th: Thread, th': Thread, got: Stamped, b: nat, lent: bool, solo: bool, lent': bool)
    requires b != 0 && (th.pc.Acquire? || th.pc.Stamp?) && th.pc.why.ForCas? && got.ptr == th.pc.why.expected
    requires Guarded(th, b, lent, LinkLent(links, th, b) || solo) && (got.ptr != 0 ==> got.stamp >= 1)
    requires th' == th.(pc := Swing(th.pc.cell, got, th.pc.why.desired, th.pc.why.seal))
    ensures Guarded(th', b, lent', LinkLent(links, th', b) || solo) && Deletes(th', b) == Deletes(th, b)
    ensures Strong(th', b) == Strong(th, b) && Transient(th', b) == Transient(th, b) + One(got.ptr, b)
  {
    if LinkLent(links, th, b) {
      var l :| l in links && l.to == b && l.from != b && Lends(th, l.from);
      assert Lends(th', l.from);
    }
  }

  lemma AcquireAccounts(s: State, s': State, t: nat, c: nat, got: Stamped, why: Purpose, b: nat)
    requires Inv(s) && t < |s.threads| == |s'.threads| && b != 0
    requires (s.threads[t].pc.Acquire? || s.threads[t].pc.Stamp?) && s.threads[t].pc.cell == c && s.threads[t].pc.why == why
    requires s'.threads == Acquired(s, t, c, got, why).threads && s'.links == s.links && (got.ptr != 0 ==> got.stamp >= 1)
    ensures GuardedAt(s', t, b) && Deletes(s'.threads[t], b) == Deletes(s.threads[t], b)
    ensures Strong(s'.threads[t], b) == Strong(s.threads[t], b)
    ensures Transient(s'.threads[t], b) == Transient(s.threads[t], b) + One(got.ptr, b)
  {
    var th, th' := s.threads[t], s'.threads[t];
    var lent, spare, lent', spare' := Lent(s, t, b), Spare(s, t, b), Lent(s', t, b), Spare(s', t, b);
    assert GuardedAt(s, t, b);
    if why.ForLoad? {
      LoadAccounts(th, th', c, got, b, lent', spare');
    } else if why.ForReload? {
      ReloadAccounts(th, th', c, got, b, lent, spare, lent', spare');
    } else if got.ptr != why.expected {
      MismatchAccounts(th, th', got, b, lent, spare, lent', spare');
    } else {
      MatchAccounts(s.links, th, th', got, b, lent, |s.threads| == 1, lent');
    }
  }

  lemma AcquiredInRange(s: State, t: nat, c: nat, got: Stamped, why: Purpose)
    requires t < |s.threads| && (s.threads[t].pc.Acquire? || s.threads[t].pc.Stamp?) && InRange(s.threads[t].pc, |s.cells|)
    requires s.threads[t].pc.cell == c && s.threads[t].pc.why == why && got.stamp <= MAX_STAMP && (got.ptr == 0 ==> got.stamp == 0)
    ensures InRange(Acquired(s, t, c, got, why).threads[t].pc, |s.cells|)
  {
  }

  /** A cell's stamp is one higher and the thread has one acquisition of that block more. */
  lemma RaisedLaw(s: State, s': State, t: nat, c: nat, b: nat)
    requires Law(s, b) && t < |s.threads| == |s'.threads| && c < |s.cells| && s.cells[c].ptr != 0
    requires s'.threads == s.threads[t := s'.threads[t]] && s'.blocks == s.blocks && s'.links == s.links
    requires s'.cells == s.cells[c := Stamped(s.cells[c].ptr, s.cells[c].stamp + 1)]
    requires Deletes(s'.threads[t], b) == Deletes(s.threads[t], b) && Strong(s'.threads[t], b) == Strong(s.threads[t], b)
    requires Transient(s'.threads[t], b) == Transient(s.threads[t], b) + One(s.cells[c].ptr, b)
    ensures Law(s', b)
  {
    CellMoves(s.cells, c, s'.cells[c], b);
    NoCellsNoStamps(s.cells, b);
    NoCellsNoStamps(s'.cells, b);
    LawMoves(s, s', t, b);
  }

  /** An acquisition raises the stamp of its cell and is accounted to its thread. */
  lemma StampedBlock(s: State, s': State, t: nat, c: nat, next: Stamped, why: Purpose, b: nat)
    requires Inv(s) && t < |s.threads| && c < |s.cells| && b != 0
    requires s.threads[t].pc == Stamp(c, s.cells[c], why) && s.cells[c].ptr != 0
    requires next == Stamped(s.cells[c].ptr, s.cells[c].stamp + 1)
    requires s' == Acquired(s.(cells := s.cells[c := next]), t, c, next, why)
    ensures Law(s', b) && GuardedAt(s', t, b)
  {
    assert Law(s, b);
    AcquireAccounts(s, s', t, c, next, why, b);
    RaisedLaw(s, s', t, c, b);
  }

  lemma StampedFrame(s: State, s': State, t: nat)
    requires Inv(s) && t < |s.threads| && s.threads[t].pc.Stamp? && s.threads[t].pc.cell < |s.cells|
    requires s.threads[t].pc.seen.stamp < MAX_STAMP && s.threads[t].pc.seen.ptr != 0
    requires var Stamp(c, seen, why) := s.threads[t].pc;
      var next := Stamped(seen.ptr, seen.stamp + 1); s' == Acquired(s.(cells := s.cells[c := next]), t, c, next, why)
    ensures !s'.fault && 0 !in s'.blocks && |s'.cells| == |s.cells| && CellsOk(s'.cells) && LinksOk(s') && KeepsLinks(s, s', t)
    ensures |s'.threads| == |s.threads|
    ensures forall u :: 0 <= u < |s.threads| && u != t ==> s'.threads[u] == s.threads[u]
  {
  }

  lemma StampedInv(s: State, t: nat)
    requires Inv(s) && t < |s.threads| && s.threads[t].pc.Stamp?
    requires s.cells[s.threads[t].pc.cell] == s.threads[t].pc.seen && s.threads[t].pc.seen.stamp < MAX_STAMP
    ensures Inv(TickStep(s, t, false))
  {
    var Stamp(c, seen, why) := s.threads[t].pc;
    var next, s' := Stamped(seen.ptr, seen.stamp + 1), TickStep(s, t, false);
    assert InRange(s.threads[t].pc, |s.cells|) && Word(next) == next;
    StampedFrame(s, s', t);
    forall b | b != 0 ensures Law(s', b) && GuardedAt(s', t, b) { StampedBlock(s, s', t, c, next, why, b); }
    AcquiredInRange(s, t, c, next, why);
    MoveKeeps(s, s', t);
  }

  lemma NullInv(s: State, s': State, t: nat)
    requires Inv(s) && t < |s.threads| && (s.threads[t].pc.Acquire? || s.threads[t].pc.Stamp?)
    requires s.threads[t].pc.cell < |s.cells| && s.cells[s.threads[t].pc.cell].ptr == 0
    requires s' == Acquired(s, t, s.threads[t].pc.cell, s.cells[s.threads[t].pc.cell], s.threads[t].pc.why)
    ensures Inv(s')
  {
    var c, why := s.threads[t].pc.cell, s.threads[t].pc.why;
    forall b | b != 0 ensures GuardedAt(s', t, b) && SameAccounts(s.threads[t], s'.threads[t], b) {
      AcquireAccounts(s, s', t, c, s.cells[c], why, b);
    }
    assert InRange(s.threads[t].pc, |s.cells|);
    AcquiredInRange(s, t, c, s.cells[c], why);
    ThreadInv(s, s', t);
  }

  /** The cell was read, or has changed: try to raise its stamp now. */
  lemma RetryInv(s: State, t: nat)
    requires Inv(s) && t < |s.threads| && (s.threads[t].pc.Acquire? || s.threads[t].pc.Stamp?)
    requires s.threads[t].pc.cell < |s.cells| && s.cells[s.threads[t].pc.cell].ptr != 0
    ensures Inv(Goto(s, t, Stamp(s.threads[t].pc.cell, s.cells[s.threads[t].pc.cell], s.threads[t].pc.why)))
  {
    var th := s.threads[t];
    var s' := Goto(s, t, Stamp(th.pc.cell, s.cells[th.pc.cell], th.pc.why));
    forall b | b != 0 ensures GuardedAt(s', t, b) && SameAccounts(th, s'.threads[t], b) {
      assert GuardedAt(s, t, b);
      SameLoans(s, s', t, b);
    }
    assert InRange(th.pc, |s.cells|);
    ThreadInv(s, s', t);
  }

  lemma SameLoans(s: State, s': State, t: nat, b: nat)
    requires t < |s.threads| == |s'.threads| && s'.links == s.links && s'.threads[t].handles == s.threads[t].handles
    requires (s.threads[t].pc.Acquire? || s.threads[t].pc.Stamp?) && s'.threads[t].pc.Stamp?
    requires s'.threads[t].pc.why == s.threads[t].pc.why
    ensures Spare(s, t, b) ==> Spare(s', t, b)
  {
    if LinkLent(s.links, s.threads[t], b) {
      var l :| l in s.links && l.to == b && l.from != b && Lends(s.threads[t], l.from);
      assert Lends(s'.threads[t], l.from);
    }
  }

  lemma AcquiredInv(s: State, t: nat, flaky: bool)
    requires Inv(s) && t < |s.threads| && (s.threads[t].pc.Acquire? || s.threads[t].pc.Stamp?)
    requires StampsFit(s, Tick(t, flaky))
    ensures Inv(TickStep(s, t, flaky))
  {
    var pc := s.threads[t].pc;
    assert InRange(pc, |s.cells|);
    if pc.Stamp? && !flaky && s.cells[pc.cell] == pc.seen {
      StampedInv(s, t);
    } else if s.cells[pc.cell].ptr == 0 {
      NullInv(s, TickStep(s, t, flaky), t);
    } else {
      RetryInv(s, t);
    }
  }

  lemma SwapGuarded(s: State, s': State, t: nat, b: nat)
    requires Inv(s) && t < |s.threads| && s.threads[t].pc.Swap? && s' == TickStep(s, t, false) && b != 0
    ensures Law(s', b) && GuardedAt(s', t, b)
  {
    var Swap(c, target) := s.threads[t].pc;
    var th, th', list := s.threads[t], s'.threads[t], AfterSwap(s.cells[s.threads[t].pc.cell], target);
    assert Law(s, b) && InRange(th.pc, |s.cells|);
    if target != 0 { TouchedIsAlive(s, t, target); }
    AfterSwapBacked(th.handles[b], s.cells[c], target, b, Lent(s', t, b));
    Continued(th', th.handles[b], list, Finish, b, Lent(s', t, b), Spare(s', t, b));
    CellMoves(s.cells, c, Stamped(target, 0), b);
    NoCellsNoStamps(s.cells, b);
    NoCellsNoStamps(s'.cells, b);
    LawMoves(s, s', t, b);
  }

  lemma SwapInv(s: State, t: nat)
    requires Inv(s) && t < |s.threads| && s.threads[t].pc.Swap?
    ensures Inv(TickStep(s, t, false)) && forall flaky :: TickStep(s, t, flaky) == TickStep(s, t, false)
  {
    var s' := TickStep(s, t, false);
    assert InRange(s.threads[t].pc, |s.cells|);
    forall b | b != 0 ensures Law(s', b) && GuardedAt(s', t, b) { SwapGuarded(s, s', t, b); }
    MoveKeeps(s, s', t);
  }

  /** What was lent to the thread, or is now published in its cell, remains so. */
  lemma SwungLoans(s: State, t: nat, b: nat)
    requires Inv(s) && t < |s.threads| && s.threads[t].pc.Swing? && s.threads[t].pc.cell < |s.cells| && b != 0
    requires s.threads[t].pc.desired == b && Spare(s, t, b)
    ensures Lent(Swung(s, t), t, b)
  {
    var Swing(c, held, d, seal) := s.threads[t].pc;
    var th, s' := s.threads[t], Swung(s, t);
    NoCellsNoStamps(s'.cells, b);
    assert s'.cells[c].ptr == b;
    if LinkLent(s.links, th, b) {
      var l :| l in s.links && l.to == b && l.from != b && Lends(th, l.from);
      SwungLends(th, s'.threads[t], l.from);
      assert l in s'.links;
    }
  }

  lemma SwungLends(th: Thread, th': Thread, x: nat)
    requires th.pc.Swing? && Lends(th, x) && x != 0
    requires th'.handles == AfterSeal(th.handles, th.pc.held.ptr, th.pc.seal)
    requires th'.pc == Continue(AfterSwing(th.pc.held, th.pc.desired), Finish)
    ensures Lends(th', x)
  {
    var l1 := Adjust(th.pc.desired, -1, 0, Nil);
    var l2 := Adjust(th.pc.held.ptr, -1, th.pc.held.stamp - 1, l1);
    assert NoDebt(l1, x) && NoDebt(l2, x);
    RefCount(th.handles, th.pc.held.ptr, x);
  }

  lemma SwungAccounts(s: State, s': State, t: nat, b: nat)
    requires Inv(s) && t < |s.threads| && s.threads[t].pc.Swing? && s.threads[t].pc.cell < |s.cells| && b != 0
    requires s' == Swung(s, t)
    ensures var Swing(c, held, d, seal) := s.threads[t].pc;
      && GuardedAt(s', t, b) && Deletes(s'.threads[t], b) == 0
      && Strong(s'.threads[t], b) == s.threads[t].handles[b] + One(held.ptr, b) - (if seal then One(held.ptr, b) else 0)
      && Transient(s'.threads[t], b) == 0 - if held.ptr == b then held.stamp - 1 else 0
  {
    var Swing(c, held, d, seal) := s.threads[t].pc;
    var th, th' := s.threads[t], s'.threads[t];
    assert GuardedAt(s, t, b);
    RefCount(th.handles, held.ptr, b);
    if d == b && Spare(s, t, b) { SwungLoans(s, t, b); }
    AfterSwingBacked(th'.handles[b], held, d, b, Lent(s', t, b));
    Continued(th', th'.handles[b], AfterSwing(held, d), Finish, b, Lent(s', t, b), Spare(s', t, b));
  }

  lemma SealedLinks(links: seq<Link>, e: nat, d: nat, seal: bool, b: nat)
    requires b != 0
    ensures LinksTo(links + Sealed(e, d, seal), b) == LinksTo(links, b) + if seal then One(e, b) else 0
  {
    if seal && e != 0 {
      SumAppend(links, Link(d, e), LinkFn(b));
    } else {
      assert links + Sealed(e, d, seal) == links;
    }
  }

  lemma SwungLaw(s: State, s': State, t: nat, b: nat)
    requires Inv(s) && t < |s.threads| && s.threads[t].pc.Swing? && s.threads[t].pc.cell < |s.cells| && b != 0
    requires s' == Swung(s, t) && s.cells[s.threads[t].pc.cell] == s.threads[t].pc.held
    ensures Law(s', b) && GuardedAt(s', t, b)
  {
    var Swing(c, held, d, seal) := s.threads[t].pc;
    assert Law(s, b) && GuardedAt(s, t, b);
    if d == b || held.ptr == b { DesiredIsAlive(s, t); }
    SwungAccounts(s, s', t, b);
    SealedLinks(s.links, held.ptr, d, seal, b);
    CellMoves(s.cells, c, Stamped(d, 0), b);
    NoCellsNoStamps(s.cells, b);
    NoCellsNoStamps(s'.cells, b);
    LinksCount(s.links, b);
    LawMoves(s, s', t, b);
  }

  lemma DesiredIsAlive(s: State, t: nat)
    requires Inv(s) && t < |s.threads| && s.threads[t].pc.Swing?
    ensures s.threads[t].pc.desired != 0 ==> s.threads[t].pc.desired in s.blocks
    ensures s.threads[t].pc.held.ptr != 0 ==> s.threads[t].pc.held.ptr in s.blocks
  {
    var d, e := s.threads[t].pc.desired, s.threads[t].pc.held.ptr;
    if d != 0 { TouchedIsAlive(s, t, d); }
    if e != 0 { TouchedIsAlive(s, t, e); }
  }

  lemma SwungInv(s: State, t: nat)
    requires Inv(s) && t < |s.threads| && s.threads[t].pc.Swing? && s.threads[t].pc.cell < |s.cells|
    requires s.cells[s.threads[t].pc.cell] == s.threads[t].pc.held
    ensures Inv(Swung(s, t))
  {
    var s' := Swung(s, t);
    assert InRange(s.threads[t].pc, |s.cells|);
    DesiredIsAlive(s, t);
    forall b | b != 0 ensures Law(s', b) && GuardedAt(s', t, b) { SwungLaw(s, s', t, b); }
    MoveKeeps(s, s', t);
  }

  /** CompareExchangeWeak lost its swing: it keeps the acquired pointer as a temporary and loads anew. */
  lemma MissInv(s: State, s': State, t: nat)
    requires Inv(s) && t < |s.threads| && s.threads[t].pc.Swing?
    requires var Swing(c, held, d, _) := s.threads[t].pc;
      s' == Goto(s, t, Continue(Adopt(held.ptr, Nil), ThenAcquire(c, ForReload(held.ptr, d))))
    ensures Inv(s')
  {
    var th := s.threads[t];
    var Swing(c, held, d, _) := th.pc;
    forall b | b != 0 ensures GuardedAt(s', t, b) && SameAccounts(th, s'.threads[t], b) {
      assert GuardedAt(s, t, b);
      MissAccounts(th, s'.threads[t], b, Lent(s, t, b), Spare(s, t, b), Lent(s', t, b), Spare(s', t, b));
    }
    assert InRange(th.pc, |s.cells|);
    ThreadInv(s, s', t);
  }

  lemma MissAccounts(th: Thread, th': Thread, b: nat, lent: bool, spare: bool, lent': bool, spare': bool)
    requires b != 0 && th.pc.Swing? && Guarded(th, b, lent, spare)
    requires var Swing(c, held, d, _) := th.pc;
      th' == th.(pc := Continue(Adopt(held.ptr, Nil), ThenAcquire(c, ForReload(held.ptr, d))))
    ensures Guarded(th', b, lent', spare') && SameAccounts(th, th', b)
  {
    var Swing(c, held, d, _) := th.pc;
    var p, own := held.ptr, th.handles[b];
    AdoptBacked(own + One(p, b) + One(d, b), p, Nil, b, lent');
    Continued(th', own, Adopt(p, Nil), ThenAcquire(c, ForReload(p, d)), b, lent', spare');
  }

  lemma SwingInv(s: State, t: nat, flaky: bool)
    requires Inv(s) && t < |s.threads| && s.threads[t].pc.Swing?
    ensures Inv(TickStep(s, t, flaky))
  {
    var pc := s.threads[t].pc;
    assert InRange(pc, |s.cells|) && Word(pc.held) == pc.held;
    if !flaky && s.cells[pc.cell] == pc.held {
      SwungInv(s, t);
    } else {
      MissInv(s, TickStep(s, t, flaky), t);
    }
  }

  /** Load takes off the cell what it has folded into the block. */
  lemma WriteInv(s: State, t: nat)
    requires Inv(s) && t < |s.threads| && s.threads[t].pc.Write? && StampsFit(s, Tick(t, false))
    ensures Inv(TickStep(s, t, false)) && forall flaky :: TickStep(s, t, flaky) == TickStep(s, t, false)
  {
    var Write(c, x, drops) := s.threads[t].pc;
    var th, s' := s.threads[t], TickStep(s, t, false);
    assert InRange(th.pc, |s.cells|) && s.cells[c] == Stamped(x.ptr, x.stamp + LIMIT);
    forall b | b != 0 ensures Law(s', b) && GuardedAt(s', t, b) {
      assert Law(s, b) && GuardedAt(s, t, b);
      DropsCount(drops, b);
      DropsBacked(th.handles[b], 0, drops, b, Lent(s', t, b));
      Continued(s'.threads[t], th.handles[b], drops, Finish, b, Lent(s', t, b), Spare(s', t, b));
      CellMoves(s.cells, c, x, b);
      NoCellsNoStamps(s.cells, b);
      NoCellsNoStamps(s'.cells, b);
      LawMoves(s, s', t, b);
    }
    ContinueInRange(drops, Finish, |s.cells|);
    MoveKeeps(s, s', t);
  }

  // --- Every run

  /** What the theorems assume of stamps: no acquisition succeeds on a stamp at its 16-bit limit, and
      a Load that folds a large stamp finds the cell as it left it when it takes off what it folded. */
  predicate StampsFit(s: State, a: Action) {
    a.Tick? && a.t < |s.threads| ==>
      match s.threads[a.t].pc
      case Stamp(c, seen, _) => c < |s.cells| && !a.flaky && s.cells[c] == seen ==> seen.stamp < MAX_STAMP
      case Write(c, x, _) => c < |s.cells| ==> s.cells[c] == Stamped(x.ptr, x.stamp + LIMIT)
      case _ => true
  }

  /** What the theorems assume of one action: the caller of CompareExchangeWeak keeps `desired`, and
      stamps fit. */
  predicate Fits(s: State, a: Action) {
    Kept(s, a) && StampsFit(s, a)
  }

  lemma TickInv(s: State, a: Action)
    requires Inv(s) && a.Tick? && a.t < |s.threads| && StampsFit(s, a)
    ensures Inv(Step(s, a))
  {
    match s.threads[a.t].pc
    case Idle =>
    case Count(_, _, _) => CountInv(s, a.t, a.flaky);
    case Delete(_, _, _) => DeleteInv(s, a.t);
    case Acquire(_, _) => AcquiredInv(s, a.t, a.flaky);
    case Stamp(_, _, _) => AcquiredInv(s, a.t, a.flaky);
    case Swap(_, _) => SwapInv(s, a.t);
    case Swing(_, _, _, _) => SwingInv(s, a.t, a.flaky);
    case Write(_, _, _) => WriteInv(s, a.t);
  }

  lemma FittingStepInv(s: State, a: Action)
    requires Inv(s) && Fits(s, a)
    ensures Inv(Step(s, a))
  {
    if a.t < |s.threads| {
      if a.Tick? {
        TickInv(s, a);
      } else if s.threads[a.t].pc.Idle? && Applies(s, a) {
        CallInv(s, a);
      }
    }
  }

  /** The stamp restarts at 0, or an overwriting store loses what has happened to the cell. */
  lemma OverflowBreaks(s: State, a: Action)
    requires Inv(s) && a.Tick? && a.t < |s.threads| && s.threads[a.t].pc.Stamp? && !StampsFit(s, a)
    ensures !Law(Step(s, a), s.threads[a.t].pc.seen.ptr)
  {
    var t, s' := a.t, Step(s, a);
    var Stamp(c, seen, why) := s.threads[t].pc;
    var b, next := seen.ptr, Stamped(seen.ptr, seen.stamp + 1);
    assert InRange(s.threads[t].pc, |s.cells|) && seen.stamp == MAX_STAMP && Word(next) == Stamped(b, 0);
    assert s' == Acquired(s.(cells := s.cells[c := Word(next)]), t, c, next, why);
    assert Law(s, b);
    NoCellsNoStamps(s.cells, b);
    AcquireAccounts(s, s', t, c, next, why, b);
    ThreadMoves(s.threads, t, s'.threads[t], b);
    CellMoves(s.cells, c, Word(next), b);
  }

  lemma LostUpdateBreaks(s: State, a: Action)
    requires Inv(s) && a.Tick? && a.t < |s.threads| && s.threads[a.t].pc.Write? && !StampsFit(s, a)
    ensures !Law(Step(s, a), s.threads[a.t].pc.value.ptr)
  {
    var t, s' := a.t, Step(s, a);
    var Write(c, x, drops) := s.threads[t].pc;
    var b := x.ptr;
    assert InRange(s.threads[t].pc, |s.cells|) && GuardedAt(s, t, b) && Law(s, b);
    DropsCount(drops, b);
    DropsBacked(s.threads[t].handles[b], 0, drops, b, false);
    Continued(s'.threads[t], s.threads[t].handles[b], drops, Finish, b, false, false);
    ThreadMoves(s.threads, t, s'.threads[t], b);
    CellMoves(s.cells, c, x, b);
    NoCellsNoStamps(s.cells, b);
  }

  /** Conservation survives a step exactly if stamps fit. */
  lemma StepInv(s: State, a: Action)
    requires Inv(s) && Kept(s, a)
    ensures Inv(Step(s, a)) <==> StampsFit(s, a)
    ensures (forall b :: b != 0 ==> Law(Step(s, a), b)) <==> StampsFit(s, a)
  {
    if StampsFit(s, a) {
      FittingStepInv(s, a);
    } else if s.threads[a.t].pc.Stamp? {
      assert InRange(s.threads[a.t].pc, |s.cells|);
      OverflowBreaks(s, a);
    } else {
      assert InRange(s.threads[a.t].pc, |s.cells|);
      LostUpdateBreaks(s, a);
    }
  }

  predicate AllFit(s: State, actions: seq<Action>)
    decreases |actions|
  {
    actions == [] || (Fits(s, actions[0]) && AllFit(Step(s, actions[0]), actions[1..]))
  }

  lemma {:induction false} RunInv(s: State, actions: seq<Action>)
    requires Inv(s) && AllFit(s, actions)
    ensures Inv(Run(s, actions))
    decreases |actions|
  {
    if actions != [] {
      StepInv(s, actions[0]);
      RunInv(Step(s, actions[0]), actions[1..]);
    }
  }

  lemma InitInv(threads: nat, cells: nat)
    ensures Inv(Init(threads, cells))
  {
    var s := Init(threads, cells);
    forall b | b != 0 ensures Law(s, b) {
      SumAllZero(s.threads, StrongFn(b));
      SumAllZero(s.threads, TransientFn(b));
      SumAllZero(s.threads, DeletesFn(b));
      SumAllZero(s.cells, CellFn(b));
    }
  }

  lemma Reached(threads: nat, cells: nat, actions: seq<Action>)
    requires AllFit(Init(threads, cells), actions)
    ensures Inv(Run(Init(threads, cells), actions))
  {
    InitInv(threads, cells);
    RunInv(Init(threads, cells), actions);
  }

  /** Conservation, in every run that fits: for every block, strong == cells that point to it +
      references in blocks + what the threads stand for, and transient + the stamps of those cells ==
      what is in flight. */
  lemma Conserved(threads: nat, cells: nat, actions: seq<Action>)
    requires AllFit(Init(threads, cells), actions)
    ensures var s := Run(Init(threads, cells), actions);
      forall b :: b in s.blocks ==>
        && s.blocks[b].strong == Cells(s.cells, b) + LinksTo(s.links, b) + StrongSum(s.threads, b)
        && s.blocks[b].transient + Stamps(s.cells, b) == TransientSum(s.threads, b)
  {
    Reached(threads, cells, actions);
    var s := Run(Init(threads, cells), actions);
    forall b | b in s.blocks
      ensures s.blocks[b].strong == Cells(s.cells, b) + LinksTo(s.links, b) + StrongSum(s.threads, b)
      ensures s.blocks[b].transient + Stamps(s.cells, b) == TransientSum(s.threads, b)
    {
      assert Law(s, b);
    }
  }

  /** The block that a thread's next access touches. */
  ghost function Touches(pc: Pc): set<nat> {
    match pc
    case Count(todo, _, _) => if todo.Adjust? && todo.ptr != 0 then {todo.ptr} else {}
    case Delete(p, _, _) => {p}
    case _ => {}
  }

  /** Reclamation, in every run that fits: no access has touched a freed block and none is about to;
      every block that a thread, a cell or the data of a block refers to is allocated; and a block
      about to be deleted is allocated, nothing refers to it, no thread has an operation on it or an
      acquisition of it, and no other thread is about to delete it. */
  lemma MemorySafe(threads: nat, cells: nat, actions: seq<Action>)
    requires AllFit(Init(threads, cells), actions)
    ensures var s := Run(Init(threads, cells), actions);
      && !s.fault
      && (forall t :: 0 <= t < |s.threads| ==> Touches(s.threads[t].pc) <= s.blocks.Keys)
      && (forall t, b :: 0 <= t < |s.threads| && b != 0 && b in s.threads[t].handles ==> b in s.blocks)
      && (forall c :: 0 <= c < |s.cells| && s.cells[c].ptr != 0 ==> s.cells[c].ptr in s.blocks)
      && (forall l :: l in s.links ==> l.to in s.blocks)
      && (forall t :: 0 <= t < |s.threads| && s.threads[t].pc.Delete? ==> Unreachable(s, t, s.threads[t].pc.ptr))
  {
    Reached(threads, cells, actions);
    SafeState(Run(Init(threads, cells), actions));
  }

  lemma SafeState(s: State)
    requires Inv(s)
    ensures forall t :: 0 <= t < |s.threads| ==> Touches(s.threads[t].pc) <= s.blocks.Keys
    ensures forall t, b :: 0 <= t < |s.threads| && b != 0 && b in s.threads[t].handles ==> b in s.blocks
    ensures forall c :: 0 <= c < |s.cells| && s.cells[c].ptr != 0 ==> s.cells[c].ptr in s.blocks
    ensures forall l :: l in s.links ==> l.to in s.blocks
    ensures forall t :: 0 <= t < |s.threads| && s.threads[t].pc.Delete? ==> Unreachable(s, t, s.threads[t].pc.ptr)
  {
    forall t | 0 <= t < |s.threads| ensures Touches(s.threads[t].pc) <= s.blocks.Keys { TouchesAllocated(s, t); }
    forall t, b | 0 <= t < |s.threads| && b != 0 && b in s.threads[t].handles ensures b in s.blocks { HandleKeepsAlive(s, t, b); }
    forall c | 0 <= c < |s.cells| && s.cells[c].ptr != 0 ensures s.cells[c].ptr in s.blocks { CellKeepsAlive(s, c); }
    forall l | l in s.links ensures l.to in s.blocks { LinkKeepsAlive(s, l); }
    forall t | 0 <= t < |s.threads| && s.threads[t].pc.Delete? ensures Unreachable(s, t, s.threads[t].pc.ptr) {
      DoomedIsUnreachable(s, t);
    }
  }

  lemma CellKeepsAlive(s: State, c: nat)
    requires Inv(s) && c < |s.cells| && s.cells[c].ptr != 0
    ensures s.cells[c].ptr in s.blocks && s.blocks[s.cells[c].ptr] != Block(0, 0)
  {
    var b := s.cells[c].ptr;
    NoCellsNoStamps(s.cells, b);
    if b !in s.blocks || s.blocks[b] == Block(0, 0) { DeadIsUnreferenced(s, b); }
  }

  ghost predicate Unreachable(s: State, t: nat, p: nat) {
    && (forall c :: 0 <= c < |s.cells| ==> s.cells[c].ptr != p)
    && (forall l :: l in s.links ==> l.to != p)
    && (forall u :: 0 <= u < |s.threads| ==>
          p !in s.threads[u].handles && Strong(s.threads[u], p) == 0 && Transient(s.threads[u], p) == 0)
    && (forall u :: 0 <= u < |s.threads| && u != t ==> p !in Touches(s.threads[u].pc))
  }

  lemma TouchesAllocated(s: State, t: nat)
    requires Inv(s) && t < |s.threads|
    ensures Touches(s.threads[t].pc) <= s.blocks.Keys
  {
    var pc := s.threads[t].pc;
    if pc.Count? && pc.todo.Adjust? && pc.todo.ptr != 0 {
      CountedIsAlive(s, t);
    } else if pc.Delete? {
      DoomedIsDead(s, t);
    }
  }

  lemma DoomedIsUnreachable(s: State, t: nat)
    requires Inv(s) && t < |s.threads| && s.threads[t].pc.Delete?
    ensures Unreachable(s, t, s.threads[t].pc.ptr)
  {
    var p := s.threads[t].pc.ptr;
    DoomedIsDead(s, t);
    DeadIsUnreferenced(s, p);
    NoCellsNoStamps(s.cells, p);
    forall u | 0 <= u < |s.threads| ensures p !in s.threads[u].handles {
      if p in s.threads[u].handles { HandleKeepsAlive(s, u, p); }
    }
    forall u | 0 <= u < |s.threads| && u != t ensures p !in Touches(s.threads[u].pc) { DoomedOnce(s, t, u); }
  }

  lemma DoomedOnce(s: State, t: nat, u: nat)
    requires Inv(s) && t < |s.threads| && s.threads[t].pc.Delete? && u < |s.threads| && u != t
    ensures s.threads[t].pc.ptr !in Touches(s.threads[u].pc)
  {
    var p := s.threads[t].pc.ptr;
    DoomedIsDead(s, t);
    assert Law(s, p);
    if s.threads[u].pc.Count? {
      if p in Touches(s.threads[u].pc) { CountedIsAlive(s, u); }
    } else {
      SumBounds(s.threads, DeletesFn(p));
      SumTwo(s.threads, if t < u then t else u, if t < u then u else t, DeletesFn(p));
    }
  }

  ghost function HandlesFn(b: nat): Thread -> int { (th: Thread) => th.handles[b] }

  /** References to `b` that the threads own. */
  ghost function Handles(ts: seq<Thread>, b: nat): int { Sum(ts, HandlesFn(b)) }

  ghost predicate AllIdle(s: State) {
    forall t :: 0 <= t < |s.threads| ==> s.threads[t].pc.Idle?
  }

  /** References to `b`: in cells, in blocks, with threads. */
  ghost function References(s: State, b: nat): int {
    Cells(s.cells, b) + LinksTo(s.links, b) + Handles(s.threads, b)
  }

  /** When no operation is under way the counts are plain: strong == references, transient == -stamps,
      and exactly the blocks that something refers to are allocated. */
  lemma QuietCounts(threads: nat, cells: nat, actions: seq<Action>)
    requires AllFit(Init(threads, cells), actions)
    requires AllIdle(Run(Init(threads, cells), actions))
    ensures var s := Run(Init(threads, cells), actions);
      forall b :: b != 0 ==>
        && (b in s.blocks <==> References(s, b) > 0)
        && (b in s.blocks ==> s.blocks[b] == Block(References(s, b), -Stamps(s.cells, b)))
  {
    Reached(threads, cells, actions);
    var s := Run(Init(threads, cells), actions);
    forall b | b != 0
      ensures b in s.blocks <==> References(s, b) > 0
      ensures b in s.blocks ==> s.blocks[b] == Block(References(s, b), -Stamps(s.cells, b))
    {
      QuietBlock(s, b);
    }
  }

  lemma QuietBlock(s: State, b: nat)
    requires Inv(s) && b != 0 && AllIdle(s)
    ensures b in s.blocks <==> References(s, b) > 0
    ensures b in s.blocks ==> s.blocks[b] == Block(References(s, b), -Stamps(s.cells, b))
  {
    assert Law(s, b);
    QuietSums(s.threads, b);
    NoCellsNoStamps(s.cells, b);
    LinksCount(s.links, b);
    StrongNonneg(s, b);
  }

  lemma QuietSums(ts: seq<Thread>, b: nat)
    requires forall t :: 0 <= t < |ts| ==> ts[t].pc.Idle?
    ensures StrongSum(ts, b) == Handles(ts, b) && TransientSum(ts, b) == 0 && Deleters(ts, b) == 0
  {
    forall t | 0 <= t < |ts|
      ensures HandlesFn(b)(ts[t]) == StrongFn(b)(ts[t]) && TransientFn(b)(ts[t]) == 0 && DeletesFn(b)(ts[t]) == 0
    {
      assert ts[t].pc.Idle?;
    }
    SumSame(ts, HandlesFn(b), StrongFn(b));
    SumAllZero(ts, TransientFn(b));
    SumAllZero(ts, DeletesFn(b));
  }

}
