/** The linked queue of the executors (tasks/tasks/executors/exe/support/msqueue.hpp) used by one
    thread at a time: a Michael-Scott queue whose popped nodes wait in a list of retired nodes and
    are deleted half a list at a time.

    A weak compare-and-swap may fail for no reason: the i-th one of a call fails when flaky[i] says
    so. The last compare-and-swap of Put compares tail_ with a variable that was never assigned: its
    value is the arbitrary `junk`. */
module RetiringQueue {
  import opened Words
  import opened Options

  /** `deleted_` is halved when it reaches this length. */
  const RETIRED_LIMIT: nat := 10

  /** `value` is None in the sentinel and once it has been moved out. `deletions` is auxiliary: how
      often the node was deleted. Every access to a node is one of its methods, which need it to be 0. */
  class Node<T> {
    var value: Option<T>
    var next: Node?<T>
    var deletions: nat
    ghost const index: nat

    constructor (v: Option<T>, ghost i: nat)
      ensures value == v && next == null && deletions == 0 && index == i
    {
      value, next, deletions, index := v, null, 0, i;
    }

    method Next() returns (n: Node?<T>)
      requires deletions == 0
      ensures n == next
    {
      n := next;
    }

    method SetNext(n: Node<T>)
      requires deletions == 0
      modifies this`next
      ensures next == n
    {
      next := n;
    }

    method MoveOut() returns (v: Option<T>)
      requires deletions == 0
      modifies this`value
      ensures v == old(value) && value == None
    {
      v, value := value, None;
    }

    method Delete()
      requires deletions == 0
      modifies this`deletions
      ensures deletions == 1
    {
      deletions := deletions + 1;
    }
  }

  class MSQueue<T> {
    var head: Node<T>
    var tail: Node<T>
    var size: int
    var retired: seq<Node<T>>
    /** All nodes ever allocated, in link order: first the deleted ones, then the retired ones, then
        the list from head_ on. */
    ghost var all: seq<Node<T>>
    ghost var freed: nat
    ghost var first: nat
    ghost var last: nat
    /** All items ever put. */
    ghost var items: seq<T>

    /** What the queue holds, oldest first. */
    ghost function Contents(): seq<T>
      requires first <= |items|
      reads this
    {
      items[first..]
    }

    /** Every node the queue ever allocated. */
    ghost function Nodes(): set<Node<T>>
      reads this
    {
      set n | n in all
    }

    /** Node `i` knows its place; unless deleted it points to its successor; behind head_ it holds its item. */
    ghost predicate Placed(i: nat)
      requires i < |all| == |items| + 1
      reads this, all
    {
      && all[i].index == i && all[i].deletions == (if i < freed then 1 else 0)
      && (freed <= i ==> all[i].next == if i + 1 < |all| then all[i + 1] else null)
      && (first < i ==> all[i].value == Some(items[i - 1]))
    }

    ghost predicate Lined()
      reads this, all
    {
      && freed <= first < |all| == |items| + 1
      && (forall i: nat :: i < |all| ==> Placed(i))
      && head == all[first] && retired == all[freed..first]
    }

    /** tail_ is the last node or its predecessor, even when that one is already retired. */
    ghost predicate Valid()
      reads this, all
    {
      && Lined()
      && |retired| < RETIRED_LIMIT
      && size == Wrap(|items| - first)
      && freed <= last < |all| <= last + 2 && tail == all[last]
    }

    constructor ()
      ensures Valid() && Contents() == [] && fresh(all[..]) && |all| == 1
    {
      var sentinel := new Node<T>(None, 0);
      head, tail, size, retired := sentinel, sentinel, 0, [];
      all, freed, first, last, items := [sentinel], 0, 0, 0, [];
    }

    /** tail_ has a successor exactly while it lags behind, and then its successor is the last node. */
    lemma TailsNext()
      requires Valid()
      ensures tail.deletions == 0
      ensures tail.next == if last + 1 < |all| then all[last + 1] else null
    {
      assert Placed(last);
    }

    lemma HeadsNext()
      requires Lined()
      ensures head.deletions == 0
      ensures head.next == if first + 1 < |all| then all[first + 1] else null
      ensures first + 1 < |all| ==> all[first + 1].value == Some(items[first])
      ensures Contents() == [] <==> first + 1 == |all|
    {
      assert Placed(first);
      assert first + 1 < |all| ==> Placed(first + 1);
    }

    method Put(item: T, flaky: seq<bool>, junk: Node?<T>)
      requires Valid()
      modifies this, Nodes()
      ensures Valid() && Contents() == old(Contents()) + [item]
      ensures |all| == old(|all|) + 1 && all[..|all| - 1] == old(all) && fresh(all[|all| - 1])
    {
      var node := new Node<T>(Some(item), |all|);
      var tries := 0;
      while true
        invariant Valid() && all == old(all) && items == old(items) && first == old(first)
        invariant fresh(node) && node.next == null && node.deletions == 0 && node.index == |all|
        invariant node.value == Some(item)
        invariant tries <= |flaky|
        decreases |flaky| - tries, |all| - last
      {
        TailsNext();
        var seen := tail;
        var next := seen.Next();
        if next != null {
          // help the Put that has not moved tail_
          if Fails(flaky, tries) {
            tries := tries + 1;
          } else {
            Help(next);
            continue;
          }
        }
        next := seen.Next();
        if next == null {
          if Fails(flaky, tries) {
            tries := tries + 1;
          } else {
            Link(seen, node, item);
            break;
          }
        }
      }
      Finish(node, junk);
    }

    /** The attempt to move tail_ on, and the count. */
    method Finish(node: Node<T>, junk: Node?<T>)
      requires Lined() && |retired| < RETIRED_LIMIT && size == Wrap(|items| - 1 - first)
      requires freed <= last && last + 2 == |all| && tail == all[last] && node == all[last + 1]
      modifies this`tail, this`last, this`size
      ensures Valid()
    {
      if tail == junk { tail, last := node, last + 1; }
      size := Wrap(size + 1);
      WrapAdd(|items| - 1 - first, 1);
      forall i: nat | i < |all| ensures Placed(i) { assert old(Placed(i)); }
    }

    /** tail_ moves to the last node. */
    method Help(next: Node<T>)
      requires Valid() && next == tail.next
      modifies this`tail, this`last
      ensures Valid() && last == old(last) + 1 == |all| - 1
    {
      TailsNext();
      tail, last := next, last + 1;
      forall i: nat | i < |all| ensures Placed(i) { assert old(Placed(i)); }
    }

    /** The node becomes the successor of the last one. */
    method Link(seen: Node<T>, node: Node<T>, item: T)
      requires Valid() && last + 1 == |all| && seen == tail
      requires node !in all && node.next == null && node.deletions == 0 && node.index == |all|
      requires node.value == Some(item)
      modifies seen`next, this`all, this`items
      ensures Lined() && items == old(items) + [item] && all == old(all) + [node]
      ensures |retired| < RETIRED_LIMIT && freed <= last && tail == all[last]
    {
      assert Placed(last);
      seen.SetNext(node);
      all, items := all + [node], items + [item];
      forall i: nat | i < |all| ensures Placed(i) {
        assert i < last + 1 ==> old(Placed(i));
      }
    }

    method Take(flaky: seq<bool>) returns (item: Option<T>)
      requires Valid()
      modifies this, Nodes()
      ensures Valid() && all == old(all)
      ensures item == if old(Contents()) == [] then None else Some(old(Contents())[0])
      ensures Contents() == if old(Contents()) == [] then [] else old(Contents())[1..]
    {
      HeadsNext();
      var tries := 0;
      while true
        invariant Valid() && all == old(all) && items == old(items) && first == old(first)
        invariant unchanged(this) && forall n :: n in all ==> unchanged(n)
        invariant tries <= |flaky|
        decreases |flaky| - tries
      {
        var seen := head;
        var next := seen.Next();
        if next == null {
          return None;
        }
        if !Fails(flaky, tries) {
          next := seen.Next();
          item := Unlink(seen, next);
          CollectGarbage();
          Uncount();
          return;
        }
        tries := tries + 1;
      }
    }

    method Uncount()
      requires Lined() && size == Wrap(|items| - first + 1)
      modifies this`size
      ensures Lined() && size == Wrap(|items| - first)
    {
      size := Wrap(size - 1);
      WrapAdd(|items| - first + 1, -1);
      forall i: nat | i < |all| ensures Placed(i) { assert old(Placed(i)); }
    }

    /** head_ moves on, its node is retired, and the value of the next one is moved out. */
    method Unlink(seen: Node<T>, next: Node<T>) returns (item: Option<T>)
      requires Lined() && seen == head && next == seen.next
      modifies this`head, this`first, this`retired, next`value
      ensures Lined() && first == old(first) + 1 && item == Some(items[old(first)])
      ensures retired == old(retired) + [seen]
    {
      HeadsNext();
      assert Placed(first + 1);
      head, first := next, first + 1;
      item := next.MoveOut();
      retired := retired + [seen];
      assert all[freed..first] == all[freed..first - 1] + [all[first - 1]];
      forall i: nat | i < |all| ensures Placed(i) { assert old(Placed(i)); }
    }

    /** Deletes the five oldest retired nodes once there are ten, so never the newest one, which tail_ may
        still point to. */
    method CollectGarbage()
      requires Lined() && |retired| <= RETIRED_LIMIT
      modifies this`retired, this`freed, Nodes()`deletions
      ensures Lined() && |retired| < RETIRED_LIMIT
      ensures if old(|retired|) < RETIRED_LIMIT then retired == old(retired) && freed == old(freed)
              else retired == old(retired)[5..] && freed == old(freed) + 5
    {
      var count := |retired|;
      if count < RETIRED_LIMIT {
        return;
      }
      while |retired| > count / 2
        invariant Lined() && count / 2 <= |retired| <= count
        invariant freed == old(freed) + count - |retired| && retired == old(retired)[count - |retired|..]
      {
        DeleteOldest(retired[0]);
      }
    }

    method DeleteOldest(node: Node<T>)
      requires Lined() && retired != [] && node == retired[0]
      modifies this`retired, this`freed, node`deletions
      ensures Lined() && retired == old(retired)[1..] && freed == old(freed) + 1
    {
      assert node == all[freed] && Placed(freed);
      retired := retired[1..];
      node.Delete();
      freed := freed + 1;
      forall i: nat | i < |all| ensures Placed(i) { assert old(Placed(i)); }
    }

    /** Exact while fewer than 2^64 items are held. */
    method IsEmpty() returns (empty: bool)
      requires Valid() && |Contents()| < WORD
      ensures empty <==> Contents() == []
    {
      empty := size == 0;
      assert |Contents()| == |items| - first;
    }

    method Count() returns (n: int)
      requires Valid() && |Contents()| < WORD
      ensures n == |Contents()|
    {
      n := size;
      assert |Contents()| == |items| - first;
    }

    /** The destructor: every node the queue ever allocated has been deleted exactly once. */
    method Destroy()
      requires Valid()
      modifies this`retired, this`freed, Nodes()`deletions
      ensures Nodes() == old(Nodes()) && forall n :: n in Nodes() ==> n.deletions == 1
    {
      forall i: nat | i < |all| ensures Doomed(all, freed, first, first, i) { assert Placed(i); }
      DeleteList();
      forall n | n in Nodes() ensures n.deletions == 1 {
        var i: nat :| i < |all| && all[i] == n;
        assert Doomed(all, freed, first, |all|, i);
      }
    }

    /** Deletes the list from head_ on, then the retired nodes. */
    method DeleteList()
      requires freed <= first < |all| && head == all[first] && retired == all[freed..first]
      requires forall i: nat :: i < |all| ==> Doomed(all, freed, first, first, i)
      modifies this`retired, this`freed, Nodes()`deletions
      ensures freed == first && forall i: nat :: i < |all| ==> Doomed(all, freed, first, |all|, i)
    {
      var node: Node?<T> := head;
      ghost var end := first;
      while node != null
        invariant first <= end <= |all| && node == (if end < |all| then all[end] else null)
        invariant freed == old(freed) && retired == old(retired)
        invariant forall i: nat :: i < |all| ==> Doomed(all, freed, first, end, i)
        decreases |all| - end
      {
        assert Doomed(all, freed, first, end, end);
        var condemned := node;
        node := condemned.Next();
        DeleteListed(condemned, all, freed, first, end, end + 1);
        end := end + 1;
      }
      while retired != []
        invariant freed <= first && retired == all[freed..first]
        invariant forall i: nat :: i < |all| ==> Doomed(all, freed, first, |all|, i)
        decreases |retired|
      {
        var oldest := retired[0];
        assert oldest == all[freed] && Doomed(all, freed, first, |all|, freed);
        retired := retired[1..];
        DeleteRetired(oldest, all, freed, freed + 1, first);
        freed := freed + 1;
      }
    }

    /** One call; `said` is empty for a Put. */
    method Call(op: Op<T>) returns (said: seq<Option<T>>)
      requires Valid()
      modifies this, Nodes()
      ensures Valid() && Contents() == Next(old(Contents()), op) && said == Said(old(Contents()), op)
      ensures |all| == old(|all|) + |Given(op)|
      ensures old(Nodes()) <= Nodes() && fresh(Nodes() - old(Nodes()))
    {
      if op.DoPut? {
        var junk: Node?<T> := *;
        Put(op.item, op.flaky, junk);
        said := [];
      } else {
        var answer := Take(op.flaky);
        said := [answer];
      }
    }

    /** Any sequence of calls by one thread. */
    method Serve(ops: seq<Op<T>>) returns (answers: seq<Option<T>>)
      requires Valid()
      modifies this, Nodes()
      ensures Valid() && Contents() == After(old(Contents()), ops)
      ensures answers == Answers(old(Contents()), ops)
      ensures |all| == old(|all|) + |Puts(ops)|
      ensures old(Nodes()) <= Nodes() && fresh(Nodes() - old(Nodes()))
      decreases |ops|
    {
      if ops == [] {
        answers := [];
      } else {
        var said := Call(ops[0]);
        var rest := Serve(ops[1..]);
        answers := said + rest;
      }
    }
  }

  /** Node `i` has been deleted once if it is below `freed` or from position `first` up to `end`, else not yet. */
  ghost predicate Doomed<T>(all: seq<Node<T>>, freed: nat, first: nat, end: nat, i: nat)
    requires i < |all|
    reads all
  {
    && all[i].index == i
    && all[i].deletions == (if i < freed || first <= i < end then 1 else 0)
    && (freed <= i ==> all[i].next == if i + 1 < |all| then all[i + 1] else null)
  }

  method DeleteListed<T>(node: Node<T>, ghost all: seq<Node<T>>, ghost freed: nat, ghost first: nat, ghost end: nat, ghost end': nat)
    requires freed <= first <= end < |all| && node == all[end] && end' == end + 1
    requires forall i: nat :: i < |all| ==> Doomed(all, freed, first, end, i)
    modifies node`deletions
    ensures forall i: nat :: i < |all| ==> Doomed(all, freed, first, end', i)
  {
    assert Doomed(all, freed, first, end, end);
    node.Delete();
    forall i: nat | i < |all| ensures Doomed(all, freed, first, end', i) { assert old(Doomed(all, freed, first, end, i)); }
  }

  method DeleteRetired<T>(node: Node<T>, ghost all: seq<Node<T>>, ghost freed: nat, ghost freed': nat, ghost first: nat)
    requires freed < first < |all| && node == all[freed] && freed' == freed + 1
    requires forall i: nat :: i < |all| ==> Doomed(all, freed, first, |all|, i)
    modifies node`deletions
    ensures forall i: nat :: i < |all| ==> Doomed(all, freed', first, |all|, i)
  {
    assert Doomed(all, freed, first, |all|, freed);
    node.Delete();
    forall i: nat | i < |all| ensures Doomed(all, freed', first, |all|, i) { assert old(Doomed(all, freed, first, |all|, i)); }
  }

  /** A queue from construction to destruction. */
  method Live<T>(ops: seq<Op<T>>) returns (answers: seq<Option<T>>, ghost nodes: seq<Node<T>>)
    ensures answers == Answers([], ops)
    ensures |nodes| == 1 + |Puts(ops)| && forall n :: n in nodes ==> n.deletions == 1
    ensures forall i, j :: 0 <= i < j < |nodes| ==> nodes[i] != nodes[j]
  {
    var queue := new MSQueue<T>();
    answers := queue.Serve(ops);
    nodes := queue.all;
    forall i: nat | i < |nodes| ensures nodes[i].index == i { assert queue.Placed(i); }
    queue.Destroy();
    assert forall n :: n in nodes ==> n in queue.Nodes();
  }

  // --- The sequential queue

  datatype Op<T> = DoPut(item: T, flaky: seq<bool>) | DoTake(flaky: seq<bool>)

  function Next<T>(q: seq<T>, op: Op<T>): seq<T> {
    if op.DoPut? then q + [op.item] else if q == [] then [] else q[1..]
  }

  /** The answer of a Take. */
  function Said<T>(q: seq<T>, op: Op<T>): seq<Option<T>> {
    if op.DoPut? then [] else if q == [] then [None] else [Some(q[0])]
  }

  function Given<T>(op: Op<T>): seq<T> {
    if op.DoPut? then [op.item] else []
  }

  function After<T>(q: seq<T>, ops: seq<Op<T>>): seq<T>
    decreases |ops|
  {
    if ops == [] then q else After(Next(q, ops[0]), ops[1..])
  }

  function Answers<T>(q: seq<T>, ops: seq<Op<T>>): seq<Option<T>>
    decreases |ops|
  {
    if ops == [] then [] else Said(q, ops[0]) + Answers(Next(q, ops[0]), ops[1..])
  }

  function Puts<T>(ops: seq<Op<T>>): seq<T> {
    if ops == [] then [] else Given(ops[0]) + Puts(ops[1..])
  }

  function Values<T>(answers: seq<Option<T>>): seq<T> {
    if answers == [] then [] else (if answers[0].Some? then [answers[0].value] else []) + Values(answers[1..])
  }

  lemma {:induction false} ValuesConcat<T>(a: seq<Option<T>>, b: seq<Option<T>>)
    ensures Values(a + b) == Values(a) + Values(b)
  {
    if a == [] {
      assert a + b == b;
    } else {
      ValuesConcat(a[1..], b);
      var v := if a[0].Some? then [a[0].value] else [];
      assert (a + b)[1..] == a[1..] + b && (a + b)[0] == a[0];
      assert v + (Values(a[1..]) + Values(b)) == (v + Values(a[1..])) + Values(b);
    }
  }

  lemma FirstStep<T>(q: seq<T>, op: Op<T>)
    ensures Values(Said(q, op)) + Next(q, op) == q + Given(op)
  {
    if op.DoTake? && q != [] { assert q == [q[0]] + q[1..]; }
  }

  lemma Chain<T>(q: seq<T>, v: seq<T>, n: seq<T>, g: seq<T>, v': seq<T>, n': seq<T>, g': seq<T>)
    requires v + n == q + g && v' + n' == n + g'
    ensures (v + v') + n' == q + (g + g')
  {
    assert (v + v') + n' == v + (v' + n') == (v + n) + g' == q + (g + g');
  }

  /** First in, first out: the items taken, in order, followed by those still held, are the items put. */
  lemma {:induction false} FirstInFirstOut<T>(q: seq<T>, ops: seq<Op<T>>)
    ensures Values(Answers(q, ops)) + After(q, ops) == q + Puts(ops)
    decreases |ops|
  {
    if ops == [] {
      assert Answers(q, ops) == [];
    } else {
      var q', rest := Next(q, ops[0]), ops[1..];
      FirstInFirstOut(q', rest);
      FirstStep(q, ops[0]);
      ValuesConcat(Said(q, ops[0]), Answers(q', rest));
      Chain(q, Values(Said(q, ops[0])), q', Given(ops[0]), Values(Answers(q', rest)), After(q', rest), Puts(rest));
    }
  }

  /** A compare-and-swap fails for no reason. */
  predicate Fails(flaky: seq<bool>, i: nat) {
    i < |flaky| && flaky[i]
  }
}
