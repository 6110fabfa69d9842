/** The packed words of module StampedPointer are the pairs that modules SplitCountStack and
    SharedPointers work with: one atomic word is one pair, and comparing words is comparing pairs. */
module StampedWords {
  import Word64 = StampedPointer
  import Stack = SplitCountStack
  import Ptr = SharedPointers

  /** The pair that a word, or an unpacked pair, stands for. */
  function Pair(p: Word64.StampedPtr): Stack.Stamped {
    Stack.Stamped(p.ptr as nat, p.stamp as nat)
  }

  function Back(n: nat): bv64
    requires n < 0x1_0000_0000_0000_0000
  {
    n as bv64
  }

  lemma BackOf(x: bv64)
    ensures x as nat < 0x1_0000_0000_0000_0000 && Back(x as nat) == x
  {
  }

  lemma SameNumber(x: bv64, y: bv64)
    ensures x as nat == y as nat <==> x == y
  {
    BackOf(x);
    BackOf(y);
  }

  lemma OverfullBits(ptr: bv64)
    ensures Word64.PackWord(ptr, 0x1_0000) == Word64.PackWord(ptr, 0)
  {
    Word64.PackWordBits(ptr, 0x1_0000);
    Word64.PackWordBits(ptr, 0);
  }

  /** What is stored when a pair is packed whose stamp has just been raised, at most past the limit. */
  lemma StoredPair(p: Word64.StampedPtr)
    requires Word64.Canonical(p.ptr) && p.stamp <= 0x1_0000
    ensures Pair(Word64.Unpack(Word64.Pack(p))) == Stack.Word(Pair(p))
    ensures var q := Stack.Word(Pair(p)); Ptr.Word(Ptr.Stamped(p.ptr as nat, p.stamp as nat)) == Ptr.Stamped(q.ptr, q.stamp)
  {
    if p.stamp <= 0xFFFF {
      Word64.SmallNumber(p.stamp);
      Word64.UnpackPack(p);
    } else {
      var q := Word64.StampedPtr(p.ptr, 0);
      OverfullBits(p.ptr);
      Word64.UnpackPack(q);
      SameNumber(p.stamp, 0x1_0000);
    }
  }

  /** The comparison of a compare-and-swap, on words and on pairs. */
  lemma ComparedPair(word: bv64, seen: Word64.StampedPtr)
    requires Word64.Canonical(seen.ptr) && seen.stamp <= 0x1_0000
    ensures word == Word64.Pack(seen) <==> Pair(Word64.Unpack(word)) == Stack.Word(Pair(seen))
  {
    StoredPair(seen);
    var p, q := Word64.Unpack(word), Word64.Unpack(Word64.Pack(seen));
    SameNumber(p.ptr, q.ptr);
    SameNumber(p.stamp, q.stamp);
    Word64.PackUnpack(word);
    Word64.PackUnpack(Word64.Pack(seen));
  }
}
