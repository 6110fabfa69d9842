/** A 48-bit pointer and a 16-bit stamp packed into one 64-bit word
    (tasks/lockfree/stack/atomic_stamped_ptr.hpp). */
module StampedPointer {

  const FREE_BITS_MASK: bv64 := 0xFFFF_0000_0000_0000
  const MAX_STAMP: bv64 := 0xFFFF

  datatype StampedPtr = StampedPtr(ptr: bv64, stamp: bv64) {
    function IncrementStamp(): StampedPtr {
      StampedPtr(ptr, stamp + 1)
    }

    /** The pairs that one word can hold. */
    predicate Representable() {
      Canonical(ptr) && stamp <= MAX_STAMP
    }
  }

  /** An x86-64 address: bits 47..63 are all equal. */
  predicate Canonical(ptr: bv64) {
    ptr >> 47 == 0 || ptr >> 47 == 0x1FFFF
  }

  function ClearFreeBits(mask: bv64): bv64 {
    mask & !FREE_BITS_MASK
  }

  function SetFreeBits(mask: bv64): bv64 {
    mask | FREE_BITS_MASK
  }

  function ToCanonicalForm(ptr: bv64): bv64 {
    if (ptr >> 47) & 1 != 0 then SetFreeBits(ptr) else ClearFreeBits(ptr)
  }

  function GetStamp(packed: bv64): bv64 {
    packed >> 48
  }

  function PackWord(ptr: bv64, stamp: bv64): bv64 {
    ClearFreeBits(ptr) | (stamp << 48)
  }

  function Pack(p: StampedPtr): bv64 {
    PackWord(p.ptr, p.stamp)
  }

  function Unpack(packed: bv64): StampedPtr {
    StampedPtr(ToCanonicalForm(packed), GetStamp(packed))
  }

  /** Every word is the packing of what it unpacks to: no word is lost or aliased. */
  lemma PackUnpack(w: bv64)
    ensures Pack(Unpack(w)) == w && Unpack(w).Representable()
  {
    WordBits(w);
  }

  // The bit facts behind the round trips, with no function between the solver and the bits.

  lemma WordBits(w: bv64)
    ensures (w & 0x0000_FFFF_FFFF_FFFF) | ((w >> 48) << 48) == w
    ensures ((w | 0xFFFF_0000_0000_0000) & 0x0000_FFFF_FFFF_FFFF) | ((w >> 48) << 48) == w
    ensures w >> 48 <= 0xFFFF
    ensures (w >> 47) & 1 != 0 ==> (w | 0xFFFF_0000_0000_0000) >> 47 == 0x1FFFF
    ensures (w >> 47) & 1 == 0 ==> (w & 0x0000_FFFF_FFFF_FFFF) >> 47 == 0
    ensures (w & 0x0000_FFFF_FFFF_FFFF) & 0x0000_FFFF_FFFF_FFFF == w & 0x0000_FFFF_FFFF_FFFF
  {}

  lemma LowHalfBits(ptr: bv64, stamp: bv64)
    requires ptr >> 47 == 0 && stamp <= 0xFFFF
    ensures (((ptr & 0x0000_FFFF_FFFF_FFFF) | (stamp << 48)) >> 47) & 1 == 0
    ensures ((ptr & 0x0000_FFFF_FFFF_FFFF) | (stamp << 48)) & 0x0000_FFFF_FFFF_FFFF == ptr
    ensures ((ptr & 0x0000_FFFF_FFFF_FFFF) | (stamp << 48)) >> 48 == stamp
  {}

  lemma HighHalfBits(ptr: bv64, stamp: bv64)
    requires ptr >> 47 == 0x1FFFF && stamp <= 0xFFFF
    ensures (((ptr & 0x0000_FFFF_FFFF_FFFF) | (stamp << 48)) >> 47) & 1 != 0
    ensures ((ptr & 0x0000_FFFF_FFFF_FFFF) | (stamp << 48)) | 0xFFFF_0000_0000_0000 == ptr
    ensures ((ptr & 0x0000_FFFF_FFFF_FFFF) | (stamp << 48)) >> 48 == stamp
  {}

  lemma SmallNumber(stamp: bv64)
    requires stamp <= 0xFFFF
    ensures stamp as nat == stamp as nat % 65536
  {}

  lemma PackWordBits(ptr: bv64, stamp: bv64)
    ensures PackWord(ptr, stamp) == (ptr & 0x0000_FFFF_FFFF_FFFF) | (stamp << 48)
  {}

  lemma LowHalfForm(w: bv64, ptr: bv64)
    requires (w >> 47) & 1 == 0 && w & 0x0000_FFFF_FFFF_FFFF == ptr
    ensures ToCanonicalForm(w) == ptr
  {}

  lemma LowHalfUnpacks(ptr: bv64, stamp: bv64)
    requires ptr >> 47 == 0 && stamp <= 0xFFFF
    ensures ToCanonicalForm((ptr & 0x0000_FFFF_FFFF_FFFF) | (stamp << 48)) == ptr
    ensures GetStamp((ptr & 0x0000_FFFF_FFFF_FFFF) | (stamp << 48)) == stamp
  {
    LowHalfBits(ptr, stamp);
    LowHalfForm((ptr & 0x0000_FFFF_FFFF_FFFF) | (stamp << 48), ptr);
  }

  lemma LowHalf(ptr: bv64, stamp: bv64)
    requires ptr >> 47 == 0 && stamp <= 0xFFFF
    ensures ToCanonicalForm(PackWord(ptr, stamp)) == ptr && GetStamp(PackWord(ptr, stamp)) == stamp
  {
    PackWordBits(ptr, stamp);
    LowHalfUnpacks(ptr, stamp);
  }

  lemma HighHalfForm(w: bv64, ptr: bv64)
    requires (w >> 47) & 1 != 0 && w | 0xFFFF_0000_0000_0000 == ptr
    ensures ToCanonicalForm(w) == ptr
  {}

  lemma HighHalfUnpacks(ptr: bv64, stamp: bv64)
    requires ptr >> 47 == 0x1FFFF && stamp <= 0xFFFF
    ensures ToCanonicalForm((ptr & 0x0000_FFFF_FFFF_FFFF) | (stamp << 48)) == ptr
    ensures GetStamp((ptr & 0x0000_FFFF_FFFF_FFFF) | (stamp << 48)) == stamp
  {
    HighHalfBits(ptr, stamp);
    HighHalfForm((ptr & 0x0000_FFFF_FFFF_FFFF) | (stamp << 48), ptr);
  }

  lemma HighHalf(ptr: bv64, stamp: bv64)
    requires ptr >> 47 == 0x1FFFF && stamp <= 0xFFFF
    ensures ToCanonicalForm(PackWord(ptr, stamp)) == ptr && GetStamp(PackWord(ptr, stamp)) == stamp
  {
    PackWordBits(ptr, stamp);
    HighHalfUnpacks(ptr, stamp);
  }

  lemma FieldsSurvive(ptr: bv64, stamp: bv64)
    requires Canonical(ptr) && stamp <= MAX_STAMP
    ensures ToCanonicalForm(PackWord(ptr, stamp)) == ptr && GetStamp(PackWord(ptr, stamp)) == stamp
  {
    if ptr >> 47 == 0 { LowHalf(ptr, stamp); } else { HighHalf(ptr, stamp); }
  }

  /** A pair survives the round trip exactly when the pointer is canonical and the stamp fits. */
  lemma UnpackPack(p: StampedPtr)
    ensures Unpack(Pack(p)) == p <==> p.Representable()
  {
    PackUnpack(Pack(p));
    if p.Representable() {
      FieldsSurvive(p.ptr, p.stamp);
    }
  }

  /** Comparing packed words compares both components, for every word and exactly for the pairs
      that can be represented: any other `expected` matches a word that holds a different pair. */
  lemma WordComparisonIsPairComparison(expected: StampedPtr)
    ensures expected.Representable() <==>
            (forall w: bv64 :: w == Pack(expected) <==> Unpack(w) == expected)
  {
    UnpackPack(expected);
    forall w: bv64 | expected.Representable()
      ensures w == Pack(expected) <==> Unpack(w) == expected
    {
      PackUnpack(w);
    }
    if forall w: bv64 :: w == Pack(expected) <==> Unpack(w) == expected {
      var w := Pack(expected);
      assert Unpack(w) == expected;
    }
  }

  /** Storing an incremented stamp adds one to it below MAX_STAMP; at MAX_STAMP the stamp restarts at 0. */
  lemma IncrementThroughWord(p: StampedPtr)
    requires p.Representable()
    ensures Unpack(Pack(p.IncrementStamp())) ==
            StampedPtr(p.ptr, if p.stamp < MAX_STAMP then p.stamp + 1 else 0)
  {
    StampBits(p.stamp);
    if p.stamp < MAX_STAMP {
      UnpackPack(p.IncrementStamp());
    } else {
      UnpackPack(StampedPtr(p.ptr, 0));
    }
  }

  lemma StampBits(stamp: bv64)
    requires stamp <= 0xFFFF
    ensures stamp < 0xFFFF ==> stamp + 1 <= 0xFFFF
    ensures !(stamp < 0xFFFF) ==> (stamp + 1) << 48 == 0 << 48
  {}

  class AtomicStampedPtr {
    var packed: bv64

    /** The pair a reader sees; it can always be represented. */
    ghost function Value(): StampedPtr reads this {
      Unpack(packed)
    }

    constructor (p: StampedPtr)
      ensures Value() == p <==> p.Representable()
      ensures packed == Pack(Value()) == Pack(p)
    {
      packed := Pack(p);
      UnpackPack(p);
      PackUnpack(Pack(p));
    }

    method Store(p: StampedPtr)
      modifies this
      ensures Value() == p <==> p.Representable()
      ensures packed == Pack(Value()) == Pack(p)
    {
      packed := Pack(p);
      UnpackPack(p);
      PackUnpack(packed);
    }

    method Load() returns (p: StampedPtr)
      ensures p == Value() && p.Representable()
    {
      p := Unpack(packed);
      PackUnpack(packed);
    }

    method Exchange(target: StampedPtr) returns (prev: StampedPtr)
      modifies this
      ensures prev == old(Value()) && prev.Representable()
      ensures Value() == target <==> target.Representable()
    {
      prev := Unpack(packed);
      PackUnpack(packed);
      packed := Pack(target);
      UnpackPack(target);
    }

    /** `flaky` is the hardware's choice to fail a weak compare-and-swap although the words match. For a
        pair that can be represented the one-word operation is a compare-and-swap of the pair; on
        failure the caller learns the current pair. A desired stamp of MAX_STAMP + 1 is stored as 0. */
    method CompareExchangeWeak(expected: StampedPtr, desired: StampedPtr, flaky: bool)
      returns (succeeded: bool, seen: StampedPtr)
      modifies this
      ensures succeeded <==> !flaky && old(packed) == Pack(expected)
      ensures expected.Representable() ==> (succeeded <==> !flaky && old(Value()) == expected)
      ensures succeeded ==> seen == expected && (Value() == desired <==> desired.Representable())
      ensures succeeded && expected.Representable() && desired == StampedPtr(expected.ptr, MAX_STAMP + 1) && expected.stamp == MAX_STAMP ==>
                Value() == StampedPtr(expected.ptr, 0)
      ensures !succeeded ==> Value() == old(Value()) && seen == Value()
    {
      WordComparisonIsPairComparison(expected);
      UnpackPack(desired);
      if expected.Representable() { IncrementThroughWord(expected); }
      seen := expected;
      succeeded := packed == Pack(expected) && !flaky;
      if succeeded {
        packed := Pack(desired);
      } else {
        seen := Unpack(packed);
      }
    }
  }
}
