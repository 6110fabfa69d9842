/** Unsigned 64-bit words. */
module Words {

  const WORD: int := 0x1_0000_0000_0000_0000

  /** The word that an integer wraps to. */
  function Wrap(n: int): nat {
    n % WORD
  }

  lemma WrapSmall(n: int)
    requires 0 <= n < WORD
    ensures Wrap(n) == n
  {
  }

  /** An integer of either sign below 2^64 in size wraps to 0 only if it is 0. */
  lemma WrapZero(n: int)
    requires -WORD < n < WORD
    ensures Wrap(n) == 0 <==> n == 0
  {
  }

  lemma WrapAdd(n: int, d: int)
    ensures Wrap(Wrap(n) + d) == Wrap(n + d)
  {
  }
}
