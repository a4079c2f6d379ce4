/** Powers of two, the shape every hardware texture must have. Shared by the
    two rounding loops (drawing_context.cpp and texture_manager.cpp) and the
    bitwise test in texture.cpp. */
module Pow2 {

  /** n is 1, 2, 4, 8, ... */
  predicate IsPow2(n: int)
    decreases if n > 0 then n else 0
  {
    n == 1 || (n > 1 && n % 2 == 0 && IsPow2(n / 2))
  }

  /** The C expression `result *= 2` never leaves the powers of two. */
  lemma DoubleIsPow2(n: int)
    requires IsPow2(n)
    ensures IsPow2(2 * n)
  {
    assert (2 * n) / 2 == n;
  }

  lemma {:induction false} Pow2Positive(n: int)
    requires IsPow2(n)
    ensures n >= 1
  {
    if n != 1 { Pow2Positive(n / 2); }
  }

  /** Between two powers of two there is always a factor of at least two. */
  lemma {:induction false} Pow2Gap(p: int, r: int)
    requires IsPow2(p) && IsPow2(r) && p < r
    ensures 2 * p <= r
    decreases r
  {
    Pow2Positive(p);
    if r == 1 {
    } else if p == 1 {
      Pow2Positive(r / 2);
    } else {
      Pow2Gap(p / 2, r / 2);
    }
  }

  /** r is the least power of two that is at least v. */
  ghost predicate IsNextPow2(v: int, r: int) {
    IsPow2(r) && v <= r && forall p :: IsPow2(p) && v <= p ==> r <= p
  }

  /** Bitwise AND of two non-negative integers, bit by bit from the least
      significant end; on values below 2^32 it is C's `&`. */
  function BitAnd(a: nat, b: nat): nat
  {
    if a == 0 || b == 0 then 0
    else 2 * BitAnd(a / 2, b / 2) + (if a % 2 == 1 && b % 2 == 1 then 1 else 0)
  }

  lemma {:induction false} BitAndSelf(a: nat)
    ensures BitAnd(a, a) == a
  {
    if a != 0 { BitAndSelf(a / 2); }
  }

  /** `v & (v - 1)` clears the lowest set bit, so it is zero exactly for the
      powers of two. */
  lemma {:induction false} BitAndPredecessor(v: nat)
    requires v >= 1
    ensures BitAnd(v, v - 1) == 0 <==> IsPow2(v)
  {
    if v == 1 {
    } else if v % 2 == 0 {
      var m := v / 2;
      assert v - 1 == 2 * (m - 1) + 1;
      assert BitAnd(v, v - 1) == 2 * BitAnd(m, m - 1);
      BitAndPredecessor(m);
    } else {
      var m := v / 2;
      assert v - 1 == 2 * m;
      BitAndSelf(m);
      assert BitAnd(v, v - 1) == 2 * m;
    }
  }
}
