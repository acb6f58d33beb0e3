/** Width masks (src/main/kotlin/common/Maskable.kt). A register or bus of
    width `w` keeps only the low `w` bits of every value written to it. The
    mask is built by a loop that shifts one set bit in per iteration, starting
    from whatever mask the object already holds; `Long` arithmetic keeps the
    result modulo 2^64. */
module Masks {
  import opened Words

  /** The mask after `n` iterations of `mask = mask shl 1; mask = mask or 1`,
      starting from `m`, as an unsigned 64-bit number. */
  function ShiftInOnes(m: nat, n: nat): (r: nat)
    ensures r < Word
  {
    if n == 0 then m % Word else (2 * ShiftInOnes(m, n - 1) + 1) % Word
  }

  /** Number of iterations of `for (i in 0 until width)`. */
  function Iterations(width: int): (n: nat)
    ensures width >= 0 ==> n == width
    ensures width < 0 ==> n == 0
  {
    if width < 0 then 0 else width
  }

  /** How many low bits the mask built by `width` iterations keeps: at most
      64, since a `Long` has no more. */
  function MaskBits(width: int): (b: nat)
    ensures b <= 64
    ensures 0 <= width <= 64 ==> b == width
  {
    if Iterations(width) <= 64 then Iterations(width) else 64
  }

  /** Starting from an empty mask, `w <= 64` iterations give 2^w - 1. */
  lemma {:induction false} ShiftInOnesFromZero(w: nat)
    requires w <= 64
    ensures ShiftInOnes(0, w) == Pow2(w) - 1
  {
    if w > 0 {
      ShiftInOnesFromZero(w - 1);
      Pow2Monotone(w, 64);
      Pow2Of64();
    }
  }

  /** Further iterations keep the full 64-bit mask. */
  lemma {:induction false} ShiftInOnesSaturates(w: nat)
    ensures ShiftInOnes(0, w) == Pow2(if w <= 64 then w else 64) - 1
  {
    if w <= 64 {
      ShiftInOnesFromZero(w);
    } else {
      ShiftInOnesSaturates(w - 1);
      Pow2Of64();
      assert ShiftInOnes(0, w - 1) == Word - 1;
      assert (2 * (Word - 1) + 1) % Word == Word - 1;
    }
  }

  lemma ModStep(a: nat)
    ensures (2 * (a % Word) + 1) % Word == (2 * a + 1) % Word
  {
    var q, r := a / Word, a % Word;
    assert 2 * a + 1 == (2 * r + 1) + Word * (2 * q);
    ModAddMultiple(2 * r + 1, 2 * q, Word);
  }

  /** Adding a multiple of the divisor leaves the remainder alone. */
  lemma ModAddMultiple(x: nat, k: nat, d: nat)
    requires d >= 1
    ensures (x + d * k) % d == x % d
  {
    var q, r := x / d, x % d;
    assert x + d * k == d * (q + k) + r;
    ModUnique(x + d * k, d, q + k, r);
  }

  /** Starting from a non-empty mask `m < 2^64`, the old mask is shifted up:
      the result is m * 2^n + 2^n - 1, modulo 2^64. */
  lemma {:induction false} ShiftInOnesFrom(m: nat, n: nat)
    requires m < Word
    ensures ShiftInOnes(m, n) == (m * Pow2(n) + Pow2(n) - 1) % Word
  {
    if n > 0 {
      ShiftInOnesFrom(m, n - 1);
      var p := Pow2(n - 1);
      var a := m * p + p - 1;
      ModStep(a);
      assert Pow2(n) == 2 * p;
      DoubleFactor(m, p);
      assert 2 * a + 1 == m * Pow2(n) + Pow2(n) - 1;
    }
  }

  lemma DoubleFactor(m: nat, p: nat)
    ensures m * (2 * p) == 2 * (m * p)
  {
  }

  /** `shl 1` then `or 1` on a 64-bit value. */
  lemma ShiftOrOne(m: nat)
    ensures (2 * m) % Word % 2 == 0
    ensures (2 * m) % Word + 1 == (2 * m + 1) % Word
  {
    var q := (2 * m) / Word;
    assert 2 * m == q * Word + (2 * m) % Word;
    assert (2 * m) % Word == 2 * (m - q * (Word / 2));
  }

  /** The loop of `Maskable.baseInit`: `mask shl 1`, then `or 1`, `width` times. */
  method BuildMask(mask0: nat, width: int) returns (mask: nat)
    requires mask0 < Word
    ensures mask == ShiftInOnes(mask0, Iterations(width))
    ensures mask0 == 0 ==> mask == Pow2(MaskBits(width)) - 1
  {
    mask := mask0;
    var i := 0;
    while i < width
      invariant 0 <= i <= Iterations(width)
      invariant mask == ShiftInOnes(mask0, i)
    {
      ShiftOrOne(mask);
      ghost var m := mask;
      mask := (2 * mask) % Word;
      mask := mask - mask % 2 + 1;
      assert mask == (2 * m + 1) % Word;
      i := i + 1;
    }
    assert i == Iterations(width);
    if mask0 == 0 {
      ShiftInOnesSaturates(Iterations(width));
    }
  }

  /** The state every width-masked object of the simulator inherits. */
  class Maskable {
    var width: int
    var mask: nat
    var name: string

    ghost predicate Valid()
      reads this
    {
      mask < Word
    }

    constructor ()
      ensures Valid() && width == 0 && mask == 0 && name == ""
    {
      width := 0;
      mask := 0;
      name := "";
    }

    /** `baseInit`: correct on a fresh object only. */
    method BaseInit(width: int, name: string)
      requires Valid()
      modifies this
      ensures Valid()
      ensures this.width == width && this.name == name
      ensures mask == ShiftInOnes(old(mask), Iterations(width))
      ensures old(mask) == 0 ==> mask == Pow2(MaskBits(width)) - 1
      ensures width >= 0 ==> mask == (old(mask) * Pow2(width) + Pow2(width) - 1) % Word
    {
      this.width := width;
      var m0 := mask;
      mask := BuildMask(mask, width);
      if width >= 0 {
        ShiftInOnesFrom(m0, width);
      }
      this.name := name;
    }
  }

  /** Calling `baseInit(4, …)` twice leaves the mask 0xFF rather than 0xF. */
  lemma SecondInitWidth4()
    ensures ShiftInOnes(ShiftInOnes(0, 4), 4) == 0xFF
  {
    assert ShiftInOnes(0, 0) == 0;
    assert ShiftInOnes(0, 1) == 1;
    assert ShiftInOnes(0, 2) == 3;
    assert ShiftInOnes(0, 3) == 7;
    assert ShiftInOnes(0, 4) == 15;
    assert ShiftInOnes(15, 0) == 15;
    assert ShiftInOnes(15, 1) == 31;
    assert ShiftInOnes(15, 2) == 63;
    assert ShiftInOnes(15, 3) == 127;
  }
}
