/** Integer conventions the simulator relies on, written out on unbounded
    naturals. The source keeps register and bus contents in JVM `Long`/`Int`
    values and manipulates them with `and`, `or`, `shl`, `shr` and `inv`; every
    value it stores is a non-negative number below 2^64, so the model keeps
    them as `nat` and states each bitwise idiom as arithmetic:

    - `x and (2^w - 1)` is `x % 2^w` (`LowBits`);
    - `x shr (4*n) and 0xf` is nybble `n % 16` of `x` (`NybbleOf`): the JVM
      keeps only the low six bits of a shift count, so `4*n` shifts by
      `4*(n % 16)`;
    - clearing nybble `k` and OR-ing a new one in is `ReplaceNybble`. */
module Words {

  /** 2^64: one more than the largest unsigned `Long`. */
  const Word: nat := 0x1_0000_0000_0000_0000

  /** An unsigned byte (`UByte`), as stored in program and RAM images. */
  type Byte = x: int | 0 <= x < 256

  /** 2 to the power `n`. */
  function Pow2(n: nat): (p: nat)
    ensures p >= 1
  {
    if n == 0 then 1 else 2 * Pow2(n - 1)
  }

  lemma {:induction false} Pow2Add(a: nat, b: nat)
    ensures Pow2(a + b) == Pow2(a) * Pow2(b)
  {
    if a > 0 {
      Pow2Add(a - 1, b);
    }
  }

  lemma {:induction false} Pow2Monotone(a: nat, b: nat)
    requires a <= b
    ensures Pow2(a) <= Pow2(b)
  {
    if a < b {
      Pow2Monotone(a, b - 1);
    }
  }

  /** The widths the simulator uses: a nybble, a byte and a 12-bit address. */
  lemma SmallPowers()
    ensures Pow2(4) == 16 && Pow2(8) == 256 && Pow2(12) == 4096
  {
    assert Pow2(4) == 16;
    assert Pow2(8) == 256;
  }

  lemma Pow2Of64()
    ensures Pow2(64) == Word
  {
    assert Pow2(4) == 16;
    Pow2Add(4, 4);
    assert Pow2(8) == 0x100;
    Pow2Add(8, 8);
    assert Pow2(16) == 0x1_0000;
    Pow2Add(16, 16);
    assert Pow2(32) == 0x1_0000_0000;
    Pow2Add(32, 32);
  }

  /** `x and mask` for the mask of width `w` (its low `w` bits set). */
  function LowBits(x: nat, w: nat): (r: nat)
    ensures r < Pow2(w)
    ensures x < Pow2(w) ==> r == x
  {
    var p := Pow2(w);
    ModBelow(x, p);
    x % p
  }

  lemma ModBelow(x: nat, p: nat)
    requires p >= 1
    ensures x % p < p
    ensures x < p ==> x % p == x
  {
  }

  /** Which nybble a shift by `4*n` reaches, given that the JVM reduces a
      64-bit shift count modulo 64. */
  function NybbleIndex(n: int): (k: nat)
    ensures k < 16
    ensures 0 <= n < 16 ==> k == n
    ensures (4 * n) % 64 == 4 * k
  {
    n % 16
  }

  /** Nybble `k` of `x`: bits 4k..4k+3. */
  function NybbleOf(x: nat, k: nat): (r: nat)
    ensures r < 16
  {
    if k == 0 then x % 16 else NybbleOf(x / 16, k - 1)
  }

  /** `x` with nybble `k` replaced by the low four bits of `v`. */
  function ReplaceNybble(x: nat, k: nat, v: nat): nat
  {
    if k == 0 then x - x % 16 + v % 16 else 16 * ReplaceNybble(x / 16, k - 1, v) + x % 16
  }

  /** The nybble that was written reads back. */
  lemma {:induction false} ReplaceNybbleSame(x: nat, k: nat, v: nat)
    ensures NybbleOf(ReplaceNybble(x, k, v), k) == v % 16
  {
    if k > 0 {
      ReplaceNybbleSame(x / 16, k - 1, v);
    }
  }

  /** Every other nybble is left as it was. */
  lemma {:induction false} ReplaceNybbleOther(x: nat, k: nat, v: nat, j: nat)
    requires j != k
    ensures NybbleOf(ReplaceNybble(x, k, v), j) == NybbleOf(x, j)
  {
    if k > 0 && j > 0 {
      ReplaceNybbleOther(x / 16, k - 1, v, j - 1);
    }
  }

  /** Replacing a nybble of a number below 16^m (for k < m) stays below 16^m. */
  lemma {:induction false} ReplaceNybbleBound(x: nat, k: nat, v: nat, m: nat)
    requires k < m && x < Pow2(4 * m)
    ensures ReplaceNybble(x, k, v) < Pow2(4 * m)
  {
    var p := Pow2(4 * (m - 1));
    Pow2Add(4, 4 * (m - 1));
    assert Pow2(4) == 16;
    assert 4 + 4 * (m - 1) == 4 * m;
    assert Pow2(4 * m) == 16 * p;
    assert x / 16 < p;
    if k > 0 {
      ReplaceNybbleBound(x / 16, k - 1, v, m - 1);
    }
  }

  /** Two writes to the same nybble: the second one wins. */
  lemma {:induction false} ReplaceNybbleTwice(x: nat, k: nat, v: nat, u: nat)
    ensures ReplaceNybble(ReplaceNybble(x, k, v), k, u) == ReplaceNybble(x, k, u)
  {
    var y := ReplaceNybble(x, k, v);
    if k == 0 {
      ModUnique(y, 16, x / 16, v % 16);
    } else {
      ReplaceNybbleTwice(x / 16, k - 1, v, u);
      ModUnique(y, 16, ReplaceNybble(x / 16, k - 1, v), x % 16);
    }
  }

  lemma ModUnique(x: nat, d: nat, a: nat, r: nat)
    requires d >= 1 && x == d * a + r && r < d
    ensures x % d == r && x / d == a
  {
    var q, s := x / d, x % d;
    assert x == d * q + s;
    MulCompare(d, a, q);
  }

  lemma MulCompare(d: nat, a: nat, b: nat)
    ensures a > b ==> d * a >= d * b + d
    ensures a < b ==> d * b >= d * a + d
  {
    if a > b {
      assert d * a == d * b + d * (a - b);
      MulAtLeast(d, a - b);
    } else if a < b {
      assert d * b == d * a + d * (b - a);
      MulAtLeast(d, b - a);
    }
  }

  lemma {:induction false} MulAtLeast(d: nat, t: nat)
    requires t >= 1
    ensures d * t >= d
  {
    if t > 1 {
      MulAtLeast(d, t - 1);
      assert d * t == d * (t - 1) + d;
    }
  }

  /** Dropping the low nybble of `x mod 16q` is dropping it before the mod. */
  lemma ModMul16(x: nat, q: nat)
    requires q >= 1
    ensures (x % (16 * q)) / 16 == (x / 16) % q
    ensures (x % (16 * q)) % 16 == x % 16
  {
    var a, r := x / 16, x % 16;
    var b, c := a / q, a % q;
    assert x == (16 * q) * b + (16 * c + r);
    ModUnique(x, 16 * q, b, 16 * c + r);
  }

  /** Keeping the low `w` bits keeps every nybble that lies wholly below bit
      `w`, and clears every nybble from bit `w` up. */
  lemma {:induction false} LowBitsNybble(x: nat, w: nat, j: nat)
    ensures 4 * j + 4 <= w ==> NybbleOf(LowBits(x, w), j) == NybbleOf(x, j)
    ensures 4 * j >= w ==> NybbleOf(LowBits(x, w), j) == 0
  {
    if w >= 4 {
      Pow2Add(4, w - 4);
      assert Pow2(4) == 16;
      ModMul16(x, Pow2(w - 4));
      if j > 0 {
        LowBitsNybble(x / 16, w - 4, j - 1);
      }
    } else {
      LowBelow16(x, w, j);
    }
  }

  lemma LowBelow16(x: nat, w: nat, j: nat)
    requires w < 4
    ensures 4 * j >= w ==> NybbleOf(LowBits(x, w), j) == 0
  {
    if j > 0 {
      assert Pow2(w) <= 8;
      NybbleOfSmall(LowBits(x, w), j);
    }
  }

  lemma {:induction false} NybbleOfSmall(y: nat, j: nat)
    requires y < 16 && j > 0
    ensures NybbleOf(y, j) == 0
  {
    if j > 1 {
      NybbleOfSmall(y / 16, j - 1);
    }
  }

  /** A number made of two nybbles: nybble 1 is `h`, nybble 0 is `l`. */
  lemma TwoNybbles(x: nat, h: nat, l: nat)
    requires x < 256
    ensures ReplaceNybble(ReplaceNybble(x, 1, h), 0, l) == 16 * (h % 16) + l % 16
  {
  }

  /** `Long.toInt()` of a stored value: the low 32 bits, read as signed. */
  function ToInt32(x: nat): (r: int)
    ensures -0x8000_0000 <= r < 0x8000_0000
    ensures x < 0x8000_0000 ==> r == x
  {
    var low := x % 0x1_0000_0000;
    if low < 0x8000_0000 then low else low - 0x1_0000_0000
  }

  /** `Int.toUInt()` of a stored value: its low 32 bits. */
  function ToUInt32(x: nat): (r: nat)
    ensures r < 0x1_0000_0000
    ensures x < 0x1_0000_0000 ==> r == x
  {
    x % 0x1_0000_0000
  }

  /** `x and 0xf` on a two's-complement `Int`. */
  function LowNybble(x: int): (r: nat)
    ensures r < 16
    ensures 0 <= x < 16 ==> r == x
  {
    x % 16
  }

  /** `x and 0xf0` on a two's-complement `Int`, moved down: the opcode family. */
  function HighNybble(x: int): (r: nat)
    ensures r < 16
    ensures 0 <= x < 256 ==> r == x / 16
  {
    (x % 256) / 16
  }

  /** `x.inv() and 0xf` on a two's-complement `Int`. */
  function InvLowNybble(x: int): (r: nat)
    ensures r < 16
    ensures r == 15 - LowNybble(x)
  {
    (-x - 1) % 16
  }

  /** `Int.toByte()`: the low 8 bits, read as signed. Bit 0 survives. */
  function ToSignedByte(x: int): (r: int)
    ensures -128 <= r < 128
    ensures r % 2 == x % 2
    ensures -128 <= x < 128 ==> r == x
  {
    var low := x % 256;
    if low < 128 then low else low - 256
  }

  /** `x and 0xe` on a two's-complement `Int`: the low nybble with bit 0
      cleared, i.e. the even member of the register pair `x` names. */
  function PairBase(x: int): int
  {
    x % 16 - x % 2
  }

  /** `(x and 0xe) + 1`: the odd member of the pair. */
  function PairTop(x: int): int
  {
    PairBase(x) + 1
  }

  /** `PairBase(x)` is even and names the pair holding `LowNybble(x)`: it
      is that nybble or the one below it. */
  lemma PairBaseOfPair(x: int)
    ensures 0 <= PairBase(x) < 16 && PairBase(x) % 2 == 0
    ensures PairBase(x) == LowNybble(x) || PairBase(x) + 1 == LowNybble(x)
    ensures PairBase(x) / 2 == LowNybble(x) / 2
  {
    var q, r := x / 16, x % 16;
    var a, b := r / 2, r % 2;
    assert x == 16 * q + r;
    assert r == 2 * a + b && 0 <= b < 2;
    ModOfDouble(x, 8 * q + a, b);
    assert PairBase(x) == 2 * a;
  }

  lemma ModOfDouble(x: int, k: int, b: int)
    requires 0 <= b < 2 && x == 2 * k + b
    ensures x % 2 == b
  {
  }
}
