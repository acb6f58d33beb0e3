/** A clocked, width-masked register (src/main/kotlin/common/Register.kt).
    Its contents live in a `Clocked` cell: every write goes to `raw`, every
    read sees `clocked`, so a value written during one clock phase becomes
    visible after the next rising edge. A register may be attached to a data
    bus, which `read`/`write` use as destination and source.

    The source constructs a register and then calls `init(bus, width, name)`
    once; the constructor here does both. */
module Registers {
  import opened Words
  import opened Masks
  import opened Clocking
  import opened Buses

  /** `writeNybbleDirect(n, v)` applied to a register holding `curr` with a
      mask of `bits` bits. The source ORs `(v shl 4n) and wrMask` into
      `curr and (wrMask.inv() and mask)`, where `wrMask = 0xf shl 4n`: the
      in-mask bits of `curr` with nybble `n % 16` replaced by `v and 0xf`.
      The new nybble itself is not cut to the mask. */
  function WithNybble(curr: nat, n: int, v: nat, bits: nat): (r: nat)
    ensures NybbleOf(r, NybbleIndex(n)) == v % 16
    ensures forall j: nat :: j != NybbleIndex(n) && 4 * j + 4 <= bits ==>
              NybbleOf(r, j) == NybbleOf(curr, j)
    ensures bits % 4 == 0 && 4 * NybbleIndex(n) + 4 <= bits ==> r < Pow2(bits)
  {
    WithNybbleFacts(curr, NybbleIndex(n), v, bits);
    ReplaceNybble(LowBits(curr, bits), NybbleIndex(n), v)
  }

  lemma WithNybbleFacts(curr: nat, k: nat, v: nat, bits: nat)
    ensures NybbleOf(ReplaceNybble(LowBits(curr, bits), k, v), k) == v % 16
    ensures forall j: nat :: j != k && 4 * j + 4 <= bits ==>
              NybbleOf(ReplaceNybble(LowBits(curr, bits), k, v), j) == NybbleOf(curr, j)
    ensures bits % 4 == 0 && 4 * k + 4 <= bits ==> ReplaceNybble(LowBits(curr, bits), k, v) < Pow2(bits)
  {
    var r := ReplaceNybble(LowBits(curr, bits), k, v);
    ReplaceNybbleSame(LowBits(curr, bits), k, v);
    forall j: nat | j != k && 4 * j + 4 <= bits
      ensures NybbleOf(r, j) == NybbleOf(curr, j)
    {
      ReplaceNybbleOther(LowBits(curr, bits), k, v, j);
      LowBitsNybble(curr, bits, j);
    }
    if bits % 4 == 0 && 4 * k + 4 <= bits {
      assert 4 * (bits / 4) == bits;
      ReplaceNybbleBound(LowBits(curr, bits), k, v, bits / 4);
    }
  }

  /** Two nybble writes in one phase compose, because each builds on `raw`:
      writing nybble 1 and then nybble 0 of an 8-bit register yields the
      byte made of the two. */
  lemma NybblePair(curr: nat, h: nat, l: nat)
    ensures WithNybble(WithNybble(curr, 1, h, 8), 0, l, 8) == 16 * (h % 16) + l % 16
  {
    SmallPowers();
    var a := WithNybble(curr, 1, h, 8);
    assert a < 256;
    assert LowBits(a, 8) == a;
    TwoNybbles(LowBits(curr, 8), h, l);
  }

  class Register {
    const reg: Clocked<nat>
    const dataBus: Bus?
    const width: int
    /** Number of low bits the mask keeps; the mask is 2^bits - 1. */
    const bits: nat
    const mask: nat
    const name: string

    ghost predicate Valid()
    {
      bits == MaskBits(width) && mask == Pow2(bits) - 1
    }

    /** `Register(initialVal)` followed by `init(dataBus, width, name)`. */
    constructor (initialVal: nat, dataBus: Bus?, width: int, name: string)
      ensures Valid() && fresh(reg)
      ensures reg.initialVal == initialVal && reg.raw == initialVal && reg.clocked == initialVal
      ensures this.dataBus == dataBus && this.width == width && this.name == name
    {
      reg := new Clocked(initialVal);
      this.dataBus := dataBus;
      this.width := width;
      var m := BuildMask(0, width);
      bits := MaskBits(width);
      mask := m;
      this.name := name;
    }

    method Reset()
      modifies reg
      ensures reg.raw == reg.initialVal && reg.clocked == reg.initialVal
    {
      reg.Reset();
    }

    /** The committed value, cut to the mask. */
    function ReadDirect(): (v: nat)
      requires Valid()
      reads reg
      ensures v <= mask
      ensures reg.clocked <= mask ==> v == reg.clocked
    {
      LowBits(reg.clocked, bits)
    }

    /** The value written in this phase, cut to the mask. */
    function ReadDirectRaw(): (v: nat)
      requires Valid()
      reads reg
      ensures v <= mask
      ensures reg.raw <= mask ==> v == reg.raw
    {
      LowBits(reg.raw, bits)
    }

    /** Committed nybble `n`, not cut to the mask. */
    function ReadNybbleDirect(n: int): (v: nat)
      reads reg
      ensures v < 16
      ensures v == NybbleOf(reg.clocked, NybbleIndex(n))
    {
      NybbleOf(reg.clocked, NybbleIndex(n))
    }

    method WriteDirect(v: nat)
      requires Valid()
      modifies reg
      ensures reg.raw == LowBits(v, bits) && reg.raw <= mask
      ensures reg.clocked == old(reg.clocked)
    {
      reg.raw := LowBits(v, bits);
    }

    method WriteNybbleDirect(n: int, v: nat)
      modifies reg
      ensures reg.raw == WithNybble(old(reg.raw), n, v, bits)
      ensures reg.clocked == old(reg.clocked)
    {
      reg.raw := WithNybble(reg.raw, n, v, bits);
    }

    /** Committed value plus one, wrapping at 2^bits. It reads `clocked`, so
        two increments in one phase count as one. */
    method Increment()
      requires Valid()
      modifies reg
      ensures reg.raw == LowBits(old(reg.clocked) + 1, bits)
      ensures reg.clocked == old(reg.clocked)
    {
      reg.raw := LowBits(reg.clocked + 1, bits);
    }

    /** Puts committed nybble `n` on the attached bus, if there is one. */
    method ReadNybble(n: int)
      modifies dataBus
      ensures dataBus != null ==>
                dataBus.State() == WriteStep(old(dataBus.State()), NybbleOf(reg.clocked, NybbleIndex(n)))
    {
      if dataBus != null {
        dataBus.Write(ReadNybbleDirect(n));
      }
    }

    /** Puts the committed value, cut to the bus's mask, on the attached bus. */
    method Read()
      requires dataBus != null ==> dataBus.Valid()
      modifies dataBus
      ensures dataBus != null ==>
                dataBus.State() == WriteStep(old(dataBus.State()), LowBits(reg.clocked, dataBus.bits))
      ensures dataBus != null ==> dataBus.value <= dataBus.mask
    {
      if dataBus != null {
        dataBus.Write(LowBits(reg.clocked, dataBus.bits));
      }
    }

    /** Writes nybble `n` from the attached bus, if there is one. */
    method WriteNybble(n: int)
      modifies reg
      ensures dataBus != null ==> reg.raw == WithNybble(old(reg.raw), n, dataBus.value, bits)
      ensures dataBus == null ==> reg.raw == old(reg.raw)
      ensures reg.clocked == old(reg.clocked)
    {
      if dataBus != null {
        WriteNybbleDirect(n, dataBus.Read());
      }
    }

    /** Writes the bus value, cut to the mask, if a bus is attached. */
    method Write()
      requires Valid()
      modifies reg
      ensures dataBus != null ==> reg.raw == LowBits(dataBus.value, bits)
      ensures dataBus == null ==> reg.raw == old(reg.raw)
      ensures reg.clocked == old(reg.clocked)
    {
      if dataBus != null {
        reg.raw := LowBits(dataBus.Read(), bits);
      }
    }

    method Tick(edge: int)
      modifies reg
      ensures reg.raw == old(reg.raw)
      ensures reg.clocked == if edge == 1 then old(reg.raw) else old(reg.clocked)
    {
      reg.Tick(edge);
    }
  }
}
