/** A shared data bus (src/main/kotlin/common/Bus.kt): the last value driven
    onto it and a count of writes since the last reset. Its width mask comes
    from `Maskable`, as all its users (`Register.read`, the internal buses of
    the CPU and the memory chips) assume. */
module Buses {
  import opened Words
  import opened Masks

  /** The observable part of a bus. */
  datatype BusState = BusState(value: nat, writes: nat)

  /** Driving `v` onto a bus. */
  function WriteStep(s: BusState, v: nat): (t: BusState)
    ensures t.value == v && t.writes == s.writes + 1
  {
    BusState(v, s.writes + 1)
  }

  /** A run of writes, one after the other. */
  function AfterWrites(s: BusState, vs: seq<nat>): BusState
    decreases |vs|
  {
    if vs == [] then s else AfterWrites(WriteStep(s, vs[0]), vs[1..])
  }

  /** After a run of writes the bus holds the last value written, and the write
      counter has grown by the number of writes. */
  lemma {:induction false} AfterWritesLast(s: BusState, vs: seq<nat>)
    requires vs != []
    ensures AfterWrites(s, vs).value == vs[|vs| - 1]
    ensures AfterWrites(s, vs).writes == s.writes + |vs|
    decreases |vs|
  {
    if |vs| > 1 {
      AfterWritesLast(WriteStep(s, vs[0]), vs[1..]);
    }
  }

  class Bus {
    const name: string
    const width: int
    /** Number of low bits the bus mask keeps; the mask is 2^bits - 1. */
    const bits: nat
    const mask: nat
    var value: nat
    var writes: nat

    ghost predicate Valid()
    {
      bits == MaskBits(width) && mask == Pow2(bits) - 1
    }

    function State(): BusState
      reads this
    {
      BusState(value, writes)
    }

    /** A new bus, initialised to `width` bits: value 0 and no writes. */
    constructor (width: int, name: string)
      ensures Valid() && this.width == width && this.name == name
      ensures value == 0 && writes == 0
    {
      this.name := name;
      this.width := width;
      var m := BuildMask(0, width);
      bits := MaskBits(width);
      mask := m;
      value := 0;
      writes := 0;
    }

    /** Stores `v` exactly and counts one more write. */
    method Write(v: nat)
      modifies this
      ensures State() == WriteStep(old(State()), v)
    {
      value := v;
      writes := writes + 1;
    }

    /** Clears the write counter; the value stays on the bus. */
    method Reset()
      modifies this
      ensures writes == 0 && value == old(value)
    {
      writes := 0;
    }

    /** The value on the bus. */
    function Read(): (v: nat)
      reads this
      ensures v == State().value
    {
      value
    }
  }
}
