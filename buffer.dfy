/** A bidirectional bus buffer (src/main/kotlin/common/Buffer.kt): copies the
    value of one bus onto the other, counting as one write on the destination. */
module Buffers {
  import opened Buses

  /** Copying `src` onto `dst`. */
  function Transfer(src: BusState, dst: BusState): (t: BusState)
    ensures t.value == src.value && t.writes == dst.writes + 1
  {
    WriteStep(dst, src.value)
  }

  /** Copying A to B and then B back to A leaves A's value as it was. */
  lemma TransferRoundTrip(a: BusState, b: BusState)
    ensures Transfer(Transfer(a, b), a).value == a.value
    ensures Transfer(Transfer(a, b), a).writes == a.writes + 1
  {
  }

  class Buffer {
    const busA: Bus
    const busB: Bus
    const name: string

    constructor (busA: Bus, busB: Bus, name: string)
      ensures this.busA == busA && this.busB == busB && this.name == name
    {
      this.busA := busA;
      this.busB := busB;
      this.name := name;
    }

    /** Drives A's value onto B; A is untouched. */
    method AToB()
      modifies busB
      ensures busB.State() == Transfer(old(busA.State()), old(busB.State()))
      ensures busA != busB ==> busA.State() == old(busA.State())
    {
      busB.Write(busA.value);
    }

    /** Drives B's value onto A; B is untouched. */
    method BToA()
      modifies busA
      ensures busA.State() == Transfer(old(busB.State()), old(busA.State()))
      ensures busA != busB ==> busB.State() == old(busB.State())
    {
      busA.Write(busB.value);
    }
  }
}
