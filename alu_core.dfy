/** The accumulator, the temporary register and the flag register of the ALU
    (src/main/kotlin/alu/AluCore.kt), each four bits wide on the internal
    data bus. The three auxiliary buses of the source are created but never
    used, so they are not modelled. */
module Alu {
  import opened Words
  import opened Masks
  import opened Globals
  import opened Buses
  import opened Registers

  class AluCore {
    const dataBus: Bus
    const accum: Register
    const temp: Register
    const flags: Register

    ghost predicate Valid()
    {
      && accum.Valid() && temp.Valid() && flags.Valid()
      && accum.width == BusWidth && temp.width == BusWidth && flags.width == BusWidth
      && accum.dataBus == dataBus && temp.dataBus == dataBus && flags.dataBus == dataBus
      && accum.reg.initialVal == 0 && temp.reg.initialVal == 0 && flags.reg.initialVal == 0
      && accum.reg != temp.reg && accum.reg != flags.reg && temp.reg != flags.reg
    }

    ghost function Cells(): set<object>
    {
      {accum.reg, temp.reg, flags.reg}
    }

    constructor (dataBus: Bus)
      ensures Valid() && fresh(Cells()) && this.dataBus == dataBus
      ensures accum.reg.clocked == 0 && temp.reg.clocked == 0 && flags.reg.clocked == 0
    {
      this.dataBus := dataBus;
      accum := new Register(0, dataBus, BusWidth, "ACC ");
      temp := new Register(0, dataBus, BusWidth, "TEMP ");
      flags := new Register(0, dataBus, BusWidth, "FLAG ");
    }

    /** All three registers back to 0. */
    method Reset()
      requires Valid()
      modifies Cells()
      ensures accum.reg.raw == 0 && accum.reg.clocked == 0
      ensures temp.reg.raw == 0 && temp.reg.clocked == 0
      ensures flags.reg.raw == 0 && flags.reg.clocked == 0
    {
      accum.Reset();
      temp.Reset();
      flags.Reset();
    }

    /** Exchanges the committed accumulator and temp values: each register's
        next value is the other's committed value. Committed values and the
        flag register do not change. */
    method Swap()
      requires Valid()
      modifies Cells()
      ensures accum.reg.raw == old(temp.reg.clocked) % 16
      ensures temp.reg.raw == old(accum.reg.clocked) % 16
      ensures accum.reg.clocked == old(accum.reg.clocked) && temp.reg.clocked == old(temp.reg.clocked)
      ensures flags.reg.raw == old(flags.reg.raw) && flags.reg.clocked == old(flags.reg.clocked)
    {
      SmallPowers();
      var tmp := temp.ReadDirect();
      temp.WriteDirect(accum.ReadDirect());
      accum.WriteDirect(tmp);
    }

    /** Loads the accumulator from the data bus; temp is untouched. */
    method WriteAccumulator()
      requires Valid()
      modifies accum.reg
      ensures accum.reg.raw == dataBus.value % 16 && accum.reg.clocked == old(accum.reg.clocked)
    {
      SmallPowers();
      accum.Write();
    }

    /** Loads temp from the data bus; the accumulator is untouched. */
    method WriteTemp()
      requires Valid()
      modifies temp.reg
      ensures temp.reg.raw == dataBus.value % 16 && temp.reg.clocked == old(temp.reg.clocked)
    {
      SmallPowers();
      temp.Write();
    }

    /** Drives the committed accumulator onto the data bus. */
    method ReadAccumulator()
      requires Valid() && dataBus.Valid()
      modifies dataBus
      ensures dataBus.State() == WriteStep(old(dataBus.State()), LowBits(accum.reg.clocked, dataBus.bits))
    {
      accum.Read();
    }

    /** Drives the committed temp register onto the data bus. */
    method ReadTemp()
      requires Valid() && dataBus.Valid()
      modifies dataBus
      ensures dataBus.State() == WriteStep(old(dataBus.State()), LowBits(temp.reg.clocked, dataBus.bits))
    {
      temp.Read();
    }

    method Tick(edge: int)
      requires Valid()
      modifies Cells()
      ensures accum.reg.raw == old(accum.reg.raw) && temp.reg.raw == old(temp.reg.raw)
      ensures flags.reg.raw == old(flags.reg.raw)
      ensures accum.reg.clocked == if edge == 1 then old(accum.reg.raw) else old(accum.reg.clocked)
      ensures temp.reg.clocked == if edge == 1 then old(temp.reg.raw) else old(temp.reg.clocked)
      ensures flags.reg.clocked == if edge == 1 then old(flags.reg.raw) else old(flags.reg.clocked)
    {
      accum.Tick(edge);
      temp.Tick(edge);
      flags.Tick(edge);
    }
  }

  /** Two swaps with a commit after each restore both registers (as 4-bit
      values). */
  method SwapTwice(alu: AluCore)
    requires alu.Valid()
    modifies alu.Cells()
    ensures alu.accum.reg.clocked == old(alu.accum.reg.clocked) % 16
    ensures alu.temp.reg.clocked == old(alu.temp.reg.clocked) % 16
  {
    alu.Swap();
    alu.Tick(1);
    alu.Swap();
    alu.Tick(1);
  }
}
