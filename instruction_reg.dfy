/** The 8-bit instruction register (src/main/kotlin/instruction/InstructionReg.kt),
    loaded one nybble at a time from the internal data bus. Its inner
    register has no bus of its own. */
module Instruction {
  import opened Words
  import opened Masks
  import opened Buses
  import opened Registers

  const InstWidth: int := 8

  class InstructionReg {
    const dataBus: Bus
    const inst: Register

    ghost predicate Valid()
    {
      inst.Valid() && inst.width == InstWidth && inst.dataBus == null && inst.reg.initialVal == 0
    }

    constructor (dataBus: Bus)
      ensures Valid() && fresh(inst.reg) && this.dataBus == dataBus
      ensures inst.reg.raw == 0 && inst.reg.clocked == 0
    {
      this.dataBus := dataBus;
      inst := new Register(0, null, InstWidth, "INST ");
    }

    method Reset()
      modifies inst.reg
      ensures inst.reg.raw == inst.reg.initialVal && inst.reg.clocked == inst.reg.initialVal
    {
      inst.Reset();
    }

    /** The committed instruction byte. */
    function GetInstructionRegister(): (v: nat)
      requires Valid()
      reads inst.reg
      ensures v < 256
      ensures inst.reg.clocked < 256 ==> v == inst.reg.clocked
    {
      SmallPowers();
      inst.ReadDirect()
    }

    /** Drives committed nybble `n` onto the data bus. */
    method ReadInstructionRegister(n: int)
      modifies dataBus
      ensures dataBus.State() == WriteStep(old(dataBus.State()), NybbleOf(inst.reg.clocked, NybbleIndex(n)))
    {
      dataBus.Write(inst.ReadNybbleDirect(n));
    }

    /** Loads nybble `n` from the data bus, keeping the other nybble. */
    method WriteInstructionRegister(n: int)
      requires Valid()
      modifies inst.reg
      ensures inst.reg.raw == WithNybble(old(inst.reg.raw), n, dataBus.value, 8)
      ensures inst.reg.clocked == old(inst.reg.clocked)
    {
      inst.WriteNybbleDirect(n, dataBus.Read());
    }

    method Tick(edge: int)
      modifies inst.reg
      ensures inst.reg.raw == old(inst.reg.raw)
      ensures inst.reg.clocked == if edge == 1 then old(inst.reg.raw) else old(inst.reg.clocked)
    {
      inst.Tick(edge);
    }
  }

  /** Loading nybble 1 from a bus holding `h`, then nybble 0 from one holding
      `l`, then committing, gives the instruction byte 16h + l. */
  method LoadInstruction(ir: InstructionReg, h: nat, l: nat) returns (v: nat)
    requires ir.Valid()
    modifies ir.dataBus, ir.inst.reg
    ensures v == 16 * (h % 16) + l % 16
  {
    ir.dataBus.Write(h);
    ir.WriteInstructionRegister(1);
    ir.dataBus.Write(l);
    ir.WriteInstructionRegister(0);
    NybblePair(old(ir.inst.reg.raw), h, l);
    ir.Tick(1);
    v := ir.GetInstructionRegister();
  }
}
