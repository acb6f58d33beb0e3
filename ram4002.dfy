/** The 4002 RAM (src/main/kotlin/ram4002/Ram4002.kt): a `RomRamDecoder`
    switched out of ROM mode, driven by the clock. The source extends the
    decoder; here the chip holds one. On the falling edge (0) it runs
    `process`: `resetFlags`, `clkAndSync`, `calculateFlags` and `update`; on
    any other edge it runs `clockOut`. The decoder's own cells commit on the
    rising edge through `RomRamDecoder.Tick`. */
module Rams {
  import opened Buses
  import opened Clocking
  import opened RomRam

  class Ram4002 {
    const decoder: RomRamDecoder

    /** A RAM on `extDataBus` with output port `ioBus`, listening to the
        CPU's SYNC and CM-RAM lines. It starts in RAM mode with no memory. */
    constructor (extDataBus: Bus, ioBus: Bus?, sync: Clocked<int>, cm: Clocked<int>)
      requires ioBus != extDataBus
      ensures decoder.Valid() && fresh(decoder)
      ensures decoder.extBus == extDataBus && decoder.ioBus == ioBus
      ensures decoder.sync == sync && decoder.cm == cm
      ensures var t := decoder.State();
              !t.romMode && t.id == 0 && t.flags == InitialFlags && t.count == Cell(0, 0)
      ensures decoder.State().mem == Memory([], [], 0, 0, 0)
    {
      var d := new RomRamDecoder(extDataBus, ioBus, sync, cm);
      d.romMode := false;
      decoder := d;
    }

    /** `getClkCount`: the committed phase. */
    function GetClkCount(): (n: nat)
      reads decoder, decoder.clkCount, decoder.addrReg.reg, decoder.instReg.reg
      reads decoder.intBus, decoder.extBus, decoder.ioBus
      ensures n == decoder.State().count.clocked
    {
      decoder.clkCount.clocked
    }

    /** `setRamID`: only the chip id changes. */
    method SetRamID(id: int)
      modifies decoder
      ensures decoder.State() == old(decoder.State()).(id := id)
      ensures GetRamID() == id
    {
      decoder.SetID(id);
    }

    /** `getRamID`. */
    function GetRamID(): (id: int)
      reads decoder, decoder.clkCount, decoder.addrReg.reg, decoder.instReg.reg
      reads decoder.intBus, decoder.extBus, decoder.ioBus
      ensures id == decoder.State().id
    {
      decoder.GetID()
    }

    /** `createRamMemory`, inherited from the decoder: `registers` registers
        of `characters` data characters and `statusCharacters` status
        characters each, all zero. */
    method CreateRamMemory(characters: nat, statusCharacters: nat, registers: nat) returns (ok: bool)
      modifies decoder
      ensures ok == !old(decoder.romMode)
      ensures decoder.State() == if ok then CreateRamStep(old(decoder.State()), characters, statusCharacters, registers)
                                 else old(decoder.State())
    {
      ok := decoder.CreateRamMemory(characters, statusCharacters, registers);
    }

    /** The clock subscription: `process` on the falling edge, `clockOut`
        on any other. `ok` is false where `process` stops at a missing
        output bus. */
    method Clock(edge: int) returns (ok: bool)
      requires decoder.Valid()
      modifies decoder, decoder.clkCount, decoder.addrReg.reg, decoder.instReg.reg
      modifies decoder.intBus, decoder.extBus, decoder.ioBus
      ensures edge == 0 ==> decoder.State() == ProcessStep(old(decoder.State()), old(decoder.sync.clocked),
                                                           old(decoder.cm.clocked))
      ensures edge == 0 ==> ok == !ProcessFaults(old(decoder.State()), old(decoder.sync.clocked))
      ensures edge != 0 ==> decoder.State() == ClockOutStep(old(decoder.State())) && ok
    {
      if edge == 0 {
        ok := Process();
      } else {
        decoder.ClockOut();
        ok := true;
      }
    }

    /** `process`: one falling edge; `update` is skipped when
        `calculateFlags` stops at a missing output bus. */
    method Process() returns (ok: bool)
      requires decoder.Valid()
      modifies decoder, decoder.clkCount, decoder.addrReg.reg, decoder.instReg.reg
      modifies decoder.intBus, decoder.ioBus
      ensures decoder.State() == ProcessStep(old(decoder.State()), old(decoder.sync.clocked),
                                             old(decoder.cm.clocked))
      ensures ok == !ProcessFaults(old(decoder.State()), old(decoder.sync.clocked))
    {
      decoder.ResetFlags();
      decoder.ClkAndSync();
      ok := decoder.CalculateFlags();
      if ok {
        decoder.Update();
      }
    }
  }
}
