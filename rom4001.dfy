/** The 4001 ROM (src/main/kotlin/rom4001/Rom4001.kt): a `RomRamDecoder` in
    ROM mode, driven by the clock. On the falling edge (0) it runs
    `process`: `resetFlags`, `clkAndSync`, `calculateFlags` and `update`; on
    any other edge it runs `clockOut`. The decoder's own cells commit on the
    rising edge through `RomRamDecoder.Tick`. */
module Roms {
  import opened Buses
  import opened Clocking
  import opened Words
  import opened RomRam

  class Rom4001 {
    const decoder: RomRamDecoder

    /** A ROM on `extDataBus` with I/O port `ioBus`, listening to the CPU's
        SYNC and CM-ROM lines. */
    constructor (extDataBus: Bus, ioBus: Bus?, sync: Clocked<int>, cm: Clocked<int>)
      requires ioBus != extDataBus
      ensures decoder.Valid() && fresh(decoder)
      ensures decoder.extBus == extDataBus && decoder.ioBus == ioBus
      ensures decoder.sync == sync && decoder.cm == cm
      ensures var t := decoder.State();
              t.romMode && t.id == 0 && t.flags == InitialFlags && t.count == Cell(0, 0)
    {
      decoder := new RomRamDecoder(extDataBus, ioBus, sync, cm);
    }

    /** `getClkCount`: the committed phase. */
    function GetClkCount(): (n: nat)
      reads decoder, decoder.clkCount, decoder.addrReg.reg, decoder.instReg.reg
      reads decoder.intBus, decoder.extBus, decoder.ioBus
      ensures n == decoder.State().count.clocked
    {
      decoder.clkCount.clocked
    }

    /** `setRomID`: only the chip id changes. */
    method SetRomID(id: int)
      modifies decoder
      ensures decoder.State() == old(decoder.State()).(id := id)
      ensures GetRomID() == id
    {
      decoder.SetID(id);
    }

    /** `getRomID`. */
    function GetRomID(): (id: int)
      reads decoder, decoder.clkCount, decoder.addrReg.reg, decoder.instReg.reg
      reads decoder.intBus, decoder.extBus, decoder.ioBus
      ensures id == decoder.State().id
    {
      decoder.GetID()
    }

    /** `loadProgram`: the image becomes `program` while the chip is in ROM
        mode; otherwise nothing changes and `ok` is false. */
    method LoadProgram(program: seq<Byte>) returns (ok: bool)
      modifies decoder
      ensures ok == old(decoder.romMode)
      ensures decoder.State() == if ok then LoadProgramStep(old(decoder.State()), program)
                                 else old(decoder.State())
    {
      ok := decoder.LoadProgram(program);
    }

    /** The clock subscription: `process` on the falling edge, `clockOut`
        on any other. `ok` is false where `process` stops at a missing I/O
        bus. */
    method Clock(edge: int) returns (ok: bool)
      requires decoder.Valid()
      modifies decoder, decoder.clkCount, decoder.addrReg.reg, decoder.instReg.reg
      modifies decoder.intBus, decoder.extBus, decoder.ioBus
      ensures edge == 0 ==> decoder.State() == ProcessStep(old(decoder.State()), old(decoder.sync.clocked),
                                                           old(decoder.cm.clocked))
      ensures edge == 0 ==> ok == !ProcessFaults(old(decoder.State()), old(decoder.sync.clocked))
      ensures edge != 0 ==> decoder.State() == ClockOutStep(old(decoder.State())) && ok
    {
      if edge == 0 {
        ok := Process();
      } else {
        decoder.ClockOut();
        ok := true;
      }
    }

    /** `process`: one falling edge; `update` is skipped when
        `calculateFlags` stops at a missing I/O bus. */
    method Process() returns (ok: bool)
      requires decoder.Valid()
      modifies decoder, decoder.clkCount, decoder.addrReg.reg, decoder.instReg.reg
      modifies decoder.intBus, decoder.ioBus
      ensures decoder.State() == ProcessStep(old(decoder.State()), old(decoder.sync.clocked),
                                             old(decoder.cm.clocked))
      ensures ok == !ProcessFaults(old(decoder.State()), old(decoder.sync.clocked))
    {
      decoder.ResetFlags();
      decoder.ClkAndSync();
      ok := decoder.CalculateFlags();
      if ok {
        decoder.Update();
      }
    }
  }
}
