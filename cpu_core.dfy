/** The CPU core (src/main/kotlin/cpucore/CpuCore.kt): the decoder, the ALU,
    the instruction register, the address stack and the index registers on
    one 4-bit internal bus, joined to the external bus by a buffer, and the
    three control lines SYNC, CM-ROM and CM-RAM it drives (all active low;
    CM-RAM is four bank lines). On the falling clock edge the core runs one
    phase: it restores the idle line levels, copies the external bus in if
    the previous phase asked for it, resets the decoder's flags, advances
    the phase counter, computes the phase's flags and then acts on them.
    The rising edge commits every cell. */
module CpuCores {
  import opened Words
  import opened Clocking
  import opened Buses
  import opened Buffers
  import opened Registers
  import opened Alu
  import opened Instruction
  import opened AddressStacks
  import opened Index
  import opened Defines
  import opened Decoders
  import opened Dispatch

  /** The raw levels of the control lines. */
  datatype Lines = Lines(sync: int, cmRom: int, cmRam: int)

  /** Everything the core drives besides the decoder: both buses, the
      control lines and the PC's cell. */
  datatype Pins = Pins(ext: BusState, intBus: BusState, lines: Lines, pcRaw: nat, pcClocked: nat)

  /** What one phase of the core reads and writes. */
  datatype CoreState = CoreState(dec: DecoderState, pins: Pins)

  /** The idle levels: no SYNC, no ROM select, no RAM bank selected. */
  const IdleLines := Lines(1, 1, 0xF)

  /** The bus and line half of `resetFlags`: clear the internal bus's write
      count, copy the external bus in when `copyIn`, and restore the idle
      levels. */
  function ReleaseStep(p: Pins, copyIn: bool): (q: Pins)
    ensures q.lines == IdleLines
    ensures q.intBus.value == if copyIn then p.ext.value else p.intBus.value
    ensures q.intBus.writes == if copyIn then 1 else 0
    ensures q.ext == p.ext && q.pcRaw == p.pcRaw && q.pcClocked == p.pcClocked
  {
    var cleared := BusState(p.intBus.value, 0);
    p.(intBus := if copyIn then Transfer(p.ext, cleared) else cleared, lines := IdleLines)
  }

  /** `resetFlags`: release the buses and lines, copying the external bus
      in when the previous phase turned the bus inward (the flag is read
      before the decoder resets it), then reset the decoder's flags. */
  function ResetCoreStep(c: CoreState): (r: CoreState)
    ensures r.pins.lines == IdleLines
    ensures r.pins.intBus.value == if Flag(c.dec, BusDir) == BufDirIn then c.pins.ext.value else c.pins.intBus.value
    ensures r.dec.count == c.dec.count && r.dec.inst == c.dec.inst
    ensures forall f :: f in c.dec.flags ==> Flag(r.dec, f) == ResetValue(f)
  {
    CoreState(ResetStep(c.dec), ReleaseStep(c.pins, Flag(c.dec, BusDir) == BufDirIn))
  }

  /** The PC nybble `PCOut` names, counted from 1. */
  function PcNybble(pcClocked: nat, pcOut: int): nat
  {
    NybbleOf(pcClocked, NybbleIndex(pcOut - 1))
  }

  /** What `update` does with the flag values it reads: increment the PC on
      PCInc, pull the lines low for Sync, CmRom and CmRam (the RAM lines
      take the inverted low nybble of the flag), put a PC nybble on the
      internal bus for PCOut, and drive the external bus from it when the
      bus direction is outward. */
  function DriveStep(p: Pins, pcInc: int, sync: int, cmRom: int, cmRam: int, pcOut: int, busDir: int): (q: Pins)
    ensures q.pcClocked == p.pcClocked
    ensures pcInc != 0 ==> q.pcRaw == (p.pcClocked + 1) % 4096
    ensures pcInc == 0 ==> q.pcRaw == p.pcRaw
    ensures pcOut > 0 ==> q.intBus.value == NybbleOf(p.pcClocked, NybbleIndex(pcOut - 1))
    ensures pcOut <= 0 ==> q.intBus == p.intBus
    ensures q.ext.value == if busDir == BufDirOut then q.intBus.value else p.ext.value
    ensures q.lines.sync == (if sync != 0 then 0 else p.lines.sync)
    ensures q.lines.cmRom == (if cmRom != 0 then 0 else p.lines.cmRom)
    ensures 0 < cmRam < 16 ==> q.lines.cmRam == 15 - cmRam
  {
    var ib := if pcOut > 0 then WriteStep(p.intBus, PcNybble(p.pcClocked, pcOut)) else p.intBus;
    Pins(if busDir == BufDirOut then Transfer(ib, p.ext) else p.ext,
         ib,
         Lines(if sync != 0 then 0 else p.lines.sync,
               if cmRom != 0 then 0 else p.lines.cmRom,
               if cmRam > 0 then InvLowNybble(cmRam) else p.lines.cmRam),
         if pcInc != 0 then (p.pcClocked + 1) % 4096 else p.pcRaw,
         p.pcClocked)
  }

  /** `update`: act on the flags the decoder holds. */
  function UpdateStep(c: CoreState): (r: CoreState)
    ensures r.dec == c.dec
    ensures r.pins.pcClocked == c.pins.pcClocked
    ensures r.pins.lines.sync == if Flag(c.dec, Sync) != 0 then 0 else c.pins.lines.sync
  {
    var s := c.dec;
    c.(pins := DriveStep(c.pins, Flag(s, PCInc), Flag(s, Sync), Flag(s, CmRom), Flag(s, CmRam),
                         Flag(s, PCOut), Flag(s, BusDir)))
  }

  /** The start of a phase: `resetFlags`, then `clkAndSync`. */
  function PhaseStartStep(c: CoreState): (r: CoreState)
    ensures r.dec.count.raw == NextCount(c.dec.count.clocked) && r.dec.inst == c.dec.inst
    ensures r.pins == ReleaseStep(c.pins, Flag(c.dec, BusDir) == BufDirIn)
  {
    var a := ResetCoreStep(c);
    a.(dec := ClkAndSyncStep(a.dec))
  }

  /** `calculateFlags`; the decoder sees the internal bus. */
  function DecodePhaseStep(c: CoreState): (r: CoreState)
    ensures r.pins == c.pins && r.dec.count == c.dec.count
    ensures Flag(r.dec, Sync) == if c.dec.count.raw == 7 then 1 else Flag(c.dec, Sync)
  {
    c.(dec := CalculateFlagsStep(c.dec, c.pins.intBus.value))
  }

  /** `process`: one falling edge. */
  function ProcessStep(c: CoreState): (r: CoreState)
    ensures r.dec.count.raw == NextCount(c.dec.count.clocked)
    ensures r.dec.count.clocked == c.dec.count.clocked && r.pins.pcClocked == c.pins.pcClocked
  {
    UpdateStep(DecodePhaseStep(PhaseStartStep(c)))
  }

  /** The state a phase starts from: the reset table with the counter
      advanced and PCInc raised as `clkAndSync` demands, and the buses and
      lines released. */
  lemma PhaseStart(c: CoreState)
    requires WellFormed(c.dec)
    ensures var d := PhaseStartStep(c).dec;
            && d.count.raw == NextCount(c.dec.count.clocked)
            && Flag(d, Sync) == 0 && Flag(d, CmRom) == 0 && Flag(d, CmRam) == 0
            && Flag(d, PCInc) == (if c.dec.count.clocked == 6 && c.dec.ctl.syncSent && !c.dec.ctl.inhibitPCInc then 1 else 0)
            && d.ctl.(x2IsRead := c.dec.ctl.x2IsRead, x3IsRead := c.dec.ctl.x3IsRead) == c.dec.ctl
            && d.inst == c.dec.inst
    ensures PhaseStartStep(c).pins == ReleaseStep(c.pins, Flag(c.dec, BusDir) == BufDirIn)
  {
  }

  /** The phase counter moves on by one phase per falling edge, within the
      cycle. */
  lemma ProcessAdvancesPhase(c: CoreState)
    requires WellFormed(c.dec)
    ensures ProcessStep(c).dec.count.raw == NextCount(c.dec.count.clocked)
    ensures 0 <= ProcessStep(c).dec.count.raw <= 7
  {
    var b := PhaseStartStep(c);
    PhaseStart(c);
  }

  /** SYNC goes low in exactly one phase of each cycle, the last (7), and
      is high otherwise. */
  lemma SyncLowExactlyAtPhase7(c: CoreState)
    requires WellFormed(c.dec)
    ensures ProcessStep(c).pins.lines.sync == (if NextCount(c.dec.count.clocked) == 7 then 0 else 1)
  {
    var b := PhaseStartStep(c);
    var d := DecodePhaseStep(b);
    PhaseStart(c);
    assert Flag(d.dec, Sync) == if NextCount(c.dec.count.clocked) == 7 then 1 else 0;
    assert d.pins.lines.sync == 1;
  }

  /** The PC advances exactly when the phase-6 edge follows a sync with the
      increment not held, by one modulo 2^12; otherwise its next value is
      left as it was. */
  lemma PcAdvancesOncePerCycle(c: CoreState)
    requires WellFormed(c.dec)
    ensures ProcessStep(c).pins.pcRaw ==
              if c.dec.count.clocked == 6 && c.dec.ctl.syncSent && !c.dec.ctl.inhibitPCInc
              then (c.pins.pcClocked + 1) % 4096 else c.pins.pcRaw
  {
    var b := PhaseStartStep(c);
    var d := DecodePhaseStep(b);
    PhaseStart(c);
    assert d.pins == b.pins;
  }

  /** Phase 2 selects the ROMs: CM-ROM goes low. */
  lemma RomSelectAtPhase2(c: CoreState)
    requires WellFormed(c.dec) && NextCount(c.dec.count.clocked) == 2
    ensures ProcessStep(c).pins.lines.cmRom == 0
  {
    var b := PhaseStartStep(c);
    PhaseStart(c);
    FetchSchedule(b.dec, b.pins.intBus.value);
  }

  /** When the previous phase turned the bus inward and the external bus
      holds the I/O family nybble, phases 3 and 4 select both ROM and RAM:
      CM-ROM low and RAM bank line 0 low (CM-RAM 0xE). */
  lemma IoSelectAtPhases3And4(c: CoreState)
    requires WellFormed(c.dec) && NextCount(c.dec.count.clocked) in {3, 4}
    requires Flag(c.dec, BusDir) == BufDirIn && c.pins.ext.value == 0xE
    ensures ProcessStep(c).pins.lines.cmRom == 0 && ProcessStep(c).pins.lines.cmRam == 0xE
  {
    var b := PhaseStartStep(c);
    PhaseStart(c);
    assert b.pins.intBus.value == 0xE;
    FetchSchedule(b.dec, b.pins.intBus.value);
  }

  /** In phases 0, 1 and 2 the PC goes out on the external bus one nybble
      per phase, low nybble first, unless the PC is held. */
  lemma PcOutInPhases0To2(c: CoreState)
    requires WellFormed(c.dec) && !c.dec.ctl.inhibitPC && NextCount(c.dec.count.clocked) in {0, 1, 2}
    ensures ProcessStep(c).pins.ext.value == NybbleOf(c.pins.pcClocked, NextCount(c.dec.count.clocked))
  {
    var b := PhaseStartStep(c);
    PhaseStart(c);
    FetchSchedule(b.dec, b.pins.intBus.value);
  }

  /** A CM-RAM flag of `k` in 1..15 drives the bank lines to `~k`: flag 1
      pulls line 0 low. */
  lemma RamLinesInvertFlag(c: CoreState)
    requires 0 < Flag(c.dec, CmRam) < 16
    ensures UpdateStep(c).pins.lines.cmRam == 15 - Flag(c.dec, CmRam)
    ensures Flag(c.dec, CmRam) == 1 ==> UpdateStep(c).pins.lines.cmRam == 0xE
  {
  }

  /** The units on a new 4-bit internal bus: the buffer between it and
      `extDataBus`, the address stack, the ALU, the instruction register and
      the index registers. */
  method NewUnits(extDataBus: Bus)
    returns (ib: Bus, bf: Buffer, st: AddressStack, alu: AluCore, ir: InstructionReg, ix: IndexRegisters)
    ensures fresh(ib) && fresh(st.pc.reg)
    ensures bf.busA == extDataBus && bf.busB == ib
    ensures st.Valid() && st.dataBus == ib
    ensures alu.dataBus == ib && ir.dataBus == ib && ix.dataBus == ib
  {
    ib := new Bus(4, "CPU Internal BUS");
    st := new AddressStack(ib);
    bf := new Buffer(extDataBus, ib, "Bus Buffer");
    alu := new AluCore(ib);
    ir := new InstructionReg(ib);
    ix := new IndexRegisters(ib);
  }

  class CpuCore {
    const extDataBus: Bus
    const sync: Clocked<int>
    const cmRom: Clocked<int>
    const cmRam: Clocked<int>
    const decoder: Decoder
    const intDataBus: Bus
    const buffer: Buffer
    const aluCore: AluCore
    const instReg: InstructionReg
    const addrStack: AddressStack
    const indexRegisters: IndexRegisters

    /** The control lines and the decoder's counter. */
    ghost function LineCells(): set<object>
    {
      {sync, cmRom, cmRam, decoder.clkCount}
    }

    /** The wiring: every unit on the internal bus, the buffer between the
        two buses, and no cell shared between the lines, the decoder's
        counter and the address stack. It speaks of constants only. */
    ghost predicate Shape()
    {
      && decoder.TableValid()
      && buffer.busA == extDataBus && buffer.busB == intDataBus && extDataBus != intDataBus
      && addrStack.Shape() && addrStack.dataBus == intDataBus
      && aluCore.dataBus == intDataBus && instReg.dataBus == intDataBus && indexRegisters.dataBus == intDataBus
      && sync != cmRom && sync != cmRam && cmRom != cmRam
      && decoder.clkCount != sync && decoder.clkCount != cmRom && decoder.clkCount != cmRam
      && addrStack.pc.reg !in LineCells()
    }

    ghost predicate Valid()
      reads decoder.clkCount, addrStack
    {
      Shape() && decoder.Valid() && addrStack.Valid()
    }

    ghost function PinState(): Pins
      reads extDataBus, intDataBus, sync, cmRom, cmRam, addrStack.pc.reg
    {
      Pins(extDataBus.State(), intDataBus.State(), Lines(sync.raw, cmRom.raw, cmRam.raw),
           addrStack.pc.reg.raw, addrStack.pc.reg.clocked)
    }

    ghost function State(): CoreState
      reads decoder, decoder.clkCount, decoder.flags.Values, extDataBus, intDataBus
      reads sync, cmRom, cmRam, addrStack.pc.reg
    {
      CoreState(decoder.State(), PinState())
    }

    /** A core on `extDataBus`: SYNC high, both selects 0, a fresh decoder
        and fresh units on a new 4-bit internal bus. (The decoder is built
        last here; construction order is not observable.) */
    constructor (extDataBus: Bus)
      ensures Valid() && this.extDataBus == extDataBus
      ensures sync.raw == 1 && cmRom.raw == 0 && cmRam.raw == 0
      ensures decoder.State() == Initial()
    {
      var ib, bf, st, alu, ir, ix := NewUnits(extDataBus);
      var sy := new Clocked(1);
      var rom := new Clocked(0);
      var ram := new Clocked(0);
      var dec := new Decoder();
      this.extDataBus, sync, cmRom, cmRam, intDataBus, addrStack := extDataBus, sy, rom, ram, ib, st;
      buffer, aluCore, instReg, indexRegisters, decoder := bf, alu, ir, ix, dec;
    }

    /** `getClkCount`: the committed phase. */
    function GetClkCount(): (n: int)
      reads decoder.clkCount
      ensures n == decoder.State().count.clocked
    {
      decoder.clkCount.clocked
    }

    /** `process`. */
    method Process()
      requires Valid()
      modifies decoder, decoder.clkCount, decoder.flags.Values, extDataBus, intDataBus
      modifies sync, cmRom, cmRam, addrStack.pc.reg
      ensures Valid() && State() == ProcessStep(old(State()))
    {
      StartPhase();
      DecodePhase();
      Update();
    }

    /** The first half of `process`: `resetFlags`, then `clkAndSync`. */
    method StartPhase()
      requires Valid()
      modifies decoder, decoder.clkCount, decoder.flags.Values, intDataBus, sync, cmRom, cmRam
      ensures Valid() && State() == PhaseStartStep(old(State()))
    {
      ResetFlags();
      Clock();
    }

    /** `clkAndSync`, seen from the core: only the decoder moves. */
    method Clock()
      requires Valid()
      modifies decoder.clkCount, decoder.flags.Values
      ensures Valid() && State() == old(State()).(dec := ClkAndSyncStep(old(State()).dec))
    {
      decoder.ClkAndSync();
    }

    /** `calculateFlags`, on the internal bus as the reset left it. */
    method DecodePhase()
      requires Valid()
      modifies decoder, decoder.flags.Values
      ensures Valid() && State() == DecodePhaseStep(old(State()))
    {
      ghost var s, p := decoder.State(), PinState();
      CalculateFlags(decoder, intDataBus.value);
      assert PinState() == p;
    }

    /** `resetFlags`. */
    method ResetFlags()
      requires Valid()
      modifies decoder, decoder.flags.Values, intDataBus, sync, cmRom, cmRam
      ensures Valid() && State() == ResetCoreStep(old(State()))
    {
      Release(decoder.ReadFlag(BusDir) == BufDirIn);
      decoder.ResetFlags();
    }

    /** The bus and line half of `resetFlags`. */
    method Release(copyIn: bool)
      requires Shape()
      modifies intDataBus, sync, cmRom, cmRam
      ensures PinState() == ReleaseStep(old(PinState()), copyIn)
    {
      intDataBus.Reset();
      if copyIn {
        buffer.AToB();
      }
      sync.raw := 1;
      cmRom.raw := 1;
      cmRam.raw := 0xF;
    }

    /** `update`. */
    method Update()
      requires Valid()
      modifies extDataBus, intDataBus, sync, cmRom, cmRam, addrStack.pc.reg
      ensures Valid() && State() == UpdateStep(old(State()))
    {
      Drive(decoder.ReadFlag(PCInc), decoder.ReadFlag(Sync), decoder.ReadFlag(CmRom),
            decoder.ReadFlag(CmRam), decoder.ReadFlag(PCOut), decoder.ReadFlag(BusDir));
    }

    /** The body of `update`, given the flag values: the PC, then the
        lines, then the buses. */
    method Drive(pcInc: int, syncFlag: int, romFlag: int, ramFlag: int, pcOut: int, busDir: int)
      requires Shape() && addrStack.Valid()
      modifies extDataBus, intDataBus, sync, cmRom, cmRam, addrStack.pc.reg
      ensures PinState() == DriveStep(old(PinState()), pcInc, syncFlag, romFlag, ramFlag, pcOut, busDir)
    {
      AdvancePc(pcInc);
      DriveLines(syncFlag, romFlag, ramFlag);
      DriveBuses(pcOut, busDir);
    }

    method AdvancePc(pcInc: int)
      requires addrStack.Valid()
      modifies addrStack.pc.reg
      ensures addrStack.pc.reg.raw == if pcInc != 0 then (old(addrStack.pc.reg.clocked) + 1) % 4096 else old(addrStack.pc.reg.raw)
      ensures addrStack.pc.reg.clocked == old(addrStack.pc.reg.clocked)
    {
      if pcInc != 0 {
        addrStack.IncrementProgramCounter();
      }
    }

    method DriveLines(syncFlag: int, romFlag: int, ramFlag: int)
      requires sync != cmRom && sync != cmRam && cmRom != cmRam
      modifies sync, cmRom, cmRam
      ensures sync.raw == if syncFlag != 0 then 0 else old(sync.raw)
      ensures cmRom.raw == if romFlag != 0 then 0 else old(cmRom.raw)
      ensures cmRam.raw == if ramFlag > 0 then InvLowNybble(ramFlag) else old(cmRam.raw)
    {
      if syncFlag != 0 {
        sync.raw := 0;
      }
      if romFlag != 0 {
        cmRom.raw := 0;
      }
      if ramFlag > 0 {
        cmRam.raw := InvLowNybble(ramFlag);
      }
    }

    method DriveBuses(pcOut: int, busDir: int)
      requires Shape()
      modifies extDataBus, intDataBus
      ensures var ib := if pcOut > 0 then WriteStep(old(intDataBus.State()), PcNybble(addrStack.pc.reg.clocked, pcOut))
                        else old(intDataBus.State());
              && intDataBus.State() == ib
              && extDataBus.State() == if busDir == BufDirOut then Transfer(ib, old(extDataBus.State())) else old(extDataBus.State())
    {
      if pcOut > 0 {
        addrStack.ReadProgramCounter(pcOut - 1);
      }
      if busDir == BufDirOut {
        buffer.BToA();
      }
    }
  }
}
