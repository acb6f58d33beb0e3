/** The bus protocol shared by the 4001 ROM and the 4002 RAM
    (src/main/kotlin/common/RomRamDecoder.kt). Each chip runs its own
    eight-phase counter, restarted by a low SYNC line, and follows the CPU's
    machine cycle on the external data bus:

    - phases 0 and 1 latch the two low address nybbles (ROM only);
    - phase 2 decides whether the chip is selected, from its id, the omni
      mode and its CM line, and a selected ROM starts driving its byte;
    - phases 3 and 4 snoop the opcode, spotting SRC/FIM and the I/O family;
    - phase 5 starts the read-type I/O instructions, phase 6 decodes the SRC
      payload and performs the write-type ones, phase 7 latches the RAM
      character.

    A RAM keeps `registers` banks of characters and of status characters; a
    character lives at `character + register * characters`.

    Every operation is specified by a step function on a `ChipState`
    snapshot. One correction is built in: `resetFlags` as written never
    clears `ioRead`, so a ROM that has executed RDR replaces every later
    program byte with its input port (`AsWrittenRomOutputsStalePort`); the
    model clears it with the other read requests (`ResetFlagsStep`). */
module RomRam {
  import opened Words
  import opened Clocking
  import opened Buses
  import opened Buffers
  import opened Registers
  import opened Defines

  /** The two values of a clocked cell. */
  datatype Cell = Cell(raw: nat, clocked: nat)

  /** The I/O bus a chip drives its output port onto, when it has one. */
  datatype IoPort = Absent | Present(bus: BusState)

  /** The chip's flags: the per-phase requests and the last SRC selection. */
  datatype Flags = Flags(
    syncSeen: bool, bufDir: int, addrLoad: int, romDataOut: int,
    ioRead: bool, memRead: bool, statusRead: int, chipSelected: bool,
    srcDetected: bool, srcDeviceID: int, srcRegisterSel: int, srcCharacterSel: int,
    ioOpDetected: bool)

  /** The program image (ROM) or the characters (RAM), the RAM status
      characters and the RAM geometry. */
  datatype Memory = Memory(data: seq<Byte>, statusMem: seq<Byte>,
                           registers: int, characters: int, statusCharacters: int)

  /** Everything one chip owns, plus the external and I/O buses it drives. */
  datatype ChipState = ChipState(
    romMode: bool, omniMode: bool, id: int, flags: Flags, mem: Memory,
    count: Cell, addr: Cell, inst: Cell,
    intBus: BusState, extBus: BusState, io: IoPort)

  /** The flags of a new chip. */
  const InitialFlags: Flags :=
    Flags(false, BufDirNone, 0, 0, false, false, -1, false, false, 0, 0, 0, false)

  /** What holds of every chip: its counter stays within one cycle and the
      SRC device id is a nybble. */
  ghost predicate Inv(s: ChipState)
  {
    s.count.raw <= 7 && s.count.clocked <= 7 && 0 <= s.flags.srcDeviceID < 16
  }

  /** The counter, the SYNC latch and the invariant pass through a step. */
  ghost predicate KeepsPhase(s: ChipState, t: ChipState)
  {
    t.count == s.count && t.flags.syncSeen == s.flags.syncSeen && (Inv(s) ==> Inv(t))
  }

  /** The RAM character the last SRC addressed. */
  function CharIndex(f: Flags, m: Memory): int
  {
    f.srcCharacterSel + f.srcRegisterSel * m.characters
  }

  /** Status character `n` of the register the last SRC addressed. */
  function StatusIndex(f: Flags, m: Memory, n: int): int
  {
    n + f.srcRegisterSel * m.statusCharacters
  }

  /** `xs[i] = v.toUByte()` behind the range check the chip makes. */
  function Store(xs: seq<Byte>, i: int, v: nat): (r: seq<Byte>)
    ensures |r| == |xs|
    ensures 0 <= i < |xs| ==> r[i] == v % 256
    ensures forall j :: 0 <= j < |xs| && j != i ==> r[j] == xs[j]
  {
    if 0 <= i < |xs| then xs[i := v % 256] else xs
  }

  /** `n` zero bytes. */
  function Zeros(n: nat): (r: seq<Byte>)
    ensures |r| == n
    ensures forall j :: 0 <= j < n ==> r[j] == 0
  {
    if n == 0 then [] else Zeros(n - 1) + [0]
  }

  /** The omni-mode port write: `(curr and (0xf shl 4k).inv()) or
      ((v and 0xf) shl 4k)` on a 64-bit word. Nybble `k` takes the new value
      and every other nybble keeps its own. */
  function MergeNybble(curr: nat, k: int, v: nat): (r: nat)
    ensures NybbleOf(r, NybbleIndex(k)) == v % 16
    ensures forall j: nat :: j != NybbleIndex(k) && j < 16 ==> NybbleOf(r, j) == NybbleOf(curr, j)
  {
    WithNybble(curr, k, v, 64)
  }

  /** The committed instruction byte: `instReg.readDirect()`, the low 8
      bits of the cell, which `toUInt()` leaves as they are. */
  function InstByte(s: ChipState): nat
  {
    s.inst.clocked % 256
  }

  /** The committed program address: `addrReg.readDirect()`, the low 12
      bits of the cell. */
  function RomAddress(s: ChipState): nat
  {
    s.addr.clocked % 4096
  }

  // ----- reset, program loading, memory creation -----

  /** `reset`: the requests and the SRC detection are cleared and the image
      is zeroed in place; the SRC register and character selections, the
      status characters and the counter stay. */
  function ResetStep(s: ChipState): (t: ChipState)
    ensures t.flags == InitialFlags.(srcRegisterSel := s.flags.srcRegisterSel,
                                     srcCharacterSel := s.flags.srcCharacterSel)
    ensures |t.mem.data| == |s.mem.data| && forall j :: 0 <= j < |t.mem.data| ==> t.mem.data[j] == 0
    ensures t == s.(flags := t.flags, mem := s.mem.(data := t.mem.data))
  {
    s.(flags := s.flags.(syncSeen := false, bufDir := BufDirNone, addrLoad := 0, romDataOut := 0,
                     ioRead := false, memRead := false, statusRead := -1, chipSelected := false,
                     srcDetected := false, srcDeviceID := 0, ioOpDetected := false),
       mem := s.mem.(data := Zeros(|s.mem.data|)))
  }

  /** `loadProgram` on a ROM: the image becomes `d`. */
  function LoadProgramStep(s: ChipState, d: seq<Byte>): (t: ChipState)
    ensures t.mem.data == d && t.mem.statusMem == s.mem.statusMem
    ensures t == s.(mem := t.mem) && t.mem == s.mem.(data := d)
  {
    s.(mem := s.mem.(data := d))
  }

  /** `createRamMemory` on a RAM: zeroed banks of the given geometry. */
  function CreateRamStep(s: ChipState, characters: nat, statusCharacters: nat, registers: nat): (t: ChipState)
    ensures |t.mem.data| == characters * registers && |t.mem.statusMem| == statusCharacters * registers
    ensures forall j :: 0 <= j < |t.mem.data| ==> t.mem.data[j] == 0
    ensures forall j :: 0 <= j < |t.mem.statusMem| ==> t.mem.statusMem[j] == 0
    ensures t.mem.registers == registers && t.mem.characters == characters
    ensures t.mem.statusCharacters == statusCharacters
    ensures t == s.(mem := t.mem)
  {
    s.(mem := Memory(Zeros(characters * registers), Zeros(statusCharacters * registers),
                     registers, characters, statusCharacters))
  }

  // ----- one clock phase -----

  /** `resetFlags` as written: the address, ROM-data, memory and status
      requests are dropped, `ioRead` is kept, and a bus turned inward copies
      the external bus onto the internal one. */
  function ResetFlagsAsWritten(s: ChipState): (t: ChipState)
    ensures KeepsPhase(s, t)
  {
    s.(flags := s.flags.(addrLoad := 0, romDataOut := 0, memRead := false, statusRead := -1),
       intBus := if s.flags.bufDir == BufDirIn then Transfer(s.extBus, s.intBus) else s.intBus)
  }

  /** `resetFlags` with the port-read request dropped along with the others. */
  function ResetFlagsStep(s: ChipState): (t: ChipState)
    ensures KeepsPhase(s, t)
  {
    var t := ResetFlagsAsWritten(s);
    t.(flags := t.flags.(ioRead := false))
  }

  /** `clkAndSync`, given the committed SYNC level. */
  function ClkAndSyncStep(s: ChipState, syncValue: int): (t: ChipState)
    ensures t.count.clocked == s.count.clocked
    ensures t.flags == s.flags.(syncSeen := t.flags.syncSeen) && t.flags.syncSeen == (s.flags.syncSeen || syncValue == 0 || s.count.clocked == 7)
    ensures (syncValue == 0 || s.count.clocked == 7) ==> t.count.raw == 0
    ensures syncValue != 0 && s.flags.syncSeen && s.count.clocked <= 7 ==> t.count.raw == (s.count.clocked + 1) % 8
    ensures syncValue != 0 && !s.flags.syncSeen && s.count.clocked != 7 ==> t == s
    ensures t == s.(count := t.count, flags := t.flags)
    ensures Inv(s) ==> Inv(t)
  {
    if syncValue == 0 || s.count.clocked == 7 then
      s.(count := s.count.(raw := 0), flags := s.flags.(syncSeen := true))
    else if s.flags.syncSeen then
      s.(count := s.count.(raw := s.count.clocked + 1))
    else s
  }

  /** Phase 2: chip select, and a selected ROM drives the high nybble. */
  function SelectStep(s: ChipState, cmValue: int): (t: ChipState)
    ensures KeepsPhase(s, t)
  {
    var sel := (ToInt32(s.extBus.value) == s.id || s.omniMode) && cmValue == 0;
    if sel && s.romMode then s.(flags := s.flags.(chipSelected := sel, romDataOut := 1, bufDir := BufDirOut))
    else s.(flags := s.flags.(chipSelected := sel, bufDir := BufDirIn))
  }

  /** Phase 3: a selected ROM drives the low nybble; the opcode's high
      nybble is latched, an I/O opcode counts only right after an SRC, and
      then SRC/FIM detection is updated. */
  function SnoopHighStep(s: ChipState): (t: ChipState)
    ensures KeepsPhase(s, t)
  {
    var v := s.extBus.value;
    var l := if s.flags.chipSelected && s.romMode then s.flags.(romDataOut := 2, bufDir := BufDirOut) else s.flags;
    var io := ToUInt32(v) == HighNybble(IO) && s.flags.srcDetected;
    s.(flags := l.(ioOpDetected := io, srcDetected := ToUInt32(v) == HighNybble(SRC)),
       inst := s.inst.(raw := WithNybble(s.inst.raw, 1, v, 8)))
  }

  /** Phase 4: the low opcode nybble is latched, and an even one (FIM)
      cancels the SRC detection. */
  function SnoopLowStep(s: ChipState): (t: ChipState)
    ensures KeepsPhase(s, t)
  {
    var v := s.extBus.value;
    s.(flags := s.flags.(bufDir := BufDirIn, srcDetected := s.flags.srcDetected && v % 2 == 1),
       inst := s.inst.(raw := WithNybble(s.inst.raw, 0, v, 8)))
  }

  /** Phase 5: read-type I/O instructions turn the bus outward and request
      the port (ROM), a character (RAM) or a status character (RAM). */
  function StartReadStep(s: ChipState): (t: ChipState)
    ensures KeepsPhase(s, t)
  {
    var l := s.flags.(bufDir := BufDirIn);
    var cmd := InstByte(s);
    if !s.flags.ioOpDetected then s.(flags := l)
    else if cmd == RDR then
      (if s.romMode then s.(flags := l.(bufDir := BufDirOut, ioRead := true)) else s.(flags := l))
    else if cmd == RDM || cmd == SBM || cmd == ADM then
      (if !s.romMode then s.(flags := l.(bufDir := BufDirOut, memRead := true)) else s.(flags := l))
    else if cmd == RD0 || cmd == RD1 || cmd == RD2 || cmd == RD3 then
      (if !s.romMode then s.(flags := l.(bufDir := BufDirOut, statusRead := cmd - RD0)) else s.(flags := l))
    else s.(flags := l)
  }

  /** Phase 6, first half: the SRC payload on the internal bus names the
      chip (its whole nybble on a ROM, bits 3..2 on a RAM, with bits 1..0 the
      register); a chip not named forgets the SRC unless in omni mode. */
  function SrcDecodeStep(s: ChipState): (t: ChipState)
    ensures KeepsPhase(s, t)
  {
    var v := s.intBus.value;
    if !s.flags.srcDetected then s
    else if s.romMode then
      var dev := v % 16;
      s.(flags := s.flags.(bufDir := BufDirIn, srcDeviceID := dev,
                       srcDetected := s.omniMode || dev == s.id))
    else
      var dev := (v % 16) / 4;
      s.(flags := s.flags.(bufDir := BufDirIn, srcDeviceID := dev, srcRegisterSel := v % 4,
                       srcDetected := s.omniMode || dev == s.id))
  }

  /** The port write of WMP/WRR: the I/O bus's counter is reset, then the
      bus gets the merged nybble in omni mode or the whole internal-bus
      value otherwise. Without an I/O bus nothing is written (the source
      dereferences the missing bus there, see `WritesMissingPort`). */
  function PortWrite(s: ChipState): (r: IoPort)
    ensures r.Absent? == s.io.Absent?
    ensures r.Present? ==> r.bus.writes == 1
    ensures r.Present? && !s.omniMode ==> r.bus.value == s.intBus.value
    ensures r.Present? && s.omniMode ==>
              NybbleOf(r.bus.value, NybbleIndex(s.flags.srcDeviceID)) == s.intBus.value % 16
              && forall j: nat :: j != NybbleIndex(s.flags.srcDeviceID) && j < 16 ==>
                   NybbleOf(r.bus.value, j) == NybbleOf(s.io.bus.value, j)
  {
    match s.io
    case Absent => Absent
    case Present(b) =>
      var r := BusState(b.value, 0);
      Present(WriteStep(r, if s.omniMode then MergeNybble(b.value, s.flags.srcDeviceID, s.intBus.value)
                           else s.intBus.value))
  }

  /** WMP on a RAM or WRR on a ROM, after an SRC, with no I/O bus to write. */
  predicate WritesMissingPort(s: ChipState): (b: bool)
    ensures b ==> s.io.Absent? && s.flags.ioOpDetected
    ensures b ==> (InstByte(s) == WMP && !s.romMode) || (InstByte(s) == WRR && s.romMode)
    ensures s.io.Present? ==> !b
  {
    var cmd := InstByte(s);
    s.flags.ioOpDetected && s.io.Absent? && ((cmd == WMP && !s.romMode) || (cmd == WRR && s.romMode))
  }

  /** Phase 6, second half: the write-type I/O instructions. WRM stores the
      internal-bus byte in the addressed character, WR0..WR3 in status
      character 0..3, each only within range; WMP (RAM) and WRR (ROM) write
      the port. */
  function IoWriteStep(s: ChipState): (t: ChipState)
    ensures KeepsPhase(s, t)
    ensures t.flags == s.flags.(bufDir := t.flags.bufDir)
  {
    var cmd := InstByte(s);
    var v := s.intBus.value;
    var l := s.flags.(bufDir := BufDirIn);
    if !s.flags.ioOpDetected then s
    else if cmd == WRM then
      if s.romMode then s
      else
        var i := CharIndex(s.flags, s.mem);
        if 0 <= i < |s.mem.data|
        then s.(flags := l, mem := s.mem.(data := Store(s.mem.data, i, v)),
                addr := s.addr.(raw := LowBits(i, 12)))
        else s.(flags := l)
    else if cmd == WR0 || cmd == WR1 || cmd == WR2 || cmd == WR3 then
      if s.romMode then s
      else s.(flags := l, mem := s.mem.(statusMem := Store(s.mem.statusMem, StatusIndex(s.flags, s.mem, cmd - WR0), v)))
    else if (cmd == WMP && !s.romMode) || (cmd == WRR && s.romMode) then
      s.(flags := l, io := PortWrite(s))
    else s
  }

  /** Phase 7: a RAM latches the character select; the bus turns inward. */
  function CharSelectStep(s: ChipState): (t: ChipState)
    ensures KeepsPhase(s, t)
  {
    var l := if !s.romMode then s.flags.(srcCharacterSel := s.intBus.value % 16) else s.flags;
    s.(flags := l.(bufDir := BufDirIn))
  }

  /** `calculateFlags`, given the committed CM level: nothing before the
      first SYNC, then the work of the committed phase. */
  function CalculateFlagsStep(s: ChipState, cmValue: int): (t: ChipState)
    ensures KeepsPhase(s, t)
  {
    if !s.flags.syncSeen then s
    else
      var c := s.count.clocked;
      if c == 0 then s.(flags := s.flags.(addrLoad := 1, bufDir := BufDirIn))
      else if c == 1 then s.(flags := s.flags.(addrLoad := 2, bufDir := BufDirIn))
      else if c == 2 then SelectStep(s, cmValue)
      else if c == 3 then SnoopHighStep(s)
      else if c == 4 then SnoopLowStep(s)
      else if c == 5 then StartReadStep(s)
      else if c == 6 then IoWriteStep(SrcDecodeStep(s))
      else if c == 7 then CharSelectStep(s)
      else s
  }

  /** `calculateFlags` stops at the missing I/O bus. */
  predicate CalculateFlagsFaults(s: ChipState): (b: bool)
    ensures b ==> s.flags.syncSeen && s.count.clocked == 6 && s.io.Absent?
    ensures s.io.Present? ==> !b
  {
    s.flags.syncSeen && s.count.clocked == 6 && WritesMissingPort(SrcDecodeStep(s))
  }

  /** The ROM-data request: nybble `romDataOut` (1 high, 2 low) of the
      program byte at address `a`, when `a` lies inside the image. */
  function RomDriven(f: Flags, m: Memory, a: nat, b: BusState): (r: BusState)
    ensures f.romDataOut == 1 && a < |m.data| ==> r == WriteStep(b, HighNybble(m.data[a]))
    ensures f.romDataOut == 2 && a < |m.data| ==> r == WriteStep(b, LowNybble(m.data[a]))
    ensures !(f.romDataOut in {1, 2} && a < |m.data|) ==> r == b
  {
    if f.romDataOut == 1 && a < |m.data| then WriteStep(b, m.data[a] / 16 % 16)
    else if f.romDataOut == 2 && a < |m.data| then WriteStep(b, m.data[a] % 16)
    else b
  }

  /** The port, character and status requests, in that order. */
  function ReadsDriven(f: Flags, m: Memory, io: IoPort, b: BusState): (r: BusState)
    ensures b.writes <= r.writes <= b.writes + 3
    ensures r.writes == b.writes ==> r == b
    ensures !f.ioRead && !f.memRead && f.statusRead < 0 ==> r == b
    ensures f.ioRead && io.Present? && !f.memRead && f.statusRead < 0 ==> r == WriteStep(b, io.bus.value)
    ensures f.statusRead >= 0 && 0 <= StatusIndex(f, m, f.statusRead) < |m.statusMem| ==>
              r.value == m.statusMem[StatusIndex(f, m, f.statusRead)]
  {
    var b1 := if f.ioRead && io.Present? then WriteStep(b, io.bus.value) else b;
    var i := CharIndex(f, m);
    var b2 := if f.memRead && 0 <= i < |m.data| then WriteStep(b1, m.data[i]) else b1;
    var k := StatusIndex(f, m, f.statusRead);
    if f.statusRead >= 0 && 0 <= k < |m.statusMem| then WriteStep(b2, m.statusMem[k]) else b2
  }

  /** `update`: a ROM latches address nybble `addrLoad - 1` from the internal
      bus, then the requests drive the internal bus. */
  function UpdateStep(s: ChipState): (t: ChipState)
    ensures KeepsPhase(s, t)
  {
    s.(addr := AddressLoaded(s),
       intBus := ReadsDriven(s.flags, s.mem, s.io, RomDriven(s.flags, s.mem, RomAddress(s), s.intBus)))
  }

  /** The address cell after `update`'s nybble load. */
  function AddressLoaded(s: ChipState): (r: Cell)
    ensures r.clocked == s.addr.clocked
    ensures s.romMode && s.flags.addrLoad == 1 ==> NybbleOf(r.raw, 0) == s.intBus.value % 16 && r.raw < 4096
    ensures s.romMode && s.flags.addrLoad == 2 ==>
              NybbleOf(r.raw, 1) == s.intBus.value % 16 && NybbleOf(r.raw, 0) == NybbleOf(s.addr.raw, 0) && r.raw < 4096
    ensures !(s.romMode && s.flags.addrLoad in {1, 2}) ==> r == s.addr
  {
    if s.romMode && s.flags.addrLoad == 1 then s.addr.(raw := WithNybble(s.addr.raw, 0, s.intBus.value, 12))
    else if s.romMode && s.flags.addrLoad == 2 then s.addr.(raw := WithNybble(s.addr.raw, 1, s.intBus.value, 12))
    else s.addr
  }

  /** `clockOut`: an outward bus copies the internal bus onto the external one. */
  function ClockOutStep(s: ChipState): (t: ChipState)
    ensures t == s.(extBus := t.extBus)
    ensures s.flags.bufDir == BufDirOut ==> t.extBus.value == s.intBus.value && t.extBus.writes == s.extBus.writes + 1
    ensures s.flags.bufDir != BufDirOut ==> t == s
  {
    if s.flags.bufDir == BufDirOut then s.(extBus := Transfer(s.intBus, s.extBus)) else s
  }

  /** The chip's own cells on a clock edge: a rising edge commits them.  */
  function TickStep(s: ChipState, edge: int): (t: ChipState)
    ensures t.count.raw == s.count.raw && t.addr.raw == s.addr.raw && t.inst.raw == s.inst.raw
    ensures edge == 1 ==> t.count.clocked == s.count.raw && t.addr.clocked == s.addr.raw && t.inst.clocked == s.inst.raw
    ensures edge != 1 ==> t == s
    ensures t == s.(count := t.count, addr := t.addr, inst := t.inst)
  {
    if edge == 1 then
      s.(count := Cell(s.count.raw, s.count.raw), addr := Cell(s.addr.raw, s.addr.raw),
         inst := Cell(s.inst.raw, s.inst.raw))
    else s
  }

  /** The falling edge of a chip (`process` of Rom4001.kt and Ram4002.kt):
      `resetFlags`, `clkAndSync`, `calculateFlags`, `update`. */
  function ProcessStep(s: ChipState, syncValue: int, cmValue: int): (t: ChipState)
    ensures t.count.clocked == s.count.clocked
    ensures Inv(s) ==> Inv(t)
    ensures syncValue == 0 ==> t.count.raw == 0 && t.flags.syncSeen
    ensures t.flags.ioRead ==> t.flags.syncSeen && s.count.clocked == 5
  {
    var a := ClkAndSyncStep(ResetFlagsStep(s), syncValue);
    var b := CalculateFlagsStep(a, cmValue);
    if CalculateFlagsFaults(a) then b else UpdateStep(b)
  }

  /** `process` stops in `calculateFlags`, before `update`. */
  predicate ProcessFaults(s: ChipState, syncValue: int)
  {
    CalculateFlagsFaults(ClkAndSyncStep(ResetFlagsStep(s), syncValue))
  }

  /** The falling edge with `resetFlags` as written. */
  function ProcessAsWritten(s: ChipState, syncValue: int, cmValue: int): (t: ChipState)
    ensures t.count.clocked == s.count.clocked
    ensures Inv(s) ==> Inv(t)
    ensures syncValue == 0 ==> t.count.raw == 0 && t.flags.syncSeen
    ensures s.flags.ioRead ==> t.flags.ioRead
  {
    var a := ClkAndSyncStep(ResetFlagsAsWritten(s), syncValue);
    var b := CalculateFlagsStep(a, cmValue);
    if CalculateFlagsFaults(a) then b else UpdateStep(b)
  }

  // ----- properties -----

  /** Once the chip has seen SYNC, one falling and one rising edge advance
      the committed phase by one, wrapping after 7, and a low SYNC restarts
      it at 0. */
  lemma ProcessAdvancesPhase(s: ChipState, syncValue: int, cmValue: int)
    requires Inv(s) && s.flags.syncSeen
    ensures TickStep(ProcessStep(s, syncValue, cmValue), 1).count.clocked ==
            if syncValue == 0 then 0 else (s.count.clocked + 1) % 8
    ensures ProcessStep(s, syncValue, cmValue).flags.syncSeen
  {
  }

  /** Before the first low SYNC the chip is idle: its counter stands, and its
      memory, its port and the external bus are untouched. */
  lemma IdleBeforeSync(s: ChipState, syncValue: int, cmValue: int)
    requires !s.flags.syncSeen && syncValue != 0 && s.count.clocked != 7
    ensures var t := ProcessStep(s, syncValue, cmValue);
            !t.flags.syncSeen && t.count == s.count && t.mem == s.mem && t.io == s.io &&
            t.extBus == s.extBus
  {
  }

  /** Phase 2: the chip is selected exactly when the external bus carries its
      id (or it answers every id) and its CM line is low; a selected ROM
      then drives the high nybble outward, any other chip listens. */
  lemma ChipSelectAtPhase2(s: ChipState, cmValue: int)
    requires s.flags.syncSeen && s.count.clocked == 2 && s.flags.romDataOut == 0
    ensures var t := CalculateFlagsStep(s, cmValue);
            && (t.flags.chipSelected <==> (ToInt32(s.extBus.value) == s.id || s.omniMode) && cmValue == 0)
            && (t.flags.bufDir == BufDirOut <==> t.flags.chipSelected && s.romMode)
            && (t.flags.bufDir == BufDirOut || t.flags.bufDir == BufDirIn)
            && t.flags.romDataOut == (if t.flags.bufDir == BufDirOut then 1 else 0)
  {
  }

  /** `resetFlags` leaves no output request standing, so `update` drives
      nothing but what the current phase asks for. */
  lemma ResetFlagsClearsRequests(s: ChipState)
    ensures var t := ResetFlagsStep(s);
            t.flags.addrLoad == 0 && t.flags.romDataOut == 0 && !t.flags.ioRead && !t.flags.memRead &&
            t.flags.statusRead == -1 && UpdateStep(t).intBus == t.intBus && UpdateStep(t).addr == t.addr
  {
  }

  /** As written, `resetFlags` keeps an `ioRead` request alive. */
  lemma AsWrittenResetFlagsKeepsIoRead(s: ChipState)
    ensures ResetFlagsAsWritten(s).flags.ioRead == s.flags.ioRead
    ensures ResetFlagsStep(s) == ResetFlagsAsWritten(s).(flags := ResetFlagsAsWritten(s).flags.(ioRead := false))
  {
  }

  /** A ROM with a port showing 5 whose first program byte is 0xDE, at
      phase 2 of the cycle after it executed RDR. */
  function StaleReadExample(): ChipState
  {
    ChipState(true, false, 0, InitialFlags.(syncSeen := true, bufDir := BufDirIn, ioRead := true),
              Memory([0xDE], [], 0, 0, 0), Cell(2, 2), Cell(0, 0), Cell(RDR, RDR),
              BusState(0, 0), BusState(0, 0), Present(BusState(5, 0)))
  }

  /** With `resetFlags` as written, a ROM that still holds the `ioRead`
      request of an earlier RDR puts its port value on the bus in phase 2,
      over the high nybble of its program byte. */
  lemma AsWrittenPortOverridesRom(s: ChipState, syncValue: int, cmValue: int)
    requires s.flags.syncSeen && s.romMode && s.count.clocked == 2 && s.flags.ioRead && s.io.Present?
    requires (ToInt32(s.extBus.value) == s.id || s.omniMode) && cmValue == 0
    ensures ProcessAsWritten(s, syncValue, cmValue).intBus.value == s.io.bus.value
  {
    var a := ClkAndSyncStep(ResetFlagsAsWritten(s), syncValue);
    var c := SelectStep(a, cmValue);
    assert CalculateFlagsStep(a, cmValue) == c;
    assert c.flags == a.flags.(chipSelected := true, romDataOut := 1, bufDir := BufDirOut);
    assert c.flags.ioRead && !c.flags.memRead && c.flags.statusRead == -1;
    assert ProcessAsWritten(s, syncValue, cmValue) == UpdateStep(c);
  }

  /** The input that shows it: as written, the ROM of `StaleReadExample`
      puts 5 (its port) on the bus in phase 2 instead of its program byte's
      high nybble. */
  lemma AsWrittenRomOutputsStalePort()
    ensures ProcessAsWritten(StaleReadExample(), 1, 0).intBus.value == 5
  {
    AsWrittenPortOverridesRom(StaleReadExample(), 1, 0);
  }

  /** The same ROM with the request cleared by the corrected reset puts 0xD,
      the high nybble of 0xDE, on the bus. */
  lemma CorrectedRomOutputsProgramByte()
    ensures ProcessStep(StaleReadExample(), 1, 0).intBus.value == 0xD
  {
    var s := StaleReadExample();
    assert RomAddress(s) == 0 && s.mem.data[0] == 0xDE;
    RomDrivesHighNybble(s, 1, 0);
  }

  /** The ROM read, phase 2: a ROM that sees its id (or answers every id)
      and a low CM line puts the high nybble of the byte at its committed
      address on the internal bus and drives it outward, so that the
      external bus carries it after `clockOut`. */
  lemma RomDrivesHighNybble(s: ChipState, syncValue: int, cmValue: int)
    requires s.flags.syncSeen && s.romMode && s.count.clocked == 2
    requires (ToInt32(s.extBus.value) == s.id || s.omniMode) && cmValue == 0
    requires RomAddress(s) < |s.mem.data|
    ensures var t := ProcessStep(s, syncValue, cmValue);
            && t.flags.bufDir == BufDirOut && t.flags.chipSelected
            && t.intBus.value == s.mem.data[RomAddress(s)] / 16
            && ClockOutStep(t).extBus.value == t.intBus.value
  {
    var a := ClkAndSyncStep(ResetFlagsStep(s), syncValue);
    var c := SelectStep(a, cmValue);
    assert CalculateFlagsStep(a, cmValue) == c;
    assert c.flags == a.flags.(chipSelected := true, romDataOut := 1, bufDir := BufDirOut);
    assert ProcessStep(s, syncValue, cmValue) == UpdateStep(c);
  }

  /** The ROM read, phase 3: a ROM selected in phase 2 puts the low nybble
      of the byte on the internal bus and drives it outward. */
  lemma RomDrivesLowNybble(s: ChipState, syncValue: int, cmValue: int)
    requires s.flags.syncSeen && s.romMode && s.count.clocked == 3 && s.flags.chipSelected
    requires RomAddress(s) < |s.mem.data|
    ensures var t := ProcessStep(s, syncValue, cmValue);
            && t.flags.bufDir == BufDirOut
            && t.intBus.value == s.mem.data[RomAddress(s)] % 16
            && ClockOutStep(t).extBus.value == t.intBus.value
  {
    var a := ClkAndSyncStep(ResetFlagsStep(s), syncValue);
    var c := SnoopHighStep(a);
    assert CalculateFlagsStep(a, cmValue) == c;
    assert c.flags.romDataOut == 2 && c.flags.bufDir == BufDirOut;
    assert c.addr == s.addr && c.mem == s.mem && !c.flags.ioRead && !c.flags.memRead && c.flags.statusRead < 0;
    assert ProcessStep(s, syncValue, cmValue) == UpdateStep(c);
  }

  /** Phases 0 and 1: a ROM latches the bus nybble into address nybble 0 and
      1; the other address nybbles stay. The bus was turned inward in the
      phase before, so that nybble is the one on the external bus. */
  lemma RomLatchesAddress(s: ChipState, syncValue: int, cmValue: int)
    requires s.flags.syncSeen && s.romMode && s.count.clocked <= 1 && s.flags.bufDir == BufDirIn
    ensures var t := ProcessStep(s, syncValue, cmValue);
            && NybbleOf(t.addr.raw, s.count.clocked) == s.extBus.value % 16
            && (forall j: nat :: j < 3 && j != s.count.clocked ==> NybbleOf(t.addr.raw, j) == NybbleOf(s.addr.raw, j))
            && t.intBus.value == s.extBus.value
  {
    var c := s.count.clocked;
    var a := ClkAndSyncStep(ResetFlagsStep(s), syncValue);
    assert a.intBus.value == s.extBus.value && a.addr == s.addr;
    var b := CalculateFlagsStep(a, cmValue);
    assert b == a.(flags := a.flags.(addrLoad := c + 1, bufDir := BufDirIn));
    assert ReadsDriven(b.flags, b.mem, b.io, RomDriven(b.flags, b.mem, RomAddress(b), b.intBus)) == b.intBus;
    assert ProcessStep(s, syncValue, cmValue) == UpdateStep(b);
  }

  /** Phase 3: the high opcode nybble is latched; an I/O opcode is noted
      only right after an SRC, before the SRC flag is replaced by "this
      opcode is SRC or FIM". */
  lemma SnoopHighNybble(s: ChipState, cmValue: int)
    requires s.flags.syncSeen && s.count.clocked == 3
    ensures var t := CalculateFlagsStep(s, cmValue);
            && (t.flags.ioOpDetected <==> ToUInt32(s.extBus.value) == 0xE && s.flags.srcDetected)
            && (t.flags.srcDetected <==> ToUInt32(s.extBus.value) == 2)
            && NybbleOf(t.inst.raw, 1) == s.extBus.value % 16
            && NybbleOf(t.inst.raw, 0) == NybbleOf(s.inst.raw, 0)
  {
    assert HighNybble(IO) == 0xE && HighNybble(SRC) == 2;
  }

  /** Phase 4: the low opcode nybble is latched, and SRC (odd) is told from
      FIM (even). */
  lemma SnoopLowNybble(s: ChipState, cmValue: int)
    requires s.flags.syncSeen && s.count.clocked == 4
    ensures var t := CalculateFlagsStep(s, cmValue);
            && (t.flags.srcDetected <==> s.flags.srcDetected && s.extBus.value % 2 == 1)
            && NybbleOf(t.inst.raw, 0) == s.extBus.value % 16
            && NybbleOf(t.inst.raw, 1) == NybbleOf(s.inst.raw, 1)
            && t.flags.ioOpDetected == s.flags.ioOpDetected
  {
  }

  /** Phases 3 and 4 together latch the whole opcode: high nybble `h`, low
      nybble `l`. */
  lemma SnoopLatchesOpcode(s: ChipState, h: nat, l: nat, cm3: int, cm4: int)
    requires s.flags.syncSeen && s.count.clocked == 3
    ensures var t := CalculateFlagsStep(s.(extBus := s.extBus.(value := h)), cm3);
            var u := CalculateFlagsStep(t.(count := Cell(4, 4), extBus := t.extBus.(value := l)), cm4);
            u.inst.raw == 16 * (h % 16) + l % 16
  {
    NybblePair(s.inst.raw, h, l);
  }

  /** Phase 6 after an SRC: a ROM takes the whole payload nybble as chip id,
      a RAM bits 3..2 as chip id and bits 1..0 as register; the SRC stays
      detected exactly when it names this chip or the chip is in omni mode. */
  lemma SrcSelectsChip(s: ChipState, cmValue: int)
    requires s.flags.syncSeen && s.count.clocked == 6 && s.flags.srcDetected
    ensures var t := CalculateFlagsStep(s, cmValue);
            var v := s.intBus.value % 16;
            && t.flags.srcDeviceID == (if s.romMode then v else v / 4)
            && (!s.romMode ==> t.flags.srcRegisterSel == v % 4)
            && (s.romMode ==> t.flags.srcRegisterSel == s.flags.srcRegisterSel)
            && (t.flags.srcDetected <==> s.omniMode || t.flags.srcDeviceID == s.id)
  {
  }

  /** Phase 7: a RAM latches the character of the SRC payload; a ROM keeps
      its selection. Either turns the bus inward. */
  lemma RamLatchesCharacter(s: ChipState, cmValue: int)
    requires s.flags.syncSeen && s.count.clocked == 7
    ensures var t := CalculateFlagsStep(s, cmValue);
            && t.flags.srcCharacterSel == (if s.romMode then s.flags.srcCharacterSel else s.intBus.value % 16)
            && t.flags.bufDir == BufDirIn
  {
  }

  /** A WRM for this RAM stores the internal-bus byte in the addressed
      character and nothing else; the address register shows the index. */
  lemma WrmStoresCharacter(s: ChipState)
    requires !s.romMode && s.flags.ioOpDetected && InstByte(s) == WRM
    requires 0 <= CharIndex(s.flags, s.mem) < |s.mem.data|
    ensures var t := IoWriteStep(s);
            && |t.mem.data| == |s.mem.data|
            && t.mem.data[CharIndex(s.flags, s.mem)] == s.intBus.value % 256
            && (forall j :: 0 <= j < |s.mem.data| && j != CharIndex(s.flags, s.mem) ==> t.mem.data[j] == s.mem.data[j])
            && t.mem.statusMem == s.mem.statusMem && t.io == s.io
            && (CharIndex(s.flags, s.mem) < 4096 ==> t.addr.raw == CharIndex(s.flags, s.mem))
  {
    SmallPowers();
  }

  /** A WR0..WR3 for this RAM stores the byte in status character 0..3 of
      the selected register and nothing else. */
  lemma WrStoresStatus(s: ChipState)
    requires !s.romMode && s.flags.ioOpDetected && WR0 <= InstByte(s) <= WR3
    requires 0 <= StatusIndex(s.flags, s.mem, InstByte(s) - WR0) < |s.mem.statusMem|
    ensures var t := IoWriteStep(s);
            var k := StatusIndex(s.flags, s.mem, InstByte(s) - WR0);
            && |t.mem.statusMem| == |s.mem.statusMem|
            && t.mem.statusMem[k] == s.intBus.value % 256
            && (forall j :: 0 <= j < |s.mem.statusMem| && j != k ==> t.mem.statusMem[j] == s.mem.statusMem[j])
            && t.mem.data == s.mem.data && t.io == s.io
  {
  }

  /** A character read (RDM, SBM, ADM) after this RAM's phase 5 puts the
      addressed character on the internal bus. */
  lemma MemReadDrivesCharacter(s: ChipState)
    requires s.flags.memRead && s.flags.romDataOut == 0 && !s.flags.ioRead && s.flags.statusRead < 0
    requires 0 <= CharIndex(s.flags, s.mem) < |s.mem.data|
    ensures UpdateStep(s).intBus.value == s.mem.data[CharIndex(s.flags, s.mem)]
  {
  }

  /** Writing a character and reading it back through the same SRC
      selection returns the byte written: a later character read of a state
      whose image is the written one yields it. */
  lemma CharacterRoundTrip(s: ChipState, u: ChipState)
    requires !s.romMode && s.flags.ioOpDetected && InstByte(s) == WRM
    requires 0 <= CharIndex(s.flags, s.mem) < |s.mem.data|
    requires u.mem.data == IoWriteStep(s).mem.data && CharIndex(u.flags, u.mem) == CharIndex(s.flags, s.mem)
    requires u.flags.memRead && u.flags.romDataOut == 0 && !u.flags.ioRead && u.flags.statusRead < 0
    ensures UpdateStep(u).intBus.value == s.intBus.value % 256
  {
    WrmStoresCharacter(s);
    MemReadDrivesCharacter(u);
  }

  /** The same round trip for a status character: WRn, then RDn. */
  lemma StatusRoundTrip(s: ChipState, u: ChipState)
    requires !s.romMode && s.flags.ioOpDetected && WR0 <= InstByte(s) <= WR3
    requires 0 <= StatusIndex(s.flags, s.mem, InstByte(s) - WR0) < |s.mem.statusMem|
    requires u.mem.statusMem == IoWriteStep(s).mem.statusMem
    requires u.flags.statusRead == InstByte(s) - WR0 && StatusIndex(u.flags, u.mem, u.flags.statusRead) == StatusIndex(s.flags, s.mem, InstByte(s) - WR0)
    ensures UpdateStep(u).intBus.value == s.intBus.value % 256
  {
    WrStoresStatus(s);
  }

  /** Phase 5: RDR starts a port read only on a ROM, RDM/SBM/ADM a character
      read and RD0..RD3 a status read only on a RAM, and only after an SRC;
      a started read turns the bus outward. */
  lemma StartReadRequests(s: ChipState, cmValue: int)
    requires s.flags.syncSeen && s.count.clocked == 5 && !s.flags.ioRead && !s.flags.memRead && s.flags.statusRead == -1
    ensures var t := CalculateFlagsStep(s, cmValue);
            var cmd := InstByte(s);
            && (t.flags.ioRead <==> s.flags.ioOpDetected && s.romMode && cmd == RDR)
            && (t.flags.memRead <==> s.flags.ioOpDetected && !s.romMode && (cmd == RDM || cmd == SBM || cmd == ADM))
            && (t.flags.statusRead >= 0 <==> s.flags.ioOpDetected && !s.romMode && RD0 <= cmd <= RD3)
            && (t.flags.statusRead >= 0 ==> t.flags.statusRead == cmd - RD0)
            && (t.flags.bufDir == BufDirOut <==> t.flags.ioRead || t.flags.memRead || t.flags.statusRead >= 0)
  {
  }

  /** The port write (WRR on a ROM, WMP on a RAM): in omni mode only the
      nybble of the SRC chip id changes, every other chip's nybble stays;
      otherwise the port takes the bus value. The port's write counter
      restarts at one write. */
  lemma PortWriteMergesNybble(s: ChipState)
    requires s.flags.ioOpDetected && s.io.Present?
    requires (InstByte(s) == WMP && !s.romMode) || (InstByte(s) == WRR && s.romMode)
    ensures var t := IoWriteStep(s);
            var k := NybbleIndex(s.flags.srcDeviceID);
            && t.io.Present? && t.io.bus.writes == 1
            && (s.omniMode ==> NybbleOf(t.io.bus.value, k) == s.intBus.value % 16)
            && (s.omniMode ==> forall j: nat :: j < 16 && j != k ==> NybbleOf(t.io.bus.value, j) == NybbleOf(s.io.bus.value, j))
            && (!s.omniMode ==> t.io.bus.value == s.intBus.value)
            && t.mem == s.mem
  {
  }

  /** `process` stops short exactly on a port write for a chip without a port. */
  lemma FaultOnlyWithoutPort(s: ChipState, syncValue: int)
    requires ProcessFaults(s, syncValue)
    ensures s.io.Absent? && s.count.clocked == 6
  {
  }

  /** `reset` zeroes the image and clears the requests; the chip then waits
      for SYNC again and does nothing before it. */
  lemma ResetZeroesImage(s: ChipState, cmValue: int)
    ensures var t := ResetStep(s);
            && |t.mem.data| == |s.mem.data|
            && (forall j :: 0 <= j < |t.mem.data| ==> t.mem.data[j] == 0)
            && t.mem.statusMem == s.mem.statusMem && t.count == s.count
            && t.flags.srcRegisterSel == s.flags.srcRegisterSel && t.flags.srcCharacterSel == s.flags.srcCharacterSel
            && !t.flags.syncSeen && CalculateFlagsStep(t, cmValue) == t
  {
  }

  /** `createRamMemory` gives `registers` banks of zeroed characters and
      status characters. */
  lemma CreateRamSizes(s: ChipState, characters: nat, statusCharacters: nat, registers: nat)
    ensures var t := CreateRamStep(s, characters, statusCharacters, registers);
            && |t.mem.data| == characters * registers && |t.mem.statusMem| == statusCharacters * registers
            && (forall j :: 0 <= j < |t.mem.data| ==> t.mem.data[j] == 0)
            && (forall j :: 0 <= j < |t.mem.statusMem| ==> t.mem.statusMem[j] == 0)
            && t.flags == s.flags && t.count == s.count
  {
  }

  /** Every operation keeps the chip's invariant. */
  lemma StepsKeepInv(s: ChipState, syncValue: int, cmValue: int, edge: int)
    requires Inv(s)
    ensures Inv(ProcessStep(s, syncValue, cmValue)) && Inv(TickStep(s, edge)) && Inv(ClockOutStep(s))
    ensures Inv(ResetStep(s)) && Inv(ResetFlagsStep(s)) && Inv(UpdateStep(s))
    ensures Inv(ClkAndSyncStep(s, syncValue)) && Inv(CalculateFlagsStep(s, cmValue))
  {
  }

  // ----- the chip object -----

  /** The registers and the internal bus of a new chip, wired to `extBus`. */
  method NewParts(extBus: Bus)
    returns (ib: Bus, ar: Register, ir: Register, cc: Clocked<nat>, bf: Buffer)
    ensures fresh(ib) && fresh(ar.reg) && fresh(ir.reg) && fresh(cc)
    ensures cc != ar.reg && cc != ir.reg && ar.reg != ir.reg
    ensures ib.State() == BusState(0, 0)
    ensures ar.Valid() && ar.width == 12 && ar.dataBus == ib && ar.reg.raw == 0 && ar.reg.clocked == 0
    ensures ir.Valid() && ir.width == 8 && ir.dataBus == ib && ir.reg.raw == 0 && ir.reg.clocked == 0
    ensures cc.raw == 0 && cc.clocked == 0
    ensures bf.busA == ib && bf.busB == extBus
  {
    ib := new Bus(4, "ROM Internal Bus");
    ar := new Register(0, ib, 12, "Addr ");
    ir := new Register(0, ib, 8, "INST ");
    cc := new Clocked(0);
    bf := new Buffer(ib, extBus, "I/O Buf ");
  }

  /** The bus logic of one memory chip. `sync` and `cm` are the CPU's SYNC
      and CM lines; `ioBus`, when present, is the chip's I/O port. The
      source's thirteen flag variables are the one record-valued field
      `flags`, which every method reassigns whole. */
  class RomRamDecoder {
    const extBus: Bus
    const ioBus: Bus?
    const sync: Clocked<int>
    const cm: Clocked<int>
    const clkCount: Clocked<nat>
    const addrReg: Register
    const instReg: Register
    const intBus: Bus
    const buffer: Buffer

    var data: seq<Byte>
    var statusMem: seq<Byte>
    var registers: int
    var characters: int
    var statusCharacters: int
    var romMode: bool
    var omniMode: bool
    var id: int
    var flags: Flags

    /** The lines the chip only reads. */
    ghost function Inputs(): set<object>
    {
      {sync, cm}
    }

    /** The wiring: the buffer between the internal and the external bus,
        both registers on the internal bus, and no cell, bus or line shared.
        It speaks of constants only, so every method keeps it; the chip
        invariant `Inv` is a property of the step functions
        (`StepsKeepInv`). */
    ghost predicate Valid()
    {
      && intBus != extBus && ioBus != intBus && ioBus != extBus
      && buffer.busA == intBus && buffer.busB == extBus
      && addrReg.Valid() && addrReg.width == 12 && addrReg.dataBus == intBus
      && instReg.Valid() && instReg.width == 8 && instReg.dataBus == intBus
      && clkCount != addrReg.reg && clkCount != instReg.reg && addrReg.reg != instReg.reg
      && clkCount !in Inputs() && addrReg.reg !in Inputs() && instReg.reg !in Inputs()
    }

    ghost function Mem(): Memory
      reads this
    {
      Memory(data, statusMem, registers, characters, statusCharacters)
    }

    ghost function Port(): IoPort
      reads ioBus
    {
      if ioBus == null then Absent else Present(ioBus.State())
    }

    ghost function State(): ChipState
      reads this, clkCount, addrReg.reg, instReg.reg, intBus, extBus, ioBus
    {
      ChipState(romMode, omniMode, id, flags,
                Mem(),
                Cell(clkCount.raw, clkCount.clocked), Cell(addrReg.reg.raw, addrReg.reg.clocked),
                Cell(instReg.reg.raw, instReg.reg.clocked), intBus.State(), extBus.State(), Port())
    }

    /** A ROM-mode chip with id 0, no memory, all flags clear, and new
        registers on a new 4-bit internal bus. */
    constructor (extBus: Bus, ioBus: Bus?, sync: Clocked<int>, cm: Clocked<int>)
      requires ioBus != extBus
      ensures Valid()
      ensures this.extBus == extBus && this.ioBus == ioBus && this.sync == sync && this.cm == cm
      ensures fresh(intBus) && fresh(clkCount) && fresh(addrReg.reg) && fresh(instReg.reg)
      ensures var t := State();
              && t.romMode && !t.omniMode && t.id == 0 && t.flags == InitialFlags
              && t.mem == Memory([], [], 0, 0, 0)
              && t.count == Cell(0, 0) && t.addr == Cell(0, 0) && t.inst == Cell(0, 0)
              && t.intBus == BusState(0, 0)
    {
      var ib, ar, ir, cc, bf := NewParts(extBus);
      this.extBus, this.ioBus, this.sync, this.cm := extBus, ioBus, sync, cm;
      clkCount, addrReg, instReg, intBus, buffer := cc, ar, ir, ib, bf;
      data, statusMem, registers, characters, statusCharacters := [], [], 0, 0, 0;
      romMode, omniMode, id, flags := true, false, 0, InitialFlags;
    }

    /** `reset`: clears the flags and zeroes the image, byte by byte. */
    method Reset()
      requires Valid()
      modifies this
      ensures State() == ResetStep(old(State()))
    {
      flags := flags.(syncSeen := false, bufDir := BufDirNone, addrLoad := 0, romDataOut := 0,
                      ioRead := false, memRead := false, statusRead := -1, chipSelected := false,
                      srcDetected := false, srcDeviceID := 0, ioOpDetected := false);
      ZeroData();
    }

    /** The loop of `reset`: every byte of the image becomes 0. */
    method ZeroData()
      modifies this
      ensures data == Zeros(|old(data)|)
      ensures flags == old(flags) && statusMem == old(statusMem)
      ensures registers == old(registers) && characters == old(characters)
      ensures statusCharacters == old(statusCharacters)
      ensures romMode == old(romMode) && omniMode == old(omniMode) && id == old(id)
    {
      var i := 0;
      while i < |data|
        invariant 0 <= i <= |data| == |old(data)|
        invariant forall j :: 0 <= j < i ==> data[j] == 0
        invariant forall j :: i <= j < |data| ==> data[j] == old(data)[j]
        invariant flags == old(flags) && statusMem == old(statusMem)
        invariant registers == old(registers) && characters == old(characters)
        invariant statusCharacters == old(statusCharacters)
        invariant romMode == old(romMode) && omniMode == old(omniMode) && id == old(id)
      {
        data := data[i := 0];
        i := i + 1;
      }
      assert data == Zeros(|old(data)|);
    }

    /** `setID`. */
    method SetID(newId: int)
      modifies this
      ensures State() == old(State()).(id := newId)
      ensures GetID() == newId
    {
      id := newId;
    }

    /** `getID`. */
    function GetID(): (r: int)
      reads this
      ensures r == id
    {
      id
    }

    /** `loadProgram`: a ROM takes `program` as its image; a RAM refuses
        (the source throws), leaving everything as it was. */
    method LoadProgram(program: seq<Byte>) returns (ok: bool)
      modifies this
      ensures ok == old(romMode)
      ensures State() == if ok then LoadProgramStep(old(State()), program) else old(State())
    {
      if !romMode {
        return false;
      }
      data := program;
      return true;
    }

    /** `createRamMemory`: a RAM gets zeroed banks of the given geometry; a
        ROM refuses (the source throws), leaving everything as it was. */
    method CreateRamMemory(characters: nat, statusCharacters: nat, registers: nat) returns (ok: bool)
      modifies this
      ensures ok == !old(romMode)
      ensures State() == if ok then CreateRamStep(old(State()), characters, statusCharacters, registers)
                         else old(State())
    {
      if romMode {
        return false;
      }
      data := Zeros(characters * registers);
      statusMem := Zeros(statusCharacters * registers);
      this.registers, this.characters, this.statusCharacters := registers, characters, statusCharacters;
      return true;
    }

    /** `resetFlags`. */
    method ResetFlags()
      requires Valid()
      modifies this, intBus
      ensures State() == ResetFlagsStep(old(State()))
    {
      flags := flags.(addrLoad := 0, romDataOut := 0, memRead := false, statusRead := -1, ioRead := false);
      if flags.bufDir == BufDirIn {
        buffer.BToA();
      }
    }

    /** `clkAndSync`. */
    method ClkAndSync()
      requires Valid()
      modifies this, clkCount
      ensures State() == ClkAndSyncStep(old(State()), old(sync.clocked))
    {
      var a := sync.clocked;
      var b := clkCount.clocked;
      if a == 0 || b == 7 {
        clkCount.raw := 0;
        flags := flags.(syncSeen := true);
      } else if flags.syncSeen {
        clkCount.raw := clkCount.clocked + 1;
      }
    }

    /** `calculateFlags`; `ok` is false where the source stops at the
        missing I/O bus. */
    method CalculateFlags() returns (ok: bool)
      requires Valid()
      modifies this, instReg.reg, addrReg.reg, ioBus
      ensures State() == CalculateFlagsStep(old(State()), old(cm.clocked))
      ensures ok == !CalculateFlagsFaults(old(State()))
    {
      ok := true;
      if !flags.syncSeen {
        return;
      }
      var c := clkCount.clocked;
      if c == 0 {
        flags := flags.(addrLoad := 1, bufDir := BufDirIn);
      } else if c == 1 {
        flags := flags.(addrLoad := 2, bufDir := BufDirIn);
      } else if c == 2 {
        SelectChip();
      } else if c == 3 {
        SnoopHigh();
      } else if c == 4 {
        SnoopLow();
      } else if c == 5 {
        StartRead();
      } else if c == 6 {
        DecodeSrc();
        ok := WriteIo();
      } else if c == 7 {
        SelectCharacter();
      }
    }

    /** Phase 2 of `calculateFlags`. */
    method SelectChip()
      requires Valid()
      modifies this
      ensures State() == SelectStep(old(State()), old(cm.clocked))
    {
      var sel := (ToInt32(extBus.value) == id || omniMode) && cm.clocked == 0;
      if sel && romMode {
        flags := flags.(chipSelected := sel, romDataOut := 1, bufDir := BufDirOut);
      } else {
        flags := flags.(chipSelected := sel, bufDir := BufDirIn);
      }
    }

    /** Phase 3 of `calculateFlags`. */
    method SnoopHigh()
      requires Valid()
      modifies this, instReg.reg
      ensures State() == SnoopHighStep(old(State()))
    {
      var f := flags;
      if f.chipSelected && romMode {
        f := f.(romDataOut := 2, bufDir := BufDirOut);
      }
      var v := extBus.value;
      var io := false;
      if ToUInt32(v) == HighNybble(IO) {
        if f.srcDetected {
          io := true;
        }
      }
      flags := f.(ioOpDetected := io, srcDetected := ToUInt32(v) == HighNybble(SRC));
      instReg.WriteNybbleDirect(1, v);
    }

    /** Phase 4 of `calculateFlags`. */
    method SnoopLow()
      requires Valid()
      modifies this, instReg.reg
      ensures State() == SnoopLowStep(old(State()))
    {
      var v := extBus.value;
      var f := flags.(bufDir := BufDirIn);
      if f.srcDetected && v % 2 != 1 {
        f := f.(srcDetected := false);
      }
      flags := f;
      instReg.WriteNybbleDirect(0, v);
    }

    /** Phase 5 of `calculateFlags`. */
    method StartRead()
      requires Valid()
      modifies this
      ensures State() == StartReadStep(old(State()))
    {
      flags := flags.(bufDir := BufDirIn);
      if flags.ioOpDetected {
        var cmd := instReg.ReadDirect();
        assert cmd == InstByte(State()) by { SmallPowers(); }
        if cmd == RDR {
          if romMode {
            flags := flags.(bufDir := BufDirOut, ioRead := true);
          }
        } else if cmd == RDM || cmd == SBM || cmd == ADM {
          if !romMode {
            flags := flags.(bufDir := BufDirOut, memRead := true);
          }
        } else if cmd == RD0 || cmd == RD1 || cmd == RD2 || cmd == RD3 {
          if !romMode {
            flags := flags.(bufDir := BufDirOut, statusRead := cmd - RD0);
          }
        }
      }
    }

    /** Phase 6 of `calculateFlags`, first half: the SRC payload. */
    method DecodeSrc()
      requires Valid()
      modifies this
      ensures State() == SrcDecodeStep(old(State()))
    {
      if flags.srcDetected {
        var v := intBus.Read();
        if romMode {
          var dev := v % 16;
          flags := flags.(bufDir := BufDirIn, srcDeviceID := dev, srcDetected := omniMode || dev == id);
        } else {
          var dev := (v % 16) / 4;
          flags := flags.(bufDir := BufDirIn, srcDeviceID := dev, srcRegisterSel := v % 4,
                          srcDetected := omniMode || dev == id);
        }
      }
    }

    /** Phase 6 of `calculateFlags`, second half: the write-type I/O
        instructions. `ok` is false where the source dereferences the missing
        I/O bus. */
    method WriteIo() returns (ok: bool)
      requires Valid()
      modifies this, addrReg.reg, ioBus
      ensures State() == IoWriteStep(old(State()))
      ensures ok == !WritesMissingPort(old(State()))
    {
      ok := true;
      if !flags.ioOpDetected {
        return;
      }
      var cmd := instReg.ReadDirect();
      assert cmd == InstByte(State()) by { SmallPowers(); }
      if cmd == WRM {
        if !romMode {
          WriteCharacter();
        }
      } else if cmd == WR0 || cmd == WR1 || cmd == WR2 || cmd == WR3 {
        if !romMode {
          WriteStatus(cmd - WR0);
        }
      } else if (cmd == WMP && !romMode) || (cmd == WRR && romMode) {
        ok := WriteOutput();
      }
    }

    /** WMP on a RAM, WRR on a ROM: the bus turns inward and the port is
        written; `ok` is false when there is no port. */
    method WriteOutput() returns (ok: bool)
      requires Valid()
      modifies this, ioBus
      ensures var s := old(State());
              State() == s.(flags := s.flags.(bufDir := BufDirIn), io := PortWrite(s))
      ensures ok == (ioBus != null)
    {
      flags := flags.(bufDir := BufDirIn);
      ok := WritePort(intBus.Read());
    }

    /** WRM: the internal-bus byte into the selected character, whose index
        the address register then holds. */
    method WriteCharacter()
      requires Valid()
      modifies this, addrReg.reg
      ensures var s := old(State());
              var i := CharIndex(s.flags, s.mem);
              State() == if 0 <= i < |s.mem.data|
                         then s.(flags := s.flags.(bufDir := BufDirIn), mem := s.mem.(data := Store(s.mem.data, i, s.intBus.value)),
                                 addr := s.addr.(raw := LowBits(i, 12)))
                         else s.(flags := s.flags.(bufDir := BufDirIn))
    {
      flags := flags.(bufDir := BufDirIn);
      var v := intBus.Read();
      var i := flags.srcCharacterSel + flags.srcRegisterSel * characters;
      if 0 <= i < |data| {
        data := data[i := v % 256];
        addrReg.WriteDirect(i);
      }
    }

    /** WR0..WR3: the internal-bus byte into status character `n` of the
        selected register. */
    method WriteStatus(n: int)
      requires Valid()
      modifies this
      ensures var s := old(State());
              State() == s.(flags := s.flags.(bufDir := BufDirIn),
                            mem := s.mem.(statusMem := Store(s.mem.statusMem, StatusIndex(s.flags, s.mem, n), s.intBus.value)))
    {
      flags := flags.(bufDir := BufDirIn);
      var k := n + flags.srcRegisterSel * statusCharacters;
      if 0 <= k < |statusMem| {
        statusMem := statusMem[k := intBus.Read() % 256];
      }
    }

    /** The port write of WMP and WRR. */
    method WritePort(v: nat) returns (ok: bool)
      requires Valid() && v == intBus.value
      modifies ioBus
      ensures Port() == PortWrite(old(State())) && ok == (ioBus != null)
    {
      if ioBus != null {
        ioBus.Reset();
        if omniMode {
          ioBus.Write(MergeNybble(ioBus.value, flags.srcDeviceID, v));
        } else {
          ioBus.Write(v);
        }
        return true;
      }
      return false;
    }

    /** Phase 7 of `calculateFlags`. */
    method SelectCharacter()
      requires Valid()
      modifies this
      ensures State() == CharSelectStep(old(State()))
    {
      if !romMode {
        flags := flags.(srcCharacterSel := intBus.Read() % 16);
      }
      flags := flags.(bufDir := BufDirIn);
    }

    /** `update`. */
    method Update()
      requires Valid()
      modifies addrReg.reg, intBus
      ensures State() == UpdateStep(old(State()))
    {
      LoadAddress();
      DriveRom();
      DriveReads();
    }

    /** The address load of `update`. */
    method LoadAddress()
      requires Valid()
      modifies addrReg.reg
      ensures Cell(addrReg.reg.raw, addrReg.reg.clocked) == AddressLoaded(old(State()))
    {
      if romMode {
        if flags.addrLoad == 1 {
          addrReg.WriteNybble(0);
        } else if flags.addrLoad == 2 {
          addrReg.WriteNybble(1);
        }
      }
    }

    /** The ROM-data request of `update`. */
    method DriveRom()
      requires Valid()
      modifies intBus
      ensures intBus.State() == RomDriven(flags, Mem(),
                                          addrReg.reg.clocked % 4096, old(intBus.State()))
    {
      var a := addrReg.ReadDirect();
      assert a == addrReg.reg.clocked % 4096 by { SmallPowers(); }
      if flags.romDataOut == 1 {
        if a < |data| {
          intBus.Write(data[a] / 16 % 16);
        }
      } else if flags.romDataOut == 2 {
        if a < |data| {
          intBus.Write(data[a] % 16);
        }
      }
    }

    /** The port, character and status requests of `update`. */
    method DriveReads()
      requires Valid()
      modifies intBus
      ensures intBus.State() == ReadsDriven(flags, Mem(),
                                            Port(), old(intBus.State()))
    {
      if flags.ioRead && ioBus != null {
        intBus.Write(ioBus.value);
      }
      if flags.memRead {
        var i := flags.srcCharacterSel + flags.srcRegisterSel * characters;
        if 0 <= i < |data| {
          intBus.Write(data[i]);
        }
      }
      if flags.statusRead >= 0 {
        var k := flags.statusRead + flags.srcRegisterSel * statusCharacters;
        if 0 <= k < |statusMem| {
          intBus.Write(statusMem[k]);
        }
      }
    }

    /** `clockOut`. */
    method ClockOut()
      requires Valid()
      modifies extBus
      ensures State() == ClockOutStep(old(State()))
    {
      if flags.bufDir == BufDirOut {
        buffer.AToB();
      }
    }

    /** The chip's own cells on a clock edge. */
    method Tick(edge: int)
      requires Valid()
      modifies clkCount, addrReg.reg, instReg.reg
      ensures State() == TickStep(old(State()), edge)
    {
      clkCount.Tick(edge);
      addrReg.Tick(edge);
      instReg.Tick(edge);
    }
  }
}
