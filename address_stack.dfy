/** The program counter and the three-level subroutine stack
    (src/main/kotlin/addressstack/AddressStack.kt). The PC is a 12-bit
    register without a bus; the levels sit on the internal data bus. The
    stack pointer starts at -1 (empty) and is moved by push and pop.

    As written, each level is initialised with the data-bus width (4 bits),
    so a pushed PC loses bits 4..11 (see `AsWrittenPushPopLosesHighBits`);
    the corrected width is the PC's own 12 bits (`CorrectedPushPopRestoresPc`),
    and the `AddressStack` class below is built with that width. */
module AddressStacks {
  import opened Words
  import opened Masks
  import opened Globals
  import opened Buses
  import opened Registers

  const StackDepth: int := 3
  const PcWidth: int := 12
  /** Level width in the source: `BusWidth`. */
  const AsWrittenLevelWidth: int := BusWidth
  /** Level width a return address needs: that of the PC. */
  const CorrectedLevelWidth: int := PcWidth

  /** The PC after `stackPush`, a commit, `stackPop` and another commit, when
      the committed PC was `pc` and the levels keep `levelWidth` bits. */
  function PcAfterPushPop(pc: nat, levelWidth: int): (r: nat)
    ensures r < 4096
    ensures levelWidth == AsWrittenLevelWidth ==> r < 16
  {
    SmallPowers();
    LowBits(LowBits(LowBits(pc, MaskBits(PcWidth)), MaskBits(levelWidth)), MaskBits(PcWidth))
  }

  /** With 4-bit levels a return address comes back as its low nybble only:
      a call from 0x123 returns to 0x003. */
  lemma AsWrittenPushPopLosesHighBits()
    ensures PcAfterPushPop(0x123, AsWrittenLevelWidth) == 0x3
  {
    SmallPowers();
  }

  /** With 12-bit levels every 12-bit return address comes back unchanged. */
  lemma CorrectedPushPopRestoresPc(pc: nat)
    requires pc < 4096
    ensures PcAfterPushPop(pc, CorrectedLevelWidth) == pc
  {
    SmallPowers();
  }

  /** With 4-bit levels every 12-bit return address comes back as its low
      nybble. */
  lemma AsWrittenPushPopKeepsLowNybble(pc: nat)
    requires pc < 4096
    ensures PcAfterPushPop(pc, AsWrittenLevelWidth) == pc % 16
  {
    SmallPowers();
    assert LowBits(pc, MaskBits(PcWidth)) == pc;
    assert LowBits(pc, MaskBits(AsWrittenLevelWidth)) == pc % 16;
  }

  /** Updating one of three levels, written out level by level. */
  lemma LevelUpdate(ls: seq<nat>, k: int, v: nat)
    requires |ls| == 3 && 0 <= k < 3
    ensures ls[k := v] == [if k == 0 then v else ls[0], if k == 1 then v else ls[1], if k == 2 then v else ls[2]]
  {
  }

  class AddressStack {
    const dataBus: Bus
    const pc: Register
    const stack: seq<Register>
    /** Bits each level keeps. */
    const levelWidth: int
    var stackPointer: int

    /** The fixed wiring: a 12-bit PC without a bus and three levels of
        `levelWidth` bits (the source's 4 or the corrected 12) on `dataBus`,
        each with a cell of its own. It
        speaks of constants only, so no update can break it. */
    ghost predicate Shape()
    {
      && pc.Valid() && pc.width == PcWidth && pc.dataBus == null && pc.reg.initialVal == 0
      && (levelWidth == AsWrittenLevelWidth || levelWidth == CorrectedLevelWidth)
      && |stack| == StackDepth
      && (forall i :: 0 <= i < StackDepth ==>
            stack[i].Valid() && stack[i].width == levelWidth && stack[i].dataBus == dataBus
            && stack[i].reg.initialVal == 0 && stack[i].reg != pc.reg)
      && stack[0].reg != stack[1].reg && stack[0].reg != stack[2].reg && stack[1].reg != stack[2].reg
    }

    ghost predicate Valid()
      reads this
    {
      Shape() && -1 <= stackPointer <= StackDepth
    }

    /** Every storage cell of the PC and the levels. */
    ghost function Cells(): set<object>
      requires |stack| == StackDepth
    {
      {pc.reg, stack[0].reg, stack[1].reg, stack[2].reg}
    }

    ghost function RawLevels(): seq<nat>
      requires |stack| == StackDepth
      reads Cells()
    {
      [stack[0].reg.raw, stack[1].reg.raw, stack[2].reg.raw]
    }

    ghost function ClockedLevels(): seq<nat>
      requires |stack| == StackDepth
      reads Cells()
    {
      [stack[0].reg.clocked, stack[1].reg.clocked, stack[2].reg.clocked]
    }

    /** The stack the CPU uses: levels of the corrected 12-bit width. */
    constructor (dataBus: Bus)
      ensures Valid() && fresh(Cells())
      ensures this.dataBus == dataBus && levelWidth == CorrectedLevelWidth
      ensures stackPointer == -1
      ensures pc.reg.raw == 0 && pc.reg.clocked == 0
      ensures RawLevels() == [0, 0, 0] && ClockedLevels() == [0, 0, 0]
    {
      this.dataBus := dataBus;
      levelWidth := CorrectedLevelWidth;
      stackPointer := -1;
      pc := new Register(0, null, PcWidth, "PC  ");
      var l0 := new Register(0, dataBus, CorrectedLevelWidth, "Level 0 ");
      var l1 := new Register(0, dataBus, CorrectedLevelWidth, "Level 1 ");
      var l2 := new Register(0, dataBus, CorrectedLevelWidth, "Level 2 ");
      stack := [l0, l1, l2];
    }

    /** The stack exactly as the source builds it: levels of the data-bus
        width. */
    constructor AsWritten(dataBus: Bus)
      ensures Valid() && fresh(Cells())
      ensures this.dataBus == dataBus && levelWidth == AsWrittenLevelWidth
      ensures stackPointer == -1
      ensures pc.reg.raw == 0 && pc.reg.clocked == 0
      ensures RawLevels() == [0, 0, 0] && ClockedLevels() == [0, 0, 0]
    {
      this.dataBus := dataBus;
      levelWidth := AsWrittenLevelWidth;
      stackPointer := -1;
      pc := new Register(0, null, PcWidth, "PC  ");
      var l0 := new Register(0, dataBus, AsWrittenLevelWidth, "Level 0 ");
      var l1 := new Register(0, dataBus, AsWrittenLevelWidth, "Level 1 ");
      var l2 := new Register(0, dataBus, AsWrittenLevelWidth, "Level 2 ");
      stack := [l0, l1, l2];
    }

    /** Restores the PC and every level; the stack pointer is left alone. */
    method Reset()
      requires Valid()
      modifies Cells()
      ensures Valid() && stackPointer == old(stackPointer)
      ensures pc.reg.raw == 0 && pc.reg.clocked == 0
      ensures RawLevels() == [0, 0, 0] && ClockedLevels() == [0, 0, 0]
    {
      pc.Reset();
      var i := 0;
      while i < |stack|
        invariant 0 <= i <= StackDepth
        invariant pc.reg.raw == 0 && pc.reg.clocked == 0
        invariant forall j :: 0 <= j < i ==> stack[j].reg.raw == 0 && stack[j].reg.clocked == 0
      {
        stack[i].Reset();
        i := i + 1;
      }
    }

    /** Next PC: committed PC plus one, modulo 2^12. */
    method IncrementProgramCounter()
      requires Valid()
      modifies pc.reg
      ensures pc.reg.raw == (old(pc.reg.clocked) + 1) % 4096
      ensures pc.reg.clocked == old(pc.reg.clocked)
    {
      SmallPowers();
      pc.Increment();
    }

    /** The committed PC. */
    function GetProgramCounter(): (v: nat)
      requires Valid()
      reads this, pc.reg
      ensures v < 4096
      ensures pc.reg.clocked < 4096 ==> v == pc.reg.clocked
    {
      SmallPowers();
      pc.ReadDirect()
    }

    /** Drives committed PC nybble `n` onto the data bus. */
    method ReadProgramCounter(n: int)
      modifies dataBus
      ensures dataBus.State() == WriteStep(old(dataBus.State()), NybbleOf(pc.reg.clocked, NybbleIndex(n)))
    {
      dataBus.Write(pc.ReadNybbleDirect(n));
    }

    /** Loads PC nybble `n` from the data bus, keeping the other nybbles. */
    method WriteProgramCounter(n: int)
      requires Valid()
      modifies pc.reg
      ensures pc.reg.raw == WithNybble(old(pc.reg.raw), n, dataBus.value, 12)
      ensures pc.reg.clocked == old(pc.reg.clocked)
    {
      pc.WriteNybbleDirect(n, dataBus.Read());
    }

    /** Moves the pointer up and saves the committed PC, cut to the level
        width, in the new top level. From the top level the pointer still moves
        (to the depth) but nothing is saved. A push beyond that would index
        past the levels, so it is excluded. */
    method StackPush()
      requires Valid() && stackPointer < StackDepth
      modifies this, Cells()
      ensures Valid()
      ensures stackPointer == old(stackPointer) + 1
      ensures RawLevels() ==
                if stackPointer < StackDepth
                then old(RawLevels())[stackPointer := LowBits(old(pc.ReadDirect()), MaskBits(levelWidth))]
                else old(RawLevels())
      ensures ClockedLevels() == old(ClockedLevels())
      ensures pc.reg.raw == old(pc.reg.raw) && pc.reg.clocked == old(pc.reg.clocked)
    {
      stackPointer := stackPointer + 1;
      if stackPointer == StackDepth {
        return;
      }
      var k := stackPointer;
      var level := stack[k];
      var v := pc.ReadDirect();
      ghost var before := RawLevels();
      level.WriteDirect(v);
      assert k == 0 || k == 1 || k == 2;
      LevelUpdate(before, k, LowBits(v, MaskBits(levelWidth)));
    }

    /** Loads the PC from the committed top level, clears that level and moves
        the pointer down. An empty stack changes nothing. */
    method StackPop()
      requires Valid() && stackPointer < StackDepth
      modifies this, Cells()
      ensures Valid()
      ensures old(stackPointer) == -1 ==>
                stackPointer == -1 && RawLevels() == old(RawLevels())
                && pc.reg.raw == old(pc.reg.raw)
      ensures old(stackPointer) >= 0 ==>
                && stackPointer == old(stackPointer) - 1
                && pc.reg.raw == LowBits(LowBits(old(ClockedLevels())[old(stackPointer)], MaskBits(levelWidth)), 12)
                && RawLevels() == old(RawLevels())[old(stackPointer) := 0]
      ensures ClockedLevels() == old(ClockedLevels()) && pc.reg.clocked == old(pc.reg.clocked)
    {
      if stackPointer == -1 {
        return;
      }
      SmallPowers();
      var top := stackPointer;
      var level := stack[top];
      ghost var before := RawLevels();
      pc.WriteDirect(level.ReadDirect());
      level.WriteDirect(0);
      stackPointer := top - 1;
      assert top == 0 || top == 1 || top == 2;
      LevelUpdate(before, top, 0);
    }

    /** One clock edge for every cell. */
    method Tick(edge: int)
      requires Valid()
      modifies Cells()
      ensures Valid()
      ensures RawLevels() == old(RawLevels()) && pc.reg.raw == old(pc.reg.raw)
      ensures ClockedLevels() == if edge == 1 then old(RawLevels()) else old(ClockedLevels())
      ensures pc.reg.clocked == if edge == 1 then old(pc.reg.raw) else old(pc.reg.clocked)
    {
      pc.Tick(edge);
      stack[0].Tick(edge);
      stack[1].Tick(edge);
      stack[2].Tick(edge);
    }
  }

  /** A call and its return on one stack: push the committed PC, commit,
      pop into the PC, commit. The PC then holds `PcAfterPushPop`: the
      return address itself with the corrected levels, only its low nybble
      with the source's. */
  method CallAndReturn(st: AddressStack)
    requires st.Valid() && st.stackPointer < StackDepth - 1
    modifies st, st.Cells()
    ensures st.Valid() && st.stackPointer == old(st.stackPointer)
    ensures st.pc.reg.clocked == PcAfterPushPop(old(st.pc.reg.clocked), st.levelWidth)
    ensures old(st.pc.reg.clocked) < 4096 && st.levelWidth == CorrectedLevelWidth ==>
              st.pc.reg.clocked == old(st.pc.reg.clocked)
    ensures old(st.pc.reg.clocked) < 4096 && st.levelWidth == AsWrittenLevelWidth ==>
              st.pc.reg.clocked == old(st.pc.reg.clocked) % 16
  {
    ghost var pc0 := st.pc.reg.clocked;
    st.StackPush();
    st.Tick(1);
    st.StackPop();
    st.Tick(1);
    if pc0 < 4096 {
      CorrectedPushPopRestoresPc(pc0);
      AsWrittenPushPopKeepsLowNybble(pc0);
    }
  }
}
