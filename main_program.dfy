/** The game's main program (src/main/kotlin/games/game1/programs/MainProgram.kt):
    a two-pass assembler. Each pass clears the byte list, emits the four
    blocks mainLoop, checkJump, startJump and handleJump, and records the
    index at which each labelled block starts; jump operands use the labels
    recorded by the previous pass. Every `add` appends exactly one byte
    whatever the label values, so the first pass already finds the final
    labels and the second pass emits the jumps to them. */
module GamePrograms {
  import opened Words
  import opened Defines
  import opened Programs

  /** The bytes mainLoop emits, given the checkJump label it jumps to: a
      subroutine call to checkJump, then the pause signal (8 on chip 15's
      port) and a jump back to address 0. */
  function MainLoopCode(checkJump: nat): (r: seq<Byte>)
    ensures |r| == 9
    ensures checkJump < 4096 ==> r[0] == JMS + checkJump / 256 && 256 * (r[0] - JMS) + r[1] == checkJump
    ensures r[7] == JUN && r[8] == 0x00
  {
    [InstructionByte(JMS, checkJump / 256), checkJump % 256,
     0x24, 0xF0, 0xD8, 0x25, 0xE2, 0x40, 0x00]
  }

  /** The bytes checkJump emits: go to handleJump when r0 is not zero;
      otherwise read ROM 0's port, rotate its bit 0 up to the carry three
      times and go to startJump when the result is not zero, else return. */
  function CheckJumpCode(handleJump: nat, startJump: nat): (r: seq<Byte>)
    ensures |r| == 16
    ensures r[1] == JCN_ZERO_UNSET && r[2] == handleJump % 256
    ensures r[13] == JCN_ZERO_UNSET && r[14] == startJump % 256
    ensures r[15] == BBL
  {
    [0xB0, 0x1C, handleJump % 256, 0x24, 0x00, 0x25, 0xEA,
     0xF1, 0xF5, 0xF1, 0xF5, 0xF1, 0xF5, 0x1C, startJump % 256, 0xC0]
  }

  /** The byte startJump emits: accumulator := 1. */
  const StartJumpCode: seq<Byte> := [0xD1]

  /** The bytes handleJump emits: write the accumulator to RAM 0's port,
      rotate it left, store it in r0 and return. */
  const HandleJumpCode: seq<Byte> := [0x24, 0x00, 0x25, 0xE1, 0xF1, 0xF5, 0xB0, 0xC0]

  /** The bytes one `gen` pass emits, given the labels of the previous pass. */
  function GenPass(checkJump: nat, handleJump: nat, startJump: nat): (r: seq<Byte>)
    ensures |r| == 34
    ensures r[1] == checkJump % 256 && r[11] == handleJump % 256 && r[23] == startJump % 256
  {
    MainLoopCode(checkJump) + CheckJumpCode(handleJump, startJump) + StartJumpCode + HandleJumpCode
  }

  /** Where each block lands in a pass, and which bytes carry the labels:
      the blocks start at 0, 9, 25 and 26 and the pass is 34 bytes long
      for any labels of the pass before, so labels found in one pass are
      final. */
  lemma GenPassLayout(checkJump: nat, handleJump: nat, startJump: nat)
    ensures var p := GenPass(checkJump, handleJump, startJump);
      |p| == 34 &&
      p[..9] == MainLoopCode(checkJump) &&
      p[9..25] == CheckJumpCode(handleJump, startJump) &&
      p[25..26] == StartJumpCode && p[26..] == HandleJumpCode &&
      p[1] == checkJump % 256 && p[11] == handleJump % 256 && p[23] == startJump % 256
  {
    var p := GenPass(checkJump, handleJump, startJump);
    var m, c := MainLoopCode(checkJump), CheckJumpCode(handleJump, startJump);
    assert p == m + c + StartJumpCode + HandleJumpCode;
    assert p[..9] == m;
    assert p[9..25] == c;
  }

  /** The labels of the final listing resolve to the blocks they name: the
      call at 0 reaches checkJump's first instruction (XCH 0), the branch
      at 10 reaches handleJump's (FIM 4) and the branch at 22 reaches
      startJump's (LDM 1). */
  lemma FinalLabelsResolve()
    ensures var p := GenPass(9, 26, 25);
      p[0] == JMS && p[1] == 9 && p[9] == InstructionByte(XCH, 0) &&
      p[10] == JCN_ZERO_UNSET && p[11] == 26 && p[26] == InstructionByte(FIM, 4) &&
      p[22] == JCN_ZERO_UNSET && p[23] == 25 && p[25] == InstructionByte(LDM, 1)
  {
    GenPassLayout(9, 26, 25);
  }

  class MainProgram {
    /** The program under construction. */
    var data: seq<Byte>
    /** The labels, filled in by each pass and used by the next. */
    var checkJumpLabel: nat
    var startJumpLabel: nat
    var handleJumpLabel: nat

    constructor()
      ensures data == [] && checkJumpLabel == 0 && startJumpLabel == 0 && handleJumpLabel == 0
    {
      data := [];
      checkJumpLabel, startJumpLabel, handleJumpLabel := 0, 0, 0;
    }

    /** `add`: one instruction byte is appended; the labels stay. */
    method Add(inst: nat, operand: int)
      modifies this
      ensures data == AddInstruction(old(data), inst, operand)
      ensures checkJumpLabel == old(checkJumpLabel) && startJumpLabel == old(startJumpLabel)
      ensures handleJumpLabel == old(handleJumpLabel)
    {
      data := AddInstruction(data, inst, operand);
    }

    /** mainLoop: call checkJump, then pause and start over. */
    method MainLoop()
      modifies this
      ensures data == old(data) + MainLoopCode(old(checkJumpLabel))
      ensures checkJumpLabel == old(checkJumpLabel) && startJumpLabel == old(startJumpLabel)
      ensures handleJumpLabel == old(handleJumpLabel)
    {
      Add(JMS, checkJumpLabel / 256);
      Add(0, checkJumpLabel);
      SendPause();
    }

    /** The rest of mainLoop: 8 on chip 15's port (the pause signal), then
        a jump back to address 0. */
    method SendPause()
      modifies this
      ensures data == old(data) + [0x24, 0xF0, 0xD8, 0x25, 0xE2, 0x40, 0x00]
      ensures checkJumpLabel == old(checkJumpLabel) && startJumpLabel == old(startJumpLabel)
      ensures handleJumpLabel == old(handleJumpLabel)
    {
      Add(FIM, 4);
      Add(0xF0, 0);
      Add(LDM, 8);
      Add(SRC, 4);
      Add(WRR, 0);

      Add(JUN, 0);
      Add(0, 0);
    }

    /** checkJump: record its label, then test r0 and the jump input. */
    method CheckJump()
      modifies this
      ensures checkJumpLabel == |old(data)|
      ensures data == old(data) + CheckJumpCode(old(handleJumpLabel), old(startJumpLabel))
      ensures startJumpLabel == old(startJumpLabel) && handleJumpLabel == old(handleJumpLabel)
    {
      checkJumpLabel := |data|;
      ReadJumpInput();
      TestJumpInput();
    }

    /** The first half of checkJump: go to handleJump while a jump is under
        way (r0 not zero), else read ROM 0's input port. */
    method ReadJumpInput()
      modifies this
      ensures data == old(data) + [0xB0, 0x1C, old(handleJumpLabel) % 256, 0x24, 0x00, 0x25, 0xEA]
      ensures checkJumpLabel == old(checkJumpLabel) && startJumpLabel == old(startJumpLabel)
      ensures handleJumpLabel == old(handleJumpLabel)
    {
      Add(XCH, 0);
      Add(JCN_ZERO_UNSET, 0);
      Add(NOP, handleJumpLabel);
      Add(FIM, 4);
      Add(0, 0);
      Add(SRC, 4);
      Add(RDR, 0);
    }

    /** The second half of checkJump: rotate the input's bit 0 up three
        times, go to startJump when the result is not zero, else return. */
    method TestJumpInput()
      modifies this
      ensures data == old(data) + [0xF1, 0xF5, 0xF1, 0xF5, 0xF1, 0xF5, 0x1C, old(startJumpLabel) % 256, 0xC0]
      ensures checkJumpLabel == old(checkJumpLabel) && startJumpLabel == old(startJumpLabel)
      ensures handleJumpLabel == old(handleJumpLabel)
    {
      Add(CLC, 0);
      Add(RAL, 0);
      Add(CLC, 0);
      Add(RAL, 0);
      Add(CLC, 0);
      Add(RAL, 0);
      Add(JCN_ZERO_UNSET, 0);
      Add(NOP, startJumpLabel);
      Add(BBL, 0);
    }

    method StartJump()
      modifies this
      ensures startJumpLabel == |old(data)|
      ensures data == old(data) + StartJumpCode
      ensures checkJumpLabel == old(checkJumpLabel) && handleJumpLabel == old(handleJumpLabel)
    {
      startJumpLabel := |data|;
      Add(LDM, 1);
    }

    method HandleJump()
      modifies this
      ensures handleJumpLabel == |old(data)|
      ensures data == old(data) + HandleJumpCode
      ensures checkJumpLabel == old(checkJumpLabel) && startJumpLabel == old(startJumpLabel)
    {
      handleJumpLabel := |data|;
      Add(FIM, 4);
      Add(0, 0);
      Add(SRC, 4);
      Add(WMP, 0);

      Add(CLC, 0);
      Add(RAL, 0);
      Add(XCH, 0);
      Add(BBL, 0);
    }

    /** One pass: the list is cleared first, so a pass's bytes replace the
        previous pass's; the pass uses the old labels and leaves the blocks'
        start indices behind. */
    method Gen()
      modifies this
      ensures data == GenPass(old(checkJumpLabel), old(handleJumpLabel), old(startJumpLabel))
      ensures checkJumpLabel == 9 && startJumpLabel == 25 && handleJumpLabel == 26
    {
      ghost var c, h, s := checkJumpLabel, handleJumpLabel, startJumpLabel;
      data := [];
      MainLoop();
      ghost var m := MainLoopCode(c);
      assert data == [] + m == m && |m| == 9;
      CheckJump();
      ghost var mc := m + CheckJumpCode(h, s);
      assert data == mc && |mc| == 25;
      StartJump();
      assert data == mc + StartJumpCode;
      HandleJump();
    }

    /** `create`: two passes; the result is the second pass, emitted with
        the labels the first pass found, which are final. */
    method Create() returns (r: seq<Byte>)
      modifies this
      ensures r == data == GenPass(9, 26, 25)
      ensures checkJumpLabel == 9 && startJumpLabel == 25 && handleJumpLabel == 26
      ensures |r| == 34 && r[0] == JMS && r[1] == 9 && r[11] == 26 && r[23] == 25
    {
      Gen();
      Gen();
      r := data;
      FinalLabelsResolve();
      GenPassLayout(9, 26, 25);
    }
  }
}
