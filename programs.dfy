/** Program builders (src/main/kotlin/instruction/Programs.kt): a program is
    a growing list of unsigned bytes, one per `addInstruction`, patched in
    place where a forward jump target becomes known, and padded with zero
    bytes up to a 256-byte ROM page. */
module Programs {
  import opened Words
  import opened Defines

  /** Bitwise OR of two naturals, bit by bit from the bottom. */
  function BitOr(a: nat, b: nat): nat
    decreases a + b
  {
    if a == 0 then b
    else if b == 0 then a
    else 2 * BitOr(a / 2, b / 2) + (if a % 2 == 1 || b % 2 == 1 then 1 else 0)
  }

  /** OR of numbers whose set bits do not overlap (all of `a`'s lie at or
      above bit `k`, all of `b`'s below it) is their sum. */
  lemma {:induction false} BitOrDisjoint(a: nat, b: nat, k: nat)
    requires a % Pow2(k) == 0 && b < Pow2(k)
    ensures BitOr(a, b) == a + b
    decreases a + b
  {
    if a != 0 && b != 0 {
      var m := Pow2(k - 1);
      assert Pow2(k) == 2 * m;
      DivHalf(a, m);
      BitOrDisjoint(a / 2, b / 2, k - 1);
    }
  }

  lemma DivHalf(a: nat, m: nat)
    requires m >= 1 && a % (2 * m) == 0
    ensures a % 2 == 0 && (a / 2) % m == 0
  {
    var q := a / (2 * m);
    assert a == 2 * m * q;
    assert a == 2 * (m * q);
    ModUnique(a / 2 * 1, 1, a / 2, 0);
    assert a / 2 == m * q;
    ModUnique(a / 2, m, q, 0);
  }

  /** The byte `addInstruction(data, inst, operand)` appends: `operand` is
      widened with `Int.toUInt()` (two's complement, 32 bits), OR-ed into
      `inst`, and cut to its low eight bits by `toUByte()`. The low eight
      bits of an OR are the OR of the low eight bits, so the byte is the OR
      of the two low bytes (`InstructionByteIsOr`); the common shapes are
      computed directly: an opcode with a clear low nybble and an operand
      0..15 give opcode plus operand, opcode 0 gives the operand's low byte,
      and operand 0 leaves a one-byte opcode as it is. */
  function InstructionByte(inst: nat, operand: int): (b: Byte)
    ensures inst < 256 && inst % 16 == 0 && 0 <= operand < 16 ==> b == inst + operand
    ensures inst == 0 ==> b == operand % 256
    ensures inst < 256 && operand == 0 ==> b == inst
  {
    var x, y := inst % 256, ToUInt32Int(operand) % 256;
    if y == 0 then x
    else if x == 0 then y
    else if x % 16 == 0 && y < 16 then x + y
    else if x % 16 == 1 && y < 16 && y % 2 == 0 then x + y
    else BitOr(x, y) % 256
  }

  /** `InstructionByte` is the bitwise OR of the opcode's and the widened
      operand's low bytes. */
  lemma InstructionByteIsOr(inst: nat, operand: int)
    ensures InstructionByte(inst, operand) == BitOr(inst % 256, ToUInt32Int(operand) % 256) % 256
  {
    OrShortcuts(inst % 256, ToUInt32Int(operand) % 256);
  }

  /** The cases `InstructionByte` computes without `BitOr`. */
  lemma OrShortcuts(x: nat, y: nat)
    requires x < 256 && y < 256
    ensures y == 0 ==> BitOr(x, y) % 256 == x
    ensures x == 0 ==> BitOr(x, y) % 256 == y
    ensures x % 16 == 0 && y < 16 ==> BitOr(x, y) == x + y
    ensures x % 16 == 1 && y < 16 && y % 2 == 0 ==> BitOr(x, y) == x + y
  {
    if y != 0 && x != 0 && y < 16 {
      if x % 16 == 0 {
        OrIntoClearNybble(x, y);
      } else if x % 16 == 1 && y % 2 == 0 {
        OrIntoOddNybble(x, y);
      }
    }
  }

  lemma OrIntoClearNybble(x: nat, y: nat)
    requires x % 16 == 0 && y < 16
    ensures BitOr(x, y) == x + y
  {
    SmallPowers();
    BitOrDisjoint(x, y, 4);
  }

  lemma OrIntoOddNybble(x: nat, y: nat)
    requires x % 16 == 1 && y < 16 && y % 2 == 0 && y != 0
    ensures BitOr(x, y) == x + y
  {
    var q, h := x / 16, y / 2;
    assert x == 16 * q + 1 && y == 2 * h && h < 8;
    assert x / 2 == 8 * q;
    assert (8 * q) % 8 == 0;
    assert BitOr(x, y) == 2 * BitOr(8 * q, h) + 1;
    assert Pow2(3) == 8;
    BitOrDisjoint(8 * q, h, 3);
  }

  /** `Int.toUInt()`: the two's-complement bit pattern of `x`, 32 bits wide.
      It keeps the low byte. */
  function ToUInt32Int(x: int): (r: nat)
    ensures r < 0x1_0000_0000 && r % 256 == x % 256
    ensures 0 <= x < 0x1_0000_0000 ==> r == x
  {
    LowByteOfWide(x);
    x % 0x1_0000_0000
  }

  lemma LowByteOfWide(x: int)
    ensures (x % 0x1_0000_0000) % 256 == x % 256
  {
    var q, r := x / 0x1_0000_0000, x % 0x1_0000_0000;
    assert x == 256 * (0x100_0000 * q) + r;
    var a, c := r / 256, r % 256;
    assert x == 256 * (0x100_0000 * q + a) + c;
    ModUniqueInt(x, 0x100_0000 * q + a, c);
  }

  lemma ModUniqueInt(x: int, a: int, r: int)
    requires x == 256 * a + r && 0 <= r < 256
    ensures x % 256 == r
  {
  }

  /** `addInstruction`: exactly one byte is appended, whatever the operand,
      and the bytes already there are kept. */
  function AddInstruction(data: seq<Byte>, inst: nat, operand: int): (r: seq<Byte>)
    ensures |r| == |data| + 1 && r[|data|] == InstructionByte(inst, operand)
    ensures forall k :: 0 <= k < |data| ==> r[k] == data[k]
  {
    data + [InstructionByte(inst, operand)]
  }

  /** The address byte of a jump, `addInstruction(data, target.toUInt())`:
      the low byte of the target. */
  lemma JumpTargetByte(target: nat)
    ensures InstructionByte(ToUInt32Int(target), 0) == target % 256
  {
  }

  /** `fillEmptyProgramData`: zero bytes are appended until the list holds
      a whole 256-byte page; a longer list is left alone. */
  method FillEmptyProgramData(data: seq<Byte>) returns (r: seq<Byte>)
    ensures |r| == if |data| < 256 then 256 else |data|
    ensures forall k :: 0 <= k < |data| ==> r[k] == data[k]
    ensures forall k :: |data| <= k < |r| ==> r[k] == 0
  {
    r := data;
    var i := |data|;
    while i < 256
      invariant |data| <= i && (i <= 256 || i == |data|)
      invariant |r| == i
      invariant forall k :: 0 <= k < |data| ==> r[k] == data[k]
      invariant forall k :: |data| <= k < i ==> r[k] == 0
    {
      r := r + [0];
      i := i + 1;
    }
  }

  /** The five instructions of pass `i` of `genLEDCount`: select chip 2 by
      way of r2, load `i` and write it to that ROM's output port. */
  function LedCountPass(i: int): seq<Byte>
  {
    [InstructionByte(LDM, 2), InstructionByte(XCH, 2), InstructionByte(LDM, i),
     InstructionByte(SRC, 2), InstructionByte(WRR, 0)]
  }

  /** `genLEDCount`: sixteen passes writing 0..15 to the port, a jump back
      to address 0, then zero padding to 256 bytes. */
  method GenLEDCount() returns (r: seq<Byte>)
    ensures |r| == 256
    ensures forall i :: 0 <= i < 16 ==> r[5 * i..5 * i + 5] == LedCountPass(i)
    ensures forall i :: 0 <= i < 16 ==> r[5 * i + 2] == LDM + i
    ensures r[80] == JUN && r[81] == 0
    ensures forall k :: 82 <= k < 256 ==> r[k] == 0
  {
    var data: seq<Byte> := [];
    for i := 0 to 16
      invariant |data| == 5 * i
      invariant forall j :: 0 <= j < i ==> data[5 * j..5 * j + 5] == LedCountPass(j)
    {
      ghost var before := data;
      data := AddInstruction(data, LDM, 2);
      data := AddInstruction(data, XCH, 2);
      data := AddInstruction(data, LDM, i);
      data := AddInstruction(data, SRC, 2);
      data := AddInstruction(data, WRR, 0);
      assert data == before + LedCountPass(i);
      forall j | 0 <= j < i + 1
        ensures data[5 * j..5 * j + 5] == LedCountPass(j)
      {
        if j < i {
          assert data[5 * j..5 * j + 5] == before[5 * j..5 * j + 5];
        }
      }
    }
    data := AddInstruction(data, JUN, 0);
    data := AddInstruction(data, 0, 0);
    r := FillEmptyProgramData(data);
    forall i | 0 <= i < 16
      ensures r[5 * i..5 * i + 5] == LedCountPass(i) && r[5 * i + 2] == LDM + i
    {
      assert r[5 * i..5 * i + 5] == data[5 * i..5 * i + 5];
      assert r[5 * i + 2] == LedCountPass(i)[2];
    }
  }

  /** `genLEDCountUsingAdd`: set up r2 (chip 0) and r4 (the increment 1),
      then loop from `loopStart` = 5: write the accumulator to the ROM
      port, add r4, write it to the RAM port and RAM memory, signal the
      end of a cycle on chip 15, and jump back to `loopStart`. */
  method GenLEDCountUsingAdd() returns (r: seq<Byte>)
    ensures |r| == 256
    ensures r[0] == InstructionByte(LDM, 0) && r[3] == InstructionByte(XCH, 4)
    ensures r[5] == InstructionByte(SRC, 2) && r[7] == InstructionByte(ADD, 4)
    ensures r[21] == InstructionByte(JUN, 0) && r[22] == 5
    ensures r[..23] == [0xD0, 0xB2, 0xD1, 0xB4, 0xD0,
                        0x23, 0xE2, 0x84, 0x23, 0xE1, 0x23, 0xE0,
                        0xB4, 0xDF, 0xB2, 0xD8, 0x23, 0xE2, 0xD0, 0xB2, 0xB4, 0x40, 0x05]
    ensures forall k :: 23 <= k < 256 ==> r[k] == 0
  {
    var data: seq<Byte> := [];
    data := AddInstruction(data, LDM, 0);
    data := AddInstruction(data, XCH, 2);
    data := AddInstruction(data, LDM, 1);
    data := AddInstruction(data, XCH, 4);
    data := AddInstruction(data, LDM, 0);

    assert data == [0xD0, 0xB2, 0xD1, 0xB4, 0xD0];
    var loopStart := |data|;
    data := AddInstruction(data, SRC, 2);
    data := AddInstruction(data, WRR, 0);
    data := AddInstruction(data, ADD, 4);
    data := AddInstruction(data, SRC, 2);
    data := AddInstruction(data, WMP, 0);
    data := AddInstruction(data, SRC, 2);
    data := AddInstruction(data, WRM, 0);
    assert data == [0xD0, 0xB2, 0xD1, 0xB4, 0xD0, 0x23, 0xE2, 0x84, 0x23, 0xE1, 0x23, 0xE0];

    data := AddInstruction(data, XCH, 4);

    data := AddInstruction(data, LDM, 15);
    data := AddInstruction(data, XCH, 2);
    data := AddInstruction(data, LDM, 8);
    data := AddInstruction(data, SRC, 2);
    data := AddInstruction(data, WRR, 0);
    assert data == [0xD0, 0xB2, 0xD1, 0xB4, 0xD0, 0x23, 0xE2, 0x84, 0x23, 0xE1, 0x23, 0xE0,
                    0xB4, 0xDF, 0xB2, 0xD8, 0x23, 0xE2];

    data := AddInstruction(data, LDM, 0);
    data := AddInstruction(data, XCH, 2);

    data := AddInstruction(data, XCH, 4);

    data := AddInstruction(data, JUN, 0);
    JumpTargetByte(loopStart);
    data := AddInstruction(data, ToUInt32Int(loopStart), 0);
    assert data == [0xD0, 0xB2, 0xD1, 0xB4, 0xD0, 0x23, 0xE2, 0x84, 0x23, 0xE1, 0x23, 0xE0,
                    0xB4, 0xDF, 0xB2, 0xD8, 0x23, 0xE2, 0xD0, 0xB2, 0xB4, 0x40, 0x05];
    r := FillEmptyProgramData(data);
    assert r[..23] == data;
  }

  /** The first eight bytes of `genShifter(steps)`: r8 := 15 (the chip
      that is told a cycle is done), then from `start` = 2 the outer loop
      selects chip 0 in r2, stores the loop counter 16 - `steps` in RAM
      status character 0 and loads the first shift value 1. */
  method ShifterSetup(steps: int) returns (data: seq<Byte>, start: nat)
    ensures start == 2
    ensures data == [0xDF, 0xB8, 0xD0, 0xB2, InstructionByte(LDM, 16 - steps), 0x21, 0xE4, 0xD1]
  {
    data := [];
    data := AddInstruction(data, LDM, 15);
    data := AddInstruction(data, XCH, 8);

    start := |data|;
    data := AddInstruction(data, LDM, 0);
    data := AddInstruction(data, XCH, 2);

    data := AddInstruction(data, LDM, 16 - steps);
    data := AddInstruction(data, SRC, 0);
    data := AddInstruction(data, WR0, 0);

    data := AddInstruction(data, LDM, 1);
  }

  /** The inner loop of `genShifter`, from `loopStart`: write the shift
      value to the current ROM port, rotate it left, write 8 to chip 15's
      port, and unless the value has become zero jump back to `loopStart`;
      the zero test's target is patched to the index just past the loop. */
  method ShifterInnerLoop(data: seq<Byte>) returns (r: seq<Byte>)
    ensures r == data + [0x23, 0xE2, 0xF5, 0xB4, 0xD8, 0x29, 0xE2, 0xB4, 0x14,
                         (|data| + 12) % 256, 0x40, |data| % 256]
  {
    r := data;
    var loopStart := |r|;
    r := AddInstruction(r, SRC, 2);
    r := AddInstruction(r, WRR, 0);
    r := AddInstruction(r, RAL, 0);

    r := AddInstruction(r, XCH, 4);

    r := AddInstruction(r, LDM, 8);
    r := AddInstruction(r, SRC, 8);
    r := AddInstruction(r, WRR, 0);

    r := AddInstruction(r, XCH, 4);
    r := AddInstruction(r, JCN, 4);
    assert r == data + [0x23, 0xE2, 0xF5, 0xB4, 0xD8, 0x29, 0xE2, 0xB4, 0x14];

    var jumpLoc := |r|;
    r := AddInstruction(r, NOP, 0);

    r := AddInstruction(r, JUN, 0);
    JumpTargetByte(loopStart);
    r := AddInstruction(r, ToUInt32Int(loopStart), 0);
    assert r == data + [0x23, 0xE2, 0xF5, 0xB4, 0xD8, 0x29, 0xE2, 0xB4, 0x14, 0, 0x40, |data| % 256];

    r := r[jumpLoc := |r| % 256];
  }

  /** The loop check of `genShifter`: clear the carry and the port, count
      the loop counter in RAM status character 0 up, jump back to `start`
      when it wraps to zero, otherwise store it, move on to the next chip
      and restart the inner loop at `loopStart` with shift value 1. */
  method ShifterLoopCheck(data: seq<Byte>, start: nat, loopStart: nat) returns (r: seq<Byte>)
    ensures r == data + [0xF1, 0xD0, 0x23, 0xE2, 0x21, 0xEC, 0xB5, 0x65, 0xB5, 0x14, start % 256,
                         0x21, 0xE4, 0x62, 0xD1, 0x40, loopStart % 256]
  {
    r := data;
    r := AddInstruction(r, CLC, 0);
    r := AddInstruction(r, LDM, 0);
    r := AddInstruction(r, SRC, 2);
    r := AddInstruction(r, WRR, 0);

    r := AddInstruction(r, SRC, 0);
    r := AddInstruction(r, RD0, 0);
    r := AddInstruction(r, XCH, 5);
    r := AddInstruction(r, INC, 5);
    r := AddInstruction(r, XCH, 5);
    r := AddInstruction(r, JCN, 4);
    r := AddInstruction(r, NOP, start);

    r := AddInstruction(r, SRC, 0);
    r := AddInstruction(r, WR0, 0);
    r := AddInstruction(r, INC, 2);

    r := AddInstruction(r, LDM, 1);

    r := AddInstruction(r, JUN, 0);
    JumpTargetByte(loopStart);
    r := AddInstruction(r, ToUInt32Int(loopStart), 0);
  }

  /** `genShifter(steps)`: the set-up, the inner loop from 8 and the loop
      check from 20, then zero padding to 256 bytes. */
  method GenShifter(steps: int) returns (r: seq<Byte>)
    ensures |r| == 256
    ensures r[4] == InstructionByte(LDM, 16 - steps)
    ensures 1 <= steps <= 16 ==> r[4] == LDM + (16 - steps)
    ensures r[16] == InstructionByte(JCN, 4) && r[17] == 20 && r[20] == CLC
    ensures r[18] == JUN && r[19] == 8 && r[8] == InstructionByte(SRC, 2)
    ensures r[29] == InstructionByte(JCN, 4) && r[30] == 2 && r[2] == LDM
    ensures r[35] == JUN && r[36] == 8
    ensures r[..37] == [0xDF, 0xB8, 0xD0, 0xB2, InstructionByte(LDM, 16 - steps), 0x21, 0xE4, 0xD1]
                     + [0x23, 0xE2, 0xF5, 0xB4, 0xD8, 0x29, 0xE2, 0xB4, 0x14, 20, 0x40, 8]
                     + [0xF1, 0xD0, 0x23, 0xE2, 0x21, 0xEC, 0xB5, 0x65, 0xB5, 0x14, 2,
                        0x21, 0xE4, 0x62, 0xD1, 0x40, 8]
    ensures forall k :: 37 <= k < 256 ==> r[k] == 0
  {
    var data, start := ShifterSetup(steps);
    var loopStart := |data|;
    data := ShifterInnerLoop(data);
    data := ShifterLoopCheck(data, start, loopStart);
    r := FillEmptyProgramData(data);
    assert r[..37] == data;
  }
}
