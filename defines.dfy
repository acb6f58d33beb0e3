/** Opcodes, ALU modes, status-flag positions and the control flags of the
    instruction decoder (src/main/kotlin/cpucore/Defines.kt). Opcodes are
    the full 8-bit instruction bytes; a family shares its high nybble. */
module Defines {
  import opened Words

  const NOP: int := 0x00
  const JCN: int := 0x10
  const FIM: int := 0x20
  const SRC: int := 0x21
  const FIN: int := 0x30
  const JIN: int := 0x31
  const JUN: int := 0x40
  const JMS: int := 0x50
  const INC: int := 0x60
  const ISZ: int := 0x70
  const ADD: int := 0x80
  const SUB: int := 0x90
  const LD: int := 0xA0
  const XCH: int := 0xB0
  const BBL: int := 0xC0
  const LDM: int := 0xD0
  const IO: int := 0xE0
  const WRM: int := 0xE0
  const WMP: int := 0xE1
  const WRR: int := 0xE2
  const WR0: int := 0xE4
  const WR1: int := 0xE5
  const WR2: int := 0xE6
  const WR3: int := 0xE7
  const SBM: int := 0xE8
  const RDM: int := 0xE9
  const RDR: int := 0xEA
  const ADM: int := 0xEB
  const RD0: int := 0xEC
  const RD1: int := 0xED
  const RD2: int := 0xEE
  const RD3: int := 0xEF
  const ACC: int := 0xF0

  /** The accumulator group: `ACC` OR-ed with a sub-operation 0..0xD in
      its low nybble. */
  const CLB: int := 0xF0
  const CLC: int := 0xF1
  const IAC: int := 0xF2
  const CMC: int := 0xF3
  const CMA: int := 0xF4
  const RAL: int := 0xF5
  const RAR: int := 0xF6
  const TCC: int := 0xF7
  const DAC: int := 0xF8
  const TCS: int := 0xF9
  const STC: int := 0xFA
  const DAA: int := 0xFB
  const KBP: int := 0xFC
  const DCL: int := 0xFD

  /** JCN condition helpers: bits 0..2 pick test, carry and zero; bit 3
      inverts the condition. */
  const JCN_TEST_SET: int := 0x11
  const JCN_CARRY_SET: int := 0x12
  const JCN_ZERO_SET: int := 0x14
  const JCN_TEST_UNSET: int := 0x19
  const JCN_CARRY_UNSET: int := 0x1A
  const JCN_ZERO_UNSET: int := 0x1C

  const AluIntModeNone: int := 0
  const AluIntModeAdd: int := 1
  const AluIntModeSub: int := 2

  const FlagPosZero: int := 0x2
  const FlagPosCarry: int := 0x4

  /** Directions of the external bus buffer. Their numeric values are not
      part of this model; any three distinct values behave alike. */
  const BufDirNone: int := 0
  const BufDirIn: int := 1
  const BufDirOut: int := 2

  datatype FlagType =
    | Sync | BusDir | BusTurnAround | InstRegOut | InstRegLoad | PCOut | PCLoad | PCInc
    | AccOut | AccLoad | AccInst | TempLoad | TempOut | AccTempSwap | AluOut | AluEval
    | AluMode | IndexSelect | IndexLoad | ScratchPadOut | ScratchPadInc | StackPush
    | StackPop | DecodeInstruction | CmRom | CmRam | EvaluateJCN | EvaluateISZ
    | END

  /** `keys` holds every flag the decoder creates: all kinds but the end
      marker. */
  ghost predicate AllFlags(keys: set<FlagType>)
  {
    forall f :: f in keys <==> f != END
  }

  const FlagCount: int := 28

  /** The order in which the decoder creates its flags, which is also the
      order in which its table is walked: flag `i` of that order. */
  function FlagAt(i: int): FlagType
  {
    if i == 0 then Sync
    else if i == 1 then BusDir
    else if i == 2 then BusTurnAround
    else if i == 3 then InstRegOut
    else if i == 4 then InstRegLoad
    else if i == 5 then PCOut
    else if i == 6 then PCLoad
    else if i == 7 then PCInc
    else if i == 8 then AccOut
    else if i == 9 then AccLoad
    else if i == 10 then AccInst
    else if i == 11 then TempOut
    else if i == 12 then TempLoad
    else if i == 13 then AccTempSwap
    else if i == 14 then AluOut
    else if i == 15 then AluEval
    else if i == 16 then AluMode
    else if i == 17 then IndexSelect
    else if i == 18 then IndexLoad
    else if i == 19 then ScratchPadOut
    else if i == 20 then ScratchPadInc
    else if i == 21 then StackPush
    else if i == 22 then StackPop
    else if i == 23 then DecodeInstruction
    else if i == 24 then CmRom
    else if i == 25 then CmRam
    else if i == 26 then EvaluateJCN
    else if i == 27 then EvaluateISZ
    else END
  }

  /** Position of a flag in the creation order; the end marker comes last. */
  function FlagIndex(f: FlagType): nat
  {
    match f
    case Sync => 0
    case BusDir => 1
    case BusTurnAround => 2
    case InstRegOut => 3
    case InstRegLoad => 4
    case PCOut => 5
    case PCLoad => 6
    case PCInc => 7
    case AccOut => 8
    case AccLoad => 9
    case AccInst => 10
    case TempOut => 11
    case TempLoad => 12
    case AccTempSwap => 13
    case AluOut => 14
    case AluEval => 15
    case AluMode => 16
    case IndexSelect => 17
    case IndexLoad => 18
    case ScratchPadOut => 19
    case ScratchPadInc => 20
    case StackPush => 21
    case StackPop => 22
    case DecodeInstruction => 23
    case CmRom => 24
    case CmRam => 25
    case EvaluateJCN => 26
    case EvaluateISZ => 27
    case END => FlagCount
  }

  /** `FlagAt` and `FlagIndex` are inverse: the creation order lists every
      flag but the end marker exactly once. */
  lemma FlagOrderInverse(i: int, f: FlagType)
    ensures 0 <= i < FlagCount ==> FlagAt(i) != END && FlagIndex(FlagAt(i)) == i
    ensures f != END ==> FlagIndex(f) < FlagCount && FlagAt(FlagIndex(f)) == f
    ensures f == END ==> FlagIndex(f) == FlagCount
  {
  }

  /** The value a flag is created with and falls back to on every reset. */
  function ResetValue(f: FlagType): (r: int)
    ensures r == -1 <==> f == AccInst || f == IndexSelect
    ensures r != -1 ==> r == 0 && (f == BusDir ==> r == BufDirNone)
  {
    match f
    case BusDir => BufDirNone
    case AccInst => -1
    case IndexSelect => -1
    case _ => 0
  }

  /** Display name of each flag, as the decoder creates it. */
  function FlagName(f: FlagType): (r: string)
    ensures f == END <==> r == ""
    ensures f != END ==> 4 <= |r| <= 6 && r[0] != ' '
  {
    match f
    case Sync => "SYNC"
    case BusDir => "BDIR"
    case BusTurnAround => "BTA "
    case InstRegOut => "INSO  "
    case InstRegLoad => "INSL  "
    case PCOut => "PCO "
    case PCLoad => "PCL "
    case PCInc => "PCI "
    case AccOut => "ACCO  "
    case AccLoad => "ACCL  "
    case AccInst => "ACCI  "
    case TempOut => "TMPO  "
    case TempLoad => "TMPL  "
    case AccTempSwap => "SWAP  "
    case AluOut => "ALUO"
    case AluEval => "ALUE"
    case AluMode => "ALUM"
    case IndexSelect => "SPI "
    case IndexLoad => "SPL4"
    case ScratchPadOut => "SPO "
    case ScratchPadInc => "SP+ "
    case StackPush => "PUSH"
    case StackPop => "POP "
    case DecodeInstruction => "DEC "
    case CmRom => "ROM "
    case CmRam => "RAM "
    case EvaluateJCN => "EJCN"
    case EvaluateISZ => "EISZ"
    case END => ""
  }

  /** One decoder control flag: a name, a current value and the value it was
      created with, to which `Reset` returns. `kind` records which flag of
      the decoder's table this object is. */
  class DecoderFlag {
    ghost const kind: FlagType
    const name: string
    var value: int
    const changed: bool
    const resetValue: int

    constructor (ghost kind: FlagType, name: string, value: int, changed: bool)
      ensures this.kind == kind && this.name == name && this.changed == changed
      ensures this.value == value && resetValue == value
    {
      this.kind := kind;
      this.name := name;
      this.value := value;
      this.changed := changed;
      resetValue := value;
    }

    method Reset()
      modifies this
      ensures value == resetValue
    {
      value := resetValue;
    }

    method WriteFlag(value: int)
      modifies this
      ensures this.value == value
    {
      this.value := value;
    }
  }

  /** `x and 0xf0`: the family opcode an instruction byte belongs to. The
      decoder compares it with the family constants above. */
  function OpcodeFamily(x: int): (r: int)
    ensures 0 <= r < 256 && r % 16 == 0
    ensures 0 <= x < 256 ==> r == x - x % 16
    ensures r / 16 == HighNybble(x)
  {
    16 * HighNybble(x)
  }
}
