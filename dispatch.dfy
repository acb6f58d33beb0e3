/** The decoder's per-phase work (src/main/kotlin/cpucore/Decoder.kt,
    `calculateFlags`, `setCurrentInstruction` and
    `decodeCurrentInstruction`). Every phase raises the fetch and execution
    flags of the 8-phase machine cycle; the instruction in progress is
    routed to its handler by its high nybble. The handlers of FIN/JIN, BBL,
    WMP and WRR are not part of this model and leave the decoder as it is. */
module Dispatch {
  import opened Words
  import opened Defines
  import opened Decoders
  import opened JumpFetch
  import opened IoOps
  import opened RegAccum
  import opened Accum

  /** `decodeCurrentInstruction`: route by `currInstruction and 0xf0`. The
      I/O family only asks for one more decode, since its members differ
      in the low nybble. */
  function DecodeStep(s: DecoderState, evalResult: bool): (t: DecoderState)
    ensures t.count == s.count
    ensures t.ctl.inhibitPC == s.ctl.inhibitPC && t.ctl.syncSent == s.ctl.syncSent
    ensures t.ctl.x2IsRead == s.ctl.x2IsRead && t.ctl.x3IsRead == s.ctl.x3IsRead
    ensures Flag(t, Sync) == Flag(s, Sync) && Flag(t, PCInc) == Flag(s, PCInc)
  {
    var opr := OpcodeFamily(s.inst.currInstruction);
    var fullInst := ToSignedByte(s.inst.currInstruction);
    if opr == JCN || opr == JMS || opr == ISZ || opr == JUN then JumpStep(s, evalResult)
    else if opr == XCH then XchStep(s)
    else if opr == LDM then LdmStep(s)
    else if opr == LD then LdStep(s)
    else if opr == INC then IncStep(s)
    else if opr == FIM then FimSrcStep(s, fullInst)
    else if opr == ADD then ArithmeticStep(s, AluIntModeAdd)
    else if opr == SUB then ArithmeticStep(s, AluIntModeSub)
    else if opr == ACC then AccStep(s)
    else if opr == IO then s.(inst := s.inst.(decodeAgain := true))
    else s
  }

  /** The routing table by high nybble: 1, 4, 5 and 7 jump; 2 is FIM/SRC,
      told apart by bit 0; 6 INC, 8 ADD, 9 SUB, 0xA LD, 0xB XCH, 0xD LDM,
      0xF the accumulator group; 0xE only asks for another decode; 0, 3
      and 0xC change nothing here. */
  lemma DispatchTable(s: DecoderState, evalResult: bool)
    ensures var h := HighNybble(s.inst.currInstruction);
            var t := DecodeStep(s, evalResult);
            && (h in {1, 4, 5, 7} ==> t == JumpStep(s, evalResult))
            && (h == 2 ==> t == FimSrcStep(s, s.inst.currInstruction % 2))
            && (h == 6 ==> t == IncStep(s))
            && (h == 8 ==> t == ArithmeticStep(s, AluIntModeAdd))
            && (h == 9 ==> t == ArithmeticStep(s, AluIntModeSub))
            && (h == 0xA ==> t == LdStep(s))
            && (h == 0xB ==> t == XchStep(s))
            && (h == 0xD ==> t == LdmStep(s))
            && (h == 0xE ==> t == s.(inst := s.inst.(decodeAgain := true)))
            && (h == 0xF ==> t == AccStep(s))
            && (h in {0, 3, 0xC} ==> t == s)
  {
    var h := HighNybble(s.inst.currInstruction);
    assert OpcodeFamily(s.inst.currInstruction) == 16 * h;
    if h == 2 {
      var fullInst := ToSignedByte(s.inst.currInstruction);
      FimSrcParity(s, fullInst, s.inst.currInstruction % 2);
    }
  }

  /** FIM/SRC looks at bit 0 of its byte only. */
  lemma FimSrcParity(s: DecoderState, a: int, b: int)
    requires a % 2 == b % 2
    ensures FimSrcStep(s, a) == FimSrcStep(s, b)
  {
  }

  /** Decoding changes the first-byte latch only to latch the instruction
      in progress or when the instruction ends. */
  lemma DecodeLatchesOnlyAtEnds(s: DecoderState, evalResult: bool)
    ensures var t := DecodeStep(s, evalResult);
            t.inst.dblInstruction != s.inst.dblInstruction ==>
              t.inst.dblInstruction == s.inst.currInstruction || t.inst.currInstruction == -1
  {
    var opr := OpcodeFamily(s.inst.currInstruction);
    if opr == JCN || opr == JMS || opr == ISZ || opr == JUN {
      if s.inst.dblInstruction == 0 {
        FirstCycleSpec(s, evalResult);
      } else if s.count.raw == 5 {
        DecisionSpec(s, evalResult);
      } else {
        LoadSpec(s, evalResult);
      }
    } else if opr == FIM {
      var fullInst := ToSignedByte(s.inst.currInstruction);
      FimSrcStepSpec(s, fullInst);
      FimStepSpec(s);
    }
  }

  /** `setCurrentInstruction`: a fresh instruction is the byte fetched; in a
      second cycle it is the first byte latched before. */
  function SetCurrentStep(s: DecoderState, inst: nat, evalResult: bool): (t: DecoderState)
    ensures t.count == s.count && t.ctl.syncSent == s.ctl.syncSent && t.ctl.inhibitPC == s.ctl.inhibitPC
    ensures Flag(t, Sync) == Flag(s, Sync) && Flag(t, PCInc) == Flag(s, PCInc)
  {
    var cur := if s.inst.dblInstruction == 0 then ToInt32(inst) else s.inst.dblInstruction;
    DecodeStep(s.(inst := s.inst.(currInstruction := cur)), evalResult)
  }

  /** In a second cycle the fetched byte is ignored: whatever comes off the
      bus, the instruction that continues is the latched one. */
  lemma SecondCycleIgnoresFetch(s: DecoderState, a: nat, b: nat, evalResult: bool)
    requires s.inst.dblInstruction != 0
    ensures SetCurrentStep(s, a, evalResult) == SetCurrentStep(s, b, evalResult)
  {
  }

  /** In a first cycle a fetched byte is decoded as it is. */
  lemma FirstCycleDecodesFetch(s: DecoderState, inst: nat, evalResult: bool)
    requires s.inst.dblInstruction == 0 && inst < 256
    ensures SetCurrentStep(s, inst, evalResult)
         == DecodeStep(s.(inst := s.inst.(currInstruction := inst)), evalResult)
  {
  }

  /** Whether `calculateFlags` first continues decoding the instruction in
      progress: not at phase 5 (where the fetch decodes), not while a
      look-ahead is pending, and only with an instruction in progress. */
  predicate Continues(s: DecoderState)
  {
    s.count.raw != 5 && !s.inst.decodeAgain && s.inst.currInstruction > 0
  }

  /** The phase schedule of `calculateFlags`, after any continued decode:
      PC out and bus out in phases 0 to 2 (ROM select at 2), bus in and the
      upper instruction nybble in phases 3 and 4 with both chip selects
      when the bus holds the I/O family, the lower nybble and a decode at
      5, the look-ahead decode at 6, and SYNC at 7. */
  function PhaseFlags(s: DecoderState, busValue: nat): (t: DecoderState)
    ensures t.count == s.count && Flag(t, PCInc) == Flag(s, PCInc)
    ensures Flag(t, Sync) == if s.count.raw == 7 then 1 else Flag(s, Sync)
    ensures t.inst.currInstruction == s.inst.currInstruction && t.inst.dblInstruction == s.inst.dblInstruction
    ensures t.ctl == if s.count.raw == 7 then s.ctl.(syncSent := true) else s.ctl
  {
    var c := s.count.raw;
    var fl := s.flags;
    if c == 0 || c == 1 || c == 2 then
      var f1 := if !s.ctl.inhibitPC then fl[PCOut := PhaseOut(c)] else fl;
      var f2 := if c == 2 then f1[CmRom := 1] else f1;
      s.(flags := f2[BusDir := BufDirOut])
    else if c == 3 || c == 4 then
      var f1 := if c == 4 then fl[InstRegLoad := 2][BusDir := BufDirIn] else fl[BusDir := BufDirIn];
      s.(flags := if busValue == 0xE then f1[CmRom := 1][CmRam := 1] else f1)
    else if c == 5 then
      s.(flags := fl[InstRegLoad := 1][DecodeInstruction := 1][BusDir := BufDirOut])
    else if c == 6 then
      var f1 := if s.inst.decodeAgain then fl[DecodeInstruction := 1] else fl;
      s.(flags := f1[BusDir := if s.ctl.x2IsRead then BufDirIn else BufDirOut],
         inst := s.inst.(decodeAgain := false))
    else if c == 7 then
      s.(flags := fl[Sync := 1][BusDir := if s.ctl.x3IsRead then BufDirIn else BufDirOut],
         ctl := s.ctl.(syncSent := true))
    else s
  }

  /** The PC nybble put out in fetch phase `c`, counted from 1. */
  function PhaseOut(c: int): int
  {
    c + 1
  }

  /** `calculateFlags`: it never moves the phase counter, never touches the
      PC-increment flag, and raises SYNC and records it as sent only at
      phase 7. */
  function CalculateFlagsStep(s: DecoderState, busValue: nat): (t: DecoderState)
    ensures t.count == s.count && Flag(t, PCInc) == Flag(s, PCInc)
    ensures Flag(t, Sync) == if s.count.raw == 7 then 1 else Flag(s, Sync)
    ensures t.ctl.syncSent == (s.ctl.syncSent || s.count.raw == 7)
  {
    PhaseFlags(if Continues(s) then DecodeStep(s, false) else s, busValue)
  }

  /** The schedule of one phase, whatever the continued decode did: the
      counter stays; phases 0 to 2 put PC nybble `c` (counted from 1) out
      unless the PC is held and drive the external bus; phase 2 selects the
      ROMs; phases 3 and 4 turn the bus inward and assert both chip selects
      exactly when the bus holds the I/O family (nybble 0xE); phase 4 loads
      the upper and phase 5 the lower instruction nybble, and phase 5
      decodes. */
  lemma FetchSchedule(s: DecoderState, busValue: nat)
    ensures var t := CalculateFlagsStep(s, busValue);
            var c := s.count.raw;
            && t.count == s.count
            && (c in {0, 1, 2} ==> Flag(t, BusDir) == BufDirOut)
            && (c in {0, 1, 2} && !s.ctl.inhibitPC ==> Flag(t, PCOut) == c + 1)
            && (c == 2 ==> Flag(t, CmRom) == 1)
            && (c in {3, 4} ==> Flag(t, BusDir) == BufDirIn)
            && (c in {3, 4} && busValue == 0xE ==> Flag(t, CmRom) == 1 && Flag(t, CmRam) == 1)
            && (c == 4 ==> Flag(t, InstRegLoad) == 2)
            && (c == 5 ==> Flag(t, InstRegLoad) == 1 && Flag(t, DecodeInstruction) == 1
                           && Flag(t, BusDir) == BufDirOut && t == PhaseFlags(s, busValue))
  {
  }

  /** Phase 6 honours a pending look-ahead exactly once: it decodes again
      and clears the request, so the request lasts one phase. The bus
      direction follows the phase-2 read marker. */
  lemma LookaheadLastsOnePhase(s: DecoderState, busValue: nat)
    requires s.count.raw == 6
    ensures var t := CalculateFlagsStep(s, busValue);
            && !t.inst.decodeAgain
            && (s.inst.decodeAgain ==> Flag(t, DecodeInstruction) == 1 && t == PhaseFlags(s, busValue))
            && Flag(t, BusDir) == (if t.ctl.x2IsRead then BufDirIn else BufDirOut)
            && t.ctl.x2IsRead == s.ctl.x2IsRead
  {
  }

  /** Phase 7 raises SYNC and records that a sync has been sent; the bus
      direction follows the phase-3 read marker. */
  lemma SyncAtPhase7(s: DecoderState, busValue: nat)
    requires s.count.raw == 7
    ensures var t := CalculateFlagsStep(s, busValue);
            && Flag(t, Sync) == 1 && t.ctl.syncSent
            && Flag(t, BusDir) == (if t.ctl.x3IsRead then BufDirIn else BufDirOut)
  {
  }

  /** No continued decode happens without an instruction in progress, at
      phase 5, or with a look-ahead pending. */
  lemma ContinuesOnlyWithInstruction(s: DecoderState, busValue: nat)
    requires s.inst.currInstruction <= 0 || s.count.raw == 5 || s.inst.decodeAgain
    ensures CalculateFlagsStep(s, busValue) == PhaseFlags(s, busValue)
  {
  }

  /** `decodeCurrentInstruction`. */
  method DecodeCurrentInstruction(d: Decoder, evalResult: bool)
    requires d.TableValid()
    modifies d, d.flags.Values
    ensures d.State() == DecodeStep(old(d.State()), evalResult)
  {
    var opr := OpcodeFamily(d.currInstruction);
    var fullInst := ToSignedByte(d.currInstruction);
    if opr == JCN || opr == JMS || opr == ISZ || opr == JUN {
      HandleJump(d, fullInst, evalResult);
    } else if opr == XCH {
      HandleXCH(d);
    } else if opr == LDM {
      HandleLDM(d);
    } else if opr == LD {
      HandleLD(d);
    } else if opr == INC {
      HandleINC(d);
    } else if opr == FIM {
      HandleFimSrc(d, fullInst);
    } else if opr == ADD {
      HandleADD(d, fullInst);
    } else if opr == SUB {
      HandleSUB(d, fullInst);
    } else if opr == ACC {
      HandleACC(d);
    } else if opr == IO {
      d.AssignDecodeAgain(true);
    }
  }

  /** `setCurrentInstruction`. */
  method SetCurrentInstruction(d: Decoder, inst: nat, evalResult: bool)
    requires d.TableValid()
    modifies d, d.flags.Values
    ensures d.State() == SetCurrentStep(old(d.State()), inst, evalResult)
  {
    if d.dblInstruction == 0 {
      d.AssignCurrInstruction(ToInt32(inst));
    } else {
      d.AssignCurrInstruction(d.dblInstruction);
    }
    DecodeCurrentInstruction(d, evalResult);
  }

  /** `calculateFlags`, given the value on the internal bus. */
  method CalculateFlags(d: Decoder, busValue: nat)
    requires d.TableValid()
    modifies d, d.flags.Values
    ensures d.State() == CalculateFlagsStep(old(d.State()), busValue)
  {
    if d.clkCount.raw != 5 && !d.decodeAgain && d.currInstruction > 0 {
      DecodeCurrentInstruction(d, false);
    }
    WritePhaseFlags(d, busValue);
  }

  /** The `when (clkCount.raw)` of `calculateFlags`. */
  method WritePhaseFlags(d: Decoder, busValue: nat)
    requires d.TableValid()
    modifies d, d.flags.Values
    ensures d.State() == PhaseFlags(old(d.State()), busValue)
  {
    var c := d.clkCount.raw;
    if c == 0 || c == 1 || c == 2 {
      if !d.inhibitPC {
        d.WriteFlag(PCOut, PhaseOut(c));
      }
      if c == 2 {
        d.WriteFlag(CmRom, 1);
      }
      d.WriteFlag(BusDir, BufDirOut);
    } else if c == 3 || c == 4 {
      if c == 4 {
        d.WriteFlag(InstRegLoad, 2);
      }
      d.WriteFlag(BusDir, BufDirIn);
      if busValue == 0xE {
        d.WriteFlag(CmRom, 1);
        d.WriteFlag(CmRam, 1);
      }
    } else if c == 5 {
      d.WriteFlag(InstRegLoad, 1);
      d.WriteFlag(DecodeInstruction, 1);
      d.WriteFlag(BusDir, BufDirOut);
    } else if c == 6 {
      if d.decodeAgain {
        d.WriteFlag(DecodeInstruction, 1);
        d.AssignDecodeAgain(false);
      }
      if d.x2IsRead {
        d.WriteFlag(BusDir, BufDirIn);
      } else {
        d.WriteFlag(BusDir, BufDirOut);
      }
    } else if c == 7 {
      d.WriteFlag(Sync, 1);
      d.AssignSyncSent(true);
      if d.x3IsRead {
        d.WriteFlag(BusDir, BufDirIn);
      } else {
        d.WriteFlag(BusDir, BufDirOut);
      }
    }
  }
}
