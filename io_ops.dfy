/** Decoder handlers for FIM/SRC and the I/O group
    (src/main/kotlin/cpucore/IoOps.kt). FIM fetches a byte into a register
    pair over two instruction cycles; SRC sends a register pair to the
    memory chips; the write, read, SBM and ADM handlers drive or load the
    accumulator over the bus in the execution phases. A pair is named by
    bits 1..3 of the operand: registers `2k` and `2k + 1`. */
module IoOps {
  import opened Words
  import opened Defines
  import opened Decoders

  /** FIM, first cycle: at phase 6 select the even register of the pair
      and remember the instruction as the first byte of a two-cycle
      instruction. Second cycle: at phase 4 load the even register and
      select the odd one; at phase 5 load the odd register, forget the first
      byte and finish. */
  function FimStep(s: DecoderState): (t: DecoderState)
    ensures t.count == s.count && t.ctl == s.ctl && t.inst.decodeAgain == s.inst.decodeAgain
    ensures OnlyWrites(s, t, {IndexSelect, IndexLoad})
  {
    var cur := s.inst.currInstruction;
    if s.inst.dblInstruction == 0 then
      if s.count.raw == 6 then
        s.(flags := s.flags[IndexSelect := PairBase(cur)], inst := s.inst.(dblInstruction := cur))
      else s
    else if s.count.raw == 4 then
      s.(flags := s.flags[IndexLoad := 1][IndexSelect := PairTop(cur)])
    else if s.count.raw == 5 then
      s.(flags := s.flags[IndexLoad := 1], inst := s.inst.(dblInstruction := 0, currInstruction := -1))
    else s
  }

  /** FIM keeps the counter and control markers, selects only registers of
      its pair, latches the first byte exactly when its first cycle reaches
      phase 6 and ends at phase 5 of its second cycle. */
  lemma FimStepSpec(s: DecoderState)
    ensures FimStep(s).count == s.count && FimStep(s).ctl == s.ctl && FimStep(s).inst.decodeAgain == s.inst.decodeAgain
    // A register selected here is always one of the pair the operand names.
    ensures Flag(FimStep(s), IndexSelect) != Flag(s, IndexSelect) ==>
              Flag(FimStep(s), IndexSelect) / 2 == LowNybble(s.inst.currInstruction) / 2
    // The first byte is latched at phase 6 and forgotten when FIM ends.
    ensures FimStep(s).inst.dblInstruction != s.inst.dblInstruction ==>
              (s.inst.dblInstruction == 0 && s.count.raw == 6 && FimStep(s).inst.dblInstruction == s.inst.currInstruction)
              || (s.inst.dblInstruction != 0 && s.count.raw == 5 && FimStep(s).inst.dblInstruction == 0)
    ensures FimStep(s).inst.currInstruction != s.inst.currInstruction ==>
              FimStep(s).inst.currInstruction == -1 && s.inst.dblInstruction != 0 && s.count.raw == 5
    ensures s.inst.dblInstruction != 0 && s.count.raw in {4, 5} ==> Flag(FimStep(s), IndexLoad) == 1
  {
    PairBaseOfPair(s.inst.currInstruction);
  }

  /** SRC: select and drive the even register of the pair and raise both
      chip-select flags (6); select and drive the odd register and finish
      (7). */
  function SrcStep(s: DecoderState): (t: DecoderState)
    ensures KeepsLatches(s, t)
    ensures OnlyWrites(s, t, {IndexSelect, ScratchPadOut, CmRom, CmRam})
  {
    var cur := s.inst.currInstruction;
    if s.count.raw == 6 then
      s.(flags := s.flags[IndexSelect := PairBase(cur)][ScratchPadOut := 1][CmRom := 1][CmRam := 1])
    else if s.count.raw == 7 then
      s.(flags := s.flags[IndexSelect := PairTop(cur)][ScratchPadOut := 1],
         inst := s.inst.(currInstruction := -1))
    else s
  }

  /** SRC drives its pair out over phases 6 and 7 with both chip selects
      raised, then ends; it keeps every latch. */
  lemma SrcStepSpec(s: DecoderState)
    ensures KeepsLatches(s, SrcStep(s))
    ensures Flag(SrcStep(s), IndexSelect) != Flag(s, IndexSelect) ==>
              Flag(SrcStep(s), IndexSelect) / 2 == LowNybble(s.inst.currInstruction) / 2
    ensures SrcStep(s).inst.currInstruction == if s.count.raw == 7 then -1 else s.inst.currInstruction
    ensures s.count.raw == 6 ==> Flag(SrcStep(s), CmRom) == 1 && Flag(SrcStep(s), CmRam) == 1 && Flag(SrcStep(s), ScratchPadOut) == 1
    ensures s.count.raw == 7 ==> Flag(SrcStep(s), ScratchPadOut) == 1
    ensures s.count.raw !in {6, 7} ==> SrcStep(s) == s
  {
    PairBaseOfPair(s.inst.currInstruction);
  }

  /** FIM and SRC share a family and differ in bit 0 of `fullInst`. Phase 5
      of a fresh instruction only asks for one more decode, since the
      choice between them is made on the full byte. */
  function FimSrcStep(s: DecoderState, fullInst: int): (t: DecoderState)
    ensures t.count == s.count && t.ctl == s.ctl
    ensures OnlyWrites(s, t, {IndexSelect, IndexLoad, ScratchPadOut, CmRom, CmRam})
  {
    if s.count.raw == 5 && s.inst.dblInstruction == 0 then
      s.(inst := s.inst.(decodeAgain := true))
    else if fullInst % 2 == 0 then FimStep(s)
    else SrcStep(s)
  }

  /** The shared handler waits at phase 5 of a fresh instruction and then
      picks FIM or SRC by bit 0; only FIM latches a first byte. */
  lemma FimSrcStepSpec(s: DecoderState, fullInst: int)
    ensures s.count.raw == 5 && s.inst.dblInstruction == 0 ==> FimSrcStep(s, fullInst) == s.(inst := s.inst.(decodeAgain := true))
    ensures !(s.count.raw == 5 && s.inst.dblInstruction == 0) ==>
              FimSrcStep(s, fullInst) == if fullInst % 2 == 0 then FimStep(s) else SrcStep(s)
    // Only FIM ever latches a first byte.
    ensures fullInst % 2 == 1 ==> FimSrcStep(s, fullInst).inst.dblInstruction == s.inst.dblInstruction
  {
  }

  /** A FIM or SRC selects the even register of its pair first and the odd
      one second. */
  lemma PairOrder(s: DecoderState)
    ensures s.inst.dblInstruction == 0 && s.count.raw == 6 ==>
              Flag(FimStep(s), IndexSelect) == PairBase(s.inst.currInstruction)
    ensures s.inst.dblInstruction != 0 && s.count.raw == 4 ==>
              Flag(FimStep(s), IndexSelect) == PairTop(s.inst.currInstruction)
    ensures s.count.raw == 6 ==> Flag(SrcStep(s), IndexSelect) == PairBase(s.inst.currInstruction)
    ensures s.count.raw == 7 ==> Flag(SrcStep(s), IndexSelect) == PairTop(s.inst.currInstruction)
  {
  }

  /** WRM, WMP, WRR and WR0..WR3: at phase 6 the accumulator drives the bus,
      the third execution phase is marked as a write, and the instruction
      ends. */
  function WriteGroupStep(s: DecoderState): (t: DecoderState)
    ensures t.count == s.count && t.inst.dblInstruction == s.inst.dblInstruction
    ensures t.inst.decodeAgain == s.inst.decodeAgain
    ensures t.ctl == if s.count.raw == 6 then s.ctl.(x3IsRead := false) else s.ctl
    ensures t.inst.currInstruction == if s.count.raw == 6 then -1 else s.inst.currInstruction
    ensures s.count.raw == 6 ==> Flag(t, AccOut) == 1 && OnlyWrites(s, t, {AccOut})
    ensures s.count.raw != 6 ==> t == s
  {
    if s.count.raw == 6 then
      s.(flags := s.flags[AccOut := 1], ctl := s.ctl.(x3IsRead := false),
         inst := s.inst.(currInstruction := -1))
    else s
  }

  /** RDM, RDR and RD0..RD3: at phase 7 the accumulator loads from the bus
      and the instruction ends. */
  function ReadGroupStep(s: DecoderState): (t: DecoderState)
    ensures KeepsLatches(s, t)
    ensures t.inst.currInstruction == if s.count.raw == 7 then -1 else s.inst.currInstruction
    ensures s.count.raw == 7 ==> Flag(t, AccLoad) == 1 && OnlyWrites(s, t, {AccLoad})
    ensures s.count.raw != 7 ==> t == s
  {
    if s.count.raw == 7 then
      s.(flags := s.flags[AccLoad := 1], inst := s.inst.(currInstruction := -1))
    else s
  }

  /** SBM (`mode` = `AluIntModeSub`) and ADM (`mode` = `AluIntModeAdd`): at
      phase 7 the RAM character goes into temp, the ALU evaluates in `mode`
      and drives the bus; at phase 0 the accumulator takes the result and
      the instruction ends. */
  function MemoryArithmeticStep(s: DecoderState, mode: int): (t: DecoderState)
    ensures KeepsLatches(s, t)
    ensures t.inst.currInstruction == if s.count.raw == 0 then -1 else s.inst.currInstruction
    ensures s.count.raw == 7 ==>
              Flag(t, TempLoad) == 1 && Flag(t, AluMode) == mode && Flag(t, AluEval) == 1 && Flag(t, AluOut) == 1
              && OnlyWrites(s, t, {TempLoad, AluMode, AluEval, AluOut})
    ensures s.count.raw == 0 ==> Flag(t, AccLoad) == 1 && OnlyWrites(s, t, {AccLoad})
    ensures s.count.raw !in {7, 0} ==> t == s
  {
    if s.count.raw == 7 then
      s.(flags := s.flags[TempLoad := 1][AluMode := mode][AluEval := 1][AluOut := 1])
    else if s.count.raw == 0 then
      s.(flags := s.flags[AccLoad := 1], inst := s.inst.(currInstruction := -1))
    else s
  }

  /** SBM and ADM differ only in the ALU mode. */
  lemma SbmIsAdmWithSubtractMode(s: DecoderState)
    ensures s.count.raw != 7 ==>
              MemoryArithmeticStep(s, AluIntModeSub) == MemoryArithmeticStep(s, AluIntModeAdd)
    ensures s.count.raw == 7 ==>
              var a := MemoryArithmeticStep(s, AluIntModeAdd);
              MemoryArithmeticStep(s, AluIntModeSub) == a.(flags := a.flags[AluMode := AluIntModeSub])
  {
    if s.count.raw == 7 {
      var a := MemoryArithmeticStep(s, AluIntModeAdd);
      assert MemoryArithmeticStep(s, AluIntModeSub).flags == a.flags[AluMode := AluIntModeSub];
    }
  }

  method HandleFimSrc(d: Decoder, fullInst: int)
    requires d.TableValid()
    modifies d, d.flags.Values
    ensures d.State() == FimSrcStep(old(d.State()), fullInst)
  {
    if d.clkCount.raw == 5 && d.dblInstruction == 0 {
      d.AssignDecodeAgain(true);
      return;
    }
    if fullInst % 2 == 0 {
      HandleFim(d);
    } else {
      HandleSrc(d);
    }
  }

  /** The FIM branch of `handleFIM_SRC`. */
  method HandleFim(d: Decoder)
    requires d.TableValid()
    modifies d, d.flags.Values
    ensures d.State() == FimStep(old(d.State()))
  {
    if d.dblInstruction == 0 {
      if d.clkCount.raw == 6 {
        d.WriteFlag(IndexSelect, PairBase(d.currInstruction));
        d.AssignDblInstruction(d.currInstruction);
      }
    } else {
      if d.clkCount.raw == 4 {
        d.WriteFlag(IndexLoad, 1);
        d.WriteFlag(IndexSelect, PairTop(d.currInstruction));
      } else if d.clkCount.raw == 5 {
        d.WriteFlag(IndexLoad, 1);
        d.AssignDblInstruction(0);
        d.AssignCurrInstruction(-1);
      }
    }
  }

  /** The SRC branch of `handleFIM_SRC`. */
  method HandleSrc(d: Decoder)
    requires d.TableValid()
    modifies d, d.flags.Values
    ensures d.State() == SrcStep(old(d.State()))
  {
    if d.clkCount.raw == 6 {
      d.WriteFlag(IndexSelect, PairBase(d.currInstruction));
      d.WriteFlag(ScratchPadOut, 1);
      d.WriteFlag(CmRom, 1);
      d.WriteFlag(CmRam, 1);
    } else if d.clkCount.raw == 7 {
      d.WriteFlag(IndexSelect, PairTop(d.currInstruction));
      d.WriteFlag(ScratchPadOut, 1);
      d.AssignCurrInstruction(-1);
    }
  }

  method HandleWriteGroup(d: Decoder)
    requires d.TableValid()
    modifies d, d.flags.Values
    ensures d.State() == WriteGroupStep(old(d.State()))
  {
    if d.clkCount.raw == 6 {
      d.WriteFlag(AccOut, 1);
      d.AssignX3IsRead(false);
      d.AssignCurrInstruction(-1);
    }
  }

  method HandleReadGroup(d: Decoder)
    requires d.TableValid()
    modifies d, d.flags.Values
    ensures d.State() == ReadGroupStep(old(d.State()))
  {
    if d.clkCount.raw == 7 {
      d.WriteFlag(AccLoad, 1);
      d.AssignCurrInstruction(-1);
    }
  }

  method HandleSBM(d: Decoder)
    requires d.TableValid()
    modifies d, d.flags.Values
    ensures d.State() == MemoryArithmeticStep(old(d.State()), AluIntModeSub)
  {
    if d.clkCount.raw == 7 {
      d.WriteFlag(TempLoad, 1);
      d.WriteFlag(AluMode, AluIntModeSub);
      d.WriteFlag(AluEval, 1);
      d.WriteFlag(AluOut, 1);
    } else if d.clkCount.raw == 0 {
      d.WriteFlag(AccLoad, 1);
      d.AssignCurrInstruction(-1);
    }
  }

  method HandleADM(d: Decoder)
    requires d.TableValid()
    modifies d, d.flags.Values
    ensures d.State() == MemoryArithmeticStep(old(d.State()), AluIntModeAdd)
  {
    if d.clkCount.raw == 7 {
      d.WriteFlag(TempLoad, 1);
      d.WriteFlag(AluMode, AluIntModeAdd);
      d.WriteFlag(AluEval, 1);
      d.WriteFlag(AluOut, 1);
    } else if d.clkCount.raw == 0 {
      d.WriteFlag(AccLoad, 1);
      d.AssignCurrInstruction(-1);
    }
  }
}
