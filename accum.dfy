/** Decoder handlers for ADD and SUB (src/main/kotlin/cpucore/Accum.kt): the
    selected register goes out (5) and into temp with the ALU mode set (6),
    the ALU evaluates and drives the bus (7), and the accumulator takes the
    result, which ends the instruction (0). The operand byte the source
    passes in is not used. */
module Accum {
  import opened Defines
  import opened Decoders

  /** The schedule of ADD (`mode` = `AluIntModeAdd`) and SUB (`mode` =
      `AluIntModeSub`). */
  function ArithmeticStep(s: DecoderState, mode: int): (t: DecoderState)
    ensures KeepsLatches(s, t)
    ensures t.inst.currInstruction == if s.count.raw == 0 then -1 else s.inst.currInstruction
    ensures s.count.raw == 5 ==>
              Flag(t, IndexSelect) == 17 && Flag(t, ScratchPadOut) == 1
              && OnlyWrites(s, t, {IndexSelect, ScratchPadOut})
    ensures s.count.raw == 6 ==>
              Flag(t, AluMode) == mode && Flag(t, TempLoad) == 1 && OnlyWrites(s, t, {AluMode, TempLoad})
    ensures s.count.raw == 7 ==>
              Flag(t, AluEval) == 1 && Flag(t, AluOut) == 1 && OnlyWrites(s, t, {AluEval, AluOut})
    ensures s.count.raw == 0 ==> Flag(t, AccLoad) == 1 && OnlyWrites(s, t, {AccLoad})
    ensures s.count.raw !in {5, 6, 7, 0} ==> t == s
  {
    if s.count.raw == 5 then s.(flags := s.flags[IndexSelect := 17][ScratchPadOut := 1])
    else if s.count.raw == 6 then s.(flags := s.flags[AluMode := mode][TempLoad := 1])
    else if s.count.raw == 7 then s.(flags := s.flags[AluEval := 1][AluOut := 1])
    else if s.count.raw == 0 then s.(flags := s.flags[AccLoad := 1], inst := s.inst.(currInstruction := -1))
    else s
  }

  /** SUB differs from ADD in the ALU mode it selects at phase 6 and in
      nothing else. */
  lemma SubIsAddWithSubtractMode(s: DecoderState)
    ensures s.count.raw != 6 ==> ArithmeticStep(s, AluIntModeSub) == ArithmeticStep(s, AluIntModeAdd)
    ensures s.count.raw == 6 ==>
              var a := ArithmeticStep(s, AluIntModeAdd);
              ArithmeticStep(s, AluIntModeSub) == a.(flags := a.flags[AluMode := AluIntModeSub])
  {
    if s.count.raw == 6 {
      var a := ArithmeticStep(s, AluIntModeAdd);
      assert ArithmeticStep(s, AluIntModeSub).flags == a.flags[AluMode := AluIntModeSub];
    }
  }

  method HandleADD(d: Decoder, fullInst: int)
    requires d.TableValid()
    modifies d, d.flags.Values
    ensures d.State() == ArithmeticStep(old(d.State()), AluIntModeAdd)
  {
    if d.clkCount.raw == 5 {
      d.WriteFlag(IndexSelect, 17);
      d.WriteFlag(ScratchPadOut, 1);
    } else if d.clkCount.raw == 6 {
      d.WriteFlag(AluMode, AluIntModeAdd);
      d.WriteFlag(TempLoad, 1);
    } else if d.clkCount.raw == 7 {
      d.WriteFlag(AluEval, 1);
      d.WriteFlag(AluOut, 1);
    } else if d.clkCount.raw == 0 {
      d.WriteFlag(AccLoad, 1);
      d.AssignCurrInstruction(-1);
    }
  }

  method HandleSUB(d: Decoder, fullInst: int)
    requires d.TableValid()
    modifies d, d.flags.Values
    ensures d.State() == ArithmeticStep(old(d.State()), AluIntModeSub)
  {
    if d.clkCount.raw == 5 {
      d.WriteFlag(IndexSelect, 17);
      d.WriteFlag(ScratchPadOut, 1);
    } else if d.clkCount.raw == 6 {
      d.WriteFlag(AluMode, AluIntModeSub);
      d.WriteFlag(TempLoad, 1);
    } else if d.clkCount.raw == 7 {
      d.WriteFlag(AluEval, 1);
      d.WriteFlag(AluOut, 1);
    } else if d.clkCount.raw == 0 {
      d.WriteFlag(AccLoad, 1);
      d.AssignCurrInstruction(-1);
    }
  }
}
