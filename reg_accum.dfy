/** Decoder handlers for the one-cycle register and accumulator instructions
    XCH, LDM, LD, INC and the accumulator group
    (src/main/kotlin/cpucore/RegAccum.kt). Each handler acts on the phase it
    sees in the raw counter and finishes by clearing `currInstruction`.
    IndexSelect 17 names the register already selected by the instruction's
    operand. */
module RegAccum {
  import opened Words
  import opened Defines
  import opened Decoders

  /** XCH: drive the selected register out (5), load it into temp while the
      accumulator drives the bus (6), store that into the register named by
      the operand (7), swap accumulator and temp and finish (0). */
  function XchStep(s: DecoderState): (t: DecoderState)
    ensures KeepsLatches(s, t)
    ensures t.inst.currInstruction == if s.count.raw == 0 then -1 else s.inst.currInstruction
    ensures s.count.raw == 5 ==>
              Flag(t, IndexSelect) == 17 && Flag(t, ScratchPadOut) == 1
              && OnlyWrites(s, t, {IndexSelect, ScratchPadOut})
    ensures s.count.raw == 6 ==>
              Flag(t, TempLoad) == 1 && Flag(t, AccOut) == 1
              && OnlyWrites(s, t, {TempLoad, AccOut})
    ensures s.count.raw == 7 ==>
              Flag(t, IndexSelect) == LowNybble(s.inst.currInstruction) && Flag(t, IndexLoad) == 1
              && OnlyWrites(s, t, {IndexSelect, IndexLoad})
    ensures s.count.raw == 0 ==> Flag(t, AccTempSwap) == 1 && OnlyWrites(s, t, {AccTempSwap})
    ensures s.count.raw !in {5, 6, 7, 0} ==> t == s
  {
    if s.count.raw == 5 then s.(flags := s.flags[IndexSelect := 17][ScratchPadOut := 1])
    else if s.count.raw == 6 then s.(flags := s.flags[TempLoad := 1][AccOut := 1])
    else if s.count.raw == 7 then s.(flags := s.flags[IndexSelect := LowNybble(s.inst.currInstruction)][IndexLoad := 1])
    else if s.count.raw == 0 then s.(flags := s.flags[AccTempSwap := 1], inst := s.inst.(currInstruction := -1))
    else s
  }

  /** LDM: load the accumulator from the bus at phase 5 and finish. */
  function LdmStep(s: DecoderState): (t: DecoderState)
    ensures KeepsLatches(s, t)
    ensures t.inst.currInstruction == if s.count.raw == 5 then -1 else s.inst.currInstruction
    ensures s.count.raw == 5 ==> Flag(t, AccLoad) == 1 && OnlyWrites(s, t, {AccLoad})
    ensures s.count.raw != 5 ==> t == s
  {
    if s.count.raw == 5 then s.(flags := s.flags[AccLoad := 1], inst := s.inst.(currInstruction := -1)) else s
  }

  /** LD: drive the selected register out (6), load it into the accumulator
      and finish (7). */
  function LdStep(s: DecoderState): (t: DecoderState)
    ensures KeepsLatches(s, t)
    ensures t.inst.currInstruction == if s.count.raw == 7 then -1 else s.inst.currInstruction
    ensures s.count.raw == 6 ==>
              Flag(t, IndexSelect) == 17 && Flag(t, ScratchPadOut) == 1
              && OnlyWrites(s, t, {IndexSelect, ScratchPadOut})
    ensures s.count.raw == 7 ==> Flag(t, AccLoad) == 1 && OnlyWrites(s, t, {AccLoad})
    ensures s.count.raw !in {6, 7} ==> t == s
  {
    if s.count.raw == 6 then s.(flags := s.flags[IndexSelect := 17][ScratchPadOut := 1])
    else if s.count.raw == 7 then s.(flags := s.flags[AccLoad := 1], inst := s.inst.(currInstruction := -1))
    else s
  }

  /** INC: at phase 5 of a fresh instruction ask for one more decode and do
      nothing else; select the operand's register (6); increment it and
      finish (7). */
  function IncStep(s: DecoderState): (t: DecoderState)
    ensures t.inst.decodeAgain == (s.inst.decodeAgain || (s.count.raw == 5 && s.inst.dblInstruction == 0))
    ensures t.count == s.count && t.ctl == s.ctl && t.inst.dblInstruction == s.inst.dblInstruction
    ensures t.inst.currInstruction == if s.count.raw == 7 then -1 else s.inst.currInstruction
    ensures s.count.raw == 5 ==> t.flags == s.flags
    ensures s.count.raw == 6 ==>
              Flag(t, IndexSelect) == LowNybble(s.inst.currInstruction) && OnlyWrites(s, t, {IndexSelect})
    ensures s.count.raw == 7 ==> Flag(t, ScratchPadInc) == 1 && OnlyWrites(s, t, {ScratchPadInc})
    ensures s.count.raw !in {5, 6, 7} ==> t == s
  {
    if s.count.raw == 5 && s.inst.dblInstruction == 0 then s.(inst := s.inst.(decodeAgain := true))
    else if s.count.raw == 6 then s.(flags := s.flags[IndexSelect := LowNybble(s.inst.currInstruction)])
    else if s.count.raw == 7 then s.(flags := s.flags[ScratchPadInc := 1], inst := s.inst.(currInstruction := -1))
    else s
  }

  /** The accumulator group: at phase 5 of a fresh instruction ask for one
      more decode; at phase 6 pass the whole opcode to the ALU and finish. */
  function AccStep(s: DecoderState): (t: DecoderState)
    ensures t.inst.decodeAgain == (s.inst.decodeAgain || (s.count.raw == 5 && s.inst.dblInstruction == 0))
    ensures t.count == s.count && t.ctl == s.ctl && t.inst.dblInstruction == s.inst.dblInstruction
    ensures t.inst.currInstruction == if s.count.raw == 6 then -1 else s.inst.currInstruction
    ensures s.count.raw == 5 ==> t.flags == s.flags
    ensures s.count.raw == 6 ==> Flag(t, AccInst) == s.inst.currInstruction && OnlyWrites(s, t, {AccInst})
    ensures s.count.raw !in {5, 6} ==> t == s
  {
    if s.count.raw == 5 && s.inst.dblInstruction == 0 then s.(inst := s.inst.(decodeAgain := true))
    else if s.count.raw == 6 then s.(flags := s.flags[AccInst := s.inst.currInstruction], inst := s.inst.(currInstruction := -1))
    else s
  }

  /** XCH and LD start alike: one phase apart, both drive the selected
      register onto the bus with the same two flags. */
  lemma XchAndLdReadTheRegisterAlike(s: DecoderState)
    ensures XchStep(s.(count := s.count.(raw := 5))) == LdStep(s.(count := s.count.(raw := 6))).(count := s.count.(raw := 5))
  {
  }

  /** After the phase-5 look-ahead request, a second decode at phase 6 clears
      `decodeAgain` elsewhere (in the dispatcher); from there INC and the
      accumulator group ignore the request flag entirely. */
  lemma IncAndAccIgnoreRequestAfterPhase5(s: DecoderState, b: bool)
    requires s.count.raw != 5
    ensures IncStep(s.(inst := s.inst.(decodeAgain := b))) == IncStep(s).(inst := IncStep(s).inst.(decodeAgain := b))
    ensures AccStep(s.(inst := s.inst.(decodeAgain := b))) == AccStep(s).(inst := AccStep(s).inst.(decodeAgain := b))
  {
  }

  method HandleXCH(d: Decoder)
    requires d.TableValid()
    modifies d, d.flags.Values
    ensures d.State() == XchStep(old(d.State()))
  {
    if d.clkCount.raw == 5 {
      d.WriteFlag(IndexSelect, 17);
      d.WriteFlag(ScratchPadOut, 1);
    } else if d.clkCount.raw == 6 {
      d.WriteFlag(TempLoad, 1);
      d.WriteFlag(AccOut, 1);
    } else if d.clkCount.raw == 7 {
      d.WriteFlag(IndexSelect, LowNybble(d.currInstruction));
      d.WriteFlag(IndexLoad, 1);
    } else if d.clkCount.raw == 0 {
      d.WriteFlag(AccTempSwap, 1);
      d.AssignCurrInstruction(-1);
    }
  }

  method HandleLDM(d: Decoder)
    requires d.TableValid()
    modifies d, d.flags.Values
    ensures d.State() == LdmStep(old(d.State()))
  {
    if d.clkCount.raw == 5 {
      d.WriteFlag(AccLoad, 1);
      d.AssignCurrInstruction(-1);
    }
  }

  method HandleLD(d: Decoder)
    requires d.TableValid()
    modifies d, d.flags.Values
    ensures d.State() == LdStep(old(d.State()))
  {
    if d.clkCount.raw == 6 {
      d.WriteFlag(IndexSelect, 17);
      d.WriteFlag(ScratchPadOut, 1);
    } else if d.clkCount.raw == 7 {
      d.WriteFlag(AccLoad, 1);
      d.AssignCurrInstruction(-1);
    }
  }

  method HandleINC(d: Decoder)
    requires d.TableValid()
    modifies d, d.flags.Values
    ensures d.State() == IncStep(old(d.State()))
  {
    if d.clkCount.raw == 5 && d.dblInstruction == 0 {
      d.AssignDecodeAgain(true);

      return;
    }
    if d.clkCount.raw == 6 {
      d.WriteFlag(IndexSelect, LowNybble(d.currInstruction));
    } else if d.clkCount.raw == 7 {
      d.WriteFlag(ScratchPadInc, 1);
      d.AssignCurrInstruction(-1);
    }
  }

  method HandleACC(d: Decoder)
    requires d.TableValid()
    modifies d, d.flags.Values
    ensures d.State() == AccStep(old(d.State()))
  {
    if d.clkCount.raw == 5 && d.dblInstruction == 0 {
      d.AssignDecodeAgain(true);
      return;
    }
    if d.clkCount.raw == 6 {
      d.WriteFlag(AccInst, d.currInstruction);
      d.AssignCurrInstruction(-1);
    }
  }
}
