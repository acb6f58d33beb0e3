/** The decoder handler shared by JCN, JUN, JMS and ISZ
    (src/main/kotlin/cpucore/JumpFetch.kt). Each is a two-cycle instruction.
    In the first cycle (no first byte latched) the handler asks for the JCN
    or ISZ condition to be evaluated, and at phase 6 either increments the
    ISZ register or parks the address's high nybble in temp, then latches
    the instruction as its first byte. In the second cycle the jump is
    taken or not at phase 5, and a taken jump loads the PC one nybble per
    phase from the instruction register (6, 7) and from temp (0, JUN and
    JMS only). The condition's value arrives as `evalResult`; how it is
    computed is not part of this model. */
module JumpFetch {
  import opened Words
  import opened Defines
  import opened Decoders

  /** The conditional jumps: JCN and ISZ. A jump not in this family is
      always taken. */
  predicate Conditional(opr: int)
  {
    opr == JCN || opr == ISZ
  }

  /** The second cycle's decision: a conditional jump whose condition did
      not hold is blocked. */
  predicate Blocked(opr: int, evalResult: bool)
  {
    Conditional(opr) && !evalResult
  }

  /** First cycle: raise the evaluation flag of JCN or ISZ at every phase;
      at phase 6 select and increment the ISZ register, or load temp, and
      move the instruction into the first-byte latch. */
  function FirstCycleStep(s: DecoderState): (t: DecoderState)
    ensures t.count == s.count && t.ctl == s.ctl && t.inst.decodeAgain == s.inst.decodeAgain
    ensures OnlyWrites(s, t, {EvaluateJCN, EvaluateISZ, IndexSelect, ScratchPadInc, TempLoad})
  {
    var cur := s.inst.currInstruction;
    var opr := OpcodeFamily(cur);
    var f1 := if opr == JCN then s.flags[EvaluateJCN := 1]
              else if opr == ISZ then s.flags[EvaluateISZ := 1]
              else s.flags;
    if s.count.raw != 6 then s.(flags := f1)
    else
      var f2 := if opr == ISZ then f1[IndexSelect := LowNybble(cur)][ScratchPadInc := 1] else f1[TempLoad := 1];
      s.(flags := f2, inst := s.inst.(dblInstruction := cur, currInstruction := -1))
  }

  /** Second cycle: at phase 5 a taken jump holds the PC increment and puts
      the instruction register's low nybble out, a blocked one ends the
      instruction, and JMS pushes the return address; phases 6 and 7 load
      the PC's low and middle nybbles; phase 0 loads the high nybble for
      JUN and JMS, ends the instruction and releases the PC increment. */
  function SecondCycleStep(s: DecoderState, evalResult: bool): (t: DecoderState)
    ensures t.count == s.count && t.inst.decodeAgain == s.inst.decodeAgain
    ensures t.ctl == s.ctl.(inhibitPCInc := t.ctl.inhibitPCInc)
    ensures OnlyWrites(s, t, {InstRegOut, StackPush, PCLoad, TempOut})
  {
    var opr := OpcodeFamily(s.inst.currInstruction);
    if s.count.raw == 5 then
      var u := if !Blocked(opr, evalResult)
               then s.(flags := s.flags[InstRegOut := 1], ctl := s.ctl.(inhibitPCInc := true))
               else s.(inst := s.inst.(dblInstruction := 0, currInstruction := -1));
      if opr == JMS then u.(flags := u.flags[StackPush := 1]) else u
    else if s.count.raw == 6 then
      s.(flags := s.flags[PCLoad := 1][InstRegOut := 2])
    else if s.count.raw == 7 then
      s.(flags := s.flags[PCLoad := 2][TempOut := 1])
    else if s.count.raw == 0 then
      var fl := if opr == JUN || opr == JMS then s.flags[PCLoad := 3] else s.flags;
      s.(flags := fl, inst := s.inst.(dblInstruction := 0, currInstruction := -1),
         ctl := s.ctl.(inhibitPCInc := false))
    else s
  }

  /** `handleJCN_JMS_ISZ_JUN`: the cycle is told by the first-byte latch. */
  function JumpStep(s: DecoderState, evalResult: bool): (t: DecoderState)
    ensures t.count == s.count && t.inst.decodeAgain == s.inst.decodeAgain
    ensures t.ctl == s.ctl.(inhibitPCInc := t.ctl.inhibitPCInc)
    ensures OnlyWrites(s, t, {EvaluateJCN, EvaluateISZ, IndexSelect, ScratchPadInc, TempLoad,
                              InstRegOut, StackPush, PCLoad, TempOut})
  {
    if s.inst.dblInstruction == 0 then FirstCycleStep(s) else SecondCycleStep(s, evalResult)
  }

  /** The first cycle raises the evaluation flag of the conditional jump
      in progress at every phase; before phase 6 it does nothing else. At
      phase 6 it increments the ISZ register or loads temp, and moves the
      instruction into the first-byte latch. */
  lemma FirstCycleSpec(s: DecoderState, evalResult: bool)
    requires s.inst.dblInstruction == 0
    ensures var t := JumpStep(s, evalResult);
            var cur := s.inst.currInstruction;
            var opr := OpcodeFamily(cur);
            && t.count == s.count && t.ctl == s.ctl && t.inst.decodeAgain == s.inst.decodeAgain
            && (opr == JCN ==> Flag(t, EvaluateJCN) == 1)
            && (opr == ISZ ==> Flag(t, EvaluateISZ) == 1)
            && (s.count.raw != 6 ==> t.inst == s.inst && OnlyWrites(s, t, {EvaluateJCN, EvaluateISZ}))
            && (s.count.raw != 6 && !Conditional(opr) ==> t == s)
            && (s.count.raw == 6 ==> t.inst.dblInstruction == cur && t.inst.currInstruction == -1)
            && (s.count.raw == 6 && opr == ISZ ==>
                  Flag(t, IndexSelect) == LowNybble(cur) && Flag(t, ScratchPadInc) == 1
                  && OnlyWrites(s, t, {EvaluateISZ, IndexSelect, ScratchPadInc}))
            && (s.count.raw == 6 && opr != ISZ ==>
                  Flag(t, TempLoad) == 1 && OnlyWrites(s, t, {EvaluateJCN, TempLoad}))
  {
  }

  /** Phase 5 of the second cycle decides the jump: the instruction ends
      there exactly when it is a conditional jump whose condition failed,
      and then the PC increment is left as it was and the instruction
      register stays off the bus. A taken jump holds the PC increment and
      puts the address's low nybble out. JMS, and only JMS, pushes the
      return address. */
  lemma DecisionSpec(s: DecoderState, evalResult: bool)
    requires s.inst.dblInstruction != 0 && s.count.raw == 5
    ensures var t := JumpStep(s, evalResult);
            var opr := OpcodeFamily(s.inst.currInstruction);
            && t.count == s.count && t.inst.decodeAgain == s.inst.decodeAgain
            && (t.inst.dblInstruction == 0 <==> Conditional(opr) && !evalResult)
            && (Conditional(opr) && !evalResult ==>
                  t.inst.currInstruction == -1 && t.ctl == s.ctl && Flag(t, InstRegOut) == Flag(s, InstRegOut))
            && (!(Conditional(opr) && !evalResult) ==>
                  t.inst == s.inst && t.ctl == s.ctl.(inhibitPCInc := true) && Flag(t, InstRegOut) == 1)
            && (opr == JMS ==> Flag(t, StackPush) == 1)
            && (opr != JMS ==> Flag(t, StackPush) == Flag(s, StackPush))
            && OnlyWrites(s, t, {InstRegOut, StackPush})
  {
  }

  /** Phases 6, 7 and 0 of the second cycle load the PC from the bus, one
      nybble each: low and middle nybble from the instruction register,
      high nybble from temp for JUN and JMS only. Phase 0 ends the
      instruction and releases the PC increment; phases 1 to 4 do nothing. */
  lemma LoadSpec(s: DecoderState, evalResult: bool)
    requires s.inst.dblInstruction != 0 && s.count.raw != 5
    ensures var t := JumpStep(s, evalResult);
            var opr := OpcodeFamily(s.inst.currInstruction);
            && t.count == s.count && t.inst.decodeAgain == s.inst.decodeAgain
            && (s.count.raw == 6 ==>
                  t.inst == s.inst && t.ctl == s.ctl && Flag(t, PCLoad) == 1 && Flag(t, InstRegOut) == 2
                  && OnlyWrites(s, t, {PCLoad, InstRegOut}))
            && (s.count.raw == 7 ==>
                  t.inst == s.inst && t.ctl == s.ctl && Flag(t, PCLoad) == 2 && Flag(t, TempOut) == 1
                  && OnlyWrites(s, t, {PCLoad, TempOut}))
            && (s.count.raw == 0 ==>
                  t.inst.dblInstruction == 0 && t.inst.currInstruction == -1
                  && t.ctl == s.ctl.(inhibitPCInc := false) && OnlyWrites(s, t, {PCLoad}))
            && (s.count.raw == 0 && (opr == JUN || opr == JMS) ==> Flag(t, PCLoad) == 3)
            && (s.count.raw == 0 && !(opr == JUN || opr == JMS) ==> Flag(t, PCLoad) == Flag(s, PCLoad))
            && (s.count.raw !in {5, 6, 7, 0} ==> t == s)
  {
  }

  /** The handler holds the PC increment only from phase 5 of a taken jump,
      and releases it at phase 0 of the same cycle: every change to
      `inhibitPCInc` is one of these two. An instruction ends either there
      or at a blocked phase 5, so a completed jump never leaves the PC
      increment held that it did not find held. */
  lemma InhibitOnlyDuringJump(s: DecoderState, evalResult: bool)
    ensures var t := JumpStep(s, evalResult);
            var opr := OpcodeFamily(s.inst.currInstruction);
            && (t.ctl.inhibitPCInc != s.ctl.inhibitPCInc ==>
                  s.inst.dblInstruction != 0
                  && ((s.count.raw == 5 && t.ctl.inhibitPCInc && !(Conditional(opr) && !evalResult))
                      || (s.count.raw == 0 && !t.ctl.inhibitPCInc)))
            && (s.inst.dblInstruction != 0 && t.inst.dblInstruction == 0 ==>
                  (s.count.raw == 0 && !t.ctl.inhibitPCInc)
                  || (s.count.raw == 5 && t.ctl.inhibitPCInc == s.ctl.inhibitPCInc))
  {
    if s.inst.dblInstruction != 0 {
      if s.count.raw == 5 {
        DecisionSpec(s, evalResult);
      } else {
        LoadSpec(s, evalResult);
      }
    }
  }

  /** JCN and ISZ never write the PC's high nybble: a conditional jump
      stays within its 256-byte page. */
  lemma ConditionalJumpStaysInPage(s: DecoderState, evalResult: bool)
    requires Conditional(OpcodeFamily(s.inst.currInstruction))
    ensures Flag(JumpStep(s, evalResult), PCLoad) == 3 ==> Flag(s, PCLoad) == 3
  {
  }

  /** `handleJCN_JMS_ISZ_JUN`. */
  method HandleJump(d: Decoder, fullInst: int, evalResult: bool)
    requires d.TableValid()
    modifies d, d.flags.Values
    ensures d.State() == JumpStep(old(d.State()), evalResult)
  {
    if d.dblInstruction == 0 {
      HandleFirstCycle(d);
    } else {
      HandleSecondCycle(d, evalResult);
    }
  }

  /** The first-cycle branch of `handleJCN_JMS_ISZ_JUN`. */
  method HandleFirstCycle(d: Decoder)
    requires d.TableValid()
    modifies d, d.flags.Values
    ensures d.State() == FirstCycleStep(old(d.State()))
  {
    var opr := OpcodeFamily(d.currInstruction);
    if opr == JCN {
      d.WriteFlag(EvaluateJCN, 1);
    } else if opr == ISZ {
      d.WriteFlag(EvaluateISZ, 1);
    }
    if d.clkCount.raw == 6 {
      if opr == ISZ {
        d.WriteFlag(IndexSelect, LowNybble(d.currInstruction));
        d.WriteFlag(ScratchPadInc, 1);
      } else {
        d.WriteFlag(TempLoad, 1);
      }
      d.AssignDblInstruction(d.currInstruction);
      d.AssignCurrInstruction(-1);
    }
  }

  /** The second-cycle branch of `handleJCN_JMS_ISZ_JUN`. */
  method HandleSecondCycle(d: Decoder, evalResult: bool)
    requires d.TableValid()
    modifies d, d.flags.Values
    ensures d.State() == SecondCycleStep(old(d.State()), evalResult)
  {
    var opr := OpcodeFamily(d.currInstruction);
    if d.clkCount.raw == 5 {
      var blockJump := false;
      if opr == JCN || opr == ISZ {
        blockJump := !evalResult;
      }
      if !blockJump {
        d.AssignInhibitPCInc(true);
        d.WriteFlag(InstRegOut, 1);
      } else {
        d.AssignDblInstruction(0);
        d.AssignCurrInstruction(-1);
      }
      if opr == JMS {
        d.WriteFlag(StackPush, 1);
      }
    } else if d.clkCount.raw == 6 {
      d.WriteFlag(PCLoad, 1);
      d.WriteFlag(InstRegOut, 2);
    } else if d.clkCount.raw == 7 {
      d.WriteFlag(PCLoad, 2);
      d.WriteFlag(TempOut, 1);
    } else if d.clkCount.raw == 0 {
      if opr == JUN || opr == JMS {
        d.WriteFlag(PCLoad, 3);
      }
      d.AssignDblInstruction(0);
      d.AssignCurrInstruction(-1);
      d.AssignInhibitPCInc(false);
    }
  }
}
