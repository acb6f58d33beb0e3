/** The state of the instruction decoder (src/main/kotlin/cpucore/Decoder.kt):
    the 3-bit phase counter, the table of control flags and the latches that
    carry an instruction across phases. Every decoder operation is specified
    by a step function on a `DecoderState` snapshot; the methods of `Decoder`
    and of the handler modules are proved to perform exactly that step.

    The decoder's display string and its `instChanged` marker only feed the
    renderer and are not modelled. */
module Decoders {
  import opened Words
  import opened Defines
  import opened Clocking

  /** The phase counter: `raw` is written by `clkAndSync`, `clocked` is the
      committed phase. */
  datatype Counter = Counter(raw: int, clocked: int)

  /** The latches that carry an instruction across phases: the instruction
      being decoded (-1 when none), the first byte of a two-cycle
      instruction (0 when none), and the request for one more decode. */
  datatype Sequencer = Sequencer(currInstruction: int, dblInstruction: int, decodeAgain: bool)

  /** Sync marker, PC inhibitions and the bus-direction markers of the
      second and third execution phases. */
  datatype Control = Control(syncSent: bool, inhibitPCInc: bool, inhibitPC: bool,
                             x2IsRead: bool, x3IsRead: bool)

  /** Everything the decoder's behaviour depends on. */
  datatype DecoderState = DecoderState(count: Counter, flags: map<FlagType, int>,
                                       inst: Sequencer, ctl: Control)

  /** The decoder's own invariant: one value per flag, and both halves of the
      phase counter in 0..7. */
  ghost predicate WellFormed(s: DecoderState)
  {
    AllFlags(s.flags.Keys) && 0 <= s.count.raw <= 7 && 0 <= s.count.clocked <= 7
  }

  /** `readFlag`: the flag's value, or 0 for a flag the table does not hold. */
  function Flag(s: DecoderState, f: FlagType): int
  {
    if f in s.flags then s.flags[f] else 0
  }

  /** Only the flag table and the current instruction differ between `s` and
      `t`: counter, control markers, double-instruction latch and look-ahead
      request are kept. */
  ghost predicate KeepsLatches(s: DecoderState, t: DecoderState)
  {
    && t.count == s.count && t.ctl == s.ctl
    && t.inst.dblInstruction == s.inst.dblInstruction && t.inst.decodeAgain == s.inst.decodeAgain
  }

  /** Every flag outside `written` holds the same value in `s` and `t`. */
  ghost predicate OnlyWrites(s: DecoderState, t: DecoderState, written: set<FlagType>)
  {
    forall f :: f !in written ==> Flag(t, f) == Flag(s, f)
  }

  /** The decoder right after construction: phase 0, every flag at its reset
      value, no instruction in progress. */
  function Initial(): (s: DecoderState)
    ensures WellFormed(s)
    ensures forall f :: f != END ==> Flag(s, f) == ResetValue(f)
    ensures s.inst.currInstruction == -1 && s.inst.dblInstruction == 0
  {
    DecoderState(Counter(0, 0), map f | f != END :: ResetValue(f),
                 Sequencer(-1, 0, false), Control(false, false, false, false, false))
  }

  /** `resetFlags`: every flag back to its reset value, the I/O read markers
      cleared, all else kept. */
  function ResetStep(s: DecoderState): (t: DecoderState)
    ensures t.flags.Keys == s.flags.Keys
    ensures forall f :: f in s.flags ==> Flag(t, f) == ResetValue(f)
    ensures !t.ctl.x2IsRead && !t.ctl.x3IsRead
    ensures t.count == s.count && t.inst == s.inst
    ensures t.ctl.(x2IsRead := s.ctl.x2IsRead, x3IsRead := s.ctl.x3IsRead) == s.ctl
  {
    s.(flags := map f | f in s.flags :: ResetValue(f),
       ctl := s.ctl.(x2IsRead := false, x3IsRead := false))
  }

  /** A reset forgets every flag written before it. */
  lemma ResetForgetsWrites(s: DecoderState, f: FlagType, v: int)
    ensures ResetStep(s.(flags := s.flags[f := v])) == ResetStep(s).(flags := ResetStep(s).flags[f := ResetValue(f)])
  {
    var a := ResetStep(s.(flags := s.flags[f := v])).flags;
    var b := ResetStep(s).flags[f := ResetValue(f)];
    assert a.Keys == b.Keys;
    forall g | g in a.Keys ensures a[g] == b[g] {
    }
  }

  /** Next value of the phase counter: 0..7, wrapping after 7. */
  function NextCount(c: int): (n: int)
    ensures 0 <= c <= 7 ==> n == (c + 1) % 8
  {
    if c == 7 then 0 else c + 1
  }

  /** The counter after `n` phases. */
  function CountAfter(c: int, n: nat): int
    decreases n
  {
    if n == 0 then c else CountAfter(NextCount(c), n - 1)
  }

  /** The counter advances by one modulo 8 per phase, so every eight phases
      form one instruction cycle that returns to the phase it began in. */
  lemma {:induction false} CountAfterMod(c: int, n: nat)
    requires 0 <= c <= 7
    ensures CountAfter(c, n) == (c + n) % 8
    decreases n
  {
    if n > 0 {
      CountAfterMod(NextCount(c), n - 1);
    }
  }

  /** `clkAndSync`: advance the counter from its committed value; when the
      cycle reaches its last phase after a sync has been seen, and the PC is
      not held, raise PCInc. */
  function ClkAndSyncStep(s: DecoderState): (t: DecoderState)
    ensures t.count.raw == NextCount(s.count.clocked) && t.count.clocked == s.count.clocked
    ensures WellFormed(s) ==> WellFormed(t)
    ensures t.flags == if s.count.clocked == 6 && s.ctl.syncSent && !s.ctl.inhibitPCInc
                       then s.flags[PCInc := 1] else s.flags
    ensures t.inst == s.inst && t.ctl == s.ctl
  {
    var c := s.count;
    if c.clocked == 6 then
      var fl := if s.ctl.syncSent && !s.ctl.inhibitPCInc then s.flags[PCInc := 1] else s.flags;
      s.(flags := fl, count := c.(raw := c.clocked + 1))
    else if c.clocked == 7 then s.(count := c.(raw := 0))
    else s.(count := c.(raw := c.clocked + 1))
  }

  /** The flag table as `createFlags` fills it: one fresh flag per kind,
      holding its reset value. */
  method CreateFlags() returns (m: map<FlagType, DecoderFlag>)
    ensures AllFlags(m.Keys) && fresh(m.Values)
    ensures forall f :: f in m ==>
              m[f].kind == f && m[f].resetValue == ResetValue(f) && m[f].value == ResetValue(f)
              && m[f].name == FlagName(f) && !m[f].changed
  {
    m := map[];
    for i := 0 to FlagCount
      invariant forall f :: f in m <==> FlagIndex(f) < i
      invariant forall f :: f in m ==>
                  m[f].kind == f && m[f].resetValue == ResetValue(f) && m[f].value == ResetValue(f)
                  && m[f].name == FlagName(f) && !m[f].changed && fresh(m[f])
    {
      var k := FlagAt(i);
      FlagOrderInverse(i, k);
      var flag := new DecoderFlag(k, FlagName(k), ResetValue(k), false);
      m := m[k := flag];
    }
    forall f ensures f in m <==> f != END {
      FlagOrderInverse(0, f);
    }
  }

  class Decoder {
    const clkCount: Clocked<int>
    const flags: map<FlagType, DecoderFlag>
    var syncSent: bool
    var currInstruction: int
    var dblInstruction: int
    var decodeAgain: bool
    var inhibitPCInc: bool
    var inhibitPC: bool
    var x2IsRead: bool
    var x3IsRead: bool

    /** The flag table holds one flag object per kind, each with its own reset
        value. It speaks of constants only, so nothing can break it. */
    ghost predicate TableValid()
    {
      && AllFlags(flags.Keys)
      && (forall f :: f in flags ==> flags[f].kind == f && flags[f].resetValue == ResetValue(f))
    }

    /** The table is well formed and the counter stays within one cycle. */
    ghost predicate Valid()
      reads clkCount
    {
      TableValid() && 0 <= clkCount.raw <= 7 && 0 <= clkCount.clocked <= 7
    }

    ghost function FlagValues(): map<FlagType, int>
      reads flags.Values
    {
      map f | f in flags :: flags[f].value
    }

    ghost function State(): DecoderState
      reads this, clkCount, flags.Values
    {
      DecoderState(Counter(clkCount.raw, clkCount.clocked), FlagValues(),
                   Sequencer(currInstruction, dblInstruction, decodeAgain),
                   Control(syncSent, inhibitPCInc, inhibitPC, x2IsRead, x3IsRead))
    }

    constructor ()
      ensures Valid() && fresh(clkCount) && fresh(flags.Values)
      ensures State() == Initial()
    {
      clkCount := new Clocked(0);
      var m := CreateFlags();
      flags := m;
      syncSent := false;
      currInstruction := -1;
      dblInstruction := 0;
      decodeAgain := false;
      inhibitPCInc := false;
      inhibitPC := false;
      x2IsRead := false;
      x3IsRead := false;
      new;
      assert FlagValues() == Initial().flags;
    }

    /** `resetFlags`. */
    method ResetFlags()
      requires Valid()
      modifies this, flags.Values
      ensures Valid() && State() == ResetStep(old(State()))
    {
      ResetTable();
      x2IsRead := false;
      x3IsRead := false;
      assert FlagValues() == ResetStep(old(State())).flags;
    }

    /** The loop of `resetFlags`: every flag of the table, walked in creation
        order, back to its reset value. */
    method ResetTable()
      requires Valid()
      modifies flags.Values
      ensures Valid()
      ensures forall f :: f in flags ==> flags[f].value == ResetValue(f)
    {
      for i := 0 to FlagCount
        invariant forall f :: f in flags ==>
                    flags[f].value == if FlagIndex(f) < i then ResetValue(f) else old(flags[f].value)
      {
        var k := FlagAt(i);
        FlagOrderInverse(i, k);
        flags[k].Reset();
      }
      forall f | f in flags ensures FlagIndex(f) < FlagCount {
        FlagOrderInverse(0, f);
      }
    }

    /** `writeFlag`: the table must hold the flag, as the source's non-null
        assertion demands. */
    method WriteFlag(id: FlagType, value: int)
      requires TableValid() && id in flags
      modifies flags[id]
      ensures State() == old(State()).(flags := old(State()).flags[id := value])
    {
      var target := flags[id];
      target.WriteFlag(value);
      forall g | g in flags && g != id
        ensures flags[g].value == old(flags[g].value)
      {
        assert flags[g].kind != target.kind;
      }
      assert FlagValues() == old(FlagValues())[id := value];
    }

    /** The handlers' assignments to the decoder's latches, one per field.
        Each changes that field and nothing else. */
    method AssignCurrInstruction(v: int)
      modifies this
      ensures State() == old(State()).(inst := old(State()).inst.(currInstruction := v))
    {
      currInstruction := v;
      assert FlagValues() == old(FlagValues());
    }

    method AssignDblInstruction(v: int)
      modifies this
      ensures State() == old(State()).(inst := old(State()).inst.(dblInstruction := v))
    {
      dblInstruction := v;
      assert FlagValues() == old(FlagValues());
    }

    method AssignDecodeAgain(b: bool)
      modifies this
      ensures State() == old(State()).(inst := old(State()).inst.(decodeAgain := b))
    {
      decodeAgain := b;
      assert FlagValues() == old(FlagValues());
    }

    method AssignSyncSent(b: bool)
      modifies this
      ensures State() == old(State()).(ctl := old(State()).ctl.(syncSent := b))
    {
      syncSent := b;
      assert FlagValues() == old(FlagValues());
    }

    method AssignInhibitPCInc(b: bool)
      modifies this
      ensures State() == old(State()).(ctl := old(State()).ctl.(inhibitPCInc := b))
    {
      inhibitPCInc := b;
      assert FlagValues() == old(FlagValues());
    }

    method AssignX3IsRead(b: bool)
      modifies this
      ensures State() == old(State()).(ctl := old(State()).ctl.(x3IsRead := b))
    {
      x3IsRead := b;
      assert FlagValues() == old(FlagValues());
    }

    /** `readFlag`: a flag's current value, or 0 when the table lacks it. */
    function ReadFlag(id: FlagType): (v: int)
      reads this, flags.Values
      ensures id in flags ==> v == FlagValues()[id]
      ensures id !in flags ==> v == 0
    {
      if id in flags then flags[id].value else 0
    }

    /** `clkAndSync`. */
    method ClkAndSync()
      requires Valid()
      modifies clkCount, flags[PCInc]
      ensures Valid() && State() == ClkAndSyncStep(old(State()))
    {
      if clkCount.clocked == 6 {
        if syncSent && !inhibitPCInc {
          WriteFlag(PCInc, 1);
        }
        clkCount.raw := clkCount.clocked + 1;
      } else if clkCount.clocked == 7 {
        clkCount.raw := 0;
      } else {
        clkCount.raw := clkCount.clocked + 1;
      }
    }

    /** The counter's clock subscription: a rising edge commits it. */
    method Tick(edge: int)
      requires Valid()
      modifies clkCount
      ensures Valid()
      ensures State() == old(State()).(count := Counter(old(clkCount.raw), if edge == 1 then old(clkCount.raw) else old(clkCount.clocked)))
    {
      clkCount.Tick(edge);
      assert FlagValues() == old(FlagValues());
    }
  }
}
