/** The sixteen 4-bit index (scratch-pad) registers and the index that
    selects one of them (src/main/kotlin/index/IndexRegisters.kt). `select`
    stores any index; the operations on the selected register need it to be
    one of the sixteen, as the source's list indexing does. */
module Index {
  import opened Words
  import opened Masks
  import opened Globals
  import opened Buses
  import opened Registers

  const IndexRegisterCount: int := 16

  class IndexRegisters {
    const dataBus: Bus
    const regs: seq<Register>
    var index: int

    ghost predicate Valid()
      reads this
    {
      && |regs| == IndexRegisterCount
      && (forall i :: 0 <= i < |regs| ==>
            regs[i].Valid() && regs[i].width == BusWidth && regs[i].dataBus == dataBus
            && regs[i].reg.initialVal == 0)
      && (forall i, j :: 0 <= i < j < |regs| ==> regs[i].reg != regs[j].reg)
    }

    /** The storage cells of all registers. */
    ghost function Cells(): set<object>
    {
      set i | 0 <= i < |regs| :: regs[i].reg
    }

    constructor (dataBus: Bus)
      ensures Valid() && fresh(Cells())
      ensures this.dataBus == dataBus && index == 0
      ensures forall i :: 0 <= i < |regs| ==> regs[i].reg.raw == 0 && regs[i].reg.clocked == 0
    {
      this.dataBus := dataBus;
      index := 0;
      var rs: seq<Register> := [];
      var i := 0;
      while i < IndexRegisterCount
        invariant 0 <= i <= IndexRegisterCount && |rs| == i
        invariant forall k :: 0 <= k < i ==>
                    rs[k].Valid() && rs[k].width == BusWidth && rs[k].dataBus == dataBus
                    && rs[k].reg.initialVal == 0 && rs[k].reg.raw == 0 && rs[k].reg.clocked == 0
                    && fresh(rs[k].reg)
        invariant forall k, l :: 0 <= k < l < i ==> rs[k].reg != rs[l].reg
      {
        var r := new Register(0, dataBus, BusWidth, "");
        rs := rs + [r];
        i := i + 1;
      }
      regs := rs;
    }

    /** Zeroes every register; the selected index is left alone. */
    method Reset()
      requires Valid()
      modifies Cells()
      ensures Valid() && index == old(index)
      ensures forall i :: 0 <= i < |regs| ==> regs[i].reg.raw == 0 && regs[i].reg.clocked == 0
    {
      var i := 0;
      while i < |regs|
        invariant 0 <= i <= |regs|
        invariant forall k :: 0 <= k < i ==> regs[k].reg.raw == 0 && regs[k].reg.clocked == 0
      {
        regs[i].Reset();
        i := i + 1;
      }
    }

    /** Stores the index as given; no range check. */
    method Select(index: int)
      modifies this
      ensures this.index == index
    {
      this.index := index;
    }

    /** Drives the selected register's committed value onto the data bus. */
    method Read()
      requires Valid() && dataBus.Valid() && 0 <= index < |regs|
      modifies dataBus
      ensures dataBus.State() == WriteStep(old(dataBus.State()), LowBits(regs[index].reg.clocked, dataBus.bits))
    {
      regs[index].Read();
    }

    /** Committed value of register `i`. */
    function ReadDirect(i: int): (v: nat)
      requires Valid() && 0 <= i < |regs|
      reads this, regs[i].reg
      ensures v < 16
      ensures regs[i].reg.clocked < 16 ==> v == regs[i].reg.clocked
    {
      SmallPowers();
      regs[i].ReadDirect()
    }

    /** Sets register `i`'s next value to `v` cut to four bits; no other
        register changes. */
    method WriteDirect(i: int, v: nat)
      requires Valid() && 0 <= i < |regs|
      modifies regs[i].reg
      ensures regs[i].reg.raw == v % 16 && regs[i].reg.clocked == old(regs[i].reg.clocked)
    {
      SmallPowers();
      regs[i].WriteDirect(v);
    }

    /** Loads the selected register from the data bus, cut to four bits. */
    method Write()
      requires Valid() && 0 <= index < |regs|
      modifies regs[index].reg
      ensures regs[index].reg.raw == dataBus.value % 16
      ensures regs[index].reg.clocked == old(regs[index].reg.clocked)
    {
      SmallPowers();
      regs[index].Write();
    }

    /** Next value of the selected register: its committed value plus one,
        wrapping at 16. Only that register changes. */
    method Increment()
      requires Valid() && 0 <= index < |regs|
      modifies regs[index].reg
      ensures regs[index].reg.raw == (LowBits(old(regs[index].reg.clocked), 4) + 1) % 16
      ensures regs[index].reg.clocked == old(regs[index].reg.clocked)
    {
      SmallPowers();
      var r := regs[index];
      r.WriteDirect(LowBits(r.ReadDirect() + 1, r.bits));
    }

    /** Whether the selected register's committed value is 0. */
    function IsRegisterZero(): (z: bool)
      requires Valid() && 0 <= index < |regs|
      reads this, regs[index].reg
      ensures z <==> regs[index].reg.clocked % 16 == 0
    {
      SmallPowers();
      regs[index].ReadDirect() == 0
    }

    /** One clock edge for every register. */
    method Tick(edge: int)
      requires Valid()
      modifies Cells()
      ensures Valid()
      ensures forall i :: 0 <= i < |regs| ==> regs[i].reg.raw == old(regs[i].reg.raw)
      ensures forall i :: 0 <= i < |regs| ==>
                regs[i].reg.clocked == if edge == 1 then old(regs[i].reg.raw) else old(regs[i].reg.clocked)
    {
      var i := 0;
      while i < |regs|
        invariant 0 <= i <= |regs|
        invariant forall k :: 0 <= k < |regs| ==> regs[k].reg.raw == old(regs[k].reg.raw)
        invariant forall k :: 0 <= k < i ==>
                    regs[k].reg.clocked == if edge == 1 then old(regs[k].reg.raw) else old(regs[k].reg.clocked)
        invariant forall k :: i <= k < |regs| ==> regs[k].reg.clocked == old(regs[k].reg.clocked)
      {
        regs[i].Tick(edge);
        i := i + 1;
      }
    }
  }

  /** A direct write, a commit and a direct read give back the value cut to
      four bits. */
  method WriteCommitRead(x: IndexRegisters, i: int, v: nat) returns (r: nat)
    requires x.Valid() && 0 <= i < |x.regs|
    modifies x.Cells()
    ensures r == v % 16
  {
    x.WriteDirect(i, v);
    x.Tick(1);
    r := x.ReadDirect(i);
  }
}
