/** The two-phase storage cell every register and control line is built from
    (src/main/kotlin/common/Clocked.kt). Writers assign `raw`; readers see
    `clocked`, which takes the value of `raw` on the rising clock edge only.
    The clock subscription of the source becomes an explicit `Tick(edge)`. */
module Clocking {

  class Clocked<T> {
    const initialVal: T
    var raw: T
    var clocked: T

    constructor (initialVal: T)
      ensures this.initialVal == initialVal
      ensures raw == initialVal && clocked == initialVal
    {
      this.initialVal := initialVal;
      raw := initialVal;
      clocked := initialVal;
    }

    /** The committed value; a write to `raw` is not visible here before the
        next rising edge. */
    function Get(): (v: T)
      reads this
      ensures v == clocked
    {
      clocked
    }

    method Reset()
      modifies this
      ensures raw == initialVal && clocked == initialVal
    {
      raw := initialVal;
      clocked := initialVal;
    }

    /** One clock edge: 1 is the rising edge, which commits `raw`; any other
        value changes nothing. Committing is idempotent: after a rising edge
        `clocked == raw`, so a second one has no effect. */
    method Tick(edge: int)
      modifies this
      ensures raw == old(raw)
      ensures edge == 1 ==> clocked == old(raw)
      ensures edge != 1 ==> clocked == old(clocked)
    {
      if edge == 1 {
        clocked := raw;
      }
    }
  }
}
