/** Simulator-wide constants (src/main/kotlin/common/Globals.kt). Only the
    data-bus width matters to the simulation; the colours and fonts of that
    file are display settings. */
module Globals {
  /** Width in bits of the 4004's data bus and of its data registers. */
  const BusWidth: int := 4
}
