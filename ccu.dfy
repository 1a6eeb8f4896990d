/**
 * The common clock unit data model: the gate and reset maps, the per-chip
 * descriptor that pairs them, and the clock driver's private state.
 */
module Ccu {
  import opened Base
  import opened Wrappers
  import opened Mmio

  /**
   * ccu_clk_map: the gate of one clock ID, a 16-bit register offset and a
   * 32-bit mask. `setRate` records whether the optional set-rate callback is
   * present (non-NULL); the callback itself is not part of the engine.
   */
  datatype ClkMap = ClkMap(off: uint16, bit: bv32, setRate: bool)

  /** ccu_reset_map: the same (offset, mask) shape, with no callback. */
  datatype ResetMap = ResetMap(off: uint16, bit: bv32)

  /**
   * ccu_desc: the clock map and the reset map of one chip. `num_clks` and
   * `num_resets` are the lengths of the two arrays; a chip without a reset
   * array (resets NULL, num_resets 0) has `resets == []`.
   */
  datatype CcuDesc = CcuDesc(clks: seq<ClkMap>, resets: seq<ResetMap>) {
    function NumClks(): nat { |clks| }
    function NumResets(): nat { |resets| }
  }

  /** The zero-filled entry of an ID that no initialiser names. */
  const NoClk := ClkMap(0, 0, false)
  const NoReset := ResetMap(0, 0)

  /**
   * The engines skip an entry when EITHER its offset OR its mask is zero
   * (`!map->off || !map->bit`).
   */
  predicate Unhandled(off: uint16, bit: bv32) {
    off == 0 || bit == 0
  }

  /** sunxi_clk_priv: the register base and the chip descriptor, nothing else. */
  class ClkPriv {
    var base: Addr
    var desc: Option<CcuDesc>

    /** The zeroed private area the driver model allocates before probe. */
    constructor ()
      ensures base == NULL && desc == None
    {
      base := NULL;
      desc := None;
    }
  }
}
