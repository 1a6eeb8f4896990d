/** Single-bit masks BIT(n), kept apart from the register model so the solver sees only bit-vector facts. */
module Bits {
  /** A bit position 0..31, as the `n` of BIT(n). */
  type BitIndex = bv5

  /** BIT(n) of a 32-bit register. */
  function Mask(n: BitIndex): bv32 {
    1 << n
  }

  /** BIT(n) of the word `x` is set. */
  predicate BitSet(x: bv32, n: BitIndex) {
    (x >> n) & 1 == 1
  }

  /** BIT(n) is never zero, so a table entry with a non-zero offset is handled. */
  lemma MaskNonZero(n: BitIndex)
    ensures Mask(n) != 0
  {
  }

  /** OR-ing in BIT(i) sets that bit and keeps every other. */
  lemma OrOne(x: bv32, i: BitIndex, j: BitIndex)
    ensures BitSet(x | Mask(i), j) == (i == j || BitSet(x, j))
  {
  }

  /** AND-ing out BIT(i) clears that bit and keeps every other. */
  lemma AndNotOne(x: bv32, i: BitIndex, j: BitIndex)
    ensures BitSet(x & !Mask(i), j) == (i != j && BitSet(x, j))
  {
  }
}

/**
 * What the per-chip clock drivers have in common: table entries written as
 * `{ off, BIT(n) }`, the of_match table that hands a descriptor to probe, and
 * the fact that setting or clearing one line's bit leaves every other line's
 * bit alone.
 */
module Chip {
  import opened Base
  import opened Wrappers
  import opened Mmio
  import opened Ccu
  import SunxiClk
  import SunxiReset
  import opened Bits

  /** A populated table entry as the chip files write it: register offset and BIT(n). */
  datatype Line = Line(off: uint16, n: BitIndex)

  /** `{ off, BIT(n), setRate ? &mmc_clk_set_rate : NULL }` */
  function Gate(l: Line, setRate: bool): ClkMap {
    ClkMap(l.off, Mask(l.n), setRate)
  }

  /** `{ off, BIT(n) }` */
  function Reset(l: Line): ResetMap {
    ResetMap(l.off, Mask(l.n))
  }

  /** Line `l`'s bit is set in the bank: the gate is open, or the reset line released. */
  predicate IsSet(mem: Bank, base: Addr, l: Line)
    requires base + l.off in mem
  {
    BitSet(mem[base + l.off], l.n)
  }

  /** Setting BIT(i) sets that bit and keeps every other. */
  lemma SetOne(x: bv32, i: BitIndex, j: BitIndex)
    ensures BitSet(SetMask(x, Mask(i)), j) == (i == j || BitSet(x, j))
  {
    assert SetMask(x, Mask(i)) == x | Mask(i);
    OrOne(x, i, j);
  }

  /** Clearing BIT(i) clears that bit and keeps every other. */
  lemma ClearOne(x: bv32, i: BitIndex, j: BitIndex)
    ensures BitSet(ClearMask(x, Mask(i)), j) == (i != j && BitSet(x, j))
  {
    assert ClearMask(x, Mask(i)) == x & !Mask(i);
    AndNotOne(x, i, j);
  }

  /**
   * Enabling the gate `l` opens exactly that gate: the bit of every other
   * line `k` reads as before. Disabling it closes exactly that gate.
   */
  lemma GateOpened(mem: Bank, base: Addr, l: Line, setRate: bool, k: Line)
    requires l.off != 0 && base + l.off in mem && base + k.off in mem
    ensures IsSet(SunxiClk.Enabled(mem, base, Gate(l, setRate)), base, k) == (k == l || IsSet(mem, base, k))
  {
    MaskNonZero(l.n);
    var a := base + l.off;
    if k.off == l.off {
      SetOne(mem[a], l.n, k.n);
    }
  }

  lemma GateClosed(mem: Bank, base: Addr, l: Line, setRate: bool, k: Line)
    requires l.off != 0 && base + l.off in mem && base + k.off in mem
    ensures IsSet(SunxiClk.Disabled(mem, base, Gate(l, setRate)), base, k) == (k != l && IsSet(mem, base, k))
  {
    MaskNonZero(l.n);
    var a := base + l.off;
    if k.off == l.off {
      ClearOne(mem[a], l.n, k.n);
    }
  }

  /** The same for reset lines: deassert releases exactly `l`, assert holds exactly `l`. */
  lemma ResetReleased(mem: Bank, base: Addr, l: Line, k: Line)
    requires l.off != 0 && base + l.off in mem && base + k.off in mem
    ensures IsSet(SunxiReset.Deasserted(mem, base, Reset(l)), base, k) == (k == l || IsSet(mem, base, k))
  {
    MaskNonZero(l.n);
    var a := base + l.off;
    if k.off == l.off {
      SetOne(mem[a], l.n, k.n);
    }
  }

  lemma ResetHeld(mem: Bank, base: Addr, l: Line, k: Line)
    requires l.off != 0 && base + l.off in mem && base + k.off in mem
    ensures IsSet(SunxiReset.Asserted(mem, base, Reset(l)), base, k) == (k != l && IsSet(mem, base, k))
  {
    MaskNonZero(l.n);
    var a := base + l.off;
    if k.off == l.off {
      ClearOne(mem[a], l.n, k.n);
    }
  }

  /**
   * A table's lines, given by ID: every line is handled (non-zero offset) and
   * no two IDs share one.
   */
  ghost predicate Separate<N(!new)>(line: N -> Line) {
    (forall a :: line(a).off != 0) && forall a, b :: line(a) == line(b) ==> a == b
  }

  /** With separate lines, enabling clock `c` opens its own gate and no other clock's. */
  lemma EnableOpensOnlyItsGate<N(!new)>(mem: Bank, base: Addr, line: N -> Line, setRate: N -> bool, c: N, d: N)
    requires Separate(line) && base + line(c).off in mem && base + line(d).off in mem
    ensures IsSet(SunxiClk.Enabled(mem, base, Gate(line(c), setRate(c))), base, line(d)) == (c == d || IsSet(mem, base, line(d)))
  {
    GateOpened(mem, base, line(c), setRate(c), line(d));
  }

  /** With separate lines, disabling clock `c` closes its own gate and no other clock's. */
  lemma DisableClosesOnlyItsGate<N(!new)>(mem: Bank, base: Addr, line: N -> Line, setRate: N -> bool, c: N, d: N)
    requires Separate(line) && base + line(c).off in mem && base + line(d).off in mem
    ensures IsSet(SunxiClk.Disabled(mem, base, Gate(line(c), setRate(c))), base, line(d)) == (c != d && IsSet(mem, base, line(d)))
  {
    GateClosed(mem, base, line(c), setRate(c), line(d));
  }

  /** With separate lines, deasserting reset `r` releases its own line and no other. */
  lemma DeassertReleasesOnlyItsLine<N(!new)>(mem: Bank, base: Addr, line: N -> Line, r: N, s: N)
    requires Separate(line) && base + line(r).off in mem && base + line(s).off in mem
    ensures IsSet(SunxiReset.Deasserted(mem, base, Reset(line(r))), base, line(s)) == (r == s || IsSet(mem, base, line(s)))
  {
    ResetReleased(mem, base, line(r), line(s));
  }

  /** With separate lines, asserting reset `r` holds its own line and no other. */
  lemma AssertHoldsOnlyItsLine<N(!new)>(mem: Bank, base: Addr, line: N -> Line, r: N, s: N)
    requires Separate(line) && base + line(r).off in mem && base + line(s).off in mem
    ensures IsSet(SunxiReset.Asserted(mem, base, Reset(line(r))), base, line(s)) == (r != s && IsSet(mem, base, line(s)))
  {
    ResetHeld(mem, base, line(r), line(s));
  }

  /** udevice_id: a compatible string and the descriptor passed as driver data. */
  datatype MatchEntry = MatchEntry(compatible: string, data: CcuDesc)

  /**
   * The driver data a device receives from an of_match table: that of the
   * first entry whose compatible string matches, and NULL (None) for a device
   * that matched no entry.
   */
  function DriverData(ids: seq<MatchEntry>, compatible: string): (d: Option<CcuDesc>)
    ensures d.None? <==> forall i :: 0 <= i < |ids| ==> ids[i].compatible != compatible
    ensures d.Some? ==> exists i :: 0 <= i < |ids| && ids[i].compatible == compatible && ids[i].data == d.value
                                   && forall j :: 0 <= j < i ==> ids[j].compatible != compatible
  {
    if ids == [] then None
    else if ids[0].compatible == compatible then Some(ids[0].data)
    else
      var d := DriverData(ids[1..], compatible);
      assert forall i :: 1 <= i < |ids| ==> ids[i] == ids[1..][i - 1];
      d
  }
}
