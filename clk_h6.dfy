/**
 * The H6 clock driver: the gate table h6_clks, the reset table h6_resets,
 * the descriptor pairing them, probe, bind and the of_match table. Clock IDs
 * are symbolic; `ci` stands for the numbering the dt-bindings header gives
 * them. h6_resets is indexed by clock IDs, so both tables use `ci`.
 *
 * h6_clks gives CLK_MMC2 the register of CLK_MMC1 (0x834). The tables, the
 * descriptor and probe keep that entry as written, and SharedMmcGate shows
 * what it does; IntendedClkLine puts MMC2 at the evidently intended register
 * 0x838, and IntendedLinesSeparate proves every line distinct there.
 */
module ClkH6 {
  import opened Base
  import opened Wrappers
  import opened Mmio
  import opened Ccu
  import opened Chip
  import Layout
  import SunxiClk
  import SunxiReset
  import Bits

  /** The clock IDs h6_clks names. */
  datatype Clk =
    | Mmc0 | Mmc1 | Mmc2 | BusMmc0 | BusMmc1 | BusMmc2

  /**
   * The entries of h6_resets. The source indexes them by the clock IDs
   * CLK_BUS_MMC0..2, so `RstClk` names the clock ID each one is filed under.
   */
  datatype Rst =
    | BusMmc0 | BusMmc1 | BusMmc2

  /**
   * The gate of each clock as h6_clks writes it: MMC module clocks at 0x830,
   * 0x834 and again 0x834, bus gates in 0x84c.
   */
  function ClkLine(c: Clk): Line {
    match c
    case Mmc0 => Line(0x830, 31)
    case Mmc1 => Line(0x834, 31)
    case Mmc2 => Line(0x834, 31)
    case BusMmc0 => Line(0x84c, 0)
    case BusMmc1 => Line(0x84c, 1)
    case BusMmc2 => Line(0x84c, 2)
  }

  /** The gates as evidently intended: CLK_MMC2 on its own register 0x838. */
  function IntendedClkLine(c: Clk): Line {
    if c == Mmc2 then Line(0x838, 31) else ClkLine(c)
  }

  /** Only the MMC module clocks carry mmc_clk_set_rate; every other entry has NULL. */
  predicate HasSetRate(c: Clk) {
    c.Mmc0? || c.Mmc1? || c.Mmc2?
  }

  /** The h6_clks entry of each clock. */
  function ClkEntry(c: Clk): ClkMap {
    Gate(ClkLine(c), HasSetRate(c))
  }

  /** The clock ID each reset entry is filed under. */
  function RstClk(r: Rst): Clk {
    match r
    case BusMmc0 => Clk.BusMmc0
    case BusMmc1 => Clk.BusMmc1
    case BusMmc2 => Clk.BusMmc2
  }

  /** The reset entry filed under each clock ID, if any: RstClk read backwards. */
  function ClkRst(c: Clk): Option<Rst> {
    match c
    case BusMmc0 => Some(Rst.BusMmc0)
    case BusMmc1 => Some(Rst.BusMmc1)
    case BusMmc2 => Some(Rst.BusMmc2)
    case _ => None
  }

  /** The line each entry controls: the MMC bus resets in 0x84c. */
  function RstLine(r: Rst): Line {
    match r
    case BusMmc0 => Line(0x84c, 16)
    case BusMmc1 => Line(0x84c, 17)
    case BusMmc2 => Line(0x84c, 18)
  }

  /** The h6_resets entry of each reset ID. */
  function RstEntry(r: Rst): ResetMap {
    Reset(RstLine(r))
  }

  /** h6_clks, laid out by the numbering `ci`. */
  function Clks(ci: Clk -> nat): seq<ClkMap> {
    Layout.Fill(ClkIds, ci, ClkEntry, NoClk)
  }

  /** The position of each reset entry: that of the clock ID it is filed under. */
  function RstIndex(ci: Clk -> nat): Rst -> nat {
    r => ci(RstClk(r))
  }

  /** h6_resets, laid out by the clock numbering `ci`. */
  function Rsts(ci: Clk -> nat): seq<ResetMap> {
    Layout.Fill(RstIds, RstIndex(ci), RstEntry, NoReset)
  }

  /**
   * With distinct numbers for distinct clocks, every clock finds its own entry
   * in h6_clks and every slot no clock is numbered to is a zero-filled hole.
   */
  lemma ClkTable(ci: Clk -> nat)
    requires Layout.Injective(ci)
    ensures forall c :: ci(c) < |Clks(ci)| && Clks(ci)[ci(c)] == ClkEntry(c)
    ensures forall i :: 0 <= i < |Clks(ci)| && (forall c :: ci(c) != i) ==> Clks(ci)[i] == NoClk
    ensures Clks(ci)[ci(Mmc2)] == Clks(ci)[ci(Mmc1)] == Gate(Line(0x834, 31), true)
  {
    AllNamed();
    Layout.FillAll(ClkIds, ci, ClkEntry, NoClk);
  }

  /**
   * The same for h6_resets: each entry sits at the number of the clock ID it is
   * filed under, and every other slot is a hole.
   */
  lemma RstTable(ci: Clk -> nat)
    requires Layout.Injective(ci)
    ensures forall r :: ci(RstClk(r)) < |Rsts(ci)| && Rsts(ci)[ci(RstClk(r))] == RstEntry(r)
    ensures forall i :: 0 <= i < |Rsts(ci)| && (forall r :: ci(RstClk(r)) != i) ==> Rsts(ci)[i] == NoReset
  {
    AllNamed();
    forall r: Rst, s: Rst | RstIndex(ci)(r) == RstIndex(ci)(s) ensures r == s {
      RstNamed(r);
      RstNamed(s);
    }
    Layout.FillAll(RstIds, RstIndex(ci), RstEntry, NoReset);
  }

  /** sun50i_h6_ccu_desc */
  function Desc(ci: Clk -> nat): CcuDesc {
    CcuDesc(Clks(ci), Rsts(ci))
  }

  /**
   * As written, every reset line and every clock other than MMC1 and MMC2 has
   * a line of its own, while MMC1 and MMC2 share the gate 0x834 bit 31.
   */
  lemma LinesSeparate()
    ensures Separate(RstLine)
    ensures forall c :: ClkLine(c).off != 0
    ensures forall c, d :: ClkLine(c) == ClkLine(d) ==> c == d || (c in {Mmc1, Mmc2} && d in {Mmc1, Mmc2})
    ensures ClkLine(Mmc1) == ClkLine(Mmc2) && !Separate(ClkLine)
  {
    forall c: Clk ensures IntendedClkLine(c).off != 0 && ClkAt(IntendedClkLine(c)) == Some(c) {
      ClkNamed(c);
    }
    forall r: Rst ensures RstLine(r).off != 0 && RstAt(RstLine(r)) == Some(r) {
      RstNamed(r);
    }
  }

  /** With MMC2 at 0x838, every H6 clock and every H6 reset line has a line of its own. */
  lemma IntendedLinesSeparate()
    ensures Separate(IntendedClkLine) && Separate(RstLine)
  {
    forall c: Clk ensures IntendedClkLine(c).off != 0 && ClkAt(IntendedClkLine(c)) == Some(c) {
      ClkNamed(c);
    }
    forall r: Rst ensures RstLine(r).off != 0 && RstAt(RstLine(r)) == Some(r) {
      RstNamed(r);
    }
  }

  /**
   * As written, MMC1 and MMC2 share one gate: enabling MMC2 opens MMC1's gate
   * and disabling MMC2 closes it, while the MMC2 register 0x838 is never
   * written.
   */
  lemma SharedMmcGate(mem: Bank, base: Addr)
    requires base + 0x834 in mem
    ensures IsSet(SunxiClk.Enabled(mem, base, ClkEntry(Mmc2)), base, ClkLine(Mmc1))
    ensures !IsSet(SunxiClk.Disabled(mem, base, ClkEntry(Mmc2)), base, ClkLine(Mmc1))
    ensures base + 0x838 in mem ==>
      SunxiClk.Enabled(mem, base, ClkEntry(Mmc2))[base + 0x838] == mem[base + 0x838]
    ensures base + 0x838 in mem ==>
      SunxiClk.Disabled(mem, base, ClkEntry(Mmc2))[base + 0x838] == mem[base + 0x838]
  {
    GateOpened(mem, base, Line(0x834, 31), true, Line(0x834, 31));
    GateClosed(mem, base, Line(0x834, 31), true, Line(0x834, 31));
    Bits.MaskNonZero(31);
  }

  /** The reset count h6_clk_bind hands to sunxi_reset_bind. */
  const ResetCount: nat := 62

  /** h6_clk_ids: one entry, for the H6. */
  function Ids(ci: Clk -> nat): seq<MatchEntry> {
    [MatchEntry("allwinner,sun50i-h6-ccu", Desc(ci))]
  }

  /** A device matched as H6 gets the descriptor; any other gets none. */
  lemma MatchedDescriptor(ci: Clk -> nat, compatible: string)
    ensures DriverData(Ids(ci), compatible) ==
      if compatible == "allwinner,sun50i-h6-ccu"
      then Some(Desc(ci)) else None
  {
  }

  /**
   * h6_clk_probe, for a device bound through the compatible string
   * `compatible`: NULL base is -ENOMEM, no matching entry (NULL driver data)
   * is -EINVAL, otherwise the base and the H6 descriptor are stored.
   */
  method Probe(priv: ClkPriv, base: Addr, compatible: string, ci: Clk -> nat) returns (ret: int)
    modifies priv
    ensures priv.base == base
    ensures base == NULL ==> ret == -ENOMEM && priv.desc == old(priv.desc)
    ensures base != NULL ==> priv.desc == DriverData(Ids(ci), compatible)
    ensures base != NULL ==> (ret == 0 <==> priv.desc == Some(Desc(ci)))
    ensures base != NULL && ret != 0 ==> ret == -EINVAL
  {
    MatchedDescriptor(ci, compatible);
    ret := SunxiClk.Probe(priv, base, DriverData(Ids(ci), compatible));
  }

  /** h6_clk_bind: a reset device for 62 IDs sharing the clock device's descriptor. */
  method Bind(bindRet: int, data: Option<CcuDesc>) returns (ret: int, rst: SunxiReset.ResetPriv?)
    ensures bindRet != 0 ==> ret == bindRet && rst == null
    ensures bindRet == 0 ==> ret == 0 && rst != null && fresh(rst)
    ensures rst != null ==> rst.count == ResetCount && rst.desc == data
  {
    ret, rst := SunxiReset.Bind(bindRet, ResetCount, data);
  }

  /* The ID sets in source order, and the facts that every ID is listed and has its own line. */

  /** The ID the i-th initialiser of h6_clks names, in source order. */
  function ClkInit(i: int): Clk {
    match i
    case 0 => Clk.Mmc0
    case 1 => Clk.Mmc1
    case 2 => Clk.Mmc2
    case 3 => Clk.BusMmc0
    case 4 => Clk.BusMmc1
    case _ => Clk.BusMmc2
  }

  /** The position of the initialiser naming each ID. */
  function ClkPos(x: Clk): nat {
    match x
    case Mmc0 => 0
    case Mmc1 => 1
    case Mmc2 => 2
    case BusMmc0 => 3
    case BusMmc1 => 4
    case BusMmc2 => 5
  }

  /** The ID the i-th initialiser of h6_resets names, in source order. */
  function RstInit(i: int): Rst {
    match i
    case 0 => Rst.BusMmc0
    case 1 => Rst.BusMmc1
    case _ => Rst.BusMmc2
  }

  /** The position of the initialiser naming each ID. */
  function RstPos(x: Rst): nat {
    match x
    case BusMmc0 => 0
    case BusMmc1 => 1
    case BusMmc2 => 2
  }

  const ClkIds: seq<Clk> := seq(6, ClkInit)
  const RstIds: seq<Rst> := seq(3, RstInit)

  /** Which clock gates a given line, if any: the intended table read backwards. */
  function ClkAt(l: Line): Option<Clk> {
    if l.off == 0x830 && l.n == 31 then Some(Clk.Mmc0)
    else if l.off == 0x834 && l.n == 31 then Some(Clk.Mmc1)
    else if l.off == 0x838 && l.n == 31 then Some(Clk.Mmc2)
    else if l.off == 0x84c then
      if l.n == 0 then Some(Clk.BusMmc0) else if l.n == 1 then Some(Clk.BusMmc1)
      else if l.n == 2 then Some(Clk.BusMmc2)
      else None
    else None
  }

  /** Which reset line a given line is, if any. */
  function RstAt(l: Line): Option<Rst> {
    if l.off == 0x84c then
      if l.n == 16 then Some(Rst.BusMmc0) else if l.n == 17 then Some(Rst.BusMmc1)
      else if l.n == 18 then Some(Rst.BusMmc2)
      else None
    else None
  }

  /** Each clock ID is listed in ClkIds and is the only one gating its intended line. */
  lemma ClkNamed(c: Clk)
    ensures ClkPos(c) < 6 && ClkInit(ClkPos(c)) == c
    ensures IntendedClkLine(c).off != 0 && ClkAt(IntendedClkLine(c)) == Some(c)
  {
    match c
    case Mmc0 =>
    case Mmc1 =>
    case Mmc2 =>
    case BusMmc0 =>
    case BusMmc1 =>
    case BusMmc2 =>
  }

  /** Each reset ID is listed in RstIds and is the only one on its line. */
  lemma RstNamed(r: Rst)
    ensures RstPos(r) < 3 && RstInit(RstPos(r)) == r
    ensures RstLine(r).off != 0 && RstAt(RstLine(r)) == Some(r)
    ensures ClkRst(RstClk(r)) == Some(r)
  {
    match r
    case BusMmc0 =>
    case BusMmc1 =>
    case BusMmc2 =>
  }

  /** h6_clks names every clock ID and h6_resets every reset ID. */
  lemma AllNamed()
    ensures forall c: Clk :: c in ClkIds
    ensures forall r: Rst :: r in RstIds
  {
    forall c: Clk ensures c in ClkIds {
      ClkNamed(c);
      assert ClkIds[ClkPos(c)] == c;
    }
    forall r: Rst ensures r in RstIds {
      RstNamed(r);
      assert RstIds[RstPos(r)] == r;
    }
  }
}
