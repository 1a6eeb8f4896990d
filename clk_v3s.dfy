/**
 * The V3S clock driver: the gate table v3s_clks, the reset table
 * v3s_resets, the descriptor pairing them, probe, bind and the of_match
 * table. Clock and reset IDs are symbolic; `ci` and `ri` stand for the
 * numbering the dt-bindings headers give them.
 */
module ClkV3s {
  import opened Base
  import opened Wrappers
  import opened Mmio
  import opened Ccu
  import opened Chip
  import Layout
  import SunxiClk
  import SunxiReset

  /** The clock IDs v3s_clks names. */
  datatype Clk =
    | BusMmc0 | BusMmc1 | BusMmc2 | BusSpi0 | BusOtg | Mmc0 | Mmc1
    | Mmc2 | Spi0 | UsbPhy0

  /** The reset IDs v3s_resets names. */
  datatype Rst =
    | UsbPhy0 | BusMmc0 | BusMmc1 | BusMmc2 | BusSpi0 | BusOtg

  /** The gate of each clock: bus gates in 0x060, module clocks in 0x088..0x0a0, USB in 0x0cc. */
  function ClkLine(c: Clk): Line {
    match c
    case BusMmc0 => Line(0x060, 8)
    case BusMmc1 => Line(0x060, 9)
    case BusMmc2 => Line(0x060, 10)
    case BusSpi0 => Line(0x060, 20)
    case BusOtg => Line(0x060, 24)
    case Mmc0 => Line(0x088, 31)
    case Mmc1 => Line(0x08c, 31)
    case Mmc2 => Line(0x090, 31)
    case Spi0 => Line(0x0a0, 31)
    case UsbPhy0 => Line(0x0cc, 8)
  }

  /** Only the MMC module clocks carry mmc_clk_set_rate; every other entry has NULL. */
  predicate HasSetRate(c: Clk) {
    c.Mmc0? || c.Mmc1? || c.Mmc2?
  }

  /** The v3s_clks entry of each clock. */
  function ClkEntry(c: Clk): ClkMap {
    Gate(ClkLine(c), HasSetRate(c))
  }

  /** The line each reset ID controls: the USB PHY in 0x0cc, bus resets in 0x2c0. */
  function RstLine(r: Rst): Line {
    match r
    case UsbPhy0 => Line(0x0cc, 0)
    case BusMmc0 => Line(0x2c0, 8)
    case BusMmc1 => Line(0x2c0, 9)
    case BusMmc2 => Line(0x2c0, 10)
    case BusSpi0 => Line(0x2c0, 20)
    case BusOtg => Line(0x2c0, 24)
  }

  /** The v3s_resets entry of each reset ID. */
  function RstEntry(r: Rst): ResetMap {
    Reset(RstLine(r))
  }

  /** v3s_clks, laid out by the numbering `ci`. */
  function Clks(ci: Clk -> nat): seq<ClkMap> {
    Layout.Fill(ClkIds, ci, ClkEntry, NoClk)
  }

  /** v3s_resets, laid out by the numbering `ri`. */
  function Rsts(ri: Rst -> nat): seq<ResetMap> {
    Layout.Fill(RstIds, ri, RstEntry, NoReset)
  }

  /**
   * With distinct numbers for distinct clocks, every clock finds its own entry
   * in v3s_clks and every slot no clock is numbered to is a zero-filled hole.
   */
  lemma ClkTable(ci: Clk -> nat)
    requires Layout.Injective(ci)
    ensures forall c :: ci(c) < |Clks(ci)| && Clks(ci)[ci(c)] == ClkEntry(c)
    ensures forall i :: 0 <= i < |Clks(ci)| && (forall c :: ci(c) != i) ==> Clks(ci)[i] == NoClk
  {
    AllNamed();
    Layout.FillAll(ClkIds, ci, ClkEntry, NoClk);
  }

  /** The same for v3s_resets. */
  lemma RstTable(ri: Rst -> nat)
    requires Layout.Injective(ri)
    ensures forall r :: ri(r) < |Rsts(ri)| && Rsts(ri)[ri(r)] == RstEntry(r)
    ensures forall i :: 0 <= i < |Rsts(ri)| && (forall r :: ri(r) != i) ==> Rsts(ri)[i] == NoReset
  {
    AllNamed();
    Layout.FillAll(RstIds, ri, RstEntry, NoReset);
  }

  /** sun8i_v3s_ccu_desc */
  function Desc(ci: Clk -> nat, ri: Rst -> nat): CcuDesc {
    CcuDesc(Clks(ci), Rsts(ri))
  }

  /** Every V3S clock and every V3S reset line has a line of its own. */
  lemma LinesSeparate()
    ensures Separate(ClkLine) && Separate(RstLine)
  {
    forall c: Clk ensures ClkLine(c).off != 0 && ClkAt(ClkLine(c)) == Some(c) {
      ClkNamed(c);
    }
    forall r: Rst ensures RstLine(r).off != 0 && RstAt(RstLine(r)) == Some(r) {
      RstNamed(r);
    }
  }

  /** The reset count v3s_clk_bind hands to sunxi_reset_bind. */
  const ResetCount: nat := 53

  /** v3s_clk_ids: one entry, for the V3S. */
  function Ids(ci: Clk -> nat, ri: Rst -> nat): seq<MatchEntry> {
    [MatchEntry("allwinner,sun8i-v3s-ccu", Desc(ci, ri))]
  }

  /** A device matched as V3S gets the descriptor; any other gets none. */
  lemma MatchedDescriptor(ci: Clk -> nat, ri: Rst -> nat, compatible: string)
    ensures DriverData(Ids(ci, ri), compatible) ==
      if compatible == "allwinner,sun8i-v3s-ccu"
      then Some(Desc(ci, ri)) else None
  {
  }

  /**
   * v3s_clk_probe, for a device bound through the compatible string
   * `compatible`: NULL base is -ENOMEM, no matching entry (NULL driver data)
   * is -EINVAL, otherwise the base and the V3S descriptor are stored.
   */
  method Probe(priv: ClkPriv, base: Addr, compatible: string, ci: Clk -> nat, ri: Rst -> nat) returns (ret: int)
    modifies priv
    ensures priv.base == base
    ensures base == NULL ==> ret == -ENOMEM && priv.desc == old(priv.desc)
    ensures base != NULL ==> priv.desc == DriverData(Ids(ci, ri), compatible)
    ensures base != NULL ==> (ret == 0 <==> priv.desc == Some(Desc(ci, ri)))
    ensures base != NULL && ret != 0 ==> ret == -EINVAL
  {
    MatchedDescriptor(ci, ri, compatible);
    ret := SunxiClk.Probe(priv, base, DriverData(Ids(ci, ri), compatible));
  }

  /** v3s_clk_bind: a reset device for 53 IDs sharing the clock device's descriptor. */
  method Bind(bindRet: int, data: Option<CcuDesc>) returns (ret: int, rst: SunxiReset.ResetPriv?)
    ensures bindRet != 0 ==> ret == bindRet && rst == null
    ensures bindRet == 0 ==> ret == 0 && rst != null && fresh(rst)
    ensures rst != null ==> rst.count == ResetCount && rst.desc == data
  {
    ret, rst := SunxiReset.Bind(bindRet, ResetCount, data);
  }

  /* The ID sets in source order, and the facts that every ID is listed and has its own line. */

  /** The ID the i-th initialiser of v3s_clks names, in source order. */
  function ClkInit(i: int): Clk {
    match i
    case 0 => Clk.BusMmc0
    case 1 => Clk.BusMmc1
    case 2 => Clk.BusMmc2
    case 3 => Clk.BusSpi0
    case 4 => Clk.BusOtg
    case 5 => Clk.Mmc0
    case 6 => Clk.Mmc1
    case 7 => Clk.Mmc2
    case 8 => Clk.Spi0
    case _ => Clk.UsbPhy0
  }

  /** The position of the initialiser naming each ID. */
  function ClkPos(x: Clk): nat {
    match x
    case BusMmc0 => 0
    case BusMmc1 => 1
    case BusMmc2 => 2
    case BusSpi0 => 3
    case BusOtg => 4
    case Mmc0 => 5
    case Mmc1 => 6
    case Mmc2 => 7
    case Spi0 => 8
    case UsbPhy0 => 9
  }

  /** The ID the i-th initialiser of v3s_resets names, in source order. */
  function RstInit(i: int): Rst {
    match i
    case 0 => Rst.UsbPhy0
    case 1 => Rst.BusMmc0
    case 2 => Rst.BusMmc1
    case 3 => Rst.BusMmc2
    case 4 => Rst.BusSpi0
    case _ => Rst.BusOtg
  }

  /** The position of the initialiser naming each ID. */
  function RstPos(x: Rst): nat {
    match x
    case UsbPhy0 => 0
    case BusMmc0 => 1
    case BusMmc1 => 2
    case BusMmc2 => 3
    case BusSpi0 => 4
    case BusOtg => 5
  }

  const ClkIds: seq<Clk> := seq(10, ClkInit)
  const RstIds: seq<Rst> := seq(6, RstInit)

  /** Which clock gates a given line, if any: the table read backwards. */
  function ClkAt(l: Line): Option<Clk> {
    if l.off == 0x060 then
      if l.n == 8 then Some(Clk.BusMmc0) else if l.n == 9 then Some(Clk.BusMmc1)
      else if l.n == 10 then Some(Clk.BusMmc2) else if l.n == 20 then Some(Clk.BusSpi0)
      else if l.n == 24 then Some(Clk.BusOtg)
      else None
    else if l.off == 0x088 && l.n == 31 then Some(Clk.Mmc0)
    else if l.off == 0x08c && l.n == 31 then Some(Clk.Mmc1)
    else if l.off == 0x090 && l.n == 31 then Some(Clk.Mmc2)
    else if l.off == 0x0a0 && l.n == 31 then Some(Clk.Spi0)
    else if l.off == 0x0cc && l.n == 8 then Some(Clk.UsbPhy0)
    else None
  }

  /** Which reset line a given line is, if any. */
  function RstAt(l: Line): Option<Rst> {
    if l.off == 0x0cc && l.n == 0 then Some(Rst.UsbPhy0)
    else if l.off == 0x2c0 then
      if l.n == 8 then Some(Rst.BusMmc0) else if l.n == 9 then Some(Rst.BusMmc1)
      else if l.n == 10 then Some(Rst.BusMmc2) else if l.n == 20 then Some(Rst.BusSpi0)
      else if l.n == 24 then Some(Rst.BusOtg)
      else None
    else None
  }

  /** Each clock ID is listed in ClkIds and is the only one gating its line. */
  lemma ClkNamed(c: Clk)
    ensures ClkPos(c) < 10 && ClkInit(ClkPos(c)) == c
    ensures ClkLine(c).off != 0 && ClkAt(ClkLine(c)) == Some(c)
  {
    match c
    case BusMmc0 =>
    case BusMmc1 =>
    case BusMmc2 =>
    case BusSpi0 =>
    case BusOtg =>
    case Mmc0 =>
    case Mmc1 =>
    case Mmc2 =>
    case Spi0 =>
    case UsbPhy0 =>
  }

  /** Each reset ID is listed in RstIds and is the only one on its line. */
  lemma RstNamed(r: Rst)
    ensures RstPos(r) < 6 && RstInit(RstPos(r)) == r
    ensures RstLine(r).off != 0 && RstAt(RstLine(r)) == Some(r)
  {
    match r
    case UsbPhy0 =>
    case BusMmc0 =>
    case BusMmc1 =>
    case BusMmc2 =>
    case BusSpi0 =>
    case BusOtg =>
  }

  /** v3s_clks names every clock ID and v3s_resets every reset ID. */
  lemma AllNamed()
    ensures forall c: Clk :: c in ClkIds
    ensures forall r: Rst :: r in RstIds
  {
    forall c: Clk ensures c in ClkIds {
      ClkNamed(c);
      assert ClkIds[ClkPos(c)] == c;
    }
    forall r: Rst ensures r in RstIds {
      RstNamed(r);
      assert RstIds[RstPos(r)] == r;
    }
  }
}
