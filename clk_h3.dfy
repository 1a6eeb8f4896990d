/**
 * The H3 / H5 clock driver: the gate table h3_clks, the reset table
 * h3_resets, the descriptor pairing them, probe, bind and the of_match table.
 * Clock and reset IDs are symbolic; `ci` and `ri` stand for the numbering the
 * dt-bindings headers give them.
 */
module ClkH3 {
  import opened Base
  import opened Wrappers
  import opened Mmio
  import opened Ccu
  import opened Chip
  import Layout
  import SunxiClk
  import SunxiReset

  /** The clock IDs h3_clks names. */
  datatype Clk =
    | BusMmc0 | BusMmc1 | BusMmc2 | BusSpi0 | BusSpi1 | BusOtg | BusEhci0
    | BusEhci1 | BusEhci2 | BusEhci3 | BusOhci0 | BusOhci1 | BusOhci2 | BusOhci3
    | Mmc0 | Mmc1 | Mmc2 | Spi0 | Spi1 | UsbPhy0 | UsbPhy1
    | UsbPhy2 | UsbPhy3 | UsbOhci0 | UsbOhci1 | UsbOhci2 | UsbOhci3

  /** The reset IDs h3_resets names. */
  datatype Rst =
    | UsbPhy0 | UsbPhy1 | UsbPhy2 | UsbPhy3 | BusMmc0 | BusMmc1 | BusMmc2
    | BusOtg | BusEhci0 | BusEhci1 | BusEhci2 | BusEhci3 | BusOhci0 | BusOhci1
    | BusOhci2 | BusOhci3

  /** The gate of each clock: bus gates in 0x060, module clocks in 0x088..0x0a4, USB in 0x0cc. */
  function ClkLine(c: Clk): Line {
    match c
    case BusMmc0 => Line(0x060, 8)
    case BusMmc1 => Line(0x060, 9)
    case BusMmc2 => Line(0x060, 10)
    case BusSpi0 => Line(0x060, 20)
    case BusSpi1 => Line(0x060, 21)
    case BusOtg => Line(0x060, 23)
    case BusEhci0 => Line(0x060, 24)
    case BusEhci1 => Line(0x060, 25)
    case BusEhci2 => Line(0x060, 26)
    case BusEhci3 => Line(0x060, 27)
    case BusOhci0 => Line(0x060, 28)
    case BusOhci1 => Line(0x060, 29)
    case BusOhci2 => Line(0x060, 30)
    case BusOhci3 => Line(0x060, 31)
    case Mmc0 => Line(0x088, 31)
    case Mmc1 => Line(0x08c, 31)
    case Mmc2 => Line(0x090, 31)
    case Spi0 => Line(0x0a0, 31)
    case Spi1 => Line(0x0a4, 31)
    case UsbPhy0 => Line(0x0cc, 8)
    case UsbPhy1 => Line(0x0cc, 9)
    case UsbPhy2 => Line(0x0cc, 10)
    case UsbPhy3 => Line(0x0cc, 11)
    case UsbOhci0 => Line(0x0cc, 16)
    case UsbOhci1 => Line(0x0cc, 17)
    case UsbOhci2 => Line(0x0cc, 18)
    case UsbOhci3 => Line(0x0cc, 19)
  }

  /** Only the MMC module clocks carry mmc_clk_set_rate; every other entry has NULL. */
  predicate HasSetRate(c: Clk) {
    c.Mmc0? || c.Mmc1? || c.Mmc2?
  }

  /** The h3_clks entry of each clock. */
  function ClkEntry(c: Clk): ClkMap {
    Gate(ClkLine(c), HasSetRate(c))
  }

  /** The line each reset ID controls: USB PHYs in 0x0cc, bus resets in 0x2c0. */
  function RstLine(r: Rst): Line {
    match r
    case UsbPhy0 => Line(0x0cc, 0)
    case UsbPhy1 => Line(0x0cc, 1)
    case UsbPhy2 => Line(0x0cc, 2)
    case UsbPhy3 => Line(0x0cc, 3)
    case BusMmc0 => Line(0x2c0, 8)
    case BusMmc1 => Line(0x2c0, 9)
    case BusMmc2 => Line(0x2c0, 10)
    case BusOtg => Line(0x2c0, 23)
    case BusEhci0 => Line(0x2c0, 24)
    case BusEhci1 => Line(0x2c0, 25)
    case BusEhci2 => Line(0x2c0, 26)
    case BusEhci3 => Line(0x2c0, 27)
    case BusOhci0 => Line(0x2c0, 28)
    case BusOhci1 => Line(0x2c0, 29)
    case BusOhci2 => Line(0x2c0, 30)
    case BusOhci3 => Line(0x2c0, 31)
  }

  /** The h3_resets entry of each reset ID. */
  function RstEntry(r: Rst): ResetMap {
    Reset(RstLine(r))
  }

  /** h3_clks, laid out by the numbering `ci`. */
  function Clks(ci: Clk -> nat): seq<ClkMap> {
    Layout.Fill(ClkIds, ci, ClkEntry, NoClk)
  }

  /** h3_resets, laid out by the numbering `ri`. */
  function Rsts(ri: Rst -> nat): seq<ResetMap> {
    Layout.Fill(RstIds, ri, RstEntry, NoReset)
  }

  /**
   * With distinct numbers for distinct clocks, every clock finds its own entry
   * in h3_clks and every slot no clock is numbered to is a zero-filled hole.
   */
  lemma ClkTable(ci: Clk -> nat)
    requires Layout.Injective(ci)
    ensures forall c :: ci(c) < |Clks(ci)| && Clks(ci)[ci(c)] == ClkEntry(c)
    ensures forall i :: 0 <= i < |Clks(ci)| && (forall c :: ci(c) != i) ==> Clks(ci)[i] == NoClk
  {
    AllNamed();
    Layout.FillAll(ClkIds, ci, ClkEntry, NoClk);
  }

  /** The same for h3_resets. */
  lemma RstTable(ri: Rst -> nat)
    requires Layout.Injective(ri)
    ensures forall r :: ri(r) < |Rsts(ri)| && Rsts(ri)[ri(r)] == RstEntry(r)
    ensures forall i :: 0 <= i < |Rsts(ri)| && (forall r :: ri(r) != i) ==> Rsts(ri)[i] == NoReset
  {
    AllNamed();
    Layout.FillAll(RstIds, ri, RstEntry, NoReset);
  }

  /** sun8i_h3_ccu_desc */
  function Desc(ci: Clk -> nat, ri: Rst -> nat): CcuDesc {
    CcuDesc(Clks(ci), Rsts(ri))
  }

  /** Every H3 clock and every H3 reset line has a line of its own. */
  lemma LinesSeparate()
    ensures Separate(ClkLine) && Separate(RstLine)
  {
    forall c: Clk ensures ClkLine(c).off != 0 && ClkAt(ClkLine(c)) == Some(c) {
      ClkNamed(c);
    }
    forall r: Rst ensures RstLine(r).off != 0 && RstAt(RstLine(r)) == Some(r) {
      RstNamed(r);
    }
  }

  /** The reset count h3_clk_bind hands to sunxi_reset_bind. */
  const ResetCount: nat := 53

  /** h3_clk_ids: the H3 and the H5 share one descriptor. */
  function Ids(ci: Clk -> nat, ri: Rst -> nat): seq<MatchEntry> {
    [MatchEntry("allwinner,sun8i-h3-ccu", Desc(ci, ri)),
     MatchEntry("allwinner,sun50i-h5-ccu", Desc(ci, ri))]
  }

  /** A device matched as H3 or as H5 gets the one descriptor; any other gets none. */
  lemma MatchedDescriptor(ci: Clk -> nat, ri: Rst -> nat, compatible: string)
    ensures DriverData(Ids(ci, ri), compatible) ==
      if compatible == "allwinner,sun8i-h3-ccu" || compatible == "allwinner,sun50i-h5-ccu"
      then Some(Desc(ci, ri)) else None
  {
  }

  /**
   * h3_clk_probe, for a device bound through the compatible string
   * `compatible`: NULL base is -ENOMEM, no matching entry (NULL driver data)
   * is -EINVAL, otherwise the base and the H3 descriptor are stored.
   */
  method Probe(priv: ClkPriv, base: Addr, compatible: string, ci: Clk -> nat, ri: Rst -> nat) returns (ret: int)
    modifies priv
    ensures priv.base == base
    ensures base == NULL ==> ret == -ENOMEM && priv.desc == old(priv.desc)
    ensures base != NULL ==> priv.desc == DriverData(Ids(ci, ri), compatible)
    ensures base != NULL ==> (ret == 0 <==> priv.desc == Some(Desc(ci, ri)))
    ensures base != NULL && ret != 0 ==> ret == -EINVAL
  {
    MatchedDescriptor(ci, ri, compatible);
    ret := SunxiClk.Probe(priv, base, DriverData(Ids(ci, ri), compatible));
  }

  /** h3_clk_bind: a reset device for 53 IDs sharing the clock device's descriptor. */
  method Bind(bindRet: int, data: Option<CcuDesc>) returns (ret: int, rst: SunxiReset.ResetPriv?)
    ensures bindRet != 0 ==> ret == bindRet && rst == null
    ensures bindRet == 0 ==> ret == 0 && rst != null && fresh(rst)
    ensures rst != null ==> rst.count == ResetCount && rst.desc == data
  {
    ret, rst := SunxiReset.Bind(bindRet, ResetCount, data);
  }

  /* The ID sets in source order, and the facts that every ID is listed and has its own line. */

  /** The ID the i-th initialiser of h3_clks names, in source order. */
  function ClkInit(i: int): Clk {
    match i
    case 0 => Clk.BusMmc0
    case 1 => Clk.BusMmc1
    case 2 => Clk.BusMmc2
    case 3 => Clk.BusSpi0
    case 4 => Clk.BusSpi1
    case 5 => Clk.BusOtg
    case 6 => Clk.BusEhci0
    case 7 => Clk.BusEhci1
    case 8 => Clk.BusEhci2
    case 9 => Clk.BusEhci3
    case 10 => Clk.BusOhci0
    case 11 => Clk.BusOhci1
    case 12 => Clk.BusOhci2
    case 13 => Clk.BusOhci3
    case 14 => Clk.Mmc0
    case 15 => Clk.Mmc1
    case 16 => Clk.Mmc2
    case 17 => Clk.Spi0
    case 18 => Clk.Spi1
    case 19 => Clk.UsbPhy0
    case 20 => Clk.UsbPhy1
    case 21 => Clk.UsbPhy2
    case 22 => Clk.UsbPhy3
    case 23 => Clk.UsbOhci0
    case 24 => Clk.UsbOhci1
    case 25 => Clk.UsbOhci2
    case _ => Clk.UsbOhci3
  }

  /** The position of the initialiser naming each ID. */
  function ClkPos(x: Clk): nat {
    match x
    case BusMmc0 => 0
    case BusMmc1 => 1
    case BusMmc2 => 2
    case BusSpi0 => 3
    case BusSpi1 => 4
    case BusOtg => 5
    case BusEhci0 => 6
    case BusEhci1 => 7
    case BusEhci2 => 8
    case BusEhci3 => 9
    case BusOhci0 => 10
    case BusOhci1 => 11
    case BusOhci2 => 12
    case BusOhci3 => 13
    case Mmc0 => 14
    case Mmc1 => 15
    case Mmc2 => 16
    case Spi0 => 17
    case Spi1 => 18
    case UsbPhy0 => 19
    case UsbPhy1 => 20
    case UsbPhy2 => 21
    case UsbPhy3 => 22
    case UsbOhci0 => 23
    case UsbOhci1 => 24
    case UsbOhci2 => 25
    case UsbOhci3 => 26
  }

  /** The ID the i-th initialiser of h3_resets names, in source order. */
  function RstInit(i: int): Rst {
    match i
    case 0 => Rst.UsbPhy0
    case 1 => Rst.UsbPhy1
    case 2 => Rst.UsbPhy2
    case 3 => Rst.UsbPhy3
    case 4 => Rst.BusMmc0
    case 5 => Rst.BusMmc1
    case 6 => Rst.BusMmc2
    case 7 => Rst.BusOtg
    case 8 => Rst.BusEhci0
    case 9 => Rst.BusEhci1
    case 10 => Rst.BusEhci2
    case 11 => Rst.BusEhci3
    case 12 => Rst.BusOhci0
    case 13 => Rst.BusOhci1
    case 14 => Rst.BusOhci2
    case _ => Rst.BusOhci3
  }

  /** The position of the initialiser naming each ID. */
  function RstPos(x: Rst): nat {
    match x
    case UsbPhy0 => 0
    case UsbPhy1 => 1
    case UsbPhy2 => 2
    case UsbPhy3 => 3
    case BusMmc0 => 4
    case BusMmc1 => 5
    case BusMmc2 => 6
    case BusOtg => 7
    case BusEhci0 => 8
    case BusEhci1 => 9
    case BusEhci2 => 10
    case BusEhci3 => 11
    case BusOhci0 => 12
    case BusOhci1 => 13
    case BusOhci2 => 14
    case BusOhci3 => 15
  }

  const ClkIds: seq<Clk> := seq(27, ClkInit)
  const RstIds: seq<Rst> := seq(16, RstInit)

  /** Which clock gates a given line, if any: the table read backwards. */
  function ClkAt(l: Line): Option<Clk> {
    if l.off == 0x060 then
      if l.n == 8 then Some(Clk.BusMmc0) else if l.n == 9 then Some(Clk.BusMmc1)
      else if l.n == 10 then Some(Clk.BusMmc2) else if l.n == 20 then Some(Clk.BusSpi0)
      else if l.n == 21 then Some(Clk.BusSpi1) else if l.n == 23 then Some(Clk.BusOtg)
      else if l.n == 24 then Some(Clk.BusEhci0) else if l.n == 25 then Some(Clk.BusEhci1)
      else if l.n == 26 then Some(Clk.BusEhci2) else if l.n == 27 then Some(Clk.BusEhci3)
      else if l.n == 28 then Some(Clk.BusOhci0) else if l.n == 29 then Some(Clk.BusOhci1)
      else if l.n == 30 then Some(Clk.BusOhci2) else if l.n == 31 then Some(Clk.BusOhci3)
      else None
    else if l.off == 0x088 && l.n == 31 then Some(Clk.Mmc0)
    else if l.off == 0x08c && l.n == 31 then Some(Clk.Mmc1)
    else if l.off == 0x090 && l.n == 31 then Some(Clk.Mmc2)
    else if l.off == 0x0a0 && l.n == 31 then Some(Clk.Spi0)
    else if l.off == 0x0a4 && l.n == 31 then Some(Clk.Spi1)
    else if l.off == 0x0cc then
      if l.n == 8 then Some(Clk.UsbPhy0) else if l.n == 9 then Some(Clk.UsbPhy1)
      else if l.n == 10 then Some(Clk.UsbPhy2) else if l.n == 11 then Some(Clk.UsbPhy3)
      else if l.n == 16 then Some(Clk.UsbOhci0) else if l.n == 17 then Some(Clk.UsbOhci1)
      else if l.n == 18 then Some(Clk.UsbOhci2) else if l.n == 19 then Some(Clk.UsbOhci3)
      else None
    else None
  }

  /** Which reset line a given line is, if any. */
  function RstAt(l: Line): Option<Rst> {
    if l.off == 0x0cc then
      if l.n == 0 then Some(Rst.UsbPhy0) else if l.n == 1 then Some(Rst.UsbPhy1)
      else if l.n == 2 then Some(Rst.UsbPhy2) else if l.n == 3 then Some(Rst.UsbPhy3)
      else None
    else if l.off == 0x2c0 then
      if l.n == 8 then Some(Rst.BusMmc0) else if l.n == 9 then Some(Rst.BusMmc1)
      else if l.n == 10 then Some(Rst.BusMmc2) else if l.n == 23 then Some(Rst.BusOtg)
      else if l.n == 24 then Some(Rst.BusEhci0) else if l.n == 25 then Some(Rst.BusEhci1)
      else if l.n == 26 then Some(Rst.BusEhci2) else if l.n == 27 then Some(Rst.BusEhci3)
      else if l.n == 28 then Some(Rst.BusOhci0) else if l.n == 29 then Some(Rst.BusOhci1)
      else if l.n == 30 then Some(Rst.BusOhci2) else if l.n == 31 then Some(Rst.BusOhci3)
      else None
    else None
  }

  /** Each clock ID is listed in ClkIds and is the only one gating its line. */
  lemma ClkNamed(c: Clk)
    ensures ClkPos(c) < 27 && ClkInit(ClkPos(c)) == c
    ensures ClkLine(c).off != 0 && ClkAt(ClkLine(c)) == Some(c)
  {
    match c
    case BusMmc0 =>
    case BusMmc1 =>
    case BusMmc2 =>
    case BusSpi0 =>
    case BusSpi1 =>
    case BusOtg =>
    case BusEhci0 =>
    case BusEhci1 =>
    case BusEhci2 =>
    case BusEhci3 =>
    case BusOhci0 =>
    case BusOhci1 =>
    case BusOhci2 =>
    case BusOhci3 =>
    case Mmc0 =>
    case Mmc1 =>
    case Mmc2 =>
    case Spi0 =>
    case Spi1 =>
    case UsbPhy0 =>
    case UsbPhy1 =>
    case UsbPhy2 =>
    case UsbPhy3 =>
    case UsbOhci0 =>
    case UsbOhci1 =>
    case UsbOhci2 =>
    case UsbOhci3 =>
  }

  /** Each reset ID is listed in RstIds and is the only one on its line. */
  lemma RstNamed(r: Rst)
    ensures RstPos(r) < 16 && RstInit(RstPos(r)) == r
    ensures RstLine(r).off != 0 && RstAt(RstLine(r)) == Some(r)
  {
    match r
    case UsbPhy0 =>
    case UsbPhy1 =>
    case UsbPhy2 =>
    case UsbPhy3 =>
    case BusMmc0 =>
    case BusMmc1 =>
    case BusMmc2 =>
    case BusOtg =>
    case BusEhci0 =>
    case BusEhci1 =>
    case BusEhci2 =>
    case BusEhci3 =>
    case BusOhci0 =>
    case BusOhci1 =>
    case BusOhci2 =>
    case BusOhci3 =>
  }

  /** h3_clks names every clock ID and h3_resets every reset ID. */
  lemma AllNamed()
    ensures forall c: Clk :: c in ClkIds
    ensures forall r: Rst :: r in RstIds
  {
    forall c: Clk ensures c in ClkIds {
      ClkNamed(c);
      assert ClkIds[ClkPos(c)] == c;
    }
    forall r: Rst ensures r in RstIds {
      RstNamed(r);
      assert RstIds[RstPos(r)] == r;
    }
  }
}
