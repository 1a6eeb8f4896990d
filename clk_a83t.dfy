/**
 * The A83T clock driver: the gate table a83t_clks, the reset table
 * a83t_resets, the descriptor pairing them, probe, bind and the of_match
 * table. Clock and reset IDs are symbolic; `ci` and `ri` stand for the
 * numbering the dt-bindings headers give them.
 */
module ClkA83t {
  import opened Base
  import opened Wrappers
  import opened Mmio
  import opened Ccu
  import opened Chip
  import Layout
  import SunxiClk
  import SunxiReset

  /** The clock IDs a83t_clks names. */
  datatype Clk =
    | BusMmc0 | BusMmc1 | BusMmc2 | BusEmac | BusOtg | BusEhci0 | BusEhci1
    | BusOhci0 | BusUart0 | BusUart1 | BusUart2 | BusUart3 | BusUart4 | Mmc0
    | Mmc1 | Mmc2 | UsbPhy0 | UsbPhy1 | UsbHsic | UsbHsic12m | UsbOhci0

  /** The reset IDs a83t_resets names. */
  datatype Rst =
    | UsbPhy0 | UsbPhy1 | UsbHsic | BusMmc0 | BusMmc1 | BusMmc2 | BusOtg
    | BusEhci0 | BusEhci1 | BusOhci0 | BusUart0 | BusUart1 | BusUart2 | BusUart3
    | BusUart4

  /** The gate of each clock: bus gates in 0x060 and 0x06c, MMC module clocks in 0x088..0x090, USB in 0x0cc. */
  function ClkLine(c: Clk): Line {
    match c
    case BusMmc0 => Line(0x060, 8)
    case BusMmc1 => Line(0x060, 9)
    case BusMmc2 => Line(0x060, 10)
    case BusEmac => Line(0x060, 17)
    case BusOtg => Line(0x060, 24)
    case BusEhci0 => Line(0x060, 26)
    case BusEhci1 => Line(0x060, 27)
    case BusOhci0 => Line(0x060, 29)
    case BusUart0 => Line(0x06c, 16)
    case BusUart1 => Line(0x06c, 17)
    case BusUart2 => Line(0x06c, 18)
    case BusUart3 => Line(0x06c, 19)
    case BusUart4 => Line(0x06c, 20)
    case Mmc0 => Line(0x088, 31)
    case Mmc1 => Line(0x08c, 31)
    case Mmc2 => Line(0x090, 31)
    case UsbPhy0 => Line(0x0cc, 8)
    case UsbPhy1 => Line(0x0cc, 9)
    case UsbHsic => Line(0x0cc, 10)
    case UsbHsic12m => Line(0x0cc, 11)
    case UsbOhci0 => Line(0x0cc, 16)
  }

  /** Only the MMC module clocks carry mmc_clk_set_rate; every other entry has NULL. */
  predicate HasSetRate(c: Clk) {
    c.Mmc0? || c.Mmc1? || c.Mmc2?
  }

  /** The a83t_clks entry of each clock. */
  function ClkEntry(c: Clk): ClkMap {
    Gate(ClkLine(c), HasSetRate(c))
  }

  /** The line each reset ID controls: USB in 0x0cc, bus resets in 0x2c0 and 0x2d8. */
  function RstLine(r: Rst): Line {
    match r
    case UsbPhy0 => Line(0x0cc, 0)
    case UsbPhy1 => Line(0x0cc, 1)
    case UsbHsic => Line(0x0cc, 2)
    case BusMmc0 => Line(0x2c0, 8)
    case BusMmc1 => Line(0x2c0, 9)
    case BusMmc2 => Line(0x2c0, 10)
    case BusOtg => Line(0x2c0, 24)
    case BusEhci0 => Line(0x2c0, 26)
    case BusEhci1 => Line(0x2c0, 27)
    case BusOhci0 => Line(0x2c0, 29)
    case BusUart0 => Line(0x2d8, 16)
    case BusUart1 => Line(0x2d8, 17)
    case BusUart2 => Line(0x2d8, 18)
    case BusUart3 => Line(0x2d8, 19)
    case BusUart4 => Line(0x2d8, 20)
  }

  /** The a83t_resets entry of each reset ID. */
  function RstEntry(r: Rst): ResetMap {
    Reset(RstLine(r))
  }

  /** a83t_clks, laid out by the numbering `ci`. */
  function Clks(ci: Clk -> nat): seq<ClkMap> {
    Layout.Fill(ClkIds, ci, ClkEntry, NoClk)
  }

  /** a83t_resets, laid out by the numbering `ri`. */
  function Rsts(ri: Rst -> nat): seq<ResetMap> {
    Layout.Fill(RstIds, ri, RstEntry, NoReset)
  }

  /**
   * With distinct numbers for distinct clocks, every clock finds its own entry
   * in a83t_clks and every slot no clock is numbered to is a zero-filled hole.
   */
  lemma ClkTable(ci: Clk -> nat)
    requires Layout.Injective(ci)
    ensures forall c :: ci(c) < |Clks(ci)| && Clks(ci)[ci(c)] == ClkEntry(c)
    ensures forall i :: 0 <= i < |Clks(ci)| && (forall c :: ci(c) != i) ==> Clks(ci)[i] == NoClk
  {
    AllNamed();
    Layout.FillAll(ClkIds, ci, ClkEntry, NoClk);
  }

  /** The same for a83t_resets. */
  lemma RstTable(ri: Rst -> nat)
    requires Layout.Injective(ri)
    ensures forall r :: ri(r) < |Rsts(ri)| && Rsts(ri)[ri(r)] == RstEntry(r)
    ensures forall i :: 0 <= i < |Rsts(ri)| && (forall r :: ri(r) != i) ==> Rsts(ri)[i] == NoReset
  {
    AllNamed();
    Layout.FillAll(RstIds, ri, RstEntry, NoReset);
  }

  /** sun8i_a83t_ccu_desc */
  function Desc(ci: Clk -> nat, ri: Rst -> nat): CcuDesc {
    CcuDesc(Clks(ci), Rsts(ri))
  }

  /** Every A83T clock and every A83T reset line has a line of its own. */
  lemma LinesSeparate()
    ensures Separate(ClkLine) && Separate(RstLine)
  {
    forall c: Clk ensures ClkLine(c).off != 0 && ClkAt(ClkLine(c)) == Some(c) {
      ClkNamed(c);
    }
    forall r: Rst ensures RstLine(r).off != 0 && RstAt(RstLine(r)) == Some(r) {
      RstNamed(r);
    }
  }

  /** The reset count a83t_clk_bind hands to sunxi_reset_bind. */
  const ResetCount: nat := 44

  /** a83t_clk_ids: one entry, for the A83T. */
  function Ids(ci: Clk -> nat, ri: Rst -> nat): seq<MatchEntry> {
    [MatchEntry("allwinner,sun8i-a83t-ccu", Desc(ci, ri))]
  }

  /** A device matched as A83T gets the descriptor; any other gets none. */
  lemma MatchedDescriptor(ci: Clk -> nat, ri: Rst -> nat, compatible: string)
    ensures DriverData(Ids(ci, ri), compatible) ==
      if compatible == "allwinner,sun8i-a83t-ccu"
      then Some(Desc(ci, ri)) else None
  {
  }

  /**
   * a83t_clk_probe, for a device bound through the compatible string
   * `compatible`: NULL base is -ENOMEM, no matching entry (NULL driver data)
   * is -EINVAL, otherwise the base and the A83T descriptor are stored.
   */
  method Probe(priv: ClkPriv, base: Addr, compatible: string, ci: Clk -> nat, ri: Rst -> nat) returns (ret: int)
    modifies priv
    ensures priv.base == base
    ensures base == NULL ==> ret == -ENOMEM && priv.desc == old(priv.desc)
    ensures base != NULL ==> priv.desc == DriverData(Ids(ci, ri), compatible)
    ensures base != NULL ==> (ret == 0 <==> priv.desc == Some(Desc(ci, ri)))
    ensures base != NULL && ret != 0 ==> ret == -EINVAL
  {
    MatchedDescriptor(ci, ri, compatible);
    ret := SunxiClk.Probe(priv, base, DriverData(Ids(ci, ri), compatible));
  }

  /** a83t_clk_bind: a reset device for 44 IDs sharing the clock device's descriptor. */
  method Bind(bindRet: int, data: Option<CcuDesc>) returns (ret: int, rst: SunxiReset.ResetPriv?)
    ensures bindRet != 0 ==> ret == bindRet && rst == null
    ensures bindRet == 0 ==> ret == 0 && rst != null && fresh(rst)
    ensures rst != null ==> rst.count == ResetCount && rst.desc == data
  {
    ret, rst := SunxiReset.Bind(bindRet, ResetCount, data);
  }

  /* The ID sets in source order, and the facts that every ID is listed and has its own line. */

  /** The ID the i-th initialiser of a83t_clks names, in source order. */
  function ClkInit(i: int): Clk {
    match i
    case 0 => Clk.BusMmc0
    case 1 => Clk.BusMmc1
    case 2 => Clk.BusMmc2
    case 3 => Clk.BusEmac
    case 4 => Clk.BusOtg
    case 5 => Clk.BusEhci0
    case 6 => Clk.BusEhci1
    case 7 => Clk.BusOhci0
    case 8 => Clk.BusUart0
    case 9 => Clk.BusUart1
    case 10 => Clk.BusUart2
    case 11 => Clk.BusUart3
    case 12 => Clk.BusUart4
    case 13 => Clk.Mmc0
    case 14 => Clk.Mmc1
    case 15 => Clk.Mmc2
    case 16 => Clk.UsbPhy0
    case 17 => Clk.UsbPhy1
    case 18 => Clk.UsbHsic
    case 19 => Clk.UsbHsic12m
    case _ => Clk.UsbOhci0
  }

  /** The position of the initialiser naming each ID. */
  function ClkPos(x: Clk): nat {
    match x
    case BusMmc0 => 0
    case BusMmc1 => 1
    case BusMmc2 => 2
    case BusEmac => 3
    case BusOtg => 4
    case BusEhci0 => 5
    case BusEhci1 => 6
    case BusOhci0 => 7
    case BusUart0 => 8
    case BusUart1 => 9
    case BusUart2 => 10
    case BusUart3 => 11
    case BusUart4 => 12
    case Mmc0 => 13
    case Mmc1 => 14
    case Mmc2 => 15
    case UsbPhy0 => 16
    case UsbPhy1 => 17
    case UsbHsic => 18
    case UsbHsic12m => 19
    case UsbOhci0 => 20
  }

  /** The ID the i-th initialiser of a83t_resets names, in source order. */
  function RstInit(i: int): Rst {
    match i
    case 0 => Rst.UsbPhy0
    case 1 => Rst.UsbPhy1
    case 2 => Rst.UsbHsic
    case 3 => Rst.BusMmc0
    case 4 => Rst.BusMmc1
    case 5 => Rst.BusMmc2
    case 6 => Rst.BusOtg
    case 7 => Rst.BusEhci0
    case 8 => Rst.BusEhci1
    case 9 => Rst.BusOhci0
    case 10 => Rst.BusUart0
    case 11 => Rst.BusUart1
    case 12 => Rst.BusUart2
    case 13 => Rst.BusUart3
    case _ => Rst.BusUart4
  }

  /** The position of the initialiser naming each ID. */
  function RstPos(x: Rst): nat {
    match x
    case UsbPhy0 => 0
    case UsbPhy1 => 1
    case UsbHsic => 2
    case BusMmc0 => 3
    case BusMmc1 => 4
    case BusMmc2 => 5
    case BusOtg => 6
    case BusEhci0 => 7
    case BusEhci1 => 8
    case BusOhci0 => 9
    case BusUart0 => 10
    case BusUart1 => 11
    case BusUart2 => 12
    case BusUart3 => 13
    case BusUart4 => 14
  }

  const ClkIds: seq<Clk> := seq(21, ClkInit)
  const RstIds: seq<Rst> := seq(15, RstInit)

  /** Which clock gates a given line, if any: the table read backwards. */
  function ClkAt(l: Line): Option<Clk> {
    if l.off == 0x060 then
      if l.n == 8 then Some(Clk.BusMmc0) else if l.n == 9 then Some(Clk.BusMmc1)
      else if l.n == 10 then Some(Clk.BusMmc2) else if l.n == 17 then Some(Clk.BusEmac)
      else if l.n == 24 then Some(Clk.BusOtg) else if l.n == 26 then Some(Clk.BusEhci0)
      else if l.n == 27 then Some(Clk.BusEhci1) else if l.n == 29 then Some(Clk.BusOhci0)
      else None
    else if l.off == 0x06c then
      if l.n == 16 then Some(Clk.BusUart0) else if l.n == 17 then Some(Clk.BusUart1)
      else if l.n == 18 then Some(Clk.BusUart2) else if l.n == 19 then Some(Clk.BusUart3)
      else if l.n == 20 then Some(Clk.BusUart4)
      else None
    else if l.off == 0x088 && l.n == 31 then Some(Clk.Mmc0)
    else if l.off == 0x08c && l.n == 31 then Some(Clk.Mmc1)
    else if l.off == 0x090 && l.n == 31 then Some(Clk.Mmc2)
    else if l.off == 0x0cc then
      if l.n == 8 then Some(Clk.UsbPhy0) else if l.n == 9 then Some(Clk.UsbPhy1)
      else if l.n == 10 then Some(Clk.UsbHsic) else if l.n == 11 then Some(Clk.UsbHsic12m)
      else if l.n == 16 then Some(Clk.UsbOhci0)
      else None
    else None
  }

  /** Which reset line a given line is, if any. */
  function RstAt(l: Line): Option<Rst> {
    if l.off == 0x0cc then
      if l.n == 0 then Some(Rst.UsbPhy0) else if l.n == 1 then Some(Rst.UsbPhy1)
      else if l.n == 2 then Some(Rst.UsbHsic)
      else None
    else if l.off == 0x2c0 then
      if l.n == 8 then Some(Rst.BusMmc0) else if l.n == 9 then Some(Rst.BusMmc1)
      else if l.n == 10 then Some(Rst.BusMmc2) else if l.n == 24 then Some(Rst.BusOtg)
      else if l.n == 26 then Some(Rst.BusEhci0) else if l.n == 27 then Some(Rst.BusEhci1)
      else if l.n == 29 then Some(Rst.BusOhci0)
      else None
    else if l.off == 0x2d8 then
      if l.n == 16 then Some(Rst.BusUart0) else if l.n == 17 then Some(Rst.BusUart1)
      else if l.n == 18 then Some(Rst.BusUart2) else if l.n == 19 then Some(Rst.BusUart3)
      else if l.n == 20 then Some(Rst.BusUart4)
      else None
    else None
  }

  /** Each clock ID is listed in ClkIds and is the only one gating its line. */
  lemma ClkNamed(c: Clk)
    ensures ClkPos(c) < 21 && ClkInit(ClkPos(c)) == c
    ensures ClkLine(c).off != 0 && ClkAt(ClkLine(c)) == Some(c)
  {
    match c
    case BusMmc0 =>
    case BusMmc1 =>
    case BusMmc2 =>
    case BusEmac =>
    case BusOtg =>
    case BusEhci0 =>
    case BusEhci1 =>
    case BusOhci0 =>
    case BusUart0 =>
    case BusUart1 =>
    case BusUart2 =>
    case BusUart3 =>
    case BusUart4 =>
    case Mmc0 =>
    case Mmc1 =>
    case Mmc2 =>
    case UsbPhy0 =>
    case UsbPhy1 =>
    case UsbHsic =>
    case UsbHsic12m =>
    case UsbOhci0 =>
  }

  /** Each reset ID is listed in RstIds and is the only one on its line. */
  lemma RstNamed(r: Rst)
    ensures RstPos(r) < 15 && RstInit(RstPos(r)) == r
    ensures RstLine(r).off != 0 && RstAt(RstLine(r)) == Some(r)
  {
    match r
    case UsbPhy0 =>
    case UsbPhy1 =>
    case UsbHsic =>
    case BusMmc0 =>
    case BusMmc1 =>
    case BusMmc2 =>
    case BusOtg =>
    case BusEhci0 =>
    case BusEhci1 =>
    case BusOhci0 =>
    case BusUart0 =>
    case BusUart1 =>
    case BusUart2 =>
    case BusUart3 =>
    case BusUart4 =>
  }

  /** a83t_clks names every clock ID and a83t_resets every reset ID. */
  lemma AllNamed()
    ensures forall c: Clk :: c in ClkIds
    ensures forall r: Rst :: r in RstIds
  {
    forall c: Clk ensures c in ClkIds {
      ClkNamed(c);
      assert ClkIds[ClkPos(c)] == c;
    }
    forall r: Rst ensures r in RstIds {
      RstNamed(r);
      assert RstIds[RstPos(r)] == r;
    }
  }
}
