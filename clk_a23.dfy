/**
 * The A23 clock driver: the gate table a23_clks, the reset table
 * a23_resets, the descriptor pairing them, probe, bind and the of_match
 * table. Clock and reset IDs are symbolic; `ci` and `ri` stand for the
 * numbering the dt-bindings headers give them.
 */
module ClkA23 {
  import opened Base
  import opened Wrappers
  import opened Mmio
  import opened Ccu
  import opened Chip
  import Layout
  import SunxiClk
  import SunxiReset

  /** The clock IDs a23_clks names. */
  datatype Clk =
    | BusOtg | BusEhci | BusOhci | UsbPhy0 | UsbPhy1 | UsbHsic | UsbHsic12m
    | UsbOhci

  /** The reset IDs a23_resets names. */
  datatype Rst =
    | UsbPhy0 | UsbPhy1 | UsbHsic | BusOtg | BusEhci | BusOhci

  /** The gate of each clock: bus gates in 0x060, USB in 0x0cc. */
  function ClkLine(c: Clk): Line {
    match c
    case BusOtg => Line(0x060, 24)
    case BusEhci => Line(0x060, 26)
    case BusOhci => Line(0x060, 29)
    case UsbPhy0 => Line(0x0cc, 8)
    case UsbPhy1 => Line(0x0cc, 9)
    case UsbHsic => Line(0x0cc, 10)
    case UsbHsic12m => Line(0x0cc, 11)
    case UsbOhci => Line(0x0cc, 16)
  }

  /** The a23_clks entry of each clock; none carries a set_rate callback. */
  function ClkEntry(c: Clk): ClkMap {
    Gate(ClkLine(c), false)
  }

  /** The line each reset ID controls: USB in 0x0cc, bus resets in 0x2c0. */
  function RstLine(r: Rst): Line {
    match r
    case UsbPhy0 => Line(0x0cc, 0)
    case UsbPhy1 => Line(0x0cc, 1)
    case UsbHsic => Line(0x0cc, 2)
    case BusOtg => Line(0x2c0, 24)
    case BusEhci => Line(0x2c0, 26)
    case BusOhci => Line(0x2c0, 29)
  }

  /** The a23_resets entry of each reset ID. */
  function RstEntry(r: Rst): ResetMap {
    Reset(RstLine(r))
  }

  /** a23_clks, laid out by the numbering `ci`. */
  function Clks(ci: Clk -> nat): seq<ClkMap> {
    Layout.Fill(ClkIds, ci, ClkEntry, NoClk)
  }

  /** a23_resets, laid out by the numbering `ri`. */
  function Rsts(ri: Rst -> nat): seq<ResetMap> {
    Layout.Fill(RstIds, ri, RstEntry, NoReset)
  }

  /**
   * With distinct numbers for distinct clocks, every clock finds its own entry
   * in a23_clks and every slot no clock is numbered to is a zero-filled hole.
   */
  lemma ClkTable(ci: Clk -> nat)
    requires Layout.Injective(ci)
    ensures forall c :: ci(c) < |Clks(ci)| && Clks(ci)[ci(c)] == ClkEntry(c)
    ensures forall i :: 0 <= i < |Clks(ci)| && (forall c :: ci(c) != i) ==> Clks(ci)[i] == NoClk
  {
    AllNamed();
    Layout.FillAll(ClkIds, ci, ClkEntry, NoClk);
  }

  /** The same for a23_resets. */
  lemma RstTable(ri: Rst -> nat)
    requires Layout.Injective(ri)
    ensures forall r :: ri(r) < |Rsts(ri)| && Rsts(ri)[ri(r)] == RstEntry(r)
    ensures forall i :: 0 <= i < |Rsts(ri)| && (forall r :: ri(r) != i) ==> Rsts(ri)[i] == NoReset
  {
    AllNamed();
    Layout.FillAll(RstIds, ri, RstEntry, NoReset);
  }

  /** sun8i_a23_ccu_desc */
  function Desc(ci: Clk -> nat, ri: Rst -> nat): CcuDesc {
    CcuDesc(Clks(ci), Rsts(ri))
  }

  /** Every A23 clock and every A23 reset line has a line of its own. */
  lemma LinesSeparate()
    ensures Separate(ClkLine) && Separate(RstLine)
  {
    forall c: Clk ensures ClkLine(c).off != 0 && ClkAt(ClkLine(c)) == Some(c) {
      ClkNamed(c);
    }
    forall r: Rst ensures RstLine(r).off != 0 && RstAt(RstLine(r)) == Some(r) {
      RstNamed(r);
    }
  }

  /** The reset count a23_clk_bind hands to sunxi_reset_bind. */
  const ResetCount: nat := 39

  /** a23_clk_ids: one entry, for the A23. */
  function Ids(ci: Clk -> nat, ri: Rst -> nat): seq<MatchEntry> {
    [MatchEntry("allwinner,sun8i-a23-ccu", Desc(ci, ri))]
  }

  /** A device matched as A23 gets the descriptor; any other gets none. */
  lemma MatchedDescriptor(ci: Clk -> nat, ri: Rst -> nat, compatible: string)
    ensures DriverData(Ids(ci, ri), compatible) ==
      if compatible == "allwinner,sun8i-a23-ccu"
      then Some(Desc(ci, ri)) else None
  {
  }

  /**
   * a23_clk_probe, for a device bound through the compatible string
   * `compatible`: NULL base is -ENOMEM, no matching entry (NULL driver data)
   * is -EINVAL, otherwise the base and the A23 descriptor are stored.
   */
  method Probe(priv: ClkPriv, base: Addr, compatible: string, ci: Clk -> nat, ri: Rst -> nat) returns (ret: int)
    modifies priv
    ensures priv.base == base
    ensures base == NULL ==> ret == -ENOMEM && priv.desc == old(priv.desc)
    ensures base != NULL ==> priv.desc == DriverData(Ids(ci, ri), compatible)
    ensures base != NULL ==> (ret == 0 <==> priv.desc == Some(Desc(ci, ri)))
    ensures base != NULL && ret != 0 ==> ret == -EINVAL
  {
    MatchedDescriptor(ci, ri, compatible);
    ret := SunxiClk.Probe(priv, base, DriverData(Ids(ci, ri), compatible));
  }

  /** a23_clk_bind: a reset device for 39 IDs sharing the clock device's descriptor. */
  method Bind(bindRet: int, data: Option<CcuDesc>) returns (ret: int, rst: SunxiReset.ResetPriv?)
    ensures bindRet != 0 ==> ret == bindRet && rst == null
    ensures bindRet == 0 ==> ret == 0 && rst != null && fresh(rst)
    ensures rst != null ==> rst.count == ResetCount && rst.desc == data
  {
    ret, rst := SunxiReset.Bind(bindRet, ResetCount, data);
  }

  /* The ID sets in source order, and the facts that every ID is listed and has its own line. */

  /** The ID the i-th initialiser of a23_clks names, in source order. */
  function ClkInit(i: int): Clk {
    match i
    case 0 => Clk.BusOtg
    case 1 => Clk.BusEhci
    case 2 => Clk.BusOhci
    case 3 => Clk.UsbPhy0
    case 4 => Clk.UsbPhy1
    case 5 => Clk.UsbHsic
    case 6 => Clk.UsbHsic12m
    case _ => Clk.UsbOhci
  }

  /** The position of the initialiser naming each ID. */
  function ClkPos(x: Clk): nat {
    match x
    case BusOtg => 0
    case BusEhci => 1
    case BusOhci => 2
    case UsbPhy0 => 3
    case UsbPhy1 => 4
    case UsbHsic => 5
    case UsbHsic12m => 6
    case UsbOhci => 7
  }

  /** The ID the i-th initialiser of a23_resets names, in source order. */
  function RstInit(i: int): Rst {
    match i
    case 0 => Rst.UsbPhy0
    case 1 => Rst.UsbPhy1
    case 2 => Rst.UsbHsic
    case 3 => Rst.BusOtg
    case 4 => Rst.BusEhci
    case _ => Rst.BusOhci
  }

  /** The position of the initialiser naming each ID. */
  function RstPos(x: Rst): nat {
    match x
    case UsbPhy0 => 0
    case UsbPhy1 => 1
    case UsbHsic => 2
    case BusOtg => 3
    case BusEhci => 4
    case BusOhci => 5
  }

  const ClkIds: seq<Clk> := seq(8, ClkInit)
  const RstIds: seq<Rst> := seq(6, RstInit)

  /** Which clock gates a given line, if any: the table read backwards. */
  function ClkAt(l: Line): Option<Clk> {
    if l.off == 0x060 then
      if l.n == 24 then Some(Clk.BusOtg) else if l.n == 26 then Some(Clk.BusEhci)
      else if l.n == 29 then Some(Clk.BusOhci)
      else None
    else if l.off == 0x0cc then
      if l.n == 8 then Some(Clk.UsbPhy0) else if l.n == 9 then Some(Clk.UsbPhy1)
      else if l.n == 10 then Some(Clk.UsbHsic) else if l.n == 11 then Some(Clk.UsbHsic12m)
      else if l.n == 16 then Some(Clk.UsbOhci)
      else None
    else None
  }

  /** Which reset line a given line is, if any. */
  function RstAt(l: Line): Option<Rst> {
    if l.off == 0x0cc then
      if l.n == 0 then Some(Rst.UsbPhy0) else if l.n == 1 then Some(Rst.UsbPhy1)
      else if l.n == 2 then Some(Rst.UsbHsic)
      else None
    else if l.off == 0x2c0 then
      if l.n == 24 then Some(Rst.BusOtg) else if l.n == 26 then Some(Rst.BusEhci)
      else if l.n == 29 then Some(Rst.BusOhci)
      else None
    else None
  }

  /** Each clock ID is listed in ClkIds and is the only one gating its line. */
  lemma ClkNamed(c: Clk)
    ensures ClkPos(c) < 8 && ClkInit(ClkPos(c)) == c
    ensures ClkLine(c).off != 0 && ClkAt(ClkLine(c)) == Some(c)
  {
    match c
    case BusOtg =>
    case BusEhci =>
    case BusOhci =>
    case UsbPhy0 =>
    case UsbPhy1 =>
    case UsbHsic =>
    case UsbHsic12m =>
    case UsbOhci =>
  }

  /** Each reset ID is listed in RstIds and is the only one on its line. */
  lemma RstNamed(r: Rst)
    ensures RstPos(r) < 6 && RstInit(RstPos(r)) == r
    ensures RstLine(r).off != 0 && RstAt(RstLine(r)) == Some(r)
  {
    match r
    case UsbPhy0 =>
    case UsbPhy1 =>
    case UsbHsic =>
    case BusOtg =>
    case BusEhci =>
    case BusOhci =>
  }

  /** a23_clks names every clock ID and a23_resets every reset ID. */
  lemma AllNamed()
    ensures forall c: Clk :: c in ClkIds
    ensures forall r: Rst :: r in RstIds
  {
    forall c: Clk ensures c in ClkIds {
      ClkNamed(c);
      assert ClkIds[ClkPos(c)] == c;
    }
    forall r: Rst ensures r in RstIds {
      RstNamed(r);
      assert RstIds[RstPos(r)] == r;
    }
  }
}
