/**
 * The A10 / A20 clock driver: the gate table a10_clks, the reset table
 * a10_resets, the descriptor pairing them, probe, bind and the of_match
 * table. Clock and reset IDs are symbolic; `ci` and `ri` stand for the
 * numbering the dt-bindings headers give them.
 */
module ClkA10 {
  import opened Base
  import opened Wrappers
  import opened Mmio
  import opened Ccu
  import opened Chip
  import Layout
  import SunxiClk
  import SunxiReset

  /** The clock IDs a10_clks names. */
  datatype Clk =
    | AhbOtg | AhbEhci0 | AhbOhci0 | AhbEhci1 | AhbOhci1 | AhbMmc0 | AhbMmc1
    | AhbMmc2 | AhbMmc3 | UsbOhci0 | UsbOhci1 | UsbPhy

  /** The reset IDs a10_resets names. */
  datatype Rst =
    | UsbPhy0 | UsbPhy1 | UsbPhy2

  /** The gate of each clock: AHB gates in 0x060, USB in 0x0cc. */
  function ClkLine(c: Clk): Line {
    match c
    case AhbOtg => Line(0x060, 0)
    case AhbEhci0 => Line(0x060, 1)
    case AhbOhci0 => Line(0x060, 2)
    case AhbEhci1 => Line(0x060, 3)
    case AhbOhci1 => Line(0x060, 4)
    case AhbMmc0 => Line(0x060, 8)
    case AhbMmc1 => Line(0x060, 9)
    case AhbMmc2 => Line(0x060, 10)
    case AhbMmc3 => Line(0x060, 11)
    case UsbOhci0 => Line(0x0cc, 6)
    case UsbOhci1 => Line(0x0cc, 7)
    case UsbPhy => Line(0x0cc, 8)
  }

  /** The a10_clks entry of each clock; none carries a set_rate callback. */
  function ClkEntry(c: Clk): ClkMap {
    Gate(ClkLine(c), false)
  }

  /** The line each reset ID controls: the three USB PHY resets in 0x0cc. */
  function RstLine(r: Rst): Line {
    match r
    case UsbPhy0 => Line(0x0cc, 0)
    case UsbPhy1 => Line(0x0cc, 1)
    case UsbPhy2 => Line(0x0cc, 2)
  }

  /** The a10_resets entry of each reset ID. */
  function RstEntry(r: Rst): ResetMap {
    Reset(RstLine(r))
  }

  /** a10_clks, laid out by the numbering `ci`. */
  function Clks(ci: Clk -> nat): seq<ClkMap> {
    Layout.Fill(ClkIds, ci, ClkEntry, NoClk)
  }

  /** a10_resets, laid out by the numbering `ri`. */
  function Rsts(ri: Rst -> nat): seq<ResetMap> {
    Layout.Fill(RstIds, ri, RstEntry, NoReset)
  }

  /**
   * With distinct numbers for distinct clocks, every clock finds its own entry
   * in a10_clks and every slot no clock is numbered to is a zero-filled hole.
   */
  lemma ClkTable(ci: Clk -> nat)
    requires Layout.Injective(ci)
    ensures forall c :: ci(c) < |Clks(ci)| && Clks(ci)[ci(c)] == ClkEntry(c)
    ensures forall i :: 0 <= i < |Clks(ci)| && (forall c :: ci(c) != i) ==> Clks(ci)[i] == NoClk
  {
    AllNamed();
    Layout.FillAll(ClkIds, ci, ClkEntry, NoClk);
  }

  /** The same for a10_resets. */
  lemma RstTable(ri: Rst -> nat)
    requires Layout.Injective(ri)
    ensures forall r :: ri(r) < |Rsts(ri)| && Rsts(ri)[ri(r)] == RstEntry(r)
    ensures forall i :: 0 <= i < |Rsts(ri)| && (forall r :: ri(r) != i) ==> Rsts(ri)[i] == NoReset
  {
    AllNamed();
    Layout.FillAll(RstIds, ri, RstEntry, NoReset);
  }

  /** sun4i_a10_ccu_desc */
  function Desc(ci: Clk -> nat, ri: Rst -> nat): CcuDesc {
    CcuDesc(Clks(ci), Rsts(ri))
  }

  /** Every A10 clock and every A10 reset line has a line of its own. */
  lemma LinesSeparate()
    ensures Separate(ClkLine) && Separate(RstLine)
  {
    forall c: Clk ensures ClkLine(c).off != 0 && ClkAt(ClkLine(c)) == Some(c) {
      ClkNamed(c);
    }
    forall r: Rst ensures RstLine(r).off != 0 && RstAt(RstLine(r)) == Some(r) {
      RstNamed(r);
    }
  }

  /**
   * a10_resets has three entries, but a10_clk_bind declares 22 reset IDs, so
   * sunxi_reset_request accepts IDs the table has no entry for. Under any
   * numbering that, as the dt-bindings header does, gives the three USB PHY
   * resets numbers below 3, the table is shorter than the declared count.
   */
  lemma DeclaredCountExceedsTable(ri: Rst -> nat)
    requires forall r :: ri(r) < 3
    ensures |Rsts(ri)| <= 3 < ResetCount
  {
  }

  /** The reset count a10_clk_bind hands to sunxi_reset_bind. */
  const ResetCount: nat := 22

  /** a10_clk_ids: the A10 and the A20 share one descriptor. */
  function Ids(ci: Clk -> nat, ri: Rst -> nat): seq<MatchEntry> {
    [MatchEntry("allwinner,sun4i-a10-ccu", Desc(ci, ri)),
     MatchEntry("allwinner,sun7i-a20-ccu", Desc(ci, ri))]
  }

  /** A device matched as A10 or as A20 gets the one descriptor; any other gets none. */
  lemma MatchedDescriptor(ci: Clk -> nat, ri: Rst -> nat, compatible: string)
    ensures DriverData(Ids(ci, ri), compatible) ==
      if compatible == "allwinner,sun4i-a10-ccu" || compatible == "allwinner,sun7i-a20-ccu"
      then Some(Desc(ci, ri)) else None
  {
  }

  /**
   * a10_clk_probe, for a device bound through the compatible string
   * `compatible`: NULL base is -ENOMEM, no matching entry (NULL driver data)
   * is -EINVAL, otherwise the base and the A10 descriptor are stored.
   */
  method Probe(priv: ClkPriv, base: Addr, compatible: string, ci: Clk -> nat, ri: Rst -> nat) returns (ret: int)
    modifies priv
    ensures priv.base == base
    ensures base == NULL ==> ret == -ENOMEM && priv.desc == old(priv.desc)
    ensures base != NULL ==> priv.desc == DriverData(Ids(ci, ri), compatible)
    ensures base != NULL ==> (ret == 0 <==> priv.desc == Some(Desc(ci, ri)))
    ensures base != NULL && ret != 0 ==> ret == -EINVAL
  {
    MatchedDescriptor(ci, ri, compatible);
    ret := SunxiClk.Probe(priv, base, DriverData(Ids(ci, ri), compatible));
  }

  /** a10_clk_bind: a reset device for 22 IDs sharing the clock device's descriptor. */
  method Bind(bindRet: int, data: Option<CcuDesc>) returns (ret: int, rst: SunxiReset.ResetPriv?)
    ensures bindRet != 0 ==> ret == bindRet && rst == null
    ensures bindRet == 0 ==> ret == 0 && rst != null && fresh(rst)
    ensures rst != null ==> rst.count == ResetCount && rst.desc == data
  {
    ret, rst := SunxiReset.Bind(bindRet, ResetCount, data);
  }

  /* The ID sets in source order, and the facts that every ID is listed and has its own line. */

  /** The ID the i-th initialiser of a10_clks names, in source order. */
  function ClkInit(i: int): Clk {
    match i
    case 0 => Clk.AhbOtg
    case 1 => Clk.AhbEhci0
    case 2 => Clk.AhbOhci0
    case 3 => Clk.AhbEhci1
    case 4 => Clk.AhbOhci1
    case 5 => Clk.AhbMmc0
    case 6 => Clk.AhbMmc1
    case 7 => Clk.AhbMmc2
    case 8 => Clk.AhbMmc3
    case 9 => Clk.UsbOhci0
    case 10 => Clk.UsbOhci1
    case _ => Clk.UsbPhy
  }

  /** The position of the initialiser naming each ID. */
  function ClkPos(x: Clk): nat {
    match x
    case AhbOtg => 0
    case AhbEhci0 => 1
    case AhbOhci0 => 2
    case AhbEhci1 => 3
    case AhbOhci1 => 4
    case AhbMmc0 => 5
    case AhbMmc1 => 6
    case AhbMmc2 => 7
    case AhbMmc3 => 8
    case UsbOhci0 => 9
    case UsbOhci1 => 10
    case UsbPhy => 11
  }

  /** The ID the i-th initialiser of a10_resets names, in source order. */
  function RstInit(i: int): Rst {
    match i
    case 0 => Rst.UsbPhy0
    case 1 => Rst.UsbPhy1
    case _ => Rst.UsbPhy2
  }

  /** The position of the initialiser naming each ID. */
  function RstPos(x: Rst): nat {
    match x
    case UsbPhy0 => 0
    case UsbPhy1 => 1
    case UsbPhy2 => 2
  }

  const ClkIds: seq<Clk> := seq(12, ClkInit)
  const RstIds: seq<Rst> := seq(3, RstInit)

  /** Which clock gates a given line, if any: the table read backwards. */
  function ClkAt(l: Line): Option<Clk> {
    if l.off == 0x060 then
      if l.n == 0 then Some(Clk.AhbOtg) else if l.n == 1 then Some(Clk.AhbEhci0)
      else if l.n == 2 then Some(Clk.AhbOhci0) else if l.n == 3 then Some(Clk.AhbEhci1)
      else if l.n == 4 then Some(Clk.AhbOhci1) else if l.n == 8 then Some(Clk.AhbMmc0)
      else if l.n == 9 then Some(Clk.AhbMmc1) else if l.n == 10 then Some(Clk.AhbMmc2)
      else if l.n == 11 then Some(Clk.AhbMmc3)
      else None
    else if l.off == 0x0cc then
      if l.n == 6 then Some(Clk.UsbOhci0) else if l.n == 7 then Some(Clk.UsbOhci1)
      else if l.n == 8 then Some(Clk.UsbPhy)
      else None
    else None
  }

  /** Which reset line a given line is, if any. */
  function RstAt(l: Line): Option<Rst> {
    if l.off == 0x0cc then
      if l.n == 0 then Some(Rst.UsbPhy0) else if l.n == 1 then Some(Rst.UsbPhy1)
      else if l.n == 2 then Some(Rst.UsbPhy2)
      else None
    else None
  }

  /** Each clock ID is listed in ClkIds and is the only one gating its line. */
  lemma ClkNamed(c: Clk)
    ensures ClkPos(c) < 12 && ClkInit(ClkPos(c)) == c
    ensures ClkLine(c).off != 0 && ClkAt(ClkLine(c)) == Some(c)
  {
    match c
    case AhbOtg =>
    case AhbEhci0 =>
    case AhbOhci0 =>
    case AhbEhci1 =>
    case AhbOhci1 =>
    case AhbMmc0 =>
    case AhbMmc1 =>
    case AhbMmc2 =>
    case AhbMmc3 =>
    case UsbOhci0 =>
    case UsbOhci1 =>
    case UsbPhy =>
  }

  /** Each reset ID is listed in RstIds and is the only one on its line. */
  lemma RstNamed(r: Rst)
    ensures RstPos(r) < 3 && RstInit(RstPos(r)) == r
    ensures RstLine(r).off != 0 && RstAt(RstLine(r)) == Some(r)
  {
    match r
    case UsbPhy0 =>
    case UsbPhy1 =>
    case UsbPhy2 =>
  }

  /** a10_clks names every clock ID and a10_resets every reset ID. */
  lemma AllNamed()
    ensures forall c: Clk :: c in ClkIds
    ensures forall r: Rst :: r in RstIds
  {
    forall c: Clk ensures c in ClkIds {
      ClkNamed(c);
      assert ClkIds[ClkPos(c)] == c;
    }
    forall r: Rst ensures r in RstIds {
      RstNamed(r);
      assert RstIds[RstPos(r)] == r;
    }
  }
}
