/**
 * The A31 clock driver: the gate table a31_clks, the reset table
 * a31_resets, the descriptor pairing them, probe, bind and the of_match
 * table. Clock and reset IDs are symbolic; `ci` and `ri` stand for the
 * numbering the dt-bindings headers give them.
 */
module ClkA31 {
  import opened Base
  import opened Wrappers
  import opened Mmio
  import opened Ccu
  import opened Chip
  import Layout
  import SunxiClk
  import SunxiReset

  /** The clock IDs a31_clks names. */
  datatype Clk =
    | Ahb1Mmc0 | Ahb1Mmc1 | Ahb1Mmc2 | Ahb1Mmc3 | Ahb1Otg | Ahb1Ehci0 | Ahb1Ehci1
    | Ahb1Ohci0 | Ahb1Ohci1 | Ahb1Ohci2 | UsbPhy0 | UsbPhy1 | UsbPhy2 | UsbOhci0
    | UsbOhci1 | UsbOhci2

  /** The reset IDs a31_resets names. */
  datatype Rst =
    | UsbPhy0 | UsbPhy1 | UsbPhy2 | Ahb1Otg | Ahb1Ehci0 | Ahb1Ehci1 | Ahb1Ohci0
    | Ahb1Ohci1 | Ahb1Ohci2

  /** The gate of each clock: AHB1 gates in 0x060, USB in 0x0cc. */
  function ClkLine(c: Clk): Line {
    match c
    case Ahb1Mmc0 => Line(0x060, 8)
    case Ahb1Mmc1 => Line(0x060, 9)
    case Ahb1Mmc2 => Line(0x060, 10)
    case Ahb1Mmc3 => Line(0x060, 12)
    case Ahb1Otg => Line(0x060, 24)
    case Ahb1Ehci0 => Line(0x060, 26)
    case Ahb1Ehci1 => Line(0x060, 27)
    case Ahb1Ohci0 => Line(0x060, 29)
    case Ahb1Ohci1 => Line(0x060, 30)
    case Ahb1Ohci2 => Line(0x060, 31)
    case UsbPhy0 => Line(0x0cc, 8)
    case UsbPhy1 => Line(0x0cc, 9)
    case UsbPhy2 => Line(0x0cc, 10)
    case UsbOhci0 => Line(0x0cc, 16)
    case UsbOhci1 => Line(0x0cc, 17)
    case UsbOhci2 => Line(0x0cc, 18)
  }

  /** The a31_clks entry of each clock; none carries a set_rate callback. */
  function ClkEntry(c: Clk): ClkMap {
    Gate(ClkLine(c), false)
  }

  /** The line each reset ID controls: USB PHYs in 0x0cc, AHB1 resets in 0x2c0. */
  function RstLine(r: Rst): Line {
    match r
    case UsbPhy0 => Line(0x0cc, 0)
    case UsbPhy1 => Line(0x0cc, 1)
    case UsbPhy2 => Line(0x0cc, 2)
    case Ahb1Otg => Line(0x2c0, 24)
    case Ahb1Ehci0 => Line(0x2c0, 26)
    case Ahb1Ehci1 => Line(0x2c0, 27)
    case Ahb1Ohci0 => Line(0x2c0, 29)
    case Ahb1Ohci1 => Line(0x2c0, 30)
    case Ahb1Ohci2 => Line(0x2c0, 31)
  }

  /** The a31_resets entry of each reset ID. */
  function RstEntry(r: Rst): ResetMap {
    Reset(RstLine(r))
  }

  /** a31_clks, laid out by the numbering `ci`. */
  function Clks(ci: Clk -> nat): seq<ClkMap> {
    Layout.Fill(ClkIds, ci, ClkEntry, NoClk)
  }

  /** a31_resets, laid out by the numbering `ri`. */
  function Rsts(ri: Rst -> nat): seq<ResetMap> {
    Layout.Fill(RstIds, ri, RstEntry, NoReset)
  }

  /**
   * With distinct numbers for distinct clocks, every clock finds its own entry
   * in a31_clks and every slot no clock is numbered to is a zero-filled hole.
   */
  lemma ClkTable(ci: Clk -> nat)
    requires Layout.Injective(ci)
    ensures forall c :: ci(c) < |Clks(ci)| && Clks(ci)[ci(c)] == ClkEntry(c)
    ensures forall i :: 0 <= i < |Clks(ci)| && (forall c :: ci(c) != i) ==> Clks(ci)[i] == NoClk
  {
    AllNamed();
    Layout.FillAll(ClkIds, ci, ClkEntry, NoClk);
  }

  /** The same for a31_resets. */
  lemma RstTable(ri: Rst -> nat)
    requires Layout.Injective(ri)
    ensures forall r :: ri(r) < |Rsts(ri)| && Rsts(ri)[ri(r)] == RstEntry(r)
    ensures forall i :: 0 <= i < |Rsts(ri)| && (forall r :: ri(r) != i) ==> Rsts(ri)[i] == NoReset
  {
    AllNamed();
    Layout.FillAll(RstIds, ri, RstEntry, NoReset);
  }

  /** sun6i_a31_ccu_desc */
  function Desc(ci: Clk -> nat, ri: Rst -> nat): CcuDesc {
    CcuDesc(Clks(ci), Rsts(ri))
  }

  /** Every A31 clock and every A31 reset line has a line of its own. */
  lemma LinesSeparate()
    ensures Separate(ClkLine) && Separate(RstLine)
  {
    forall c: Clk ensures ClkLine(c).off != 0 && ClkAt(ClkLine(c)) == Some(c) {
      ClkNamed(c);
    }
    forall r: Rst ensures RstLine(r).off != 0 && RstAt(RstLine(r)) == Some(r) {
      RstNamed(r);
    }
  }

  /** The reset count a31_clk_bind hands to sunxi_reset_bind. */
  const ResetCount: nat := 56

  /** a31_clk_ids: one entry, for the A31. */
  function Ids(ci: Clk -> nat, ri: Rst -> nat): seq<MatchEntry> {
    [MatchEntry("allwinner,sun6i-a31-ccu", Desc(ci, ri))]
  }

  /** A device matched as A31 gets the descriptor; any other gets none. */
  lemma MatchedDescriptor(ci: Clk -> nat, ri: Rst -> nat, compatible: string)
    ensures DriverData(Ids(ci, ri), compatible) ==
      if compatible == "allwinner,sun6i-a31-ccu"
      then Some(Desc(ci, ri)) else None
  {
  }

  /**
   * a31_clk_probe, for a device bound through the compatible string
   * `compatible`: NULL base is -ENOMEM, no matching entry (NULL driver data)
   * is -EINVAL, otherwise the base and the A31 descriptor are stored.
   */
  method Probe(priv: ClkPriv, base: Addr, compatible: string, ci: Clk -> nat, ri: Rst -> nat) returns (ret: int)
    modifies priv
    ensures priv.base == base
    ensures base == NULL ==> ret == -ENOMEM && priv.desc == old(priv.desc)
    ensures base != NULL ==> priv.desc == DriverData(Ids(ci, ri), compatible)
    ensures base != NULL ==> (ret == 0 <==> priv.desc == Some(Desc(ci, ri)))
    ensures base != NULL && ret != 0 ==> ret == -EINVAL
  {
    MatchedDescriptor(ci, ri, compatible);
    ret := SunxiClk.Probe(priv, base, DriverData(Ids(ci, ri), compatible));
  }

  /** a31_clk_bind: a reset device for 56 IDs sharing the clock device's descriptor. */
  method Bind(bindRet: int, data: Option<CcuDesc>) returns (ret: int, rst: SunxiReset.ResetPriv?)
    ensures bindRet != 0 ==> ret == bindRet && rst == null
    ensures bindRet == 0 ==> ret == 0 && rst != null && fresh(rst)
    ensures rst != null ==> rst.count == ResetCount && rst.desc == data
  {
    ret, rst := SunxiReset.Bind(bindRet, ResetCount, data);
  }

  /* The ID sets in source order, and the facts that every ID is listed and has its own line. */

  /** The ID the i-th initialiser of a31_clks names, in source order. */
  function ClkInit(i: int): Clk {
    match i
    case 0 => Clk.Ahb1Mmc0
    case 1 => Clk.Ahb1Mmc1
    case 2 => Clk.Ahb1Mmc2
    case 3 => Clk.Ahb1Mmc3
    case 4 => Clk.Ahb1Otg
    case 5 => Clk.Ahb1Ehci0
    case 6 => Clk.Ahb1Ehci1
    case 7 => Clk.Ahb1Ohci0
    case 8 => Clk.Ahb1Ohci1
    case 9 => Clk.Ahb1Ohci2
    case 10 => Clk.UsbPhy0
    case 11 => Clk.UsbPhy1
    case 12 => Clk.UsbPhy2
    case 13 => Clk.UsbOhci0
    case 14 => Clk.UsbOhci1
    case _ => Clk.UsbOhci2
  }

  /** The position of the initialiser naming each ID. */
  function ClkPos(x: Clk): nat {
    match x
    case Ahb1Mmc0 => 0
    case Ahb1Mmc1 => 1
    case Ahb1Mmc2 => 2
    case Ahb1Mmc3 => 3
    case Ahb1Otg => 4
    case Ahb1Ehci0 => 5
    case Ahb1Ehci1 => 6
    case Ahb1Ohci0 => 7
    case Ahb1Ohci1 => 8
    case Ahb1Ohci2 => 9
    case UsbPhy0 => 10
    case UsbPhy1 => 11
    case UsbPhy2 => 12
    case UsbOhci0 => 13
    case UsbOhci1 => 14
    case UsbOhci2 => 15
  }

  /** The ID the i-th initialiser of a31_resets names, in source order. */
  function RstInit(i: int): Rst {
    match i
    case 0 => Rst.UsbPhy0
    case 1 => Rst.UsbPhy1
    case 2 => Rst.UsbPhy2
    case 3 => Rst.Ahb1Otg
    case 4 => Rst.Ahb1Ehci0
    case 5 => Rst.Ahb1Ehci1
    case 6 => Rst.Ahb1Ohci0
    case 7 => Rst.Ahb1Ohci1
    case _ => Rst.Ahb1Ohci2
  }

  /** The position of the initialiser naming each ID. */
  function RstPos(x: Rst): nat {
    match x
    case UsbPhy0 => 0
    case UsbPhy1 => 1
    case UsbPhy2 => 2
    case Ahb1Otg => 3
    case Ahb1Ehci0 => 4
    case Ahb1Ehci1 => 5
    case Ahb1Ohci0 => 6
    case Ahb1Ohci1 => 7
    case Ahb1Ohci2 => 8
  }

  const ClkIds: seq<Clk> := seq(16, ClkInit)
  const RstIds: seq<Rst> := seq(9, RstInit)

  /** Which clock gates a given line, if any: the table read backwards. */
  function ClkAt(l: Line): Option<Clk> {
    if l.off == 0x060 then
      if l.n == 8 then Some(Clk.Ahb1Mmc0) else if l.n == 9 then Some(Clk.Ahb1Mmc1)
      else if l.n == 10 then Some(Clk.Ahb1Mmc2) else if l.n == 12 then Some(Clk.Ahb1Mmc3)
      else if l.n == 24 then Some(Clk.Ahb1Otg) else if l.n == 26 then Some(Clk.Ahb1Ehci0)
      else if l.n == 27 then Some(Clk.Ahb1Ehci1) else if l.n == 29 then Some(Clk.Ahb1Ohci0)
      else if l.n == 30 then Some(Clk.Ahb1Ohci1) else if l.n == 31 then Some(Clk.Ahb1Ohci2)
      else None
    else if l.off == 0x0cc then
      if l.n == 8 then Some(Clk.UsbPhy0) else if l.n == 9 then Some(Clk.UsbPhy1)
      else if l.n == 10 then Some(Clk.UsbPhy2) else if l.n == 16 then Some(Clk.UsbOhci0)
      else if l.n == 17 then Some(Clk.UsbOhci1) else if l.n == 18 then Some(Clk.UsbOhci2)
      else None
    else None
  }

  /** Which reset line a given line is, if any. */
  function RstAt(l: Line): Option<Rst> {
    if l.off == 0x0cc then
      if l.n == 0 then Some(Rst.UsbPhy0) else if l.n == 1 then Some(Rst.UsbPhy1)
      else if l.n == 2 then Some(Rst.UsbPhy2)
      else None
    else if l.off == 0x2c0 then
      if l.n == 24 then Some(Rst.Ahb1Otg) else if l.n == 26 then Some(Rst.Ahb1Ehci0)
      else if l.n == 27 then Some(Rst.Ahb1Ehci1) else if l.n == 29 then Some(Rst.Ahb1Ohci0)
      else if l.n == 30 then Some(Rst.Ahb1Ohci1) else if l.n == 31 then Some(Rst.Ahb1Ohci2)
      else None
    else None
  }

  /** Each clock ID is listed in ClkIds and is the only one gating its line. */
  lemma ClkNamed(c: Clk)
    ensures ClkPos(c) < 16 && ClkInit(ClkPos(c)) == c
    ensures ClkLine(c).off != 0 && ClkAt(ClkLine(c)) == Some(c)
  {
    match c
    case Ahb1Mmc0 =>
    case Ahb1Mmc1 =>
    case Ahb1Mmc2 =>
    case Ahb1Mmc3 =>
    case Ahb1Otg =>
    case Ahb1Ehci0 =>
    case Ahb1Ehci1 =>
    case Ahb1Ohci0 =>
    case Ahb1Ohci1 =>
    case Ahb1Ohci2 =>
    case UsbPhy0 =>
    case UsbPhy1 =>
    case UsbPhy2 =>
    case UsbOhci0 =>
    case UsbOhci1 =>
    case UsbOhci2 =>
  }

  /** Each reset ID is listed in RstIds and is the only one on its line. */
  lemma RstNamed(r: Rst)
    ensures RstPos(r) < 9 && RstInit(RstPos(r)) == r
    ensures RstLine(r).off != 0 && RstAt(RstLine(r)) == Some(r)
  {
    match r
    case UsbPhy0 =>
    case UsbPhy1 =>
    case UsbPhy2 =>
    case Ahb1Otg =>
    case Ahb1Ehci0 =>
    case Ahb1Ehci1 =>
    case Ahb1Ohci0 =>
    case Ahb1Ohci1 =>
    case Ahb1Ohci2 =>
  }

  /** a31_clks names every clock ID and a31_resets every reset ID. */
  lemma AllNamed()
    ensures forall c: Clk :: c in ClkIds
    ensures forall r: Rst :: r in RstIds
  {
    forall c: Clk ensures c in ClkIds {
      ClkNamed(c);
      assert ClkIds[ClkPos(c)] == c;
    }
    forall r: Rst ensures r in RstIds {
      RstNamed(r);
      assert RstIds[RstPos(r)] == r;
    }
  }
}
