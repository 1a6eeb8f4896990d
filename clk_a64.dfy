/**
 * The A64 clock driver: the gate table a64_clks, a descriptor with no reset
 * map, probe and the of_match table. The driver has no bind hook, so no reset
 * device is created for it. Clock IDs are symbolic; `ci` stands for the
 * numbering the dt-bindings header gives them.
 */
module ClkA64 {
  import opened Base
  import opened Wrappers
  import opened Mmio
  import opened Ccu
  import opened Chip
  import Layout
  import SunxiClk

  /** The clock IDs a64_clks names. */
  datatype Clk =
    | BusOtg | BusEhci0 | BusEhci1 | BusOhci0 | BusOhci1 | UsbPhy0 | UsbPhy1
    | UsbHsic | UsbHsic12m | UsbOhci0 | UsbOhci1

  /** The gate of each clock: bus gates in 0x060, USB in 0x0cc. */
  function ClkLine(c: Clk): Line {
    match c
    case BusOtg => Line(0x060, 23)
    case BusEhci0 => Line(0x060, 24)
    case BusEhci1 => Line(0x060, 25)
    case BusOhci0 => Line(0x060, 28)
    case BusOhci1 => Line(0x060, 29)
    case UsbPhy0 => Line(0x0cc, 8)
    case UsbPhy1 => Line(0x0cc, 9)
    case UsbHsic => Line(0x0cc, 10)
    case UsbHsic12m => Line(0x0cc, 11)
    case UsbOhci0 => Line(0x0cc, 16)
    case UsbOhci1 => Line(0x0cc, 17)
  }

  /** The a64_clks entry of each clock; none carries a set_rate callback. */
  function ClkEntry(c: Clk): ClkMap {
    Gate(ClkLine(c), false)
  }

  /** a64_clks, laid out by the numbering `ci`. */
  function Clks(ci: Clk -> nat): seq<ClkMap> {
    Layout.Fill(ClkIds, ci, ClkEntry, NoClk)
  }

  /**
   * With distinct numbers for distinct clocks, every clock finds its own entry
   * in a64_clks and every slot no clock is numbered to is a zero-filled hole.
   */
  lemma ClkTable(ci: Clk -> nat)
    requires Layout.Injective(ci)
    ensures forall c :: ci(c) < |Clks(ci)| && Clks(ci)[ci(c)] == ClkEntry(c)
    ensures forall i :: 0 <= i < |Clks(ci)| && (forall c :: ci(c) != i) ==> Clks(ci)[i] == NoClk
  {
    AllNamed();
    Layout.FillAll(ClkIds, ci, ClkEntry, NoClk);
  }

  /** sun50i_a64_ccu_desc: the clock table only; it declares no reset map. */
  function Desc(ci: Clk -> nat): CcuDesc {
    CcuDesc(Clks(ci), [])
  }

  /** Every A64 clock has a line of its own. */
  lemma LinesSeparate()
    ensures Separate(ClkLine)
  {
    forall c: Clk ensures ClkLine(c).off != 0 && ClkAt(ClkLine(c)) == Some(c) {
      ClkNamed(c);
    }
  }

  /** a64_clk_ids: one entry, for the A64. */
  function Ids(ci: Clk -> nat): seq<MatchEntry> {
    [MatchEntry("allwinner,sun50i-a64-ccu", Desc(ci))]
  }

  /** A device matched as A64 gets the descriptor; any other gets none. */
  lemma MatchedDescriptor(ci: Clk -> nat, compatible: string)
    ensures DriverData(Ids(ci), compatible) ==
      if compatible == "allwinner,sun50i-a64-ccu"
      then Some(Desc(ci)) else None
  {
  }

  /**
   * a64_clk_probe, for a device bound through the compatible string
   * `compatible`: NULL base is -ENOMEM, no matching entry (NULL driver data)
   * is -EINVAL, otherwise the base and the A64 descriptor are stored.
   */
  method Probe(priv: ClkPriv, base: Addr, compatible: string, ci: Clk -> nat) returns (ret: int)
    modifies priv
    ensures priv.base == base
    ensures base == NULL ==> ret == -ENOMEM && priv.desc == old(priv.desc)
    ensures base != NULL ==> priv.desc == DriverData(Ids(ci), compatible)
    ensures base != NULL ==> (ret == 0 <==> priv.desc == Some(Desc(ci)))
    ensures base != NULL && ret != 0 ==> ret == -EINVAL
  {
    MatchedDescriptor(ci, compatible);
    ret := SunxiClk.Probe(priv, base, DriverData(Ids(ci), compatible));
  }

  /* The ID sets in source order, and the facts that every ID is listed and has its own line. */

  /** The ID the i-th initialiser of a64_clks names, in source order. */
  function ClkInit(i: int): Clk {
    match i
    case 0 => Clk.BusOtg
    case 1 => Clk.BusEhci0
    case 2 => Clk.BusEhci1
    case 3 => Clk.BusOhci0
    case 4 => Clk.BusOhci1
    case 5 => Clk.UsbPhy0
    case 6 => Clk.UsbPhy1
    case 7 => Clk.UsbHsic
    case 8 => Clk.UsbHsic12m
    case 9 => Clk.UsbOhci0
    case _ => Clk.UsbOhci1
  }

  /** The position of the initialiser naming each ID. */
  function ClkPos(x: Clk): nat {
    match x
    case BusOtg => 0
    case BusEhci0 => 1
    case BusEhci1 => 2
    case BusOhci0 => 3
    case BusOhci1 => 4
    case UsbPhy0 => 5
    case UsbPhy1 => 6
    case UsbHsic => 7
    case UsbHsic12m => 8
    case UsbOhci0 => 9
    case UsbOhci1 => 10
  }

  const ClkIds: seq<Clk> := seq(11, ClkInit)

  /** Which clock gates a given line, if any: the table read backwards. */
  function ClkAt(l: Line): Option<Clk> {
    if l.off == 0x060 then
      if l.n == 23 then Some(Clk.BusOtg) else if l.n == 24 then Some(Clk.BusEhci0)
      else if l.n == 25 then Some(Clk.BusEhci1) else if l.n == 28 then Some(Clk.BusOhci0)
      else if l.n == 29 then Some(Clk.BusOhci1)
      else None
    else if l.off == 0x0cc then
      if l.n == 8 then Some(Clk.UsbPhy0) else if l.n == 9 then Some(Clk.UsbPhy1)
      else if l.n == 10 then Some(Clk.UsbHsic) else if l.n == 11 then Some(Clk.UsbHsic12m)
      else if l.n == 16 then Some(Clk.UsbOhci0) else if l.n == 17 then Some(Clk.UsbOhci1)
      else None
    else None
  }

  /** Each clock ID is listed in ClkIds and is the only one gating its line. */
  lemma ClkNamed(c: Clk)
    ensures ClkPos(c) < 11 && ClkInit(ClkPos(c)) == c
    ensures ClkLine(c).off != 0 && ClkAt(ClkLine(c)) == Some(c)
  {
    match c
    case BusOtg =>
    case BusEhci0 =>
    case BusEhci1 =>
    case BusOhci0 =>
    case BusOhci1 =>
    case UsbPhy0 =>
    case UsbPhy1 =>
    case UsbHsic =>
    case UsbHsic12m =>
    case UsbOhci0 =>
    case UsbOhci1 =>
  }

  /** a64_clks names every clock ID. */
  lemma AllNamed()
    ensures forall c: Clk :: c in ClkIds
  {
    forall c: Clk ensures c in ClkIds {
      ClkNamed(c);
      assert ClkIds[ClkPos(c)] == c;
    }
  }
}
