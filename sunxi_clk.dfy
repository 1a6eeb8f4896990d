/**
 * The generic gate engine shared by every sunxi clock driver: enable sets and
 * disable clears the entry's mask in the register at base + offset, and an
 * entry with a zero offset or a zero mask is skipped. Also the probe step the
 * chip drivers share.
 */
module SunxiClk {
  import opened Base
  import opened Wrappers
  import opened Mmio
  import opened Ccu

  /** The register a handled entry addresses is mapped. */
  predicate Mapped(mem: Bank, base: Addr, m: ClkMap) {
    !Unhandled(m.off, m.bit) ==> base + m.off in mem
  }

  /** The register bank after sunxi_clk_enable on entry `m`. */
  function Enabled(mem: Bank, base: Addr, m: ClkMap): Bank
    requires Mapped(mem, base, m)
  {
    if Unhandled(m.off, m.bit) then mem else SetBits(mem, base + m.off, m.bit)
  }

  /** The register bank after sunxi_clk_disable on entry `m`. */
  function Disabled(mem: Bank, base: Addr, m: ClkMap): Bank
    requires Mapped(mem, base, m)
  {
    if Unhandled(m.off, m.bit) then mem else ClearBits(mem, base + m.off, m.bit)
  }

  /** sunxi_clk_enable: `clks[id]` is read unchecked, so `id` must be in range. */
  method Enable(priv: ClkPriv, hw: Registers, id: nat) returns (ret: int)
    requires priv.desc.Some? && id < |priv.desc.value.clks|
    requires Mapped(hw.mem, priv.base, priv.desc.value.clks[id])
    modifies hw
    ensures ret == 0
    ensures hw.mem == Enabled(old(hw.mem), priv.base, priv.desc.value.clks[id])
  {
    var m := priv.desc.value.clks[id];
    if m.off == 0 || m.bit == 0 {
      return 0;
    }
    var reg := hw.Read(priv.base + m.off);
    hw.Write(priv.base + m.off, reg | m.bit);
    return 0;
  }

  /** sunxi_clk_disable */
  method Disable(priv: ClkPriv, hw: Registers, id: nat) returns (ret: int)
    requires priv.desc.Some? && id < |priv.desc.value.clks|
    requires Mapped(hw.mem, priv.base, priv.desc.value.clks[id])
    modifies hw
    ensures ret == 0
    ensures hw.mem == Disabled(old(hw.mem), priv.base, priv.desc.value.clks[id])
  {
    var m := priv.desc.value.clks[id];
    if m.off == 0 || m.bit == 0 {
      return 0;
    }
    var reg := hw.Read(priv.base + m.off);
    hw.Write(priv.base + m.off, reg & !m.bit);
    return 0;
  }

  /** An unhandled entry leaves every register as it was, under both operations. */
  lemma UnhandledIsNoop(mem: Bank, base: Addr, m: ClkMap)
    requires Unhandled(m.off, m.bit)
    ensures Enabled(mem, base, m) == mem
    ensures Disabled(mem, base, m) == mem
  {
  }

  /** A zero-filled hole in a clock table is unhandled. */
  lemma HoleIsNoop(mem: Bank, base: Addr)
    ensures Enabled(mem, base, NoClk) == mem
    ensures Disabled(mem, base, NoClk) == mem
  {
  }

  /**
   * Enable on a handled entry sets the entry's bits of the one register it
   * addresses; the other bits of that register (SetMask's contract) and every
   * other register keep their values.
   */
  lemma EnableEffect(mem: Bank, base: Addr, m: ClkMap)
    requires !Unhandled(m.off, m.bit) && base + m.off in mem
    ensures var r, a := Enabled(mem, base, m), base + m.off;
      && r.Keys == mem.Keys
      && r[a] == mem[a] | m.bit
      && r[a] == SetMask(mem[a], m.bit)
      && forall b :: b in mem && b != a ==> r[b] == mem[b]
  {
  }

  /** Disable on a handled entry clears exactly the entry's bits. */
  lemma DisableEffect(mem: Bank, base: Addr, m: ClkMap)
    requires !Unhandled(m.off, m.bit) && base + m.off in mem
    ensures var r, a := Disabled(mem, base, m), base + m.off;
      && r.Keys == mem.Keys
      && r[a] == mem[a] & !m.bit
      && r[a] == ClearMask(mem[a], m.bit)
      && forall b :: b in mem && b != a ==> r[b] == mem[b]
  {
  }

  lemma EnableIdempotent(mem: Bank, base: Addr, m: ClkMap)
    requires Mapped(mem, base, m)
    ensures Mapped(Enabled(mem, base, m), base, m)
    ensures Enabled(Enabled(mem, base, m), base, m) == Enabled(mem, base, m)
  {
    if !Unhandled(m.off, m.bit) {
      SetMaskIdempotent(mem[base + m.off], m.bit);
    }
  }

  lemma DisableIdempotent(mem: Bank, base: Addr, m: ClkMap)
    requires Mapped(mem, base, m)
    ensures Mapped(Disabled(mem, base, m), base, m)
    ensures Disabled(Disabled(mem, base, m), base, m) == Disabled(mem, base, m)
  {
    if !Unhandled(m.off, m.bit) {
      ClearMaskIdempotent(mem[base + m.off], m.bit);
    }
  }

  /**
   * Enable followed by disable gives the same bank as a disable alone: the
   * register holds `old & ~bit` and nothing else has changed.
   */
  lemma DisableAfterEnable(mem: Bank, base: Addr, m: ClkMap)
    requires Mapped(mem, base, m)
    ensures Mapped(Enabled(mem, base, m), base, m)
    ensures Disabled(Enabled(mem, base, m), base, m) == Disabled(mem, base, m)
  {
    if !Unhandled(m.off, m.bit) {
      ClearAfterSet(mem[base + m.off], m.bit);
    }
  }

  /**
   * Neither operation looks at the set-rate callback: the gate behaves the same
   * whether the entry carries one or not.
   */
  lemma SetRateCallbackUnused(mem: Bank, base: Addr, m: ClkMap)
    requires Mapped(mem, base, m)
    ensures Enabled(mem, base, m) == Enabled(mem, base, m.(setRate := !m.setRate))
    ensures Disabled(mem, base, m) == Disabled(mem, base, m.(setRate := !m.setRate))
  {
  }

  /** The members of the clock-uclass operation table. */
  datatype ClkOp = Request | Free | GetRate | SetRate | SetParent | Enable | Disable

  /**
   * A call through sunxi_clk_ops on entry `m`: enable and disable change the
   * bank as the engine does, and every other operation is NULL in the table,
   * so no driver code runs (None).
   */
  function Dispatch(op: ClkOp, mem: Bank, base: Addr, m: ClkMap): Option<Bank>
    requires Mapped(mem, base, m)
  {
    match op
    case Enable => Some(Enabled(mem, base, m))
    case Disable => Some(Disabled(mem, base, m))
    case _ => None
  }

  /**
   * No call through sunxi_clk_ops reaches a set-rate callback: set_rate is not
   * in the table, each operation that is changes the bank as enable or disable
   * does, and the outcome is the same whether the entry carries the callback
   * or not.
   */
  lemma OpsNeverReachSetRate(op: ClkOp, mem: Bank, base: Addr, m: ClkMap)
    requires Mapped(mem, base, m)
    ensures op == ClkOp.SetRate ==> Dispatch(op, mem, base, m) == None
    ensures Dispatch(op, mem, base, m).Some? ==>
      Dispatch(op, mem, base, m).value == Enabled(mem, base, m) || Dispatch(op, mem, base, m).value == Disabled(mem, base, m)
    ensures Dispatch(op, mem, base, m) == Dispatch(op, mem, base, m.(setRate := !m.setRate))
  {
    SetRateCallbackUnused(mem, base, m);
  }

  /**
   * The probe every chip driver uses (h3_clk_probe, a83t_clk_probe, ...): store
   * the base; a NULL base is -ENOMEM; then store the descriptor the match
   * supplied; a NULL descriptor is -EINVAL.
   */
  method Probe(priv: ClkPriv, base: Addr, data: Option<CcuDesc>) returns (ret: int)
    modifies priv
    ensures priv.base == base
    ensures base == NULL ==> ret == -ENOMEM && priv.desc == old(priv.desc)
    ensures base != NULL ==> priv.desc == data && ret == (if data.None? then -EINVAL else 0)
  {
    priv.base := base;
    if priv.base == NULL {
      return -ENOMEM;
    }
    priv.desc := data;
    if priv.desc.None? {
      return -EINVAL;
    }
    return 0;
  }
}
