/**
 * The generic reset engine shared by every sunxi clock driver that has reset
 * lines: request bounds the ID by the count recorded at bind time, assert
 * clears and deassert sets the line's mask, and a line with a zero offset or
 * a zero mask is skipped.
 */
module SunxiReset {
  import opened Base
  import opened Wrappers
  import opened Mmio
  import opened Ccu

  /**
   * sunxi_reset_priv: the register base, the number of reset IDs the chip
   * driver declared, and the chip descriptor whose reset map is used.
   */
  class ResetPriv {
    var base: Addr
    var count: nat
    var desc: Option<CcuDesc>

    /** The area sunxi_reset_bind allocates and fills with the count and descriptor. */
    constructor (count: nat, desc: Option<CcuDesc>)
      ensures this.base == NULL && this.count == count && this.desc == desc
    {
      this.base := NULL;
      this.count := count;
      this.desc := desc;
    }
  }

  /** The register a handled reset line addresses is mapped. */
  predicate Mapped(mem: Bank, base: Addr, m: ResetMap) {
    !Unhandled(m.off, m.bit) ==> base + m.off in mem
  }

  /** The register bank after sunxi_reset_assert on line `m`: the line is held in reset. */
  function Asserted(mem: Bank, base: Addr, m: ResetMap): Bank
    requires Mapped(mem, base, m)
  {
    if Unhandled(m.off, m.bit) then mem else ClearBits(mem, base + m.off, m.bit)
  }

  /** The register bank after sunxi_reset_deassert on line `m`: the line is released. */
  function Deasserted(mem: Bank, base: Addr, m: ResetMap): Bank
    requires Mapped(mem, base, m)
  {
    if Unhandled(m.off, m.bit) then mem else SetBits(mem, base + m.off, m.bit)
  }

  /**
   * sunxi_reset_request: an ID at or beyond the bound count is -EINVAL, every
   * other ID is accepted. The reset map itself is not consulted.
   */
  method Request(priv: ResetPriv, id: nat) returns (ret: int)
    ensures ret == 0 <==> id < priv.count
    ensures ret == -EINVAL <==> id >= priv.count
  {
    if id >= priv.count {
      return -EINVAL;
    }
    return 0;
  }

  /** sunxi_reset_free always succeeds and touches nothing. */
  method Free(priv: ResetPriv, id: nat) returns (ret: int)
    ensures ret == 0
  {
    return 0;
  }

  /**
   * sunxi_reset_assert: `resets[id]` is read without a bound check of its own,
   * so `id` must index the reset map (request only bounds it by the count).
   */
  method Assert(priv: ResetPriv, hw: Registers, id: nat) returns (ret: int)
    requires priv.desc.Some? && id < |priv.desc.value.resets|
    requires Mapped(hw.mem, priv.base, priv.desc.value.resets[id])
    modifies hw
    ensures ret == 0
    ensures hw.mem == Asserted(old(hw.mem), priv.base, priv.desc.value.resets[id])
  {
    var m := priv.desc.value.resets[id];
    if m.off == 0 || m.bit == 0 {
      return 0;
    }
    var reg := hw.Read(priv.base + m.off);
    hw.Write(priv.base + m.off, reg & !m.bit);
    return 0;
  }

  /** sunxi_reset_deassert */
  method Deassert(priv: ResetPriv, hw: Registers, id: nat) returns (ret: int)
    requires priv.desc.Some? && id < |priv.desc.value.resets|
    requires Mapped(hw.mem, priv.base, priv.desc.value.resets[id])
    modifies hw
    ensures ret == 0
    ensures hw.mem == Deasserted(old(hw.mem), priv.base, priv.desc.value.resets[id])
  {
    var m := priv.desc.value.resets[id];
    if m.off == 0 || m.bit == 0 {
      return 0;
    }
    var reg := hw.Read(priv.base + m.off);
    hw.Write(priv.base + m.off, reg | m.bit);
    return 0;
  }

  /** sunxi_reset_probe stores the device address, with no NULL check, and succeeds. */
  method Probe(priv: ResetPriv, base: Addr) returns (ret: int)
    modifies priv
    ensures ret == 0
    ensures priv.base == base && priv.count == old(priv.count) && priv.desc == old(priv.desc)
  {
    priv.base := base;
    return 0;
  }

  /**
   * sunxi_reset_bind: `bindRet` is the status of binding the reset driver to
   * the clock node. A failure is passed back and nothing is allocated;
   * otherwise a private area holding `count` and the clock device's driver
   * data is attached to the new reset device.
   */
  method Bind(bindRet: int, count: nat, data: Option<CcuDesc>) returns (ret: int, rst: ResetPriv?)
    ensures bindRet != 0 ==> ret == bindRet && rst == null
    ensures bindRet == 0 ==> ret == 0 && rst != null && fresh(rst)
    ensures rst != null ==> rst.count == count && rst.desc == data
  {
    if bindRet != 0 {
      return bindRet, null;
    }
    rst := new ResetPriv(count, data);
    return 0, rst;
  }

  /** An unhandled line leaves every register as it was, under both operations. */
  lemma UnhandledIsNoop(mem: Bank, base: Addr, m: ResetMap)
    requires Unhandled(m.off, m.bit)
    ensures Asserted(mem, base, m) == mem
    ensures Deasserted(mem, base, m) == mem
  {
  }

  /** Assert on a handled line clears exactly the line's bits of its one register. */
  lemma AssertEffect(mem: Bank, base: Addr, m: ResetMap)
    requires !Unhandled(m.off, m.bit) && base + m.off in mem
    ensures var r, a := Asserted(mem, base, m), base + m.off;
      && r.Keys == mem.Keys
      && r[a] == ClearMask(mem[a], m.bit)
      && forall b :: b in mem && b != a ==> r[b] == mem[b]
  {
  }

  /** Deassert on a handled line sets exactly the line's bits of its one register. */
  lemma DeassertEffect(mem: Bank, base: Addr, m: ResetMap)
    requires !Unhandled(m.off, m.bit) && base + m.off in mem
    ensures var r, a := Deasserted(mem, base, m), base + m.off;
      && r.Keys == mem.Keys
      && r[a] == SetMask(mem[a], m.bit)
      && forall b :: b in mem && b != a ==> r[b] == mem[b]
  {
  }

  lemma AssertIdempotent(mem: Bank, base: Addr, m: ResetMap)
    requires Mapped(mem, base, m)
    ensures Mapped(Asserted(mem, base, m), base, m)
    ensures Asserted(Asserted(mem, base, m), base, m) == Asserted(mem, base, m)
  {
    if !Unhandled(m.off, m.bit) {
      ClearMaskIdempotent(mem[base + m.off], m.bit);
    }
  }

  lemma DeassertIdempotent(mem: Bank, base: Addr, m: ResetMap)
    requires Mapped(mem, base, m)
    ensures Mapped(Deasserted(mem, base, m), base, m)
    ensures Deasserted(Deasserted(mem, base, m), base, m) == Deasserted(mem, base, m)
  {
    if !Unhandled(m.off, m.bit) {
      SetMaskIdempotent(mem[base + m.off], m.bit);
    }
  }

  /** Deasserting after an assert leaves the bank as a deassert alone would. */
  lemma DeassertAfterAssert(mem: Bank, base: Addr, m: ResetMap)
    requires Mapped(mem, base, m)
    ensures Mapped(Asserted(mem, base, m), base, m)
    ensures Deasserted(Asserted(mem, base, m), base, m) == Deasserted(mem, base, m)
  {
    if !Unhandled(m.off, m.bit) {
      SetAfterClear(mem[base + m.off], m.bit);
    }
  }

  /** Asserting after a deassert leaves the bank as an assert alone would. */
  lemma AssertAfterDeassert(mem: Bank, base: Addr, m: ResetMap)
    requires Mapped(mem, base, m)
    ensures Mapped(Deasserted(mem, base, m), base, m)
    ensures Asserted(Deasserted(mem, base, m), base, m) == Asserted(mem, base, m)
  {
    if !Unhandled(m.off, m.bit) {
      ClearAfterSet(mem[base + m.off], m.bit);
    }
  }

  /**
   * Lines in different registers do not interfere: asserting or deasserting
   * one leaves the other line's register untouched.
   */
  lemma DistinctRegistersIndependent(mem: Bank, base: Addr, m: ResetMap, n: ResetMap)
    requires Mapped(mem, base, m) && !Unhandled(n.off, n.bit) && base + n.off in mem
    requires Unhandled(m.off, m.bit) || m.off != n.off
    ensures base + n.off in Asserted(mem, base, m) && Asserted(mem, base, m)[base + n.off] == mem[base + n.off]
    ensures base + n.off in Deasserted(mem, base, m) && Deasserted(mem, base, m)[base + n.off] == mem[base + n.off]
  {
  }
}
