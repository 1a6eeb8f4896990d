/**
 * Memory-mapped register access (readl/writel): the register bank is a map from
 * byte address to 32-bit word. A read-modify-write that sets or clears a mask
 * changes the one word it addresses and nothing else.
 */
module Mmio {
  import opened Base

  /** A bus address; NULL is address 0. */
  type Addr = nat
  const NULL: Addr := 0

  type Bank = map<Addr, bv32>

  /** The bank after `reg = readl(a); writel(reg | bits, a)`. */
  function SetBits(mem: Bank, a: Addr, bits: bv32): (r: Bank)
    requires a in mem
    ensures a in r && r[a] == SetMask(mem[a], bits)
    ensures forall b :: b in mem && b != a ==> b in r && r[b] == mem[b]
    ensures r.Keys == mem.Keys
  {
    mem[a := SetMask(mem[a], bits)]
  }

  /** The bank after `reg = readl(a); writel(reg & ~bits, a)`. */
  function ClearBits(mem: Bank, a: Addr, bits: bv32): (r: Bank)
    requires a in mem
    ensures a in r && r[a] == ClearMask(mem[a], bits)
    ensures forall b :: b in mem && b != a ==> b in r && r[b] == mem[b]
    ensures r.Keys == mem.Keys
  {
    mem[a := ClearMask(mem[a], bits)]
  }

  /** The hardware register space seen by a driver. */
  class Registers {
    var mem: Bank

    constructor (init: Bank)
      ensures mem == init
    {
      mem := init;
    }

    /** readl */
    method Read(a: Addr) returns (v: bv32)
      requires a in mem
      ensures v == mem[a]
    {
      v := mem[a];
    }

    /** writel */
    method Write(a: Addr, v: bv32)
      requires a in mem
      modifies this
      ensures mem == old(mem)[a := v]
    {
      mem := mem[a := v];
    }
  }
}
