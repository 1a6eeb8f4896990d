/** C integer widths and the errno values used by the drivers. */
module Base {
  type uint8 = x: int | 0 <= x < 0x100
  type uint16 = x: int | 0 <= x < 0x1_0000
  type uint32 = x: int | 0 <= x < 0x1_0000_0000

  /** errno values returned negated by the drivers (ENOMEM, EINVAL). */
  const ENOMEM: int := 12
  const EINVAL: int := 22

  /** Assignment of a non-negative value to a u8: the value modulo 256, itself when it fits. */
  function ToU8(x: nat): (r: uint8)
    ensures x < 0x100 ==> r == x
    ensures r <= x
  {
    x % 0x100
  }

  /** `x | m`: every bit of `m` set, every other bit of `x` kept. */
  function SetMask(x: bv32, m: bv32): (v: bv32)
    ensures v & m == m
    ensures v & !m == x & !m
  {
    x | m
  }

  /** `x & ~m`: every bit of `m` cleared, every other bit of `x` kept. */
  function ClearMask(x: bv32, m: bv32): (v: bv32)
    ensures v & m == 0
    ensures v & !m == x & !m
  {
    x & !m
  }

  lemma SetMaskIdempotent(x: bv32, m: bv32)
    ensures SetMask(SetMask(x, m), m) == SetMask(x, m)
  {
    assert (x | m) | m == x | m;
  }

  lemma ClearMaskIdempotent(x: bv32, m: bv32)
    ensures ClearMask(ClearMask(x, m), m) == ClearMask(x, m)
  {
    assert (x & !m) & !m == x & !m;
  }

  /** Clearing after setting is the same as clearing alone, and vice versa. */
  lemma ClearAfterSet(x: bv32, m: bv32)
    ensures ClearMask(SetMask(x, m), m) == ClearMask(x, m)
  {
    assert (x | m) & !m == x & !m;
  }

  lemma SetAfterClear(x: bv32, m: bv32)
    ensures SetMask(ClearMask(x, m), m) == SetMask(x, m)
  {
    calc {
      SetMask(ClearMask(x, m), m);
      ClearMask(x, m) | m;
      (x & !m) | m;
      { OrAfterAndNot(x, m); }
      x | m;
      SetMask(x, m);
    }
  }

  /** `(x & ~m) | m` is `x | m`: the bits of `m` a clear removes, the set puts back. */
  lemma OrAfterAndNot(x: bv32, m: bv32)
    ensures (x & !m) | m == x | m
  {
  }
}

module Wrappers {
  datatype Option<+T> = None | Some(value: T)
}
