/**
 * The register arithmetic of the sun6i SPI controller: the transfer-control
 * rewrites of set_mode and set_cs, the clock-control divider of set_speed,
 * and the FIFO-sized chunking of a transfer.
 */
module SpiWords {
  // Transfer-control (TFR_CTL) fields.
  const CPHA: bv32 := 0x1
  const CPOL: bv32 := 0x2
  const CS_MASK: bv32 := 0x30
  const CS_LEVEL: bv32 := 0x80
  const FBS: bv32 := 0x1000
  const XCH: bv32 := 0x8000_0000
  /** CPOL | CPHA | FBS, the bits set_mode rewrites. */
  const MODE_BITS: bv32 := 0x1003
  /** CS_MASK | CS_LEVEL, the bits set_cs rewrites. */
  const CS_BITS: bv32 := 0xb0

  // FIFO-control (FIFO_CTL) fields.
  const RF_RST: bv32 := 0x8000
  const TF_RST: bv32 := 0x8000_0000

  // Clock-control (CLK_CTL) fields: CDR2 in bits 0-7, CDR1 in bits 8-11, DRS bit 12.
  const CDR2_MASK: bv32 := 0xff
  const CDR1_MASK: bv32 := 0xf
  const DRS: bv32 := 0x1000
  /** CDR2_MASK | DRS, and (CDR1_MASK << 8) | DRS: the divider bits of each setting. */
  const CDR2_BITS: bv32 := 0x10ff
  const CDR1_BITS: bv32 := 0x1f00

  /** Burst, transmit and start-count registers keep the low 24 bits of a count. */
  const MAX_XFER_SIZE: nat := 0xff_ffff

  /** The module clock the dividers divide, and the range set_speed clamps to. */
  const MAX_RATE: nat := 24_000_000
  const MIN_RATE: nat := 3_000

  /** The FIFO depth the H3 compatible supplies as driver data. */
  const SUN8I_FIFO_DEPTH: nat := 64

  /**
   * The SPI mode flags set_mode looks at. Their numeric values belong to the
   * SPI uclass header, which is not part of this model.
   */
  datatype Mode = Mode(cpol: bool, cpha: bool, lsbFirst: bool)

  /** The flags of one xfer call that this driver acts on. */
  datatype XferFlags = XferFlags(begin: bool, end: bool)

  /** The CPOL, CPHA and FBS bits a mode asks for. */
  function ModeValue(mode: Mode): bv32 {
    (if mode.cpol then CPOL else 0) | (if mode.cpha then CPHA else 0) | (if mode.lsbFirst then FBS else 0)
  }

  lemma ModeFields(reg: bv32, p: bv32, h: bv32, f: bv32)
    requires p & !CPOL == 0 && h & !CPHA == 0 && f & !FBS == 0
    ensures ((reg & !MODE_BITS) | (p | h | f)) & !MODE_BITS == reg & !MODE_BITS
    ensures ((reg & !MODE_BITS) | (p | h | f)) & CPOL == p
    ensures ((reg & !MODE_BITS) | (p | h | f)) & CPHA == h
    ensures ((reg & !MODE_BITS) | (p | h | f)) & FBS == f
  {
  }

  /**
   * The transfer-control word set_mode writes: CPOL, CPHA and FBS each follow
   * their mode flag, every other bit is kept.
   */
  function ModeWord(reg: bv32, mode: Mode): (r: bv32)
    ensures (r & CPOL != 0) == mode.cpol
    ensures (r & CPHA != 0) == mode.cpha
    ensures (r & FBS != 0) == mode.lsbFirst
    ensures r & !MODE_BITS == reg & !MODE_BITS
  {
    ModeFields(reg, if mode.cpol then CPOL else 0, if mode.cpha then CPHA else 0, if mode.lsbFirst then FBS else 0);
    (reg & !MODE_BITS) | ModeValue(mode)
  }

  /** Only the last set_mode counts: a second call overrides the first entirely. */
  lemma ModeLastWins(reg: bv32, first: Mode, second: Mode)
    ensures ModeWord(ModeWord(reg, first), second) == ModeWord(reg, second)
  {
    assert ModeWord(reg, first) & !MODE_BITS == reg & !MODE_BITS;
  }

  lemma ModeIdempotent(reg: bv32, mode: Mode)
    ensures ModeWord(ModeWord(reg, mode), mode) == ModeWord(reg, mode)
  {
    ModeLastWins(reg, mode, mode);
  }

  /** The chip-select field of SUN6I_TFR_CTL_CS(cs): the low two bits of `cs`, shifted to bits 4-5. */
  function CsField(cs: bv8): (f: bv32)
    ensures f & !CS_MASK == 0
    ensures f == ((cs as bv32) & 3) << 4
  {
    ((cs as bv32) << 4) & CS_MASK
  }

  /** The CS field and CS_LEVEL bit set_cs writes. */
  function CsValue(cs: bv8, enable: bool): (v: bv32)
    ensures v & !CS_BITS == 0
  {
    if enable then CsField(cs) else CS_LEVEL
  }

  lemma CsFields(reg: bv32, f: bv32, l: bv32)
    requires f & !CS_MASK == 0 && l & !CS_LEVEL == 0
    ensures ((reg & !CS_BITS) | (f | l)) & CS_MASK == f
    ensures ((reg & !CS_BITS) | (f | l)) & CS_LEVEL == l
  {
  }

  /**
   * The transfer-control word set_cs writes. The CS field is always cleared,
   * then selecting clears CS_LEVEL and puts `cs` in the field, while
   * deselecting sets CS_LEVEL; every other bit is kept. Clearing the field
   * and then, on select, CS_LEVEL before ORing in the new bits is the same as
   * clearing both at once.
   */
  function CsWord(reg: bv32, cs: bv8, enable: bool): bv32 {
    (reg & !CS_BITS) | CsValue(cs, enable)
  }

  /**
   * Selecting drives CS_LEVEL low and puts the low two bits of `cs` in the
   * field; deselecting leaves the field clear and drives CS_LEVEL high; every
   * other bit of the word is kept.
   */
  lemma CsWordFields(reg: bv32, cs: bv8, enable: bool)
    ensures CsWord(reg, cs, enable) & CS_MASK == (if enable then ((cs as bv32) & 3) << 4 else 0)
    ensures (CsWord(reg, cs, enable) & CS_LEVEL != 0) == !enable
    ensures CsWord(reg, cs, enable) & !CS_BITS == reg & !CS_BITS
  {
    CsFields(reg, if enable then CsField(cs) else 0, if enable then 0 else CS_LEVEL);
    CsWordKeeps(reg, cs, enable);
  }

  lemma CsWordKeeps(reg: bv32, cs: bv8, enable: bool)
    ensures CsWord(reg, cs, enable) & !CS_BITS == reg & !CS_BITS
  {
  }

  // A single implication rather than a precondition: bit-vector proofs with
  // several obligations in one body are much harder for the solver.
  lemma CsRewrite(x: bv32, reg: bv32, v: bv32)
    ensures x & !CS_BITS == reg & !CS_BITS ==> (x & !CS_BITS) | v == (reg & !CS_BITS) | v
  {
  }

  /**
   * The last set_cs alone decides the chip-select bits; in particular
   * deselecting after a select is the same as a plain deselect.
   */
  lemma CsLastWins(reg: bv32, cs: bv8, enable: bool, cs2: bv8, enable2: bool)
    ensures CsWord(CsWord(reg, cs, enable), cs2, enable2) == CsWord(reg, cs2, enable2)
  {
    CsWordKeeps(reg, cs, enable);
    CsRewrite(CsWord(reg, cs, enable), reg, CsValue(cs2, enable2));
  }

  // ---------------------------------------------------------------- dividers

  function Pow2(k: nat): (p: nat)
    ensures p >= 1
  {
    if k == 0 then 1 else 2 * Pow2(k - 1)
  }

  lemma {:induction false} Pow2Monotone(j: nat, k: nat)
    requires j <= k
    ensures Pow2(j) <= Pow2(k)
  {
    if j < k {
      Pow2Monotone(j, k - 1);
    }
  }

  /** __ilog2: the position of the highest set bit of a positive value. */
  function Ilog2(x: nat): (k: nat)
    requires x >= 1
    ensures Pow2(k) <= x < Pow2(k + 1)
  {
    if x == 1 then 0 else 1 + Ilog2(x / 2)
  }

  /** The exponent that brackets `x` between two powers of two is its Ilog2. */
  lemma Ilog2Unique(x: nat, k: nat)
    requires Pow2(k) <= x < Pow2(k + 1)
    ensures Ilog2(x) == k
  {
    var j := Ilog2(x);
    if j < k {
      Pow2Monotone(j + 1, k);
    } else if j > k {
      Pow2Monotone(k + 1, j);
    }
  }

  lemma Ilog2Monotone(x: nat, y: nat)
    requires 1 <= x <= y
    ensures Ilog2(x) <= Ilog2(y)
  {
    if Ilog2(x) > Ilog2(y) {
      Pow2Monotone(Ilog2(y) + 1, Ilog2(x));
    }
  }

  lemma {:induction false} Pow2Add(a: nat, b: nat)
    ensures Pow2(a + b) == Pow2(a) * Pow2(b)
  {
    if b > 0 {
      Pow2Add(a, b - 1);
      assert Pow2(a + b) == 2 * Pow2(a + b - 1);
    }
  }

  lemma Pow2Values()
    ensures Pow2(11) == 2048 && Pow2(12) == 4096
    ensures Pow2(15) == 32_768 && Pow2(16) == 65_536
    ensures Pow2(24) == 16_777_216 && Pow2(25) == 33_554_432
  {
    assert Pow2(4) == 16;
    Pow2Add(4, 4);
    Pow2Add(8, 4);
    Pow2Add(8, 3);
    Pow2Add(8, 8);
    Pow2Add(12, 3);
    Pow2Add(12, 4);
    Pow2Add(12, 12);
    Pow2Add(12, 13);
    Pow2Add(8, 5);
  }

  /** ilog2(24 MHz) is 24, and every speed that falls back to CDR1 has an ilog2 between 11 and 15. */
  lemma Ilog2Bounds(s: nat)
    requires MIN_RATE <= s <= 46_692
    ensures Ilog2(MAX_RATE) == 24
    ensures 11 <= Ilog2(s) <= 15
  {
    Pow2Values();
    Ilog2Unique(MAX_RATE, 24);
    Ilog2Monotone(MIN_RATE, s);
    Ilog2Monotone(s, 46_692);
    Ilog2Unique(MIN_RATE, 11);
    Ilog2Unique(46_692, 15);
  }

  /** set_speed's first step: the requested rate clamped into [MIN_RATE, MAX_RATE]. */
  function Clamp(speed: nat): (s: nat)
    ensures MIN_RATE <= s <= MAX_RATE
    ensures MIN_RATE <= speed <= MAX_RATE ==> s == speed
    ensures speed > MAX_RATE ==> s == MAX_RATE
    ensures speed < MIN_RATE ==> s == MIN_RATE
  {
    var upper := if speed < MAX_RATE then speed else MAX_RATE;
    if MIN_RATE > upper then MIN_RATE else upper
  }

  /**
   * The two dividers of the clock-control register: CDR2 divides the module
   * clock by 2 * (n + 1), CDR1 by 2 ^ n.
   */
  datatype Divider = Cdr2(n: nat) | Cdr1(n: nat)

  /** The SPI clock a divider produces from the module clock. */
  function Rate(d: Divider): int {
    match d
    case Cdr2(n) => MAX_RATE / (2 * (n + 1))
    case Cdr1(n) => MAX_RATE / Pow2(n)
  }

  /** For b > 0, a / b <= q exactly when a < (q + 1) * b. */
  lemma DivAtMost(a: nat, b: nat, q: nat)
    requires b > 0
    ensures a / b <= q <==> a < (q + 1) * b
  {
    var d, m := a / b, a % b;
    assert a == d * b + m && 0 <= m < b;
    if d <= q {
      assert d * b <= q * b;
      assert a < q * b + b;
    } else {
      assert d >= q + 1;
      assert d * b >= (q + 1) * b;
    }
  }

  /** For b > 0, c * b <= a exactly when c <= a / b. */
  lemma DivAtLeast(a: nat, b: nat, c: nat)
    requires b > 0
    ensures c * b <= a <==> c <= a / b
  {
    if c > 0 {
      DivAtMost(a, b, c - 1);
    }
  }

  /**
   * The quotient set_speed tests against 256, 24 MHz / (2 * s), is at most 256
   * exactly for s >= 46693, and is non-zero up to 12 MHz.
   */
  function Quotient(s: nat): (q: nat)
    requires MIN_RATE <= s <= MAX_RATE
    ensures q <= 256 <==> s >= 46_693
    ensures s <= 12_000_000 ==> q >= 1
  {
    DivAtMost(MAX_RATE, 2 * s, 256);
    DivAtLeast(MAX_RATE, 2 * s, 1);
    MAX_RATE / (2 * s)
  }

  /** The CDR1 exponent for a slow speed: ilog2(24 MHz) - ilog2(s). */
  function Exponent(s: nat): (e: nat)
    requires MIN_RATE <= s <= 46_692
    ensures 9 <= e <= 13
  {
    Ilog2Bounds(s);
    Ilog2(MAX_RATE) - Ilog2(s)
  }

  /**
   * The divider sun6i_spi_set_speed chooses. CDR2 is used while the integer
   * quotient 24 MHz / (2 * speed) is at most 256, that is for every clamped
   * speed of at least 46693 Hz; it is stored minus one (zero stays zero), so
   * it fits the 8-bit field. Slower speeds fall back to CDR1 with exponent
   * ilog2(24 MHz) - ilog2(speed), which lies between 9 and 13.
   */
  function ClockDivider(speed: nat): (d: Divider)
    ensures d.Cdr2? <==> Clamp(speed) >= 46_693
    ensures d.Cdr2? ==> d.n <= 255
    ensures d.Cdr1? ==> 9 <= d.n <= 13
    ensures Fits(d)
  {
    var s := Clamp(speed);
    var div := Quotient(s);
    if div <= 256 then Cdr2(if div > 0 then div - 1 else div)
    else Cdr1(Exponent(s))
  }

  /**
   * Above 12 MHz no CDR2 setting is fast enough: the divider bottoms out at
   * zero and the bus runs at half the module clock.
   */
  lemma FastestDivider(speed: nat)
    requires Clamp(speed) > 12_000_000
    ensures ClockDivider(speed) == Cdr2(0)
    ensures Rate(ClockDivider(speed)) == 12_000_000
  {
    DivAtMost(MAX_RATE, 2 * Clamp(speed), 0);
  }

  /**
   * Wherever CDR2 is chosen with a non-zero quotient, the divider rounds
   * towards the faster clock, by less than a factor of two: the bus runs at
   * no less than the clamped request and below twice it.
   */
  lemma Cdr2RateBracketsRequest(speed: nat)
    requires ClockDivider(speed).Cdr2? && Clamp(speed) <= 12_000_000
    ensures Clamp(speed) <= Rate(ClockDivider(speed)) < 2 * Clamp(speed)
  {
    var s := Clamp(speed);
    var q := Quotient(s);
    assert ClockDivider(speed) == Cdr2(q - 1);
    DivAtLeast(MAX_RATE, 2 * s, q);
    DivAtMost(MAX_RATE, 2 * s, q);
    Bracket(MAX_RATE, s, q);
  }

  /** If q is the quotient of a by 2 * s, then a / (2 * q) lies in [s, 2 * s). */
  lemma Bracket(a: nat, s: nat, q: nat)
    requires s >= 1 && q >= 1
    requires q * (2 * s) <= a < (q + 1) * (2 * s)
    ensures s <= a / (2 * q) < 2 * s
  {
    assert s * (2 * q) == q * (2 * s);
    DivAtLeast(a, 2 * q, s);
    assert (q + 1) * (2 * s) <= (2 * s) * (2 * q);
    DivAtMost(a, 2 * q, 2 * s - 1);
  }

  /** The divider value fits its field: 8 bits for CDR2, 4 bits for CDR1. */
  predicate Fits(d: Divider) {
    if d.Cdr2? then d.n < 256 else d.n < 16
  }

  /** The bits of the clock-control register a divider setting owns. */
  function DividerMask(d: Divider): bv32 {
    if d.Cdr2? then CDR2_BITS else CDR1_BITS
  }

  lemma MaskedUnion(v: bv32, w: bv32, m: bv32)
    requires v & !m == 0 && w & !m == 0
    ensures (v | w) & !m == 0
  {
  }

  lemma ShiftNibble(v: bv32)
    requires v & !CDR1_MASK == 0
    ensures (v << 8) & !CDR1_BITS == 0
  {
  }

  /** SUN6I_CLK_CTL_CDR2(n) | SUN6I_CLK_CTL_DRS */
  function Cdr2Bits(n: nat): (b: bv32)
    requires n < 256
    ensures b & !CDR2_BITS == 0
  {
    MaskedUnion((n as bv32) & CDR2_MASK, DRS, CDR2_BITS);
    ((n as bv32) & CDR2_MASK) | DRS
  }

  /** SUN6I_CLK_CTL_CDR1(n) */
  function Cdr1Bits(n: nat): (b: bv32)
    requires n < 16
    ensures b & !CDR1_BITS == 0
  {
    ShiftNibble((n as bv32) & CDR1_MASK);
    ((n as bv32) & CDR1_MASK) << 8
  }

  /**
   * The bits a divider setting is written as. Both macros mask the value to
   * its field, so no bit outside the setting's own bits is ever set.
   */
  function DividerBits(d: Divider): (b: bv32)
    requires Fits(d)
    ensures b & !DividerMask(d) == 0
  {
    if d.Cdr2? then Cdr2Bits(d.n) else Cdr1Bits(d.n)
  }

  /** The CDR2 field, the CDR1 field and the DRS select bit of a clock-control word. */
  function Cdr2Field(w: bv32): bv32 { w & CDR2_MASK }
  function Cdr1Field(w: bv32): bv32 { (w >> 8) & CDR1_MASK }
  predicate UsesCdr2(w: bv32) { w & DRS != 0 }

  /** The hardware, reading clock-control word `w`, divides by `d`. */
  predicate Selects(w: bv32, d: Divider)
    requires Fits(d)
  {
    if d.Cdr2? then UsesCdr2(w) && Cdr2Field(w) == d.n as bv32
    else !UsesCdr2(w) && Cdr1Field(w) == d.n as bv32
  }

  lemma OrKeeps(reg: bv32, b: bv32)
    ensures (reg | b) & reg == reg
    ensures (reg | b) & b == b
  {
  }

  lemma OrHigh(reg: bv32, b: bv32)
    ensures b & !0x1fff == 0 ==> (reg | b) & !0x1fff == reg & !0x1fff
  {
  }

  /** Every divider setting lies in the low 13 bits of the word. */
  lemma DividerBitsLow(d: Divider)
    requires Fits(d)
    ensures DividerBits(d) & !0x1fff == 0
  {
    var b := DividerBits(d);
    Within(b, DividerMask(d), 0x1fff);
  }

  lemma Within(b: bv32, m: bv32, w: bv32)
    ensures b & !m == 0 && m & !w == 0 ==> b & !w == 0
  {
  }

  /**
   * The clock-control word sun6i_spi_set_speed writes, as written: the chosen
   * setting's bits are ORed into the previous word, so every bit that was set
   * stays set.
   */
  function ClkCtlAsWritten(reg: bv32, d: Divider): (r: bv32)
    requires Fits(d)
    ensures r & reg == reg
  {
    OrKeeps(reg, DividerBits(d));
    reg | DividerBits(d)
  }

  /** As written, every bit of the new setting is set and bits 13-31 cannot change. */
  lemma ClkCtlAsWrittenSetsSetting(reg: bv32, d: Divider)
    requires Fits(d)
    ensures ClkCtlAsWritten(reg, d) & DividerBits(d) == DividerBits(d)
  {
    OrKeeps(reg, DividerBits(d));
  }

  lemma ClkCtlAsWrittenKeepsHighBits(reg: bv32, d: Divider)
    requires Fits(d)
    ensures ClkCtlAsWritten(reg, d) & !0x1fff == reg & !0x1fff
  {
    DividerBitsLow(d);
    OrHigh(reg, DividerBits(d));
  }

  lemma Cdr2Write(x: bv32, v: bv32)
    requires v & !CDR2_MASK == 0
    ensures ((x & !CDR2_BITS) | (v | DRS)) & DRS != 0
    ensures ((x & !CDR2_BITS) | (v | DRS)) & CDR2_MASK == v
    ensures ((x & !CDR2_BITS) | (v | DRS)) & !0x1fff == x & !0x1fff
  {
  }

  lemma Cdr1Write(x: bv32, n: nat)
    requires n < 16
    ensures ((x & !CDR1_BITS) | ((n as bv32) << 8)) & DRS == 0
    ensures (((x & !CDR1_BITS) | ((n as bv32) << 8)) >> 8) & CDR1_MASK == n as bv32
    ensures ((x & !CDR1_BITS) | ((n as bv32) << 8)) & !0x1fff == x & !0x1fff
  {
  }

  lemma LowByte(n: nat)
    requires n < 256
    ensures (n as bv32) & !CDR2_MASK == 0
  {
  }

  /** A CDR2 setting written over the cleared CDR2 field and DRS. */
  function Cdr2Word(reg: bv32, n: nat): (r: bv32)
    requires n < 256
    ensures Selects(r, Cdr2(n))
    ensures r & !0x1fff == reg & !0x1fff
  {
    var v := n as bv32;
    LowByte(n);
    Cdr2Write(reg, v);
    (reg & !CDR2_BITS) | (v | DRS)
  }

  /** A CDR1 setting written over the cleared CDR1 field and DRS. */
  function Cdr1Word(reg: bv32, n: nat): (r: bv32)
    requires n < 16
    ensures Selects(r, Cdr1(n))
    ensures r & !0x1fff == reg & !0x1fff
  {
    Cdr1Write(reg, n);
    (reg & !CDR1_BITS) | ((n as bv32) << 8)
  }

  /**
   * The clock-control word with the stale setting cleared first: CDR2 and
   * DRS before a CDR2 setting, CDR1 and DRS before a CDR1 setting. Whatever
   * the previous word, the hardware then divides by exactly the chosen
   * divider; bits 13-31 are kept.
   */
  function ClkCtl(reg: bv32, d: Divider): (r: bv32)
    requires Fits(d)
    ensures Selects(r, d)
    ensures r & !0x1fff == reg & !0x1fff
  {
    if d.Cdr2? then Cdr2Word(reg, d.n) else Cdr1Word(reg, d.n)
  }

  /**
   * As written, set_speed does not reliably switch speeds: from a cleared
   * register, 1 MHz followed by 12 MHz leaves the CDR2 field at 11 | 0 == 11,
   * so the bus stays at 1 MHz instead of the 12 MHz the second call chose.
   */
  lemma ClkCtlAsWrittenKeepsStaleDivider()
    ensures ClockDivider(1_000_000) == Cdr2(11) && ClockDivider(12_000_000) == Cdr2(0)
    ensures Selects(ClkCtlAsWritten(ClkCtlAsWritten(0, Cdr2(11)), Cdr2(0)), Cdr2(11))
    ensures !Selects(ClkCtlAsWritten(ClkCtlAsWritten(0, Cdr2(11)), Cdr2(0)), Cdr2(0))
    ensures Rate(Cdr2(11)) == 1_000_000 && Rate(Cdr2(0)) == 12_000_000
  {
    DivAtMost(MAX_RATE, 2 * 12_000_000, 0);
    assert ClkCtlAsWritten(0, Cdr2(11)) == 0x100b;
    assert ClkCtlAsWritten(0x100b, Cdr2(0)) == 0x100b;
  }

  // ---------------------------------------------------------------- chunking

  function Min(a: nat, b: nat): nat {
    if a < b then a else b
  }

  /**
   * The byte counts of the bursts a transfer of `len` bytes is split into when
   * each burst holds at most `max` bytes.
   */
  function Chunks(len: nat, max: nat): seq<nat>
    requires max >= 1
    decreases len
  {
    if len == 0 then [] else [Min(len, max)] + Chunks(len - Min(len, max), max)
  }

  function Sum(s: seq<nat>): nat {
    if s == [] then 0 else s[0] + Sum(s[1..])
  }

  /** The bursts add up to the whole transfer. */
  lemma {:induction false} ChunksSum(len: nat, max: nat)
    requires max >= 1
    ensures Sum(Chunks(len, max)) == len
  {
    if len > 0 {
      var c := Min(len, max);
      ChunksSum(len - c, max);
      assert Chunks(len, max)[1..] == Chunks(len - c, max);
    }
  }

  /** Every burst is non-empty and fits; every burst but the last is full. */
  lemma {:induction false} ChunksShape(len: nat, max: nat)
    requires max >= 1
    ensures forall i :: 0 <= i < |Chunks(len, max)| ==> 1 <= Chunks(len, max)[i] <= max
    ensures forall i :: 0 <= i < |Chunks(len, max)| - 1 ==> Chunks(len, max)[i] == max
  {
    if len > 0 {
      var c := Min(len, max);
      ChunksShape(len - c, max);
      var rest := Chunks(len - c, max);
      assert Chunks(len, max) == [c] + rest;
      if len - c > 0 {
        assert c == max;
      }
    }
  }

  /** A transfer of `len` bytes takes ceil(len / max) bursts. */
  lemma {:induction false} ChunksCount(len: nat, max: nat)
    requires max >= 1
    ensures |Chunks(len, max)| * max - max < len <= |Chunks(len, max)| * max
  {
    if len > 0 {
      var c := Min(len, max);
      ChunksCount(len - c, max);
      var k := |Chunks(len - c, max)|;
      assert |Chunks(len, max)| == k + 1;
      assert (k + 1) * max == k * max + max;
    }
  }
}
