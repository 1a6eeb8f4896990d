/**
 * The sun6i SPI controller driver: the register writes of set_speed,
 * set_mode and set_cs, the byte-wise FIFO fill and drain, and the transfer
 * loop that splits a transfer into FIFO-sized bursts.
 */
module Sun6iSpi {
  import opened Base
  import opened Wrappers
  import opened SpiWords

  /**
   * The controller registers the driver writes, and the two data ports. A
   * write of TXDATA appends to `txWritten`; a read of RXDATA takes the next
   * byte of `rxPending`, the bytes the receive FIFO will deliver. `bursts`
   * records the byte count of every burst started by setting XCH.
   */
  class SpiRegs {
    var tfrctl: bv32
    var fifoctl: bv32
    var clkctl: bv32
    var burstcnt: uint32
    var xmitcnt: uint32
    var burstctl: uint32
    var txWritten: seq<bv8>
    var rxPending: seq<bv8>
    ghost var bursts: seq<nat>

    /** A controller out of reset, whose receive FIFO will deliver `rx`. */
    constructor (rx: seq<bv8>)
      ensures tfrctl == 0 && fifoctl == 0 && clkctl == 0
      ensures burstcnt == 0 && xmitcnt == 0 && burstctl == 0
      ensures txWritten == [] && rxPending == rx && bursts == []
    {
      tfrctl, fifoctl, clkctl := 0, 0, 0;
      burstcnt, xmitcnt, burstctl := 0, 0, 0;
      txWritten, rxPending := [], rx;
      bursts := [];
    }

    /** writeb to TXDATA */
    method WriteTx(b: bv8)
      modifies this`txWritten
      ensures txWritten == old(txWritten) + [b]
    {
      txWritten := txWritten + [b];
    }

    /** readb from RXDATA, once the receive FIFO holds a byte */
    method ReadRx() returns (b: bv8)
      requires |rxPending| > 0
      modifies this`rxPending
      ensures b == old(rxPending)[0] && rxPending == old(rxPending)[1..]
    {
      b := rxPending[0];
      rxPending := rxPending[1..];
    }
  }

  /**
   * sun6i_spi_priv, restricted to what the modelled operations use. The
   * transmit buffer is the caller's data (None for a NULL `dout`) with the
   * position `txPos` the driver has advanced to; the receive buffer is the
   * caller's array (null for a NULL `din`) with its position `rxPos`.
   */
  class SpiPriv {
    const regs: SpiRegs
    const fifoDepth: nat
    var txBuf: Option<seq<bv8>>
    var txPos: nat
    var rxBuf: array?<bv8>
    var rxPos: nat

    /**
     * The state sun6i_spi_probe sets up: the register block from the
     * platform data and the FIFO depth from the match data.
     */
    constructor (regs: SpiRegs, fifoDepth: nat)
      ensures this.regs == regs && this.fifoDepth == fifoDepth
      ensures txBuf == None && txPos == 0 && rxBuf == null && rxPos == 0
    {
      this.regs := regs;
      this.fifoDepth := fifoDepth;
      txBuf, txPos := None, 0;
      rxBuf, rxPos := null, 0;
    }
  }

  /**
   * The `n` bytes the fill loop sends starting at position `pos`: the
   * buffer's bytes, or zeros when there is no transmit buffer.
   */
  function TxBytes(buf: Option<seq<bv8>>, pos: nat, n: nat): (r: seq<bv8>)
    requires buf.Some? ==> pos + n <= |buf.value|
    ensures |r| == n
  {
    if buf.Some? then buf.value[pos..pos + n] else seq(n, _ => 0)
  }

  /** Byte `i` sent is the buffer's byte at `pos + i`, or 0 without a buffer. */
  lemma TxBytesContents(buf: Option<seq<bv8>>, pos: nat, n: nat)
    requires buf.Some? ==> pos + n <= |buf.value|
    ensures forall i :: 0 <= i < n ==> TxBytes(buf, pos, n)[i] == (if buf.Some? then buf.value[pos + i] else 0)
  {
  }

  /** Sending `n` bytes and then `m` more sends the `n + m` bytes in order. */
  lemma TxBytesSplit(buf: Option<seq<bv8>>, pos: nat, n: nat, m: nat)
    requires buf.Some? ==> pos + n + m <= |buf.value|
    ensures TxBytes(buf, pos, n) + TxBytes(buf, pos + n, m) == TxBytes(buf, pos, n + m)
  {
    if buf.Some? {
      SliceSplit(buf.value, pos, pos + n, pos + n + m);
    } else {
      ZerosSplit(n, m);
    }
  }

  lemma SliceSplit(v: seq<bv8>, i: nat, j: nat, k: nat)
    requires i <= j <= k <= |v|
    ensures v[i..j] + v[j..k] == v[i..k]
  {
    assert v[i..k][..j - i] == v[i..j];
    assert v[i..k][j - i..] == v[j..k];
  }

  lemma ZerosSplit(n: nat, m: nat)
    ensures seq(n, _ => 0 as bv8) + seq(m, _ => 0 as bv8) == seq(n + m, _ => 0 as bv8)
  {
    var a, b, c := seq(n, _ => 0 as bv8), seq(m, _ => 0 as bv8), seq(n + m, _ => 0 as bv8);
    assert forall i :: 0 <= i < n + m ==> (a + b)[i] == c[i];
  }

  /**
   * sun6i_spi_fill_fifo: `len` bytes go to TXDATA, each the next buffer byte,
   * or 0 without a buffer; the position advances only when there is a buffer.
   */
  method FillFifo(priv: SpiPriv, len: nat)
    requires priv.txBuf.Some? ==> priv.txPos + len <= |priv.txBuf.value|
    modifies priv`txPos, priv.regs`txWritten
    ensures priv.regs.txWritten == old(priv.regs.txWritten) + TxBytes(priv.txBuf, old(priv.txPos), len)
    ensures priv.txPos == old(priv.txPos) + (if priv.txBuf.Some? then len else 0)
  {
    ghost var buf, p0, tx0 := priv.txBuf, priv.txPos, priv.regs.txWritten;
    var left: nat := len;
    while left > 0
      invariant left <= len
      invariant priv.txBuf == buf
      invariant priv.txPos == p0 + (if buf.Some? then len - left else 0)
      invariant priv.regs.txWritten == tx0 + TxBytes(buf, p0, len - left)
    {
      ghost var done: nat := len - left;
      var byte: bv8 := 0;
      if priv.txBuf.Some? {
        byte := priv.txBuf.value[priv.txPos];
        priv.txPos := priv.txPos + 1;
      }
      FillStep(tx0, buf, p0, done, byte);
      priv.regs.WriteTx(byte);
      left := left - 1;
    }
  }

  /** Sending the next byte extends what the fill loop has sent. */
  lemma FillStep(tx0: seq<bv8>, buf: Option<seq<bv8>>, p0: nat, done: nat, byte: bv8)
    requires buf.Some? ==> p0 + done + 1 <= |buf.value|
    requires byte == if buf.Some? then buf.value[p0 + done] else 0
    ensures (tx0 + TxBytes(buf, p0, done)) + [byte] == tx0 + TxBytes(buf, p0, done + 1)
  {
    TxBytesSplit(buf, p0, done, 1);
    TxBytesContents(buf, p0 + done, 1);
    assert TxBytes(buf, p0 + done, 1) == [byte];
    assert (tx0 + TxBytes(buf, p0, done)) + [byte] == tx0 + (TxBytes(buf, p0, done) + [byte]);
  }

  /** `a` with the bytes `r` written over it from position `p` on. */
  function Stored(a: seq<bv8>, p: nat, r: seq<bv8>): (s: seq<bv8>)
    requires p + |r| <= |a|
    ensures |s| == |a|
  {
    a[..p] + r + a[p + |r|..]
  }

  /** Position `i` holds `r`'s byte inside the written range and `a`'s outside it. */
  lemma StoredContents(a: seq<bv8>, p: nat, r: seq<bv8>)
    requires p + |r| <= |a|
    ensures forall i :: 0 <= i < |a| ==> Stored(a, p, r)[i] == if p <= i < p + |r| then r[i - p] else a[i]
  {
  }

  /** Storing `r` and then `r2` right after it stores `r + r2`. */
  lemma StoredTwice(a: seq<bv8>, p: nat, r: seq<bv8>, r2: seq<bv8>)
    requires p + |r| + |r2| <= |a|
    ensures Stored(Stored(a, p, r), p + |r|, r2) == Stored(a, p, r + r2)
  {
    var x, y := Stored(Stored(a, p, r), p + |r|, r2), Stored(a, p, r + r2);
    StoredContents(a, p, r);
    StoredContents(Stored(a, p, r), p + |r|, r2);
    StoredContents(a, p, r + r2);
    assert forall i :: 0 <= i < |a| ==> x[i] == y[i] by {
      forall i | 0 <= i < |a|
        ensures x[i] == y[i]
      {
        if p + |r| <= i < p + |r| + |r2| {
          assert (r + r2)[i - p] == r2[i - p - |r|];
        }
      }
    }
  }

  /** Storing one byte is an update of one position. */
  lemma StoredOne(a: seq<bv8>, p: nat, b: bv8)
    requires p < |a|
    ensures Stored(a, p, [b]) == a[p := b]
  {
    var x := Stored(a, p, [b]);
    StoredContents(a, p, [b]);
    assert forall i :: 0 <= i < |a| ==> x[i] == a[p := b][i];
  }

  /**
   * sun6i_spi_drain_fifo: `len` bytes are read from RXDATA; each is stored at
   * the next buffer position only when there is a receive buffer, and the
   * position advances only then. Bytes outside the stored range are untouched.
   */
  method DrainFifo(priv: SpiPriv, len: nat)
    requires len <= |priv.regs.rxPending|
    requires priv.rxBuf != null ==> priv.rxPos + len <= priv.rxBuf.Length
    modifies priv`rxPos, priv.regs`rxPending, priv.rxBuf
    ensures priv.regs.rxPending == old(priv.regs.rxPending)[len..]
    ensures priv.rxPos == old(priv.rxPos) + (if priv.rxBuf != null then len else 0)
    ensures priv.rxBuf != null ==>
      priv.rxBuf[..] == Stored(old(priv.rxBuf[..]), old(priv.rxPos), old(priv.regs.rxPending)[..len])
  {
    ghost var arr, p0, rx0 := priv.rxBuf, priv.rxPos, priv.regs.rxPending;
    ghost var buf0 := if arr != null then arr[..] else [];
    var left: nat := len;
    while left > 0
      invariant left <= len
      invariant priv.rxBuf == arr
      invariant priv.regs.rxPending == rx0[len - left..]
      invariant priv.rxPos == p0 + (if arr != null then len - left else 0)
      invariant arr != null ==> arr[..] == Stored(buf0, p0, rx0[..len - left])
    {
      ghost var done: nat := len - left;
      var byte := priv.regs.ReadRx();
      if priv.rxBuf != null {
        DrainStep(buf0, p0, rx0, done, arr[..]);
        priv.rxBuf[priv.rxPos] := byte;
        priv.rxPos := priv.rxPos + 1;
      }
      left := left - 1;
    }
  }

  /** Storing the next received byte extends what the drain loop has stored. */
  lemma DrainStep(buf0: seq<bv8>, p0: nat, rx0: seq<bv8>, done: nat, cur: seq<bv8>)
    requires p0 + done + 1 <= |buf0| && done + 1 <= |rx0|
    requires cur == Stored(buf0, p0, rx0[..done])
    ensures cur[p0 + done := rx0[done]] == Stored(buf0, p0, rx0[..done + 1])
  {
    var got := rx0[..done];
    assert got + [rx0[done]] == rx0[..done + 1];
    StoredTwice(buf0, p0, got, [rx0[done]]);
    StoredOne(cur, p0 + done, rx0[done]);
  }

  /** sun6i_spi_set_cs: the transfer-control word becomes CsWord of the old one. */
  method SetCs(priv: SpiPriv, cs: bv8, enable: bool)
    modifies priv.regs`tfrctl
    ensures priv.regs.tfrctl == CsWord(old(priv.regs.tfrctl), cs, enable)
  {
    var reg := priv.regs.tfrctl;
    priv.regs.tfrctl := CsWord(reg, cs, enable);
  }

  /** sun6i_spi_set_mode */
  method SetMode(priv: SpiPriv, mode: Mode) returns (ret: int)
    modifies priv.regs`tfrctl
    ensures ret == 0
    ensures priv.regs.tfrctl == ModeWord(old(priv.regs.tfrctl), mode)
  {
    var reg := priv.regs.tfrctl;
    priv.regs.tfrctl := ModeWord(reg, mode);
    return 0;
  }

  /**
   * sun6i_spi_set_speed as written: the bits of the chosen divider setting
   * are OR-ed into the old clock-control word, so no bit is ever cleared, a
   * stale divider or DRS bit included (see ClkCtlAsWrittenKeepsStaleDivider).
   */
  method SetSpeed(priv: SpiPriv, speed: nat) returns (ret: int)
    modifies priv.regs`clkctl
    ensures ret == 0
    ensures priv.regs.clkctl == ClkCtlAsWritten(old(priv.regs.clkctl), ClockDivider(speed))
    ensures priv.regs.clkctl & old(priv.regs.clkctl) == old(priv.regs.clkctl)
  {
    var reg := priv.regs.clkctl;
    var d := ClockDivider(speed);
    priv.regs.clkctl := ClkCtlAsWritten(reg, d);
    return 0;
  }

  /**
   * sun6i_spi_set_speed as evidently intended: the old divider setting is
   * cleared before the new one is written, so the word selects exactly the
   * divider ClockDivider picks, whatever the previous call left.
   */
  method SetSpeedCorrected(priv: SpiPriv, speed: nat) returns (ret: int)
    modifies priv.regs`clkctl
    ensures ret == 0
    ensures priv.regs.clkctl == ClkCtl(old(priv.regs.clkctl), ClockDivider(speed))
    ensures Selects(priv.regs.clkctl, ClockDivider(speed))
  {
    var reg := priv.regs.clkctl;
    var d := ClockDivider(speed);
    priv.regs.clkctl := ClkCtl(reg, d);
    return 0;
  }

  /**
   * SUN6I_BURST_CNT, SUN6I_XMIT_CNT and SUN6I_BURST_CTL_CNT_STC of a burst
   * size: its low 24 bits (MAX_XFER_SIZE is 0xffffff), taken here as the
   * remainder modulo 2^24, which is what the mask leaves of a non-negative
   * value.
   */
  function Counter(n: nat): (c: uint32)
    ensures n <= MAX_XFER_SIZE ==> c == n
  {
    n % (MAX_XFER_SIZE + 1)
  }

  /**
   * The transfer-control word after a byte-aligned xfer of `len` bytes: the
   * chip is selected first when BEGIN is set, XCH is set when at least one
   * burst is started, and the chip is deselected last when END is set.
   */
  function XferTfrCtl(reg: bv32, cs: bv8, flags: XferFlags, len: nat): bv32 {
    var selected := if flags.begin then CsWord(reg, cs, true) else reg;
    var started := if len > 0 then SetMask(selected, XCH) else selected;
    if flags.end then CsWord(started, cs, false) else started
  }

  /**
   * The driver and controller state a burst reads and writes: the transmit
   * buffer and position, the receive buffer's contents (None for a NULL
   * buffer) and position, the registers, the data streams and the bursts.
   */
  datatype Snap = Snap(depth: nat, txBuf: Option<seq<bv8>>, txPos: nat, rxBuf: Option<seq<bv8>>, rxPos: nat,
                       tfrctl: bv32, burstcnt: uint32, xmitcnt: uint32, burstctl: uint32,
                       txWritten: seq<bv8>, rxPending: seq<bv8>, bursts: seq<nat>)

  ghost function SnapOf(priv: SpiPriv): Snap
    reads priv, priv.regs, if priv.rxBuf != null then {priv.rxBuf} else {}
  {
    Snap(priv.fifoDepth, priv.txBuf, priv.txPos, if priv.rxBuf != null then Some(priv.rxBuf[..]) else None,
         priv.rxPos, priv.regs.tfrctl, priv.regs.burstcnt, priv.regs.xmitcnt, priv.regs.burstctl,
         priv.regs.txWritten, priv.regs.rxPending, priv.regs.bursts)
  }

  /** A burst of `n` bytes fits the buffers and the receive stream of `a`. */
  predicate BurstFits(a: Snap, n: nat) {
    && (a.txBuf.Some? ==> a.txPos + n <= |a.txBuf.value|)
    && n <= |a.rxPending|
    && (a.rxBuf.Some? ==> a.rxPos + n <= |a.rxBuf.value|)
  }

  /**
   * `b` is `a` after one burst of `n` bytes: the three counters hold the
   * burst size, the bytes are queued from the transmit position, XCH is set,
   * and as many bytes are drained into the receive buffer from its position.
   */
  predicate Bursted(a: Snap, b: Snap, n: nat)
    requires BurstFits(a, n)
  {
    && b.depth == a.depth && b.txBuf == a.txBuf && b.rxBuf.Some? == a.rxBuf.Some?
    && b.burstcnt == Counter(n) && b.xmitcnt == Counter(n) && b.burstctl == Counter(n)
    && b.tfrctl == SetMask(a.tfrctl, XCH)
    && b.bursts == a.bursts + [n]
    && b.txWritten == a.txWritten + TxBytes(a.txBuf, a.txPos, n)
    && b.txPos == a.txPos + (if a.txBuf.Some? then n else 0)
    && b.rxPending == a.rxPending[n..]
    && b.rxPos == a.rxPos + (if a.rxBuf.Some? then n else 0)
    && (a.rxBuf.Some? ==> b.rxBuf.value == Stored(a.rxBuf.value, a.rxPos, a.rxPending[..n]))
  }

  /**
   * One burst of sun6i_spi_xfer's loop: the three counters are set to the
   * burst size, the burst's bytes are queued, XCH starts the exchange and,
   * the exchange having completed, the received bytes are drained.
   */
  method Burst(priv: SpiPriv, nbytes: nat)
    requires BurstFits(SnapOf(priv), nbytes)
    modifies priv`txPos, priv`rxPos, priv.rxBuf
    modifies priv.regs`burstcnt, priv.regs`xmitcnt, priv.regs`burstctl, priv.regs`tfrctl
    modifies priv.regs`txWritten, priv.regs`rxPending, priv.regs`bursts
    ensures Bursted(old(SnapOf(priv)), SnapOf(priv), nbytes)
  {
    priv.regs.burstcnt := Counter(nbytes);
    priv.regs.xmitcnt := Counter(nbytes);
    priv.regs.burstctl := Counter(nbytes);
    FillFifo(priv, nbytes);
    priv.regs.tfrctl := SetMask(priv.regs.tfrctl, XCH);
    priv.regs.bursts := priv.regs.bursts + [nbytes];
    DrainFifo(priv, nbytes);
  }

  /**
   * `a` is the state after the first `len - left` bytes of a `len`-byte
   * transfer that started from `s` at both buffers' start: those bytes have
   * been sent and received as the bursts planned so far, the counters hold
   * the last burst's size, and XCH is set once any burst has started.
   */
  predicate Progress(a: Snap, s: Snap, len: nat, left: nat) {
    Placed(a, s, len, left) && Moved(a, s, len, left) && Planned(a, s, len, left)
  }

  /** The buffers and registers: positions at `len - left`, XCH set once a burst has started. */
  predicate Placed(a: Snap, s: Snap, len: nat, left: nat) {
    && 2 <= a.depth && a.depth == s.depth && left <= len && len <= |s.rxPending|
    && a.txBuf == s.txBuf && a.rxBuf.Some? == s.rxBuf.Some?
    && (a.txBuf.Some? ==> len <= |a.txBuf.value|)
    && (s.rxBuf.Some? ==> len <= |s.rxBuf.value|)
    && a.txPos == (if a.txBuf.Some? then len - left else 0)
    && a.rxPos == (if a.rxBuf.Some? then len - left else 0)
    && a.tfrctl == (if left < len then SetMask(s.tfrctl, XCH) else s.tfrctl)
  }

  /** The data: the first `len - left` bytes sent, received and stored. */
  predicate Moved(a: Snap, s: Snap, len: nat, left: nat)
    requires Placed(a, s, len, left)
  {
    && a.txWritten == s.txWritten + TxBytes(a.txBuf, 0, len - left)
    && a.rxPending == s.rxPending[len - left..]
    && (a.rxBuf.Some? ==> a.rxBuf.value == Stored(s.rxBuf.value, 0, s.rxPending[..len - left]))
  }

  /** The bursts: those made and those still planned make up the plan for `len`. */
  predicate Planned(a: Snap, s: Snap, len: nat, left: nat)
    requires Placed(a, s, len, left)
  {
    && a.bursts + Chunks(left, a.depth - 1) == s.bursts + Chunks(len, a.depth - 1)
    && (left == len ==> a.burstcnt == s.burstcnt && a.xmitcnt == s.xmitcnt && a.burstctl == s.burstctl)
    && (left < len ==>
          && |a.bursts| > 0 && a.bursts[|a.bursts| - 1] < 256
          && a.burstcnt == Counter(a.bursts[|a.bursts| - 1])
          && a.xmitcnt == Counter(a.bursts[|a.bursts| - 1])
          && a.burstctl == Counter(a.bursts[|a.bursts| - 1]))
  }

  /** The next planned burst fits the buffers and what is left of the receive stream. */
  lemma NextBurstFits(a: Snap, s: Snap, len: nat, left: nat, n: nat)
    requires Progress(a, s, len, left)
    requires n <= left
    ensures BurstFits(a, n)
  {
  }

  /** A burst of the next planned size carries the progress that many bytes further. */
  lemma BurstAdvances(a: Snap, b: Snap, s: Snap, len: nat, left: nat, n: nat, rest: nat)
    requires Progress(a, s, len, left) && left > 0
    requires n == Min(left, a.depth - 1) && n < 256 && rest == left - n
    requires BurstFits(a, n) && Bursted(a, b, n)
    ensures Progress(b, s, len, rest)
  {
    PlacedAdvances(a, b, s, len, left, n, rest);
    MovedAdvances(a, b, s, len, left, n, rest);
    PlannedAdvances(a, b, s, len, left, n, rest);
  }

  lemma PlacedAdvances(a: Snap, b: Snap, s: Snap, len: nat, left: nat, n: nat, rest: nat)
    requires Progress(a, s, len, left) && left > 0
    requires n == Min(left, a.depth - 1) && rest == left - n
    requires BurstFits(a, n) && Bursted(a, b, n)
    ensures Placed(b, s, len, rest)
  {
    SetMaskIdempotent(s.tfrctl, XCH);
  }

  lemma MovedAdvances(a: Snap, b: Snap, s: Snap, len: nat, left: nat, n: nat, rest: nat)
    requires Progress(a, s, len, left) && left > 0
    requires n == Min(left, a.depth - 1) && rest == left - n
    requires BurstFits(a, n) && Bursted(a, b, n) && Placed(b, s, len, rest)
    ensures Moved(b, s, len, rest)
  {
    var done := len - left;
    assert len - rest == done + n;
    TxStep(s.txWritten, a.txBuf, done, n);
    if a.rxBuf.Some? {
      RxStep(s.rxBuf.value, s.rxPending, done, n);
    }
    assert s.rxPending[done..][n..] == s.rxPending[done + n..];
  }

  lemma PlannedAdvances(a: Snap, b: Snap, s: Snap, len: nat, left: nat, n: nat, rest: nat)
    requires Progress(a, s, len, left) && left > 0
    requires n == Min(left, a.depth - 1) && n < 256 && rest == left - n
    requires BurstFits(a, n) && Bursted(a, b, n) && Placed(b, s, len, rest)
    ensures Planned(b, s, len, rest)
  {
    BurstsStep(a.bursts, s.bursts, left, len, a.depth - 1, n);
  }

  /** One burst of `n == min(left, max)` bytes takes the next chunk off the plan. */
  lemma BurstsStep(b: seq<nat>, b0: seq<nat>, left: nat, len: nat, max: nat, n: nat)
    requires max >= 1 && left > 0 && n == Min(left, max)
    requires b + Chunks(left, max) == b0 + Chunks(len, max)
    ensures (b + [n]) + Chunks(left - n, max) == b0 + Chunks(len, max)
  {
    assert Chunks(left, max) == [n] + Chunks(left - n, max);
    assert (b + [n]) + Chunks(left - n, max) == b + ([n] + Chunks(left - n, max));
  }

  /** Sending the next `n` bytes after `done` extends what was sent. */
  lemma TxStep(tx0: seq<bv8>, buf: Option<seq<bv8>>, done: nat, n: nat)
    requires buf.Some? ==> done + n <= |buf.value|
    ensures (tx0 + TxBytes(buf, 0, done)) + TxBytes(buf, done, n) == tx0 + TxBytes(buf, 0, done + n)
  {
    TxBytesSplit(buf, 0, done, n);
    assert (tx0 + TxBytes(buf, 0, done)) + TxBytes(buf, done, n)
        == tx0 + (TxBytes(buf, 0, done) + TxBytes(buf, done, n));
  }

  /** Receiving the next `n` bytes after `done` extends what was stored. */
  lemma RxStep(buf0: seq<bv8>, rx0: seq<bv8>, done: nat, n: nat)
    requires done + n <= |rx0| && done + n <= |buf0|
    ensures Stored(Stored(buf0, 0, rx0[..done]), done, rx0[done..][..n]) == Stored(buf0, 0, rx0[..done + n])
  {
    var got, next := rx0[..done], rx0[done..][..n];
    assert |got| == done && got + next == rx0[..done + n];
    StoredTwice(buf0, 0, got, next);
  }

  /**
   * The loop of sun6i_spi_xfer over a byte-aligned transfer of `len` bytes,
   * from the start of both buffers: the transfer is sent as the bursts
   * Chunks(len, fifo_depth - 1), the counters are left holding the last
   * burst's size, and XCH is set once any burst has started.
   */
  method Transfer(priv: SpiPriv, len: nat)
    requires 2 <= priv.fifoDepth <= 256
    requires priv.txPos == 0 && priv.rxPos == 0
    requires len <= |priv.regs.rxPending|
    requires priv.txBuf.Some? ==> len <= |priv.txBuf.value|
    requires priv.rxBuf != null ==> len <= priv.rxBuf.Length
    modifies priv`txPos, priv`rxPos, priv.rxBuf
    modifies priv.regs`burstcnt, priv.regs`xmitcnt, priv.regs`burstctl, priv.regs`tfrctl
    modifies priv.regs`txWritten, priv.regs`rxPending, priv.regs`bursts
    ensures Transferred(old(SnapOf(priv)), SnapOf(priv), len)
  {
    ghost var start := SnapOf(priv);
    var left: nat := len;
    while left > 0
      invariant left <= len
      invariant Progress(SnapOf(priv), start, len, left)
    {
      left := Step(priv, start, len, left);
    }
    TransferDone(SnapOf(priv), start, len);
  }

  /**
   * One iteration of the loop: a burst of min(left, fifo_depth - 1) bytes,
   * truncated to the u8 nbytes (which, for a depth of at most 256, keeps it
   * whole).
   */
  method Step(priv: SpiPriv, ghost start: Snap, len: nat, left: nat) returns (rest: nat)
    requires left > 0 && Progress(SnapOf(priv), start, len, left)
    requires priv.fifoDepth <= 256
    modifies priv`txPos, priv`rxPos, priv.rxBuf
    modifies priv.regs`burstcnt, priv.regs`xmitcnt, priv.regs`burstctl, priv.regs`tfrctl
    modifies priv.regs`txWritten, priv.regs`rxPending, priv.regs`bursts
    ensures rest < left && Progress(SnapOf(priv), start, len, rest)
  {
    ghost var cur := SnapOf(priv);
    var nbytes: nat := ToU8(Min(left, priv.fifoDepth - 1));
    NextBurstFits(cur, start, len, left, nbytes);
    Burst(priv, nbytes);
    rest := left - nbytes;
    BurstAdvances(cur, SnapOf(priv), start, len, left, nbytes, rest);
  }

  predicate Transferred(s: Snap, a: Snap, len: nat) {
    && 2 <= a.depth && a.depth == s.depth && a.txBuf == s.txBuf && a.rxBuf.Some? == s.rxBuf.Some?
    && len <= |s.rxPending|
    && (a.txBuf.Some? ==> len <= |a.txBuf.value|)
    && (s.rxBuf.Some? ==> len <= |s.rxBuf.value|)
    && a.tfrctl == (if len > 0 then SetMask(s.tfrctl, XCH) else s.tfrctl)
    && a.txWritten == s.txWritten + TxBytes(a.txBuf, 0, len)
    && a.rxPending == s.rxPending[len..]
    && a.bursts == s.bursts + Chunks(len, a.depth - 1)
    && a.txPos == (if a.txBuf.Some? then len else 0)
    && a.rxPos == (if a.rxBuf.Some? then len else 0)
    && (a.rxBuf.Some? ==>
          && |a.rxBuf.value| == |s.rxBuf.value|
          && a.rxBuf.value[..len] == s.rxPending[..len]
          && a.rxBuf.value[len..] == s.rxBuf.value[len..])
    && (len == 0 ==> a.burstcnt == s.burstcnt && a.xmitcnt == s.xmitcnt && a.burstctl == s.burstctl)
    && (len > 0 ==>
      var last := Chunks(len, a.depth - 1)[|Chunks(len, a.depth - 1)| - 1];
      && last < 256
      && a.burstcnt == Counter(last) && a.xmitcnt == Counter(last) && a.burstctl == Counter(last))
  }

  /** With nothing left, the progress made is the whole transfer. */
  lemma TransferDone(a: Snap, s: Snap, len: nat)
    requires Progress(a, s, len, 0)
    ensures Transferred(s, a, len)
  {
    assert Chunks(0, a.depth - 1) == [];
    assert a.bursts == s.bursts + Chunks(len, a.depth - 1);
    if a.rxBuf.Some? {
      StoredContents(s.rxBuf.value, 0, s.rxPending[..len]);
    }
  }

  /**
   * The part of sun6i_spi_xfer that follows the bit-length check, for a
   * transfer of `len` bytes from the start of both buffers: select the chip
   * on BEGIN, reset both FIFOs, run the bursts, deselect on END.
   */
  method Exchange(priv: SpiPriv, len: nat, flags: XferFlags, cs: bv8)
    requires 2 <= priv.fifoDepth <= 256
    requires priv.txPos == 0 && priv.rxPos == 0
    requires len <= |priv.regs.rxPending|
    requires priv.txBuf.Some? ==> len <= |priv.txBuf.value|
    requires priv.rxBuf != null ==> len <= priv.rxBuf.Length
    modifies priv`txPos, priv`rxPos, priv.regs, priv.rxBuf
    ensures priv.regs.tfrctl == XferTfrCtl(old(priv.regs.tfrctl), cs, flags, len)
    ensures priv.regs.fifoctl == SetMask(old(priv.regs.fifoctl), RF_RST | TF_RST)
    ensures priv.regs.clkctl == old(priv.regs.clkctl)
    ensures priv.regs.txWritten == old(priv.regs.txWritten) + TxBytes(priv.txBuf, 0, len)
    ensures priv.regs.rxPending == old(priv.regs.rxPending)[len..]
    ensures priv.regs.bursts == old(priv.regs.bursts) + Chunks(len, priv.fifoDepth - 1)
    ensures priv.txPos == (if priv.txBuf.Some? then len else 0)
    ensures priv.rxPos == (if priv.rxBuf != null then len else 0)
    ensures priv.rxBuf != null ==>
      && priv.rxBuf[..len] == old(priv.regs.rxPending)[..len]
      && priv.rxBuf[len..] == old(priv.rxBuf[len..])
    ensures len == 0 ==>
      && priv.regs.burstcnt == old(priv.regs.burstcnt)
      && priv.regs.xmitcnt == old(priv.regs.xmitcnt)
      && priv.regs.burstctl == old(priv.regs.burstctl)
    ensures len > 0 ==>
      var last := Chunks(len, priv.fifoDepth - 1)[|Chunks(len, priv.fifoDepth - 1)| - 1];
      && last < 256
      && priv.regs.burstcnt == Counter(last)
      && priv.regs.xmitcnt == Counter(last)
      && priv.regs.burstctl == Counter(last)
  {
    if flags.begin {
      SetCs(priv, cs, true);
    }
    priv.regs.fifoctl := SetMask(priv.regs.fifoctl, RF_RST | TF_RST);
    Transfer(priv, len);
    if flags.end {
      SetCs(priv, cs, false);
    }
  }

  /**
   * The depth the one entry of sun6i_spi_ids supplies meets the depth
   * requirement of Xfer, and gives bursts of 1 to 63 bytes.
   */
  lemma MatchedDepthAccepted(len: nat)
    ensures 2 <= SUN8I_FIFO_DEPTH <= 256
    ensures len > 0 ==> 1 <= Min(len, SUN8I_FIFO_DEPTH - 1) <= 63
  {
  }

  /**
   * sun6i_spi_xfer. `cs` is the slave's chip select. The RX-FIFO busy-wait is
   * taken to complete, so the receive FIFO must be able to deliver every
   * byte of the transfer; the buffers must hold the transfer, and the FIFO
   * depth the driver is matched with lies in [2, 256], which keeps each
   * `nbytes = min(len, fifo_depth - 1)` non-zero and within its u8.
   */
  method Xfer(priv: SpiPriv, bitlen: nat, dout: Option<seq<bv8>>, din: array?<bv8>, flags: XferFlags, cs: bv8)
    returns (ret: int)
    requires 2 <= priv.fifoDepth <= 256
    requires bitlen % 8 == 0 ==> bitlen / 8 <= |priv.regs.rxPending|
    requires bitlen % 8 == 0 && dout.Some? ==> bitlen / 8 <= |dout.value|
    requires bitlen % 8 == 0 && din != null ==> bitlen / 8 <= din.Length
    modifies priv`txBuf, priv`txPos, priv`rxBuf, priv`rxPos, priv.regs, din
    ensures priv.txBuf == dout && priv.rxBuf == din
    ensures bitlen % 8 != 0 ==> ret == -EINVAL && priv.txPos == 0 && priv.rxPos == 0
    ensures bitlen % 8 != 0 ==> unchanged(priv.regs) && (din != null ==> unchanged(din))
    ensures bitlen % 8 == 0 ==> ret == 0
    ensures bitlen % 8 == 0 ==>
      var len: nat := bitlen / 8;
      && priv.regs.tfrctl == XferTfrCtl(old(priv.regs.tfrctl), cs, flags, len)
      && priv.regs.fifoctl == SetMask(old(priv.regs.fifoctl), RF_RST | TF_RST)
      && priv.regs.clkctl == old(priv.regs.clkctl)
      && priv.regs.txWritten == old(priv.regs.txWritten) + TxBytes(dout, 0, len)
      && priv.regs.rxPending == old(priv.regs.rxPending)[len..]
      && priv.regs.bursts == old(priv.regs.bursts) + Chunks(len, priv.fifoDepth - 1)
      && priv.txPos == (if dout.Some? then len else 0)
      && priv.rxPos == (if din != null then len else 0)
    ensures bitlen % 8 == 0 && din != null ==>
      var len: nat := bitlen / 8;
      && din[..len] == old(priv.regs.rxPending)[..len]
      && din[len..] == old(din[len..])
    ensures bitlen % 8 == 0 && bitlen / 8 == 0 ==>
      && priv.regs.burstcnt == old(priv.regs.burstcnt)
      && priv.regs.xmitcnt == old(priv.regs.xmitcnt)
      && priv.regs.burstctl == old(priv.regs.burstctl)
    ensures bitlen % 8 == 0 && bitlen / 8 > 0 ==>
      var last := Chunks(bitlen / 8, priv.fifoDepth - 1)[|Chunks(bitlen / 8, priv.fifoDepth - 1)| - 1];
      && last < 256
      && priv.regs.burstcnt == Counter(last)
      && priv.regs.xmitcnt == Counter(last)
      && priv.regs.burstctl == Counter(last)
  {
    priv.txBuf, priv.txPos := dout, 0;
    priv.rxBuf, priv.rxPos := din, 0;
    if bitlen % 8 != 0 {
      return -EINVAL;
    }
    Exchange(priv, bitlen / 8, flags, cs);
    return 0;
  }
}
