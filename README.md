# sunxi clock gates, reset lines and the sun6i SPI controller

This project models three parts of the Allwinner (sunxi) support in U-Boot, and proves properties of the model.

- **The gate and reset engines.**
  - `sunxi_clk_enable` and `sunxi_clk_disable` look up a `{off, bit}` entry by clock ID in the chip descriptor. They set or clear `bit` in the register at `base + off`. An entry whose offset or mask is zero is skipped.
  - The reset engine does the same for reset lines. It adds `request`, which bounds the ID by the count declared at bind time, and `free`.
- **The per-chip descriptor tables.** This covers H3/H5, A83T, A31, A10/A20, V3S, A23, H6 and A64.
  - Each table is a C array written with designated initialisers, so IDs no initialiser names are zero-filled holes.
  - Each chip file has a probe that validates the base and the driver data, the reset count it binds, and the of_match table that hands the descriptor to a device.
- **The sun6i SPI controller.**
  - The transfer-control rewrites of `set_mode` and `set_cs`.
  - The clock divider of `set_speed`.
  - The byte-wise FIFO fill and drain.
  - The loop of `xfer`, which splits a transfer into FIFO-sized bursts.

How the model is built:

- Registers are a map from address to 32-bit word (`Mmio.Bank`). The controller and driver state are classes whose methods update their fields.
- Clock and reset IDs are symbolic datatypes, one per chip. The numbers the dt-bindings headers give them are a parameter: `ci` for clocks and `ri` for resets, required to be injective wherever the table lemmas need it. No lemma depends on a concrete array length.
- `Layout.Fill` lays an ID-indexed table out as C does.
- Each chip module proves three things. Every ID finds its own entry and every hole is the zero entry (`ClkTable`, `RstTable`). No two IDs share a register bit (`LinesSeparate`); h6_clks is the one exception, where CLK_MMC1 and CLK_MMC2 share a bit (see "## Findings"). Probe and bind do what the chip file says.
- The generic lemmas in `Chip` turn separate lines into "switching ID X changes X's bit and no other ID's".

Modules, one per source file or shared concept:

- Base: C integer widths, errno values, set and clear masks.
- Mmio: the register bank.
- Ccu: `ccu.h`.
- Layout: designated-initialiser arrays.
- SunxiClk: `clk_sunxi.c` and the shared probe.
- SunxiReset: `reset-sunxi.c`.
- Bits and Chip: `BIT(n)` lines and the of_match table.
- ClkH3, ClkA83t, ClkA31, ClkA10, ClkV3s, ClkA23, ClkH6 and ClkA64: one per chip file.
- SpiWords: the SPI register arithmetic.
- Sun6iSpi: the SPI driver.

In two places the code does something its authors evidently did not intend; both are listed under "## Findings". The driver-level members (`Sun6iSpi.SetSpeed`, the H6 table, descriptor and probe) follow the code as written; the corrected definitions sit beside them (`Sun6iSpi.SetSpeedCorrected`, `ClkH6.IntendedClkLine`).

## Model

| member | source | states |
|---|---|---|
| Base.ToU8 | drivers/spi/sun6i_spi.c:212 | assigning a count to the u8 `nbytes` keeps it when it is below 256 and never increases it |
| Base.SetMask | drivers/clk/sunxi/clk_sunxi.c:30 | `x \| m` has every bit of `m` set and every other bit of `x` kept |
| Base.ClearMask | drivers/clk/sunxi/clk_sunxi.c:50 | `x & ~m` has every bit of `m` cleared and every other bit of `x` kept |
| Base.SetMaskIdempotent | drivers/clk/sunxi/clk_sunxi.c:30 | setting a mask twice is setting it once |
| Base.ClearMaskIdempotent | drivers/clk/sunxi/clk_sunxi.c:50 | clearing a mask twice is clearing it once |
| Base.ClearAfterSet | drivers/clk/sunxi/clk_sunxi.c:30-50 | clearing after setting is the same as clearing alone |
| Base.SetAfterClear | drivers/reset/reset-sunxi.c:57-77 | setting after clearing is the same as setting alone |
| Mmio.SetBits | drivers/clk/sunxi/clk_sunxi.c:29-30 | the read-modify-write `writel(readl(a) \| bits, a)` changes only word `a`, which gets the bits set, and keeps the set of mapped addresses |
| Mmio.ClearBits | drivers/clk/sunxi/clk_sunxi.c:49-50 | `writel(readl(a) & ~bits, a)` changes only word `a`, which gets the bits cleared |
| Mmio.Registers.Read | drivers/clk/sunxi/clk_sunxi.c:29 | readl returns the word stored at the address |
| Mmio.Registers.Write | drivers/clk/sunxi/clk_sunxi.c:30 | writel replaces the word at the address and nothing else |
| Ccu.ClkPriv.constructor | arch/arm/include/asm/arch-sunxi/ccu.h:56-59 | the clock driver's state is a base address and a descriptor reference (Option for a possibly NULL pointer), zeroed before probe |
| Layout.Size | drivers/clk/sunxi/clk_h3.c:68-74 | ARRAY_SIZE of a designated-initialiser array is one past the largest index named (0 for no initialiser) |
| Layout.Place | drivers/clk/sunxi/clk_h3.c:15-46 | one initialiser `[i] = e` stores `e` at `i`, zero-filling the slots the array grows over and keeping the others |
| Layout.Fill | drivers/clk/sunxi/clk_h3.c:15-46 | the laid-out array has ARRAY_SIZE entries |
| Layout.FillSpec | drivers/clk/sunxi/clk_h3.c:15-46 | with distinct indices for the listed IDs, each finds its own entry and every slot no ID names holds the zero entry |
| Layout.FillAll | drivers/clk/sunxi/clk_h3.c:15-46 | the same for a numbering injective on the whole ID type, when every ID is listed |
| SunxiClk.Enable | drivers/clk/sunxi/clk_sunxi.c:15-33 | given an ID within the table (the lookup is unbounded), enable returns 0 and leaves the bank as `Enabled`: unchanged for an entry with zero offset or zero mask, otherwise `base + off` ORed with the mask |
| SunxiClk.Disable | drivers/clk/sunxi/clk_sunxi.c:35-53 | disable returns 0 and leaves the bank as `Disabled`: unchanged for an unhandled entry, otherwise the mask cleared at `base + off` |
| SunxiClk.UnhandledIsNoop | drivers/clk/sunxi/clk_sunxi.c:21-24 | an entry with zero offset OR zero mask leaves every register as it was, under enable and under disable |
| SunxiClk.HoleIsNoop | drivers/clk/sunxi/clk_sunxi.c:21-24 | a zero-filled table hole is such an entry: enable and disable on an unnamed ID change nothing |
| SunxiClk.EnableEffect | drivers/clk/sunxi/clk_sunxi.c:29-30 | on a handled entry, the addressed word becomes `old \| bit`, every other address keeps its word, and the mapped addresses stay the same |
| SunxiClk.DisableEffect | drivers/clk/sunxi/clk_sunxi.c:49-50 | on a handled entry, the addressed word becomes `old & ~bit` and every other address keeps its word |
| SunxiClk.EnableIdempotent | drivers/clk/sunxi/clk_sunxi.c:30 | enabling twice gives the bank of enabling once |
| SunxiClk.DisableIdempotent | drivers/clk/sunxi/clk_sunxi.c:50 | disabling twice gives the bank of disabling once |
| SunxiClk.DisableAfterEnable | drivers/clk/sunxi/clk_sunxi.c:30-50 | enable followed by disable gives the bank of a disable alone: the word holds `old & ~bit` and nothing else changed |
| SunxiClk.SetRateCallbackUnused | drivers/clk/sunxi/clk_sunxi.c:15-53 | enable and disable behave the same whether or not the entry carries a set-rate callback |
| SunxiClk.OpsNeverReachSetRate | drivers/clk/sunxi/clk_sunxi.c:55-58 | sunxi_clk_ops has no set_rate, so a set-rate call runs no driver code; each call through the table changes the bank exactly as enable or disable does, and the outcome is the same whether or not the entry carries a set-rate callback |
| SunxiClk.Probe | drivers/clk/sunxi/clk_h3.c:76-89 | the probe all chip files share: the base is stored; NULL gives -ENOMEM; otherwise the driver data is stored and NULL data gives -EINVAL, anything else 0 |
| SunxiReset.ResetPriv.constructor | drivers/reset/reset-sunxi.c:110-113 | the reset device's state holds the count and the descriptor it was given |
| SunxiReset.Request | drivers/reset/reset-sunxi.c:22-33 | request returns 0 exactly when `id < count` and -EINVAL exactly when `id >= count`; it reads no register and ignores the table length |
| SunxiReset.Free | drivers/reset/reset-sunxi.c:35-40 | free returns 0 and changes nothing |
| SunxiReset.Assert | drivers/reset/reset-sunxi.c:42-60 | given an ID within the reset table (the lookup is unbounded, and request only bounds the count), assert returns 0 and leaves the bank as `Asserted`: unchanged for an unhandled line, otherwise the mask cleared |
| SunxiReset.Deassert | drivers/reset/reset-sunxi.c:62-80 | deassert returns 0 and leaves the bank as `Deasserted`: unchanged for an unhandled line, otherwise the mask set |
| SunxiReset.Probe | drivers/reset/reset-sunxi.c:89-96 | probe stores the base without comparing it to NULL, keeps count and descriptor, and returns 0 |
| SunxiReset.Bind | drivers/reset/reset-sunxi.c:98-116 | a failed driver bind is returned as is with nothing allocated; otherwise a fresh state records the caller's count and the clock device's driver data, whatever the reset table's length |
| SunxiReset.UnhandledIsNoop | drivers/reset/reset-sunxi.c:48-51 | a line with zero offset OR zero mask leaves every register as it was, under assert and deassert |
| SunxiReset.AssertEffect | drivers/reset/reset-sunxi.c:56-57 | assert on a handled line clears its mask in its one register and keeps every other address |
| SunxiReset.DeassertEffect | drivers/reset/reset-sunxi.c:76-77 | deassert on a handled line sets its mask in its one register and keeps every other address |
| SunxiReset.AssertIdempotent | drivers/reset/reset-sunxi.c:57 | asserting twice is asserting once |
| SunxiReset.DeassertIdempotent | drivers/reset/reset-sunxi.c:77 | deasserting twice is deasserting once |
| SunxiReset.DeassertAfterAssert | drivers/reset/reset-sunxi.c:56-77 | deassert after assert gives the bank of a deassert alone: the line's bits set, all else as before |
| SunxiReset.AssertAfterDeassert | drivers/reset/reset-sunxi.c:56-77 | assert after deassert gives the bank of an assert alone |
| SunxiReset.DistinctRegistersIndependent | drivers/reset/reset-sunxi.c:56-77 | switching a line leaves the register of a line at another offset untouched |
| Chip.GateOpened | drivers/clk/sunxi/clk_sunxi.c:29-30 | enabling the gate `{off, BIT(n)}` sets that bit; the bit of every other line reads as before |
| Chip.GateClosed | drivers/clk/sunxi/clk_sunxi.c:49-50 | disabling it clears exactly that bit |
| Chip.ResetReleased | drivers/reset/reset-sunxi.c:76-77 | deasserting a line sets exactly its bit |
| Chip.ResetHeld | drivers/reset/reset-sunxi.c:56-57 | asserting a line clears exactly its bit |
| Chip.EnableOpensOnlyItsGate | drivers/clk/sunxi/clk_sunxi.c:29-30 | in a table whose IDs have separate lines, enabling clock `c` makes `d`'s gate read open exactly when `d == c` or it was open before |
| Chip.DisableClosesOnlyItsGate | drivers/clk/sunxi/clk_sunxi.c:49-50 | with separate lines, disabling `c` makes `d`'s gate read open exactly when `d != c` and it was open before |
| Chip.DeassertReleasesOnlyItsLine | drivers/reset/reset-sunxi.c:76-77 | with separate lines, deasserting `r` releases `r` and changes no other line |
| Chip.AssertHoldsOnlyItsLine | drivers/reset/reset-sunxi.c:56-57 | with separate lines, asserting `r` holds `r` and changes no other line |
| Chip.DriverData | drivers/clk/sunxi/clk_h3.c:96-102 | the driver data a device gets from an of_match table is None (NULL) exactly when no entry's compatible string matches; otherwise it is the data of the first matching entry |
| SpiWords.ModeWord | drivers/spi/sun6i_spi.c:311-324 | set_mode's word has CPOL, CPHA and FBS set exactly when the mode asks for them, and every other bit of the old word kept |
| SpiWords.ModeLastWins | drivers/spi/sun6i_spi.c:311-324 | two set_mode calls leave the word of the second alone: nothing of the first mode survives |
| SpiWords.ModeIdempotent | drivers/spi/sun6i_spi.c:311-324 | repeating set_mode with the same mode changes nothing |
| SpiWords.CsField | drivers/spi/sun6i_spi.c:33 | SUN6I_TFR_CTL_CS(cs) is the low two bits of `cs` at bit 4, inside CS_MASK |
| SpiWords.CsValue | drivers/spi/sun6i_spi.c:141-147 | what set_cs ORs in touches only the chip-select field and CS_LEVEL |
| SpiWords.CsWordFields | drivers/spi/sun6i_spi.c:132-150 | after set_cs the chip-select field holds `cs & 3` when enabling and 0 when disabling, CS_LEVEL is set exactly when disabling, and every bit outside the two fields (CS_MANUAL included) is kept |
| SpiWords.CsLastWins | drivers/spi/sun6i_spi.c:132-150 | two set_cs calls leave the word of the second alone |
| SpiWords.Pow2 | drivers/spi/sun6i_spi.c:280 | the definition of 2^k the CDR1 formula uses, with the lower bound 1 its quotients need; its laws are in Pow2Monotone and Pow2Add |
| SpiWords.Pow2Monotone | drivers/spi/sun6i_spi.c:280 | powers of two grow with the exponent |
| SpiWords.Pow2Add | drivers/spi/sun6i_spi.c:280 | 2^(a+b) is 2^a times 2^b |
| SpiWords.Ilog2 | drivers/spi/sun6i_spi.c:297 | __ilog2(x) is the `k` with 2^k <= x < 2^(k+1) |
| SpiWords.Ilog2Unique | drivers/spi/sun6i_spi.c:297 | that `k` is the only one |
| SpiWords.Ilog2Monotone | drivers/spi/sun6i_spi.c:297 | __ilog2 never decreases |
| SpiWords.Ilog2Bounds | drivers/spi/sun6i_spi.c:297 | __ilog2(SUN6I_SPI_MAX_RATE) is 24, and __ilog2 of every clamped speed that falls back to CDR1 lies in [11, 15] |
| SpiWords.Clamp | drivers/spi/sun6i_spi.c:272-273 | the clamped speed lies in [3000, 24000000], is the request when that is in range, and the nearer bound otherwise |
| SpiWords.Quotient | drivers/spi/sun6i_spi.c:290-291 | `24000000 / (2 * speed)` is at most 256 exactly when speed >= 46693, and at least 1 up to 12 MHz |
| SpiWords.Exponent | drivers/spi/sun6i_spi.c:297 | on the CDR1 path, `__ilog2(MAX) - __ilog2(speed)` is between 9 and 13 |
| SpiWords.ClockDivider | drivers/spi/sun6i_spi.c:272-299 | set_speed picks CDR2 exactly when the clamped speed is at least 46693; its CDR2 value fits 8 bits, and its CDR1 exponent lies in [9, 13] and fits 4 bits |
| SpiWords.FastestDivider | drivers/spi/sun6i_spi.c:291-295 | a request above 12 MHz gets CDR2 = 0, the fastest rate the formula allows, 12 MHz |
| SpiWords.Cdr2RateBracketsRequest | drivers/spi/sun6i_spi.c:280-295 | on the CDR2 path up to 12 MHz, the rate `MOD_CLK / (2 * (cdr + 1))` is at least the clamped speed and less than twice it |
| SpiWords.Cdr2Bits | drivers/spi/sun6i_spi.c:47-48 | SUN6I_CLK_CTL_CDR2(n) together with DRS touches only bits 0-7 and DRS |
| SpiWords.Cdr1Bits | drivers/spi/sun6i_spi.c:49-50 | SUN6I_CLK_CTL_CDR1(n) touches only bits 8-11 |
| SpiWords.DividerBits | drivers/spi/sun6i_spi.c:295-298 | the bits set_speed ORs in lie within the chosen divider's field |
| SpiWords.ClkCtlAsWritten | drivers/spi/sun6i_spi.c:289-301 | set_speed as written only ORs into the old word, so every bit already set stays set |
| SpiWords.ClkCtlAsWrittenSetsSetting | drivers/spi/sun6i_spi.c:295-298 | the as-written word has every bit of the new divider setting set |
| SpiWords.ClkCtlAsWrittenKeepsHighBits | drivers/spi/sun6i_spi.c:289-301 | the as-written word keeps every bit above the divider fields |
| SpiWords.ClkCtlAsWrittenKeepsStaleDivider | drivers/spi/sun6i_spi.c:289-301 | from a zero word, set_speed(1 MHz) then set_speed(12 MHz) as written leaves CDR2 = 11 selected, a 1 MHz clock, rather than CDR2 = 0 |
| SpiWords.Cdr2Word | drivers/spi/sun6i_spi.c:295 | the corrected CDR2 write selects DRS with exactly the new CDR2 value and keeps the bits above the divider fields |
| SpiWords.Cdr1Word | drivers/spi/sun6i_spi.c:298 | the corrected CDR1 write clears DRS, holds exactly the new CDR1 value and keeps the bits above the divider fields |
| SpiWords.ClkCtl | drivers/spi/sun6i_spi.c:289-301 | the corrected clock-control word selects exactly the chosen divider whatever the old word held, and keeps the bits above the divider fields |
| SpiWords.ChunksSum | drivers/spi/sun6i_spi.c:229-258 | the burst sizes of a transfer add up to its length |
| SpiWords.ChunksShape | drivers/spi/sun6i_spi.c:231 | every burst holds between 1 and FIFO depth - 1 bytes, and every burst but the last is full |
| SpiWords.ChunksCount | drivers/spi/sun6i_spi.c:229-258 | the number of bursts is the length divided by the burst size, rounded up |
| Sun6iSpi.SpiRegs.WriteTx | drivers/spi/sun6i_spi.c:119 | writeb to txdata appends the byte to the stream the controller receives |
| Sun6iSpi.SpiRegs.ReadRx | drivers/spi/sun6i_spi.c:107 | readb from rxdata takes the next byte of the received stream |
| Sun6iSpi.SpiPriv.constructor | drivers/spi/sun6i_spi.c:336-337 | the driver state holds its registers and FIFO depth, with no buffers yet |
| Sun6iSpi.TxBytes | drivers/spi/sun6i_spi.c:118 | `n` bytes are queued from the transmit position |
| Sun6iSpi.TxBytesContents | drivers/spi/sun6i_spi.c:118 | each queued byte is the buffer's byte at the position, or 0 when dout is NULL |
| Sun6iSpi.FillFifo | drivers/spi/sun6i_spi.c:113-121 | fill_fifo appends `len` bytes from the buffer (zeros for NULL) to the TX stream and advances the transmit position only for a buffer |
| Sun6iSpi.Stored | drivers/spi/sun6i_spi.c:109 | storing received bytes at a position keeps the buffer's length |
| Sun6iSpi.StoredContents | drivers/spi/sun6i_spi.c:109 | after storing, the received bytes are at the position and every other byte is as before |
| Sun6iSpi.StoredTwice | drivers/spi/sun6i_spi.c:106-110 | storing two runs one after the other is storing their concatenation |
| Sun6iSpi.DrainFifo | drivers/spi/sun6i_spi.c:102-111 | drain_fifo consumes `len` bytes of the RX stream; with a buffer it stores them from the position and advances it, and with NULL it discards them |
| Sun6iSpi.SetCs | drivers/spi/sun6i_spi.c:132-150 | set_cs rewrites the transfer-control word as `CsWord` describes |
| Sun6iSpi.SetMode | drivers/spi/sun6i_spi.c:306-327 | set_mode returns 0 and rewrites the transfer-control word as `ModeWord` describes |
| Sun6iSpi.SetSpeed | drivers/spi/sun6i_spi.c:266-304 | set_speed as written returns 0 and ORs the setting `ClockDivider` picks into the old clock-control word, so every bit set before stays set |
| Sun6iSpi.SetSpeedCorrected | drivers/spi/sun6i_spi.c:266-304 | set_speed with the old divider cleared first returns 0 and leaves a word that selects exactly the divider `ClockDivider` picks, whatever the old word held |
| Sun6iSpi.Counter | drivers/spi/sun6i_spi.c:53-56 | a burst counter is the burst size itself whenever it fits in 24 bits |
| Sun6iSpi.Burst | drivers/spi/sun6i_spi.c:231-255 | one loop iteration sets the three counters to the burst size, queues the burst's bytes, sets XCH and drains as many bytes into the receive buffer |
| Sun6iSpi.BurstAdvances | drivers/spi/sun6i_spi.c:229-258 | a burst turns the progress after `left` bytes into progress after `left - nbytes` bytes |
| Sun6iSpi.Step | drivers/spi/sun6i_spi.c:229-258 | each iteration strictly decreases the bytes left and keeps the loop invariant |
| Sun6iSpi.Transfer | drivers/spi/sun6i_spi.c:229-258 | the loop sends the first `len` bytes of dout (zeros for NULL), stores the first `len` received bytes at the front of din and keeps its tail, issues exactly the bursts `Chunks(len, depth - 1)` and leaves the counters at the last burst's size |
| Sun6iSpi.TransferDone | drivers/spi/sun6i_spi.c:229 | progress with nothing left is the whole transfer |
| Sun6iSpi.Exchange | drivers/spi/sun6i_spi.c:222-263 | with select on BEGIN, a reset of both FIFOs and deselect on END, the transfer's registers, streams and buffers end as `Transfer` states, and the clock word is untouched |
| Sun6iSpi.Xfer | drivers/spi/sun6i_spi.c:204-264 | xfer records both buffers; a bit length that is not a multiple of 8 gives -EINVAL and touches no register; otherwise it returns 0 with the result of `Exchange` for `bitlen / 8` bytes |
| ClkH3.ClkTable | drivers/clk/sunxi/clk_h3.c:15-46 | for a numbering giving distinct clocks distinct indices, every clock finds at its index the entry `{off, BIT(n)}` of the table (0x060 bits 8–10, 20, 21, 23–31; 0x088 bit 31; 0x08c bit 31; 0x090 bit 31; 0x0a0 bit 31; 0x0a4 bit 31; 0x0cc bits 8–11, 16–19; only Mmc0, Mmc1, Mmc2 carry the set-rate callback), and every index no clock is numbered to holds the zero entry, which both engines skip |
| ClkH3.RstTable | drivers/clk/sunxi/clk_h3.c:48-66 | every reset entry sits at its index (0x0cc bits 0–3; 0x2c0 bits 8–10, 23–31), and every other index holds the zero entry |
| ClkH3.LinesSeparate | drivers/clk/sunxi/clk_h3.c:15-66 | every clock and every reset entry has a non-zero offset and a (register, bit) line of its own, so through Chip.EnableOpensOnlyItsGate and its siblings, switching one ID changes exactly its own bit |
| ClkH3.MatchedDescriptor | drivers/clk/sunxi/clk_h3.c:96-102 | the of_match table hands the descriptor (clock table and reset table) to a device matching "allwinner,sun8i-h3-ccu" or "allwinner,sun50i-h5-ccu", and no descriptor (NULL) to any other |
| ClkH3.Probe | drivers/clk/sunxi/clk_h3.c:76-89 | the base is stored; a NULL base gives -ENOMEM with the descriptor untouched; otherwise the matched driver data is stored, and the result is 0 exactly when it is the H3 descriptor, -EINVAL otherwise |
| ClkH3.Bind | drivers/clk/sunxi/clk_h3.c:91-94 | a failed bind of the reset driver is passed back with nothing allocated; otherwise a new reset device records the count 53 and the clock device's driver data |
| ClkA83t.ClkTable | drivers/clk/sunxi/clk_a83t.c:15-40 | for a numbering giving distinct clocks distinct indices, every clock finds at its index the entry `{off, BIT(n)}` of the table (0x060 bits 8–10, 17, 24, 26, 27, 29; 0x06c bits 16–20; 0x088 bit 31; 0x08c bit 31; 0x090 bit 31; 0x0cc bits 8–11, 16; only Mmc0, Mmc1, Mmc2 carry the set-rate callback), and every index no clock is numbered to holds the zero entry, which both engines skip |
| ClkA83t.RstTable | drivers/clk/sunxi/clk_a83t.c:42-60 | every reset entry sits at its index (0x0cc bits 0–2; 0x2c0 bits 8–10, 24, 26, 27, 29; 0x2d8 bits 16–20), and every other index holds the zero entry |
| ClkA83t.LinesSeparate | drivers/clk/sunxi/clk_a83t.c:15-60 | every clock and every reset entry has a non-zero offset and a (register, bit) line of its own, so through Chip.EnableOpensOnlyItsGate and its siblings, switching one ID changes exactly its own bit |
| ClkA83t.MatchedDescriptor | drivers/clk/sunxi/clk_a83t.c:90-94 | the of_match table hands the descriptor (clock table and reset table) to a device matching "allwinner,sun8i-a83t-ccu", and no descriptor (NULL) to any other |
| ClkA83t.Probe | drivers/clk/sunxi/clk_a83t.c:70-83 | the base is stored; a NULL base gives -ENOMEM with the descriptor untouched; otherwise the matched driver data is stored, and the result is 0 exactly when it is the A83T descriptor, -EINVAL otherwise |
| ClkA83t.Bind | drivers/clk/sunxi/clk_a83t.c:85-88 | a failed bind of the reset driver is passed back with nothing allocated; otherwise a new reset device records the count 44 and the clock device's driver data |
| ClkA31.ClkTable | drivers/clk/sunxi/clk_a31.c:15-33 | for a numbering giving distinct clocks distinct indices, every clock finds at its index the entry `{off, BIT(n)}` of the table (0x060 bits 8–10, 12, 24, 26, 27, 29–31; 0x0cc bits 8–10, 16–18; no entry carries a set-rate callback), and every index no clock is numbered to holds the zero entry, which both engines skip |
| ClkA31.RstTable | drivers/clk/sunxi/clk_a31.c:35-46 | every reset entry sits at its index (0x0cc bits 0–2; 0x2c0 bits 24, 26, 27, 29–31), and every other index holds the zero entry |
| ClkA31.LinesSeparate | drivers/clk/sunxi/clk_a31.c:15-46 | every clock and every reset entry has a non-zero offset and a (register, bit) line of its own, so through Chip.EnableOpensOnlyItsGate and its siblings, switching one ID changes exactly its own bit |
| ClkA31.MatchedDescriptor | drivers/clk/sunxi/clk_a31.c:76-80 | the of_match table hands the descriptor (clock table and reset table) to a device matching "allwinner,sun6i-a31-ccu", and no descriptor (NULL) to any other |
| ClkA31.Probe | drivers/clk/sunxi/clk_a31.c:56-69 | the base is stored; a NULL base gives -ENOMEM with the descriptor untouched; otherwise the matched driver data is stored, and the result is 0 exactly when it is the A31 descriptor, -EINVAL otherwise |
| ClkA31.Bind | drivers/clk/sunxi/clk_a31.c:71-74 | a failed bind of the reset driver is passed back with nothing allocated; otherwise a new reset device records the count 56 and the clock device's driver data |
| ClkA10.ClkTable | drivers/clk/sunxi/clk_a10.c:15-29 | for a numbering giving distinct clocks distinct indices, every clock finds at its index the entry `{off, BIT(n)}` of the table (0x060 bits 0–4, 8–11; 0x0cc bits 6–8; no entry carries a set-rate callback), and every index no clock is numbered to holds the zero entry, which both engines skip |
| ClkA10.RstTable | drivers/clk/sunxi/clk_a10.c:31-35 | every reset entry sits at its index (0x0cc bits 0–2), and every other index holds the zero entry |
| ClkA10.LinesSeparate | drivers/clk/sunxi/clk_a10.c:15-35 | every clock and every reset entry has a non-zero offset and a (register, bit) line of its own, so through Chip.EnableOpensOnlyItsGate and its siblings, switching one ID changes exactly its own bit |
| ClkA10.MatchedDescriptor | drivers/clk/sunxi/clk_a10.c:65-71 | the of_match table hands the descriptor (clock table and reset table) to a device matching "allwinner,sun4i-a10-ccu" or "allwinner,sun7i-a20-ccu", and no descriptor (NULL) to any other |
| ClkA10.Probe | drivers/clk/sunxi/clk_a10.c:45-58 | the base is stored; a NULL base gives -ENOMEM with the descriptor untouched; otherwise the matched driver data is stored, and the result is 0 exactly when it is the A10 descriptor, -EINVAL otherwise |
| ClkA10.Bind | drivers/clk/sunxi/clk_a10.c:60-63 | a failed bind of the reset driver is passed back with nothing allocated; otherwise a new reset device records the count 22 and the clock device's driver data |
| ClkA10.DeclaredCountExceedsTable | drivers/clk/sunxi/clk_a10.c:31-62 | with the three USB PHY resets numbered below 3, the reset table has at most 3 entries while bind declares 22 IDs, so sunxi_reset_request accepts IDs the table has no entry for |
| ClkV3s.ClkTable | drivers/clk/sunxi/clk_v3s.c:15-29 | for a numbering giving distinct clocks distinct indices, every clock finds at its index the entry `{off, BIT(n)}` of the table (0x060 bits 8–10, 20, 24; 0x088 bit 31; 0x08c bit 31; 0x090 bit 31; 0x0a0 bit 31; 0x0cc bit 8; only Mmc0, Mmc1, Mmc2 carry the set-rate callback), and every index no clock is numbered to holds the zero entry, which both engines skip |
| ClkV3s.RstTable | drivers/clk/sunxi/clk_v3s.c:31-39 | every reset entry sits at its index (0x0cc bit 0; 0x2c0 bits 8–10, 20, 24), and every other index holds the zero entry |
| ClkV3s.LinesSeparate | drivers/clk/sunxi/clk_v3s.c:15-39 | every clock and every reset entry has a non-zero offset and a (register, bit) line of its own, so through Chip.EnableOpensOnlyItsGate and its siblings, switching one ID changes exactly its own bit |
| ClkV3s.MatchedDescriptor | drivers/clk/sunxi/clk_v3s.c:69-73 | the of_match table hands the descriptor (clock table and reset table) to a device matching "allwinner,sun8i-v3s-ccu", and no descriptor (NULL) to any other |
| ClkV3s.Probe | drivers/clk/sunxi/clk_v3s.c:49-62 | the base is stored; a NULL base gives -ENOMEM with the descriptor untouched; otherwise the matched driver data is stored, and the result is 0 exactly when it is the V3S descriptor, -EINVAL otherwise |
| ClkV3s.Bind | drivers/clk/sunxi/clk_v3s.c:64-67 | a failed bind of the reset driver is passed back with nothing allocated; otherwise a new reset device records the count 53 and the clock device's driver data |
| ClkA23.ClkTable | drivers/clk/sunxi/clk_a23.c:15-25 | for a numbering giving distinct clocks distinct indices, every clock finds at its index the entry `{off, BIT(n)}` of the table (0x060 bits 24, 26, 29; 0x0cc bits 8–11, 16; no entry carries a set-rate callback), and every index no clock is numbered to holds the zero entry, which both engines skip |
| ClkA23.RstTable | drivers/clk/sunxi/clk_a23.c:27-35 | every reset entry sits at its index (0x0cc bits 0–2; 0x2c0 bits 24, 26, 29), and every other index holds the zero entry |
| ClkA23.LinesSeparate | drivers/clk/sunxi/clk_a23.c:15-35 | every clock and every reset entry has a non-zero offset and a (register, bit) line of its own, so through Chip.EnableOpensOnlyItsGate and its siblings, switching one ID changes exactly its own bit |
| ClkA23.MatchedDescriptor | drivers/clk/sunxi/clk_a23.c:65-69 | the of_match table hands the descriptor (clock table and reset table) to a device matching "allwinner,sun8i-a23-ccu", and no descriptor (NULL) to any other |
| ClkA23.Probe | drivers/clk/sunxi/clk_a23.c:45-58 | the base is stored; a NULL base gives -ENOMEM with the descriptor untouched; otherwise the matched driver data is stored, and the result is 0 exactly when it is the A23 descriptor, -EINVAL otherwise |
| ClkA23.Bind | drivers/clk/sunxi/clk_a23.c:60-63 | a failed bind of the reset driver is passed back with nothing allocated; otherwise a new reset device records the count 39 and the clock device's driver data |
| ClkH6.ClkTable | drivers/clk/sunxi/clk_h6.c:15-23 | for a numbering giving distinct clocks distinct indices, every clock finds at its index its entry of h6_clks as written (0x830 bit 31; 0x834 bit 31 for both MMC1 and MMC2; 0x84c bits 0–2; only Mmc0, Mmc1, Mmc2 carry the set-rate callback), the MMC1 and MMC2 slots hold the same entry `{0x834, BIT(31)}`, and every index no clock is numbered to holds the zero entry, which both engines skip |
| ClkH6.RstTable | drivers/clk/sunxi/clk_h6.c:25-29 | every reset entry sits at the index of the clock ID it is filed under (0x84c bits 16–18), and every other index holds the zero entry |
| ClkH6.LinesSeparate | drivers/clk/sunxi/clk_h6.c:15-29 | as written, every reset line has a line of its own and every clock a non-zero offset; the only clocks sharing a (register, bit) line are MMC1 and MMC2, so the clock lines are not separate |
| ClkH6.IntendedLinesSeparate | drivers/clk/sunxi/clk_h6.c:15-29 | with MMC2 moved to 0x838, every clock and every reset line has a line of its own, so Chip.EnableOpensOnlyItsGate and its siblings apply |
| ClkH6.MatchedDescriptor | drivers/clk/sunxi/clk_h6.c:59-63 | the of_match table hands the descriptor (clock table as written and reset table) to a device matching "allwinner,sun50i-h6-ccu", and no descriptor (NULL) to any other |
| ClkH6.Probe | drivers/clk/sunxi/clk_h6.c:39-52 | the base is stored; a NULL base gives -ENOMEM with the descriptor untouched; otherwise the matched driver data is stored, and the result is 0 exactly when it is the H6 descriptor, -EINVAL otherwise |
| ClkH6.Bind | drivers/clk/sunxi/clk_h6.c:54-57 | a failed bind of the reset driver is passed back with nothing allocated; otherwise a new reset device records the count 62 and the clock device's driver data |
| ClkH6.SharedMmcGate | drivers/clk/sunxi/clk_h6.c:17-18 | with the table as written, enabling CLK_MMC2 opens MMC1's gate, disabling CLK_MMC2 closes it, and neither enabling nor disabling CLK_MMC2 writes the MMC2 register 0x838 |
| ClkA64.ClkTable | drivers/clk/sunxi/clk_a64.c:14-27 | for a numbering giving distinct clocks distinct indices, every clock finds at its index the entry `{off, BIT(n)}` of the table (0x060 bits 23–25, 28, 29; 0x0cc bits 8–11, 16, 17; no entry carries a set-rate callback), and every index no clock is numbered to holds the zero entry, which both engines skip |
| ClkA64.LinesSeparate | drivers/clk/sunxi/clk_a64.c:14-27 | every clock has a non-zero offset and a (register, bit) line of its own, so switching one clock changes exactly its own bit |
| ClkA64.MatchedDescriptor | drivers/clk/sunxi/clk_a64.c:49-53 | the of_match table hands the descriptor (clock table and an empty reset map) to a device matching "allwinner,sun50i-a64-ccu", and no descriptor (NULL) to any other |
| ClkA64.Probe | drivers/clk/sunxi/clk_a64.c:34-47 | the base is stored; a NULL base gives -ENOMEM with the descriptor untouched; otherwise the matched driver data is stored, and the result is 0 exactly when it is the A64 descriptor, -EINVAL otherwise |

## Left out

- Register access is a map from address to word. Ordering, caching, and the bus widths of `readl` and `writeb` are not modelled. Neither is the debug logging (`debug`, `dev_err`).
- Device-model plumbing is an input. The base `dev_read_addr_ptr` returns and the result of `device_bind_driver_to_node` are parameters. The compatible string stands for the match `dev_get_driver_data` performs. The `U_BOOT_DRIVER` records and ops tables are not modelled, beyond `SunxiClk.Dispatch`.
- SunxiReset.Bind: a failed `malloc` of the reset state, whose result the source dereferences with no NULL test, is assumed not to happen.
- The dt-bindings numbering headers are not part of this model. IDs are symbolic, and their numbers are an injective parameter, so concrete array lengths are not stated.
- `mmc_clk_set_rate` is recorded only as a flag on the entries that carry it. Sunxi_clk_ops never calls it, and its body is not part of this model.
- `clk_r40.c` and `clk_a10s.c` are not part of this model.
- SunxiReset.Assert and SunxiReset.Deassert require the ID to lie within the reset table. `request` only compares the ID with the declared count, so the source reads past the table for larger IDs (see `ClkA10.DeclaredCountExceedsTable`). That out-of-bounds read is not modelled.
- SunxiClk.Enable and SunxiClk.Disable require the ID to lie within the clock table, because the source indexes the table without a bound.
- sun6i SPI probe, `claim_bus`, `release_bus` and `ofdata_to_platdata` are not modelled. They configure GPIO pins, look up and enable clocks and resets through the clock and reset uclasses, and read the device tree. None of that is SPI register arithmetic.
- `sun6i_spi_get_rx_fifo_count` and the busy-wait on it are not modelled. The wait is taken to complete: Sun6iSpi.Xfer requires the receive stream to hold the transfer's bytes. A controller that never delivers them would hang the source and is outside the model.
- Hardware self-clearing of XCH and of the FIFO reset bits is not modelled. The words keep what the driver wrote.
- Sun6iSpi.Xfer takes the mode and flags as booleans, not as the C bit masks.
- Sun6iSpi.Xfer takes `dout` as a value snapshot, and `din` is a separate array, so a `dout` that aliases `din` is not modelled.
- Sun6iSpi.Xfer requires a FIFO depth in [2, 256]. The only match entry gives 64. A depth of 1 would make `nbytes` zero and loop forever. A depth above 256 would truncate `nbytes` in its u8.
- Sun6iSpi.Counter: the 24-bit mask of the counter macros is written as the remainder modulo 2^24 on a non-negative size.

## Findings

| source | as written | input that shows it | evidently intended | confidence | as-written member | corrected member |
|---|---|---|---|---|---|---|
| drivers/spi/sun6i_spi.c:295-298 | set_speed ORs the new CDR2/DRS or CDR1 bits into the old clock-control word and never clears the previous divider or DRS | set_speed(1000000) then set_speed(12000000) on a zero word: CDR2 stays 11 (a 1 MHz clock), not 0 (12 MHz); a CDR1 choice after a CDR2 one keeps DRS set | clear the divider fields and DRS before setting the new choice | not executed | SpiWords.ClkCtlAsWrittenKeepsStaleDivider | Sun6iSpi.SetSpeedCorrected |
| drivers/clk/sunxi/clk_h6.c:17-18 | CLK_MMC2 is `{ 0x834, BIT(31) }`, the same line as CLK_MMC1 | enabling CLK_MMC2 opens MMC1's module clock and leaves register 0x838 untouched | MMC2's module clock register at 0x838 | not executed | ClkH6.LinesSeparate | ClkH6.IntendedLinesSeparate |
