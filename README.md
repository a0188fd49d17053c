# Larix lending: the wire layer, in Dafny

This project models the byte-exact wire layer of the Larix lending program, a Solana
lending market. It has three parts:

- **The three persisted records and their codecs.**
  - `LendingMarket` is 418 bytes.
  - `Reserve` is 873 bytes: 713 plus five 32-byte host-fee receiver slots.
  - `Obligation` is 1092 bytes, including a 936-byte slab of deposit and borrow entries.
  - Each record has an encoder (`pack_into_slice`) that writes every field at a fixed
    little-endian offset into a caller's buffer. It has a decoder (`unpack_from_slice`)
    that gates on the version byte, accepts only 0 and 1 as booleans, and reads the
    entries behind their count bytes.
- **The instruction decoder** `LendingInstruction::unpack`. It splits off a tag byte and
  threads the rest of the input through consuming readers.
- **The primitive readers and writers** of `src/util/unpack_util.rs` and `src/state/mod.rs`.

## Modules

| module | file | models |
|---|---|---|
| `Wrappers` | `wrappers.dfy` | `Result` and the program errors used by the decoders. |
| `Bytes` | `bytes.dfy` | Bytes, keys and little-endian integers. `Parts` models the buffer split of `array_refs!`/`mut_array_refs!`; `Splice` and the `Write*` methods model `copy_from_slice` into a part. |
| `State` | `state.dfy` | `src/state/mod.rs`. |
| `UnpackUtil` | `unpack_util.dfy` | `src/util/unpack_util.rs`. |
| `Instruction` | `instruction.dfy` | `src/instruction.rs`. |
| `LendingMarket` | `lending_market.dfy` | `src/state/lending_market.rs`. |
| `Reserve` | `reserve.dfy` | `src/state/reserve.rs`. |
| `Obligation` | `obligation.dfy` | `src/state/obligation.rs`. |

### How it is built

- **Encoders are methods.** Each one writes into an `array<Byte>`, which stands for the
  source's `&mut [u8]`.
  - Each write says that part `k` of the buffer (as the width list splits it) now holds
    the field's bytes, and that no other part changes.
  - A `Stores…` predicate per record says what the parts hold once every write is done.
  - The encoder's contract states that predicate, states which bytes it leaves alone, and
    states that decoding the buffer gives the record back.
- **Loops stay loops.**
  - The reserve's receiver loop and the obligation's two entry loops are `for` loops
    that advance `offset` as the source does.
  - The decoders' push loops (`UnpackReserve`, `UnpackObligation`) are methods proved
    equal to pure decoders (`DecodeReserve`, `DecodeObligation`).
  - The round trips are proved about those pure decoders.
- **The decoders of the market and of the instructions are pure functions,** as in the source.
- **Decimals.** A `Decimal` is its raw scaled value; `pack_decimal` requires it to be
  below 2^128.
- **Keys.** A `Pubkey` is 32 bytes.
- **Panics.**
  - An out-of-bounds slab read inside a decoder is the explicit error `SliceOutOfBounds`:
    the obligation's entry loops, and the corrected receiver loop. A buffer shorter than
    the record is a precondition of the decoder.
  - A panic in an encoder is a precondition: `expect` on an oversized decimal,
    `unwrap` of a count of 256 or more, and `array_mut_ref!` past the slab.

### Behaviour worth knowing

- **Version error.** A version above 1 fails with `InvalidAccountData`, and so does the
  model (src/state/lending_market.rs:201-205, src/state/reserve.rs:598-602,
  src/state/obligation.rs:250-254).
- **Unused slots.** Encode never writes unused slab slots or padding. The model proves
  they keep their old bytes.
- **Stale length comments.** These comments give other lengths:
  - `LENDING_MARKET_LEN` at src/state/lending_market.rs:103;
  - `OBLIGATION_LEN` at src/state/obligation.rs:122.

  The model derives every offset and length from the width lists instead. The layout
  lemmas show the totals are 418, 873 and 1092.
- **Tag numbers.** The doc comments number `DepositMining` and `WithdrawMining` as 17
  and 18. The code decodes them from tags 18 and 19 (`Instruction.MiningTags`).
- **Slab capacity.** The obligation slab holds one deposit and nine borrows (936 bytes).
  Ten borrows need 960 bytes and do not fit, though the entry limit is ten
  (`Obligation.SlabOverflow`).

## Model

| member | source | states |
|---|---|---|
| State.DecimalBytes | src/state/mod.rs:28-33 | `pack_decimal`'s 16 bytes are the little-endian encoding of the scaled value. |
| State.PackDecimal | src/state/mod.rs:28-33 | Writes exactly those 16 bytes into its part and changes no other part; it needs the value to fit in a `u128`. |
| State.UnpackDecimal | src/state/mod.rs:35-37 | Total on every 16-byte window; the result fits in a `u128` and re-encodes to the same bytes. |
| State.DecimalRoundTrip | src/state/mod.rs:28-37 | `unpack_decimal` inverts `pack_decimal` for every representable value. |
| State.PackBool | src/state/mod.rs:39-41 | Writes byte 1 for true and 0 for false into its one-byte part, and nothing else. |
| State.UnpackBool | src/state/mod.rs:43-52 | Succeeds exactly on bytes 0 and 1 and gives back the byte `pack_bool` wrote; 2 to 255 fail with `InvalidAccountData`. |
| State.BoolRoundTrip | src/state/mod.rs:39-52 | `unpack_bool` inverts `pack_bool`. |
| UnpackUtil.UnpackBool | src/util/unpack_util.rs:11-22 | Empty input fails with `InstructionUnpackError` and a first byte above 1 with `InvalidAccountData`; otherwise it reads 0/1 as false/true and returns the input past that byte. |
| UnpackUtil.UnpackDecimal | src/util/unpack_util.rs:23-34 | Succeeds exactly on 16 bytes or more; the scaled value is the little-endian `u128` of the first 16 and the rest is the input past them. |
| UnpackUtil.UnpackU64 | src/util/unpack_util.rs:36-48 | Succeeds exactly on 8 bytes or more; the value is the little-endian `u64` of the first 8 and the rest is `input[8..]`. |
| UnpackUtil.UnpackU8 | src/util/unpack_util.rs:50-62 | Empty input fails with `InstructionUnpackError`; otherwise it returns `input[0]` and `input[1..]`. |
| UnpackUtil.UnpackBytes32 | src/util/unpack_util.rs:64-76 | Succeeds exactly on 32 bytes or more and returns the first 32 and the remainder. |
| UnpackUtil.UnpackPubkey | src/util/unpack_util.rs:78-86 | Succeeds exactly on 32 bytes or more and returns the key of the first 32 and the remainder. |
| UnpackUtil.ReadU8OfEncoding | src/util/unpack_util.rs:50-62 | A byte followed by anything is read back with exactly what followed as the rest. |
| UnpackUtil.ReadU64OfEncoding | src/util/unpack_util.rs:36-48 | The 8 little-endian bytes of a `u64` followed by anything read back as that value plus what followed. |
| UnpackUtil.ReadBoolOfEncoding | src/util/unpack_util.rs:11-22 | The byte of a boolean followed by anything reads back as that boolean plus what followed. |
| UnpackUtil.ReadDecimalOfEncoding | src/util/unpack_util.rs:23-34 | The 16 bytes of a representable decimal followed by anything read back as that decimal plus what followed. |
| UnpackUtil.ReadKeyOfEncoding | src/util/unpack_util.rs:64-86 | A key followed by anything reads back as that key plus what followed, through both key readers. |
| Instruction.Unpack | src/instruction.rs:444-447 | Empty input fails with `InstructionUnpackError`. |
| Instruction.Dispatch | src/instruction.rs:448-560 | The `match` on the tag. A tag outside 0–14, 16 and 18–25 fails with `InstructionUnpackError`. |
| Instruction.DispatchTag | src/instruction.rs:448-560 | A decoded instruction's variant is the one its tag names, so `Tag` inverts the decoder. Every failure except a bad boolean byte of tag 2 is `InstructionUnpackError`. |
| Instruction.UnpackSplitsTag | src/instruction.rs:445-448 | A non-empty input is decoded by dispatching on its first byte with the rest as payload. |
| Instruction.UnknownTagRejected | src/instruction.rs:557-560 | Every tag outside 0–14, 16 and 18–25 (15, 17 and 26–255 included) fails with `InstructionUnpackError`, whatever the payload. |
| Instruction.AmountPayload | src/instruction.rs:487-556 | Tags 4, 5, 8–12, 18, 19 and 25 fail on fewer than 8 payload bytes. Otherwise they decode to their own variant, whose amount is the little-endian `u64` of the first 8 bytes, and trailing bytes are ignored. |
| Instruction.AmountPayloadLow | src/instruction.rs:487-508 | The same for tags 4, 5, 8, 9 and 10. |
| Instruction.AmountPayloadHigh | src/instruction.rs:509-556 | The same for tags 11, 12, 18, 19 and 25. |
| Instruction.InitLendingMarketPayload | src/instruction.rs:449-458 | Tag 0 needs 64 payload bytes: `owner` is the first 32 and `quote_currency` the next 32. |
| Instruction.SetLendingMarketOwnerPayload | src/instruction.rs:459-462 | Tag 1 needs 32 payload bytes, which are `new_owner`. |
| Instruction.SkipReserveConfig | src/instruction.rs:464-474 | The seven config bytes, three fee amounts and host-fee byte of tag 2 consume exactly 32 bytes, or fail with `InstructionUnpackError` when fewer remain. |
| Instruction.UnpackInitReserve | src/instruction.rs:463-485 | Tag 2's exact error cases in reading order: under 49 bytes, then a bad byte at 48, then exactly 49 bytes, then a bad byte at 49. Otherwise it keeps only the amounts at 32 and 40 and the two strict booleans at 48 and 49. |
| Instruction.InitReservePayload | src/instruction.rs:463-485 | Tag 2 decodes its payload as `UnpackInitReserve`. |
| Instruction.FlashLoanPayload | src/instruction.rs:517-522 | Tag 13 needs 8 payload bytes; the amount is read from them and `call_back_data` is exactly the bytes after them. |
| Instruction.NoPayload | src/instruction.rs:486-552 | Tags 3, 6, 7, 14, 16 and 20–24 succeed with their own variant whatever follows the tag. |
| Instruction.MiningTags | src/instruction.rs:530-537 | Tag 18 decodes to `DepositMining` and tag 19 to `WithdrawMining`. |
| LendingMarket.MarketLayout | src/state/lending_market.rs:126-143 | The offset of every field, from `bump_seed` at 1 to the padding at 332, and the 418-byte total. |
| LendingMarket.InitLendingMarket | src/state/lending_market.rs:54-67 | `init` stamps version 1 and clears the pending owner. It copies every parameter and keeps `lock_larix_times_to_time` and `max_claim_times` as they were; the result is `InitFromParams(m, params)`, the value form that `NewLendingMarket` is stated with. |
| LendingMarket.NewLendingMarket | src/state/lending_market.rs:47-52 | `new` gives an initialized market whose lock ratio and claim limit are 0. |
| LendingMarket.IsInitialized | src/state/lending_market.rs:98-100 | Holds exactly when the version byte is not 0. `NewLendingMarket` ensures it; `ZeroedMarket` ensures the default market fails it. |
| LendingMarket.PackLendingMarket | src/state/lending_market.rs:107-159 | Stores every field in its part and leaves the 86 padding bytes and the bytes past the record unchanged; a version ≤ 1 decodes back to the market. |
| LendingMarket.PackMarketParts | src/state/lending_market.rs:145-158 | The field writes store the market and leave the padding unchanged. |
| LendingMarket.PackMarketKeys | src/state/lending_market.rs:145-152 | The writes of the version through `pending_owner` store those fields and change no later part. |
| LendingMarket.PackMarketOwnership | src/state/lending_market.rs:145-148 | The version, bump seed, owner and quote currency are stored, and no other part changes. |
| LendingMarket.PackMarketPrograms | src/state/lending_market.rs:149-152 | The three program ids and then `pending_owner` are stored, and no other part changes. |
| LendingMarket.PackMarketMine | src/state/lending_market.rs:153-158 | The writes of `larix_oracle_id` through `max_claim_times` store those fields and change no other part. |
| LendingMarket.UnpackLendingMarket | src/state/lending_market.rs:163-222 | Succeeds exactly when the version byte is ≤ 1, so every such input decodes, and fails otherwise with `InvalidAccountData`. The result is what the parts store. |
| LendingMarket.UnpackMarketParts | src/state/lending_market.rs:201-222 | The same, on the split input. |
| LendingMarket.MarketRoundTrip | src/state/lending_market.rs:201-222 | Any buffer storing a market of version ≤ 1 decodes to it, whatever its padding. |
| LendingMarket.MarketStoredOnce | src/state/lending_market.rs:145-158 | Two buffers storing the same market with the same padding are equal byte for byte. |
| LendingMarket.ZeroedMarket | src/state/lending_market.rs:98-100 | A zero-filled account decodes to the default market, which is not initialized. |
| Reserve.NewBonus | src/state/reserve.rs:225-233 | `Bonus::new` zeroes both mining indices and copies the supply account, mining speed and supply rate. |
| Reserve.ReserveLayoutHeader | src/state/reserve.rs:384-433 | The offsets from `last_update_stale` at 9 to `available_amount` at 204. |
| Reserve.ReserveLayoutLiquidity | src/state/reserve.rs:384-433 | The offsets from `available_amount` at 204 to `owner_unclaimed` at 260 and the config at 348. |
| Reserve.ReserveLayoutConfig | src/state/reserve.rs:384-433 | The offsets of the config: host-fee count at 380, receiver slab at 381–541, bonus at 544. |
| Reserve.ReserveLayout | src/state/reserve.rs:320-433 | `reentry_lock` at 624, `deposit_limit` at 625, `is_lp` at 633, padding at 634. The total is 873 = 713 + 32 × `HOST_FEE_RECEIVER_COUNT`. |
| Reserve.PackHeader | src/state/reserve.rs:435-439 | The `// reserve` writes store version, slot, stale flag and market, and change no later part. |
| Reserve.PackLiquidity | src/state/reserve.rs:441-459 | The `// liquidity` writes store those fields and change no other part. |
| Reserve.PackCollateral | src/state/reserve.rs:460-463 | The `// collateral` writes store those fields and change no other part. |
| Reserve.PackConfigValues | src/state/reserve.rs:465-477 | The config scalars and the receiver count byte are stored, and no other part changes. |
| Reserve.PackHostFeeReceivers | src/state/reserve.rs:479-484 | The loop lays the receivers back to back from slab offset 0. Slab bytes past them and every other part are unchanged. |
| Reserve.PackConfigFlags | src/state/reserve.rs:486-489 | The three pause flags and the deposit limit are stored, and no other part changes. |
| Reserve.PackBonus | src/state/reserve.rs:491-496 | The bonus fields are stored, and no other part changes. |
| Reserve.PackReserveHead | src/state/reserve.rs:435-463 | Header, liquidity and collateral are stored. |
| Reserve.PackConfig | src/state/reserve.rs:465-489 | The config and its receivers are stored, and the unused receiver slots keep their bytes. |
| Reserve.PackReserveTail | src/state/reserve.rs:465-498 | Config, bonus, `owner_unclaimed` and reentry lock are stored. |
| Reserve.PackReserveParts | src/state/reserve.rs:435-498 | Every field is stored; the padding and the unused receiver slots are unchanged. |
| Reserve.PackReserve | src/state/reserve.rs:326-499 | Stores every field and leaves padding, unused slots and bytes past the record unchanged. For version ≤ 1, the corrected decoder gives back the reserve, and the decoder as written gives it back with every receiver replaced by the first. |
| Reserve.LiquidityFromParts | src/state/reserve.rs:617-631 | Fails with `InvalidAccountData` exactly when `is_lp` or `use_pyth_oracle` is neither 0 nor 1; otherwise the result is what the parts store. |
| Reserve.CollateralFromParts | src/state/reserve.rs:632-636 | The collateral read is what its parts store. |
| Reserve.ConfigFromParts | src/state/reserve.rs:637-656 | Fails exactly when a pause flag is neither 0 nor 1; otherwise it returns the stored config with the receivers the loop collected. |
| Reserve.BonusFromParts | src/state/reserve.rs:657-663 | The bonus read is what its parts store. |
| Reserve.AssembleReserve | src/state/reserve.rs:610-665 | Fails with `InvalidAccountData` exactly when one of the seven booleans is neither 0 nor 1; otherwise every field is what the parts store. |
| Reserve.ReserveFromParts | src/state/reserve.rs:598-665 | As written: succeeds exactly for version ≤ 1 with all seven booleans valid. The receivers are `count` copies of slot 0. |
| Reserve.ReserveFromPartsCorrected | src/state/reserve.rs:598-665 | As intended: receiver `i` comes from slot `i`. A count above the five slots fails with `SliceOutOfBounds`, and versions above 1 and bad booleans fail with `InvalidAccountData`. |
| Reserve.DecodeReserve | src/state/reserve.rs:502-666 | A decoded reserve has the input's version byte, which is ≤ 1, and every failure is `InvalidAccountData`. |
| Reserve.DecodeReserveCorrected | src/state/reserve.rs:502-666 | A decoded reserve has the input's version byte, which is ≤ 1, and at most five receivers. |
| Reserve.UnpackReserve | src/state/reserve.rs:598-609 | The push loop as written, with an `offset` that never advances, computes `DecodeReserve`. |
| Reserve.UnpackReserveCorrected | src/state/reserve.rs:603-609 | The push loop with `offset` advanced per key computes `DecodeReserveCorrected`. |
| Reserve.ReadSlots | src/state/reserve.rs:603-609 | The corrected receiver loop alone. It reads slot `i` at byte 32·i for `i` below the count, and fails with `SliceOutOfBounds` exactly when the slots run past the slab. |
| Reserve.ReserveRoundTrip | src/state/reserve.rs:436-665 | A buffer storing a reserve of version ≤ 1 decodes back to it through the corrected loop. Through the loop as written, it decodes to the reserve with its receivers collapsed onto the first. Padding and unused slots do not matter. |
| Reserve.PartsRoundTrip | src/state/reserve.rs:598-665 | The as-written half of that, on the split input. |
| Reserve.CorrectedPartsRoundTrip | src/state/reserve.rs:598-665 | The corrected half of that, on the split input. |
| Reserve.SameReceiversRoundTrip | src/state/reserve.rs:603-609 | When every receiver is the same key (at most one receiver in particular), the decoder as written round-trips too. |
| Reserve.ReceiversLost | src/state/reserve.rs:603-609 | A reserve with two different receivers does not survive encode then decode as written; it does through the corrected loop. |
| Reserve.ZeroedReserve | src/state/reserve.rs:314-317 | A zero-filled account decodes, either way, to the default reserve, which has no receivers and is not initialized. |
| Reserve.IsInitialized | src/state/reserve.rs:314-317 | Holds exactly when the version byte is not 0. `ZeroedReserve` ensures the default reserve fails it. |
| Obligation.InitObligation | src/state/obligation.rs:60-67 | `init` stamps version 1 and takes the market, owner, deposits, borrows and last update. The four value aggregates and `unclaimed_mine` keep their values. |
| Obligation.NewObligation | src/state/obligation.rs:53-57 | `new` gives an initialized obligation whose aggregates and unclaimed mine are zero. |
| Obligation.ObligationLayout | src/state/obligation.rs:144-159 | Every header offset, from slot at 1 to `unclaimed_mine` at 140 and the slab at 156. The slab is 936 = 72 + 96 × 9 bytes and the record 1092. |
| Obligation.CollateralRoundTrip | src/state/obligation.rs:177-191 | A deposit written as reserve, amount, market value and index (32+8+16+16) reads back as itself. |
| Obligation.LiquidityRoundTrip | src/state/obligation.rs:194-212 | A borrow written as reserve, cumulative rate, amount, market value and index reads back as itself. |
| Obligation.CollateralStored | src/state/obligation.rs:262-279 | Every 72-byte window stores the deposit read from it. |
| Obligation.LiquidityStored | src/state/obligation.rs:280-297 | Every 96-byte window stores the borrow read from it. |
| Obligation.DepositsAtOfBytes | src/state/obligation.rs:262-279 | Reading `n` deposits from a slab that starts with `n` written deposits gives them back. |
| Obligation.BorrowsAtOfBytes | src/state/obligation.rs:280-297 | The same for borrows read from the end of the deposits. |
| Obligation.EntriesAt | src/state/obligation.rs:256-297 | Deposits followed back to back by borrows are read back by the two loops at their running offsets. |
| Obligation.EntriesAtStored | src/state/obligation.rs:256-297 | Whatever the two loops read is stored in the slab's prefix of 72·d + 96·b bytes. |
| Obligation.PackObligation | src/state/obligation.rs:127-213 | Stores every header field and the entries. Slab bytes past the last entry and bytes past the record are unchanged. A version ≤ 1 decodes back to the obligation. It needs 72·d + 96·b ≤ 936 and every decimal to fit. |
| Obligation.PackObligationParts | src/state/obligation.rs:161-212 | The same writes on the split buffer. |
| Obligation.PackIdentity | src/state/obligation.rs:161-166 | Version, slot, stale flag, market and owner are stored. |
| Obligation.PackValues | src/state/obligation.rs:167-173 | The four aggregates, the two count bytes and `unclaimed_mine` are stored. |
| Obligation.PackAggregates | src/state/obligation.rs:167-170 | The four value aggregates are stored as 16-byte decimals, and no other part changes. |
| Obligation.PackCounts | src/state/obligation.rs:171-173 | The two count bytes hold the list lengths, `unclaimed_mine` is stored, and no other part changes. |
| Obligation.PackCollateralEntry | src/state/obligation.rs:178-190 | One deposit's four writes put its 72 bytes at the running offset. |
| Obligation.PackLiquidityEntry | src/state/obligation.rs:195-211 | One borrow's five writes put its 96 bytes at the running offset. |
| Obligation.PackDeposits | src/state/obligation.rs:177-191 | The deposit loop lays the deposits back to back from slab offset 0 and leaves `offset` at 72·d. |
| Obligation.PackBorrows | src/state/obligation.rs:194-212 | The borrow loop lays the borrows back to back from where the deposits end. |
| Obligation.PackEntries | src/state/obligation.rs:174-212 | Both loops together store the entries and leave the rest of the slab unchanged. |
| Obligation.ObligationFromParts | src/state/obligation.rs:250-314 | Succeeds exactly for version ≤ 1, 72·d + 96·b ≤ 936 and a stale byte of 0 or 1. Entries running past the slab fail with `SliceOutOfBounds`, and the other failures are `InvalidAccountData`. The result is what the parts store. |
| Obligation.DecodeObligation | src/state/obligation.rs:216-315 | A decoded obligation has the input's version byte, which is ≤ 1. |
| Obligation.UnpackObligation | src/state/obligation.rs:216-315 | The decoder with its two push loops computes `DecodeObligation`. |
| Obligation.UnpackDeposits | src/state/obligation.rs:261-279 | The deposit loop reads `n` deposits at offsets 72·i, or fails with `SliceOutOfBounds` when they run past the slab. |
| Obligation.UnpackBorrows | src/state/obligation.rs:280-297 | The borrow loop reads `n` borrows from where the deposits end, or fails with `SliceOutOfBounds`. |
| Obligation.StoredOnce | src/state/obligation.rs:161-212 | The stored form determines the obligation. |
| Obligation.PartsRoundTrip | src/state/obligation.rs:250-314 | Split parts storing an obligation of version ≤ 1 decode to it. |
| Obligation.ObligationRoundTrip | src/state/obligation.rs:216-314 | Any buffer storing an obligation of version ≤ 1 decodes to it, whatever the slab holds past the entries. |
| Obligation.SlabOverflow | src/state/obligation.rs:247-297 | The slab fits one deposit and nine borrows exactly. An input with no deposits and ten borrows fails with `SliceOutOfBounds`. |
| Obligation.ZeroedObligation | src/state/obligation.rs:85-89 | A zero-filled account decodes to the default obligation, which has no entries and is not initialized. |
| Obligation.IsInitialized | src/state/obligation.rs:85-89 | Holds exactly when the version byte is not 0. `NewObligation` ensures it; `ZeroedObligation` ensures the default obligation fails it. |

## Left out

- **`math` module.** `Decimal`/`Rate` arithmetic and `U192` are not part of this model. A
  decimal is its scaled integer; `from_scaled_val`/`to_scaled_val` are the identity on
  values below 2^128.
- **`LastUpdate::new`.** It is not part of this model. `Obligation.InitObligation` and
  `Obligation.NewObligation` take the last update it would produce as the parameter
  `lastUpdate`; the slot passed in for it is unused.
- **Length-checked wrappers.** `solana_program`'s `Pack::pack`/`Pack::unpack` wrappers
  are left out: foreign library code. `pack_into_slice` and `unpack_from_slice` are
  modelled with their `array_ref!` length demand as a precondition. A buffer shorter
  than the record would panic in Rust.
- **Key construction.** `Pubkey::new` and `Pubkey::new_from_array` are the identity on
  32 bytes; their validation is foreign code.
- **`msg!` logging.** It is a side effect only.
- **Obligation arithmetic.** Interest accrual, repay, borrow and liquidation sizing, and
  reserve refresh are left out. Their implementations are not in the modelled files.
- **Account metadata.** The account-index constants and the account-list doc comments of
  the instructions are left out: they carry no behaviour.
- **`src/lib.rs`.** It holds only module declarations.
- **Panics.** A Rust panic is not modelled as unwinding. An out-of-bounds slab read
  inside a decoder is the error `SliceOutOfBounds`. A buffer shorter than the record is a
  precondition (see Length-checked wrappers), and so is a panic in an encoder.
- **`init` in place.** `init(&mut self)` is modelled as a method from the old record to
  the new one (`LendingMarket.InitLendingMarket`, `Obligation.InitObligation`). No other
  reference to the record is live during the call, so no aliasing is lost.
- Instruction.Unpack: its own `ensures` covers only the empty input. The other tags are
  covered by the payload lemmas beside it, one per payload shape.

## Findings

| source | as written | input that shows it | evidently intended | confidence | as-written member | corrected member |
|---|---|---|---|---|---|---|
| src/state/reserve.rs:605-609 | `offset` is bound once to 0 and never advanced, so every round of the receiver loop reads slot 0 | a reserve of version 1 with two different host-fee receivers, packed and then unpacked, comes back with two copies of the first | receiver `i` is read from slot `i` (`offset += PUBKEY_BYTES`, as in the encoder at src/state/reserve.rs:479-484) | high; not executed | Reserve.ReceiversLost | Reserve.UnpackReserveCorrected |
