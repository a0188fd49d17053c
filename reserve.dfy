/** The reserve record and its 873-byte codec (src/state/reserve.rs). */
module Reserve {
  import opened Bytes
  import opened Wrappers
  import opened State

  datatype ReserveLiquidity = ReserveLiquidity(
    isLp: bool,
    mintPubkey: Pubkey,
    mintDecimals: U8,
    supplyPubkey: Pubkey,
    feeReceiver: Pubkey,
    usePythOracle: bool,
    params1: Pubkey,
    params2: Pubkey,
    availableAmount: U64,
    borrowedAmountWads: Decimal,
    cumulativeBorrowRateWads: Decimal,
    marketPrice: Decimal,
    ownerUnclaimed: Decimal)

  datatype ReserveCollateral = ReserveCollateral(
    mintPubkey: Pubkey,
    mintTotalSupply: U64,
    supplyPubkey: Pubkey)

  datatype ReserveFees = ReserveFees(
    borrowFeeWad: U64,
    reserveOwnerFeeWad: U64,
    flashLoanFeeWad: U64,
    hostFeePercentage: U8,
    hostFeeReceivers: seq<Pubkey>)

  datatype ReserveConfig = ReserveConfig(
    optimalUtilizationRate: U8,
    loanToValueRatio: U8,
    liquidationBonus: U8,
    liquidationThreshold: U8,
    minBorrowRate: U8,
    optimalBorrowRate: U8,
    maxBorrowRate: U8,
    fees: ReserveFees,
    depositPaused: bool,
    borrowPaused: bool,
    liquidationPaused: bool,
    depositLimit: U64)

  /** Mining information of a reserve. */
  datatype Bonus = Bonus(
    unCollSupplyAccount: Pubkey,
    lTokenMiningIndex: Decimal,
    borrowMiningIndex: Decimal,
    totalMiningSpeed: U64,
    supplyRate: U64)

  datatype InitBonusParams = InitBonusParams(
    unCollSupplyAccount: Pubkey,
    totalMiningSpeed: U64,
    supplyRate: U64)

  datatype Reserve = Reserve(
    version: U8,
    lastUpdate: LastUpdate,
    lendingMarket: Pubkey,
    liquidity: ReserveLiquidity,
    collateral: ReserveCollateral,
    config: ReserveConfig,
    bonus: Bonus,
    reentryLock: bool)

  /** `Bonus::new`: both mining indices start at zero, the rest comes from `params`. */
  function NewBonus(params: InitBonusParams): (b: Bonus)
    ensures b.lTokenMiningIndex == DECIMAL_ZERO && b.borrowMiningIndex == DECIMAL_ZERO
    ensures b.unCollSupplyAccount == params.unCollSupplyAccount
    ensures b.totalMiningSpeed == params.totalMiningSpeed && b.supplyRate == params.supplyRate
  {
    Bonus(params.unCollSupplyAccount, DECIMAL_ZERO, DECIMAL_ZERO, params.totalMiningSpeed,
      params.supplyRate)
  }

  /** `is_initialized`. */
  predicate IsInitialized(r: Reserve) {
    r.version != UNINITIALIZED_VERSION
  }

  /** `Reserve::default()`: every field zero, no host-fee receivers. */
  const DEFAULT_RESERVE := Reserve(0, LastUpdate(0, false), DEFAULT_PUBKEY,
    ReserveLiquidity(false, DEFAULT_PUBKEY, 0, DEFAULT_PUBKEY, DEFAULT_PUBKEY, false,
      DEFAULT_PUBKEY, DEFAULT_PUBKEY, 0, DECIMAL_ZERO, DECIMAL_ZERO, DECIMAL_ZERO, DECIMAL_ZERO),
    ReserveCollateral(DEFAULT_PUBKEY, 0, DEFAULT_PUBKEY),
    ReserveConfig(0, 0, 0, 0, 0, 0, 0, ReserveFees(0, 0, 0, 0, []), false, false, false, 0),
    Bonus(DEFAULT_PUBKEY, DECIMAL_ZERO, DECIMAL_ZERO, 0, 0),
    false)

  /** The size of the host-fee receiver slab: `HOST_FEE_RECEIVER_COUNT` keys. */
  const RECEIVER_SLAB_BYTES: nat := PUBKEY_BYTES * HOST_FEE_RECEIVER_COUNT

  /** The widths `pack_into_slice` and `unpack_from_slice` hand to `mut_array_refs!` /
      `array_refs!`, in order, grouped as the source's comments group them; the
      constants below name the parts. */
  const RESERVE_WIDTHS: seq<nat> :=
    // reserve
    [1, 8, 1, PUBKEY_BYTES]
    // liquidity
    + [PUBKEY_BYTES, 1, PUBKEY_BYTES, PUBKEY_BYTES, 1, PUBKEY_BYTES, PUBKEY_BYTES, 8, 16, 16, 16, 16]
    // collateral
    + [PUBKEY_BYTES, 8, PUBKEY_BYTES]
    // config
    + [1, 1, 1, 1, 1, 1, 1, 8, 8, 8, 1, 1, RECEIVER_SLAB_BYTES, 1, 1, 1]
    // bonus
    + [PUBKEY_BYTES, 16, 16, 8, 8]
    // reentry lock, deposit limit, is_lp, padding
    + [1, 8, 1, 239]

  /** The number of parts, `|RESERVE_WIDTHS|`. */
  const RESERVE_PARTS: nat := 44

  const VERSION: nat := 0
  const LAST_UPDATE_SLOT: nat := 1
  const LAST_UPDATE_STALE: nat := 2
  const LENDING_MARKET: nat := 3
  const LIQUIDITY_MINT_PUBKEY: nat := 4
  const LIQUIDITY_MINT_DECIMALS: nat := 5
  const LIQUIDITY_SUPPLY_PUBKEY: nat := 6
  const LIQUIDITY_FEE_RECEIVER: nat := 7
  const LIQUIDITY_USE_PYTH_ORACLE: nat := 8
  const LIQUIDITY_PYTH_ORACLE_PUBKEY: nat := 9
  const LIQUIDITY_LARIX_ORACLE_PUBKEY: nat := 10
  const LIQUIDITY_AVAILABLE_AMOUNT: nat := 11
  const LIQUIDITY_BORROWED_AMOUNT_WADS: nat := 12
  const LIQUIDITY_CUMULATIVE_BORROW_RATE_WADS: nat := 13
  const LIQUIDITY_MARKET_PRICE: nat := 14
  const OWNER_UNCLAIMED: nat := 15
  const COLLATERAL_MINT_PUBKEY: nat := 16
  const COLLATERAL_MINT_TOTAL_SUPPLY: nat := 17
  const COLLATERAL_SUPPLY_PUBKEY: nat := 18
  const CONFIG_OPTIMAL_UTILIZATION_RATE: nat := 19
  const CONFIG_LOAN_TO_VALUE_RATIO: nat := 20
  const CONFIG_LIQUIDATION_BONUS: nat := 21
  const CONFIG_LIQUIDATION_THRESHOLD: nat := 22
  const CONFIG_MIN_BORROW_RATE: nat := 23
  const CONFIG_OPTIMAL_BORROW_RATE: nat := 24
  const CONFIG_MAX_BORROW_RATE: nat := 25
  const CONFIG_FEES_BORROW_FEE_WAD: nat := 26
  const CONFIG_FEES_RESERVE_OWNER_FEE_WAD: nat := 27
  const CONFIG_FEES_FLASH_LOAN_FEE_WAD: nat := 28
  const CONFIG_FEES_HOST_FEE_PERCENTAGE: nat := 29
  const CONFIG_FEES_HOST_FEE_RECEIVER_COUNT: nat := 30
  const CONFIG_FEES_HOST_FEE_RECEIVERS: nat := 31
  const DEPOSIT_PAUSED: nat := 32
  const BORROW_PAUSED: nat := 33
  const LIQUIDATION_PAUSED: nat := 34
  const UN_COLL_SUPPLY_ACCOUNT: nat := 35
  const L_TOKEN_MINING_INDEX: nat := 36
  const BORROW_MINING_INDEX: nat := 37
  const TOTAL_MINING_SPEED: nat := 38
  const SUPPLY_RATE: nat := 39
  const REENTRY_LOCK: nat := 40
  const DEPOSIT_LIMIT: nat := 41
  const IS_LP: nat := 42
  const PADDING: nat := 43

  /** `RESERVE_LEN`: the sum of the part widths, 873 (see `ReserveLayout`). */
  const RESERVE_LEN: nat := Sum(RESERVE_WIDTHS)

  /** The offsets of the header and of the first liquidity fields. */
  lemma {:induction false} ReserveLayoutHeader()
    ensures Offset(RESERVE_WIDTHS, LAST_UPDATE_STALE) == 9
    ensures Offset(RESERVE_WIDTHS, LENDING_MARKET) == 10
    ensures Offset(RESERVE_WIDTHS, LIQUIDITY_MINT_PUBKEY) == 42
    ensures Offset(RESERVE_WIDTHS, LIQUIDITY_SUPPLY_PUBKEY) == 75
    ensures Offset(RESERVE_WIDTHS, LIQUIDITY_USE_PYTH_ORACLE) == 139
    ensures Offset(RESERVE_WIDTHS, LIQUIDITY_AVAILABLE_AMOUNT) == 204
  {
    var ws := RESERVE_WIDTHS;
    assert Offset(ws, 0) == 0;
    OffsetNext(ws, 0);
    OffsetNext(ws, 1);
    OffsetNext(ws, 2);
    OffsetNext(ws, 3);
    OffsetNext(ws, 4);
    OffsetNext(ws, 5);
    OffsetNext(ws, 6);
    OffsetNext(ws, 7);
    OffsetNext(ws, 8);
    OffsetNext(ws, 9);
    OffsetNext(ws, 10);
  }

  /** The offsets of the remaining liquidity fields and of the collateral. */
  lemma {:induction false} ReserveLayoutLiquidity()
    ensures Offset(RESERVE_WIDTHS, LIQUIDITY_AVAILABLE_AMOUNT) == 204
    ensures Offset(RESERVE_WIDTHS, LIQUIDITY_BORROWED_AMOUNT_WADS) == 212
    ensures Offset(RESERVE_WIDTHS, LIQUIDITY_CUMULATIVE_BORROW_RATE_WADS) == 228
    ensures Offset(RESERVE_WIDTHS, LIQUIDITY_MARKET_PRICE) == 244
    ensures Offset(RESERVE_WIDTHS, OWNER_UNCLAIMED) == 260
    ensures Offset(RESERVE_WIDTHS, COLLATERAL_MINT_PUBKEY) == 276
    ensures Offset(RESERVE_WIDTHS, CONFIG_OPTIMAL_UTILIZATION_RATE) == 348
  {
    var ws := RESERVE_WIDTHS;
    ReserveLayoutHeader();
    OffsetNext(ws, 11);
    OffsetNext(ws, 12);
    OffsetNext(ws, 13);
    OffsetNext(ws, 14);
    OffsetNext(ws, 15);
    OffsetNext(ws, 16);
    OffsetNext(ws, 17);
    OffsetNext(ws, 18);
  }

  /** The offsets of the configuration up to the receiver slab. */
  lemma {:induction false} ReserveLayoutConfig()
    ensures Offset(RESERVE_WIDTHS, CONFIG_OPTIMAL_UTILIZATION_RATE) == 348
    ensures Offset(RESERVE_WIDTHS, CONFIG_FEES_BORROW_FEE_WAD) == 355
    ensures Offset(RESERVE_WIDTHS, CONFIG_FEES_HOST_FEE_RECEIVER_COUNT) == 380
    ensures Offset(RESERVE_WIDTHS, CONFIG_FEES_HOST_FEE_RECEIVERS) == 381
    ensures Offset(RESERVE_WIDTHS, DEPOSIT_PAUSED) == 541
    ensures Offset(RESERVE_WIDTHS, UN_COLL_SUPPLY_ACCOUNT) == 544
  {
    var ws := RESERVE_WIDTHS;
    ReserveLayoutLiquidity();
    OffsetNext(ws, 19);
    OffsetNext(ws, 20);
    OffsetNext(ws, 21);
    OffsetNext(ws, 22);
    OffsetNext(ws, 23);
    OffsetNext(ws, 24);
    OffsetNext(ws, 25);
    OffsetNext(ws, 26);
    OffsetNext(ws, 27);
    OffsetNext(ws, 28);
    OffsetNext(ws, 29);
    OffsetNext(ws, 30);
    OffsetNext(ws, 31);
    OffsetNext(ws, 32);
    OffsetNext(ws, 33);
    OffsetNext(ws, 34);
  }

  /** The offsets of the bonus and of the trailing fields, and the total size. */
  lemma {:induction false} ReserveLayout()
    ensures Offset(RESERVE_WIDTHS, UN_COLL_SUPPLY_ACCOUNT) == 544
    ensures Offset(RESERVE_WIDTHS, TOTAL_MINING_SPEED) == 608
    ensures Offset(RESERVE_WIDTHS, REENTRY_LOCK) == 624
    ensures Offset(RESERVE_WIDTHS, DEPOSIT_LIMIT) == 625
    ensures Offset(RESERVE_WIDTHS, IS_LP) == 633
    ensures Offset(RESERVE_WIDTHS, PADDING) == 634
    ensures RESERVE_LEN == 873 == 713 + PUBKEY_BYTES * HOST_FEE_RECEIVER_COUNT
  {
    var ws := RESERVE_WIDTHS;
    ReserveLayoutConfig();
    OffsetNext(ws, 35);
    OffsetNext(ws, 36);
    OffsetNext(ws, 37);
    OffsetNext(ws, 38);
    OffsetNext(ws, 39);
    OffsetNext(ws, 40);
    OffsetNext(ws, 41);
    OffsetNext(ws, 42);
    OffsetNext(ws, 43);
  }

  /** The widths of the `// reserve` parts. */
  predicate IsHeaderSplit(ws: seq<nat>) {
    && |ws| == RESERVE_PARTS
    && ws[VERSION] == 1 && ws[LAST_UPDATE_SLOT] == 8 && ws[LAST_UPDATE_STALE] == 1
    && ws[LENDING_MARKET] == PUBKEY_BYTES
  }

  /** The widths of the `// liquidity` parts. */
  predicate IsLiquiditySplit(ws: seq<nat>) {
    && |ws| == RESERVE_PARTS
    && ws[LIQUIDITY_MINT_PUBKEY] == PUBKEY_BYTES && ws[LIQUIDITY_MINT_DECIMALS] == 1
    && ws[LIQUIDITY_SUPPLY_PUBKEY] == PUBKEY_BYTES && ws[LIQUIDITY_FEE_RECEIVER] == PUBKEY_BYTES
    && ws[LIQUIDITY_USE_PYTH_ORACLE] == 1
    && ws[LIQUIDITY_PYTH_ORACLE_PUBKEY] == PUBKEY_BYTES
    && ws[LIQUIDITY_LARIX_ORACLE_PUBKEY] == PUBKEY_BYTES
    && ws[LIQUIDITY_AVAILABLE_AMOUNT] == 8 && ws[LIQUIDITY_BORROWED_AMOUNT_WADS] == 16
    && ws[LIQUIDITY_CUMULATIVE_BORROW_RATE_WADS] == 16 && ws[LIQUIDITY_MARKET_PRICE] == 16
    && ws[IS_LP] == 1
  }

  /** The widths of the `// collateral` parts. */
  predicate IsCollateralSplit(ws: seq<nat>) {
    && |ws| == RESERVE_PARTS
    && ws[COLLATERAL_MINT_PUBKEY] == PUBKEY_BYTES && ws[COLLATERAL_MINT_TOTAL_SUPPLY] == 8
    && ws[COLLATERAL_SUPPLY_PUBKEY] == PUBKEY_BYTES
  }

  /** The widths of the `// config` parts written before the receiver loop. */
  predicate IsConfigValuesSplit(ws: seq<nat>) {
    && |ws| == RESERVE_PARTS
    && ws[CONFIG_OPTIMAL_UTILIZATION_RATE] == 1 && ws[CONFIG_LOAN_TO_VALUE_RATIO] == 1
    && ws[CONFIG_LIQUIDATION_BONUS] == 1 && ws[CONFIG_LIQUIDATION_THRESHOLD] == 1
    && ws[CONFIG_MIN_BORROW_RATE] == 1 && ws[CONFIG_OPTIMAL_BORROW_RATE] == 1
    && ws[CONFIG_MAX_BORROW_RATE] == 1
    && ws[CONFIG_FEES_BORROW_FEE_WAD] == 8 && ws[CONFIG_FEES_RESERVE_OWNER_FEE_WAD] == 8
    && ws[CONFIG_FEES_FLASH_LOAN_FEE_WAD] == 8 && ws[CONFIG_FEES_HOST_FEE_PERCENTAGE] == 1
    && ws[CONFIG_FEES_HOST_FEE_RECEIVER_COUNT] == 1
  }

  /** The widths of the `// config` parts written after the receiver loop. */
  predicate IsConfigFlagsSplit(ws: seq<nat>) {
    && |ws| == RESERVE_PARTS
    && ws[DEPOSIT_PAUSED] == 1 && ws[BORROW_PAUSED] == 1 && ws[LIQUIDATION_PAUSED] == 1
    && ws[DEPOSIT_LIMIT] == 8
  }

  /** The widths of the `// config` parts. */
  predicate IsConfigSplit(ws: seq<nat>) {
    && IsConfigValuesSplit(ws) && IsConfigFlagsSplit(ws)
    && ws[CONFIG_FEES_HOST_FEE_RECEIVERS] == RECEIVER_SLAB_BYTES
  }

  /** The widths of the bonus parts. */
  predicate IsBonusSplit(ws: seq<nat>) {
    && |ws| == RESERVE_PARTS
    && ws[UN_COLL_SUPPLY_ACCOUNT] == PUBKEY_BYTES
    && ws[L_TOKEN_MINING_INDEX] == 16 && ws[BORROW_MINING_INDEX] == 16
    && ws[TOTAL_MINING_SPEED] == 8 && ws[SUPPLY_RATE] == 8
  }

  /** True when `ws` has the widths `mut_array_refs!` and `array_refs!` split the record
      by, `RESERVE_WIDTHS`, stated group by group and part by part. */
  predicate IsReserveSplit(ws: seq<nat>) {
    && IsHeaderSplit(ws) && IsLiquiditySplit(ws) && IsCollateralSplit(ws)
    && IsConfigSplit(ws) && IsBonusSplit(ws)
    && ws[OWNER_UNCLAIMED] == 16 && ws[REENTRY_LOCK] == 1
  }

  /** `RESERVE_WIDTHS` is that split. */
  lemma {:induction false} ReserveSplit()
    ensures |RESERVE_WIDTHS| == RESERVE_PARTS && IsReserveSplit(RESERVE_WIDTHS)
  {
  }

  /** The bytes of a list of keys laid end to end. */
  function KeysBytes(keys: seq<Pubkey>): (b: seq<Byte>)
    ensures |b| == PUBKEY_BYTES * |keys|
  {
    if keys == [] then [] else KeysBytes(keys[..|keys| - 1]) + keys[|keys| - 1]
  }

  /** The parts written under the source's `// reserve` heading. */
  predicate StoresHeader(p: seq<seq<Byte>>, r: Reserve)
    requires |p| == RESERVE_PARTS
  {
    && p[VERSION] == [r.version]
    && p[LAST_UPDATE_SLOT] == U64Bytes(r.lastUpdate.slot)
    && p[LAST_UPDATE_STALE] == [BoolByte(r.lastUpdate.stale)]
    && p[LENDING_MARKET] == r.lendingMarket
  }

  /** The parts written under `// liquidity`; `owner_unclaimed` is written last of all
      and is left to `StoresReserve`. */
  predicate StoresLiquidity(p: seq<seq<Byte>>, l: ReserveLiquidity)
    requires |p| == RESERVE_PARTS
  {
    && p[LIQUIDITY_MINT_PUBKEY] == l.mintPubkey
    && p[LIQUIDITY_MINT_DECIMALS] == [l.mintDecimals]
    && p[LIQUIDITY_SUPPLY_PUBKEY] == l.supplyPubkey
    && p[LIQUIDITY_FEE_RECEIVER] == l.feeReceiver
    && p[LIQUIDITY_USE_PYTH_ORACLE] == [BoolByte(l.usePythOracle)]
    && p[LIQUIDITY_PYTH_ORACLE_PUBKEY] == l.params1
    && p[LIQUIDITY_LARIX_ORACLE_PUBKEY] == l.params2
    && p[LIQUIDITY_AVAILABLE_AMOUNT] == U64Bytes(l.availableAmount)
    && StoresDecimal(p[LIQUIDITY_BORROWED_AMOUNT_WADS], l.borrowedAmountWads)
    && StoresDecimal(p[LIQUIDITY_CUMULATIVE_BORROW_RATE_WADS], l.cumulativeBorrowRateWads)
    && StoresDecimal(p[LIQUIDITY_MARKET_PRICE], l.marketPrice)
    && p[IS_LP] == [BoolByte(l.isLp)]
  }

  /** The parts written under `// collateral`. */
  predicate StoresCollateral(p: seq<seq<Byte>>, c: ReserveCollateral)
    requires |p| == RESERVE_PARTS
  {
    && p[COLLATERAL_MINT_PUBKEY] == c.mintPubkey
    && p[COLLATERAL_MINT_TOTAL_SUPPLY] == U64Bytes(c.mintTotalSupply)
    && p[COLLATERAL_SUPPLY_PUBKEY] == c.supplyPubkey
  }

  /** The scalar parts written under `// config` before the receiver loop, the
      receiver count included. */
  predicate StoresConfigValues(p: seq<seq<Byte>>, c: ReserveConfig)
    requires |p| == RESERVE_PARTS
  {
    && p[CONFIG_OPTIMAL_UTILIZATION_RATE] == [c.optimalUtilizationRate]
    && p[CONFIG_LOAN_TO_VALUE_RATIO] == [c.loanToValueRatio]
    && p[CONFIG_LIQUIDATION_BONUS] == [c.liquidationBonus]
    && p[CONFIG_LIQUIDATION_THRESHOLD] == [c.liquidationThreshold]
    && p[CONFIG_MIN_BORROW_RATE] == [c.minBorrowRate]
    && p[CONFIG_OPTIMAL_BORROW_RATE] == [c.optimalBorrowRate]
    && p[CONFIG_MAX_BORROW_RATE] == [c.maxBorrowRate]
    && p[CONFIG_FEES_BORROW_FEE_WAD] == U64Bytes(c.fees.borrowFeeWad)
    && p[CONFIG_FEES_RESERVE_OWNER_FEE_WAD] == U64Bytes(c.fees.reserveOwnerFeeWad)
    && p[CONFIG_FEES_FLASH_LOAN_FEE_WAD] == U64Bytes(c.fees.flashLoanFeeWad)
    && p[CONFIG_FEES_HOST_FEE_PERCENTAGE] == [c.fees.hostFeePercentage]
    && |c.fees.hostFeeReceivers| < 0x100
    && p[CONFIG_FEES_HOST_FEE_RECEIVER_COUNT] == [|c.fees.hostFeeReceivers|]
  }

  /** The flag and limit parts written after the receiver loop. */
  predicate StoresConfigFlags(p: seq<seq<Byte>>, c: ReserveConfig)
    requires |p| == RESERVE_PARTS
  {
    && p[DEPOSIT_PAUSED] == [BoolByte(c.depositPaused)]
    && p[BORROW_PAUSED] == [BoolByte(c.borrowPaused)]
    && p[LIQUIDATION_PAUSED] == [BoolByte(c.liquidationPaused)]
    && p[DEPOSIT_LIMIT] == U64Bytes(c.depositLimit)
  }

  /** The parts written under `// config`, all but the receiver slab. */
  predicate StoresConfig(p: seq<seq<Byte>>, c: ReserveConfig)
    requires |p| == RESERVE_PARTS
  {
    StoresConfigValues(p, c) && StoresConfigFlags(p, c)
  }

  /** True when the receiver slab starts with `keys`, back to back. */
  predicate StoresReceivers(slab: seq<Byte>, keys: seq<Pubkey>) {
    PUBKEY_BYTES * |keys| <= |slab| && slab[..PUBKEY_BYTES * |keys|] == KeysBytes(keys)
  }

  /** The bonus parts. */
  predicate StoresBonus(p: seq<seq<Byte>>, b: Bonus)
    requires |p| == RESERVE_PARTS
  {
    && p[UN_COLL_SUPPLY_ACCOUNT] == b.unCollSupplyAccount
    && StoresDecimal(p[L_TOKEN_MINING_INDEX], b.lTokenMiningIndex)
    && StoresDecimal(p[BORROW_MINING_INDEX], b.borrowMiningIndex)
    && p[TOTAL_MINING_SPEED] == U64Bytes(b.totalMiningSpeed)
    && p[SUPPLY_RATE] == U64Bytes(b.supplyRate)
  }

  /** Every field of `r` but the host-fee receivers, as `pack_into_slice` stores it. */
  predicate StoresFields(p: seq<seq<Byte>>, r: Reserve)
    requires |p| == RESERVE_PARTS
  {
    && StoresHeader(p, r)
    && StoresLiquidity(p, r.liquidity)
    && StoresCollateral(p, r.collateral)
    && StoresConfig(p, r.config)
    && StoresBonus(p, r.bonus)
    && StoresDecimal(p[OWNER_UNCLAIMED], r.liquidity.ownerUnclaimed)
    && p[REENTRY_LOCK] == [BoolByte(r.reentryLock)]
  }

  /** All of `r` as `pack_into_slice` stores it (everything but the padding and the
      receiver slots past the last receiver). */
  predicate StoresReserve(p: seq<seq<Byte>>, r: Reserve)
    requires |p| == RESERVE_PARTS
  {
    StoresFields(p, r) && StoresReceivers(p[CONFIG_FEES_HOST_FEE_RECEIVERS], r.config.fees.hostFeeReceivers)
  }

  /** What `pack_into_slice` demands of a reserve: its `expect`s and its slicing succeed
      when every decimal fits in a `u128` and there are at most five receivers. */
  predicate Packable(r: Reserve) {
    && FitsU128(r.liquidity.borrowedAmountWads)
    && FitsU128(r.liquidity.cumulativeBorrowRateWads)
    && FitsU128(r.liquidity.marketPrice)
    && FitsU128(r.liquidity.ownerUnclaimed)
    && FitsU128(r.bonus.lTokenMiningIndex)
    && FitsU128(r.bonus.borrowMiningIndex)
    && |r.config.fees.hostFeeReceivers| <= HOST_FEE_RECEIVER_COUNT
  }

  /** The writes under `// reserve`. */
  method PackHeader(r: Reserve, output: array<Byte>, ws: seq<nat>)
    requires IsHeaderSplit(ws) && Sum(ws) <= output.Length
    modifies output
    ensures StoresHeader(Parts(output[..], ws), r)
    ensures forall j | 0 <= j < |ws| && j > LENDING_MARKET ::
      Parts(output[..], ws)[j] == old(Parts(output[..], ws))[j]
    ensures output[Sum(ws)..] == old(output[Sum(ws)..])
  {
    WriteWholePart(output, ws, VERSION, [r.version]);
    WriteWholePart(output, ws, LAST_UPDATE_SLOT, U64Bytes(r.lastUpdate.slot));
    PackBool(r.lastUpdate.stale, output, ws, LAST_UPDATE_STALE);
    WriteWholePart(output, ws, LENDING_MARKET, r.lendingMarket);
  }

  /** The writes under `// liquidity`, `is_lp` included. */
  method PackLiquidity(l: ReserveLiquidity, output: array<Byte>, ws: seq<nat>)
    requires FitsU128(l.borrowedAmountWads) && FitsU128(l.cumulativeBorrowRateWads)
    requires FitsU128(l.marketPrice)
    requires IsLiquiditySplit(ws) && Sum(ws) <= output.Length
    modifies output
    ensures StoresLiquidity(Parts(output[..], ws), l)
    ensures forall j | 0 <= j < |ws| && !(LIQUIDITY_MINT_PUBKEY <= j <= LIQUIDITY_MARKET_PRICE) && j != IS_LP ::
      Parts(output[..], ws)[j] == old(Parts(output[..], ws))[j]
    ensures output[Sum(ws)..] == old(output[Sum(ws)..])
  {
    WriteWholePart(output, ws, LIQUIDITY_MINT_PUBKEY, l.mintPubkey);
    WriteWholePart(output, ws, LIQUIDITY_MINT_DECIMALS, [l.mintDecimals]);
    WriteWholePart(output, ws, LIQUIDITY_SUPPLY_PUBKEY, l.supplyPubkey);
    WriteWholePart(output, ws, LIQUIDITY_FEE_RECEIVER, l.feeReceiver);
    PackBool(l.usePythOracle, output, ws, LIQUIDITY_USE_PYTH_ORACLE);
    WriteWholePart(output, ws, LIQUIDITY_PYTH_ORACLE_PUBKEY, l.params1);
    WriteWholePart(output, ws, LIQUIDITY_LARIX_ORACLE_PUBKEY, l.params2);
    WriteWholePart(output, ws, LIQUIDITY_AVAILABLE_AMOUNT, U64Bytes(l.availableAmount));
    PackDecimal(l.borrowedAmountWads, output, ws, LIQUIDITY_BORROWED_AMOUNT_WADS);
    PackDecimal(l.cumulativeBorrowRateWads, output, ws, LIQUIDITY_CUMULATIVE_BORROW_RATE_WADS);
    PackDecimal(l.marketPrice, output, ws, LIQUIDITY_MARKET_PRICE);
    PackBool(l.isLp, output, ws, IS_LP);
  }

  /** The writes under `// collateral`. */
  method PackCollateral(c: ReserveCollateral, output: array<Byte>, ws: seq<nat>)
    requires IsCollateralSplit(ws) && Sum(ws) <= output.Length
    modifies output
    ensures StoresCollateral(Parts(output[..], ws), c)
    ensures forall j | 0 <= j < |ws| && !(COLLATERAL_MINT_PUBKEY <= j <= COLLATERAL_SUPPLY_PUBKEY) ::
      Parts(output[..], ws)[j] == old(Parts(output[..], ws))[j]
    ensures output[Sum(ws)..] == old(output[Sum(ws)..])
  {
    WriteWholePart(output, ws, COLLATERAL_MINT_PUBKEY, c.mintPubkey);
    WriteWholePart(output, ws, COLLATERAL_MINT_TOTAL_SUPPLY, U64Bytes(c.mintTotalSupply));
    WriteWholePart(output, ws, COLLATERAL_SUPPLY_PUBKEY, c.supplyPubkey);
  }

  /** The scalar writes under `// config` up to the receiver count; `u8::try_from(..)
      .unwrap()` panics on 256 receivers or more. */
  method PackConfigValues(c: ReserveConfig, output: array<Byte>, ws: seq<nat>)
    requires |c.fees.hostFeeReceivers| < 0x100
    requires IsConfigValuesSplit(ws) && Sum(ws) <= output.Length
    modifies output
    ensures StoresConfigValues(Parts(output[..], ws), c)
    ensures forall j | 0 <= j < |ws| && !(CONFIG_OPTIMAL_UTILIZATION_RATE <= j <= CONFIG_FEES_HOST_FEE_RECEIVER_COUNT) ::
      Parts(output[..], ws)[j] == old(Parts(output[..], ws))[j]
    ensures output[Sum(ws)..] == old(output[Sum(ws)..])
  {
    WriteWholePart(output, ws, CONFIG_OPTIMAL_UTILIZATION_RATE, [c.optimalUtilizationRate]);
    WriteWholePart(output, ws, CONFIG_LOAN_TO_VALUE_RATIO, [c.loanToValueRatio]);
    WriteWholePart(output, ws, CONFIG_LIQUIDATION_BONUS, [c.liquidationBonus]);
    WriteWholePart(output, ws, CONFIG_LIQUIDATION_THRESHOLD, [c.liquidationThreshold]);
    WriteWholePart(output, ws, CONFIG_MIN_BORROW_RATE, [c.minBorrowRate]);
    WriteWholePart(output, ws, CONFIG_OPTIMAL_BORROW_RATE, [c.optimalBorrowRate]);
    WriteWholePart(output, ws, CONFIG_MAX_BORROW_RATE, [c.maxBorrowRate]);
    WriteWholePart(output, ws, CONFIG_FEES_BORROW_FEE_WAD, U64Bytes(c.fees.borrowFeeWad));
    WriteWholePart(output, ws, CONFIG_FEES_RESERVE_OWNER_FEE_WAD, U64Bytes(c.fees.reserveOwnerFeeWad));
    WriteWholePart(output, ws, CONFIG_FEES_FLASH_LOAN_FEE_WAD, U64Bytes(c.fees.flashLoanFeeWad));
    WriteWholePart(output, ws, CONFIG_FEES_HOST_FEE_PERCENTAGE, [c.fees.hostFeePercentage]);
    var receiverCount := |c.fees.hostFeeReceivers| as Byte;
    WriteWholePart(output, ws, CONFIG_FEES_HOST_FEE_RECEIVER_COUNT, [receiverCount]);
  }

  /** The receiver loop: key `i` goes to slab offset `32 * i`, so the keys end up back to
      back from the start of the slab and the rest of the slab keeps its bytes. More keys
      than the slab holds make the source's `array_mut_ref!` panic, hence the
      precondition. */
  method PackHostFeeReceivers(keys: seq<Pubkey>, output: array<Byte>, ws: seq<nat>)
    requires |ws| == RESERVE_PARTS && Sum(ws) <= output.Length
    requires PUBKEY_BYTES * |keys| <= ws[CONFIG_FEES_HOST_FEE_RECEIVERS]
    modifies output
    ensures var slab := Parts(output[..], ws)[CONFIG_FEES_HOST_FEE_RECEIVERS];
      var n := PUBKEY_BYTES * |keys|;
      && StoresReceivers(slab, keys)
      && AgreeFrom(slab, old(Parts(output[..], ws))[CONFIG_FEES_HOST_FEE_RECEIVERS], n)
    ensures forall j | 0 <= j < |ws| && j != CONFIG_FEES_HOST_FEE_RECEIVERS ::
      Parts(output[..], ws)[j] == old(Parts(output[..], ws))[j]
    ensures output[Sum(ws)..] == old(output[Sum(ws)..])
  {
    ghost var p0 := Parts(output[..], ws);
    ghost var slab := p0[CONFIG_FEES_HOST_FEE_RECEIVERS];
    PartAt(output[..], ws, CONFIG_FEES_HOST_FEE_RECEIVERS);
    assert keys[..0] == [];
    assert Splice(slab, 0, []) == slab;
    var offset := 0;
    for i := 0 to |keys|
      invariant offset == PUBKEY_BYTES * i
      invariant Parts(output[..], ws) == p0[CONFIG_FEES_HOST_FEE_RECEIVERS := Splice(slab, 0, KeysBytes(keys[..i]))]
      invariant output[Sum(ws)..] == old(output[Sum(ws)..])
    {
      ReceiversSpliceStep(slab, keys, i);
      WritePart(output, ws, CONFIG_FEES_HOST_FEE_RECEIVERS, offset, keys[i]);
      offset := offset + PUBKEY_BYTES;
    }
    assert keys[..|keys|] == keys;
    SpliceFromStart(slab, KeysBytes(keys));
  }

  /** One more key written after the first `i` extends their write. */
  lemma {:induction false} ReceiversSpliceStep(slab: seq<Byte>, keys: seq<Pubkey>, i: nat)
    requires i < |keys| && PUBKEY_BYTES * (i + 1) <= |slab|
    ensures Splice(Splice(slab, 0, KeysBytes(keys[..i])), PUBKEY_BYTES * i, keys[i])
      == Splice(slab, 0, KeysBytes(keys[..i + 1]))
  {
    assert keys[..i + 1][..i] == keys[..i];
    SpliceConcat(slab, 0, KeysBytes(keys[..i]), keys[i]);
  }

  /** The flag and limit writes that close `// config`. */
  method PackConfigFlags(c: ReserveConfig, output: array<Byte>, ws: seq<nat>)
    requires IsConfigFlagsSplit(ws) && Sum(ws) <= output.Length
    modifies output
    ensures StoresConfigFlags(Parts(output[..], ws), c)
    ensures forall j | 0 <= j < |ws| && !(DEPOSIT_PAUSED <= j <= LIQUIDATION_PAUSED) && j != DEPOSIT_LIMIT ::
      Parts(output[..], ws)[j] == old(Parts(output[..], ws))[j]
    ensures output[Sum(ws)..] == old(output[Sum(ws)..])
  {
    PackBool(c.depositPaused, output, ws, DEPOSIT_PAUSED);
    PackBool(c.borrowPaused, output, ws, BORROW_PAUSED);
    PackBool(c.liquidationPaused, output, ws, LIQUIDATION_PAUSED);
    WriteWholePart(output, ws, DEPOSIT_LIMIT, U64Bytes(c.depositLimit));
  }

  /** The bonus writes. */
  method PackBonus(b: Bonus, output: array<Byte>, ws: seq<nat>)
    requires FitsU128(b.lTokenMiningIndex) && FitsU128(b.borrowMiningIndex)
    requires IsBonusSplit(ws) && Sum(ws) <= output.Length
    modifies output
    ensures StoresBonus(Parts(output[..], ws), b)
    ensures forall j | 0 <= j < |ws| && !(UN_COLL_SUPPLY_ACCOUNT <= j <= SUPPLY_RATE) ::
      Parts(output[..], ws)[j] == old(Parts(output[..], ws))[j]
    ensures output[Sum(ws)..] == old(output[Sum(ws)..])
  {
    WriteWholePart(output, ws, UN_COLL_SUPPLY_ACCOUNT, b.unCollSupplyAccount);
    PackDecimal(b.lTokenMiningIndex, output, ws, L_TOKEN_MINING_INDEX);
    PackDecimal(b.borrowMiningIndex, output, ws, BORROW_MINING_INDEX);
    WriteWholePart(output, ws, TOTAL_MINING_SPEED, U64Bytes(b.totalMiningSpeed));
    WriteWholePart(output, ws, SUPPLY_RATE, U64Bytes(b.supplyRate));
  }

  /** The first half of `pack_into_slice`, `// reserve` to `// collateral`. */
  method PackReserveHead(r: Reserve, output: array<Byte>, ws: seq<nat>)
    requires Packable(r)
    requires IsReserveSplit(ws) && Sum(ws) <= output.Length
    modifies output
    ensures var p := Parts(output[..], ws);
      StoresHeader(p, r) && StoresLiquidity(p, r.liquidity) && StoresCollateral(p, r.collateral)
    ensures forall j | 0 <= j < |ws| && LIQUIDITY_MARKET_PRICE < j < COLLATERAL_MINT_PUBKEY ::
      Parts(output[..], ws)[j] == old(Parts(output[..], ws))[j]
    ensures forall j | 0 <= j < |ws| && COLLATERAL_SUPPLY_PUBKEY < j && j != IS_LP ::
      Parts(output[..], ws)[j] == old(Parts(output[..], ws))[j]
    ensures output[Sum(ws)..] == old(output[Sum(ws)..])
  {
    PackHeader(r, output, ws);
    PackLiquidity(r.liquidity, output, ws);
    PackCollateral(r.collateral, output, ws);
  }

  /** The `// config` writes, the receiver loop included. */
  method PackConfig(c: ReserveConfig, output: array<Byte>, ws: seq<nat>)
    requires |c.fees.hostFeeReceivers| <= HOST_FEE_RECEIVER_COUNT
    requires IsConfigSplit(ws) && Sum(ws) <= output.Length
    modifies output
    ensures StoresConfig(Parts(output[..], ws), c)
    ensures var slab := Parts(output[..], ws)[CONFIG_FEES_HOST_FEE_RECEIVERS];
      var n := PUBKEY_BYTES * |c.fees.hostFeeReceivers|;
      && StoresReceivers(slab, c.fees.hostFeeReceivers)
      && AgreeFrom(slab, old(Parts(output[..], ws))[CONFIG_FEES_HOST_FEE_RECEIVERS], n)
    ensures forall j | 0 <= j < |ws| && !(CONFIG_OPTIMAL_UTILIZATION_RATE <= j <= LIQUIDATION_PAUSED) && j != DEPOSIT_LIMIT ::
      Parts(output[..], ws)[j] == old(Parts(output[..], ws))[j]
    ensures output[Sum(ws)..] == old(output[Sum(ws)..])
  {
    PackConfigValues(c, output, ws);
    PackHostFeeReceivers(c.fees.hostFeeReceivers, output, ws);
    PackConfigFlags(c, output, ws);
  }

  /** The second half of `pack_into_slice`, `// config` to the reentry lock. */
  method PackReserveTail(r: Reserve, output: array<Byte>, ws: seq<nat>)
    requires Packable(r)
    requires IsReserveSplit(ws) && Sum(ws) <= output.Length
    modifies output
    ensures var p := Parts(output[..], ws);
      && StoresConfig(p, r.config) && StoresBonus(p, r.bonus)
      && StoresDecimal(p[OWNER_UNCLAIMED], r.liquidity.ownerUnclaimed)
      && p[REENTRY_LOCK] == [BoolByte(r.reentryLock)]
    ensures var slab := Parts(output[..], ws)[CONFIG_FEES_HOST_FEE_RECEIVERS];
      var n := PUBKEY_BYTES * |r.config.fees.hostFeeReceivers|;
      && StoresReceivers(slab, r.config.fees.hostFeeReceivers)
      && AgreeFrom(slab, old(Parts(output[..], ws))[CONFIG_FEES_HOST_FEE_RECEIVERS], n)
    ensures forall j | 0 <= j < |ws| && j != OWNER_UNCLAIMED && !(CONFIG_OPTIMAL_UTILIZATION_RATE <= j <= DEPOSIT_LIMIT) ::
      Parts(output[..], ws)[j] == old(Parts(output[..], ws))[j]
    ensures output[Sum(ws)..] == old(output[Sum(ws)..])
  {
    PackConfig(r.config, output, ws);
    PackBonus(r.bonus, output, ws);
    PackDecimal(r.liquidity.ownerUnclaimed, output, ws, OWNER_UNCLAIMED);
    PackBool(r.reentryLock, output, ws, REENTRY_LOCK);
  }

  /** The field writes of `pack_into_slice` once `mut_array_refs!` has split `output`
      by `ws`, in the source's order. */
  method PackReserveParts(r: Reserve, output: array<Byte>, ws: seq<nat>)
    requires Packable(r)
    requires IsReserveSplit(ws) && Sum(ws) <= output.Length
    modifies output
    ensures StoresReserve(Parts(output[..], ws), r)
    ensures Parts(output[..], ws)[PADDING] == old(Parts(output[..], ws))[PADDING]
    ensures var n := PUBKEY_BYTES * |r.config.fees.hostFeeReceivers|;
      AgreeFrom(Parts(output[..], ws)[CONFIG_FEES_HOST_FEE_RECEIVERS],
                old(Parts(output[..], ws))[CONFIG_FEES_HOST_FEE_RECEIVERS], n)
    ensures output[Sum(ws)..] == old(output[Sum(ws)..])
  {
    PackReserveHead(r, output, ws);
    PackReserveTail(r, output, ws);
  }

  /** `pack_into_slice`: writes every field into its part of `output`. The padding, the
      receiver slots past the last receiver and whatever follows the record keep their
      bytes. */
  method PackReserve(r: Reserve, output: array<Byte>)
    requires Packable(r)
    requires output.Length >= RESERVE_LEN
    modifies output
    ensures StoresReserve(Parts(output[..], RESERVE_WIDTHS), r)
    ensures Parts(output[..], RESERVE_WIDTHS)[PADDING] == old(Parts(output[..], RESERVE_WIDTHS))[PADDING]
    ensures var n := PUBKEY_BYTES * |r.config.fees.hostFeeReceivers|;
      AgreeFrom(Parts(output[..], RESERVE_WIDTHS)[CONFIG_FEES_HOST_FEE_RECEIVERS],
                old(Parts(output[..], RESERVE_WIDTHS))[CONFIG_FEES_HOST_FEE_RECEIVERS], n)
    ensures output[RESERVE_LEN..] == old(output[RESERVE_LEN..])
    ensures r.version <= PROGRAM_VERSION ==>
      && DecodeReserveCorrected(output[..]) == Ok(r)
      && DecodeReserve(output[..]) == Ok(WithReceivers(r, Collapsed(r.config.fees.hostFeeReceivers)))
  {
    ReserveSplit();
    PackReserveParts(r, output, RESERVE_WIDTHS);
    if r.version <= PROGRAM_VERSION {
      ReserveRoundTrip(r, output[..]);
    }
  }

  /** `n` copies of `x`, as `n` pushes of the same value build them. */
  function Repeat<T>(x: T, n: nat): (xs: seq<T>)
    ensures |xs| == n && forall i :: 0 <= i < n ==> xs[i] == x
  {
    if n == 0 then [] else Repeat(x, n - 1) + [x]
  }

  /** The `n` key slots at the start of the receiver slab, slot `i` at byte `32 * i`. */
  function Slots(slab: seq<Byte>, n: nat): (keys: seq<Pubkey>)
    requires PUBKEY_BYTES * n <= |slab|
    ensures |keys| == n
    ensures forall i :: 0 <= i < n ==> keys[i] == slab[PUBKEY_BYTES * i .. PUBKEY_BYTES * (i + 1)]
  {
    if n == 0 then [] else Slots(slab, n - 1) + [slab[PUBKEY_BYTES * (n - 1) .. PUBKEY_BYTES * n]]
  }

  /** The seven bytes `unpack_from_slice` reads with `unpack_bool`. */
  predicate BoolBytesValid(p: seq<seq<Byte>>)
    requires IsReserveSplit(Widths(p))
  {
    && p[LAST_UPDATE_STALE][0] <= 1
    && p[IS_LP][0] <= 1 && p[LIQUIDITY_USE_PYTH_ORACLE][0] <= 1
    && p[DEPOSIT_PAUSED][0] <= 1 && p[BORROW_PAUSED][0] <= 1 && p[LIQUIDATION_PAUSED][0] <= 1
    && p[REENTRY_LOCK][0] <= 1
  }

  /** The `liquidity` literal of `unpack_from_slice`, `owner_unclaimed` included; its
      two booleans reject any byte but 0 and 1. */
  function LiquidityFromParts(p: seq<seq<Byte>>): (r: Result<ReserveLiquidity>)
    requires IsReserveSplit(Widths(p))
    ensures r.Ok? <==> p[IS_LP][0] <= 1 && p[LIQUIDITY_USE_PYTH_ORACLE][0] <= 1
    ensures r.Err? ==> r.error == InvalidAccountData
    ensures r.Ok? ==> StoresLiquidity(p, r.value)
    ensures r.Ok? ==> StoresDecimal(p[OWNER_UNCLAIMED], r.value.ownerUnclaimed)
  {
    var isLp :- UnpackBool(p[IS_LP][0]);
    var usePythOracle :- UnpackBool(p[LIQUIDITY_USE_PYTH_ORACLE][0]);
    Ok(ReserveLiquidity(
      isLp,
      p[LIQUIDITY_MINT_PUBKEY],
      p[LIQUIDITY_MINT_DECIMALS][0],
      p[LIQUIDITY_SUPPLY_PUBKEY],
      p[LIQUIDITY_FEE_RECEIVER],
      usePythOracle,
      p[LIQUIDITY_PYTH_ORACLE_PUBKEY],
      p[LIQUIDITY_LARIX_ORACLE_PUBKEY],
      LeU64(p[LIQUIDITY_AVAILABLE_AMOUNT]),
      UnpackDecimal(p[LIQUIDITY_BORROWED_AMOUNT_WADS]),
      UnpackDecimal(p[LIQUIDITY_CUMULATIVE_BORROW_RATE_WADS]),
      UnpackDecimal(p[LIQUIDITY_MARKET_PRICE]),
      UnpackDecimal(p[OWNER_UNCLAIMED])))
  }

  /** The `collateral` literal of `unpack_from_slice`. */
  function CollateralFromParts(p: seq<seq<Byte>>): (c: ReserveCollateral)
    requires IsReserveSplit(Widths(p))
    ensures StoresCollateral(p, c)
  {
    ReserveCollateral(
      p[COLLATERAL_MINT_PUBKEY],
      LeU64(p[COLLATERAL_MINT_TOTAL_SUPPLY]),
      p[COLLATERAL_SUPPLY_PUBKEY])
  }

  /** The `config` literal of `unpack_from_slice`, given the receivers its loop
      collected (one per the stored count); its three flags reject any byte but 0 and 1. */
  function ConfigFromParts(p: seq<seq<Byte>>, receivers: seq<Pubkey>): (r: Result<ReserveConfig>)
    requires IsReserveSplit(Widths(p))
    requires |receivers| == p[CONFIG_FEES_HOST_FEE_RECEIVER_COUNT][0]
    ensures r.Ok? <==>
      p[DEPOSIT_PAUSED][0] <= 1 && p[BORROW_PAUSED][0] <= 1 && p[LIQUIDATION_PAUSED][0] <= 1
    ensures r.Err? ==> r.error == InvalidAccountData
    ensures r.Ok? ==> StoresConfig(p, r.value) && r.value.fees.hostFeeReceivers == receivers
  {
    var depositPaused :- UnpackBool(p[DEPOSIT_PAUSED][0]);
    var borrowPaused :- UnpackBool(p[BORROW_PAUSED][0]);
    var liquidationPaused :- UnpackBool(p[LIQUIDATION_PAUSED][0]);
    Ok(ReserveConfig(
      p[CONFIG_OPTIMAL_UTILIZATION_RATE][0],
      p[CONFIG_LOAN_TO_VALUE_RATIO][0],
      p[CONFIG_LIQUIDATION_BONUS][0],
      p[CONFIG_LIQUIDATION_THRESHOLD][0],
      p[CONFIG_MIN_BORROW_RATE][0],
      p[CONFIG_OPTIMAL_BORROW_RATE][0],
      p[CONFIG_MAX_BORROW_RATE][0],
      ReserveFees(
        LeU64(p[CONFIG_FEES_BORROW_FEE_WAD]),
        LeU64(p[CONFIG_FEES_RESERVE_OWNER_FEE_WAD]),
        LeU64(p[CONFIG_FEES_FLASH_LOAN_FEE_WAD]),
        p[CONFIG_FEES_HOST_FEE_PERCENTAGE][0],
        receivers),
      depositPaused,
      borrowPaused,
      liquidationPaused,
      LeU64(p[DEPOSIT_LIMIT])))
  }

  /** The `bonus` literal of `unpack_from_slice`. */
  function BonusFromParts(p: seq<seq<Byte>>): (b: Bonus)
    requires IsReserveSplit(Widths(p))
    ensures StoresBonus(p, b)
  {
    Bonus(
      p[UN_COLL_SUPPLY_ACCOUNT],
      UnpackDecimal(p[L_TOKEN_MINING_INDEX]),
      UnpackDecimal(p[BORROW_MINING_INDEX]),
      LeU64(p[TOTAL_MINING_SPEED]),
      LeU64(p[SUPPLY_RATE]))
  }

  /** The `Ok(Self { .. })` of `unpack_from_slice` once the receivers are collected: it
      fails exactly when one of the seven booleans is neither 0 nor 1, and otherwise
      returns the reserve whose fields the parts store. */
  function AssembleReserve(p: seq<seq<Byte>>, receivers: seq<Pubkey>): (r: Result<Reserve>)
    requires IsReserveSplit(Widths(p))
    requires |receivers| == p[CONFIG_FEES_HOST_FEE_RECEIVER_COUNT][0]
    ensures r.Ok? <==> BoolBytesValid(p)
    ensures r.Err? ==> r.error == InvalidAccountData
    ensures r.Ok? ==> StoresFields(p, r.value) && r.value.config.fees.hostFeeReceivers == receivers
  {
    var stale :- UnpackBool(p[LAST_UPDATE_STALE][0]);
    var liquidity :- LiquidityFromParts(p);
    var config :- ConfigFromParts(p, receivers);
    var reentryLock :- UnpackBool(p[REENTRY_LOCK][0]);
    Ok(Reserve(
      p[VERSION][0],
      LastUpdate(LeU64(p[LAST_UPDATE_SLOT]), stale),
      p[LENDING_MARKET],
      liquidity,
      CollateralFromParts(p),
      config,
      BonusFromParts(p),
      reentryLock))
  }

  /** The body of `unpack_from_slice`, as written, once `array_refs!` has split the
      input into `p`: the version gate first, then the receiver loop, which reads slot 0
      of the slab on every round because its `offset` is never advanced, then the
      booleans. */
  function ReserveFromParts(p: seq<seq<Byte>>): (r: Result<Reserve>)
    requires IsReserveSplit(Widths(p))
    ensures r.Ok? <==> p[VERSION][0] <= PROGRAM_VERSION && BoolBytesValid(p)
    ensures r.Err? ==> r.error == InvalidAccountData
    ensures r.Ok? ==>
      && StoresFields(p, r.value)
      && r.value.config.fees.hostFeeReceivers
           == Repeat(p[CONFIG_FEES_HOST_FEE_RECEIVERS][..PUBKEY_BYTES], p[CONFIG_FEES_HOST_FEE_RECEIVER_COUNT][0])
  {
    if p[VERSION][0] > PROGRAM_VERSION then
      Err(InvalidAccountData)
    else
      var count := p[CONFIG_FEES_HOST_FEE_RECEIVER_COUNT][0];
      AssembleReserve(p, Repeat(p[CONFIG_FEES_HOST_FEE_RECEIVERS][..PUBKEY_BYTES], count))
  }

  /** The same body as evidently intended: receiver `i` read from slot `i`. A count
      above the five slots the slab holds runs `array_ref!` past the slab's end, a
      panic. */
  function ReserveFromPartsCorrected(p: seq<seq<Byte>>): (r: Result<Reserve>)
    requires IsReserveSplit(Widths(p))
    ensures r.Ok? <==>
      && p[VERSION][0] <= PROGRAM_VERSION
      && p[CONFIG_FEES_HOST_FEE_RECEIVER_COUNT][0] <= HOST_FEE_RECEIVER_COUNT
      && BoolBytesValid(p)
    ensures r.Err? ==> (r.error == if p[VERSION][0] <= PROGRAM_VERSION
                                      && p[CONFIG_FEES_HOST_FEE_RECEIVER_COUNT][0] > HOST_FEE_RECEIVER_COUNT
                                   then SliceOutOfBounds else InvalidAccountData)
    ensures r.Ok? ==> StoresReserve(p, r.value)
  {
    var count := p[CONFIG_FEES_HOST_FEE_RECEIVER_COUNT][0];
    if p[VERSION][0] > PROGRAM_VERSION then
      Err(InvalidAccountData)
    else if count > HOST_FEE_RECEIVER_COUNT then
      Err(SliceOutOfBounds)
    else
      var keys := Slots(p[CONFIG_FEES_HOST_FEE_RECEIVERS], count);
      SlotsStored(p[CONFIG_FEES_HOST_FEE_RECEIVERS], count);
      AssembleReserve(p, keys)
  }

  /** `unpack_from_slice` as written, on the whole input. */
  function DecodeReserve(input: seq<Byte>): (r: Result<Reserve>)
    requires |input| >= RESERVE_LEN
    ensures r.Ok? ==> r.value.version == input[0] <= PROGRAM_VERSION
    ensures r.Err? ==> r.error == InvalidAccountData
  {
    ReserveSplit();
    WidthsOfParts(input, RESERVE_WIDTHS);
    ReserveFromParts(Parts(input, RESERVE_WIDTHS))
  }

  /** `unpack_from_slice` as evidently intended, on the whole input. */
  function DecodeReserveCorrected(input: seq<Byte>): (r: Result<Reserve>)
    requires |input| >= RESERVE_LEN
    ensures r.Ok? ==> r.value.version == input[0] <= PROGRAM_VERSION
    ensures r.Ok? ==> |r.value.config.fees.hostFeeReceivers| <= HOST_FEE_RECEIVER_COUNT
  {
    ReserveSplit();
    WidthsOfParts(input, RESERVE_WIDTHS);
    ReserveFromPartsCorrected(Parts(input, RESERVE_WIDTHS))
  }

  /** The slots read back are stored in the slab. */
  lemma {:induction false} SlotsStored(slab: seq<Byte>, n: nat)
    requires PUBKEY_BYTES * n <= |slab|
    ensures StoresReceivers(slab, Slots(slab, n))
  {
    if n > 0 {
      SlotsStored(slab, n - 1);
      var keys := Slots(slab, n);
      assert keys[..n - 1] == Slots(slab, n - 1);
      assert slab[..PUBKEY_BYTES * n]
        == slab[..PUBKEY_BYTES * (n - 1)] + slab[PUBKEY_BYTES * (n - 1) .. PUBKEY_BYTES * n];
    }
  }

  /** `unpack_from_slice` with its receiver loop, as written: `offset` starts at 0 and is
      never advanced, so every round pushes the key in slot 0. */
  method UnpackReserve(input: seq<Byte>) returns (r: Result<Reserve>)
    requires |input| >= RESERVE_LEN
    ensures r == DecodeReserve(input)
  {
    ReserveSplit();
    WidthsOfParts(input, RESERVE_WIDTHS);
    var p := Parts(input, RESERVE_WIDTHS);
    var version := p[VERSION][0];
    if version > PROGRAM_VERSION {
      return Err(InvalidAccountData);
    }
    var count := p[CONFIG_FEES_HOST_FEE_RECEIVER_COUNT][0];
    var slab := p[CONFIG_FEES_HOST_FEE_RECEIVERS];
    var receivers: seq<Pubkey> := [];
    var offset := 0;
    for i := 0 to count
      invariant receivers == Repeat(slab[offset .. offset + PUBKEY_BYTES], i)
    {
      receivers := receivers + [slab[offset .. offset + PUBKEY_BYTES]];
    }
    r := AssembleReserve(p, receivers);
  }

  /** The receiver loop as evidently intended: `offset` advances by a key per round, and
      a round whose slot does not fit in the slab is the panic of `array_ref!`. */
  method UnpackReserveCorrected(input: seq<Byte>) returns (r: Result<Reserve>)
    requires |input| >= RESERVE_LEN
    ensures r == DecodeReserveCorrected(input)
  {
    ReserveSplit();
    WidthsOfParts(input, RESERVE_WIDTHS);
    var p := Parts(input, RESERVE_WIDTHS);
    var version := p[VERSION][0];
    if version > PROGRAM_VERSION {
      return Err(InvalidAccountData);
    }
    var count := p[CONFIG_FEES_HOST_FEE_RECEIVER_COUNT][0];
    var receivers := ReadSlots(p[CONFIG_FEES_HOST_FEE_RECEIVERS], count);
    if receivers.Err? {
      return Err(SliceOutOfBounds);
    }
    r := AssembleReserve(p, receivers.value);
  }

  /** The corrected receiver loop alone: `offset` advances by a key per round, and a
      round whose slot runs past the slab is the panic of `array_ref!`. */
  method ReadSlots(slab: seq<Byte>, count: nat) returns (r: Result<seq<Pubkey>>)
    ensures r.Ok? <==> PUBKEY_BYTES * count <= |slab|
    ensures r.Ok? ==> r.value == Slots(slab, count)
    ensures r.Err? ==> r.error == SliceOutOfBounds
  {
    var receivers: seq<Pubkey> := [];
    var offset := 0;
    for i := 0 to count
      invariant offset == PUBKEY_BYTES * i <= |slab|
      invariant receivers == Slots(slab, i)
    {
      if offset + PUBKEY_BYTES > |slab| {
        return Err(SliceOutOfBounds);
      }
      receivers := receivers + [slab[offset .. offset + PUBKEY_BYTES]];
      offset := offset + PUBKEY_BYTES;
    }
    return Ok(receivers);
  }

  /** `r` with its host-fee receivers replaced by `keys`. */
  function WithReceivers(r: Reserve, keys: seq<Pubkey>): Reserve {
    r.(config := r.config.(fees := r.config.fees.(hostFeeReceivers := keys)))
  }

  /** What the as-written loop makes of a list of receivers: as many copies of the
      first one. */
  function Collapsed(keys: seq<Pubkey>): (c: seq<Pubkey>)
    ensures |c| == |keys| && (forall i :: 0 <= i < |c| ==> c[i] == keys[0])
  {
    if keys == [] then [] else Repeat(keys[0], |keys|)
  }

  /** The first key of a list starts its bytes. */
  lemma {:induction false} KeysBytesHead(keys: seq<Pubkey>)
    requires keys != []
    ensures KeysBytes(keys)[..PUBKEY_BYTES] == keys[0]
  {
    var init := keys[..|keys| - 1];
    if init != [] {
      KeysBytesHead(init);
      assert KeysBytes(init)[..PUBKEY_BYTES] == (KeysBytes(init) + keys[|keys| - 1])[..PUBKEY_BYTES];
    }
  }

  /** Reading the slots of a slab that stores `keys` gives back `keys`. */
  lemma {:induction false} SlotsOfKeys(slab: seq<Byte>, keys: seq<Pubkey>)
    requires StoresReceivers(slab, keys)
    ensures Slots(slab, |keys|) == keys
  {
    var n := |keys|;
    if n > 0 {
      var init := keys[..n - 1];
      var m := PUBKEY_BYTES * (n - 1);
      assert slab[..PUBKEY_BYTES * n] == KeysBytes(init) + keys[n - 1];
      assert slab[..m] == slab[..PUBKEY_BYTES * n][..m];
      SlotsOfKeys(slab, init);
      assert slab[m .. PUBKEY_BYTES * n] == slab[..PUBKEY_BYTES * n][m..];
    }
  }

  /** Parts that store a reserve's booleans hold valid boolean bytes. */
  lemma {:induction false} StoredBoolsValid(p: seq<seq<Byte>>, r: Reserve)
    requires IsReserveSplit(Widths(p)) && StoresFields(p, r)
    ensures BoolBytesValid(p)
  {
  }

  /** The parts determine the reserve they store, the receivers aside. */
  lemma {:induction false} FieldsDetermine(p: seq<seq<Byte>>, a: Reserve, b: Reserve)
    requires |p| == RESERVE_PARTS && StoresFields(p, a) && StoresFields(p, b)
    requires a.config.fees.hostFeeReceivers == b.config.fees.hostFeeReceivers
    ensures a == b
  {
    assert a.liquidity == b.liquidity;
    assert a.config == b.config;
    assert a.bonus == b.bonus;
  }

  /** Decoding parts that store `r` through the corrected loop gives back `r`. */
  lemma {:induction false} CorrectedPartsRoundTrip(p: seq<seq<Byte>>, r: Reserve)
    requires IsReserveSplit(Widths(p)) && StoresReserve(p, r)
    requires r.version <= PROGRAM_VERSION
    requires |r.config.fees.hostFeeReceivers| <= HOST_FEE_RECEIVER_COUNT
    ensures ReserveFromPartsCorrected(p) == Ok(r)
  {
    StoredBoolsValid(p, r);
    SlotsOfKeys(p[CONFIG_FEES_HOST_FEE_RECEIVERS], r.config.fees.hostFeeReceivers);
    FieldsDetermine(p, ReserveFromPartsCorrected(p).value, r);
  }

  /** Decoding parts that store `r` through the loop as written gives back `r` with
      every receiver replaced by the first one. */
  lemma {:induction false} PartsRoundTrip(p: seq<seq<Byte>>, r: Reserve)
    requires IsReserveSplit(Widths(p)) && StoresReserve(p, r)
    requires r.version <= PROGRAM_VERSION
    ensures ReserveFromParts(p) == Ok(WithReceivers(r, Collapsed(r.config.fees.hostFeeReceivers)))
  {
    var keys := r.config.fees.hostFeeReceivers;
    var slab := p[CONFIG_FEES_HOST_FEE_RECEIVERS];
    StoredBoolsValid(p, r);
    var collapsed := Repeat(slab[..PUBKEY_BYTES], |keys|);
    if keys != [] {
      KeysBytesHead(keys);
      assert slab[..PUBKEY_BYTES] == slab[..PUBKEY_BYTES * |keys|][..PUBKEY_BYTES];
    }
    assert collapsed == Collapsed(keys);
    FieldsDetermine(p, ReserveFromParts(p).value, WithReceivers(r, collapsed));
  }

  /** Decoding a buffer that stores `r` gives back `r` through the corrected loop and `r`
      with its receivers collapsed onto the first through the loop as written, whatever
      the padding and the unused receiver slots hold. */
  lemma {:induction false} ReserveRoundTrip(r: Reserve, s: seq<Byte>)
    requires |s| >= RESERVE_LEN && StoresReserve(Parts(s, RESERVE_WIDTHS), r)
    requires r.version <= PROGRAM_VERSION
    requires |r.config.fees.hostFeeReceivers| <= HOST_FEE_RECEIVER_COUNT
    ensures DecodeReserveCorrected(s) == Ok(r)
    ensures DecodeReserve(s) == Ok(WithReceivers(r, Collapsed(r.config.fees.hostFeeReceivers)))
  {
    ReserveSplit();
    WidthsOfParts(s, RESERVE_WIDTHS);
    CorrectedPartsRoundTrip(Parts(s, RESERVE_WIDTHS), r);
    PartsRoundTrip(Parts(s, RESERVE_WIDTHS), r);
  }

  /** The defect of the loop as written: a reserve with two different receivers does not
      survive an encode/decode round trip, while it does through the corrected loop. */
  lemma {:induction false} ReceiversLost(r: Reserve, s: seq<Byte>)
    requires |s| >= RESERVE_LEN && StoresReserve(Parts(s, RESERVE_WIDTHS), r)
    requires r.version <= PROGRAM_VERSION
    requires 2 <= |r.config.fees.hostFeeReceivers| <= HOST_FEE_RECEIVER_COUNT
    requires r.config.fees.hostFeeReceivers[0] != r.config.fees.hostFeeReceivers[1]
    ensures DecodeReserve(s) != Ok(r)
    ensures DecodeReserveCorrected(s) == Ok(r)
  {
    ReserveRoundTrip(r, s);
    var keys := r.config.fees.hostFeeReceivers;
    assert Collapsed(keys)[1] != keys[1];
  }

  /** The loop as written is harmless when every receiver is the same key (in
      particular with at most one receiver): the round trip then gives back `r`. */
  lemma {:induction false} SameReceiversRoundTrip(r: Reserve, s: seq<Byte>)
    requires |s| >= RESERVE_LEN && StoresReserve(Parts(s, RESERVE_WIDTHS), r)
    requires r.version <= PROGRAM_VERSION
    requires |r.config.fees.hostFeeReceivers| <= HOST_FEE_RECEIVER_COUNT
    requires forall i | 0 <= i < |r.config.fees.hostFeeReceivers| ::
      r.config.fees.hostFeeReceivers[i] == r.config.fees.hostFeeReceivers[0]
    ensures DecodeReserve(s) == Ok(r)
  {
    ReserveRoundTrip(r, s);
    var keys := r.config.fees.hostFeeReceivers;
    assert Collapsed(keys) == keys;
    assert WithReceivers(r, keys) == r;
  }

  /** Zero-filled parts store the default reserve. */
  lemma {:induction false} ZeroPartsStore(p: seq<seq<Byte>>)
    requires IsReserveSplit(Widths(p))
    requires forall k | 0 <= k < |p| :: p[k] == Zeros(|p[k]|)
    ensures StoresReserve(p, DEFAULT_RESERVE)
  {
    ZeroLiquidityStore(p);
    ZeroConfigStore(p);
    ZeroOtherStore(p);
    NoReceiversStored(p[CONFIG_FEES_HOST_FEE_RECEIVERS]);
  }

  /** Zero-filled parts store the default header, collateral, bonus, unclaimed fees
      and lock. */
  lemma {:induction false} ZeroOtherStore(p: seq<seq<Byte>>)
    requires IsReserveSplit(Widths(p))
    requires forall k | 0 <= k < |p| :: p[k] == Zeros(|p[k]|)
    ensures StoresHeader(p, DEFAULT_RESERVE) && StoresCollateral(p, DEFAULT_RESERVE.collateral)
    ensures StoresBonus(p, DEFAULT_RESERVE.bonus)
    ensures StoresDecimal(p[OWNER_UNCLAIMED], DEFAULT_RESERVE.liquidity.ownerUnclaimed)
    ensures p[REENTRY_LOCK] == [BoolByte(DEFAULT_RESERVE.reentryLock)]
  {
    ZeroBytes();
  }

  /** Every slab stores the default reserve's empty receiver list. */
  lemma {:induction false} NoReceiversStored(slab: seq<Byte>)
    ensures StoresReceivers(slab, DEFAULT_RESERVE.config.fees.hostFeeReceivers)
  {
    assert slab[..0] == KeysBytes([]);
  }

  /** Zero-filled parts store the default liquidity. */
  lemma {:induction false} ZeroLiquidityStore(p: seq<seq<Byte>>)
    requires IsReserveSplit(Widths(p))
    requires forall k | 0 <= k < |p| :: p[k] == Zeros(|p[k]|)
    ensures StoresLiquidity(p, DEFAULT_RESERVE.liquidity)
  {
    ZeroBytes();
  }

  /** Zero-filled parts store the default config. */
  lemma {:induction false} ZeroConfigStore(p: seq<seq<Byte>>)
    requires IsReserveSplit(Widths(p))
    requires forall k | 0 <= k < |p| :: p[k] == Zeros(|p[k]|)
    ensures StoresConfig(p, DEFAULT_RESERVE.config)
  {
    ZeroBytes();
  }

  /** A zero-filled buffer stores the default reserve. */
  lemma {:induction false} ZeroedStores()
    ensures StoresReserve(Parts(Zeros(RESERVE_LEN), RESERVE_WIDTHS), DEFAULT_RESERVE)
  {
    ReserveSplit();
    var p := Parts(Zeros(RESERVE_LEN), RESERVE_WIDTHS);
    PartsOfZeros(RESERVE_LEN, RESERVE_WIDTHS);
    WidthsOfParts(Zeros(RESERVE_LEN), RESERVE_WIDTHS);
    ZeroPartsStore(p);
  }

  /** A freshly created, zero-filled account decodes, either way, to the default
      reserve, which has no receivers and is not initialized. */
  lemma {:induction false} ZeroedReserve()
    ensures DecodeReserve(Zeros(RESERVE_LEN)) == Ok(DEFAULT_RESERVE)
    ensures DecodeReserveCorrected(Zeros(RESERVE_LEN)) == Ok(DEFAULT_RESERVE)
    ensures !IsInitialized(DEFAULT_RESERVE)
  {
    ReserveLayout();
    ZeroedStores();
    ReserveRoundTrip(DEFAULT_RESERVE, Zeros(RESERVE_LEN));
    assert WithReceivers(DEFAULT_RESERVE, Collapsed([])) == DEFAULT_RESERVE;
  }
}
