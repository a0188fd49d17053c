/** The obligation record and its 1092-byte codec (src/state/obligation.rs). */
module Obligation {
  import opened Bytes
  import opened Wrappers
  import opened State

  /** Most collateral and liquidity entries an obligation holds, together. */
  const MAX_OBLIGATION_RESERVES: nat := 10

  /** Entries an obligation is allowed to hold, together. */
  const ALLOWED_OBLIGATION_RESERVES: nat := 10

  /** The bytes of one deposit entry: reserve, amount, market value, mining index. */
  const OBLIGATION_COLLATERAL_LEN: nat := 72

  /** The bytes of one borrow entry: reserve, cumulative rate, amount, market value,
      mining index. */
  const OBLIGATION_LIQUIDITY_LEN: nat := 96

  /** One deposit of collateral. */
  datatype ObligationCollateral = ObligationCollateral(
    index: Decimal,
    depositReserve: Pubkey,
    depositedAmount: U64,
    marketValue: Decimal)

  /** One borrow of liquidity. */
  datatype ObligationLiquidity = ObligationLiquidity(
    index: Decimal,
    borrowReserve: Pubkey,
    cumulativeBorrowRateWads: Decimal,
    borrowedAmountWads: Decimal,
    marketValue: Decimal)

  datatype Obligation = Obligation(
    version: U8,
    lastUpdate: LastUpdate,
    lendingMarket: Pubkey,
    owner: Pubkey,
    deposits: seq<ObligationCollateral>,
    borrows: seq<ObligationLiquidity>,
    depositedValue: Decimal,
    borrowedValue: Decimal,
    allowedBorrowValue: Decimal,
    unhealthyBorrowValue: Decimal,
    unclaimedMine: Decimal)

  datatype InitObligationParams = InitObligationParams(
    currentSlot: U64,
    lendingMarket: Pubkey,
    owner: Pubkey,
    deposits: seq<ObligationCollateral>,
    borrows: seq<ObligationLiquidity>)

  /** `Obligation::default()`: every field zero, no entries. */
  const DEFAULT_OBLIGATION := Obligation(0, LastUpdate(0, false), DEFAULT_PUBKEY,
    DEFAULT_PUBKEY, [], [], DECIMAL_ZERO, DECIMAL_ZERO, DECIMAL_ZERO, DECIMAL_ZERO,
    DECIMAL_ZERO)

  /** `is_initialized`. */
  predicate IsInitialized(o: Obligation) {
    o.version != UNINITIALIZED_VERSION
  }

  /** `init`: stamps the program version and takes the last update, the market, the
      owner and the entries from the parameters; the value aggregates and the unclaimed
      mine keep whatever `o` held. `LastUpdate::new` is not part of this model, so what
      it makes of `params.currentSlot` is the parameter `lastUpdate`. */
  method InitObligation(o: Obligation, params: InitObligationParams, lastUpdate: LastUpdate)
    returns (r: Obligation)
    ensures r.version == PROGRAM_VERSION && IsInitialized(r)
    ensures r.lastUpdate == lastUpdate
    ensures r.lendingMarket == params.lendingMarket && r.owner == params.owner
    ensures r.deposits == params.deposits && r.borrows == params.borrows
    ensures r.depositedValue == o.depositedValue && r.borrowedValue == o.borrowedValue
    ensures r.allowedBorrowValue == o.allowedBorrowValue
    ensures r.unhealthyBorrowValue == o.unhealthyBorrowValue
    ensures r.unclaimedMine == o.unclaimedMine
  {
    r := o;
    r := r.(version := PROGRAM_VERSION);
    r := r.(lastUpdate := lastUpdate);
    r := r.(lendingMarket := params.lendingMarket);
    r := r.(owner := params.owner);
    r := r.(deposits := params.deposits);
    r := r.(borrows := params.borrows);
  }

  /** `new`: `init` applied to the default obligation, so the aggregates and the
      unclaimed mine are zero. */
  method NewObligation(params: InitObligationParams, lastUpdate: LastUpdate) returns (r: Obligation)
    ensures IsInitialized(r) && r.lastUpdate == lastUpdate
    ensures r.lendingMarket == params.lendingMarket && r.owner == params.owner
    ensures r.deposits == params.deposits && r.borrows == params.borrows
    ensures r.depositedValue == DECIMAL_ZERO && r.borrowedValue == DECIMAL_ZERO
    ensures r.allowedBorrowValue == DECIMAL_ZERO && r.unhealthyBorrowValue == DECIMAL_ZERO
    ensures r.unclaimedMine == DECIMAL_ZERO
  {
    r := InitObligation(DEFAULT_OBLIGATION, params, lastUpdate);
  }

  /** The size of the entry slab: one deposit and nine borrows. */
  const DATA_FLAT_LEN: nat :=
    OBLIGATION_COLLATERAL_LEN + OBLIGATION_LIQUIDITY_LEN * (MAX_OBLIGATION_RESERVES - 1)

  /** The widths `pack_into_slice` and `unpack_from_slice` hand to `mut_array_refs!` /
      `array_refs!`, in order; the constants below name the parts. */
  const OBLIGATION_WIDTHS: seq<nat> := [1, 8, 1, PUBKEY_BYTES, PUBKEY_BYTES, 16, 16, 16, 16,
    1, 1, 16, DATA_FLAT_LEN]

  /** The record's size, the sum of the part widths; `ObligationLayout` shows that it
      is the 1092 bytes the source states. */
  const OBLIGATION_LEN: nat := Sum(OBLIGATION_WIDTHS)

  const VERSION: nat := 0
  const LAST_UPDATE_SLOT: nat := 1
  const LAST_UPDATE_STALE: nat := 2
  const LENDING_MARKET: nat := 3
  const OWNER: nat := 4
  const DEPOSITED_VALUE: nat := 5
  const BORROWED_VALUE: nat := 6
  const ALLOWED_BORROW_VALUE: nat := 7
  const UNHEALTHY_BORROW_VALUE: nat := 8
  const DEPOSITS_LEN: nat := 9
  const BORROWS_LEN: nat := 10
  const UNCLAIMED_MINE: nat := 11
  const DATA_FLAT: nat := 12

  /** The offset of every header field, the slab's place and size, and the total. */
  lemma {:induction false} ObligationLayout()
    ensures Offset(OBLIGATION_WIDTHS, LAST_UPDATE_SLOT) == 1
    ensures Offset(OBLIGATION_WIDTHS, LAST_UPDATE_STALE) == 9
    ensures Offset(OBLIGATION_WIDTHS, LENDING_MARKET) == 10
    ensures Offset(OBLIGATION_WIDTHS, OWNER) == 42
    ensures Offset(OBLIGATION_WIDTHS, DEPOSITED_VALUE) == 74
    ensures Offset(OBLIGATION_WIDTHS, BORROWED_VALUE) == 90
    ensures Offset(OBLIGATION_WIDTHS, ALLOWED_BORROW_VALUE) == 106
    ensures Offset(OBLIGATION_WIDTHS, UNHEALTHY_BORROW_VALUE) == 122
    ensures Offset(OBLIGATION_WIDTHS, DEPOSITS_LEN) == 138
    ensures Offset(OBLIGATION_WIDTHS, BORROWS_LEN) == 139
    ensures Offset(OBLIGATION_WIDTHS, UNCLAIMED_MINE) == 140
    ensures Offset(OBLIGATION_WIDTHS, DATA_FLAT) == 156
    ensures DATA_FLAT_LEN == 936
    ensures OBLIGATION_LEN == 1092
  {
    var ws := OBLIGATION_WIDTHS;
    assert Offset(ws, 0) == 0;
    OffsetNext(ws, 0);
    OffsetNext(ws, 1);
    OffsetNext(ws, 2);
    OffsetNext(ws, 3);
    OffsetNext(ws, 4);
    OffsetNext(ws, 5);
    OffsetNext(ws, 6);
    OffsetNext(ws, 7);
    OffsetNext(ws, 8);
    OffsetNext(ws, 9);
    OffsetNext(ws, 10);
    OffsetNext(ws, 11);
    OffsetNext(ws, 12);
  }

  /** True when `ws` has the widths `OBLIGATION_WIDTHS` has, stated part by part. */
  predicate IsObligationSplit(ws: seq<nat>) {
    && |ws| == |OBLIGATION_WIDTHS|
    && ws[VERSION] == 1 && ws[LAST_UPDATE_SLOT] == 8 && ws[LAST_UPDATE_STALE] == 1
    && ws[LENDING_MARKET] == PUBKEY_BYTES && ws[OWNER] == PUBKEY_BYTES
    && ws[DEPOSITED_VALUE] == 16 && ws[BORROWED_VALUE] == 16
    && ws[ALLOWED_BORROW_VALUE] == 16 && ws[UNHEALTHY_BORROW_VALUE] == 16
    && ws[DEPOSITS_LEN] == 1 && ws[BORROWS_LEN] == 1
    && ws[UNCLAIMED_MINE] == 16 && ws[DATA_FLAT] == DATA_FLAT_LEN
  }

  /** `OBLIGATION_WIDTHS` is that split. */
  lemma {:induction false} ObligationSplit()
    ensures IsObligationSplit(OBLIGATION_WIDTHS)
  {
  }

  // Entries

  /** True when both decimals of a deposit fit in a `u128`. */
  predicate CollateralFits(c: ObligationCollateral) {
    FitsU128(c.marketValue) && FitsU128(c.index)
  }

  /** True when the four decimals of a borrow fit in a `u128`. */
  predicate LiquidityFits(l: ObligationLiquidity) {
    && FitsU128(l.cumulativeBorrowRateWads) && FitsU128(l.borrowedAmountWads)
    && FitsU128(l.marketValue) && FitsU128(l.index)
  }

  /** The 72 bytes one deposit occupies, its `mut_array_refs!` parts 32, 8, 16 and 16
      laid end to end. */
  function CollateralBytes(c: ObligationCollateral): (b: seq<Byte>)
    requires CollateralFits(c)
    ensures |b| == OBLIGATION_COLLATERAL_LEN
  {
    c.depositReserve + U64Bytes(c.depositedAmount) + DecimalBytes(c.marketValue)
      + DecimalBytes(c.index)
  }

  /** The 96 bytes one borrow occupies, its parts 32, 16, 16, 16 and 16 end to end. */
  function LiquidityBytes(l: ObligationLiquidity): (b: seq<Byte>)
    requires LiquidityFits(l)
    ensures |b| == OBLIGATION_LIQUIDITY_LEN
  {
    l.borrowReserve + DecimalBytes(l.cumulativeBorrowRateWads)
      + DecimalBytes(l.borrowedAmountWads) + DecimalBytes(l.marketValue)
      + DecimalBytes(l.index)
  }

  /** The deposit the decoder's `array_refs!` reads from a 72-byte window; total. */
  function CollateralFromBytes(b: seq<Byte>): (c: ObligationCollateral)
    requires |b| == OBLIGATION_COLLATERAL_LEN
    ensures CollateralFits(c)
  {
    ObligationCollateral(
      UnpackDecimal(b[56..72]),
      b[0..32],
      LeU64(b[32..40]),
      UnpackDecimal(b[40..56]))
  }

  /** The borrow the decoder reads from a 96-byte window; total. */
  function LiquidityFromBytes(b: seq<Byte>): (l: ObligationLiquidity)
    requires |b| == OBLIGATION_LIQUIDITY_LEN
    ensures LiquidityFits(l)
  {
    ObligationLiquidity(
      UnpackDecimal(b[80..96]),
      b[0..32],
      UnpackDecimal(b[32..48]),
      UnpackDecimal(b[48..64]),
      UnpackDecimal(b[64..80]))
  }

  /** Every 72-byte window stores the deposit read from it. */
  lemma {:induction false} CollateralStored(b: seq<Byte>)
    requires |b| == OBLIGATION_COLLATERAL_LEN
    ensures CollateralBytes(CollateralFromBytes(b)) == b
  {
    assert b == b[0..32] + b[32..40] + b[40..56] + b[56..72];
  }

  /** Every 96-byte window stores the borrow read from it. */
  lemma {:induction false} LiquidityStored(b: seq<Byte>)
    requires |b| == OBLIGATION_LIQUIDITY_LEN
    ensures LiquidityBytes(LiquidityFromBytes(b)) == b
  {
    assert b == b[0..32] + b[32..48] + b[48..64] + b[64..80] + b[80..96];
  }

  /** Decoding the bytes of a deposit gives it back. */
  lemma {:induction false} CollateralRoundTrip(c: ObligationCollateral)
    requires CollateralFits(c)
    ensures CollateralFromBytes(CollateralBytes(c)) == c
  {
    ConcatWindows4(c.depositReserve, U64Bytes(c.depositedAmount), DecimalBytes(c.marketValue),
      DecimalBytes(c.index));
    DecimalRoundTrip(c.index);
    DecimalRoundTrip(c.marketValue);
  }

  /** Decoding the bytes of a borrow gives it back. */
  lemma {:induction false} LiquidityRoundTrip(l: ObligationLiquidity)
    requires LiquidityFits(l)
    ensures LiquidityFromBytes(LiquidityBytes(l)) == l
  {
    ConcatWindows5(l.borrowReserve, DecimalBytes(l.cumulativeBorrowRateWads),
      DecimalBytes(l.borrowedAmountWads), DecimalBytes(l.marketValue), DecimalBytes(l.index));
    DecimalRoundTrip(l.index);
    DecimalRoundTrip(l.marketValue);
    DecimalRoundTrip(l.borrowedAmountWads);
    DecimalRoundTrip(l.cumulativeBorrowRateWads);
  }

  predicate DepositsFit(ds: seq<ObligationCollateral>) {
    forall i :: 0 <= i < |ds| ==> CollateralFits(ds[i])
  }

  predicate BorrowsFit(bs: seq<ObligationLiquidity>) {
    forall i :: 0 <= i < |bs| ==> LiquidityFits(bs[i])
  }

  /** The deposits laid end to end. */
  function DepositsBytes(ds: seq<ObligationCollateral>): (b: seq<Byte>)
    requires DepositsFit(ds)
    ensures |b| == OBLIGATION_COLLATERAL_LEN * |ds|
  {
    if ds == [] then [] else DepositsBytes(ds[..|ds| - 1]) + CollateralBytes(ds[|ds| - 1])
  }

  /** The borrows laid end to end. */
  function BorrowsBytes(bs: seq<ObligationLiquidity>): (b: seq<Byte>)
    requires BorrowsFit(bs)
    ensures |b| == OBLIGATION_LIQUIDITY_LEN * |bs|
  {
    if bs == [] then [] else BorrowsBytes(bs[..|bs| - 1]) + LiquidityBytes(bs[|bs| - 1])
  }

  /** The slab bytes `d` deposits and `b` borrows occupy. */
  function EntriesLen(d: nat, b: nat): nat {
    OBLIGATION_COLLATERAL_LEN * d + OBLIGATION_LIQUIDITY_LEN * b
  }

  /** The first `n` deposits of a slab, deposit `i` at byte `72 * i`. */
  function DepositsAt(slab: seq<Byte>, n: nat): (ds: seq<ObligationCollateral>)
    requires OBLIGATION_COLLATERAL_LEN * n <= |slab|
    ensures |ds| == n
  {
    if n == 0 then []
    else
      DepositsAt(slab, n - 1) + [CollateralFromBytes(slab[OBLIGATION_COLLATERAL_LEN * (n - 1) .. OBLIGATION_COLLATERAL_LEN * n])]
  }

  /** The first `n` borrows of a slab, borrow `j` at byte `96 * j`; the decoder reads
      them from the slab past the deposits. */
  function BorrowsAt(slab: seq<Byte>, n: nat): (bs: seq<ObligationLiquidity>)
    requires OBLIGATION_LIQUIDITY_LEN * n <= |slab|
    ensures |bs| == n
  {
    if n == 0 then []
    else
      BorrowsAt(slab, n - 1) + [LiquidityFromBytes(slab[OBLIGATION_LIQUIDITY_LEN * (n - 1) .. OBLIGATION_LIQUIDITY_LEN * n])]
  }

  /** The deposits of their prefix fit when all of them do. */
  lemma {:induction false} DepositsPrefixFit(ds: seq<ObligationCollateral>, i: nat)
    requires i <= |ds| && DepositsFit(ds)
    ensures DepositsFit(ds[..i])
  {
    assert forall k | 0 <= k < i :: ds[..i][k] == ds[k];
  }

  /** The borrows of their prefix fit when all of them do. */
  lemma {:induction false} BorrowsPrefixFit(bs: seq<ObligationLiquidity>, j: nat)
    requires j <= |bs| && BorrowsFit(bs)
    ensures BorrowsFit(bs[..j])
  {
    assert forall k | 0 <= k < j :: bs[..j][k] == bs[k];
  }

  /** One more deposit read from the slab is pushed at the end. */
  lemma {:induction false} DepositsAtNext(slab: seq<Byte>, i: nat)
    requires OBLIGATION_COLLATERAL_LEN * (i + 1) <= |slab|
    ensures DepositsAt(slab, i + 1) == DepositsAt(slab, i)
      + [CollateralFromBytes(slab[OBLIGATION_COLLATERAL_LEN * i .. OBLIGATION_COLLATERAL_LEN * i + OBLIGATION_COLLATERAL_LEN])]
  {
  }

  /** One more borrow read from the slab is pushed at the end. */
  lemma {:induction false} BorrowsAtNext(slab: seq<Byte>, j: nat)
    requires OBLIGATION_LIQUIDITY_LEN * (j + 1) <= |slab|
    ensures BorrowsAt(slab, j + 1) == BorrowsAt(slab, j)
      + [LiquidityFromBytes(slab[OBLIGATION_LIQUIDITY_LEN * j .. OBLIGATION_LIQUIDITY_LEN * j + OBLIGATION_LIQUIDITY_LEN])]
  {
  }

  /** The deposits read from a slab are stored there. */
  lemma {:induction false} DepositsAtStored(slab: seq<Byte>, n: nat)
    requires OBLIGATION_COLLATERAL_LEN * n <= |slab|
    ensures DepositsFit(DepositsAt(slab, n))
    ensures DepositsBytes(DepositsAt(slab, n)) == slab[..OBLIGATION_COLLATERAL_LEN * n]
  {
    if n > 0 {
      var prev := DepositsAt(slab, n - 1);
      var window := slab[OBLIGATION_COLLATERAL_LEN * (n - 1) .. OBLIGATION_COLLATERAL_LEN * n];
      DepositsAtStored(slab, n - 1);
      CollateralStored(window);
      DepositsPush(slab, n, prev, CollateralFromBytes(window));
    }
  }

  /** A deposit stored right after the bytes of `prev` extends them. */
  lemma {:induction false} DepositsPush(slab: seq<Byte>, n: nat, prev: seq<ObligationCollateral>, c: ObligationCollateral)
    requires 0 < n && OBLIGATION_COLLATERAL_LEN * n <= |slab| && |prev| == n - 1
    requires DepositsFit(prev) && DepositsBytes(prev) == slab[..OBLIGATION_COLLATERAL_LEN * (n - 1)]
    requires CollateralFits(c) && CollateralBytes(c) == slab[OBLIGATION_COLLATERAL_LEN * (n - 1) .. OBLIGATION_COLLATERAL_LEN * n]
    ensures DepositsFit(prev + [c])
    ensures DepositsBytes(prev + [c]) == slab[..OBLIGATION_COLLATERAL_LEN * n]
  {
    DepositsAppend(prev, c);
    PrefixJoin(slab, DepositsBytes(prev), CollateralBytes(c));
  }

  /** Appending a deposit appends its 72 bytes. */
  lemma {:induction false} DepositsAppend(prev: seq<ObligationCollateral>, c: ObligationCollateral)
    requires DepositsFit(prev) && CollateralFits(c)
    ensures DepositsFit(prev + [c])
    ensures DepositsBytes(prev + [c]) == DepositsBytes(prev) + CollateralBytes(c)
  {
    assert (prev + [c])[..|prev|] == prev;
  }

  /** The bytes of deposits, split before the last one. */
  lemma {:induction false} DepositsPop(slab: seq<Byte>, ds: seq<ObligationCollateral>)
    requires |ds| > 0 && DepositsFit(ds) && DepositsFit(ds[..|ds| - 1])
    requires OBLIGATION_COLLATERAL_LEN * |ds| <= |slab| && DepositsBytes(ds) == slab[..OBLIGATION_COLLATERAL_LEN * |ds|]
    ensures DepositsBytes(ds[..|ds| - 1]) == slab[..OBLIGATION_COLLATERAL_LEN * (|ds| - 1)]
    ensures CollateralBytes(ds[|ds| - 1])
      == slab[OBLIGATION_COLLATERAL_LEN * (|ds| - 1) .. OBLIGATION_COLLATERAL_LEN * |ds|]
  {
    PrefixSplit(slab, DepositsBytes(ds[..|ds| - 1]), CollateralBytes(ds[|ds| - 1]));
  }

  /** Reading back the deposits a slab stores gives them back. */
  lemma {:induction false} DepositsAtOfBytes(slab: seq<Byte>, ds: seq<ObligationCollateral>)
    requires DepositsFit(ds) && OBLIGATION_COLLATERAL_LEN * |ds| <= |slab|
    requires DepositsBytes(ds) == slab[..OBLIGATION_COLLATERAL_LEN * |ds|]
    ensures DepositsAt(slab, |ds|) == ds
  {
    var n := |ds|;
    if n > 0 {
      DepositsPrefixFit(ds, n - 1);
      DepositsPop(slab, ds);
      DepositsAtOfBytes(slab, ds[..n - 1]);
      DepositsAtLast(slab, n, ds[n - 1]);
      assert ds == ds[..n - 1] + [ds[n - 1]];
    }
  }

  /** The last of `n` deposits read from a slab is the one stored in its window. */
  lemma {:induction false} DepositsAtLast(slab: seq<Byte>, n: nat, c: ObligationCollateral)
    requires 0 < n && OBLIGATION_COLLATERAL_LEN * n <= |slab| && CollateralFits(c)
    requires CollateralBytes(c) == slab[OBLIGATION_COLLATERAL_LEN * (n - 1) .. OBLIGATION_COLLATERAL_LEN * n]
    ensures DepositsAt(slab, n) == DepositsAt(slab, n - 1) + [c]
  {
    CollateralRoundTrip(c);
  }

  /** The borrows read from a slab are stored there. */
  lemma {:induction false} BorrowsAtStored(slab: seq<Byte>, n: nat)
    requires OBLIGATION_LIQUIDITY_LEN * n <= |slab|
    ensures BorrowsFit(BorrowsAt(slab, n))
    ensures BorrowsBytes(BorrowsAt(slab, n)) == slab[..OBLIGATION_LIQUIDITY_LEN * n]
  {
    if n > 0 {
      var prev := BorrowsAt(slab, n - 1);
      var window := slab[OBLIGATION_LIQUIDITY_LEN * (n - 1) .. OBLIGATION_LIQUIDITY_LEN * n];
      BorrowsAtStored(slab, n - 1);
      LiquidityStored(window);
      BorrowsPush(slab, n, prev, LiquidityFromBytes(window));
    }
  }

  /** A borrow stored right after the bytes of `prev` extends them. */
  lemma {:induction false} BorrowsPush(slab: seq<Byte>, n: nat, prev: seq<ObligationLiquidity>, l: ObligationLiquidity)
    requires 0 < n && OBLIGATION_LIQUIDITY_LEN * n <= |slab| && |prev| == n - 1
    requires BorrowsFit(prev) && BorrowsBytes(prev) == slab[..OBLIGATION_LIQUIDITY_LEN * (n - 1)]
    requires LiquidityFits(l) && LiquidityBytes(l) == slab[OBLIGATION_LIQUIDITY_LEN * (n - 1) .. OBLIGATION_LIQUIDITY_LEN * n]
    ensures BorrowsFit(prev + [l])
    ensures BorrowsBytes(prev + [l]) == slab[..OBLIGATION_LIQUIDITY_LEN * n]
  {
    BorrowsAppend(prev, l);
    PrefixJoin(slab, BorrowsBytes(prev), LiquidityBytes(l));
  }

  /** Appending a borrow appends its 96 bytes. */
  lemma {:induction false} BorrowsAppend(prev: seq<ObligationLiquidity>, l: ObligationLiquidity)
    requires BorrowsFit(prev) && LiquidityFits(l)
    ensures BorrowsFit(prev + [l])
    ensures BorrowsBytes(prev + [l]) == BorrowsBytes(prev) + LiquidityBytes(l)
  {
    assert (prev + [l])[..|prev|] == prev;
  }

  /** The bytes of borrows, split before the last one. */
  lemma {:induction false} BorrowsPop(slab: seq<Byte>, bs: seq<ObligationLiquidity>)
    requires |bs| > 0 && BorrowsFit(bs) && BorrowsFit(bs[..|bs| - 1])
    requires OBLIGATION_LIQUIDITY_LEN * |bs| <= |slab| && BorrowsBytes(bs) == slab[..OBLIGATION_LIQUIDITY_LEN * |bs|]
    ensures BorrowsBytes(bs[..|bs| - 1]) == slab[..OBLIGATION_LIQUIDITY_LEN * (|bs| - 1)]
    ensures LiquidityBytes(bs[|bs| - 1])
      == slab[OBLIGATION_LIQUIDITY_LEN * (|bs| - 1) .. OBLIGATION_LIQUIDITY_LEN * |bs|]
  {
    PrefixSplit(slab, BorrowsBytes(bs[..|bs| - 1]), LiquidityBytes(bs[|bs| - 1]));
  }

  /** Reading back the borrows a slab stores gives them back. */
  lemma {:induction false} BorrowsAtOfBytes(slab: seq<Byte>, bs: seq<ObligationLiquidity>)
    requires BorrowsFit(bs) && OBLIGATION_LIQUIDITY_LEN * |bs| <= |slab|
    requires BorrowsBytes(bs) == slab[..OBLIGATION_LIQUIDITY_LEN * |bs|]
    ensures BorrowsAt(slab, |bs|) == bs
  {
    var n := |bs|;
    if n > 0 {
      BorrowsPrefixFit(bs, n - 1);
      BorrowsPop(slab, bs);
      BorrowsAtOfBytes(slab, bs[..n - 1]);
      BorrowsAtLast(slab, n, bs[n - 1]);
      assert bs == bs[..n - 1] + [bs[n - 1]];
    }
  }

  /** The last of `n` borrows read from a slab is the one stored in its window. */
  lemma {:induction false} BorrowsAtLast(slab: seq<Byte>, n: nat, l: ObligationLiquidity)
    requires 0 < n && OBLIGATION_LIQUIDITY_LEN * n <= |slab| && LiquidityFits(l)
    requires LiquidityBytes(l) == slab[OBLIGATION_LIQUIDITY_LEN * (n - 1) .. OBLIGATION_LIQUIDITY_LEN * n]
    ensures BorrowsAt(slab, n) == BorrowsAt(slab, n - 1) + [l]
  {
    LiquidityRoundTrip(l);
  }

  // Stored form

  /** True when the slab starts with the deposits and then the borrows, back to back. */
  predicate StoresEntries(slab: seq<Byte>, ds: seq<ObligationCollateral>, bs: seq<ObligationLiquidity>) {
    && DepositsFit(ds) && BorrowsFit(bs)
    && EntriesLen(|ds|, |bs|) <= |slab|
    && slab[..EntriesLen(|ds|, |bs|)] == DepositsBytes(ds) + BorrowsBytes(bs)
  }

  /** `StoresEntries` split into its deposits and its borrows. */
  lemma {:induction false} EntriesSplit(slab: seq<Byte>, ds: seq<ObligationCollateral>, bs: seq<ObligationLiquidity>)
    requires StoresEntries(slab, ds, bs)
    ensures slab[..OBLIGATION_COLLATERAL_LEN * |ds|] == DepositsBytes(ds)
    ensures slab[OBLIGATION_COLLATERAL_LEN * |ds|..][..OBLIGATION_LIQUIDITY_LEN * |bs|] == BorrowsBytes(bs)
  {
    PrefixSplit(slab, DepositsBytes(ds), BorrowsBytes(bs));
    SuffixPrefix(slab, OBLIGATION_COLLATERAL_LEN * |ds|, OBLIGATION_LIQUIDITY_LEN * |bs|);
  }

  /** `StoresEntries` joined from its deposits and its borrows. */
  lemma {:induction false} EntriesJoin(slab: seq<Byte>, ds: seq<ObligationCollateral>, bs: seq<ObligationLiquidity>)
    requires DepositsFit(ds) && BorrowsFit(bs) && EntriesLen(|ds|, |bs|) <= |slab|
    requires slab[..OBLIGATION_COLLATERAL_LEN * |ds|] == DepositsBytes(ds)
    requires slab[OBLIGATION_COLLATERAL_LEN * |ds|..][..OBLIGATION_LIQUIDITY_LEN * |bs|] == BorrowsBytes(bs)
    ensures StoresEntries(slab, ds, bs)
  {
    SuffixPrefix(slab, OBLIGATION_COLLATERAL_LEN * |ds|, OBLIGATION_LIQUIDITY_LEN * |bs|);
    PrefixJoin(slab, DepositsBytes(ds), BorrowsBytes(bs));
  }

  /** Reading the entries of a slab back from where `StoresEntries` puts them: the
      deposits from the start, the borrows from the end of the deposits. */
  lemma {:induction false} EntriesAt(slab: seq<Byte>, ds: seq<ObligationCollateral>, bs: seq<ObligationLiquidity>)
    requires StoresEntries(slab, ds, bs)
    ensures DepositsAt(slab, |ds|) == ds
    ensures BorrowsAt(slab[OBLIGATION_COLLATERAL_LEN * |ds|..], |bs|) == bs
  {
    EntriesSplit(slab, ds, bs);
    DepositsAtOfBytes(slab, ds);
    BorrowsAtOfBytes(slab[OBLIGATION_COLLATERAL_LEN * |ds|..], bs);
  }

  /** The entries the decoder's loops read are stored in the slab. */
  lemma {:induction false} EntriesAtStored(slab: seq<Byte>, d: nat, b: nat)
    requires EntriesLen(d, b) <= |slab|
    ensures StoresEntries(slab, DepositsAt(slab, d), BorrowsAt(slab[OBLIGATION_COLLATERAL_LEN * d..], b))
  {
    DepositsAtStored(slab, d);
    BorrowsAtStored(slab[OBLIGATION_COLLATERAL_LEN * d..], b);
    EntriesJoin(slab, DepositsAt(slab, d), BorrowsAt(slab[OBLIGATION_COLLATERAL_LEN * d..], b));
  }

  /** The header parts up to the owner. */
  predicate StoresIdentity(p: seq<seq<Byte>>, o: Obligation)
    requires |p| == |OBLIGATION_WIDTHS|
  {
    && p[VERSION] == [o.version]
    && p[LAST_UPDATE_SLOT] == U64Bytes(o.lastUpdate.slot)
    && p[LAST_UPDATE_STALE] == [BoolByte(o.lastUpdate.stale)]
    && p[LENDING_MARKET] == o.lendingMarket
    && p[OWNER] == o.owner
  }

  /** The header parts from the deposited value to the unclaimed mine. */
  predicate StoresValues(p: seq<seq<Byte>>, o: Obligation)
    requires |p| == |OBLIGATION_WIDTHS|
  {
    && StoresDecimal(p[DEPOSITED_VALUE], o.depositedValue)
    && StoresDecimal(p[BORROWED_VALUE], o.borrowedValue)
    && StoresDecimal(p[ALLOWED_BORROW_VALUE], o.allowedBorrowValue)
    && StoresDecimal(p[UNHEALTHY_BORROW_VALUE], o.unhealthyBorrowValue)
    && |o.deposits| < 0x100 && p[DEPOSITS_LEN] == [|o.deposits|]
    && |o.borrows| < 0x100 && p[BORROWS_LEN] == [|o.borrows|]
    && StoresDecimal(p[UNCLAIMED_MINE], o.unclaimedMine)
  }

  /** True when the parts `p` hold `o` as `pack_into_slice` stores it: every header
      field, then the entries from the start of the slab. */
  predicate StoresObligation(p: seq<seq<Byte>>, o: Obligation)
    requires |p| == |OBLIGATION_WIDTHS|
  {
    && StoresIdentity(p, o) && StoresValues(p, o)
    && StoresEntries(p[DATA_FLAT], o.deposits, o.borrows)
  }

  /** What `pack_into_slice` demands: its `expect`s need every decimal to fit in a
      `u128`, and its `array_mut_ref!`s need the entries to fit in the slab (which also
      keeps both counts below 256 for `u8::try_from(..).unwrap()`). */
  predicate Packable(o: Obligation) {
    && FitsU128(o.depositedValue) && FitsU128(o.borrowedValue)
    && FitsU128(o.allowedBorrowValue) && FitsU128(o.unhealthyBorrowValue)
    && FitsU128(o.unclaimedMine)
    && DepositsFit(o.deposits) && BorrowsFit(o.borrows)
    && EntriesLen(|o.deposits|, |o.borrows|) <= DATA_FLAT_LEN
  }

  // Encoder

  /** `pack_into_slice`: writes the header fields and the entries into their parts of
      `output`. The slab past the last entry and whatever follows the record keep their
      bytes, and an obligation of a supported version decodes back to itself. */
  method PackObligation(o: Obligation, output: array<Byte>)
    requires Packable(o)
    requires output.Length >= OBLIGATION_LEN
    modifies output
    ensures StoresObligation(Parts(output[..], OBLIGATION_WIDTHS), o)
    ensures AgreeFrom(Parts(output[..], OBLIGATION_WIDTHS)[DATA_FLAT],
                      old(Parts(output[..], OBLIGATION_WIDTHS))[DATA_FLAT],
                      EntriesLen(|o.deposits|, |o.borrows|))
    ensures output[OBLIGATION_LEN..] == old(output[OBLIGATION_LEN..])
    ensures o.version <= PROGRAM_VERSION ==> DecodeObligation(output[..]) == Ok(o)
  {
    ObligationLayout();
    ObligationSplit();
    PackObligationParts(o, output, OBLIGATION_WIDTHS);
    if o.version <= PROGRAM_VERSION {
      ObligationRoundTrip(o, output[..]);
    }
  }

  /** The writes of `pack_into_slice` once `mut_array_refs!` has split `output` by `ws`,
      in the source's order. */
  method PackObligationParts(o: Obligation, output: array<Byte>, ws: seq<nat>)
    requires Packable(o)
    requires IsObligationSplit(ws) && Sum(ws) <= output.Length
    modifies output
    ensures StoresObligation(Parts(output[..], ws), o)
    ensures AgreeFrom(Parts(output[..], ws)[DATA_FLAT], old(Parts(output[..], ws))[DATA_FLAT],
                      EntriesLen(|o.deposits|, |o.borrows|))
    ensures output[Sum(ws)..] == old(output[Sum(ws)..])
  {
    PackIdentity(o, output, ws);
    PackValues(o, output, ws);
    PackEntries(o.deposits, o.borrows, output, ws);
  }

  /** The header writes from the version to the owner. */
  method PackIdentity(o: Obligation, output: array<Byte>, ws: seq<nat>)
    requires IsObligationSplit(ws) && Sum(ws) <= output.Length
    modifies output
    ensures StoresIdentity(Parts(output[..], ws), o)
    ensures forall j | OWNER < j < |ws| :: Parts(output[..], ws)[j] == old(Parts(output[..], ws))[j]
    ensures output[Sum(ws)..] == old(output[Sum(ws)..])
  {
    WriteWholePart(output, ws, VERSION, [o.version]);
    WriteWholePart(output, ws, LAST_UPDATE_SLOT, U64Bytes(o.lastUpdate.slot));
    PackBool(o.lastUpdate.stale, output, ws, LAST_UPDATE_STALE);
    WriteWholePart(output, ws, LENDING_MARKET, o.lendingMarket);
    WriteWholePart(output, ws, OWNER, o.owner);
  }

  /** The header writes from the deposited value to the unclaimed mine;
      `u8::try_from(..).unwrap()` panics on 256 entries or more. */
  method PackValues(o: Obligation, output: array<Byte>, ws: seq<nat>)
    requires FitsU128(o.depositedValue) && FitsU128(o.borrowedValue)
    requires FitsU128(o.allowedBorrowValue) && FitsU128(o.unhealthyBorrowValue)
    requires FitsU128(o.unclaimedMine)
    requires |o.deposits| < 0x100 && |o.borrows| < 0x100
    requires IsObligationSplit(ws) && Sum(ws) <= output.Length
    modifies output
    ensures StoresValues(Parts(output[..], ws), o)
    ensures forall j | 0 <= j < |ws| && !(DEPOSITED_VALUE <= j <= UNCLAIMED_MINE) ::
      Parts(output[..], ws)[j] == old(Parts(output[..], ws))[j]
    ensures output[Sum(ws)..] == old(output[Sum(ws)..])
  {
    PackAggregates(o, output, ws);
    PackCounts(o, output, ws);
  }

  /** The four value aggregates. */
  method PackAggregates(o: Obligation, output: array<Byte>, ws: seq<nat>)
    requires FitsU128(o.depositedValue) && FitsU128(o.borrowedValue)
    requires FitsU128(o.allowedBorrowValue) && FitsU128(o.unhealthyBorrowValue)
    requires IsObligationSplit(ws) && Sum(ws) <= output.Length
    modifies output
    ensures StoresDecimal(Parts(output[..], ws)[DEPOSITED_VALUE], o.depositedValue)
    ensures StoresDecimal(Parts(output[..], ws)[BORROWED_VALUE], o.borrowedValue)
    ensures StoresDecimal(Parts(output[..], ws)[ALLOWED_BORROW_VALUE], o.allowedBorrowValue)
    ensures StoresDecimal(Parts(output[..], ws)[UNHEALTHY_BORROW_VALUE], o.unhealthyBorrowValue)
    ensures forall j | 0 <= j < |ws| && !(DEPOSITED_VALUE <= j <= UNHEALTHY_BORROW_VALUE) ::
      Parts(output[..], ws)[j] == old(Parts(output[..], ws))[j]
    ensures output[Sum(ws)..] == old(output[Sum(ws)..])
  {
    PackDecimal(o.depositedValue, output, ws, DEPOSITED_VALUE);
    PackDecimal(o.borrowedValue, output, ws, BORROWED_VALUE);
    PackDecimal(o.allowedBorrowValue, output, ws, ALLOWED_BORROW_VALUE);
    PackDecimal(o.unhealthyBorrowValue, output, ws, UNHEALTHY_BORROW_VALUE);
  }

  /** The two count bytes and the unclaimed mine. */
  method PackCounts(o: Obligation, output: array<Byte>, ws: seq<nat>)
    requires FitsU128(o.unclaimedMine)
    requires |o.deposits| < 0x100 && |o.borrows| < 0x100
    requires IsObligationSplit(ws) && Sum(ws) <= output.Length
    modifies output
    ensures Parts(output[..], ws)[DEPOSITS_LEN] == [|o.deposits|]
    ensures Parts(output[..], ws)[BORROWS_LEN] == [|o.borrows|]
    ensures StoresDecimal(Parts(output[..], ws)[UNCLAIMED_MINE], o.unclaimedMine)
    ensures forall j | 0 <= j < |ws| && !(DEPOSITS_LEN <= j <= UNCLAIMED_MINE) ::
      Parts(output[..], ws)[j] == old(Parts(output[..], ws))[j]
    ensures output[Sum(ws)..] == old(output[Sum(ws)..])
  {
    var depositsLen := |o.deposits| as Byte;
    var borrowsLen := |o.borrows| as Byte;
    WriteWholePart(output, ws, DEPOSITS_LEN, [depositsLen]);
    WriteWholePart(output, ws, BORROWS_LEN, [borrowsLen]);
    PackDecimal(o.unclaimedMine, output, ws, UNCLAIMED_MINE);
  }

  /** One round of the deposit loop: `mut_array_refs!` splits the 72-byte window at
      slab offset `at` into 32, 8, 16 and 16 bytes, and the four fields go there. */
  method PackCollateralEntry(c: ObligationCollateral, output: array<Byte>, ws: seq<nat>, at: nat)
    requires CollateralFits(c)
    requires IsObligationSplit(ws) && Sum(ws) <= output.Length
    requires at + OBLIGATION_COLLATERAL_LEN <= DATA_FLAT_LEN
    modifies output
    ensures |old(Parts(output[..], ws))[DATA_FLAT]| == DATA_FLAT_LEN
    ensures Parts(output[..], ws)
      == old(Parts(output[..], ws))[DATA_FLAT := Splice(old(Parts(output[..], ws))[DATA_FLAT], at, CollateralBytes(c))]
    ensures output[Sum(ws)..] == old(output[Sum(ws)..])
  {
    ghost var p0 := Parts(output[..], ws);
    ghost var slab := p0[DATA_FLAT];
    WritePart(output, ws, DATA_FLAT, at, c.depositReserve);
    WritePart(output, ws, DATA_FLAT, at + 32, U64Bytes(c.depositedAmount));
    WritePart(output, ws, DATA_FLAT, at + 40, DecimalBytes(c.marketValue));
    WritePart(output, ws, DATA_FLAT, at + 56, DecimalBytes(c.index));
    SpliceConcat(slab, at, c.depositReserve, U64Bytes(c.depositedAmount));
    SpliceConcat(slab, at, c.depositReserve + U64Bytes(c.depositedAmount), DecimalBytes(c.marketValue));
    SpliceConcat(slab, at, c.depositReserve + U64Bytes(c.depositedAmount) + DecimalBytes(c.marketValue),
      DecimalBytes(c.index));
  }

  /** One round of the borrow loop: the 96-byte window at slab offset `at` is split into
      32, 16, 16, 16 and 16 bytes, and the five fields go there. */
  method PackLiquidityEntry(l: ObligationLiquidity, output: array<Byte>, ws: seq<nat>, at: nat)
    requires LiquidityFits(l)
    requires IsObligationSplit(ws) && Sum(ws) <= output.Length
    requires at + OBLIGATION_LIQUIDITY_LEN <= DATA_FLAT_LEN
    modifies output
    ensures |old(Parts(output[..], ws))[DATA_FLAT]| == DATA_FLAT_LEN
    ensures Parts(output[..], ws)
      == old(Parts(output[..], ws))[DATA_FLAT := Splice(old(Parts(output[..], ws))[DATA_FLAT], at, LiquidityBytes(l))]
    ensures output[Sum(ws)..] == old(output[Sum(ws)..])
  {
    ghost var p0 := Parts(output[..], ws);
    ghost var slab := p0[DATA_FLAT];
    var a := l.borrowReserve;
    var b := DecimalBytes(l.cumulativeBorrowRateWads);
    var c := DecimalBytes(l.borrowedAmountWads);
    var d := DecimalBytes(l.marketValue);
    var e := DecimalBytes(l.index);
    WritePart(output, ws, DATA_FLAT, at, a);
    WritePart(output, ws, DATA_FLAT, at + 32, b);
    WritePart(output, ws, DATA_FLAT, at + 48, c);
    WritePart(output, ws, DATA_FLAT, at + 64, d);
    WritePart(output, ws, DATA_FLAT, at + 80, e);
    SpliceConcat(slab, at, a, b);
    SpliceConcat(slab, at, a + b, c);
    SpliceConcat(slab, at, a + b + c, d);
    SpliceConcat(slab, at, a + b + c + d, e);
  }

  /** The two entry loops with their shared running `offset`: deposits back to back
      from the start of the slab, then borrows right after them; the rest of the slab
      keeps its bytes. */
  method PackEntries(ds: seq<ObligationCollateral>, bs: seq<ObligationLiquidity>, output: array<Byte>, ws: seq<nat>)
    requires DepositsFit(ds) && BorrowsFit(bs) && EntriesLen(|ds|, |bs|) <= DATA_FLAT_LEN
    requires IsObligationSplit(ws) && Sum(ws) <= output.Length
    modifies output
    ensures StoresEntries(Parts(output[..], ws)[DATA_FLAT], ds, bs)
    ensures AgreeFrom(Parts(output[..], ws)[DATA_FLAT], old(Parts(output[..], ws))[DATA_FLAT],
                      EntriesLen(|ds|, |bs|))
    ensures forall j | 0 <= j < |ws| && j != DATA_FLAT ::
      Parts(output[..], ws)[j] == old(Parts(output[..], ws))[j]
    ensures output[Sum(ws)..] == old(output[Sum(ws)..])
  {
    ghost var p0 := Parts(output[..], ws);
    PartAt(output[..], ws, DATA_FLAT);
    ghost var slab := p0[DATA_FLAT];
    var offset := PackDeposits(ds, output, ws);
    PackBorrows(bs, output, ws, offset);
    EntriesSpliced(slab, ds, bs);
  }

  /** The deposit loop: deposit `i` at slab offset `72 * i`; returns the offset past
      the last one. */
  method PackDeposits(ds: seq<ObligationCollateral>, output: array<Byte>, ws: seq<nat>)
    returns (offset: nat)
    requires DepositsFit(ds) && OBLIGATION_COLLATERAL_LEN * |ds| <= DATA_FLAT_LEN
    requires IsObligationSplit(ws) && Sum(ws) <= output.Length
    modifies output
    ensures |old(Parts(output[..], ws))[DATA_FLAT]| == DATA_FLAT_LEN
    ensures offset == OBLIGATION_COLLATERAL_LEN * |ds|
    ensures Parts(output[..], ws) == old(Parts(output[..], ws))[DATA_FLAT :=
      Splice(old(Parts(output[..], ws))[DATA_FLAT], 0, DepositsBytes(ds))]
    ensures output[Sum(ws)..] == old(output[Sum(ws)..])
  {
    ghost var p0 := Parts(output[..], ws);
    PartAt(output[..], ws, DATA_FLAT);
    ghost var slab := p0[DATA_FLAT];
    assert Splice(slab, 0, DepositsBytes(ds[..0])) == slab;
    offset := 0;
    for i := 0 to |ds|
      invariant offset == OBLIGATION_COLLATERAL_LEN * i
      invariant DepositsFit(ds[..i])
      invariant Parts(output[..], ws) == p0[DATA_FLAT := Splice(slab, 0, DepositsBytes(ds[..i]))]
      invariant output[Sum(ws)..] == old(output[Sum(ws)..])
    {
      DepositsPrefixFit(ds, i + 1);
      DepositsSpliceStep(slab, ds, i);
      ghost var written := Splice(slab, 0, DepositsBytes(ds[..i]));
      assert Parts(output[..], ws)[DATA_FLAT] == written;
      PackCollateralEntry(ds[i], output, ws, offset);
      assert Parts(output[..], ws) == p0[DATA_FLAT := Splice(written, offset, CollateralBytes(ds[i]))];
      offset := offset + OBLIGATION_COLLATERAL_LEN;
    }
    assert ds[..|ds|] == ds;
  }

  /** The borrow loop: borrow `j` at slab offset `start + 96 * j`. */
  method PackBorrows(bs: seq<ObligationLiquidity>, output: array<Byte>, ws: seq<nat>, start: nat)
    requires BorrowsFit(bs) && start + OBLIGATION_LIQUIDITY_LEN * |bs| <= DATA_FLAT_LEN
    requires IsObligationSplit(ws) && Sum(ws) <= output.Length
    modifies output
    ensures |old(Parts(output[..], ws))[DATA_FLAT]| == DATA_FLAT_LEN
    ensures Parts(output[..], ws) == old(Parts(output[..], ws))[DATA_FLAT :=
      Splice(old(Parts(output[..], ws))[DATA_FLAT], start, BorrowsBytes(bs))]
    ensures output[Sum(ws)..] == old(output[Sum(ws)..])
  {
    ghost var p0 := Parts(output[..], ws);
    PartAt(output[..], ws, DATA_FLAT);
    ghost var slab := p0[DATA_FLAT];
    assert Splice(slab, start, BorrowsBytes(bs[..0])) == slab;
    var offset := start;
    for j := 0 to |bs|
      invariant offset == start + OBLIGATION_LIQUIDITY_LEN * j
      invariant BorrowsFit(bs[..j])
      invariant Parts(output[..], ws) == p0[DATA_FLAT := Splice(slab, start, BorrowsBytes(bs[..j]))]
      invariant output[Sum(ws)..] == old(output[Sum(ws)..])
    {
      BorrowsPrefixFit(bs, j + 1);
      BorrowsSpliceStep(slab, bs, start, j);
      ghost var written := Splice(slab, start, BorrowsBytes(bs[..j]));
      assert Parts(output[..], ws)[DATA_FLAT] == written;
      PackLiquidityEntry(bs[j], output, ws, offset);
      assert Parts(output[..], ws) == p0[DATA_FLAT := Splice(written, offset, LiquidityBytes(bs[j]))];
      offset := offset + OBLIGATION_LIQUIDITY_LEN;
    }
    assert bs[..|bs|] == bs;
  }

  /** One more deposit written after the first `i` extends their write. */
  lemma {:induction false} DepositsSpliceStep(slab: seq<Byte>, ds: seq<ObligationCollateral>, i: nat)
    requires i < |ds| && DepositsFit(ds[..i + 1]) && OBLIGATION_COLLATERAL_LEN * (i + 1) <= |slab|
    ensures DepositsFit(ds[..i]) && CollateralFits(ds[i])
    ensures Splice(Splice(slab, 0, DepositsBytes(ds[..i])), OBLIGATION_COLLATERAL_LEN * i, CollateralBytes(ds[i]))
      == Splice(slab, 0, DepositsBytes(ds[..i + 1]))
  {
    assert ds[..i + 1][..i] == ds[..i] && ds[..i + 1][i] == ds[i];
    SpliceConcat(slab, 0, DepositsBytes(ds[..i]), CollateralBytes(ds[i]));
  }

  /** One more borrow written after the first `j` extends their write. */
  lemma {:induction false} BorrowsSpliceStep(slab: seq<Byte>, bs: seq<ObligationLiquidity>, start: nat, j: nat)
    requires j < |bs| && BorrowsFit(bs[..j + 1]) && start + OBLIGATION_LIQUIDITY_LEN * (j + 1) <= |slab|
    ensures BorrowsFit(bs[..j]) && LiquidityFits(bs[j])
    ensures Splice(Splice(slab, start, BorrowsBytes(bs[..j])), start + OBLIGATION_LIQUIDITY_LEN * j, LiquidityBytes(bs[j]))
      == Splice(slab, start, BorrowsBytes(bs[..j + 1]))
  {
    assert bs[..j + 1][..j] == bs[..j] && bs[..j + 1][j] == bs[j];
    SpliceConcat(slab, start, BorrowsBytes(bs[..j]), LiquidityBytes(bs[j]));
  }

  /** The deposits written from the start and the borrows right after them store the
      entries and leave the rest of the slab. */
  lemma {:induction false} EntriesSpliced(slab: seq<Byte>, ds: seq<ObligationCollateral>, bs: seq<ObligationLiquidity>)
    requires DepositsFit(ds) && BorrowsFit(bs) && EntriesLen(|ds|, |bs|) <= |slab|
    ensures StoresEntries(Splice(Splice(slab, 0, DepositsBytes(ds)), OBLIGATION_COLLATERAL_LEN * |ds|, BorrowsBytes(bs)), ds, bs)
    ensures AgreeFrom(Splice(Splice(slab, 0, DepositsBytes(ds)), OBLIGATION_COLLATERAL_LEN * |ds|, BorrowsBytes(bs)), slab,
                      EntriesLen(|ds|, |bs|))
  {
    var e := DepositsBytes(ds) + BorrowsBytes(bs);
    SpliceConcat(slab, 0, DepositsBytes(ds), BorrowsBytes(bs));
    SpliceFromStart(slab, e);
  }

  // Decoder

  /** The body of `unpack_from_slice` once `array_refs!` has split the input into the
      parts `p`: the version gate, the two entry loops at a running offset, then the
      record with `unpack_bool` of the stale flag as its only fallible field. The loops
      do not check that the counts fit in the slab, so counts whose entries run past its
      936 bytes make `array_ref!` go out of bounds, a panic, here `SliceOutOfBounds`. */
  function ObligationFromParts(p: seq<seq<Byte>>): (r: Result<Obligation>)
    requires IsObligationSplit(Widths(p))
    ensures r.Ok? <==>
      && p[VERSION][0] <= PROGRAM_VERSION
      && EntriesLen(p[DEPOSITS_LEN][0], p[BORROWS_LEN][0]) <= DATA_FLAT_LEN
      && p[LAST_UPDATE_STALE][0] <= 1
    ensures r.Err? ==> (r.error ==
      if p[VERSION][0] <= PROGRAM_VERSION && EntriesLen(p[DEPOSITS_LEN][0], p[BORROWS_LEN][0]) > DATA_FLAT_LEN
      then SliceOutOfBounds else InvalidAccountData)
    ensures r.Ok? ==> StoresObligation(p, r.value)
  {
    var version := p[VERSION][0];
    if version > PROGRAM_VERSION then
      Err(InvalidAccountData)
    else
      var depositsLen := p[DEPOSITS_LEN][0];
      var borrowsLen := p[BORROWS_LEN][0];
      var slab := p[DATA_FLAT];
      if EntriesLen(depositsLen, borrowsLen) > |slab| then
        Err(SliceOutOfBounds)
      else
        var stale :- UnpackBool(p[LAST_UPDATE_STALE][0]);
        EntriesAtStored(slab, depositsLen, borrowsLen);
        Ok(Obligation(
          version,
          LastUpdate(LeU64(p[LAST_UPDATE_SLOT]), stale),
          p[LENDING_MARKET],
          p[OWNER],
          DepositsAt(slab, depositsLen),
          BorrowsAt(slab[OBLIGATION_COLLATERAL_LEN * depositsLen..], borrowsLen),
          UnpackDecimal(p[DEPOSITED_VALUE]),
          UnpackDecimal(p[BORROWED_VALUE]),
          UnpackDecimal(p[ALLOWED_BORROW_VALUE]),
          UnpackDecimal(p[UNHEALTHY_BORROW_VALUE]),
          UnpackDecimal(p[UNCLAIMED_MINE])))
  }

  /** `unpack_from_slice` on the whole input; `array_ref!` demands `OBLIGATION_LEN`
      bytes. */
  function DecodeObligation(input: seq<Byte>): (r: Result<Obligation>)
    requires |input| >= OBLIGATION_LEN
    ensures r.Ok? ==> r.value.version == input[0] <= PROGRAM_VERSION
  {
    ObligationLayout();
    ObligationSplit();
    WidthsOfParts(input, OBLIGATION_WIDTHS);
    PartAt(input, OBLIGATION_WIDTHS, VERSION);
    ObligationFromParts(Parts(input, OBLIGATION_WIDTHS))
  }

  /** `unpack_from_slice` with its two entry loops; each round's `array_ref!` fails when
      its window runs past the slab. */
  method UnpackObligation(input: seq<Byte>) returns (r: Result<Obligation>)
    requires |input| >= OBLIGATION_LEN
    ensures r == DecodeObligation(input)
  {
    ObligationLayout();
    ObligationSplit();
    WidthsOfParts(input, OBLIGATION_WIDTHS);
    var p := Parts(input, OBLIGATION_WIDTHS);
    var version := p[VERSION][0];
    if version > PROGRAM_VERSION {
      return Err(InvalidAccountData);
    }
    var depositsLen := p[DEPOSITS_LEN][0];
    var borrowsLen := p[BORROWS_LEN][0];
    var slab := p[DATA_FLAT];
    var deposits :- UnpackDeposits(slab, depositsLen);
    var borrows :- UnpackBorrows(slab, OBLIGATION_COLLATERAL_LEN * depositsLen, borrowsLen);
    var stale :- UnpackBool(p[LAST_UPDATE_STALE][0]);
    r := Ok(Obligation(
      version,
      LastUpdate(LeU64(p[LAST_UPDATE_SLOT]), stale),
      p[LENDING_MARKET],
      p[OWNER],
      deposits,
      borrows,
      UnpackDecimal(p[DEPOSITED_VALUE]),
      UnpackDecimal(p[BORROWED_VALUE]),
      UnpackDecimal(p[ALLOWED_BORROW_VALUE]),
      UnpackDecimal(p[UNHEALTHY_BORROW_VALUE]),
      UnpackDecimal(p[UNCLAIMED_MINE])));
  }

  /** The deposit loop of `unpack_from_slice`: `n` pushes, deposit `i` read at slab
      offset `72 * i`. */
  method UnpackDeposits(slab: seq<Byte>, n: nat) returns (r: Result<seq<ObligationCollateral>>)
    ensures OBLIGATION_COLLATERAL_LEN * n <= |slab| ==> r == Ok(DepositsAt(slab, n))
    ensures OBLIGATION_COLLATERAL_LEN * n > |slab| ==> r == Err(SliceOutOfBounds)
  {
    var deposits: seq<ObligationCollateral> := [];
    var offset := 0;
    for i := 0 to n
      invariant offset == OBLIGATION_COLLATERAL_LEN * i <= |slab|
      invariant deposits == DepositsAt(slab, i)
    {
      if offset + OBLIGATION_COLLATERAL_LEN > |slab| {
        MulMono(OBLIGATION_COLLATERAL_LEN, i + 1, n);
        return Err(SliceOutOfBounds);
      }
      DepositsAtNext(slab, i);
      deposits := deposits + [CollateralFromBytes(slab[offset .. offset + OBLIGATION_COLLATERAL_LEN])];
      offset := offset + OBLIGATION_COLLATERAL_LEN;
    }
    r := Ok(deposits);
  }

  /** The borrow loop of `unpack_from_slice`: `n` pushes, borrow `j` read at slab
      offset `start + 96 * j`, `start` being where the deposit loop left `offset`. */
  method UnpackBorrows(slab: seq<Byte>, start: nat, n: nat) returns (r: Result<seq<ObligationLiquidity>>)
    requires start <= |slab|
    ensures start + OBLIGATION_LIQUIDITY_LEN * n <= |slab| ==> r == Ok(BorrowsAt(slab[start..], n))
    ensures start + OBLIGATION_LIQUIDITY_LEN * n > |slab| ==> r == Err(SliceOutOfBounds)
  {
    var borrows: seq<ObligationLiquidity> := [];
    var offset := start;
    for j := 0 to n
      invariant offset == start + OBLIGATION_LIQUIDITY_LEN * j <= |slab|
      invariant borrows == BorrowsAt(slab[start..], j)
    {
      if offset + OBLIGATION_LIQUIDITY_LEN > |slab| {
        MulMono(OBLIGATION_LIQUIDITY_LEN, j + 1, n);
        return Err(SliceOutOfBounds);
      }
      SliceShift(slab, start, OBLIGATION_LIQUIDITY_LEN * j, OBLIGATION_LIQUIDITY_LEN * (j + 1));
      BorrowsAtNext(slab[start..], j);
      borrows := borrows + [LiquidityFromBytes(slab[offset .. offset + OBLIGATION_LIQUIDITY_LEN])];
      offset := offset + OBLIGATION_LIQUIDITY_LEN;
    }
    r := Ok(borrows);
  }

  // Properties

  /** The stored form determines the obligation: two obligations stored in the same
      parts are equal. */
  lemma {:induction false} StoredOnce(p: seq<seq<Byte>>, o: Obligation, o': Obligation)
    requires |p| == |OBLIGATION_WIDTHS|
    requires StoresObligation(p, o) && StoresObligation(p, o')
    ensures o == o'
  {
    EntriesAt(p[DATA_FLAT], o.deposits, o.borrows);
    EntriesAt(p[DATA_FLAT], o'.deposits, o'.borrows);
    assert o.lastUpdate == o'.lastUpdate;
  }

  /** Decoding the parts that store an obligation of a supported version gives it back. */
  lemma {:induction false} PartsRoundTrip(p: seq<seq<Byte>>, o: Obligation)
    requires IsObligationSplit(Widths(p)) && StoresObligation(p, o)
    requires o.version <= PROGRAM_VERSION
    ensures ObligationFromParts(p) == Ok(o)
  {
    var r := ObligationFromParts(p);
    assert r.Ok?;
    StoredOnce(p, o, r.value);
  }

  /** Decoding an input that stores an obligation of a supported version gives it back. */
  lemma {:induction false} ObligationRoundTrip(o: Obligation, s: seq<Byte>)
    requires |s| >= OBLIGATION_LEN && StoresObligation(Parts(s, OBLIGATION_WIDTHS), o)
    requires o.version <= PROGRAM_VERSION
    ensures DecodeObligation(s) == Ok(o)
  {
    ObligationLayout();
    ObligationSplit();
    WidthsOfParts(s, OBLIGATION_WIDTHS);
    PartsRoundTrip(Parts(s, OBLIGATION_WIDTHS), o);
  }

  /** The slab holds one deposit and nine borrows, but nothing stops a count byte from
      asking for more: ten borrows and no deposits need 960 bytes, so an input of a
      supported version with those counts fails with `SliceOutOfBounds`, whatever else
      it holds, and no obligation with ten borrows and no deposits can be packed. */
  lemma {:induction false} SlabOverflow(s: seq<Byte>)
    requires |s| >= 1092
    requires s[0] <= PROGRAM_VERSION && s[138] == 0 && s[139] == 10
    ensures OBLIGATION_LEN == 1092 && DecodeObligation(s) == Err(SliceOutOfBounds)
    ensures EntriesLen(1, 9) == DATA_FLAT_LEN < EntriesLen(0, 10)
  {
    ObligationLayout();
    ObligationSplit();
    PartAt(s, OBLIGATION_WIDTHS, DEPOSITS_LEN);
    PartAt(s, OBLIGATION_WIDTHS, BORROWS_LEN);
  }

  /** Zero-filled parts store the default obligation. */
  lemma {:induction false} ZeroPartsStore(p: seq<seq<Byte>>)
    requires IsObligationSplit(Widths(p))
    requires forall k | 0 <= k < |p| :: p[k] == Zeros(|p[k]|)
    ensures StoresObligation(p, DEFAULT_OBLIGATION)
  {
    ZeroIdentityStore(p);
    ZeroValuesStore(p);
    NoEntriesStored(p[DATA_FLAT]);
  }

  /** Every slab stores no entries. */
  lemma {:induction false} NoEntriesStored(slab: seq<Byte>)
    ensures StoresEntries(slab, DEFAULT_OBLIGATION.deposits, DEFAULT_OBLIGATION.borrows)
  {
    assert slab[..0] == DepositsBytes([]) + BorrowsBytes([]);
  }

  /** Zero-filled parts store the default obligation's identity fields. */
  lemma {:induction false} ZeroIdentityStore(p: seq<seq<Byte>>)
    requires IsObligationSplit(Widths(p))
    requires forall k | 0 <= k < |p| :: p[k] == Zeros(|p[k]|)
    ensures StoresIdentity(p, DEFAULT_OBLIGATION)
  {
    ZeroBytes();
  }

  /** Zero-filled parts store the default obligation's value fields and counts. */
  lemma {:induction false} ZeroValuesStore(p: seq<seq<Byte>>)
    requires IsObligationSplit(Widths(p))
    requires forall k | 0 <= k < |p| :: p[k] == Zeros(|p[k]|)
    ensures StoresValues(p, DEFAULT_OBLIGATION)
  {
    ZeroBytes();
  }

  /** A freshly created, zero-filled account decodes to the default obligation, which
      has no entries and is not initialized. */
  lemma {:induction false} ZeroedObligation()
    ensures DecodeObligation(Zeros(OBLIGATION_LEN)) == Ok(DEFAULT_OBLIGATION)
    ensures !IsInitialized(DEFAULT_OBLIGATION)
  {
    ObligationLayout();
    ObligationSplit();
    var s := Zeros(OBLIGATION_LEN);
    PartsOfZeros(OBLIGATION_LEN, OBLIGATION_WIDTHS);
    WidthsOfParts(s, OBLIGATION_WIDTHS);
    ZeroPartsStore(Parts(s, OBLIGATION_WIDTHS));
    ObligationRoundTrip(DEFAULT_OBLIGATION, s);
  }
}
