/** The instruction decoder (`LendingInstruction::unpack`, src/instruction.rs): one tag
    byte, then a payload read by the consuming readers of `UnpackUtil`. */
module Instruction {
  import opened Bytes
  import opened Wrappers
  import opened UnpackUtil

  /** `LendingInstruction`, with only the fields the decoder keeps. */
  datatype LendingInstruction =
    | InitLendingMarket(owner: Pubkey, quoteCurrency: Pubkey)
    | SetLendingMarketOwner(newOwner: Pubkey)
    | InitReserve(totalMiningSpeed: U64, kinkUtilRate: U64, usePythOracle: bool, isLp: bool)
    | RefreshReserve
    | DepositReserveLiquidity(liquidityAmount: U64)
    | RedeemReserveCollateral(collateralAmount: U64)
    | InitObligation
    | RefreshObligation
    | DepositObligationCollateral(collateralAmount: U64)
    | WithdrawObligationCollateral(collateralAmount: U64)
    | BorrowObligationLiquidity(liquidityAmount: U64)
    | RepayObligationLiquidity(liquidityAmount: U64)
    | LiquidateObligation(liquidityAmount: U64)
    | FlashLoan(amount: U64, callBackData: seq<Byte>)
    | SetConfig
    | InitMining
    | DepositMining(amount: U64)
    | WithdrawMining(amount: U64)
    | ClaimMiningMine
    | ClaimObligationMine
    | ClaimOwnerFee
    | ReceivePendingOwner
    | RefreshReserves
    | LiquidateObligation2(liquidityAmount: U64)

  /** The tag byte the decoder maps to each variant. */
  function Tag(i: LendingInstruction): Byte {
    match i
    case InitLendingMarket(_, _) => 0
    case SetLendingMarketOwner(_) => 1
    case InitReserve(_, _, _, _) => 2
    case RefreshReserve => 3
    case DepositReserveLiquidity(_) => 4
    case RedeemReserveCollateral(_) => 5
    case InitObligation => 6
    case RefreshObligation => 7
    case DepositObligationCollateral(_) => 8
    case WithdrawObligationCollateral(_) => 9
    case BorrowObligationLiquidity(_) => 10
    case RepayObligationLiquidity(_) => 11
    case LiquidateObligation(_) => 12
    case FlashLoan(_, _) => 13
    case SetConfig => 14
    case InitMining => 16
    case DepositMining(_) => 18
    case WithdrawMining(_) => 19
    case ClaimMiningMine => 20
    case ClaimObligationMine => 21
    case ClaimOwnerFee => 22
    case ReceivePendingOwner => 23
    case RefreshReserves => 24
    case LiquidateObligation2(_) => 25
  }

  /** The tags `unpack` recognises. */
  predicate IsKnownTag(t: Byte) {
    t <= 14 || t == 16 || 18 <= t <= 25
  }

  /** The tags whose whole payload is one `u64` amount. */
  const AMOUNT_TAGS: set<Byte> := {4, 5, 8, 9, 10, 11, 12, 18, 19, 25}

  /** The tags without a payload. */
  const NO_PAYLOAD_TAGS: set<Byte> := {3, 6, 7, 14, 16, 20, 21, 22, 23, 24}

  /** The amount carried by a variant decoded from one of `AMOUNT_TAGS`. */
  function Amount(i: LendingInstruction): U64
    requires Tag(i) in AMOUNT_TAGS
  {
    match i
    case DepositReserveLiquidity(a) => a
    case RedeemReserveCollateral(a) => a
    case DepositObligationCollateral(a) => a
    case WithdrawObligationCollateral(a) => a
    case BorrowObligationLiquidity(a) => a
    case RepayObligationLiquidity(a) => a
    case LiquidateObligation(a) => a
    case DepositMining(a) => a
    case WithdrawMining(a) => a
    case LiquidateObligation2(a) => a
  }

  /** The leading 32 bytes of the tag-2 payload: seven config bytes, three fee amounts and
      the host fee percentage, all read and discarded. */
  function SkipReserveConfig(rest: seq<Byte>): (r: Result<seq<Byte>>)
    ensures r.Ok? <==> |rest| >= 32
    ensures r.Ok? ==> r.value == rest[32..]
    ensures r.Err? ==> r.error == InstructionUnpackError
  {
    var optimalUtilizationRate :- UnpackU8(rest);
    var loanToValueRatio :- UnpackU8(optimalUtilizationRate.1);
    var liquidationBonus :- UnpackU8(loanToValueRatio.1);
    var liquidationThreshold :- UnpackU8(liquidationBonus.1);
    var minBorrowRate :- UnpackU8(liquidationThreshold.1);
    var optimalBorrowRate :- UnpackU8(minBorrowRate.1);
    var maxBorrowRate :- UnpackU8(optimalBorrowRate.1);
    var borrowFeeWad :- UnpackU64(maxBorrowRate.1);
    var reserveOwnerFeeWad :- UnpackU64(borrowFeeWad.1);
    var flashLoanFeeWad :- UnpackU64(reserveOwnerFeeWad.1);
    var hostFeePercentage :- UnpackU8(flashLoanFeeWad.1);
    Ok(hostFeePercentage.1)
  }

  /** The payload of tag 2: 50 bytes, of which only the two amounts at offsets 32 and 40
      and the booleans at 48 and 49 are kept. The errors come in reading order: a short
      payload before a bad boolean byte at the same position. */
  function UnpackInitReserve(rest: seq<Byte>): (r: Result<LendingInstruction>)
    ensures |rest| < 49 ==> r == Err(InstructionUnpackError)
    ensures |rest| >= 49 && rest[48] > 1 ==> r == Err(InvalidAccountData)
    ensures |rest| == 49 && rest[48] <= 1 ==> r == Err(InstructionUnpackError)
    ensures |rest| >= 50 && rest[48] <= 1 && rest[49] > 1 ==> r == Err(InvalidAccountData)
    ensures |rest| >= 50 && rest[48] <= 1 && rest[49] <= 1 ==>
              r == Ok(InitReserve(LeU64(rest[32..40]), LeU64(rest[40..48]), rest[48] == 1, rest[49] == 1))
  {
    var config :- SkipReserveConfig(rest);
    var totalMiningSpeed :- UnpackU64(config);
    var kinkUtilRate :- UnpackU64(totalMiningSpeed.1);
    var usePythOracle :- UnpackBool(kinkUtilRate.1);
    var isLp :- UnpackBool(usePythOracle.1);
    assert config[..8] == rest[32..40] && config[8..][..8] == rest[40..48];
    Ok(InitReserve(totalMiningSpeed.0, kinkUtilRate.0, usePythOracle.0, isLp.0))
  }

  /** `LendingInstruction::unpack`. Bytes after the last field a variant reads are
      ignored; the payload of `FlashLoan` after its amount is kept as `callBackData`. */
  function Unpack(input: seq<Byte>): (r: Result<LendingInstruction>)
    ensures |input| == 0 ==> r == Err(InstructionUnpackError)
  {
    if |input| == 0 then
      Err(InstructionUnpackError)
    else
      Dispatch(input[0], input[1..])
  }

  /** The `match` on the tag, given the payload that follows it. An unknown tag is
      `InstructionUnpackError`. */
  function Dispatch(tag: Byte, rest: seq<Byte>): (r: Result<LendingInstruction>)
    ensures !IsKnownTag(tag) ==> r == Err(InstructionUnpackError)
  {
    match tag
    case 0 =>
      var owner :- UnpackPubkey(rest);
      var quoteCurrency :- UnpackBytes32(owner.1);
      Ok(InitLendingMarket(owner.0, quoteCurrency.0))
    case 1 =>
      var newOwner :- UnpackPubkey(rest);
      Ok(SetLendingMarketOwner(newOwner.0))
    case 2 => UnpackInitReserve(rest)
    case 3 => Ok(RefreshReserve)
    case 4 =>
      var liquidityAmount :- UnpackU64(rest);
      Ok(DepositReserveLiquidity(liquidityAmount.0))
    case 5 =>
      var collateralAmount :- UnpackU64(rest);
      Ok(RedeemReserveCollateral(collateralAmount.0))
    case 6 => Ok(InitObligation)
    case 7 => Ok(RefreshObligation)
    case 8 =>
      var collateralAmount :- UnpackU64(rest);
      Ok(DepositObligationCollateral(collateralAmount.0))
    case 9 =>
      var collateralAmount :- UnpackU64(rest);
      Ok(WithdrawObligationCollateral(collateralAmount.0))
    case 10 =>
      var liquidityAmount :- UnpackU64(rest);
      Ok(BorrowObligationLiquidity(liquidityAmount.0))
    case 11 =>
      var liquidityAmount :- UnpackU64(rest);
      Ok(RepayObligationLiquidity(liquidityAmount.0))
    case 12 =>
      var liquidityAmount :- UnpackU64(rest);
      Ok(LiquidateObligation(liquidityAmount.0))
    case 13 =>
      var amount :- UnpackU64(rest);
      Ok(FlashLoan(amount.0, amount.1))
    case 14 => Ok(SetConfig)
    case 16 => Ok(InitMining)
    case 18 =>
      var amount :- UnpackU64(rest);
      Ok(DepositMining(amount.0))
    case 19 =>
      var amount :- UnpackU64(rest);
      Ok(WithdrawMining(amount.0))
    case 20 => Ok(ClaimMiningMine)
    case 21 => Ok(ClaimObligationMine)
    case 22 => Ok(ClaimOwnerFee)
    case 23 => Ok(ReceivePendingOwner)
    case 24 => Ok(RefreshReserves)
    case 25 =>
      var liquidityAmount :- UnpackU64(rest);
      Ok(LiquidateObligation2(liquidityAmount.0))
    case _ => Err(InstructionUnpackError)
  }

  /** `split_first`: a non-empty input is decoded by dispatching on its first byte. */
  lemma {:induction false} UnpackSplitsTag(t: Byte, rest: seq<Byte>)
    ensures Unpack([t] + rest) == Dispatch(t, rest)
  {
    assert ([t] + rest)[1..] == rest;
  }

  /** The amount variants read the little-endian `u64` of the first 8 payload bytes,
      fail on a shorter payload and ignore what follows. */
  lemma {:induction false} AmountPayload(t: Byte, rest: seq<Byte>)
    requires t in AMOUNT_TAGS
    ensures |rest| < 8 ==> Dispatch(t, rest) == Err(InstructionUnpackError)
    ensures |rest| >= 8 ==>
              var r := Dispatch(t, rest);
              r.Ok? && Tag(r.value) == t && Amount(r.value) == LeValue(rest[..8]) &&
              r == Dispatch(t, rest[..8])
  {
    if t <= 10 {
      AmountPayloadLow(t, rest);
    } else {
      AmountPayloadHigh(t, rest);
    }
  }

  /** `AmountPayload` for the tags 4, 5, 8, 9 and 10. */
  lemma {:induction false} AmountPayloadLow(t: Byte, rest: seq<Byte>)
    requires t in AMOUNT_TAGS && t <= 10
    ensures |rest| < 8 ==> Dispatch(t, rest) == Err(InstructionUnpackError)
    ensures |rest| >= 8 ==>
              var r := Dispatch(t, rest);
              r.Ok? && Tag(r.value) == t && Amount(r.value) == LeValue(rest[..8]) &&
              r == Dispatch(t, rest[..8])
  {
    assert |rest| >= 8 ==> rest[..8][..8] == rest[..8];
    match t
    case 4 => case 5 => case 8 => case 9 => case 10 =>
  }

  /** `AmountPayload` for the tags 11, 12, 18, 19 and 25. */
  lemma {:induction false} AmountPayloadHigh(t: Byte, rest: seq<Byte>)
    requires t in AMOUNT_TAGS && t > 10
    ensures |rest| < 8 ==> Dispatch(t, rest) == Err(InstructionUnpackError)
    ensures |rest| >= 8 ==>
              var r := Dispatch(t, rest);
              r.Ok? && Tag(r.value) == t && Amount(r.value) == LeValue(rest[..8]) &&
              r == Dispatch(t, rest[..8])
  {
    assert |rest| >= 8 ==> rest[..8][..8] == rest[..8];
    match t
    case 11 => case 12 => case 18 => case 19 => case 25 =>
  }

  /** Tag 0 reads two 32-byte keys, owner then quote currency. */
  lemma {:induction false} InitLendingMarketPayload(rest: seq<Byte>)
    ensures |rest| < 64 ==> Dispatch(0, rest) == Err(InstructionUnpackError)
    ensures |rest| >= 64 ==> Dispatch(0, rest) == Ok(InitLendingMarket(rest[..32], rest[32..64]))
  {
    if |rest| >= 64 {
      assert rest[32..][..32] == rest[32..64];
    }
  }

  /** Tag 1 reads one 32-byte key. */
  lemma {:induction false} SetLendingMarketOwnerPayload(rest: seq<Byte>)
    ensures |rest| < 32 ==> Dispatch(1, rest) == Err(InstructionUnpackError)
    ensures |rest| >= 32 ==> Dispatch(1, rest) == Ok(SetLendingMarketOwner(rest[..32]))
  {
  }

  /** Tag 2 decodes its payload as `UnpackInitReserve` does. */
  lemma {:induction false} InitReservePayload(rest: seq<Byte>)
    ensures Dispatch(2, rest) == UnpackInitReserve(rest)
  {
  }

  /** Tag 13 reads the amount and keeps every remaining byte as the callback data. */
  lemma {:induction false} FlashLoanPayload(rest: seq<Byte>)
    ensures |rest| < 8 ==> Dispatch(13, rest) == Err(InstructionUnpackError)
    ensures |rest| >= 8 ==> Dispatch(13, rest) == Ok(FlashLoan(LeU64(rest[..8]), rest[8..]))
  {
  }

  /** A decoded instruction carries the tag it was read from, so `Tag` inverts `Dispatch`
      on every success. Every failure but a bad boolean byte of `InitReserve` is
      `InstructionUnpackError`. */
  lemma {:induction false} DispatchTag(tag: Byte, rest: seq<Byte>)
    ensures Dispatch(tag, rest).Ok? ==> IsKnownTag(tag) && Tag(Dispatch(tag, rest).value) == tag
    ensures Dispatch(tag, rest).Err? && tag != 2 ==> Dispatch(tag, rest).error == InstructionUnpackError
  {
  }

  /** The variants without a payload are decoded whatever follows the tag. */
  lemma {:induction false} NoPayload(t: Byte, rest: seq<Byte>)
    requires t in NO_PAYLOAD_TAGS
    ensures Dispatch(t, rest).Ok? && Tag(Dispatch(t, rest).value) == t
    ensures Dispatch(t, rest) == Dispatch(t, [])
  {
    match t
    case 3 => case 6 => case 7 => case 14 => case 16 =>
    case 20 => case 21 => case 22 => case 23 => case 24 =>
  }

  /** Tag 18 is `DepositMining` and tag 19 is `WithdrawMining`. */
  lemma {:induction false} MiningTags(a: U64, tail: seq<Byte>)
    ensures Dispatch(18, U64Bytes(a) + tail) == Ok(DepositMining(a))
    ensures Dispatch(19, U64Bytes(a) + tail) == Ok(WithdrawMining(a))
  {
    ReadU64OfEncoding(a, tail);
  }

  /** Every tag outside 0..14, 16 and 18..25 (so 15, 17 and 26..255) is rejected,
      whatever the payload. Every other tag has payloads it accepts: see the lemmas
      above, one per payload shape. */
  lemma {:induction false} UnknownTagRejected(t: Byte, rest: seq<Byte>)
    requires !IsKnownTag(t)
    ensures Dispatch(t, rest) == Err(InstructionUnpackError)
  {
  }
}
