/** The lending market record and its 418-byte codec (src/state/lending_market.rs). */
module LendingMarket {
  import opened Bytes
  import opened Wrappers
  import opened State

  datatype LendingMarket = LendingMarket(
    version: U8,
    bumpSeed: U8,
    pendingOwner: Pubkey,
    owner: Pubkey,
    quoteCurrency: Pubkey,
    tokenProgramId: Pubkey,
    oracleProgramId: Pubkey,
    larixOracleProgramId: Pubkey,
    larixOracleId: Pubkey,
    mineMint: Pubkey,
    mineSupplyAccount: Pubkey,
    mineLockProgram: Pubkey,
    lockLarixTimesToTime: U64,
    maxClaimTimes: U16)

  datatype InitLendingMarketParams = InitLendingMarketParams(
    bumpSeed: U8,
    owner: Pubkey,
    quoteCurrency: Pubkey,
    tokenProgramId: Pubkey,
    oracleProgramId: Pubkey,
    larixOracleProgramId: Pubkey,
    larixOracleId: Pubkey,
    mineMint: Pubkey,
    mineSupplyAccount: Pubkey,
    mineLockProgram: Pubkey)

  /** `LendingMarket::default()`: every field zero. */
  const DEFAULT_MARKET := LendingMarket(0, 0, DEFAULT_PUBKEY, DEFAULT_PUBKEY, DEFAULT_PUBKEY,
    DEFAULT_PUBKEY, DEFAULT_PUBKEY, DEFAULT_PUBKEY, DEFAULT_PUBKEY, DEFAULT_PUBKEY,
    DEFAULT_PUBKEY, DEFAULT_PUBKEY, 0, 0)

  /** The widths `pack_into_slice` and `unpack_from_slice` hand to `mut_array_refs!` /
      `array_refs!`, in order; the constants below name the parts. */
  const MARKET_WIDTHS: seq<nat> := [1, 1, PUBKEY_BYTES, PUBKEY_BYTES, PUBKEY_BYTES,
    PUBKEY_BYTES, PUBKEY_BYTES, PUBKEY_BYTES, PUBKEY_BYTES, PUBKEY_BYTES, PUBKEY_BYTES,
    PUBKEY_BYTES, 8, 2, 86]

  const VERSION: nat := 0
  const BUMP_SEED: nat := 1
  const PENDING_OWNER: nat := 2
  const OWNER: nat := 3
  const QUOTE_CURRENCY: nat := 4
  const TOKEN_PROGRAM_ID: nat := 5
  const ORACLE_PROGRAM_ID: nat := 6
  const LARIX_ORACLE_PROGRAM_ID: nat := 7
  const LARIX_ORACLE_ID: nat := 8
  const MINE_MINT: nat := 9
  const MINE_SUPPLY_ACCOUNT: nat := 10
  const MINE_LOCK_PROGRAM: nat := 11
  const LOCK_LARIX_TIMES_TO_TIME: nat := 12
  const MAX_CLAIM_TIMES: nat := 13
  const PADDING: nat := 14

  /** The record's size: the sum of its part widths, 418 (see `MarketLayout`). */
  const LENDING_MARKET_LEN: nat := Sum(MARKET_WIDTHS)

  /** The offset of every field in the record and its total size. */
  lemma {:induction false} MarketLayout()
    ensures Offset(MARKET_WIDTHS, BUMP_SEED) == 1
    ensures Offset(MARKET_WIDTHS, PENDING_OWNER) == 2
    ensures Offset(MARKET_WIDTHS, OWNER) == 34
    ensures Offset(MARKET_WIDTHS, QUOTE_CURRENCY) == 66
    ensures Offset(MARKET_WIDTHS, TOKEN_PROGRAM_ID) == 98
    ensures Offset(MARKET_WIDTHS, ORACLE_PROGRAM_ID) == 130
    ensures Offset(MARKET_WIDTHS, LARIX_ORACLE_PROGRAM_ID) == 162
    ensures Offset(MARKET_WIDTHS, LARIX_ORACLE_ID) == 194
    ensures Offset(MARKET_WIDTHS, MINE_MINT) == 226
    ensures Offset(MARKET_WIDTHS, MINE_SUPPLY_ACCOUNT) == 258
    ensures Offset(MARKET_WIDTHS, MINE_LOCK_PROGRAM) == 290
    ensures Offset(MARKET_WIDTHS, LOCK_LARIX_TIMES_TO_TIME) == 322
    ensures Offset(MARKET_WIDTHS, MAX_CLAIM_TIMES) == 330
    ensures Offset(MARKET_WIDTHS, PADDING) == 332
    ensures LENDING_MARKET_LEN == 418
  {
    var ws := MARKET_WIDTHS;
    assert Offset(ws, 0) == 0;
    OffsetNext(ws, 0);
    OffsetNext(ws, 1);
    OffsetNext(ws, 2);
    OffsetNext(ws, 3);
    OffsetNext(ws, 4);
    OffsetNext(ws, 5);
    OffsetNext(ws, 6);
    OffsetNext(ws, 7);
    OffsetNext(ws, 8);
    OffsetNext(ws, 9);
    OffsetNext(ws, 10);
    OffsetNext(ws, 11);
    OffsetNext(ws, 12);
    OffsetNext(ws, 13);
    OffsetNext(ws, 14);
  }

  /** `is_initialized`. */
  predicate IsInitialized(m: LendingMarket) {
    m.version != UNINITIALIZED_VERSION
  }

  /** `init`: stamps the program version, clears the pending owner and copies the
      parameters; the lock ratio and the claim limit keep whatever `m` held. */
  method InitLendingMarket(m: LendingMarket, params: InitLendingMarketParams)
    returns (r: LendingMarket)
    ensures r.version == PROGRAM_VERSION && IsInitialized(r)
    ensures r.bumpSeed == params.bumpSeed
    ensures r.pendingOwner == DEFAULT_PUBKEY
    ensures r.owner == params.owner && r.quoteCurrency == params.quoteCurrency
    ensures r.tokenProgramId == params.tokenProgramId
    ensures r.oracleProgramId == params.oracleProgramId
    ensures r.larixOracleProgramId == params.larixOracleProgramId
    ensures r.larixOracleId == params.larixOracleId
    ensures r.mineMint == params.mineMint && r.mineSupplyAccount == params.mineSupplyAccount
    ensures r.mineLockProgram == params.mineLockProgram
    ensures r.lockLarixTimesToTime == m.lockLarixTimesToTime
    ensures r.maxClaimTimes == m.maxClaimTimes
    ensures r == InitFromParams(m, params)
  {
    r := m;
    r := r.(version := PROGRAM_VERSION);
    r := r.(bumpSeed := params.bumpSeed);
    r := r.(pendingOwner := DEFAULT_PUBKEY);
    r := r.(owner := params.owner);
    r := r.(quoteCurrency := params.quoteCurrency);
    r := r.(tokenProgramId := params.tokenProgramId);
    r := r.(oracleProgramId := params.oracleProgramId);
    r := r.(larixOracleProgramId := params.larixOracleProgramId);
    r := r.(larixOracleId := params.larixOracleId);
    r := r.(mineMint := params.mineMint);
    r := r.(mineSupplyAccount := params.mineSupplyAccount);
    r := r.(mineLockProgram := params.mineLockProgram);
  }

  /** `new`: `init` applied to the default market, so the two fields `init` skips are 0;
      the new market is initialized and survives an encode/decode round trip. */
  method NewLendingMarket(params: InitLendingMarketParams) returns (r: LendingMarket)
    ensures IsInitialized(r) && r.pendingOwner == DEFAULT_PUBKEY
    ensures r.owner == params.owner && r.bumpSeed == params.bumpSeed
    ensures r.lockLarixTimesToTime == 0 && r.maxClaimTimes == 0
    ensures r == InitFromParams(DEFAULT_MARKET, params)
  {
    r := InitLendingMarket(DEFAULT_MARKET, params);
  }

  /** The market `init` produces from `m` and `params`, as a value. */
  function InitFromParams(m: LendingMarket, params: InitLendingMarketParams): LendingMarket {
    LendingMarket(PROGRAM_VERSION, params.bumpSeed, DEFAULT_PUBKEY, params.owner,
      params.quoteCurrency, params.tokenProgramId, params.oracleProgramId,
      params.larixOracleProgramId, params.larixOracleId, params.mineMint,
      params.mineSupplyAccount, params.mineLockProgram, m.lockLarixTimesToTime,
      m.maxClaimTimes)
  }

  /** True when the parts `p` of a buffer hold the fields of `m` as `pack_into_slice`
      stores them (everything but the padding). */
  predicate StoresMarket(p: seq<seq<Byte>>, m: LendingMarket)
    requires |p| == |MARKET_WIDTHS|
  {
    StoresMarketKeys(p, m) && StoresMarketMine(p, m)
  }

  /** The parts up to the pending owner. */
  predicate StoresMarketKeys(p: seq<seq<Byte>>, m: LendingMarket)
    requires |p| == |MARKET_WIDTHS|
  {
    && p[VERSION] == [m.version]
    && p[BUMP_SEED] == [m.bumpSeed]
    && p[PENDING_OWNER] == m.pendingOwner
    && p[OWNER] == m.owner
    && p[QUOTE_CURRENCY] == m.quoteCurrency
    && p[TOKEN_PROGRAM_ID] == m.tokenProgramId
    && p[ORACLE_PROGRAM_ID] == m.oracleProgramId
    && p[LARIX_ORACLE_PROGRAM_ID] == m.larixOracleProgramId
  }

  /** The parts from the Larix oracle id to the claim limit. */
  predicate StoresMarketMine(p: seq<seq<Byte>>, m: LendingMarket)
    requires |p| == |MARKET_WIDTHS|
  {
    && p[LARIX_ORACLE_ID] == m.larixOracleId
    && p[MINE_MINT] == m.mineMint
    && p[MINE_SUPPLY_ACCOUNT] == m.mineSupplyAccount
    && p[MINE_LOCK_PROGRAM] == m.mineLockProgram
    && p[LOCK_LARIX_TIMES_TO_TIME] == U64Bytes(m.lockLarixTimesToTime)
    && p[MAX_CLAIM_TIMES] == U16Bytes(m.maxClaimTimes)
  }

  /** True when `ws` has the widths `mut_array_refs!` and `array_refs!` split the record
      by, `MARKET_WIDTHS`, stated part by part. */
  predicate IsMarketSplit(ws: seq<nat>) {
    && |ws| == |MARKET_WIDTHS|
    && ws[VERSION] == 1 && ws[BUMP_SEED] == 1
    && ws[PENDING_OWNER] == PUBKEY_BYTES && ws[OWNER] == PUBKEY_BYTES
    && ws[QUOTE_CURRENCY] == PUBKEY_BYTES && ws[TOKEN_PROGRAM_ID] == PUBKEY_BYTES
    && ws[ORACLE_PROGRAM_ID] == PUBKEY_BYTES && ws[LARIX_ORACLE_PROGRAM_ID] == PUBKEY_BYTES
    && ws[LARIX_ORACLE_ID] == PUBKEY_BYTES && ws[MINE_MINT] == PUBKEY_BYTES
    && ws[MINE_SUPPLY_ACCOUNT] == PUBKEY_BYTES && ws[MINE_LOCK_PROGRAM] == PUBKEY_BYTES
    && ws[LOCK_LARIX_TIMES_TO_TIME] == 8 && ws[MAX_CLAIM_TIMES] == 2
  }

  /** `MARKET_WIDTHS` is that split. */
  lemma {:induction false} MarketSplit()
    ensures IsMarketSplit(MARKET_WIDTHS)
  {
  }

  /** `pack_into_slice`: writes every field into its part of `output`; the padding and
      whatever follows the record keep their bytes, and a market of a supported version
      decodes back to itself. */
  method PackLendingMarket(m: LendingMarket, output: array<Byte>)
    requires output.Length >= LENDING_MARKET_LEN
    modifies output
    ensures StoresMarket(Parts(output[..], MARKET_WIDTHS), m)
    ensures Parts(output[..], MARKET_WIDTHS)[PADDING] == old(Parts(output[..], MARKET_WIDTHS))[PADDING]
    ensures output[LENDING_MARKET_LEN..] == old(output[LENDING_MARKET_LEN..])
    ensures m.version <= PROGRAM_VERSION ==> UnpackLendingMarket(output[..]) == Ok(m)
  {
    PackMarketParts(m, output, MARKET_WIDTHS);
    if m.version <= PROGRAM_VERSION {
      MarketRoundTrip(m, output[..]);
    }
  }

  /** The field writes of `pack_into_slice`, in the source's order, once
      `mut_array_refs!` has split `output` by `ws`. */
  method PackMarketParts(m: LendingMarket, output: array<Byte>, ws: seq<nat>)
    requires IsMarketSplit(ws) && Sum(ws) <= output.Length
    modifies output
    ensures StoresMarket(Parts(output[..], ws), m)
    ensures Parts(output[..], ws)[PADDING] == old(Parts(output[..], ws))[PADDING]
    ensures output[Sum(ws)..] == old(output[Sum(ws)..])
  {
    PackMarketKeys(m, output, ws);
    PackMarketMine(m, output, ws);
  }

  /** The writes from the version to the pending owner. */
  method PackMarketKeys(m: LendingMarket, output: array<Byte>, ws: seq<nat>)
    requires IsMarketSplit(ws) && Sum(ws) <= output.Length
    modifies output
    ensures StoresMarketKeys(Parts(output[..], ws), m)
    ensures forall j | LARIX_ORACLE_PROGRAM_ID < j < |ws| ::
      Parts(output[..], ws)[j] == old(Parts(output[..], ws))[j]
    ensures output[Sum(ws)..] == old(output[Sum(ws)..])
  {
    PackMarketOwnership(m, output, ws);
    PackMarketPrograms(m, output, ws);
  }

  /** The first four writes: the version, the bump seed, the owner and the quote
      currency. */
  method PackMarketOwnership(m: LendingMarket, output: array<Byte>, ws: seq<nat>)
    requires IsMarketSplit(ws) && Sum(ws) <= output.Length
    modifies output
    ensures Parts(output[..], ws)[VERSION] == [m.version]
    ensures Parts(output[..], ws)[BUMP_SEED] == [m.bumpSeed]
    ensures Parts(output[..], ws)[OWNER] == m.owner
    ensures Parts(output[..], ws)[QUOTE_CURRENCY] == m.quoteCurrency
    ensures forall j | 0 <= j < |ws| && j != VERSION && j != BUMP_SEED && j != OWNER && j != QUOTE_CURRENCY ::
      Parts(output[..], ws)[j] == old(Parts(output[..], ws))[j]
    ensures output[Sum(ws)..] == old(output[Sum(ws)..])
  {
    WriteWholePart(output, ws, VERSION, [m.version]);
    WriteWholePart(output, ws, BUMP_SEED, [m.bumpSeed]);
    WriteWholePart(output, ws, OWNER, m.owner);
    WriteWholePart(output, ws, QUOTE_CURRENCY, m.quoteCurrency);
  }

  /** The next four writes: the three program ids, then the pending owner. */
  method PackMarketPrograms(m: LendingMarket, output: array<Byte>, ws: seq<nat>)
    requires IsMarketSplit(ws) && Sum(ws) <= output.Length
    modifies output
    ensures Parts(output[..], ws)[TOKEN_PROGRAM_ID] == m.tokenProgramId
    ensures Parts(output[..], ws)[ORACLE_PROGRAM_ID] == m.oracleProgramId
    ensures Parts(output[..], ws)[LARIX_ORACLE_PROGRAM_ID] == m.larixOracleProgramId
    ensures Parts(output[..], ws)[PENDING_OWNER] == m.pendingOwner
    ensures forall j | 0 <= j < |ws| && !(PENDING_OWNER == j || TOKEN_PROGRAM_ID <= j <= LARIX_ORACLE_PROGRAM_ID) ::
      Parts(output[..], ws)[j] == old(Parts(output[..], ws))[j]
    ensures output[Sum(ws)..] == old(output[Sum(ws)..])
  {
    WriteWholePart(output, ws, TOKEN_PROGRAM_ID, m.tokenProgramId);
    WriteWholePart(output, ws, ORACLE_PROGRAM_ID, m.oracleProgramId);
    WriteWholePart(output, ws, LARIX_ORACLE_PROGRAM_ID, m.larixOracleProgramId);
    WriteWholePart(output, ws, PENDING_OWNER, m.pendingOwner);
  }

  /** The writes from the Larix oracle id to the claim limit. */
  method PackMarketMine(m: LendingMarket, output: array<Byte>, ws: seq<nat>)
    requires IsMarketSplit(ws) && Sum(ws) <= output.Length
    modifies output
    ensures StoresMarketMine(Parts(output[..], ws), m)
    ensures forall j | 0 <= j < |ws| && !(LARIX_ORACLE_ID <= j <= MAX_CLAIM_TIMES) ::
      Parts(output[..], ws)[j] == old(Parts(output[..], ws))[j]
    ensures output[Sum(ws)..] == old(output[Sum(ws)..])
  {
    WriteWholePart(output, ws, LARIX_ORACLE_ID, m.larixOracleId);
    WriteWholePart(output, ws, MINE_MINT, m.mineMint);
    WriteWholePart(output, ws, MINE_SUPPLY_ACCOUNT, m.mineSupplyAccount);
    WriteWholePart(output, ws, MINE_LOCK_PROGRAM, m.mineLockProgram);
    WriteWholePart(output, ws, LOCK_LARIX_TIMES_TO_TIME, U64Bytes(m.lockLarixTimesToTime));
    WriteWholePart(output, ws, MAX_CLAIM_TIMES, U16Bytes(m.maxClaimTimes));
  }

  /** `unpack_from_slice`: only the version can make it fail, and what it returns is
      exactly what the parts of the input store. */
  function UnpackLendingMarket(input: seq<Byte>): (r: Result<LendingMarket>)
    requires |input| >= LENDING_MARKET_LEN
    ensures r.Ok? <==> input[0] <= PROGRAM_VERSION
    ensures r.Err? ==> r.error == InvalidAccountData
    ensures r.Ok? ==> StoresMarket(Parts(input, MARKET_WIDTHS), r.value)
  {
    WidthsOfParts(input, MARKET_WIDTHS);
    MarketSplit();
    UnpackMarketParts(Parts(input, MARKET_WIDTHS))
  }

  /** The body of `unpack_from_slice` once `array_refs!` has split the input into `p`. */
  function UnpackMarketParts(p: seq<seq<Byte>>): (r: Result<LendingMarket>)
    requires IsMarketSplit(Widths(p))
    ensures r.Ok? <==> p[VERSION][0] <= PROGRAM_VERSION
    ensures r.Err? ==> r.error == InvalidAccountData
    ensures r.Ok? ==> StoresMarket(p, r.value)
  {
    var version := p[VERSION][0];
    if version > PROGRAM_VERSION then
      Err(InvalidAccountData)
    else
      Ok(LendingMarket(
        version,
        p[BUMP_SEED][0],
        p[PENDING_OWNER],
        p[OWNER],
        p[QUOTE_CURRENCY],
        p[TOKEN_PROGRAM_ID],
        p[ORACLE_PROGRAM_ID],
        p[LARIX_ORACLE_PROGRAM_ID],
        p[LARIX_ORACLE_ID],
        p[MINE_MINT],
        p[MINE_SUPPLY_ACCOUNT],
        p[MINE_LOCK_PROGRAM],
        LeU64(p[LOCK_LARIX_TIMES_TO_TIME]),
        LeU16(p[MAX_CLAIM_TIMES])))
  }

  /** Decoding a buffer whose parts hold `m`'s fields gives back `m`, whatever the padding. */
  lemma {:induction false} MarketRoundTrip(m: LendingMarket, s: seq<Byte>)
    requires m.version <= PROGRAM_VERSION
    requires |s| >= LENDING_MARKET_LEN
    requires StoresMarket(Parts(s, MARKET_WIDTHS), m)
    ensures UnpackLendingMarket(s) == Ok(m)
  {
  }

  /** Two buffers that store the same market, with the same padding and the same bytes
      past the record, are equal: re-encoding a decoded market over its own buffer
      leaves the buffer as it was. */
  lemma {:induction false} MarketStoredOnce(s: seq<Byte>, t: seq<Byte>, m: LendingMarket)
    requires |s| == |t| >= LENDING_MARKET_LEN
    requires StoresMarket(Parts(s, MARKET_WIDTHS), m) && StoresMarket(Parts(t, MARKET_WIDTHS), m)
    requires Parts(s, MARKET_WIDTHS)[PADDING] == Parts(t, MARKET_WIDTHS)[PADDING]
    requires s[LENDING_MARKET_LEN..] == t[LENDING_MARKET_LEN..]
    ensures s == t
  {
    var p, q := Parts(s, MARKET_WIDTHS), Parts(t, MARKET_WIDTHS);
    assert forall k | 0 <= k < |MARKET_WIDTHS| :: p[k] == q[k];
    assert p == q;
    PartsDetermine(s, t, MARKET_WIDTHS);
  }

  /** A freshly created, zero-filled account decodes to the default market, which is not
      initialized. */
  lemma {:induction false} ZeroedMarket()
    ensures UnpackLendingMarket(Zeros(LENDING_MARKET_LEN)) == Ok(DEFAULT_MARKET)
    ensures !IsInitialized(DEFAULT_MARKET)
  {
    PartsOfZeros(LENDING_MARKET_LEN, MARKET_WIDTHS);
    LeValueOfZeros(8);
    LeValueOfZeros(2);
  }
}
