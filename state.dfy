/** The helpers and constants shared by the three persisted records (src/state/mod.rs). */
module State {
  import opened Bytes
  import opened Wrappers

  /** Current version of the program and of all new accounts it creates. */
  const PROGRAM_VERSION: U8 := 1

  /** Accounts are created zero-filled, so an uninitialized record has version 0. */
  const UNINITIALIZED_VERSION: U8 := 0

  /** Number of host-fee receiver slots in a reserve record. */
  const HOST_FEE_RECEIVER_COUNT: nat := 5

  /** A `Decimal` is modelled by its raw scaled integer (the value times 10^18).
      The arithmetic of the `math` module is not part of this model. */
  datatype Decimal = Decimal(scaled: nat)

  const DECIMAL_ZERO := Decimal(0)

  /** True when the scaled value fits in a `u128`, i.e. when `to_scaled_val` succeeds. */
  predicate FitsU128(d: Decimal) {
    d.scaled < 0x1_0000_0000_0000_0000_0000_0000_0000_0000
  }

  /** `Decimal::from_scaled_val`. */
  function FromScaledVal(v: U128): (d: Decimal)
    ensures FitsU128(d)
  {
    Decimal(v)
  }

  /** `Decimal::to_scaled_val`, restricted to the values for which it succeeds. */
  function ToScaledVal(d: Decimal): (v: U128)
    requires FitsU128(d)
  {
    d.scaled
  }

  /** The 16 bytes `pack_decimal` stores: the little-endian `u128` of the scaled value. */
  function DecimalBytes(d: Decimal): (b: seq<Byte>)
    requires FitsU128(d)
    ensures |b| == 16 && LeValue(b) == d.scaled
  {
    Pow256Widths();
    LeValueOfBytes(d.scaled, 16);
    LeBytes(ToScaledVal(d), 16)
  }

  /** True when the 16 bytes of `part` hold `d` as `pack_decimal` writes it. */
  predicate StoresDecimal(part: seq<Byte>, d: Decimal) {
    FitsU128(d) && part == DecimalBytes(d)
  }

  /** `pack_decimal`: overwrites its `&mut [u8; 16]` destination, here part `k` of
      `output` as `mut_array_refs!` splits it by the widths `ws`. The source's `expect`
      panics when the value does not fit in a `u128`, hence the precondition. */
  method PackDecimal(d: Decimal, output: array<Byte>, ws: seq<nat>, k: nat)
    requires FitsU128(d)
    requires Sum(ws) <= output.Length && k < |ws| && ws[k] == 16
    modifies output
    ensures Parts(output[..], ws) == old(Parts(output[..], ws))[k := DecimalBytes(d)]
    ensures output[Sum(ws)..] == old(output[Sum(ws)..])
  {
    WriteWholePart(output, ws, k, DecimalBytes(d));
  }

  /** `unpack_decimal`: total on every 16-byte window. */
  function UnpackDecimal(src: seq<Byte>): (d: Decimal)
    requires |src| == 16
    ensures FitsU128(d) && DecimalBytes(d) == src
  {
    Pow256Widths();
    LeBytesOfValue(src);
    FromScaledVal(LeValue(src))
  }

  /** Unpacking what `pack_decimal` wrote gives back the decimal. */
  lemma {:induction false} DecimalRoundTrip(d: Decimal)
    requires FitsU128(d)
    ensures UnpackDecimal(DecimalBytes(d)) == d
  {
    Pow256Widths();
    LeValueOfBytes(d.scaled, 16);
  }

  /** Zero encodes as all-zero bytes, in every width the records use. */
  lemma {:induction false} ZeroBytes()
    ensures U64Bytes(0) == Zeros(8)
    ensures DecimalBytes(DECIMAL_ZERO) == Zeros(16)
    ensures [0] == Zeros(1) && [BoolByte(false)] == Zeros(1)
  {
    LeValueOfZeros(8);
    LeBytesOfValue(Zeros(8));
    LeValueOfZeros(16);
    LeBytesOfValue(Zeros(16));
  }

  /** The byte `pack_bool` stores (`boolean as u8`). */
  function BoolByte(b: bool): Byte {
    if b then 1 else 0
  }

  /** `pack_bool`: overwrites its one-byte destination, here part `k` of `output`. */
  method PackBool(b: bool, output: array<Byte>, ws: seq<nat>, k: nat)
    requires Sum(ws) <= output.Length && k < |ws| && ws[k] == 1
    modifies output
    ensures Parts(output[..], ws) == old(Parts(output[..], ws))[k := [BoolByte(b)]]
    ensures output[Sum(ws)..] == old(output[Sum(ws)..])
  {
    WriteWholePart(output, ws, k, [BoolByte(b)]);
  }

  /** `unpack_bool`: only the bytes 0 and 1 are booleans. */
  function UnpackBool(src: Byte): (r: Result<bool>)
    ensures r.Ok? <==> src <= 1
    ensures r.Ok? ==> BoolByte(r.value) == src
    ensures r.Err? ==> r.error == InvalidAccountData
  {
    match src
    case 0 => Ok(false)
    case 1 => Ok(true)
    case _ => Err(InvalidAccountData)
  }

  /** `unpack_bool` inverts `pack_bool`. */
  lemma {:induction false} BoolRoundTrip(b: bool)
    ensures UnpackBool(BoolByte(b)) == Ok(b)
  {
  }

  /** `LastUpdate` (its module is not part of this model): the slot of the last update
      and whether the record is stale. */
  datatype LastUpdate = LastUpdate(slot: U64, stale: bool)
}
