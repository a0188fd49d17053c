/** The slice-consuming readers of the instruction decoder (src/util/unpack_util.rs).
    Each returns the value it read together with the rest of the input. */
module UnpackUtil {
  import opened Bytes
  import opened Wrappers
  import State

  /** `unpack_u8`: the first byte, or an error on empty input. */
  function UnpackU8(input: seq<Byte>): (r: Result<(U8, seq<Byte>)>)
    ensures r.Ok? <==> |input| >= 1
    ensures r.Ok? ==> r.value.0 == input[0] && r.value.1 == input[1..]
    ensures r.Err? ==> r.error == InstructionUnpackError
  {
    if |input| == 0 then
      Err(InstructionUnpackError)
    else
      Ok((input[0], input[1..]))
  }

  /** `unpack_u64`: the little-endian value of the first 8 bytes. */
  function UnpackU64(input: seq<Byte>): (r: Result<(U64, seq<Byte>)>)
    ensures r.Ok? <==> |input| >= 8
    ensures r.Ok? ==> r.value.0 == LeValue(input[..8]) && r.value.1 == input[8..]
    ensures r.Err? ==> r.error == InstructionUnpackError
  {
    if |input| < 8 then
      Err(InstructionUnpackError)
    else
      Ok((LeU64(input[..8]), input[8..]))
  }

  /** `unpack_bool`: reads a byte with `unpack_u8`, which fails on empty input, and
      accepts only 0 and 1. */
  function UnpackBool(input: seq<Byte>): (r: Result<(bool, seq<Byte>)>)
    ensures r.Ok? <==> |input| >= 1 && input[0] <= 1
    ensures r.Ok? ==> r.value.1 == input[1..]
    ensures r.Ok? ==> r.value.0 == (input[0] == 1)
    ensures |input| == 0 ==> r == Err(InstructionUnpackError)
    ensures |input| >= 1 && input[0] > 1 ==> r == Err(InvalidAccountData)
  {
    var byte :- UnpackU8(input);
    match byte.0
    case 0 => Ok((false, byte.1))
    case 1 => Ok((true, byte.1))
    case _ => Err(InvalidAccountData)
  }

  /** `unpack_decimal`: the decimal whose scaled value is the little-endian `u128` of the
      first 16 bytes. */
  function UnpackDecimal(input: seq<Byte>): (r: Result<(State.Decimal, seq<Byte>)>)
    ensures r.Ok? <==> |input| >= 16
    ensures r.Ok? ==> State.FitsU128(r.value.0) && r.value.0.scaled == LeValue(input[..16])
    ensures r.Ok? ==> r.value.1 == input[16..]
    ensures r.Err? ==> r.error == InstructionUnpackError
  {
    if |input| < 16 then
      Err(InstructionUnpackError)
    else
      Ok((State.UnpackDecimal(input[..16]), input[16..]))
  }

  /** `unpack_bytes32`: the first 32 bytes. */
  function UnpackBytes32(input: seq<Byte>): (r: Result<(Pubkey, seq<Byte>)>)
    ensures r.Ok? <==> |input| >= 32
    ensures r.Ok? ==> r.value.0 == input[..32] && r.value.1 == input[32..]
    ensures r.Err? ==> r.error == InstructionUnpackError
  {
    if |input| < 32 then
      Err(InstructionUnpackError)
    else
      Ok((input[..32], input[32..]))
  }

  /** `unpack_pubkey`: the key made of the first `PUBKEY_BYTES` bytes. */
  function UnpackPubkey(input: seq<Byte>): (r: Result<(Pubkey, seq<Byte>)>)
    ensures r.Ok? <==> |input| >= PUBKEY_BYTES
    ensures r.Ok? ==> r.value.0 == input[..PUBKEY_BYTES] && r.value.1 == input[PUBKEY_BYTES..]
    ensures r.Err? ==> r.error == InstructionUnpackError
  {
    if |input| < PUBKEY_BYTES then
      Err(InstructionUnpackError)
    else
      Ok((input[..PUBKEY_BYTES], input[PUBKEY_BYTES..]))
  }

  /** Each reader, given the encoding of a value followed by anything, returns that
      value and exactly what followed. */
  lemma {:induction false} ReadU8OfEncoding(v: U8, rest: seq<Byte>)
    ensures UnpackU8([v] + rest) == Ok((v, rest))
  {
  }

  lemma {:induction false} ReadU64OfEncoding(v: U64, rest: seq<Byte>)
    ensures UnpackU64(U64Bytes(v) + rest) == Ok((v, rest))
  {
    var input := U64Bytes(v) + rest;
    assert input[..8] == U64Bytes(v);
  }

  lemma {:induction false} ReadBoolOfEncoding(b: bool, rest: seq<Byte>)
    ensures UnpackBool([State.BoolByte(b)] + rest) == Ok((b, rest))
  {
  }

  lemma {:induction false} ReadDecimalOfEncoding(d: State.Decimal, rest: seq<Byte>)
    requires State.FitsU128(d)
    ensures UnpackDecimal(State.DecimalBytes(d) + rest) == Ok((d, rest))
  {
    var input := State.DecimalBytes(d) + rest;
    assert input[..16] == State.DecimalBytes(d);
    State.DecimalRoundTrip(d);
  }

  lemma {:induction false} ReadKeyOfEncoding(k: Pubkey, rest: seq<Byte>)
    ensures UnpackPubkey(k + rest) == Ok((k, rest))
    ensures UnpackBytes32(k + rest) == Ok((k, rest))
  {
    assert (k + rest)[..32] == k;
  }
}
