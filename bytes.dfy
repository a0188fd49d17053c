/** Bytes, fixed-width unsigned integers, their little-endian encoding, and in-place
    writes of a byte string into a region of a mutable buffer. */
module Bytes {

  type Byte = x: int | 0 <= x < 0x100

  /** The Rust unsigned integer types of the persisted records. */
  type U8 = Byte
  type U16 = x: int | 0 <= x < 0x1_0000
  type U64 = x: int | 0 <= x < 0x1_0000_0000_0000_0000
  type U128 = x: int | 0 <= x < 0x1_0000_0000_0000_0000_0000_0000_0000_0000

  /** `PUBKEY_BYTES` of the Solana SDK. */
  const PUBKEY_BYTES: nat := 32

  /** A `Pubkey` is its 32 bytes; a `[u8; 32]` field has the same representation. */
  type Pubkey = s: seq<Byte> | |s| == PUBKEY_BYTES witness seq(32, _ => 0)

  /** `Pubkey::default()`, the all-zero key. */
  const DEFAULT_PUBKEY: Pubkey := Zeros(PUBKEY_BYTES)

  function Zeros(n: nat): (r: seq<Byte>)
    ensures |r| == n && forall i :: 0 <= i < n ==> r[i] == 0
  {
    seq(n, _ => 0)
  }

  function Pow256(n: nat): (r: nat)
    ensures r > 0
  {
    if n == 0 then 1 else 256 * Pow256(n - 1)
  }

  lemma {:induction false} Pow256Widths()
    ensures Pow256(1) == 0x100
    ensures Pow256(2) == 0x1_0000
    ensures Pow256(8) == 0x1_0000_0000_0000_0000
    ensures Pow256(16) == 0x1_0000_0000_0000_0000_0000_0000_0000_0000
  {
  }

  /** The unsigned value of a little-endian byte string (`uN::from_le_bytes`). */
  function LeValue(s: seq<Byte>): nat {
    if s == [] then 0 else s[0] + 256 * LeValue(s[1..])
  }

  /** An `n`-byte string encodes a value below `256^n`. */
  lemma {:induction false} LeValueBound(s: seq<Byte>)
    ensures LeValue(s) < Pow256(|s|)
  {
    if s != [] {
      LeValueBound(s[1..]);
    }
  }

  /** The `n`-byte little-endian encoding of `v` (`uN::to_le_bytes`). */
  function LeBytes(v: nat, n: nat): (s: seq<Byte>)
    requires v < Pow256(n)
    ensures |s| == n
  {
    if n == 0 then [] else [v % 256] + LeBytes(v / 256, n - 1)
  }

  /** Decoding an encoding gives back the value. */
  lemma {:induction false} LeValueOfBytes(v: nat, n: nat)
    requires v < Pow256(n)
    ensures LeValue(LeBytes(v, n)) == v
  {
    if n > 0 {
      LeValueOfBytes(v / 256, n - 1);
      assert LeBytes(v, n)[1..] == LeBytes(v / 256, n - 1);
    }
  }

  /** Encoding a decoded string gives back the string. */
  lemma {:induction false} LeBytesOfValue(s: seq<Byte>)
    ensures LeValue(s) < Pow256(|s|) && LeBytes(LeValue(s), |s|) == s
  {
    LeValueBound(s);
    if s != [] {
      LeBytesOfValue(s[1..]);
      var v := LeValue(s);
      assert v % 256 == s[0] && v / 256 == LeValue(s[1..]);
    }
  }

  /** `u16::from_le_bytes`. */
  function LeU16(s: seq<Byte>): (v: U16)
    requires |s| == 2
    ensures U16Bytes(v) == s
  {
    Pow256Widths();
    LeBytesOfValue(s);
    LeValue(s)
  }

  /** `u64::from_le_bytes`. */
  function LeU64(s: seq<Byte>): (v: U64)
    requires |s| == 8
    ensures U64Bytes(v) == s
  {
    Pow256Widths();
    LeBytesOfValue(s);
    LeValue(s)
  }

  /** `u16::to_le_bytes`. */
  function U16Bytes(v: U16): (s: seq<Byte>)
    ensures |s| == 2 && LeValue(s) == v
  {
    Pow256Widths();
    LeValueOfBytes(v, 2);
    LeBytes(v, 2)
  }

  /** `u64::to_le_bytes`. */
  function U64Bytes(v: U64): (s: seq<Byte>)
    ensures |s| == 8 && LeValue(s) == v
  {
    Pow256Widths();
    LeValueOfBytes(v, 8);
    LeBytes(v, 8)
  }

  /** The all-zero string encodes zero. */
  lemma {:induction false} LeValueOfZeros(n: nat)
    ensures LeValue(Zeros(n)) == 0
  {
    if n > 0 {
      assert Zeros(n)[1..] == Zeros(n - 1);
      LeValueOfZeros(n - 1);
    }
  }

  /** Multiplying by a width keeps the order of counts. */
  lemma {:induction false} MulMono(w: nat, a: nat, b: nat)
    requires a <= b
    ensures w * a <= w * b
  {
  }

  /** The byte string `s` with `b` written over its bytes `at .. at + |b|`. */
  function Splice(s: seq<Byte>, at: nat, b: seq<Byte>): (r: seq<Byte>)
    requires at + |b| <= |s|
    ensures |r| == |s|
  {
    s[..at] + b + s[at + |b|..]
  }

  /** Copies `b` into `output[at .. at + |b|]`. */
  method Write(output: array<Byte>, at: nat, b: seq<Byte>)
    requires at + |b| <= output.Length
    modifies output
    ensures output[..] == Splice(old(output[..]), at, b)
  {
    forall i | 0 <= i < |b| {
      output[at + i] := b[i];
    }
    assert output[..] == Splice(old(output[..]), at, b);
  }

  function Sum(ws: seq<nat>): nat {
    if ws == [] then 0 else ws[0] + Sum(ws[1..])
  }

  /** Where part `k` of a width list starts. */
  function Offset(ws: seq<nat>, k: nat): nat
    requires k <= |ws|
  {
    Sum(ws[..k])
  }

  /** The consecutive sub-slices of `s` with the widths `ws`: what the `array_refs!` and
      `mut_array_refs!` macros carve out of a buffer. */
  function Parts(s: seq<Byte>, ws: seq<nat>): (ps: seq<seq<Byte>>)
    requires Sum(ws) <= |s|
    ensures |ps| == |ws|
  {
    if ws == [] then [] else [s[..ws[0]]] + Parts(s[ws[0]..], ws[1..])
  }

  lemma {:induction false} OffsetStep(ws: seq<nat>, k: nat)
    requires 0 < k <= |ws|
    ensures Offset(ws, k) == ws[0] + Offset(ws[1..], k - 1)
  {
    assert ws[..k][1..] == ws[1..][..k - 1];
  }

  lemma {:induction false} OffsetBound(ws: seq<nat>, k: nat)
    requires k < |ws|
    ensures Offset(ws, k) + ws[k] <= Sum(ws)
  {
    if k > 0 {
      OffsetStep(ws, k);
      OffsetBound(ws[1..], k - 1);
    }
  }

  /** Each part starts where the previous one ends. */
  lemma {:induction false} OffsetNext(ws: seq<nat>, k: nat)
    requires k < |ws|
    ensures Offset(ws, k + 1) == Offset(ws, k) + ws[k]
    ensures k + 1 == |ws| ==> Offset(ws, k + 1) == Sum(ws)
  {
    OffsetStep(ws, k + 1);
    if k > 0 {
      OffsetStep(ws, k);
      OffsetNext(ws[1..], k - 1);
    }
    assert ws[..|ws|] == ws;
  }

  /** Part `k` is the slice of `s` at `Offset(ws, k)`. */
  lemma {:induction false} PartAt(s: seq<Byte>, ws: seq<nat>, k: nat)
    requires Sum(ws) <= |s| && k < |ws|
    ensures Offset(ws, k) + ws[k] <= Sum(ws)
    ensures Parts(s, ws)[k] == s[Offset(ws, k) .. Offset(ws, k) + ws[k]]
  {
    OffsetBound(ws, k);
    if k > 0 {
      var w, o := ws[0], Offset(ws[1..], k - 1);
      OffsetStep(ws, k);
      PartAt(s[w..], ws[1..], k - 1);
      assert Parts(s, ws)[k] == Parts(s[w..], ws[1..])[k - 1];
      SliceShift(s, w, o, o + ws[k]);
    }
  }

  /** Part `k` has width `ws[k]`. */
  lemma {:induction false} PartWidths(s: seq<Byte>, ws: seq<nat>)
    requires Sum(ws) <= |s|
    ensures forall k :: 0 <= k < |ws| ==> |Parts(s, ws)[k]| == ws[k]
  {
    if ws != [] {
      PartWidths(s[ws[0]..], ws[1..]);
      assert forall k :: 0 < k < |ws| ==> Parts(s, ws)[k] == Parts(s[ws[0]..], ws[1..])[k - 1];
    }
  }

  /** Updating the head of a list. */
  lemma {:induction false} UpdateHead<T>(a: T, r: seq<T>, y: T)
    ensures ([a] + r)[0 := y] == [y] + r
  {
  }

  /** Updating past the head of a list. */
  lemma {:induction false} UpdateTail<T>(a: T, r: seq<T>, k: nat, y: T)
    requires 0 < k <= |r|
    ensures ([a] + r)[k := y] == [a] + r[k - 1 := y]
  {
  }

  /** Writing inside part `k` changes part `k` only. */
  lemma {:induction false} PartsOfSplice(s: seq<Byte>, ws: seq<nat>, k: nat, at: nat, b: seq<Byte>)
    requires Sum(ws) <= |s| && k < |ws| && at + |b| <= ws[k]
    ensures Offset(ws, k) + at + |b| <= Sum(ws)
    ensures |Parts(s, ws)[k]| == ws[k]
    ensures Parts(Splice(s, Offset(ws, k) + at, b), ws) == Parts(s, ws)[k := Splice(Parts(s, ws)[k], at, b)]
  {
    OffsetBound(ws, k);
    PartAt(s, ws, k);
    var t := Splice(s, Offset(ws, k) + at, b);
    var w := ws[0];
    var rs := Parts(s[w..], ws[1..]);
    if k == 0 {
      assert t[..w] == Splice(s[..w], at, b);
      assert t[w..] == s[w..];
      UpdateHead(s[..w], rs, Splice(s[..w], at, b));
    } else {
      OffsetStep(ws, k);
      OffsetBound(ws[1..], k - 1);
      var o := Offset(ws[1..], k - 1);
      assert t[..w] == s[..w];
      assert t[w..] == Splice(s[w..], o + at, b);
      PartsOfSplice(s[w..], ws[1..], k - 1, at, b);
      UpdateTail(s[..w], rs, k, Splice(rs[k - 1], at, b));
    }
  }

  /** Two writes back to back are one write of both. */
  lemma {:induction false} SpliceConcat(s: seq<Byte>, at: nat, a: seq<Byte>, b: seq<Byte>)
    requires at + |a| + |b| <= |s|
    ensures Splice(Splice(s, at, a), at + |a|, b) == Splice(s, at, a + b)
  {
  }

  /** A prefix of `s` that is `a + b` splits into the prefix `a` and the window `b`. */
  lemma {:induction false} PrefixSplit(s: seq<Byte>, a: seq<Byte>, b: seq<Byte>)
    requires |a| + |b| <= |s| && s[..|a| + |b|] == a + b
    ensures s[..|a|] == a && s[|a| .. |a| + |b|] == b
  {
    assert s[..|a|] == s[..|a| + |b|][..|a|];
    assert s[|a| .. |a| + |b|] == s[..|a| + |b|][|a|..];
  }

  /** The prefix `a` of `s` followed by the window `b` right after it is a prefix. */
  lemma {:induction false} PrefixJoin(s: seq<Byte>, a: seq<Byte>, b: seq<Byte>)
    requires |a| + |b| <= |s| && s[..|a|] == a && s[|a| .. |a| + |b|] == b
    ensures s[..|a| + |b|] == a + b
  {
    assert s[..|a| + |b|] == s[..|a|] + s[|a| .. |a| + |b|];
  }

  /** The four fields laid end to end are the four windows of the result. */
  lemma {:induction false} ConcatWindows4(a: seq<Byte>, b: seq<Byte>, c: seq<Byte>, d: seq<Byte>)
    ensures (a + b + c + d)[..|a|] == a
    ensures (a + b + c + d)[|a| .. |a| + |b|] == b
    ensures (a + b + c + d)[|a| + |b| .. |a| + |b| + |c|] == c
    ensures (a + b + c + d)[|a| + |b| + |c| .. |a| + |b| + |c| + |d|] == d
  {
  }

  /** The five fields laid end to end are the five windows of the result. */
  lemma {:induction false} ConcatWindows5(a: seq<Byte>, b: seq<Byte>, c: seq<Byte>, d: seq<Byte>, e: seq<Byte>)
    ensures (a + b + c + d + e)[..|a|] == a
    ensures (a + b + c + d + e)[|a| .. |a| + |b|] == b
    ensures (a + b + c + d + e)[|a| + |b| .. |a| + |b| + |c|] == c
    ensures (a + b + c + d + e)[|a| + |b| + |c| .. |a| + |b| + |c| + |d|] == d
    ensures (a + b + c + d + e)[|a| + |b| + |c| + |d| .. |a| + |b| + |c| + |d| + |e|] == e
  {
    ConcatWindows4(a, b, c, d);
    var s := a + b + c + d;
    assert (s + e)[..|s|] == s;
  }

  /** The first `k` bytes of `s` past `at` are its window `at .. at + k`. */
  lemma {:induction false} SuffixPrefix(s: seq<Byte>, at: nat, k: nat)
    requires at + k <= |s|
    ensures s[at..][..k] == s[at .. at + k]
  {
  }

  /** A window of the suffix of `s` past `start` is the window of `s` shifted by `start`. */
  lemma {:induction false} SliceShift(s: seq<Byte>, start: nat, i: nat, j: nat)
    requires i <= j && start + j <= |s|
    ensures s[start..][i..j] == s[start + i .. start + j]
  {
  }

  /** What a write from the start of `s` leaves: `b` itself, then the rest of `s`. */
  lemma {:induction false} SpliceFromStart(s: seq<Byte>, b: seq<Byte>)
    requires |b| <= |s|
    ensures Splice(s, 0, b)[..|b|] == b && Splice(s, 0, b)[|b|..] == s[|b|..]
  {
  }

  /** `a` and `b` have the same length and agree from byte `n` on. */
  predicate AgreeFrom(a: seq<Byte>, b: seq<Byte>, n: nat) {
    n <= |a| == |b| && a[n..] == b[n..]
  }

  /** Writing before `n` leaves the bytes from `n` on alone. */
  lemma {:induction false} SpliceBefore(s: seq<Byte>, at: nat, b: seq<Byte>, n: nat)
    requires at + |b| <= n <= |s|
    ensures Splice(s, at, b)[n..] == s[n..]
  {
  }

  /** Every part of a zero-filled buffer is zero-filled. */
  lemma {:induction false} PartsOfZeros(n: nat, ws: seq<nat>)
    requires Sum(ws) <= n
    ensures forall k :: 0 <= k < |ws| ==> Parts(Zeros(n), ws)[k] == Zeros(ws[k])
  {
    if ws != [] {
      assert Zeros(n)[ws[0]..] == Zeros(n - ws[0]);
      PartsOfZeros(n - ws[0], ws[1..]);
    }
  }

  /** The widths of a list of parts. */
  function Widths(p: seq<seq<Byte>>): (ws: seq<nat>)
    ensures |ws| == |p| && forall k :: 0 <= k < |p| ==> ws[k] == |p[k]|
  {
    if p == [] then [] else [|p[0]|] + Widths(p[1..])
  }

  /** Splitting by `ws` gives parts of the widths `ws`. */
  lemma {:induction false} WidthsOfParts(s: seq<Byte>, ws: seq<nat>)
    requires Sum(ws) <= |s|
    ensures Widths(Parts(s, ws)) == ws
  {
    var p := Parts(s, ws);
    PartWidths(s, ws);
    assert forall k | 0 <= k < |ws| :: Widths(p)[k] == ws[k];
  }

  /** A buffer is determined by its parts and the bytes past them. */
  lemma {:induction false} PartsDetermine(s: seq<Byte>, t: seq<Byte>, ws: seq<nat>)
    requires Sum(ws) <= |s| == |t|
    requires Parts(s, ws) == Parts(t, ws) && s[Sum(ws)..] == t[Sum(ws)..]
    ensures s == t
  {
    if ws != [] {
      var w := ws[0];
      assert s[..w] == Parts(s, ws)[0] == Parts(t, ws)[0] == t[..w];
      assert Parts(s[w..], ws[1..]) == Parts(s, ws)[1..];
      assert Parts(t[w..], ws[1..]) == Parts(t, ws)[1..];
      assert s[w..][Sum(ws[1..])..] == s[Sum(ws)..];
      assert t[w..][Sum(ws[1..])..] == t[Sum(ws)..];
      PartsDetermine(s[w..], t[w..], ws[1..]);
      assert s == s[..w] + s[w..];
      assert t == t[..w] + t[w..];
    }
  }

  /** Writes `b` at `at` inside part `k` of `output` split by `ws`: the model of a write
      into a window of one of the sub-arrays `mut_array_refs!` hands out. */
  method WritePart(output: array<Byte>, ws: seq<nat>, k: nat, at: nat, b: seq<Byte>)
    requires Sum(ws) <= output.Length && k < |ws| && at + |b| <= ws[k]
    modifies output
    ensures |old(Parts(output[..], ws))[k]| == ws[k]
    ensures Parts(output[..], ws) == old(Parts(output[..], ws))[k := Splice(old(Parts(output[..], ws))[k], at, b)]
    ensures output[Sum(ws)..] == old(output[Sum(ws)..])
  {
    OffsetBound(ws, k);
    ghost var before := output[..];
    PartAt(before, ws, k);
    Write(output, Offset(ws, k) + at, b);
    PartsOfSplice(before, ws, k, at, b);
    SpliceBefore(before, Offset(ws, k) + at, b, Sum(ws));
  }

  /** Overwrites the whole of part `k`: the model of `*part = value` or
      `part.copy_from_slice(value)` on a sub-array `mut_array_refs!` hands out. */
  method WriteWholePart(output: array<Byte>, ws: seq<nat>, k: nat, b: seq<Byte>)
    requires Sum(ws) <= output.Length && k < |ws| && |b| == ws[k]
    modifies output
    ensures Parts(output[..], ws) == old(Parts(output[..], ws))[k := b]
    ensures output[Sum(ws)..] == old(output[Sum(ws)..])
  {
    ghost var before := Parts(output[..], ws);
    WritePart(output, ws, k, 0, b);
    assert Splice(before[k], 0, b) == b;
  }
}
