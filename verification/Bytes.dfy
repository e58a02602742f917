/** Byte strings as Python slices see them, and big-endian integers on them. */
module Bytes {
  import opened Wrappers

  newtype byte = b: int | 0 <= b < 256

  type Text = seq<byte>

  /** The byte that stands for a letter in the protocol's documentation. */
  function Letter(c: char): byte
    requires c < 128 as char
  {
    c as int as byte
  }

  /** `s[:n]`: a slice that runs past the end is cut short, it does not fail. */
  function Take(s: Text, n: nat): Text {
    if n <= |s| then s[..n] else s
  }

  /** `s[n:]`, empty when `n` is past the end. */
  function Drop(s: Text, n: nat): Text {
    if n <= |s| then s[n..] else []
  }

  /** A slice and the slice after it are the whole, and a slice is as long as asked for unless the bytes run out. */
  lemma Slices(s: Text, n: nat)
    ensures Take(s, n) + Drop(s, n) == s
    ensures |Take(s, n)| == if n <= |s| then n else |s|
  {
    if n > |s| {
      assert s + [] == s;
    }
  }

  lemma SplitAt(a: Text, b: Text)
    ensures Take(a + b, |a|) == a
    ensures Drop(a + b, |a|) == b
  {
  }

  lemma DropDrop(s: Text, m: nat, n: nat)
    ensures Drop(Drop(s, m), n) == Drop(s, m + n)
  {
  }

  function Pow256(n: nat): nat {
    if n == 0 then 1 else 256 * Pow256(n - 1)
  }

  /** `v.to_bytes(n, "big")` for a `v` that fits. */
  function ToBig(n: nat, v: nat): (s: Text)
    ensures |s| == n
  {
    if n == 0 then [] else ToBig(n - 1, v / 256) + [(v % 256) as byte]
  }

  /** `v.to_bytes(n, "big")` for any `v`: digit by digit, an overflow when something is left over. */
  function ToBytes(n: nat, v: nat): Result<Text> {
    if n == 0 then (if v == 0 then Ok([]) else Err(OverflowError))
    else
      var high :- ToBytes(n - 1, v / 256);
      Ok(high + [(v % 256) as byte])
  }

  /** It succeeds exactly on what `n` bytes can hold. */
  lemma {:induction false} ToBytesFits(n: nat, v: nat)
    ensures ToBytes(n, v) == if v < Pow256(n) then Ok(ToBig(n, v)) else Err(OverflowError)
  {
    if n > 0 {
      ToBytesFits(n - 1, v / 256);
    }
  }

  /** `int.from_bytes(s, "big")`; the empty slice gives 0. */
  function FromBig(s: Text): nat {
    if s == [] then 0 else FromBig(s[..|s| - 1]) * 256 + s[|s| - 1] as nat
  }

  /** `int.from_bytes(s, "big", signed=True)`: the top bit of the first byte is the sign. */
  function FromBigSigned(s: Text): int {
    if s != [] && s[0] >= 128 then FromBig(s) - Pow256(|s|) else FromBig(s)
  }

  lemma {:induction false} FromToBig(n: nat, v: nat)
    requires v < Pow256(n)
    ensures FromBig(ToBig(n, v)) == v
  {
    if n > 0 {
      FromToBig(n - 1, v / 256);
      assert ToBig(n, v)[..n - 1] == ToBig(n - 1, v / 256);
    }
  }

  lemma {:induction false} BigBound(s: Text)
    ensures FromBig(s) < Pow256(|s|)
  {
    if s != [] {
      BigBound(s[..|s| - 1]);
    }
  }

  lemma Shifted(a: nat, p: nat, c: nat, z: nat)
    ensures (a * p + c) * 256 + z == a * (256 * p) + (c * 256 + z)
  {
  }

  lemma {:induction false} LeadByte(s: Text)
    requires s != []
    ensures FromBig(s) == s[0] as nat * Pow256(|s| - 1) + FromBig(s[1..])
  {
    if |s| == 1 {
      assert s[..0] == [];
    } else {
      var front := s[..|s| - 1];
      LeadByte(front);
      assert s[1..][..|s| - 2] == front[1..];
      Shifted(s[0] as nat, Pow256(|s| - 2), FromBig(front[1..]), s[|s| - 1] as nat);
    }
  }

  lemma Widths()
    ensures Pow256(1) == 0x100
    ensures Pow256(2) == 0x1_0000
    ensures Pow256(3) == 0x100_0000
    ensures Pow256(4) == 0x1_0000_0000
    ensures Pow256(8) == 0x1_0000_0000_0000_0000
  {
    assert Pow256(4) == 256 * Pow256(3);
    assert Pow256(5) == 256 * Pow256(4);
    assert Pow256(6) == 256 * Pow256(5);
    assert Pow256(7) == 256 * Pow256(6);
  }

  /** A signed field of four bytes in two's complement. */
  function ToBigSigned(v: int): Text
    requires -0x8000_0000 <= v < 0x8000_0000
  {
    ToBig(4, if v < 0 then v + 0x1_0000_0000 else v)
  }

  lemma SignedRoundTrip(v: int)
    requires -0x8000_0000 <= v < 0x8000_0000
    ensures FromBigSigned(ToBigSigned(v)) == v
  {
    Widths();
    var w := if v < 0 then v + 0x1_0000_0000 else v;
    var s := ToBig(4, w);
    FromToBig(4, w);
    LeadByte(s);
    BigBound(s[1..]);
  }

  /** The field of `n` bytes that leads `s`. */
  function Field(n: nat, s: Text): nat {
    FromBig(Take(s, n))
  }

  lemma FieldOf(n: nat, v: nat, rest: Text)
    requires v < Pow256(n)
    ensures Field(n, ToBig(n, v) + rest) == v
    ensures Drop(ToBig(n, v) + rest, n) == rest
  {
    SplitAt(ToBig(n, v), rest);
    FromToBig(n, v);
  }

  /** `buf.index(b"\x00")`, or nothing where Python raises `ValueError`. */
  function ZeroIndex(s: Text): (r: Option<nat>)
    ensures r.Some? ==> r.value < |s| && s[r.value] == 0 && 0 !in s[..r.value]
    ensures r.None? ==> 0 !in s
  {
    if s == [] then None
    else if s[0] == 0 then Some(0)
    else match ZeroIndex(s[1..])
      case None => None
      case Some(i) =>
        assert s[..i + 1] == [s[0]] + s[1..][..i];
        Some(i + 1)
  }

  /** `_read_cstring` on the bytes from the offset on: the string, and the bytes after its NUL. */
  function ReadCString(s: Text): Result<(Text, Text)> {
    match ZeroIndex(s)
    case None => Err(ValueError)
    case Some(i) => Ok((s[..i], s[i + 1..]))
  }

  function CString(t: Text): Text {
    t + [0]
  }

  lemma CStringRoundTrip(t: Text, rest: Text)
    requires 0 !in t
    ensures ReadCString(CString(t) + rest) == Ok((t, rest))
  {
    var s := CString(t) + rest;
    assert s[|t|] == 0;
    assert forall j :: 0 <= j < |t| ==> s[j] == t[j];
    assert forall j :: 0 <= j < |t| ==> s[j] != 0;
    assert s[..|t|] == t;
    assert s[|t| + 1..] == rest;
  }
}
