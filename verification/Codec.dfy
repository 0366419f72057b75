/** The byte readers and writers of ms_framework/msf_utils.go. A Go slice buf[at:] is an array
    and an offset. */
module Codec {
  import opened Options
  type byte = b: int | 0 <= b < 256

  function Pow256(n: nat): (p: int)
    ensures p > 0
  {
    if n == 0 then 1 else 256 * Pow256(n - 1)
  }

  lemma Pow256Values()
    ensures Pow256(1) == 0x100 && Pow256(2) == 0x1_0000 && Pow256(4) == 0x1_0000_0000
    ensures Pow256(8) == 0x1_0000_0000_0000_0000
  {
    assert Pow256(4) == 256 * (256 * Pow256(2));
    assert Pow256(6) == 256 * (256 * Pow256(4));
    assert Pow256(8) == 256 * (256 * Pow256(6));
  }

  /** The reference: v in base 256, most significant digit first, in n digits. */
  function Digits(v: int, n: nat): (s: seq<byte>)
    ensures |s| == n
    decreases n
  {
    if n == 0 then [] else Digits(v / 256, n - 1) + [v % 256]
  }

  function Value(s: seq<byte>): (v: int)
    ensures v >= 0
  {
    if s == [] then 0 else Value(s[..|s| - 1]) * 256 + s[|s| - 1]
  }

  lemma {:induction false} ValueOfDigits(v: int, n: nat)
    requires 0 <= v < Pow256(n)
    ensures Value(Digits(v, n)) == v
  {
    if n == 0 {
    } else {
      ValueOfDigits(v / 256, n - 1);
      assert Digits(v, n)[..n - 1] == Digits(v / 256, n - 1);
    }
  }

  lemma {:induction false} DigitsOfValue(s: seq<byte>)
    ensures Digits(Value(s), |s|) == s && Value(s) < Pow256(|s|)
  {
    if s == [] {
    } else {
      DigitsOfValue(s[..|s| - 1]);
      assert s == s[..|s| - 1] + [s[|s| - 1]];
    }
  }

  // ---- Fixed-width integers ----

  function ReadUint16(b: seq<byte>): int
    requires |b| >= 2
  {
    (b[0] as int) * 0x100 + b[1]
  }

  function ReadUint32(b: seq<byte>): int
    requires |b| >= 4
  {
    (b[0] as int) * 0x100_0000 + (b[1] as int) * 0x1_0000 + (b[2] as int) * 0x100 + b[3]
  }

  function ReadUint64(b: seq<byte>): int
    requires |b| >= 8
  {
    (b[0] as int) * 0x100_0000_0000_0000 + (b[1] as int) * 0x1_0000_0000_0000 + (b[2] as int) * 0x100_0000_0000 + (b[3] as int) * 0x1_0000_0000
    + (b[4] as int) * 0x100_0000 + (b[5] as int) * 0x1_0000 + (b[6] as int) * 0x100 + b[7]
  }

  /** The readers compute the value of the first two, four or eight bytes. */
  lemma ReadersAgree(b: seq<byte>)
    ensures |b| >= 2 ==> ReadUint16(b) == Value(b[..2])
    ensures |b| >= 4 ==> ReadUint32(b) == Value(b[..4])
    ensures |b| >= 8 ==> ReadUint64(b) == Value(b[..8])
  {
    forall k: nat | 0 < k <= |b| ensures Value(b[..k]) == Value(b[..k - 1]) * 256 + b[k - 1] {
      assert b[..k][..k - 1] == b[..k - 1];
    }
    assert b[..0] == [];
    if |b| >= 4 {
      assert Value(b[..2]) == (b[0] as int) * 0x100 + b[1];
      assert Value(b[..4]) == (Value(b[..2]) * 256 + b[2]) * 256 + b[3];
    }
    if |b| >= 8 {
      assert Value(b[..6]) == (Value(b[..4]) * 256 + b[4]) * 256 + b[5];
      assert Value(b[..8]) == (Value(b[..6]) * 256 + b[6]) * 256 + b[7];
    }
  }

  method WriteUint16(buf: array<byte>, at: nat, v: int)
    requires 0 <= v < 0x1_0000 && at + 2 <= buf.Length
    modifies buf
    ensures buf[..] == old(buf[..at]) + Digits(v, 2) + old(buf[at + 2..])
  {
    buf[at] := v / 0x100 % 256;
    buf[at + 1] := v % 256;
    DigitsOf2(v);
  }

  method WriteUint32(buf: array<byte>, at: nat, v: int)
    requires 0 <= v < 0x1_0000_0000 && at + 4 <= buf.Length
    modifies buf
    ensures buf[..] == old(buf[..at]) + Digits(v, 4) + old(buf[at + 4..])
  {
    PutFour(buf, at, v);
  }

  /** Four shifts, masks and stores. */
  method PutFour(buf: array<byte>, at: nat, v: nat)
    requires at + 4 <= buf.Length
    modifies buf
    ensures buf[..] == old(buf[..at]) + Digits(v, 4) + old(buf[at + 4..])
  {
    buf[at] := v / 0x100_0000 % 256;
    buf[at + 1] := v / 0x1_0000 % 256;
    buf[at + 2] := v / 0x100 % 256;
    buf[at + 3] := v % 256;
    DigitsOf4(v);
  }

  /** The source writes the eight bytes one by one; they are those of the two halves. */
  method WriteUint64(buf: array<byte>, at: nat, v: int)
    requires 0 <= v < 0x1_0000_0000_0000_0000 && at + 8 <= buf.Length
    modifies buf
    ensures buf[..] == old(buf[..at]) + Digits(v, 8) + old(buf[at + 8..])
  {
    ghost var was := buf[..];
    PutFour(buf, at, v / 0x1_0000_0000);
    PutFour(buf, at + 4, v);
    DigitsHalves(v);
    Halves(was, at, Digits(v / 0x1_0000_0000, 4), Digits(v, 4));
  }

  lemma Halves(was: seq<byte>, at: nat, high: seq<byte>, low: seq<byte>)
    requires at + 8 <= |was| && |high| == |low| == 4
    ensures var half := was[..at] + high + was[at + 4..];
      half[..at + 4] + low + half[at + 8..] == was[..at] + (high + low) + was[at + 8..]
  {
  }

  lemma DigitsOf2(v: int)
    ensures Digits(v, 2) == [v / 0x100 % 256, v % 256]
  {
    assert Digits(v / 256, 1) == [v / 256 % 256];
  }

  lemma DigitsSplit2(v: int, n: nat)
    requires n >= 2
    ensures Digits(v, n) == Digits(v / 0x1_0000, n - 2) + Digits(v, 2)
  {
    DigitsOf2(v);
    assert Digits(v / 256, n - 1) == Digits(v / 256 / 256, n - 2) + [v / 256 % 256];
  }

  lemma DigitsOf4(v: int)
    ensures Digits(v, 4) == [v / 0x100_0000 % 256, v / 0x1_0000 % 256, v / 0x100 % 256, v % 256]
  {
    DigitsSplit2(v, 4);
    DigitsOf2(v);
    var high := v / 0x1_0000;
    DigitsOf2(high);
    assert high / 0x100 == v / 0x100_0000;
  }

  lemma DigitsHalves(v: int)
    ensures Digits(v, 8) == Digits(v / 0x1_0000_0000, 4) + Digits(v, 4)
  {
    DigitsSplit2(v, 8);
    DigitsSplit2(v / 0x1_0000, 6);
    DigitsSplit2(v, 4);
    assert v / 0x1_0000 / 0x1_0000 == v / 0x1_0000_0000;
  }

  /** Go's conversions between the signed and the unsigned type of n bytes. */
  function ToUnsigned(v: int, n: nat): int {
    if v < 0 then v + Pow256(n) else v
  }

  function ToSigned(u: int, n: nat): int {
    if u >= Pow256(n) / 2 then u - Pow256(n) else u
  }

  /** Writing a signed integer of n bytes and reading it back is the identity. */
  lemma SignedRoundTrip(v: int, n: nat)
    requires n > 0 && -(Pow256(n) / 2) <= v < Pow256(n) / 2
    ensures ToSigned(Value(Digits(ToUnsigned(v, n), n)), n) == v
  {
    assert Pow256(n) == 256 * Pow256(n - 1);
    ValueOfDigits(ToUnsigned(v, n), n);
  }

  /** WriteInt keeps the low 32 bits of a 64-bit int and ReadInt reads them as non-negative, so an
      int comes back exactly when it lies in 0 to 2^32 - 1. */
  lemma IntRoundTripIff(v: int)
    ensures Value(Digits(v % Pow256(4), 4)) == v <==> 0 <= v < Pow256(4)
  {
    ValueOfDigits(v % Pow256(4), 4);
    Pow256Values();
  }

  // ---- Strings with a terminator ----

  /** A copy of what fits, then the terminator; the source panics where ok is false. */
  method WriteString(buf: array<byte>, v: seq<byte>) returns (ok: bool)
    modifies buf
    ensures ok <==> |v| < buf.Length
    ensures ok ==> buf[..] == v + [0] + old(buf[|v| + 1..])
    ensures !ok ==> buf[..] == v[..buf.Length]
  {
    var n := if |v| < buf.Length then |v| else buf.Length;
    forall i | 0 <= i < n {
      buf[i] := v[i];
    }
    ok := |v| < buf.Length;
    if ok {
      buf[|v|] := 0;
    }
  }

  method ReadString(buf: seq<byte>) returns (r: Option<seq<byte>>)
    ensures r.Some? ==> r.value + [0] <= buf && 0 !in r.value
    ensures r.None? ==> 0 !in buf
  {
    for i := 0 to |buf|
      invariant 0 !in buf[..i]
    {
      if buf[i] == 0 {
        assert buf[..i] + [0] == buf[..i + 1];
        return Some(buf[..i]);
      }
    }
    return None;
  }

  /** The contract of ReadString leaves one answer, and on what WriteString leaves it is the string
      written exactly when that has no zero byte. */
  lemma StringRoundTripIff(v: seq<byte>, tail: seq<byte>, r: Option<seq<byte>>)
    requires r.Some? ==> r.value + [0] <= v + [0] + tail && 0 !in r.value
    requires r.None? ==> 0 !in v + [0] + tail
    ensures r == Some(v) <==> 0 !in v
  {
    var buf := v + [0] + tail;
    assert buf[|v|] == 0;
    if r.Some? {
      var s := r.value;
      assert forall i :: 0 <= i < |v| ==> buf[i] == v[i];
      assert forall i :: 0 <= i < |s| ==> buf[i] == (s + [0])[i] == s[i];
      assert buf[|s|] == (s + [0])[|s|] == 0;
      assert 0 !in v ==> |s| == |v|;
      assert |s| == |v| ==> s == v;
    }
  }
}
