/**
 * Byte strings as the ordered key-value store sees them: Go strings, unsigned 64-bit integers,
 * the byte-wise lexicographic order the store iterates in (bytes.Compare), byte prefixes,
 * and the fixed-width big-endian integer encoding used inside keys (sdk.Uint64ToBigEndian).
 */
module Bytes {

  newtype byte = x: int | 0 <= x < 256

  /** A Go string: a byte sequence whose length fits in Go's `int`. */
  type String = s: seq<byte> | |s| < 0x8000_0000_0000_0000

  type Uint64 = x: int | 0 <= x < 0x1_0000_0000_0000_0000

  /** `p` is a byte prefix of `s` (bytes.HasPrefix(s, p)). */
  predicate HasPrefix(p: seq<byte>, s: seq<byte>)
  {
    |p| <= |s| && s[..|p|] == p
  }

  /** A string is its prefix followed by the rest. */
  lemma PrefixThenRest(p: seq<byte>, s: seq<byte>)
    requires HasPrefix(p, s)
    ensures s == p + s[|p|..]
  {
    assert s == s[..|p|] + s[|p|..];
  }

  /** Strict lexicographic order on byte strings: bytes.Compare(a, b) < 0. */
  predicate Less(a: seq<byte>, b: seq<byte>)
    decreases |a|
  {
    if |a| == 0 then |b| > 0
    else |b| > 0 && (a[0] < b[0] || (a[0] == b[0] && Less(a[1..], b[1..])))
  }

  /** Every element of `s` is strictly below the ones after it. */
  ghost predicate StrictlyAscending(s: seq<seq<byte>>)
  {
    forall i, j :: 0 <= i < j < |s| ==> Less(s[i], s[j])
  }

  lemma {:induction false} LessIrreflexive(a: seq<byte>)
    ensures !Less(a, a)
  {
    if |a| > 0 {
      LessIrreflexive(a[1..]);
    }
  }

  lemma {:induction false} LessTransitive(a: seq<byte>, b: seq<byte>, c: seq<byte>)
    requires Less(a, b) && Less(b, c)
    ensures Less(a, c)
  {
    if |a| > 0 && a[0] == b[0] && b[0] == c[0] {
      LessTransitive(a[1..], b[1..], c[1..]);
    }
  }

  lemma {:induction false} LessTotal(a: seq<byte>, b: seq<byte>)
    requires a != b
    ensures Less(a, b) || Less(b, a)
  {
    if |a| > 0 && |b| > 0 && a[0] == b[0] {
      assert a == [a[0]] + a[1..] && b == [b[0]] + b[1..];
      LessTotal(a[1..], b[1..]);
    }
  }

  /** A string is never below one of its prefixes. */
  lemma {:induction false} PrefixNotLess(p: seq<byte>, s: seq<byte>)
    requires HasPrefix(p, s)
    ensures !Less(s, p)
  {
    if |p| > 0 {
      assert s[0] == p[0];
      assert s[1..][..|p| - 1] == p[1..];
      PrefixNotLess(p[1..], s[1..]);
    }
  }

  /** A common prefix does not change how two strings compare. */
  lemma {:induction false} LessCommonPrefix(q: seq<byte>, a: seq<byte>, b: seq<byte>)
    ensures Less(q + a, q + b) <==> Less(a, b)
  {
    if |q| > 0 {
      assert (q + a)[1..] == q[1..] + a;
      assert (q + b)[1..] == q[1..] + b;
      LessCommonPrefix(q[1..], a, b);
    } else {
      assert q + a == a && q + b == b;
    }
  }

  /** When two strings of equal length compare, so do any extensions of them. */
  lemma {:induction false} LessAppendEqualLength(a: seq<byte>, b: seq<byte>, x: seq<byte>, y: seq<byte>)
    requires |a| == |b| && Less(a, b)
    ensures Less(a + x, b + y)
  {
    if a[0] == b[0] && !(a[0] < b[0]) {
      assert (a + x)[1..] == a[1..] + x;
      assert (b + y)[1..] == b[1..] + y;
      LessAppendEqualLength(a[1..], b[1..], x, y);
    }
  }

  function Pow256(n: nat): (r: nat)
    ensures r > 0
  {
    if n == 0 then 1 else 256 * Pow256(n - 1)
  }

  lemma Pow256Of8()
    ensures Pow256(8) == 0x1_0000_0000_0000_0000
  {
  }

  /** `n` written as `width` bytes, most significant first (the low `width` bytes of `n`). */
  function BigEndian(n: nat, width: nat): (r: seq<byte>)
    ensures |r| == width
    decreases width
  {
    if width == 0 then [] else BigEndian(n / 256, width - 1) + [(n % 256) as byte]
  }

  /** The number a big-endian byte string denotes. */
  function FromBigEndian(s: seq<byte>): nat
    decreases |s|
  {
    if s == [] then 0 else FromBigEndian(s[..|s| - 1]) * 256 + s[|s| - 1] as nat
  }

  /** A big-endian string of width w denotes a number below 256^w. */
  lemma {:induction false} FromBigEndianBound(s: seq<byte>)
    ensures FromBigEndian(s) < Pow256(|s|)
    decreases |s|
  {
    if s != [] {
      var init := s[..|s| - 1];
      FromBigEndianBound(init);
      assert FromBigEndian(init) * 256 <= (Pow256(|init|) - 1) * 256;
    }
  }

  /** Big-endian encoding loses nothing for a number that fits in the width. */
  lemma {:induction false} BigEndianRoundTrip(n: nat, width: nat)
    requires n < Pow256(width)
    ensures FromBigEndian(BigEndian(n, width)) == n
  {
    if width > 0 {
      var s := BigEndian(n, width);
      assert s[..|s| - 1] == BigEndian(n / 256, width - 1);
      BigEndianRoundTrip(n / 256, width - 1);
    }
  }

  /** Big-endian encoding of a fixed width turns numeric order into byte order. */
  lemma {:induction false} BigEndianMonotone(n: nat, m: nat, width: nat)
    requires 0 < width
    requires n < m < Pow256(width)
    ensures Less(BigEndian(n, width), BigEndian(m, width))
  {
    var a, b := n / 256, m / 256;
    if a < b {
      BigEndianMonotone(a, b, width - 1);
      LessAppendEqualLength(BigEndian(a, width - 1), BigEndian(b, width - 1),
                            [(n % 256) as byte], [(m % 256) as byte]);
    } else {
      assert n % 256 < m % 256;
      LessCommonPrefix(BigEndian(a, width - 1), [(n % 256) as byte], [(m % 256) as byte]);
    }
  }

  /** sdk.Uint64ToBigEndian: the 8-byte big-endian form of a 64-bit nonce. */
  function Uint64ToBigEndian(n: Uint64): (r: seq<byte>)
    ensures |r| == 8
    ensures FromBigEndian(r) == n
  {
    Pow256Of8();
    BigEndianRoundTrip(n, 8);
    BigEndian(n, 8)
  }
}
