/** Bytes and little-endian numbers. */
module Bytes {
  import opened Common

  newtype Byte = x: int | 0 <= x < 256

  /** The size of every network buffer. */
  const MAX_PACKET_BUFFER_SIZE: nat := 10240

  function Zeros(n: nat): (r: seq<Byte>)
    ensures |r| == n && forall i :: 0 <= i < n ==> r[i] == 0
  {
    seq(n, _ => 0 as Byte)
  }

  function Pow256(i: nat): (r: nat)
    ensures r > 0
  {
    if i == 0 then 1 else 256 * Pow256(i - 1)
  }

  function LowByte(value: nat): Byte { (value % 256) as Byte }

  /** Byte `i` of a number, counted from the low-order end: shift right by `8 * i` bits and truncate. */
  function Digit(value: nat, i: nat): Byte {
    if i == 0 then LowByte(value) else Digit(value / 256, i - 1)
  }

  /** The `n` low-order bytes of a number, low-order byte first. */
  function LittleEndian(value: nat, n: nat): (r: seq<Byte>)
    ensures |r| == n
  {
    if n == 0 then [] else [LowByte(value)] + LittleEndian(value / 256, n - 1)
  }

  /** The number whose bytes, low-order byte first, are `bytes`. */
  function FromLittleEndian(bytes: seq<Byte>): nat {
    if bytes == [] then 0 else bytes[0] as nat + 256 * FromLittleEndian(bytes[1..])
  }

  /** Reading back the `n` low-order bytes of a number below 256^n gives the number. */
  lemma {:induction false} LittleEndianRoundTrip(value: nat, n: nat)
    requires value < Pow256(n)
    ensures FromLittleEndian(LittleEndian(value, n)) == value
  {
    if n > 0 {
      LittleEndianRoundTrip(value / 256, n - 1);
      assert LittleEndian(value, n)[1..] == LittleEndian(value / 256, n - 1);
    }
  }

  lemma MoreTimes(p: nat, d: nat, e: nat)
    requires d < e
    ensures p * e >= p * d + p
  {
    assert p * e == p * d + p * (e - d);
    assert p * (e - d) == p + p * (e - d - 1);
  }

  lemma DivModUnique(x: nat, p: nat, d: nat, r: nat)
    requires p > 0 && r < p && x == p * d + r
    ensures x / p == d && x % p == r
  {
    var e, f := x / p, x % p;
    assert x == p * e + f;
    if d < e {
      MoreTimes(p, d, e);
    } else if d > e {
      MoreTimes(p, e, d);
    }
  }

  lemma LowDigit(lo: nat, p: nat, hi: nat)
    ensures (lo + 256 * (p * hi)) % 256 == lo % 256 && (lo + 256 * (p * hi)) / 256 == lo / 256 + p * hi
  {
    DivModUnique(lo + 256 * (p * hi), 256, lo / 256 + p * hi, lo % 256);
  }

  lemma {:induction false} LittleEndianAt(value: nat, n: nat, i: nat)
    requires i < n
    ensures LittleEndian(value, n)[i] == Digit(value, i)
  {
    if i > 0 {
      LittleEndianAt(value / 256, n - 1, i - 1);
    }
  }

  lemma SameLowByte(x: nat, y: nat)
    requires x % 256 == y % 256
    ensures LowByte(x) == LowByte(y)
  {
  }

  lemma TimesLast(p: nat, hi: nat)
    ensures (256 * p) * hi == 256 * (p * hi)
  {
  }

  lemma LittleEndianFirst(v: nat, n: nat)
    requires n > 0
    ensures LittleEndian(v, n) == [LowByte(v)] + LittleEndian(v / 256, n - 1)
  {
  }

  /** The low bytes of `lo + 256^k * hi` are those of `lo`, then those of `hi`. */
  lemma {:induction false} LittleEndianSplit(lo: nat, hi: nat, k: nat, j: nat)
    requires lo < Pow256(k)
    ensures LittleEndian(lo + Pow256(k) * hi, k + j) == LittleEndian(lo, k) + LittleEndian(hi, j)
  {
    var v := lo + Pow256(k) * hi;
    if k == 0 {
      assert Pow256(0) * hi == hi;
      assert LittleEndian(lo, 0) == [];
    } else {
      var p := Pow256(k - 1);
      TimesLast(p, hi);
      LowDigit(lo, p, hi);
      LittleEndianSplit(lo / 256, hi, k - 1, j);
      SameLowByte(v, lo);
      LittleEndianFirst(v, k + j);
      LittleEndianFirst(lo, k);
      Assoc([LowByte(lo)], LittleEndian(lo / 256, k - 1), LittleEndian(hi, j));
    }
  }

  // ---------------------------------------------------------------- four bytes, written out

  /** The four bytes of a 32-bit number in memory. */
  function FourBytes(v: nat): (r: seq<Byte>)
    ensures |r| == 4
  {
    [(v % 256) as Byte, (v / 0x100 % 256) as Byte, (v / 0x1_0000 % 256) as Byte, (v / 0x100_0000 % 256) as Byte]
  }

  /** The 32-bit number at a place in memory. */
  function NumberAt(s: seq<Byte>, i: nat): nat
    requires i + 4 <= |s|
  {
    s[i] as nat + 0x100 * (s[i + 1] as nat) + 0x1_0000 * (s[i + 2] as nat) + 0x100_0000 * (s[i + 3] as nat)
  }

  lemma DivTwice(v: nat)
    ensures v / 256 / 256 == v / 0x1_0000 && v / 256 / 256 / 256 == v / 0x100_0000
  {
    DivModUnique(v, 0x1_0000, v / 256 / 256, v % 256 + 256 * (v / 256 % 256));
    DivModUnique(v, 0x100_0000, v / 256 / 256 / 256, v % 256 + 256 * (v / 256 % 256) + 0x1_0000 * (v / 256 / 256 % 256));
  }

  lemma FourBytesLittleEndian(v: nat)
    ensures LittleEndian(v, 4) == FourBytes(v)
  {
    var n := 4;
    DivTwice(v);
    LittleEndianFirst(v, n);
    LittleEndianFirst(v / 256, n - 1);
    LittleEndianFirst(v / 256 / 256, n - 2);
    LittleEndianFirst(v / 256 / 256 / 256, n - 3);
    assert LittleEndian(v / 256 / 256 / 256 / 256, n - 4) == [];
  }

  lemma FromFirst(s: seq<Byte>)
    requires s != []
    ensures FromLittleEndian(s) == s[0] as nat + 256 * FromLittleEndian(s[1..])
  {
  }

  lemma NumberFromLittleEndian(s: seq<Byte>, i: nat)
    requires i + 4 <= |s|
    ensures FromLittleEndian(s[i..i + 4]) == NumberAt(s, i)
  {
    var b := s[i..i + 4];
    FromFirst(b);
    FromFirst(b[1..]);
    FromFirst(b[1..][1..]);
    FromFirst(b[1..][1..][1..]);
    assert b[1..][1..][1..][1..] == [] && FromLittleEndian([]) == 0;
    assert b[1..][0] == s[i + 1] && b[1..][1..][0] == s[i + 2] && b[1..][1..][1..][0] == s[i + 3];
  }

  // ---------------------------------------------------------------- streams in parts

  function Concat(parts: seq<seq<Byte>>): seq<Byte> {
    if parts == [] then [] else Concat(parts[..|parts| - 1]) + parts[|parts| - 1]
  }

  lemma ConcatSnoc(parts: seq<seq<Byte>>, n: nat)
    requires n < |parts|
    ensures Concat(parts[..n + 1]) == Concat(parts[..n]) + parts[n]
  {
    assert parts[..n + 1][..n] == parts[..n];
  }

  lemma {:induction false} ConcatCons(parts: seq<seq<Byte>>)
    requires parts != []
    ensures Concat(parts) == parts[0] + Concat(parts[1..])
    decreases |parts|
  {
    var n := |parts| - 1;
    if n > 0 {
      ConcatCons(parts[..n]);
      assert parts[..n][1..] == parts[1..][..n - 1];
      assert (parts[0] + Concat(parts[1..][..n - 1])) + parts[n] == parts[0] + (Concat(parts[1..][..n - 1]) + parts[n]);
    }
  }

  lemma {:induction false} ConcatPrefix(parts: seq<seq<Byte>>, n: nat)
    requires n <= |parts|
    ensures Concat(parts[..n]) <= Concat(parts)
    decreases |parts| - n
  {
    if n == |parts| {
      assert parts[..n] == parts;
    } else {
      ConcatSnoc(parts, n);
      ConcatPrefix(parts, n + 1);
    }
  }

  lemma ShorterPrefix(a: seq<Byte>, b: seq<Byte>, whole: seq<Byte>)
    requires a <= whole && b <= whole && |a| <= |b|
    ensures a <= b
  {
    assert a == whole[..|a|] && b == whole[..|b|];
  }

  /** Behind the first `n` parts comes the beginning of the next part or all of it. */
  lemma NextPart(got: seq<Byte>, parts: seq<seq<Byte>>, n: nat, rest: seq<Byte>)
    requires n < |parts| && got <= Concat(parts)
    requires got == Concat(parts[..n]) + rest
    ensures parts[n] <= rest || rest <= parts[n]
  {
    ConcatSnoc(parts, n);
    ConcatPrefix(parts, n + 1);
    var base := Concat(parts[..n]);
    if |parts[n]| <= |rest| {
      ShorterPrefix(base + parts[n], base + rest, Concat(parts));
      assert (base + rest)[|base|..] == rest;
      assert (base + parts[n])[|base|..] == parts[n];
    } else {
      ShorterPrefix(base + rest, base + parts[n], Concat(parts));
      assert (base + rest)[|base|..] == rest;
      assert (base + parts[n])[|base|..] == parts[n];
    }
  }
}
