/** Facts about the counter arithmetic. */
module Md5Counter {
  import opened Bytes

  const TWO29: nat := 0x2000_0000
  const TWO32: nat := 0x1_0000_0000
  const TWO64: nat := 0x1_0000_0000_0000_0000
  const INT_MAX: int := 0x7FFF_FFFF

  /** The two counter words after a message of `n` bytes. */
  predicate Counts(count0: nat, count1: nat, n: nat) {
    count0 < TWO32 && count1 < TWO32 && count0 + TWO32 * count1 == (8 * n) % TWO64
  }

  lemma ModAdd(a: nat, b: nat)
    ensures (a % TWO64 + b) % TWO64 == (a + b) % TWO64
  {
    var r, d := a % TWO64 + b, a / TWO64;
    assert a + b == TWO64 * d + r;
    DivModUnique(a + b, TWO64, d + r / TWO64, r % TWO64);
  }

  lemma BitsSplit(k: nat)
    ensures (8 * k) % TWO32 == 8 * (k % TWO29) && (8 * k) / TWO32 == k / TWO29
  {
    DivModUnique(8 * k, TWO32, k / TWO29, 8 * (k % TWO29));
  }

  lemma Carry(c0: nat, nbits: nat)
    requires c0 < TWO32 && nbits < TWO32
    ensures var c0' := (c0 + nbits) % TWO32;
            c0 + nbits == c0' + (if c0' < nbits then TWO32 else 0)
  {
  }

  lemma WrapOnce(c: nat, e: nat, carry: nat)
    requires c < TWO32 && e < 4 && carry <= 1
    ensures ((c + e) % TWO32 + carry) % TWO32 == (c + e + carry) % TWO32
  {
  }

  lemma JoinWords(low: nat, high: nat)
    requires low < TWO32
    ensures (low + TWO32 * high) % TWO64 == low + TWO32 * (high % TWO32)
  {
    DivModUnique(low + TWO32 * high, TWO64, high / TWO32, low + TWO32 * (high % TWO32));
  }

  /** The counter update of an append: both words, wrapping, with the carry out of the low one. */
  function AddBytes(c0: nat, c1: nat, k: nat): (nat, nat) {
    var nbits := (8 * k) % TWO32;
    var c0' := (c0 + nbits) % TWO32;
    var high := (c1 + k / TWO29) % TWO32;
    (c0', if c0' < nbits then (high + 1) % TWO32 else high)
  }

  /** It counts the chunk's bits modulo 2^64. */
  lemma CounterAdds(c0: nat, c1: nat, n: nat, k: nat)
    requires Counts(c0, c1, n) && k <= INT_MAX
    ensures var (c0', c1') := AddBytes(c0, c1, k); Counts(c0', c1', n + k)
  {
    var (c0', c1') := AddBytes(c0, c1, k);
    var nbits := (8 * k) % TWO32;
    var carry := if c0' < nbits then 1 else 0;
    var high := c1 + k / TWO29 + carry;
    Carry(c0, nbits);
    WrapOnce(c1, k / TWO29, carry);
    assert c1' == high % TWO32;
    BitsSplit(k);
    assert 8 * k == TWO32 * (k / TWO29) + nbits;
    assert c0' + TWO32 * high == (c0 + TWO32 * c1) + 8 * k;
    JoinWords(c0', high);
    ModAdd(8 * n, 8 * k);
  }

  /** The byte position within a block can be read off the low counter word. */
  lemma CounterOffset(c0: nat, c1: nat, n: nat)
    requires Counts(c0, c1, n)
    ensures (c0 / 8) % 64 == n % 64 && (55 - c0 / 8) % 64 == (55 - n) % 64
  {
    var high := (8 * n) / TWO64;
    assert 8 * n == c0 + TWO32 * (c1 + TWO32 * high);
    var e := c1 + TWO32 * high;
    assert c0 == 8 * (n - TWO29 * e);
    assert c0 / 8 == n - 64 * (0x80_0000 * e);
    Mod64(n, 0x80_0000 * e);
  }

  lemma Remainder64(x: int, q: int, r: int)
    requires x == 64 * q + r && 0 <= r < 64
    ensures x % 64 == r
  {
  }

  lemma Mod64(n: int, e: int)
    ensures (n - 64 * e) % 64 == n % 64 && (55 - (n - 64 * e)) % 64 == (55 - n) % 64
  {
    Remainder64(n - 64 * e, n / 64 - e, n % 64);
    Remainder64(55 - (n - 64 * e), (55 - n) / 64 + e, (55 - n) % 64);
  }

  lemma OneMore(n: nat)
    requires n % 64 == 0
    ensures (n + 64) % 64 == 0
  {
  }

  lemma FillsBlock(n: nat, k: nat)
    requires n % 64 + k == 64
    ensures (n + k) % 64 == 0
  {
  }

  lemma ModBlock(k: nat, r: nat)
    requires k % 64 == 0 && r < 64
    ensures (k + r) % 64 == r
  {
  }
}
