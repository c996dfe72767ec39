/** Known digests: the first test values of section A.5 of RFC 1321, computed step by step. They fix every
    constant, shift, index and auxiliary function, and the order of the output, as numbers. */
module Md5Anchors {
  import opened Bytes
  import opened Md5Padding
  import opened Md5Counter
  import opened Md5Stream
  import opened Md5Spec

  // ---------------------------------------------------------------- one block of a short message

  /** The words of a message of at most three bytes: the bytes and the 1 bit, the length, else zeros. */
  predicate Input(x: seq<Word>, first: Word, bits: Word) {
    |x| == 16 && x[0] == first && x[14] == bits && forall i :: 0 < i < 16 && i != 14 ==> x[i] == 0
  }

  function ByteOr(m: seq<Byte>, i: nat): Byte {
    if i < |m| then m[i] else if i == |m| then 0x80 else 0
  }

  function FirstWord(m: seq<Byte>): Word {
    WordOf(ByteOr(m, 0), ByteOr(m, 1), ByteOr(m, 2), ByteOr(m, 3))
  }

  function LastWord(n: nat): Word
    requires n <= 3
  {
    WordOf((8 * n) as Byte, 0, 0, 0)
  }

  ghost function ShortBlock(m: seq<Byte>): (r: seq<Byte>)
    requires |m| <= 3
    ensures |r| == BLOCK && r == Padded(m)
  {
    Padded(m)
  }

  lemma LengthOfShort(n: nat)
    requires n <= 3
    ensures LittleEndian(8 * n, 8) == [(8 * n) as Byte, 0, 0, 0, 0, 0, 0, 0]
  {
    var k, zero := 4, 0;
    assert Pow256(4) == 256 * Pow256(3);
    assert 8 * n + Pow256(k) * zero == 8 * n;
    LittleEndianSplit(8 * n, zero, k, k);
    FourBytesLittleEndian(8 * n);
    FourBytesLittleEndian(zero);
  }

  lemma ShortBytes(m: seq<Byte>, i: nat)
    requires |m| <= 3 && i < BLOCK
    ensures ShortBlock(m)[i] == if i < 56 then ByteOr(m, i) else if i == 56 then (8 * |m|) as Byte else 0
  {
    LengthOfShort(|m|);
    var length := LittleEndian(8 * |m|, 8);
    assert ZeroCount(|m|) == 55 - |m|;
    assert |m + [0x80 as Byte] + Zeros(ZeroCount(|m|))| == 56;
    if i >= 56 { assert ShortBlock(m)[i] == length[i - 56]; }
  }

  lemma ZeroWord()
    ensures WordOf(0, 0, 0, 0) == 0
  {
  }

  lemma ShortWords(m: seq<Byte>)
    requires |m| <= 3
    ensures Input(Words(ShortBlock(m)), FirstWord(m), LastWord(|m|))
  {
    var x := Words(ShortBlock(m));
    ZeroWord();
    forall i | 0 <= i < 16
      ensures x[i] == if i == 0 then FirstWord(m) else if i == 14 then LastWord(|m|) else 0
    {
      ShortWord(m, i);
    }
  }

  lemma ShortWord(m: seq<Byte>, i: nat)
    requires |m| <= 3 && i < 16
    ensures WordAt(ShortBlock(m), i)
         == if i == 0 then FirstWord(m) else if i == 14 then LastWord(|m|) else WordOf(0, 0, 0, 0)
  {
    ShortBytes(m, 4 * i);
    ShortBytes(m, 4 * i + 1);
    ShortBytes(m, 4 * i + 2);
    ShortBytes(m, 4 * i + 3);
  }

  // ---------------------------------------------------------------- sixty-four steps

  /** The registers after `n` operations; said of every number equal to `n`, so that a proof uses the
      fact without unfolding the operations again. */
  ghost predicate After(x: seq<Word>, n: nat, a: Word, b: Word, c: Word, d: Word) {
    |x| == 16 && n <= 64 && forall m: nat :: m == n ==> Steps(INITIAL, x, m) == Quad(a, b, c, d)
  }

  /** Round, word, shift and constant of operation `i`. */
  ghost predicate Scheduled(i: nat, round: nat, k: nat, s: nat, t: Word) {
    i < 64 && k < 16 && s < 32 && forall m: nat :: m == i ==> m / 16 == round && Index(m) == k && Shift(m) == s && T(m) == t
  }

  /** One operation on known registers. */
  lemma Next(x: seq<Word>, i: nat, round: nat, k: nat, s: nat, t: Word, a: Word, b: Word, c: Word, d: Word, result: Word)
    requires Scheduled(i, round, k, s, t) && After(x, i, a, b, c, d)
    requires Operation(round, Quad(a, b, c, d), x[k], t, s) == result
    ensures After(x, i + 1, d, result, b, c)
  {
    assert Steps(INITIAL, x, i) == Quad(a, b, c, d);
    assert Index(i) == k && Shift(i) == s && T(i) == t;
  }

  lemma Start(x: seq<Word>)
    requires |x| == 16
    ensures After(x, 0, 0x67452301, 0xefcdab89, 0x98badcfe, 0x10325476)
  {
  }

  /** The additions at the end of a first block. */
  function Sum(a: Word, b: Word, c: Word, d: Word): Quad {
    Quad(Plus(0x67452301, a), Plus(0xefcdab89, b), Plus(0x98badcfe, c), Plus(0x10325476, d))
  }

  lemma ShortDigest(m: seq<Byte>, a: Word, b: Word, c: Word, d: Word)
    requires |m| <= 3 && After(Words(ShortBlock(m)), 64, a, b, c, d)
    ensures Digest(m) == Output(Sum(a, b, c, d))
  {
    var block := ShortBlock(m);
    AbsorbOne(BlockFunction(), INITIAL, block);
    var x := Words(block);
    assert Steps(INITIAL, x, 4 * |x|) == Quad(a, b, c, d);
    assert Compress(INITIAL, block) == Sum(a, b, c, d);
  }

  /** The four bytes of a register, low-order first. */
  function RegisterBytes(w: Word): (r: seq<Byte>)
    ensures |r| == 4
  {
    [ByteOf(w, 0) as Byte, ByteOf(w, 1) as Byte, ByteOf(w, 2) as Byte, ByteOf(w, 3) as Byte]
  }

  lemma OutputBytes(a: Word, b: Word, c: Word, d: Word)
    ensures Output(Quad(a, b, c, d)) == RegisterBytes(a) + RegisterBytes(b) + RegisterBytes(c) + RegisterBytes(d)
  {
    var q := Quad(a, b, c, d);
    FourBytesOf(q, 0);
    FourBytesOf(q, 1);
    FourBytesOf(q, 2);
    FourBytesOf(q, 3);
    Quarters(Output(q));
  }

  lemma Quarters(r: seq<Byte>)
    requires |r| == 16
    ensures r == r[0..4] + r[4..8] + r[8..12] + r[12..16]
  {
  }

  lemma Places(k: nat, j: nat)
    requires j < 4
    ensures (4 * k + j) / 4 == k && (4 * k + j) % 4 == j
  {
  }

  lemma ByteOfOutput(q: Quad, k: nat, j: nat)
    requires k < 4 && j < 4
    ensures Output(q)[4 * k + j] == ByteOf(Register(q, k), j) as Byte
  {
    Places(k, j);
    assert Output(q)[4 * k + j] == OutputByte(q, 4 * k + j);
  }

  lemma FourBytesOf(q: Quad, k: nat)
    requires k < 4
    ensures Output(q)[4 * k..4 * k + 4] == RegisterBytes(Register(q, k))
  {
    ByteOfOutput(q, k, 0);
    ByteOfOutput(q, k, 1);
    ByteOfOutput(q, k, 2);
    ByteOfOutput(q, k, 3);
    var r := Output(q);
    var b0, b1, b2, b3 := r[4 * k], r[4 * k + 1], r[4 * k + 2], r[4 * k + 3];
    FourFrom(r, 4 * k, b0, b1, b2, b3);
    assert RegisterBytes(Register(q, k)) == [b0, b1, b2, b3];
  }

  lemma FourFrom(r: seq<Byte>, i: nat, b0: Byte, b1: Byte, b2: Byte, b3: Byte)
    requires i + 4 <= |r| && r[i] == b0 && r[i + 1] == b1 && r[i + 2] == b2 && r[i + 3] == b3
    ensures r[i..i + 4] == [b0, b1, b2, b3]
  {
  }

  // ---------------------------------------------------------------- the digests

  /** The digest of the empty message. */
  lemma DigestOfEmpty()
    ensures Digest([]) == [0xd4, 0x1d, 0x8c, 0xd9, 0x8f, 0x00, 0xb2, 0x04,
                         0xe9, 0x80, 0x09, 0x98, 0xec, 0xf8, 0x42, 0x7e]
  {
    DigestOfEmptyBytes([]);
  }

  lemma DigestOfEmptyBytes(m: seq<Byte>)
    requires m == []
    ensures Digest(m) == [0xd4, 0x1d, 0x8c, 0xd9, 0x8f, 0x00, 0xb2, 0x04,
                          0xe9, 0x80, 0x09, 0x98, 0xec, 0xf8, 0x42, 0x7e]
  {
    ShortWords(m);
    FirstWordEmpty();
    StepsEmpty(Words(ShortBlock(m)));
    ShortDigest(m, 0x7246fad3, 0x14e45506, 0xff4ea3eb, 0x6e10a476);
    OutputEmpty();
  }

  lemma StepsEmpty(x: seq<Word>)
    requires Input(x, 0x00000080, 0)
    ensures After(x, 64, 0x7246fad3, 0x14e45506, 0xff4ea3eb, 0x6e10a476)
  {
    Start(x);
    Empty8(x);
    Empty16(x);
    Empty24(x);
    Empty32(x);
    Empty40(x);
    Empty48(x);
    Empty56(x);
    Empty64(x);
  }

  lemma OutputEmpty()
    ensures Output(Sum(0x7246fad3, 0x14e45506, 0xff4ea3eb, 0x6e10a476))
         == [0xd4, 0x1d, 0x8c, 0xd9, 0x8f, 0x00, 0xb2, 0x04,
             0xe9, 0x80, 0x09, 0x98, 0xec, 0xf8, 0x42, 0x7e]
  {
    FinalAdditionsEmpty();
    OutputBytes(0xd98c1dd4, 0x04b2008f, 0x980980e9, 0x7e42f8ec);
    BytesEmpty();
  }

  lemma FirstWordEmpty()
    ensures FirstWord([]) == 0x00000080 && LastWord(0) == 0
  {
  }

  lemma FinalAdditionsEmpty()
    ensures Sum(0x7246fad3, 0x14e45506, 0xff4ea3eb, 0x6e10a476) == Quad(0xd98c1dd4, 0x04b2008f, 0x980980e9, 0x7e42f8ec)
  {
  }

  lemma BytesEmpty()
    ensures RegisterBytes(0xd98c1dd4) == [0xd4, 0x1d, 0x8c, 0xd9]
    ensures RegisterBytes(0x04b2008f) == [0x8f, 0x00, 0xb2, 0x04]
    ensures RegisterBytes(0x980980e9) == [0xe9, 0x80, 0x09, 0x98]
    ensures RegisterBytes(0x7e42f8ec) == [0xec, 0xf8, 0x42, 0x7e]
  {
  }

  /** The digest of "a". */
  lemma DigestOfA()
    ensures Digest([0x61]) == [0x0c, 0xc1, 0x75, 0xb9, 0xc0, 0xf1, 0xb6, 0xa8,
                         0x31, 0xc3, 0x99, 0xe2, 0x69, 0x77, 0x26, 0x61]
  {
    DigestOfABytes([0x61]);
  }

  lemma DigestOfABytes(m: seq<Byte>)
    requires m == [0x61]
    ensures Digest(m) == [0x0c, 0xc1, 0x75, 0xb9, 0xc0, 0xf1, 0xb6, 0xa8,
                          0x31, 0xc3, 0x99, 0xe2, 0x69, 0x77, 0x26, 0x61]
  {
    ShortWords(m);
    FirstWordA();
    StepsA(Words(ShortBlock(m)));
    ShortDigest(m, 0x52309e0b, 0xb8e94637, 0x49dee633, 0x50f422f3);
    OutputA();
  }

  lemma StepsA(x: seq<Word>)
    requires Input(x, 0x00008061, 8)
    ensures After(x, 64, 0x52309e0b, 0xb8e94637, 0x49dee633, 0x50f422f3)
  {
    Start(x);
    A8(x);
    A16(x);
    A24(x);
    A32(x);
    A40(x);
    A48(x);
    A56(x);
    A64(x);
  }

  lemma OutputA()
    ensures Output(Sum(0x52309e0b, 0xb8e94637, 0x49dee633, 0x50f422f3))
         == [0x0c, 0xc1, 0x75, 0xb9, 0xc0, 0xf1, 0xb6, 0xa8,
             0x31, 0xc3, 0x99, 0xe2, 0x69, 0x77, 0x26, 0x61]
  {
    FinalAdditionsA();
    OutputBytes(0xb975c10c, 0xa8b6f1c0, 0xe299c331, 0x61267769);
    BytesA();
  }

  lemma FirstWordA()
    ensures FirstWord([0x61]) == 0x00008061 && LastWord(1) == 8
  {
  }

  lemma FinalAdditionsA()
    ensures Sum(0x52309e0b, 0xb8e94637, 0x49dee633, 0x50f422f3) == Quad(0xb975c10c, 0xa8b6f1c0, 0xe299c331, 0x61267769)
  {
  }

  lemma BytesA()
    ensures RegisterBytes(0xb975c10c) == [0x0c, 0xc1, 0x75, 0xb9]
    ensures RegisterBytes(0xa8b6f1c0) == [0xc0, 0xf1, 0xb6, 0xa8]
    ensures RegisterBytes(0xe299c331) == [0x31, 0xc3, 0x99, 0xe2]
    ensures RegisterBytes(0x61267769) == [0x69, 0x77, 0x26, 0x61]
  {
  }

  /** The digest of "abc". */
  lemma DigestOfAbc()
    ensures Digest([0x61, 0x62, 0x63]) == [0x90, 0x01, 0x50, 0x98, 0x3c, 0xd2, 0x4f, 0xb0,
                         0xd6, 0x96, 0x3f, 0x7d, 0x28, 0xe1, 0x7f, 0x72]
  {
    DigestOfAbcBytes([0x61, 0x62, 0x63]);
  }

  lemma DigestOfAbcBytes(m: seq<Byte>)
    requires m == [0x61, 0x62, 0x63]
    ensures Digest(m) == [0x90, 0x01, 0x50, 0x98, 0x3c, 0xd2, 0x4f, 0xb0,
                          0xd6, 0x96, 0x3f, 0x7d, 0x28, 0xe1, 0x7f, 0x72]
  {
    ShortWords(m);
    FirstWordAbc();
    StepsAbc(Words(ShortBlock(m)));
    ShortDigest(m, 0x310ade8f, 0xc08226b3, 0xe484b9d8, 0x624d8cb2);
    OutputAbc();
  }

  lemma StepsAbc(x: seq<Word>)
    requires Input(x, 0x80636261, 24)
    ensures After(x, 64, 0x310ade8f, 0xc08226b3, 0xe484b9d8, 0x624d8cb2)
  {
    Start(x);
    Abc8(x);
    Abc16(x);
    Abc24(x);
    Abc32(x);
    Abc40(x);
    Abc48(x);
    Abc56(x);
    Abc64(x);
  }

  lemma OutputAbc()
    ensures Output(Sum(0x310ade8f, 0xc08226b3, 0xe484b9d8, 0x624d8cb2))
         == [0x90, 0x01, 0x50, 0x98, 0x3c, 0xd2, 0x4f, 0xb0,
             0xd6, 0x96, 0x3f, 0x7d, 0x28, 0xe1, 0x7f, 0x72]
  {
    FinalAdditionsAbc();
    OutputBytes(0x98500190, 0xb04fd23c, 0x7d3f96d6, 0x727fe128);
    BytesAbc();
  }

  lemma FirstWordAbc()
    ensures FirstWord([0x61, 0x62, 0x63]) == 0x80636261 && LastWord(3) == 24
  {
  }

  lemma FinalAdditionsAbc()
    ensures Sum(0x310ade8f, 0xc08226b3, 0xe484b9d8, 0x624d8cb2) == Quad(0x98500190, 0xb04fd23c, 0x7d3f96d6, 0x727fe128)
  {
  }

  lemma BytesAbc()
    ensures RegisterBytes(0x98500190) == [0x90, 0x01, 0x50, 0x98]
    ensures RegisterBytes(0xb04fd23c) == [0x3c, 0xd2, 0x4f, 0xb0]
    ensures RegisterBytes(0x7d3f96d6) == [0xd6, 0x96, 0x3f, 0x7d]
    ensures RegisterBytes(0x727fe128) == [0x28, 0xe1, 0x7f, 0x72]
  {
  }

  // ---------------------------------------------------------------- their operations, eight at a time

  lemma Schedule8()
    ensures Scheduled(0, 0, 0, 7, 0xd76aa478)
    ensures Scheduled(1, 0, 1, 12, 0xe8c7b756)
    ensures Scheduled(2, 0, 2, 17, 0x242070db)
    ensures Scheduled(3, 0, 3, 22, 0xc1bdceee)
    ensures Scheduled(4, 0, 4, 7, 0xf57c0faf)
    ensures Scheduled(5, 0, 5, 12, 0x4787c62a)
    ensures Scheduled(6, 0, 6, 17, 0xa8304613)
    ensures Scheduled(7, 0, 7, 22, 0xfd469501)
  {
  }

  lemma Schedule16()
    ensures Scheduled(8, 0, 8, 7, 0x698098d8)
    ensures Scheduled(9, 0, 9, 12, 0x8b44f7af)
    ensures Scheduled(10, 0, 10, 17, 0xffff5bb1)
    ensures Scheduled(11, 0, 11, 22, 0x895cd7be)
    ensures Scheduled(12, 0, 12, 7, 0x6b901122)
    ensures Scheduled(13, 0, 13, 12, 0xfd987193)
    ensures Scheduled(14, 0, 14, 17, 0xa679438e)
    ensures Scheduled(15, 0, 15, 22, 0x49b40821)
  {
  }

  lemma Schedule24()
    ensures Scheduled(16, 1, 1, 5, 0xf61e2562)
    ensures Scheduled(17, 1, 6, 9, 0xc040b340)
    ensures Scheduled(18, 1, 11, 14, 0x265e5a51)
    ensures Scheduled(19, 1, 0, 20, 0xe9b6c7aa)
    ensures Scheduled(20, 1, 5, 5, 0xd62f105d)
    ensures Scheduled(21, 1, 10, 9, 0x02441453)
    ensures Scheduled(22, 1, 15, 14, 0xd8a1e681)
    ensures Scheduled(23, 1, 4, 20, 0xe7d3fbc8)
  {
  }

  lemma Schedule32()
    ensures Scheduled(24, 1, 9, 5, 0x21e1cde6)
    ensures Scheduled(25, 1, 14, 9, 0xc33707d6)
    ensures Scheduled(26, 1, 3, 14, 0xf4d50d87)
    ensures Scheduled(27, 1, 8, 20, 0x455a14ed)
    ensures Scheduled(28, 1, 13, 5, 0xa9e3e905)
    ensures Scheduled(29, 1, 2, 9, 0xfcefa3f8)
    ensures Scheduled(30, 1, 7, 14, 0x676f02d9)
    ensures Scheduled(31, 1, 12, 20, 0x8d2a4c8a)
  {
  }

  lemma Schedule40()
    ensures Scheduled(32, 2, 5, 4, 0xfffa3942)
    ensures Scheduled(33, 2, 8, 11, 0x8771f681)
    ensures Scheduled(34, 2, 11, 16, 0x6d9d6122)
    ensures Scheduled(35, 2, 14, 23, 0xfde5380c)
    ensures Scheduled(36, 2, 1, 4, 0xa4beea44)
    ensures Scheduled(37, 2, 4, 11, 0x4bdecfa9)
    ensures Scheduled(38, 2, 7, 16, 0xf6bb4b60)
    ensures Scheduled(39, 2, 10, 23, 0xbebfbc70)
  {
  }

  lemma Schedule48()
    ensures Scheduled(40, 2, 13, 4, 0x289b7ec6)
    ensures Scheduled(41, 2, 0, 11, 0xeaa127fa)
    ensures Scheduled(42, 2, 3, 16, 0xd4ef3085)
    ensures Scheduled(43, 2, 6, 23, 0x04881d05)
    ensures Scheduled(44, 2, 9, 4, 0xd9d4d039)
    ensures Scheduled(45, 2, 12, 11, 0xe6db99e5)
    ensures Scheduled(46, 2, 15, 16, 0x1fa27cf8)
    ensures Scheduled(47, 2, 2, 23, 0xc4ac5665)
  {
  }

  lemma Schedule56()
    ensures Scheduled(48, 3, 0, 6, 0xf4292244)
    ensures Scheduled(49, 3, 7, 10, 0x432aff97)
    ensures Scheduled(50, 3, 14, 15, 0xab9423a7)
    ensures Scheduled(51, 3, 5, 21, 0xfc93a039)
    ensures Scheduled(52, 3, 12, 6, 0x655b59c3)
    ensures Scheduled(53, 3, 3, 10, 0x8f0ccc92)
    ensures Scheduled(54, 3, 10, 15, 0xffeff47d)
    ensures Scheduled(55, 3, 1, 21, 0x85845dd1)
  {
  }

  lemma Schedule64()
    ensures Scheduled(56, 3, 8, 6, 0x6fa87e4f)
    ensures Scheduled(57, 3, 15, 10, 0xfe2ce6e0)
    ensures Scheduled(58, 3, 6, 15, 0xa3014314)
    ensures Scheduled(59, 3, 13, 21, 0x4e0811a1)
    ensures Scheduled(60, 3, 4, 6, 0xf7537e82)
    ensures Scheduled(61, 3, 11, 10, 0xbd3af235)
    ensures Scheduled(62, 3, 2, 15, 0x2ad7d2bb)
    ensures Scheduled(63, 3, 9, 21, 0xeb86d391)
  {
  }

  lemma Empty8(x: seq<Word>)
    requires Input(x, 0x00000080, 0) && After(x, 0, 0x67452301, 0xefcdab89, 0x98badcfe, 0x10325476)
    ensures After(x, 8, 0x32033344, 0x9bc13ce9, 0xf5b158db, 0x2f35d494)
  {
    Schedule8();
    Next(x, 0, 0, 0, 7, 0xd76aa478, 0x67452301, 0xefcdab89, 0x98badcfe, 0x10325476, 0xa5202774);
    Next(x, 1, 0, 1, 12, 0xe8c7b756, 0x10325476, 0xa5202774, 0xefcdab89, 0x98badcfe, 0xf59592dd);
    Next(x, 2, 0, 2, 17, 0x242070db, 0x98badcfe, 0xf59592dd, 0xa5202774, 0xefcdab89, 0xe7f06b23);
    Next(x, 3, 0, 3, 22, 0xc1bdceee, 0xefcdab89, 0xe7f06b23, 0xf59592dd, 0xa5202774, 0x1b163203);
    Next(x, 4, 0, 4, 7, 0xf57c0faf, 0xa5202774, 0x1b163203, 0xe7f06b23, 0xf59592dd, 0x32033344);
    Next(x, 5, 0, 5, 12, 0x4787c62a, 0xf59592dd, 0x32033344, 0x1b163203, 0xe7f06b23, 0x2f35d494);
    Next(x, 6, 0, 6, 17, 0xa8304613, 0xe7f06b23, 0x2f35d494, 0x32033344, 0x1b163203, 0xf5b158db);
    Next(x, 7, 0, 7, 22, 0xfd469501, 0x1b163203, 0xf5b158db, 0x2f35d494, 0x32033344, 0x9bc13ce9);
  }

  lemma Empty16(x: seq<Word>)
    requires Input(x, 0x00000080, 0) && After(x, 8, 0x32033344, 0x9bc13ce9, 0xf5b158db, 0x2f35d494)
    ensures After(x, 16, 0xf56c7cf1, 0xd6819c6a, 0x5aa53f75, 0x374943a7)
  {
    Schedule16();
    Next(x, 8, 0, 8, 7, 0x698098d8, 0x32033344, 0x9bc13ce9, 0xf5b158db, 0x2f35d494, 0x3893b991);
    Next(x, 9, 0, 9, 12, 0x8b44f7af, 0x2f35d494, 0x3893b991, 0x9bc13ce9, 0xf5b158db, 0xfce4a312);
    Next(x, 10, 0, 10, 17, 0xffff5bb1, 0xf5b158db, 0xfce4a312, 0x3893b991, 0x9bc13ce9, 0xe1ef0576);
    Next(x, 11, 0, 11, 22, 0x895cd7be, 0x9bc13ce9, 0xe1ef0576, 0xfce4a312, 0x3893b991, 0x70768a29);
    Next(x, 12, 0, 12, 7, 0x6b901122, 0x3893b991, 0x70768a29, 0xe1ef0576, 0xfce4a312, 0xf56c7cf1);
    Next(x, 13, 0, 13, 12, 0xfd987193, 0xfce4a312, 0xf56c7cf1, 0x70768a29, 0xe1ef0576, 0x374943a7);
    Next(x, 14, 0, 14, 17, 0xa679438e, 0xe1ef0576, 0x374943a7, 0xf56c7cf1, 0x70768a29, 0x5aa53f75);
    Next(x, 15, 0, 15, 22, 0x49b40821, 0x70768a29, 0x5aa53f75, 0x374943a7, 0xf56c7cf1, 0xd6819c6a);
  }

  lemma Empty24(x: seq<Word>)
    requires Input(x, 0x00000080, 0) && After(x, 16, 0xf56c7cf1, 0xd6819c6a, 0x5aa53f75, 0x374943a7)
    ensures After(x, 24, 0x3d1e3e6c, 0xe422531a, 0xeb41643e, 0x68b7b3e3)
  {
    Schedule24();
    Next(x, 16, 1, 1, 5, 0xf61e2562, 0xf56c7cf1, 0xd6819c6a, 0x5aa53f75, 0x374943a7, 0x1c7d7513);
    Next(x, 17, 1, 6, 9, 0xc040b340, 0x374943a7, 0x1c7d7513, 0xd6819c6a, 0x5aa53f75, 0x7bd57a3a);
    Next(x, 18, 1, 11, 14, 0x265e5a51, 0x5aa53f75, 0x7bd57a3a, 0x1c7d7513, 0xd6819c6a, 0xc095f13a);
    Next(x, 19, 1, 0, 20, 0xe9b6c7aa, 0xd6819c6a, 0xc095f13a, 0x7bd57a3a, 0x1c7d7513, 0xbd782e17);
    Next(x, 20, 1, 5, 5, 0xd62f105d, 0x1c7d7513, 0xbd782e17, 0xc095f13a, 0x7bd57a3a, 0x3d1e3e6c);
    Next(x, 21, 1, 10, 9, 0x02441453, 0x7bd57a3a, 0x3d1e3e6c, 0xbd782e17, 0xc095f13a, 0x68b7b3e3);
    Next(x, 22, 1, 15, 14, 0xd8a1e681, 0xc095f13a, 0x68b7b3e3, 0x3d1e3e6c, 0xbd782e17, 0xeb41643e);
    Next(x, 23, 1, 4, 20, 0xe7d3fbc8, 0xbd782e17, 0xeb41643e, 0x68b7b3e3, 0x3d1e3e6c, 0xe422531a);
  }

  lemma Empty32(x: seq<Word>)
    requires Input(x, 0x00000080, 0) && After(x, 24, 0x3d1e3e6c, 0xe422531a, 0xeb41643e, 0x68b7b3e3)
    ensures After(x, 32, 0x13707036, 0xa2205f1f, 0x1c31c384, 0xae7813db)
  {
    Schedule32();
    Next(x, 24, 1, 9, 5, 0x21e1cde6, 0x3d1e3e6c, 0xe422531a, 0xeb41643e, 0x68b7b3e3, 0x306ec122);
    Next(x, 25, 1, 14, 9, 0xc33707d6, 0x68b7b3e3, 0x306ec122, 0xe422531a, 0xeb41643e, 0xd28c77c2);
    Next(x, 26, 1, 3, 14, 0xf4d50d87, 0xeb41643e, 0xd28c77c2, 0x306ec122, 0xe422531a, 0xa3c663da);
    Next(x, 27, 1, 8, 20, 0x455a14ed, 0xe422531a, 0xa3c663da, 0xd28c77c2, 0x306ec122, 0xa0572807);
    Next(x, 28, 1, 13, 5, 0xa9e3e905, 0x306ec122, 0xa0572807, 0xa3c663da, 0xd28c77c2, 0x13707036);
    Next(x, 29, 1, 2, 9, 0xfcefa3f8, 0xd28c77c2, 0x13707036, 0xa0572807, 0xa3c663da, 0xae7813db);
    Next(x, 30, 1, 7, 14, 0x676f02d9, 0xa3c663da, 0xae7813db, 0x13707036, 0xa0572807, 0x1c31c384);
    Next(x, 31, 1, 12, 20, 0x8d2a4c8a, 0xa0572807, 0x1c31c384, 0xae7813db, 0x13707036, 0xa2205f1f);
  }

  lemma Empty40(x: seq<Word>)
    requires Input(x, 0x00000080, 0) && After(x, 32, 0x13707036, 0xa2205f1f, 0x1c31c384, 0xae7813db)
    ensures After(x, 40, 0x5f7a9b2e, 0xc5dc8c15, 0x91ca4cb7, 0xabc34e16)
  {
    Schedule40();
    Next(x, 32, 2, 5, 4, 0xfffa3942, 0x13707036, 0xa2205f1f, 0x1c31c384, 0xae7813db, 0xdf63eaa1);
    Next(x, 33, 2, 8, 11, 0x8771f681, 0xae7813db, 0xdf63eaa1, 0xa2205f1f, 0x1c31c384, 0xc3689f5b);
    Next(x, 34, 2, 11, 16, 0x6d9d6122, 0x1c31c384, 0xc3689f5b, 0xdf63eaa1, 0xa2205f1f, 0x12f3e755);
    Next(x, 35, 2, 14, 23, 0xfde5380c, 0xa2205f1f, 0x12f3e755, 0xc3689f5b, 0xdf63eaa1, 0x004b6669);
    Next(x, 36, 2, 1, 4, 0xa4beea44, 0xdf63eaa1, 0x004b6669, 0x12f3e755, 0xc3689f5b, 0x5f7a9b2e);
    Next(x, 37, 2, 4, 11, 0x4bdecfa9, 0xc3689f5b, 0x5f7a9b2e, 0x004b6669, 0x12f3e755, 0xabc34e16);
    Next(x, 38, 2, 7, 16, 0xf6bb4b60, 0x12f3e755, 0xabc34e16, 0x5f7a9b2e, 0x004b6669, 0x91ca4cb7);
    Next(x, 39, 2, 10, 23, 0xbebfbc70, 0x004b6669, 0x91ca4cb7, 0xabc34e16, 0x5f7a9b2e, 0xc5dc8c15);
  }

  lemma Empty48(x: seq<Word>)
    requires Input(x, 0x00000080, 0) && After(x, 40, 0x5f7a9b2e, 0xc5dc8c15, 0x91ca4cb7, 0xabc34e16)
    ensures After(x, 48, 0x3f55edfd, 0xca7d2dbd, 0x68d84ea2, 0x22a31f54)
  {
    Schedule48();
    Next(x, 40, 2, 13, 4, 0x289b7ec6, 0x5f7a9b2e, 0xc5dc8c15, 0x91ca4cb7, 0xabc34e16, 0x4497169d);
    Next(x, 41, 2, 0, 11, 0xeaa127fa, 0xabc34e16, 0x4497169d, 0xc5dc8c15, 0x91ca4cb7, 0x76fd93d4);
    Next(x, 42, 2, 3, 16, 0xd4ef3085, 0x91ca4cb7, 0x76fd93d4, 0x4497169d, 0xc5dc8c15, 0xfd95f243);
    Next(x, 43, 2, 6, 23, 0x04881d05, 0xc5dc8c15, 0xfd95f243, 0x76fd93d4, 0x4497169d, 0x0fe32453);
    Next(x, 44, 2, 9, 4, 0xd9d4d039, 0x4497169d, 0x0fe32453, 0xfd95f243, 0x76fd93d4, 0x3f55edfd);
    Next(x, 45, 2, 12, 11, 0xe6db99e5, 0x76fd93d4, 0x3f55edfd, 0x0fe32453, 0xfd95f243, 0x22a31f54);
    Next(x, 46, 2, 15, 16, 0x1fa27cf8, 0xfd95f243, 0x22a31f54, 0x3f55edfd, 0x0fe32453, 0x68d84ea2);
    Next(x, 47, 2, 2, 23, 0xc4ac5665, 0x0fe32453, 0x68d84ea2, 0x22a31f54, 0x3f55edfd, 0xca7d2dbd);
  }

  lemma Empty56(x: seq<Word>)
    requires Input(x, 0x00000080, 0) && After(x, 48, 0x3f55edfd, 0xca7d2dbd, 0x68d84ea2, 0x22a31f54)
    ensures After(x, 56, 0x5625a114, 0x1e77fa61, 0x392ad0d0, 0x3450f42b)
  {
    Schedule56();
    Next(x, 48, 3, 0, 6, 0xf4292244, 0x3f55edfd, 0xca7d2dbd, 0x68d84ea2, 0x22a31f54, 0x93aa2577);
    Next(x, 49, 3, 7, 10, 0x432aff97, 0x22a31f54, 0x93aa2577, 0xca7d2dbd, 0x68d84ea2, 0x1688dc85);
    Next(x, 50, 3, 14, 15, 0xab9423a7, 0x68d84ea2, 0x1688dc85, 0x93aa2577, 0xca7d2dbd, 0xcd85b8cb);
    Next(x, 51, 3, 5, 21, 0xfc93a039, 0xca7d2dbd, 0xcd85b8cb, 0x1688dc85, 0x93aa2577, 0x561e0689);
    Next(x, 52, 3, 12, 6, 0x655b59c3, 0x93aa2577, 0x561e0689, 0xcd85b8cb, 0x1688dc85, 0x5625a114);
    Next(x, 53, 3, 3, 10, 0x8f0ccc92, 0x1688dc85, 0x5625a114, 0x561e0689, 0xcd85b8cb, 0x3450f42b);
    Next(x, 54, 3, 10, 15, 0xffeff47d, 0xcd85b8cb, 0x3450f42b, 0x5625a114, 0x561e0689, 0x392ad0d0);
    Next(x, 55, 3, 1, 21, 0x85845dd1, 0x561e0689, 0x392ad0d0, 0x3450f42b, 0x5625a114, 0x1e77fa61);
  }

  lemma Empty64(x: seq<Word>)
    requires Input(x, 0x00000080, 0) && After(x, 56, 0x5625a114, 0x1e77fa61, 0x392ad0d0, 0x3450f42b)
    ensures After(x, 64, 0x7246fad3, 0x14e45506, 0xff4ea3eb, 0x6e10a476)
  {
    Schedule64();
    Next(x, 56, 3, 8, 6, 0x6fa87e4f, 0x5625a114, 0x1e77fa61, 0x392ad0d0, 0x3450f42b, 0x474a9c8c);
    Next(x, 57, 3, 15, 10, 0xfe2ce6e0, 0x3450f42b, 0x474a9c8c, 0x1e77fa61, 0x392ad0d0, 0xdfce00bc);
    Next(x, 58, 3, 6, 15, 0xa3014314, 0x392ad0d0, 0xdfce00bc, 0x474a9c8c, 0x1e77fa61, 0x36594b14);
    Next(x, 59, 3, 13, 21, 0x4e0811a1, 0x1e77fa61, 0x36594b14, 0xdfce00bc, 0x474a9c8c, 0x30130182);
    Next(x, 60, 3, 4, 6, 0xf7537e82, 0x474a9c8c, 0x30130182, 0x36594b14, 0xdfce00bc, 0x7246fad3);
    Next(x, 61, 3, 11, 10, 0xbd3af235, 0xdfce00bc, 0x7246fad3, 0x30130182, 0x36594b14, 0x6e10a476);
    Next(x, 62, 3, 2, 15, 0x2ad7d2bb, 0x36594b14, 0x6e10a476, 0x7246fad3, 0x30130182, 0xff4ea3eb);
    Next(x, 63, 3, 9, 21, 0xeb86d391, 0x30130182, 0xff4ea3eb, 0x6e10a476, 0x7246fad3, 0x14e45506);
  }

  lemma A8(x: seq<Word>)
    requires Input(x, 0x00008061, 8) && After(x, 0, 0x67452301, 0xefcdab89, 0x98badcfe, 0x10325476)
    ensures After(x, 8, 0x3a9d5bcc, 0xa8af6da5, 0xd31ddc83, 0xe0a07db7)
  {
    Schedule8();
    Next(x, 0, 0, 0, 7, 0xd76aa478, 0x67452301, 0xefcdab89, 0x98badcfe, 0x10325476, 0xa56017f4);
    Next(x, 1, 0, 1, 12, 0xe8c7b756, 0x10325476, 0xa56017f4, 0xefcdab89, 0x98badcfe, 0xf2d58361);
    Next(x, 2, 0, 2, 17, 0x242070db, 0x98badcfe, 0xf2d58361, 0xa56017f4, 0xefcdab89, 0xe65857a7);
    Next(x, 3, 0, 3, 22, 0xc1bdceee, 0xefcdab89, 0xe65857a7, 0xf2d58361, 0xa56017f4, 0x607d9686);
    Next(x, 4, 0, 4, 7, 0xf57c0faf, 0xa56017f4, 0x607d9686, 0xe65857a7, 0xf2d58361, 0x3a9d5bcc);
    Next(x, 5, 0, 5, 12, 0x4787c62a, 0xf2d58361, 0x3a9d5bcc, 0x607d9686, 0xe65857a7, 0xe0a07db7);
    Next(x, 6, 0, 6, 17, 0xa8304613, 0xe65857a7, 0xe0a07db7, 0x3a9d5bcc, 0x607d9686, 0xd31ddc83);
    Next(x, 7, 0, 7, 22, 0xfd469501, 0x607d9686, 0xd31ddc83, 0xe0a07db7, 0x3a9d5bcc, 0xa8af6da5);
  }

  lemma A16(x: seq<Word>)
    requires Input(x, 0x00008061, 8) && After(x, 8, 0x3a9d5bcc, 0xa8af6da5, 0xd31ddc83, 0xe0a07db7)
    ensures After(x, 16, 0x44244cf8, 0xf01e3ce2, 0x6360a45f, 0xd0fe9b27)
  {
    Schedule16();
    Next(x, 8, 0, 8, 7, 0x698098d8, 0x3a9d5bcc, 0xa8af6da5, 0xd31ddc83, 0xe0a07db7, 0xbe580957);
    Next(x, 9, 0, 9, 12, 0x8b44f7af, 0xe0a07db7, 0xbe580957, 0xa8af6da5, 0xd31ddc83, 0xf386bea6);
    Next(x, 10, 0, 10, 17, 0xffff5bb1, 0xd31ddc83, 0xf386bea6, 0xbe580957, 0xa8af6da5, 0xf5fdd933);
    Next(x, 11, 0, 11, 22, 0x895cd7be, 0xa8af6da5, 0xf5fdd933, 0xf386bea6, 0xbe580957, 0x68493d6a);
    Next(x, 12, 0, 12, 7, 0x6b901122, 0xbe580957, 0x68493d6a, 0xf5fdd933, 0xf386bea6, 0x44244cf8);
    Next(x, 13, 0, 13, 12, 0xfd987193, 0xf386bea6, 0x44244cf8, 0x68493d6a, 0xf5fdd933, 0xd0fe9b27);
    Next(x, 14, 0, 14, 17, 0xa679438e, 0xf5fdd933, 0xd0fe9b27, 0x44244cf8, 0x68493d6a, 0x6360a45f);
    Next(x, 15, 0, 15, 22, 0x49b40821, 0x68493d6a, 0x6360a45f, 0xd0fe9b27, 0x44244cf8, 0xf01e3ce2);
  }

  lemma A24(x: seq<Word>)
    requires Input(x, 0x00008061, 8) && After(x, 16, 0x44244cf8, 0xf01e3ce2, 0x6360a45f, 0xd0fe9b27)
    ensures After(x, 24, 0x8c444930, 0x373beab0, 0x2dacb8a3, 0x7267097a)
  {
    Schedule24();
    Next(x, 16, 1, 1, 5, 0xf61e2562, 0x44244cf8, 0xf01e3ce2, 0x6360a45f, 0xd0fe9b27, 0x9c341767);
    Next(x, 17, 1, 6, 9, 0xc040b340, 0xd0fe9b27, 0x9c341767, 0xf01e3ce2, 0x6360a45f, 0x970ab3a9);
    Next(x, 18, 1, 11, 14, 0x265e5a51, 0x6360a45f, 0x970ab3a9, 0x9c341767, 0xf01e3ce2, 0xe39ffd23);
    Next(x, 19, 1, 0, 20, 0xe9b6c7aa, 0xf01e3ce2, 0xe39ffd23, 0x970ab3a9, 0x9c341767, 0x8d25cc66);
    Next(x, 20, 1, 5, 5, 0xd62f105d, 0x9c341767, 0x8d25cc66, 0xe39ffd23, 0x970ab3a9, 0x8c444930);
    Next(x, 21, 1, 10, 9, 0x02441453, 0x970ab3a9, 0x8c444930, 0x8d25cc66, 0xe39ffd23, 0x7267097a);
    Next(x, 22, 1, 15, 14, 0xd8a1e681, 0xe39ffd23, 0x7267097a, 0x8c444930, 0x8d25cc66, 0x2dacb8a3);
    Next(x, 23, 1, 4, 20, 0xe7d3fbc8, 0x8d25cc66, 0x2dacb8a3, 0x7267097a, 0x8c444930, 0x373beab0);
  }

  lemma A32(x: seq<Word>)
    requires Input(x, 0x00008061, 8) && After(x, 24, 0x8c444930, 0x373beab0, 0x2dacb8a3, 0x7267097a)
    ensures After(x, 32, 0x93842e98, 0x3745961f, 0x94a2ebee, 0xc7043b64)
  {
    Schedule32();
    Next(x, 24, 1, 9, 5, 0x21e1cde6, 0x8c444930, 0x373beab0, 0x2dacb8a3, 0x7267097a, 0xf175e3ad);
    Next(x, 25, 1, 14, 9, 0xc33707d6, 0x7267097a, 0xf175e3ad, 0x373beab0, 0x2dacb8a3, 0x9d5df67e);
    Next(x, 26, 1, 3, 14, 0xf4d50d87, 0x2dacb8a3, 0x9d5df67e, 0xf175e3ad, 0x373beab0, 0x87b7f475);
    Next(x, 27, 1, 8, 20, 0x455a14ed, 0x373beab0, 0x87b7f475, 0x9d5df67e, 0xf175e3ad, 0xc8f891b4);
    Next(x, 28, 1, 13, 5, 0xa9e3e905, 0xf175e3ad, 0xc8f891b4, 0x87b7f475, 0x9d5df67e, 0x93842e98);
    Next(x, 29, 1, 2, 9, 0xfcefa3f8, 0x9d5df67e, 0x93842e98, 0xc8f891b4, 0x87b7f475, 0xc7043b64);
    Next(x, 30, 1, 7, 14, 0x676f02d9, 0x87b7f475, 0xc7043b64, 0x93842e98, 0xc8f891b4, 0x94a2ebee);
    Next(x, 31, 1, 12, 20, 0x8d2a4c8a, 0xc8f891b4, 0x94a2ebee, 0xc7043b64, 0x93842e98, 0x3745961f);
  }

  lemma A40(x: seq<Word>)
    requires Input(x, 0x00008061, 8) && After(x, 32, 0x93842e98, 0x3745961f, 0x94a2ebee, 0xc7043b64)
    ensures After(x, 40, 0x35a82a7a, 0xcf7e60db, 0x5abe099c, 0x89e0ec97)
  {
    Schedule40();
    Next(x, 32, 2, 5, 4, 0xfffa3942, 0x93842e98, 0x3745961f, 0x94a2ebee, 0xc7043b64, 0xbd607d1e);
    Next(x, 33, 2, 8, 11, 0x8771f681, 0xc7043b64, 0xbd607d1e, 0x3745961f, 0x94a2ebee, 0xa6f72085);
    Next(x, 34, 2, 11, 16, 0x6d9d6122, 0x94a2ebee, 0xa6f72085, 0xbd607d1e, 0x3745961f, 0xbf8b4f98);
    Next(x, 35, 2, 14, 23, 0xfde5380c, 0x3745961f, 0xbf8b4f98, 0xa6f72085, 0xbd607d1e, 0xdaf7f308);
    Next(x, 36, 2, 1, 4, 0xa4beea44, 0xbd607d1e, 0xdaf7f308, 0xbf8b4f98, 0xa6f72085, 0x35a82a7a);
    Next(x, 37, 2, 4, 11, 0x4bdecfa9, 0xa6f72085, 0x35a82a7a, 0xdaf7f308, 0xbf8b4f98, 0x89e0ec97);
    Next(x, 38, 2, 7, 16, 0xf6bb4b60, 0xbf8b4f98, 0x89e0ec97, 0x35a82a7a, 0xdaf7f308, 0x5abe099c);
    Next(x, 39, 2, 10, 23, 0xbebfbc70, 0xdaf7f308, 0x5abe099c, 0x89e0ec97, 0x35a82a7a, 0xcf7e60db);
  }

  lemma A48(x: seq<Word>)
    requires Input(x, 0x00008061, 8) && After(x, 40, 0x35a82a7a, 0xcf7e60db, 0x5abe099c, 0x89e0ec97)
    ensures After(x, 48, 0x0ac50e18, 0x918f93bb, 0x8a4a6356, 0x79ca7845)
  {
    Schedule48();
    Next(x, 40, 2, 13, 4, 0x289b7ec6, 0x35a82a7a, 0xcf7e60db, 0x5abe099c, 0x89e0ec97, 0x75c151e2);
    Next(x, 41, 2, 0, 11, 0xeaa127fa, 0x89e0ec97, 0x75c151e2, 0xcf7e60db, 0x5abe099c, 0x942e0c86);
    Next(x, 42, 2, 3, 16, 0xd4ef3085, 0x5abe099c, 0x942e0c86, 0x75c151e2, 0xcf7e60db, 0x0c0e6ac4);
    Next(x, 43, 2, 6, 23, 0x04881d05, 0xcf7e60db, 0x0c0e6ac4, 0x942e0c86, 0x75c151e2, 0xcc6f5e9e);
    Next(x, 44, 2, 9, 4, 0xd9d4d039, 0x75c151e2, 0xcc6f5e9e, 0x0c0e6ac4, 0x942e0c86, 0x0ac50e18);
    Next(x, 45, 2, 12, 11, 0xe6db99e5, 0x942e0c86, 0x0ac50e18, 0xcc6f5e9e, 0x0c0e6ac4, 0x79ca7845);
    Next(x, 46, 2, 15, 16, 0x1fa27cf8, 0x0c0e6ac4, 0x79ca7845, 0x0ac50e18, 0xcc6f5e9e, 0x8a4a6356);
    Next(x, 47, 2, 2, 23, 0xc4ac5665, 0xcc6f5e9e, 0x8a4a6356, 0x79ca7845, 0x0ac50e18, 0x918f93bb);
  }

  lemma A56(x: seq<Word>)
    requires Input(x, 0x00008061, 8) && After(x, 48, 0x0ac50e18, 0x918f93bb, 0x8a4a6356, 0x79ca7845)
    ensures After(x, 56, 0x982c7861, 0x893501c0, 0x71fc7709, 0x6812a362)
  {
    Schedule56();
    Next(x, 48, 3, 0, 6, 0xf4292244, 0x0ac50e18, 0x918f93bb, 0x8a4a6356, 0x79ca7845, 0xcab8fe42);
    Next(x, 49, 3, 7, 10, 0x432aff97, 0x79ca7845, 0xcab8fe42, 0x918f93bb, 0x8a4a6356, 0x6a4daeee);
    Next(x, 50, 3, 14, 15, 0xab9423a7, 0x8a4a6356, 0x6a4daeee, 0xcab8fe42, 0x918f93bb, 0x36269c3f);
    Next(x, 51, 3, 5, 21, 0xfc93a039, 0x918f93bb, 0x36269c3f, 0x6a4daeee, 0xcab8fe42, 0x1ee405eb);
    Next(x, 52, 3, 12, 6, 0x655b59c3, 0xcab8fe42, 0x1ee405eb, 0x36269c3f, 0x6a4daeee, 0x982c7861);
    Next(x, 53, 3, 3, 10, 0x8f0ccc92, 0x6a4daeee, 0x982c7861, 0x1ee405eb, 0x36269c3f, 0x6812a362);
    Next(x, 54, 3, 10, 15, 0xffeff47d, 0x36269c3f, 0x6812a362, 0x982c7861, 0x1ee405eb, 0x71fc7709);
    Next(x, 55, 3, 1, 21, 0x85845dd1, 0x1ee405eb, 0x71fc7709, 0x6812a362, 0x982c7861, 0x893501c0);
  }

  lemma A64(x: seq<Word>)
    requires Input(x, 0x00008061, 8) && After(x, 56, 0x982c7861, 0x893501c0, 0x71fc7709, 0x6812a362)
    ensures After(x, 64, 0x52309e0b, 0xb8e94637, 0x49dee633, 0x50f422f3)
  {
    Schedule64();
    Next(x, 56, 3, 8, 6, 0x6fa87e4f, 0x982c7861, 0x893501c0, 0x71fc7709, 0x6812a362, 0xfebd62fd);
    Next(x, 57, 3, 15, 10, 0xfe2ce6e0, 0x6812a362, 0xfebd62fd, 0x893501c0, 0x71fc7709, 0x28936a74);
    Next(x, 58, 3, 6, 15, 0xa3014314, 0x71fc7709, 0x28936a74, 0xfebd62fd, 0x893501c0, 0x53e33526);
    Next(x, 59, 3, 13, 21, 0x4e0811a1, 0x893501c0, 0x53e33526, 0x28936a74, 0xfebd62fd, 0xaa4d8ae3);
    Next(x, 60, 3, 4, 6, 0xf7537e82, 0xfebd62fd, 0xaa4d8ae3, 0x53e33526, 0x28936a74, 0x52309e0b);
    Next(x, 61, 3, 11, 10, 0xbd3af235, 0x28936a74, 0x52309e0b, 0xaa4d8ae3, 0x53e33526, 0x50f422f3);
    Next(x, 62, 3, 2, 15, 0x2ad7d2bb, 0x53e33526, 0x50f422f3, 0x52309e0b, 0xaa4d8ae3, 0x49dee633);
    Next(x, 63, 3, 9, 21, 0xeb86d391, 0xaa4d8ae3, 0x49dee633, 0x50f422f3, 0x52309e0b, 0xb8e94637);
  }

  lemma Abc8(x: seq<Word>)
    requires Input(x, 0x80636261, 24) && After(x, 0, 0x67452301, 0xefcdab89, 0x98badcfe, 0x10325476)
    ensures After(x, 8, 0xc73741ef, 0x928d99f6, 0x207dc67b, 0x8bac3051)
  {
    Schedule8();
    Next(x, 0, 0, 0, 7, 0xd76aa478, 0x67452301, 0xefcdab89, 0x98badcfe, 0x10325476, 0xd6d117b4);
    Next(x, 1, 0, 1, 12, 0xe8c7b756, 0x10325476, 0xd6d117b4, 0xefcdab89, 0x98badcfe, 0x344a8432);
    Next(x, 2, 0, 2, 17, 0x242070db, 0x98badcfe, 0x344a8432, 0xd6d117b4, 0xefcdab89, 0x2f6fbd72);
    Next(x, 3, 0, 3, 22, 0xc1bdceee, 0xefcdab89, 0x2f6fbd72, 0x344a8432, 0xd6d117b4, 0x7ad956f2);
    Next(x, 4, 0, 4, 7, 0xf57c0faf, 0xd6d117b4, 0x7ad956f2, 0x2f6fbd72, 0x344a8432, 0xc73741ef);
    Next(x, 5, 0, 5, 12, 0x4787c62a, 0x344a8432, 0xc73741ef, 0x7ad956f2, 0x2f6fbd72, 0x8bac3051);
    Next(x, 6, 0, 6, 17, 0xa8304613, 0x2f6fbd72, 0x8bac3051, 0xc73741ef, 0x7ad956f2, 0x207dc67b);
    Next(x, 7, 0, 7, 22, 0xfd469501, 0x7ad956f2, 0x207dc67b, 0x8bac3051, 0xc73741ef, 0x928d99f6);
  }

  lemma Abc16(x: seq<Word>)
    requires Input(x, 0x80636261, 24) && After(x, 8, 0xc73741ef, 0x928d99f6, 0x207dc67b, 0x8bac3051)
    ensures After(x, 16, 0xdda9b9a6, 0x72aff2e0, 0xe396856b, 0xa1051895)
  {
    Schedule16();
    Next(x, 8, 0, 8, 7, 0x698098d8, 0xc73741ef, 0x928d99f6, 0x207dc67b, 0x8bac3051, 0x854b3712);
    Next(x, 9, 0, 9, 12, 0x8b44f7af, 0x8bac3051, 0x854b3712, 0x928d99f6, 0x207dc67b, 0x74e2f284);
    Next(x, 10, 0, 10, 17, 0xffff5bb1, 0x207dc67b, 0x74e2f284, 0x854b3712, 0x928d99f6, 0x3020401c);
    Next(x, 11, 0, 11, 22, 0x895cd7be, 0x928d99f6, 0x3020401c, 0x74e2f284, 0x854b3712, 0x5ed49596);
    Next(x, 12, 0, 12, 7, 0x6b901122, 0x854b3712, 0x5ed49596, 0x3020401c, 0x74e2f284, 0xdda9b9a6);
    Next(x, 13, 0, 13, 12, 0xfd987193, 0x74e2f284, 0xdda9b9a6, 0x5ed49596, 0x3020401c, 0xa1051895);
    Next(x, 14, 0, 14, 17, 0xa679438e, 0x3020401c, 0xa1051895, 0xdda9b9a6, 0x5ed49596, 0xe396856b);
    Next(x, 15, 0, 15, 22, 0x49b40821, 0x5ed49596, 0xe396856b, 0xa1051895, 0xdda9b9a6, 0x72aff2e0);
  }

  lemma Abc24(x: seq<Word>)
    requires Input(x, 0x80636261, 24) && After(x, 16, 0xdda9b9a6, 0x72aff2e0, 0xe396856b, 0xa1051895)
    ensures After(x, 24, 0x59a8ffda, 0x47092c07, 0xabfc7920, 0x6d002f1e)
  {
    Schedule24();
    Next(x, 16, 1, 1, 5, 0xf61e2562, 0xdda9b9a6, 0x72aff2e0, 0xe396856b, 0xa1051895, 0x3e9e9126);
    Next(x, 17, 1, 6, 9, 0xc040b340, 0xa1051895, 0x3e9e9126, 0x72aff2e0, 0xe396856b, 0x4a1d804e);
    Next(x, 18, 1, 11, 14, 0x265e5a51, 0xe396856b, 0x4a1d804e, 0x3e9e9126, 0x72aff2e0, 0xe25e1652);
    Next(x, 19, 1, 0, 20, 0xe9b6c7aa, 0x72aff2e0, 0xe25e1652, 0x4a1d804e, 0x3e9e9126, 0xb5b204e4);
    Next(x, 20, 1, 5, 5, 0xd62f105d, 0x3e9e9126, 0xb5b204e4, 0xe25e1652, 0x4a1d804e, 0x59a8ffda);
    Next(x, 21, 1, 10, 9, 0x02441453, 0x4a1d804e, 0x59a8ffda, 0xb5b204e4, 0xe25e1652, 0x6d002f1e);
    Next(x, 22, 1, 15, 14, 0xd8a1e681, 0xe25e1652, 0x6d002f1e, 0x59a8ffda, 0xb5b204e4, 0xabfc7920);
    Next(x, 23, 1, 4, 20, 0xe7d3fbc8, 0xb5b204e4, 0xabfc7920, 0x6d002f1e, 0x59a8ffda, 0x47092c07);
  }

  lemma Abc32(x: seq<Word>)
    requires Input(x, 0x80636261, 24) && After(x, 24, 0x59a8ffda, 0x47092c07, 0xabfc7920, 0x6d002f1e)
    ensures After(x, 32, 0x790a77fb, 0x726342d3, 0xa62884aa, 0x9f47e4f8)
  {
    Schedule32();
    Next(x, 24, 1, 9, 5, 0x21e1cde6, 0x59a8ffda, 0x47092c07, 0xabfc7920, 0x6d002f1e, 0xb7f268cf);
    Next(x, 25, 1, 14, 9, 0xc33707d6, 0x6d002f1e, 0xb7f268cf, 0x47092c07, 0xabfc7920, 0x09388eff);
    Next(x, 26, 1, 3, 14, 0xf4d50d87, 0xabfc7920, 0x09388eff, 0xb7f268cf, 0x47092c07, 0xfe1623b1);
    Next(x, 27, 1, 8, 20, 0x455a14ed, 0x47092c07, 0xfe1623b1, 0x09388eff, 0xb7f268cf, 0x786acb8f);
    Next(x, 28, 1, 13, 5, 0xa9e3e905, 0xb7f268cf, 0x786acb8f, 0xfe1623b1, 0x09388eff, 0x790a77fb);
    Next(x, 29, 1, 2, 9, 0xfcefa3f8, 0x09388eff, 0x790a77fb, 0x786acb8f, 0xfe1623b1, 0x9f47e4f8);
    Next(x, 30, 1, 7, 14, 0x676f02d9, 0xfe1623b1, 0x9f47e4f8, 0x790a77fb, 0x786acb8f, 0xa62884aa);
    Next(x, 31, 1, 12, 20, 0x8d2a4c8a, 0x786acb8f, 0xa62884aa, 0x9f47e4f8, 0x790a77fb, 0x726342d3);
  }

  lemma Abc40(x: seq<Word>)
    requires Input(x, 0x80636261, 24) && After(x, 32, 0x790a77fb, 0x726342d3, 0xa62884aa, 0x9f47e4f8)
    ensures After(x, 40, 0x21b117b9, 0x5a2f5ea5, 0x3575227e, 0x6e7429d5)
  {
    Schedule40();
    Next(x, 32, 2, 5, 4, 0xfffa3942, 0x790a77fb, 0x726342d3, 0xa62884aa, 0x9f47e4f8, 0xb3707ebf);
    Next(x, 33, 2, 8, 11, 0x8771f681, 0x9f47e4f8, 0xb3707ebf, 0x726342d3, 0xa62884aa, 0x60127b2e);
    Next(x, 34, 2, 11, 16, 0x6d9d6122, 0xa62884aa, 0x60127b2e, 0xb3707ebf, 0x726342d3, 0x8d212ff5);
    Next(x, 35, 2, 14, 23, 0xfde5380c, 0x726342d3, 0x8d212ff5, 0x60127b2e, 0xb3707ebf, 0x3b0875c7);
    Next(x, 36, 2, 1, 4, 0xa4beea44, 0xb3707ebf, 0x3b0875c7, 0x8d212ff5, 0x60127b2e, 0x21b117b9);
    Next(x, 37, 2, 4, 11, 0x4bdecfa9, 0x60127b2e, 0x21b117b9, 0x3b0875c7, 0x8d212ff5, 0x6e7429d5);
    Next(x, 38, 2, 7, 16, 0xf6bb4b60, 0x8d212ff5, 0x6e7429d5, 0x21b117b9, 0x3b0875c7, 0x3575227e);
    Next(x, 39, 2, 10, 23, 0xbebfbc70, 0x3b0875c7, 0x3575227e, 0x6e7429d5, 0x21b117b9, 0x5a2f5ea5);
  }

  lemma Abc48(x: seq<Word>)
    requires Input(x, 0x80636261, 24) && After(x, 40, 0x21b117b9, 0x5a2f5ea5, 0x3575227e, 0x6e7429d5)
    ensures After(x, 48, 0x7f2e507b, 0x7beb9700, 0x8fae6399, 0x99d9679d)
  {
    Schedule48();
    Next(x, 40, 2, 13, 4, 0x289b7ec6, 0x21b117b9, 0x5a2f5ea5, 0x3575227e, 0x6e7429d5, 0x11de1779);
    Next(x, 41, 2, 0, 11, 0xeaa127fa, 0x6e7429d5, 0x11de1779, 0x5a2f5ea5, 0x3575227e, 0xfadcaa38);
    Next(x, 42, 2, 3, 16, 0xd4ef3085, 0x3575227e, 0xfadcaa38, 0x11de1779, 0x5a2f5ea5, 0x31c465ca);
    Next(x, 43, 2, 6, 23, 0x04881d05, 0x5a2f5ea5, 0x31c465ca, 0xfadcaa38, 0x11de1779, 0x4c6124f4);
    Next(x, 44, 2, 9, 4, 0xd9d4d039, 0x11de1779, 0x4c6124f4, 0x31c465ca, 0xfadcaa38, 0x7f2e507b);
    Next(x, 45, 2, 12, 11, 0xe6db99e5, 0xfadcaa38, 0x7f2e507b, 0x4c6124f4, 0x31c465ca, 0x99d9679d);
    Next(x, 46, 2, 15, 16, 0x1fa27cf8, 0x31c465ca, 0x99d9679d, 0x7f2e507b, 0x4c6124f4, 0x8fae6399);
    Next(x, 47, 2, 2, 23, 0xc4ac5665, 0x4c6124f4, 0x8fae6399, 0x99d9679d, 0x7f2e507b, 0x7beb9700);
  }

  lemma Abc56(x: seq<Word>)
    requires Input(x, 0x80636261, 24) && After(x, 48, 0x7f2e507b, 0x7beb9700, 0x8fae6399, 0x99d9679d)
    ensures After(x, 56, 0x06cc5e8a, 0x3bfa2c27, 0x7d632dd0, 0x5b0d97aa)
  {
    Schedule56();
    Next(x, 48, 3, 0, 6, 0xf4292244, 0x7f2e507b, 0x7beb9700, 0x8fae6399, 0x99d9679d, 0x7b201df8);
    Next(x, 49, 3, 7, 10, 0x432aff97, 0x99d9679d, 0x7b201df8, 0x7beb9700, 0x8fae6399, 0xf4e8e96e);
    Next(x, 50, 3, 14, 15, 0xab9423a7, 0x8fae6399, 0xf4e8e96e, 0x7b201df8, 0x7beb9700, 0xb298cefd);
    Next(x, 51, 3, 5, 21, 0xfc93a039, 0x7beb9700, 0xb298cefd, 0xf4e8e96e, 0x7b201df8, 0x8bf025c4);
    Next(x, 52, 3, 12, 6, 0x655b59c3, 0x7b201df8, 0x8bf025c4, 0xb298cefd, 0xf4e8e96e, 0x06cc5e8a);
    Next(x, 53, 3, 3, 10, 0x8f0ccc92, 0xf4e8e96e, 0x06cc5e8a, 0x8bf025c4, 0xb298cefd, 0x5b0d97aa);
    Next(x, 54, 3, 10, 15, 0xffeff47d, 0xb298cefd, 0x5b0d97aa, 0x06cc5e8a, 0x8bf025c4, 0x7d632dd0);
    Next(x, 55, 3, 1, 21, 0x85845dd1, 0x8bf025c4, 0x7d632dd0, 0x5b0d97aa, 0x06cc5e8a, 0x3bfa2c27);
  }

  lemma Abc64(x: seq<Word>)
    requires Input(x, 0x80636261, 24) && After(x, 56, 0x06cc5e8a, 0x3bfa2c27, 0x7d632dd0, 0x5b0d97aa)
    ensures After(x, 64, 0x310ade8f, 0xc08226b3, 0xe484b9d8, 0x624d8cb2)
  {
    Schedule64();
    Next(x, 56, 3, 8, 6, 0x6fa87e4f, 0x06cc5e8a, 0x3bfa2c27, 0x7d632dd0, 0x5b0d97aa, 0x7f81cc35);
    Next(x, 57, 3, 15, 10, 0xfe2ce6e0, 0x5b0d97aa, 0x7f81cc35, 0x3bfa2c27, 0x7d632dd0, 0x094454ab);
    Next(x, 58, 3, 6, 15, 0xa3014314, 0x7d632dd0, 0x094454ab, 0x7f81cc35, 0x3bfa2c27, 0x4f9dbe3f);
    Next(x, 59, 3, 13, 21, 0x4e0811a1, 0x3bfa2c27, 0x4f9dbe3f, 0x094454ab, 0x7f81cc35, 0x7327d604);
    Next(x, 60, 3, 4, 6, 0xf7537e82, 0x7f81cc35, 0x7327d604, 0x4f9dbe3f, 0x094454ab, 0x310ade8f);
    Next(x, 61, 3, 11, 10, 0xbd3af235, 0x094454ab, 0x310ade8f, 0x7327d604, 0x4f9dbe3f, 0x624d8cb2);
    Next(x, 62, 3, 2, 15, 0x2ad7d2bb, 0x4f9dbe3f, 0x624d8cb2, 0x310ade8f, 0x7327d604, 0xe484b9d8);
    Next(x, 63, 3, 9, 21, 0xeb86d391, 0x7327d604, 0xe484b9d8, 0x624d8cb2, 0x310ade8f, 0xc08226b3);
  }
}
