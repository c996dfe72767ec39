/** The MD5 message digest as sections 3.1 to 3.5 of RFC 1321 define it, on whole messages. */
module Md5Spec {

  import opened Bytes
  import opened Md5Padding

  type Word = bv32

  /** The four registers A, B, C, D. */
  datatype Quad = Quad(a: Word, b: Word, c: Word, d: Word)

  // ---------------------------------------------------------------- blocks (3.3, 3.4)

  const INITIAL := Quad(0x67452301, 0xefcdab89, 0x98badcfe, 0x10325476)

  function F(x: Word, y: Word, z: Word): Word { (x & y) | (!x & z) }
  function G(x: Word, y: Word, z: Word): Word { (x & z) | (y & !z) }
  function H(x: Word, y: Word, z: Word): Word { x ^ y ^ z }
  function I(x: Word, y: Word, z: Word): Word { y ^ (x | !z) }

  /** Addition modulo 2^32. */
  function Plus(x: Word, y: Word): Word { x + y }

  /** Circular shift to the left. */
  function Rotate(x: Word, n: nat): Word
    requires n <= 32
  {
    x.RotateLeft(n)
  }

  /** A word whose four bytes, low-order byte first, are the given ones. */
  function JoinBytes(b0: bv8, b1: bv8, b2: bv8, b3: bv8): Word {
    (b0 as Word) | ((b1 as Word) << 8) | ((b2 as Word) << 16) | ((b3 as Word) << 24)
  }

  function WordOf(b0: Byte, b1: Byte, b2: Byte, b3: Byte): Word {
    JoinBytes(b0 as bv8, b1 as bv8, b2 as bv8, b3 as bv8)
  }

  function WordAt(block: seq<Byte>, i: nat): Word
    requires |block| == BLOCK && i < 16
  {
    WordOf(block[4 * i], block[4 * i + 1], block[4 * i + 2], block[4 * i + 3])
  }

  function Words(block: seq<Byte>): (x: seq<Word>)
    requires |block| == BLOCK
    ensures |x| == 16
    ensures forall i :: 0 <= i < 16 ==> x[i] == WordAt(block, i)
  {
    seq(16, i requires 0 <= i < 16 => WordAt(block, i))
  }

  /** Which word of the block step `i` adds. */
  function Index(i: nat): (k: nat)
    requires i < 64
    ensures k < 16
  {
    if i < 16 then i
    else if i < 32 then (5 * i + 1) % 16
    else if i < 48 then (3 * i + 5) % 16
    else (7 * i) % 16
  }

  /** By how many bits step `i` rotates. */
  function Shift(i: nat): (s: nat)
    requires i < 64
    ensures 0 < s < 32
  {
    if i < 16 then (match i % 4 case 0 => 7 case 1 => 12 case 2 => 17 case _ => 22)
    else if i < 32 then (match i % 4 case 0 => 5 case 1 => 9 case 2 => 14 case _ => 20)
    else if i < 48 then (match i % 4 case 0 => 4 case 1 => 11 case 2 => 16 case _ => 23)
    else (match i % 4 case 0 => 6 case 1 => 10 case 2 => 15 case _ => 21)
  }

  /** The auxiliary function of each round. */
  function Mix(round: nat, x: Word, y: Word, z: Word): Word {
    match round
    case 0 => F(x, y, z)
    case 1 => G(x, y, z)
    case 2 => H(x, y, z)
    case _ => I(x, y, z)
  }

  /** The table of 4294967296 times abs(sin(i + 1)), i in radians, one row for each round. */
  function T(i: nat): Word
    requires i < 64
  {
    if i < 16 then TF(i) else if i < 32 then TG(i - 16) else if i < 48 then TH(i - 32) else TI(i - 48)
  }

  function TF(i: nat): Word
    requires i < 16
  {
    match i
    case 0 => 0xd76aa478
    case 1 => 0xe8c7b756
    case 2 => 0x242070db
    case 3 => 0xc1bdceee
    case 4 => 0xf57c0faf
    case 5 => 0x4787c62a
    case 6 => 0xa8304613
    case 7 => 0xfd469501
    case 8 => 0x698098d8
    case 9 => 0x8b44f7af
    case 10 => 0xffff5bb1
    case 11 => 0x895cd7be
    case 12 => 0x6b901122
    case 13 => 0xfd987193
    case 14 => 0xa679438e
    case _ => 0x49b40821
  }

  function TG(i: nat): Word
    requires i < 16
  {
    match i
    case 0 => 0xf61e2562
    case 1 => 0xc040b340
    case 2 => 0x265e5a51
    case 3 => 0xe9b6c7aa
    case 4 => 0xd62f105d
    case 5 => 0x02441453
    case 6 => 0xd8a1e681
    case 7 => 0xe7d3fbc8
    case 8 => 0x21e1cde6
    case 9 => 0xc33707d6
    case 10 => 0xf4d50d87
    case 11 => 0x455a14ed
    case 12 => 0xa9e3e905
    case 13 => 0xfcefa3f8
    case 14 => 0x676f02d9
    case _ => 0x8d2a4c8a
  }

  function TH(i: nat): Word
    requires i < 16
  {
    match i
    case 0 => 0xfffa3942
    case 1 => 0x8771f681
    case 2 => 0x6d9d6122
    case 3 => 0xfde5380c
    case 4 => 0xa4beea44
    case 5 => 0x4bdecfa9
    case 6 => 0xf6bb4b60
    case 7 => 0xbebfbc70
    case 8 => 0x289b7ec6
    case 9 => 0xeaa127fa
    case 10 => 0xd4ef3085
    case 11 => 0x04881d05
    case 12 => 0xd9d4d039
    case 13 => 0xe6db99e5
    case 14 => 0x1fa27cf8
    case _ => 0xc4ac5665
  }

  function TI(i: nat): Word
    requires i < 16
  {
    match i
    case 0 => 0xf4292244
    case 1 => 0x432aff97
    case 2 => 0xab9423a7
    case 3 => 0xfc93a039
    case 4 => 0x655b59c3
    case 5 => 0x8f0ccc92
    case 6 => 0xffeff47d
    case 7 => 0x85845dd1
    case 8 => 0x6fa87e4f
    case 9 => 0xfe2ce6e0
    case 10 => 0xa3014314
    case 11 => 0x4e0811a1
    case 12 => 0xf7537e82
    case 13 => 0xbd3af235
    case 14 => 0x2ad7d2bb
    case _ => 0xeb86d391
  }

  /** The new value of the first register: b + ((a + mix(b, c, d) + x + t) <<< s). */
  function Operation(round: nat, q: Quad, x: Word, t: Word, s: nat): Word
    requires s <= 32
  {
    Plus(Rotate(Plus(Plus(Plus(q.a, Mix(round, q.b, q.c, q.d)), x), t), s), q.b)
  }

  /** One operation; it leaves the four registers renamed for the next one. */
  function Step(q: Quad, x: seq<Word>, i: nat): Quad
    requires |x| == 16 && i < 64
  {
    Quad(q.d, Operation(i / 16, q, x[Index(i)], T(i), Shift(i)), q.b, q.c)
  }

  /** The registers after the first `n` operations. */
  function Steps(q: Quad, x: seq<Word>, n: nat): Quad
    requires |x| == 16 && n <= 64
  {
    if n == 0 then q else Step(Steps(q, x, n - 1), x, n - 1)
  }

  /** Four rounds of one operation per word, then the additions. */
  function Compress(q: Quad, block: seq<Byte>): Quad
    requires |block| == BLOCK
  {
    var x := Words(block);
    var r := Steps(q, x, 4 * |x|);
    Quad(Plus(q.a, r.a), Plus(q.b, r.b), Plus(q.c, r.c), Plus(q.d, r.d))
  }

  /** The block function as a value, for the fold over a message's blocks. */
  function BlockFunction(): (Quad, seq<Byte>) -> Quad {
    (q: Quad, block: seq<Byte>) => if |block| == BLOCK then Compress(q, block) else q
  }

  // ---------------------------------------------------------------- output (3.5)

  /** Byte `i` of a word, counted from the low-order end. */
  function ByteOf(w: Word, i: nat): bv8 {
    match i
    case 0 => (w & 0xFF) as bv8
    case 1 => ((w & 0xFF00) >> 8) as bv8
    case 2 => ((w & 0xFF_0000) >> 16) as bv8
    case _ => (w >> 24) as bv8
  }

  function Register(q: Quad, i: nat): Word {
    match i case 0 => q.a case 1 => q.b case 2 => q.c case _ => q.d
  }

  function OutputByte(q: Quad, i: nat): Byte {
    ByteOf(Register(q, i / 4), i % 4) as Byte
  }

  /** The four registers, low-order byte of A first. */
  function Output(q: Quad): (r: seq<Byte>)
    ensures |r| == 16
  {
    seq(16, i requires 0 <= i < 16 => OutputByte(q, i))
  }

  function Digest(message: seq<Byte>): seq<Byte> {
    Output(Absorb(BlockFunction(), INITIAL, Padded(message)))
  }
}
