/** The MD5 interface: initialise, append in any chunks, finish. */
module Md5 {
  import opened Bytes
  import opened Md5Padding
  import opened Md5Counter
  import opened Md5Stream
  import opened Md5Spec
  import opened Md5Block

  /** The starting registers as the code writes them. */
  const START := Quad(0x67452301, T_MASK ^ 0x10325476, T_MASK ^ 0x67452301, 0x10325476)

  lemma InitialRegisters()
    ensures START == INITIAL
  {
  }

  /** Eight bits of a word, `n` bits up. */
  function BitsFrom(w: Word, n: Word): bv8
    requires n <= 32
  {
    ((w >> n) & 0xFF) as bv8
  }

  lemma BitsAreBytes(w: Word)
    ensures BitsFrom(w, 0) == ByteOf(w, 0) && BitsFrom(w, 8) == ByteOf(w, 1)
    ensures BitsFrom(w, 16) == ByteOf(w, 2) && BitsFrom(w, 24) == ByteOf(w, 3)
  {
  }

  /** `(i & 3) << 3`. */
  function ShiftOf(i: nat): (n: Word)
    ensures n <= 32
  {
    match i % 4 case 0 => 0 case 1 => 8 case 2 => 16 case _ => 24
  }

  /** Register `i >> 2`, shifted down and truncated. */
  function DigestByte(abcd: Quad, i: nat): Byte {
    BitsFrom(Register(abcd, i / 4), ShiftOf(i)) as Byte
  }

  lemma DigestByteIsOutput(abcd: Quad, i: nat)
    ensures DigestByte(abcd, i) == OutputByte(abcd, i)
  {
    ByteByShift(Register(abcd, i / 4), i);
  }

  /** The output loop. */
  method WriteDigest(abcd: Quad) returns (digest: seq<Byte>)
    ensures digest == Output(abcd)
  {
    digest := [];
    for i := 0 to 16
      invariant |digest| == i
      invariant forall j :: 0 <= j < i ==> digest[j] == Output(abcd)[j]
    {
      DigestByteIsOutput(abcd, i);
      digest := digest + [DigestByte(abcd, i)];
    }
  }

  lemma ByteByShift(w: Word, i: nat)
    ensures BitsFrom(w, ShiftOf(i)) == ByteOf(w, i % 4)
  {
    match i % 4
    case 0 => BitsAreBytes(w);
    case 1 => BitsAreBytes(w);
    case 2 => BitsAreBytes(w);
    case _ => BitsAreBytes(w);
  }

  /** Output and input agree on the order of bytes: read as words, the digest is the registers. */
  lemma DigestReadsBack(q: Quad, i: nat)
    requires i < 4
    ensures var r := Output(q); WordOf(r[4 * i], r[4 * i + 1], r[4 * i + 2], r[4 * i + 3]) == Register(q, i)
  {
    var w := Register(q, i);
    BytesJoin(w);
    var r := Output(q);
    assert (4 * i) / 4 == i && (4 * i + 1) / 4 == i && (4 * i + 2) / 4 == i && (4 * i + 3) / 4 == i;
    assert r[4 * i] == OutputByte(q, 4 * i) && r[4 * i + 1] == OutputByte(q, 4 * i + 1);
    assert r[4 * i + 2] == OutputByte(q, 4 * i + 2) && r[4 * i + 3] == OutputByte(q, 4 * i + 3);
    SameBits(ByteOf(w, 0));
    SameBits(ByteOf(w, 1));
    SameBits(ByteOf(w, 2));
    SameBits(ByteOf(w, 3));
  }

  lemma SameBits(b: bv8)
    ensures (b as Byte) as bv8 == b
  {
  }

  lemma BytesJoin(w: Word)
    ensures JoinBytes(ByteOf(w, 0), ByteOf(w, 1), ByteOf(w, 2), ByteOf(w, 3)) == w
  {
  }

  /** The code's block function as a value. */
  function ProcessFunction(): (Quad, seq<Byte>) -> Quad {
    (q: Quad, block: seq<Byte>) => if |block| == BLOCK then Process(q, block) else q
  }

  lemma SameFold(m: seq<Byte>)
    ensures Absorb(ProcessFunction(), INITIAL, m) == Absorb(BlockFunction(), INITIAL, m)
  {
    var f, g := ProcessFunction(), BlockFunction();
    forall q, block | |block| == BLOCK ensures f(q, block) == g(q, block) {
      ProcessIsCompress(q, block);
    }
    AbsorbAgrees(f, g, INITIAL, m);
  }

  /** Initialise, append each chunk, finish, with the code's block function: for every way of cutting a
      message into chunks this is the digest the standard defines for the whole message. */
  method DigestOfChunks(chunks: seq<seq<Byte>>) returns (digest: seq<Byte>)
    requires forall i :: 0 <= i < |chunks| ==> |chunks[i]| <= INT_MAX - 63
    ensures digest == Digest(Concat(chunks))
  {
    InitialRegisters();
    var abcd := HashChunks(ProcessFunction(), START, chunks);
    SameFold(Padded(Concat(chunks)));
    digest := WriteDigest(abcd);
  }
}
