/** The incremental interface: a partial-block buffer, a two-word bit counter, and padding. */
module Md5Stream {
  import opened Common
  import opened Bytes
  import opened Md5Padding
  import opened Md5Counter

  // ---------------------------------------------------------------- absorbing in pieces

  lemma {:induction false} AbsorbConcat<S>(f: (S, seq<Byte>) -> S, q: S, x: seq<Byte>, y: seq<Byte>)
    requires |x| % BLOCK == 0
    ensures Absorb(f, q, x + y) == Absorb(f, Absorb(f, q, x), y)
    decreases |x|
  {
    if x == [] {
      assert x + y == y;
    } else {
      assert (x + y)[..BLOCK] == x[..BLOCK] && (x + y)[BLOCK..] == x[BLOCK..] + y;
      AbsorbConcat(f, f(q, x[..BLOCK]), x[BLOCK..], y);
    }
  }

  /** A tail that fills no block changes nothing. */
  lemma AbsorbTail<S>(f: (S, seq<Byte>) -> S, q: S, done: seq<Byte>, tail: seq<Byte>)
    requires |done| % BLOCK == 0 && |tail| < BLOCK
    ensures Absorb(f, q, done + tail) == Absorb(f, q, done)
  {
    AbsorbConcat(f, q, done, tail);
  }

  lemma AbsorbOne<S>(f: (S, seq<Byte>) -> S, q: S, block: seq<Byte>)
    requires |block| == BLOCK
    ensures Absorb(f, q, block) == f(q, block)
  {
    assert block[..BLOCK] == block && block[BLOCK..] == [];
    assert Absorb(f, q, block) == Absorb(f, f(q, block), []);
  }

  lemma AbsorbBlock<S>(f: (S, seq<Byte>) -> S, q: S, m: seq<Byte>, block: seq<Byte>)
    requires |m| % BLOCK == 0 && |block| == BLOCK
    ensures Absorb(f, q, m + block) == f(Absorb(f, q, m), block)
  {
    AbsorbConcat(f, q, m, block);
    AbsorbOne(f, Absorb(f, q, m), block);
  }

  /** Only what a block function does to whole blocks matters. */
  lemma {:induction false} AbsorbAgrees<S>(f: (S, seq<Byte>) -> S, g: (S, seq<Byte>) -> S, q: S, m: seq<Byte>)
    requires forall r, block :: |block| == BLOCK ==> f(r, block) == g(r, block)
    ensures Absorb(f, q, m) == Absorb(g, q, m)
    decreases |m|
  {
    if |m| >= BLOCK {
      AbsorbAgrees(f, g, f(q, m[..BLOCK]), m[BLOCK..]);
    }
  }

  // ---------------------------------------------------------------- the length bytes

  lemma Powers()
    ensures Pow256(1) == 0x100 && Pow256(2) == 0x1_0000 && Pow256(3) == 0x100_0000
    ensures Pow256(4) == TWO32 && Pow256(8) == TWO64
  {
    assert Pow256(4) == 256 * Pow256(3);
    assert Pow256(6) == 256 * Pow256(5) && Pow256(8) == 256 * Pow256(7);
  }

  /** The eight bytes written by `Finish` are the low 64 bits of the bit length. */
  lemma LengthBytes(c0: nat, c1: nat, n: nat)
    requires Counts(c0, c1, n)
    ensures LittleEndian(c0, 4) + LittleEndian(c1, 4) == LittleEndian(8 * n, 8)
  {
    Powers();
    LittleEndianSplit(c0, c1, 4, 4);
    var low, high := (8 * n) % TWO64, (8 * n) / TWO64;
    LittleEndianSplit(low, high, 8, 0);
    assert low + TWO64 * high == 8 * n;
    assert LittleEndian(high, 0) == [];
  }

  // ---------------------------------------------------------------- the state

  /** The running state over any block function; `abcd` holds its registers. */
  class BlockStream<S> {
    var count0: nat
    var count1: nat
    const compress: (S, seq<Byte>) -> S
    const initial: S
    var abcd: S
    const buf: array<Byte>

    /** Everything appended since the initialisation: the blocks folded in, and what is in the buffer. */
    ghost var done: seq<Byte>
    ghost var part: seq<Byte>

    ghost function Message(): seq<Byte>
      reads this
    {
      done + part
    }

    /** Whole blocks are folded in, and the remainder is at the front of the buffer. */
    ghost predicate Stored()
      reads this, buf
    {
      && buf.Length == BLOCK && |done| % BLOCK == 0 && |part| < BLOCK
      && abcd == Absorb(compress, initial, done) && buf[..|part|] == part
    }

    ghost predicate Valid()
      reads this, buf
    {
      Stored() && Counts(count0, count1, |done| + |part|)
    }

    constructor (compress: (S, seq<Byte>) -> S, initial: S)
      ensures Valid() && fresh(buf) && Message() == []
      ensures this.compress == compress && this.initial == initial
    {
      this.compress, this.initial := compress, initial;
      count0, count1 := 0, 0;
      abcd := initial;
      buf := new Byte[64];
      done, part := [], [];
    }

    method CopyToBuffer(at: nat, data: seq<Byte>)
      requires at + |data| <= buf.Length
      modifies buf
      ensures buf[..at + |data|] == old(buf[..at]) + data
    {
      forall i | 0 <= i < |data| {
        buf[at + i] := data[i];
      }
    }

    method AddLength(nbytes: nat, ghost n: nat)
      requires Counts(count0, count1, n) && nbytes <= INT_MAX
      modifies this`count0, this`count1
      ensures Counts(count0, count1, n + nbytes)
    {
      CounterAdds(count0, count1, n, nbytes);
      var nbits := (nbytes * 8) % TWO32;
      count1 := (count1 + nbytes / TWO29) % TWO32;
      count0 := (count0 + nbits) % TWO32;
      if count0 < nbits {
        count1 := (count1 + 1) % TWO32;
      }
    }

    /** Folds one block in. */
    method ProcessBlock(block: seq<Byte>)
      requires |block| == BLOCK && |done| % BLOCK == 0 && abcd == Absorb(compress, initial, done)
      modifies this`abcd, this`done
      ensures done == old(done) + block && |done| % BLOCK == 0 && abcd == Absorb(compress, initial, done)
    {
      AbsorbBlock(compress, initial, done, block);
      OneMore(|done|);
      abcd := compress(abcd, block);
      done := done + block;
    }

    /** Completes the partial block in the buffer, if the chunk is long enough: returns how much of
        the chunk went there, and whether a whole block is now folded in. */
    method FillBuffer(data: seq<Byte>, offset: nat, nbytes: nat) returns (copy: nat, full: bool)
      requires Stored() && offset == |part| && 0 < nbytes <= |data|
      modifies this`abcd, this`done, this`part, buf
      ensures Stored() && copy <= nbytes && Message() == old(Message()) + data[..copy]
      ensures full <==> offset + nbytes >= BLOCK
      ensures if full then part == [] && copy == BLOCK - offset else copy == nbytes
    {
      copy := if offset + nbytes > 64 then 64 - offset else nbytes;
      CopyToBuffer(offset, data[..copy]);
      part := part + data[..copy];
      Assoc(done, old(part), data[..copy]);
      full := offset + copy >= 64;
      if full {
        assert buf[..] == part;
        ProcessBlock(buf[..]);
        part := [];
      }
    }

    /** Whole blocks straight from the caller's data; returns where the remainder starts. */
    method AppendBlocks(data: seq<Byte>, start: nat, nbytes: nat) returns (p: nat)
      requires start <= nbytes <= |data| && Stored() && part == []
      modifies this`abcd, this`done
      ensures start <= p <= nbytes < p + BLOCK
      ensures Stored() && done == old(done) + data[start..p]
    {
      p := start;
      while nbytes - p >= BLOCK
        invariant start <= p <= nbytes && Stored() && done == old(done) + data[start..p]
      {
        Assoc(old(done), data[start..p], data[p..p + BLOCK]);
        assert data[start..p + BLOCK] == data[start..p] + data[p..p + BLOCK];
        ProcessBlock(data[p..p + BLOCK]);
        p := p + BLOCK;
      }
    }

    /** Whole blocks and then the remainder, from a block boundary on. */
    method AppendRest(data: seq<Byte>, p: nat, nbytes: nat)
      requires p <= nbytes <= |data| && Stored() && part == []
      modifies this`abcd, this`done, this`part, buf
      ensures Stored() && Message() == old(Message()) + data[p..nbytes]
    {
      var q := AppendBlocks(data, p, nbytes);
      if nbytes - q != 0 {
        CopyToBuffer(0, data[q..nbytes]);
      }
      part := data[q..nbytes];
      assert data[p..nbytes] == data[p..q] + data[q..nbytes];
      Assoc(old(done), data[p..q], data[q..nbytes]);
    }

    /** Folds the blocks a chunk completes and keeps the remainder in the buffer. */
    method Consume(data: seq<Byte>, offset: nat, nbytes: nat)
      requires Stored() && offset == |part| && 0 < nbytes <= |data|
      modifies this`abcd, this`done, this`part, buf
      ensures Stored() && Message() == old(Message()) + data[..nbytes]
    {
      var p := 0;
      if offset != 0 {
        var copy, full := FillBuffer(data, offset, nbytes);
        if !full {
          return;
        }
        p := copy;
      }
      assert Message() == old(Message()) + data[..p];
      AppendRest(data, p, nbytes);
      assert data[..nbytes] == data[..p] + data[p..nbytes];
      Assoc(old(Message()), data[..p], data[p..nbytes]);
    }

    /** Appending keeps the state that of the message so far, for every chunk the code's `int`
        arithmetic can handle; a length of zero or less does nothing. */
    method Append(data: seq<Byte>, nbytes: int)
      requires Valid() && nbytes <= |data| && nbytes <= INT_MAX - 63
      modifies this, buf
      ensures Valid()
      ensures Message() == old(Message()) + if nbytes > 0 then data[..nbytes] else []
    {
      var offset := (count0 / 8) % 64;
      CounterOffset(count0, count1, |done| + |part|);
      ModBlock(|done|, |part|);
      if nbytes <= 0 {
        assert Message() + [] == Message();
        return;
      }
      AddLength(nbytes, |done| + |part|);
      Consume(data, offset, nbytes);
      assert |done| + |part| == |Message()|;
    }

    /** One 0x80 byte and then 0 to 63 zero bytes, so that 8 bytes are missing to a block boundary. */
    method AppendPadding()
      requires Valid()
      modifies this, buf
      ensures Valid()
      ensures Message() == old(Message()) + ([0x80 as Byte] + Zeros(ZeroCount(|old(Message())|)))
    {
      var pad := [0x80 as Byte] + Zeros(63);
      assert |done| + |part| == |Message()|;
      CounterOffset(count0, count1, |Message()|);
      var padding := (55 - count0 / 8) % 64 + 1;
      PadPrefix(pad, ZeroCount(|Message()|));
      Append(pad, padding);
    }

    /** Pads to 56 bytes modulo 64 and appends the length: the registers end up as those of the
        padded message, on a block boundary. */
    method Finish()
      requires Valid()
      modifies this, buf
      ensures abcd == Absorb(compress, initial, Padded(old(Message())))
    {
      ghost var m := Message();
      var length := LengthData();
      AppendPadding();
      Append(length, 8);
      assert length[..8] == length;
      Assemble(m, [0x80 as Byte] + Zeros(ZeroCount(|m|)), length);
      AbsorbTail(compress, initial, done, part);
    }

    method LengthData() returns (data: seq<Byte>)
      requires Valid()
      ensures data == LittleEndian(8 * |Message()|, 8)
    {
      ghost var bytes := LittleEndian(count0, 4) + LittleEndian(count1, 4);
      data := [];
      for i := 0 to 8
        invariant data == bytes[..i]
      {
        LengthAt(count0, count1, i);
        data := data + [Digit(if i / 4 == 0 then count0 else count1, i % 4)];
        assert bytes[..i + 1] == bytes[..i] + [bytes[i]];
      }
      assert bytes[..8] == bytes;
      LengthBytes(count0, count1, |Message()|);
    }
  }

  /** Initialise, append each chunk, finish: the registers are those of the whole message, padded. */
  method HashChunks<S>(compress: (S, seq<Byte>) -> S, initial: S, chunks: seq<seq<Byte>>) returns (abcd: S)
    requires forall i :: 0 <= i < |chunks| ==> |chunks[i]| <= INT_MAX - 63
    ensures abcd == Absorb(compress, initial, Padded(Concat(chunks)))
  {
    var state := new BlockStream(compress, initial);
    for i := 0 to |chunks|
      invariant state.Valid() && fresh(state) && fresh(state.buf)
      invariant state.compress == compress && state.initial == initial && state.Message() == Concat(chunks[..i])
    {
      state.Append(chunks[i], |chunks[i]|);
      assert chunks[i][..|chunks[i]|] == chunks[i];
      ConcatSnoc(chunks, i);
    }
    assert chunks[..|chunks|] == chunks;
    state.Finish();
    return state.abcd;
  }

  lemma LengthAt(c0: nat, c1: nat, i: nat)
    requires i < 8
    ensures (LittleEndian(c0, 4) + LittleEndian(c1, 4))[i]
         == Digit(if i / 4 == 0 then c0 else c1, i % 4)
  {
    LittleEndianAt(if i / 4 == 0 then c0 else c1, 4, i % 4);
  }

  /** The padding is 1 to 64 bytes before the length, and the padded message fills whole blocks. */
  lemma PaddedFillsBlocks(m: seq<Byte>)
    ensures |Padded(m)| % BLOCK == 0
    ensures 1 <= |Padded(m)| - 8 - |m| <= 64
  {
    FillsBlock(|m| + 1 + ZeroCount(|m|), 8);
  }

  lemma PadPrefix(pad: seq<Byte>, k: nat)
    requires pad == [0x80 as Byte] + Zeros(63) && k < BLOCK
    ensures pad[..k + 1] == [0x80 as Byte] + Zeros(k)
  {
  }

  lemma Assemble(m: seq<Byte>, pad: seq<Byte>, length: seq<Byte>)
    requires pad == [0x80 as Byte] + Zeros(ZeroCount(|m|)) && length == LittleEndian(8 * |m|, 8)
    ensures (m + pad) + length == Padded(m)
  {
  }
}
