/** The C# server's packet parser, which compacts its buffer after every packet. */
module PacketParsers {
  import opened Common
  import opened Bytes
  import opened Packets

  const MAX_BUFFER_SIZE: nat := 10240
  const HEAD_LENGTH: nat := 8
  const TAIL_LENGTH: nat := 12
  const TYPE_SIZE: nat := 4
  const CHECK_TAIL: nat := 0x1000_0000

  /** What is handed to the packet handler. */
  datatype Body = Body(packetType: nat, data: seq<Byte>)

  /** A packet that claims less than head, type and tail makes the body reader throw. */
  datatype Outcome = Accepted | Rejected | Threw

  datatype Parser = Parser(buffered: seq<Byte>, delivered: seq<Body>)

  /** `DataParsing` of the bytes just received: at most one packet is taken out of the buffer. */
  function Parse(p: Parser, chunk: seq<Byte>): (Parser, Outcome) {
    if MAX_BUFFER_SIZE < |p.buffered| + |chunk| then (p, Rejected)
    else
      var buf := p.buffered + chunk;
      var q := p.(buffered := buf);
      if |buf| < HEAD_LENGTH then (q, Accepted)
      else
        var length := IntFrom(buf[4..8]);
        if |buf| < length then (q, Accepted)
        else if length < HEAD_LENGTH + TYPE_SIZE + TAIL_LENGTH then (q, Threw)
        else (Parser(buf[length..], p.delivered + [BodyOf(buf[..length])]), Accepted)
  }

  function BodyOf(packet: seq<Byte>): Body
    requires |packet| >= HEAD_LENGTH + TYPE_SIZE + TAIL_LENGTH
  {
    Body(FromLittleEndian(packet[HEAD_LENGTH..HEAD_LENGTH + TYPE_SIZE]),
         packet[HEAD_LENGTH + TYPE_SIZE..|packet| - TAIL_LENGTH])
  }

  // ---------------------------------------------------------------- frames

  /** `PacketSerializer`: head, type, members, tail. */
  function Frame(b: Body): (r: seq<Byte>)
    ensures |r| == HEAD_LENGTH + TYPE_SIZE + |b.data| + TAIL_LENGTH
  {
    Head(HEAD_LENGTH + TYPE_SIZE + |b.data| + TAIL_LENGTH) + (LittleEndian(b.packetType, TYPE_SIZE) + (b.data + Tail()))
  }

  function Head(length: nat): (r: seq<Byte>)
    ensures |r| == HEAD_LENGTH
  {
    LittleEndian(0, 4) + IntBytes(length, 4)
  }

  function Tail(): (r: seq<Byte>)
    ensures |r| == TAIL_LENGTH
  {
    LittleEndian(CHECK_TAIL, 4) + LittleEndian(0, 4) + LittleEndian(0, 4)
  }

  /** What lies between two parts. */
  lemma Between(a: seq<Byte>, b: seq<Byte>, c: seq<Byte>)
    ensures (a + (b + c))[|a|..|a| + |b|] == b && (a + (b + c))[..|a|] == a
  {
  }

  predicate Sendable(b: Body) {
    b.packetType < Pow256(4) && InRange(HEAD_LENGTH + TYPE_SIZE + |b.data| + TAIL_LENGTH, 4)
  }

  /** The head of a frame holds its length, and the reader finds the body that was written. */
  lemma FrameReads(b: Body)
    requires Sendable(b)
    ensures IntFrom(Frame(b)[4..8]) == |Frame(b)| && BodyOf(Frame(b)) == b
  {
    var f, kind := Frame(b), LittleEndian(b.packetType, TYPE_SIZE);
    var head := Head(|f|);
    Between(head, kind, b.data + Tail());
    assert f[4..8] == head[4..8] == IntBytes(|f|, 4);
    IntRoundTrip(|f|, 4);
    LittleEndianRoundTrip(b.packetType, TYPE_SIZE);
    Assoc(head, kind, b.data + Tail());
    Between(head + kind, b.data, Tail());
  }

  /** What a call does with any bytes whatever: it refuses what does not fit; it waits for eight bytes and
      then for as many as the signed length in them says; a length below twenty-four makes the body
      reader throw; anything else is delivered, whatever its keys. */
  lemma ParseAnyBytes(p: Parser, chunk: seq<Byte>)
    ensures var buf := p.buffered + chunk;
            if 10240 < |buf| then Parse(p, chunk) == (p, Rejected)
            else if |buf| < 8 then Parse(p, chunk) == (Parser(buf, p.delivered), Accepted)
            else
              var n := NumberAt(buf, 4);
              if n < 0x8000_0000 && |buf| < n then Parse(p, chunk) == (Parser(buf, p.delivered), Accepted)
              else if n < 0x8000_0000 && 24 <= n then
                Parse(p, chunk) == (Parser(buf[n..], p.delivered + [Body(NumberAt(buf, 8), buf[12..n - 12])]), Accepted)
              else Parse(p, chunk) == (Parser(buf, p.delivered), Threw)
  {
    var buf := p.buffered + chunk;
    if 8 <= |buf| {
      SignedAt(buf, 4);
      var n := NumberAt(buf, 4);
      if 24 <= n <= |buf| {
        NumberFromLittleEndian(buf, 8);
        assert buf[..n][8..12] == buf[8..12] && buf[..n][12..n - 12] == buf[12..n - 12];
      }
    }
  }

  lemma SignedAt(s: seq<Byte>, i: nat)
    requires i + 4 <= |s|
    ensures var n := NumberAt(s, i); IntFrom(s[i..i + 4]) == if n < 0x8000_0000 then n else n - 0x1_0000_0000
  {
    NumberFromLittleEndian(s, i);
    assert Pow256(4) == 256 * Pow256(3);
  }

  /** The layout of a frame: four zeros, its length, the type, the members, 00 00 00 10 and eight zeros. */
  lemma FrameLayout(b: Body)
    requires Sendable(b)
    ensures var f := Frame(b); var n := |f|;
            && n == |b.data| + 24
            && f[..4] == [0, 0, 0, 0] && f[4..8] == FourBytes(n) && f[8..12] == FourBytes(b.packetType)
            && f[12..n - 12] == b.data && f[n - 12..] == [0, 0, 0, 0x10, 0, 0, 0, 0, 0, 0, 0, 0]
  {
    var f, kind := Frame(b), LittleEndian(b.packetType, TYPE_SIZE);
    FourBytesLittleEndian(0);
    FourBytesLittleEndian(|f|);
    FourBytesLittleEndian(b.packetType);
    FourBytesLittleEndian(CHECK_TAIL);
    FrameSlices(Head(|f|), kind, b.data, Tail());
  }

  lemma FrameSlices(head: seq<Byte>, kind: seq<Byte>, data: seq<Byte>, tail: seq<Byte>)
    requires |head| == HEAD_LENGTH && |kind| == TYPE_SIZE && |tail| == TAIL_LENGTH
    ensures var f := head + (kind + (data + tail)); var n := |f|;
            && f[..4] == head[..4] && f[4..8] == head[4..8] && f[8..12] == kind
            && f[12..n - 12] == data && f[n - 12..] == tail
  {
  }

  /** One call on a buffer that begins with a frame, or holds the beginning of one: the packet is
      delivered exactly when it is complete, and the rest moves to the front. */
  lemma ParseFrame(p: Parser, chunk: seq<Byte>, b: Body)
    requires Sendable(b) && |p.buffered| + |chunk| <= MAX_BUFFER_SIZE
    requires Frame(b) <= p.buffered + chunk || p.buffered + chunk <= Frame(b)
    ensures var f, buf := Frame(b), p.buffered + chunk;
            Parse(p, chunk) ==
              if |f| <= |buf| then (Parser(buf[|f|..], p.delivered + [b]), Accepted)
              else (p.(buffered := buf), Accepted)
  {
    var f, buf := Frame(b), p.buffered + chunk;
    FrameReads(b);
    if |buf| >= HEAD_LENGTH {
      assert buf[4..8] == f[4..8];
      if |f| <= |buf| {
        assert buf[..|f|] == f;
      }
    }
  }

  // ---------------------------------------------------------------- whole streams

  function Frames(bodies: seq<Body>): (r: seq<seq<Byte>>)
    ensures |r| == |bodies| && forall i :: 0 <= i < |r| ==> r[i] == Frame(bodies[i])
  {
    seq(|bodies|, i requires 0 <= i < |bodies| => Frame(bodies[i]))
  }

  function ParseAll(chunks: seq<seq<Byte>>): (Parser, bool) {
    if chunks == [] then (Parser([], []), true)
    else
      var (p, ok) := ParseAll(chunks[..|chunks| - 1]);
      var (q, r) := Parse(p, chunks[|chunks| - 1]);
      (q, ok && r.Accepted?)
  }

  /** How many packets are out after `chunks`: each call adds one if the next frame is complete. */
  function Count(chunks: seq<seq<Byte>>, frames: seq<seq<Byte>>): (n: nat)
    ensures n <= |frames| && n <= |chunks|
    decreases |chunks|
  {
    if chunks == [] then 0
    else
      var k := Count(chunks[..|chunks| - 1], frames);
      if k < |frames| && |Concat(frames[..k + 1])| <= |Concat(chunks)| then k + 1 else k
  }

  /** Every call found room for its bytes beside the frames not yet taken out. */
  predicate Roomy(chunks: seq<seq<Byte>>, frames: seq<seq<Byte>>)
    decreases |chunks|
  {
    chunks == [] ||
    (var front := chunks[..|chunks| - 1];
     && Roomy(front, frames)
     && |Concat(chunks)| <= MAX_BUFFER_SIZE + |Concat(frames[..Count(front, frames)])|)
  }

  /** The first `k` packets are out and the buffer holds what follows them of the bytes received. */
  ghost predicate Tracks(p: Parser, k: nat, got: seq<Byte>, frames: seq<seq<Byte>>, bodies: seq<Body>) {
    k <= |bodies| == |frames| && p.delivered == bodies[..k] && got == Concat(frames[..k]) + p.buffered
  }

  /** One accepted call, after the first `k` packets are out and with `f` the next frame. */
  lemma ParseNext(p: Parser, chunk: seq<Byte>, base: seq<Byte>, b: Body, f: seq<Byte>)
    requires Sendable(b) && f == Frame(b) && (f <= p.buffered + chunk || p.buffered + chunk <= f)
    requires Parse(p, chunk).1.Accepted?
    ensures var q, buf := Parse(p, chunk).0, p.buffered + chunk;
            if |base + f| <= |base + buf|
            then q.delivered == p.delivered + [b] && base + buf == (base + f) + q.buffered
            else q.delivered == p.delivered && q.buffered == buf
  {
    var buf := p.buffered + chunk;
    ParseFrame(p, chunk, b);
    if |f| <= |buf| {
      TakeFrame(base, f, buf);
    }
  }

  lemma Advance(p: Parser, q: Parser, chunk: seq<Byte>, before: seq<Byte>, frames: seq<seq<Byte>>, bodies: seq<Body>, k: nat)
    requires Tracks(p, k, before, frames, bodies) && k < |frames|
    requires var base, buf := Concat(frames[..k]), p.buffered + chunk;
             if |base + frames[k]| <= |base + buf|
             then q.delivered == p.delivered + [bodies[k]] && base + buf == (base + frames[k]) + q.buffered
             else q.delivered == p.delivered && q.buffered == buf
    ensures var got := before + chunk;
            Tracks(q, if |Concat(frames[..k + 1])| <= |got| then k + 1 else k, got, frames, bodies)
  {
    assert before + chunk == Concat(frames[..k]) + (p.buffered + chunk);
    ConcatSnoc(frames, k);
    assert bodies[..k + 1] == bodies[..k] + [bodies[k]];
  }

  lemma ParseOne(p: Parser, chunk: seq<Byte>, before: seq<Byte>, frames: seq<seq<Byte>>, bodies: seq<Body>, k: nat)
    requires Tracks(p, k, before, frames, bodies) && before + chunk <= Concat(frames)
    requires k < |frames| ==> frames[k] == Frame(bodies[k]) && Sendable(bodies[k])
    ensures var got := before + chunk;
            && (Parse(p, chunk).1.Accepted? <==> |got| <= MAX_BUFFER_SIZE + |Concat(frames[..k])|)
            && (Parse(p, chunk).1.Accepted? ==>
                  Tracks(Parse(p, chunk).0, if k < |frames| && |Concat(frames[..k + 1])| <= |got| then k + 1 else k,
                         got, frames, bodies))
  {
    var buf := p.buffered + chunk;
    Assoc(Concat(frames[..k]), p.buffered, chunk);
    if MAX_BUFFER_SIZE < |buf| {
      assert Parse(p, chunk) == (p, Rejected);
    } else if k < |frames| {
      NextPart(before + chunk, frames, k, buf);
      ParseFrame(p, chunk, bodies[k]);
      ParseNext(p, chunk, Concat(frames[..k]), bodies[k], frames[k]);
      Advance(p, Parse(p, chunk).0, chunk, before, frames, bodies, k);
    } else {
      assert frames[..k] == frames && buf == [];
      ParseNothing(p, chunk);
    }
  }

  lemma ParseNothing(p: Parser, chunk: seq<Byte>)
    requires p.buffered + chunk == []
    ensures Parse(p, chunk) == (p, Accepted)
  {
    assert p.buffered == [] && chunk == [];
  }

  lemma TakeFrame(base: seq<Byte>, f: seq<Byte>, buf: seq<Byte>)
    requires f <= buf
    ensures base + buf == (base + f) + buf[|f|..]
  {
    assert buf == f + buf[|f|..];
  }

  /** All calls were accepted exactly if there was room, and then the parser is where it should be. */
  ghost predicate Follows(p: Parser, accepted: bool, chunks: seq<seq<Byte>>, frames: seq<seq<Byte>>, bodies: seq<Body>) {
    && (accepted <==> Roomy(chunks, frames))
    && (accepted ==> Tracks(p, Count(chunks, frames), Concat(chunks), frames, bodies))
  }

  lemma FollowsNext(p: Parser, accepted: bool, q: Parser, r: Outcome, chunks: seq<seq<Byte>>,
                    frames: seq<seq<Byte>>, bodies: seq<Body>)
    requires chunks != [] && Follows(p, accepted, chunks[..|chunks| - 1], frames, bodies)
    requires var k := Count(chunks[..|chunks| - 1], frames);
             accepted ==>
               && (r.Accepted? <==> |Concat(chunks)| <= MAX_BUFFER_SIZE + |Concat(frames[..k])|)
               && (r.Accepted? ==>
                     Tracks(q, if k < |frames| && |Concat(frames[..k + 1])| <= |Concat(chunks)| then k + 1 else k,
                            Concat(chunks), frames, bodies))
    ensures Follows(q, accepted && r.Accepted?, chunks, frames, bodies)
  {
  }

  /** The exact behaviour on a stream of frames, cut anyhow. All calls are accepted if and only if each
      found room for its bytes beside the frames not yet taken out, which is a matter of lengths
      only. Then the packets delivered are the first ones sent, whole and in order, and with the bytes
      buffered they make up all bytes received; the count of them is exact: one per call in which
      the next frame is complete. */
  lemma {:induction false} ParsesStream(chunks: seq<seq<Byte>>, bodies: seq<Body>)
    requires Concat(chunks) <= Concat(Frames(bodies)) && forall b :: b in bodies ==> Sendable(b)
    ensures var (p, accepted) := ParseAll(chunks); Follows(p, accepted, chunks, Frames(bodies), bodies)
    decreases |chunks|
  {
    var frames := Frames(bodies);
    if chunks != [] {
      var front, chunk := chunks[..|chunks| - 1], chunks[|chunks| - 1];
      assert Concat(front) <= Concat(chunks);
      ParsesStream(front, bodies);
      var (p, accepted) := ParseAll(front);
      var k := Count(front, frames);
      assert k < |frames| ==> bodies[k] in bodies;
      if accepted { ParseOne(p, chunk, Concat(front), frames, bodies, k); }
      FollowsNext(p, accepted, Parse(p, chunk).0, Parse(p, chunk).1, chunks, frames, bodies);
    } else {
      assert bodies[..0] == [] && frames[..0] == [];
    }
  }

  lemma {:induction false} EqualLengths(frames: seq<seq<Byte>>, size: nat, k: nat)
    requires k <= |frames| && forall i :: 0 <= i < |frames| ==> |frames[i]| == size
    ensures |Concat(frames[..k])| == k * size
  {
    if k > 0 {
      EqualLengths(frames, size, k - 1);
      ConcatSnoc(frames, k - 1);
    }
  }

  lemma TwicePerCall(n: nat, k: nat, size: nat)
    requires k < n && MAX_BUFFER_SIZE < n * size + size
    ensures MAX_BUFFER_SIZE + k * size < 2 * (n * size)
  {
    MoreTimes(size, k, n);
    assert size * k == k * size && size * n == n * size;
  }

  lemma NoRoom(chunks: seq<seq<Byte>>, frames: seq<seq<Byte>>, size: nat)
    requires forall i :: 0 <= i < |frames| ==> |frames[i]| == size
    requires chunks != [] && |Concat(chunks)| == 2 * (|chunks| * size) && MAX_BUFFER_SIZE < |chunks| * size + size
    ensures !Roomy(chunks, frames)
  {
    var k := Count(chunks[..|chunks| - 1], frames);
    EqualLengths(frames, size, k);
    TwicePerCall(|chunks|, k, size);
  }

  /** One packet per call is not enough for a busy peer: when calls bring two frames each on average, the
      backlog grows until one is rejected, whatever the sizes of the chunks. */
  lemma BacklogRejects(chunks: seq<seq<Byte>>, bodies: seq<Body>, size: nat)
    requires Concat(chunks) <= Concat(Frames(bodies)) && forall b :: b in bodies ==> Sendable(b)
    requires forall b :: b in bodies ==> |Frame(b)| == size
    requires chunks != [] && |Concat(chunks)| == 2 * (|chunks| * size) && MAX_BUFFER_SIZE < |chunks| * size + size
    ensures !ParseAll(chunks).1
  {
    NoRoom(chunks, Frames(bodies), size);
    ParsesStream(chunks, bodies);
  }

  // ---------------------------------------------------------------- the parser

  class PacketParser {
    const recvBuffer: array<Byte>
    var recvLength: nat
    var currPos: nat
    var readPos: nat
    var enqueued: seq<Body>

    ghost predicate Valid()
      reads this
    {
      recvBuffer.Length == MAX_BUFFER_SIZE && currPos == recvLength <= MAX_BUFFER_SIZE && readPos == 0
    }

    ghost function State(): Parser
      requires Valid()
      reads this, recvBuffer
    {
      Parser(recvBuffer[..recvLength], enqueued)
    }

    constructor ()
      ensures Valid() && fresh(recvBuffer) && State() == Parser([], [])
    {
      recvBuffer := new Byte[MAX_BUFFER_SIZE](_ => 0);
      recvLength, currPos, readPos, enqueued := 0, 0, 0, [];
    }

    /** Shifts everything behind the read position to the front, in place. */
    method BufferTrim()
      requires recvBuffer.Length == MAX_BUFFER_SIZE && readPos <= recvLength == currPos <= MAX_BUFFER_SIZE
      modifies this`recvLength, this`currPos, this`readPos, recvBuffer
      ensures Valid() && recvLength == old(recvLength - readPos)
      ensures recvBuffer[..recvLength] == old(recvBuffer[readPos..recvLength])
    {
      forall i | 0 <= i < recvBuffer.Length - readPos {
        recvBuffer[i] := recvBuffer[readPos + i];
      }
      recvLength := recvLength - readPos;
      currPos := currPos - readPos;
      readPos := 0;
    }

    method Append(chunk: seq<Byte>)
      requires Valid() && currPos + |chunk| <= MAX_BUFFER_SIZE
      modifies this`recvLength, this`currPos, recvBuffer
      ensures Valid() && State() == old(State()).(buffered := old(State()).buffered + chunk)
    {
      forall i | 0 <= i < |chunk| {
        recvBuffer[currPos + i] := chunk[i];
      }
      currPos := currPos + |chunk|;
      recvLength := recvLength + |chunk|;
    }

    method DataParsing(chunk: seq<Byte>) returns (r: Outcome)
      requires Valid()
      modifies this, recvBuffer
      ensures Valid() && (State(), r) == Parse(old(State()), chunk)
    {
      if MAX_BUFFER_SIZE < currPos + |chunk| {
        return Rejected;
      }
      Append(chunk);
      ghost var buf := recvBuffer[..recvLength];
      if recvLength < HEAD_LENGTH {
        return Accepted;
      }
      var length := IntFrom(recvBuffer[4..8]);
      assert recvBuffer[4..8] == buf[4..8];
      if recvLength < length {
        return Accepted;
      }
      if length < HEAD_LENGTH + TYPE_SIZE + TAIL_LENGTH {
        return Threw;
      }
      var body := BodyOf(recvBuffer[..length]);
      assert recvBuffer[..length] == buf[..length] && recvBuffer[length..recvLength] == buf[length..];
      readPos := length;
      BufferTrim();
      enqueued := enqueued + [body];
      return Accepted;
    }
  }
}
