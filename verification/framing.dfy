/** Head/tail framing, and the receive path that cuts packets out of the byte stream. */
module Framing {
  import opened Common
  import opened Bytes
  import opened CircleBuffers

  const PACKET_CHECK_HEAD_KEY: nat := 0x0000_0000
  const PACKET_CHECK_TAIL_KEY: nat := 0x1000_0000
  const HEAD_SIZE: nat := 8
  const TAIL_SIZE: nat := 12
  const UINT32_LIMIT: nat := 0x1_0000_0000

  // ---------------------------------------------------------------- frames

  function Head(length: nat): (r: seq<Byte>)
    ensures |r| == HEAD_SIZE
  {
    LittleEndian(PACKET_CHECK_HEAD_KEY, 4) + LittleEndian(length, 4)
  }

  function Tail(number: nat, time: nat): (r: seq<Byte>)
    ensures |r| == TAIL_SIZE
  {
    LittleEndian(PACKET_CHECK_TAIL_KEY, 4) + LittleEndian(number, 4) + LittleEndian(time, 4)
  }

  function Frame(body: seq<Byte>, number: nat, time: nat): (r: seq<Byte>)
    ensures |r| == HEAD_SIZE + |body| + TAIL_SIZE
  {
    Head(HEAD_SIZE + |body| + TAIL_SIZE) + body + Tail(number, time)
  }

  /** `Overruns`: the frame reaches past the end of the caller's buffer. */
  datatype MakeResult = Made(size: nat) | TooSmall | Overruns

  /** The frame length as the head's 32-bit field holds it. */
  function LengthField(bodySize: nat): nat { (HEAD_SIZE + bodySize + TAIL_SIZE) % UINT32_LIMIT }

  lemma ShortLength(bodySize: nat)
    requires HEAD_SIZE + bodySize + TAIL_SIZE < UINT32_LIMIT
    ensures LengthField(bodySize) == HEAD_SIZE + bodySize + TAIL_SIZE
  {
  }

  /** Fills the caller's buffer with head, body and tail, or reports that it is too small. Only the
      wrapped length is compared with the capacity, so a body within 20 bytes of 2^32 passes the
      test and is copied past the end of any smaller buffer. */
  method MakeNetworkPacket(body: seq<Byte>, out: array<Byte>, capacity: nat, number: nat, time: nat)
    returns (r: MakeResult)
    requires capacity <= out.Length && |body| < UINT32_LIMIT
    modifies out
    ensures r.TooSmall? <==> capacity < LengthField(|body|)
    ensures r.Overruns? <==> LengthField(|body|) <= capacity && out.Length < |Frame(body, number, time)|
    ensures r.Overruns? ==> UINT32_LIMIT <= HEAD_SIZE + |body| + TAIL_SIZE
    ensures r.Made? ==>
              var f := Frame(body, number, time);
              r.size == LengthField(|body|) && out[..|f|] == f && out[|f|..] == old(out[..])[|f|..]
    ensures !r.Made? ==> out[..] == old(out[..])
  {
    var length := (HEAD_SIZE + |body| + TAIL_SIZE) % UINT32_LIMIT;
    if length > capacity {
      return TooSmall;
    }
    if out.Length < HEAD_SIZE + |body| + TAIL_SIZE {
      return Overruns;
    }
    FillFrame(out, Head(HEAD_SIZE + |body| + TAIL_SIZE), body, Tail(number, time));
    return Made(length);
  }

  /** The three copies at a moving position. */
  method FillFrame(out: array<Byte>, head: seq<Byte>, body: seq<Byte>, tail: seq<Byte>)
    requires |head| + |body| + |tail| <= out.Length
    modifies out
    ensures var n := |head| + |body| + |tail|;
            out[..n] == head + body + tail && out[n..] == old(out[..])[n..]
  {
    ghost var before := out[..];
    var pos := 0;
    CopyTo(out, pos, head);
    pos := pos + |head|;
    assert out[..pos] == head && out[pos..] == before[pos..];
    CopyTo(out, pos, body);
    pos := pos + |body|;
    assert out[..pos] == head + body && out[pos..] == before[pos..];
    CopyTo(out, pos, tail);
  }

  method CopyTo(out: array<Byte>, pos: nat, src: seq<Byte>)
    requires pos + |src| <= out.Length
    modifies out
    ensures out[..pos + |src|] == old(out[..pos]) + src
    ensures out[pos + |src|..] == old(out[..])[pos + |src|..]
  {
    forall i | 0 <= i < |src| {
      out[pos + i] := src[i];
    }
  }

  // ---------------------------------------------------------------- parsing

  datatype ParseResult = Pending | Invalid | Found(length: nat)

  /** What the parser makes of the buffered bytes. */
  function Parse(contents: seq<Byte>): ParseResult {
    if |contents| < HEAD_SIZE then Pending
    else if FromLittleEndian(contents[..4]) != PACKET_CHECK_HEAD_KEY then Invalid
    else
      var length := FromLittleEndian(contents[4..8]);
      if length > |contents| then Pending else Found(length)
  }

  method ParseNetworkData(b: CircleBuffer) returns (r: ParseResult)
    requires b.Valid()
    ensures r == Parse(b.Contents())
  {
    if HEAD_SIZE > b.dataSize {
      return Pending;
    }
    var _, head := b.Read(HEAD_SIZE);
    assert head[..4] == b.Contents()[..4] && head[4..8] == b.Contents()[4..8];
    if FromLittleEndian(head[..4]) != PACKET_CHECK_HEAD_KEY {
      return Invalid;
    }
    var length := FromLittleEndian(head[4..8]);
    if length > b.dataSize {
      return Pending;
    }
    return Found(length);
  }

  /** What the parser makes of any bytes whatever: it waits for eight of them, refuses any but four zeros at
      the front, and then goes by the 32-bit length behind these. */
  lemma ParseAnyBytes(contents: seq<Byte>)
    ensures |contents| < 8 ==> Parse(contents) == Pending
    ensures |contents| >= 8 && contents[..4] != [0, 0, 0, 0] ==> Parse(contents) == Invalid
    ensures |contents| >= 8 && contents[..4] == [0, 0, 0, 0] ==>
              var n := NumberAt(contents, 4);
              Parse(contents) == if n <= |contents| then Found(n) else Pending
  {
    if |contents| >= 8 {
      NumberFromLittleEndian(contents, 0);
      NumberFromLittleEndian(contents, 4);
      assert contents[0..4] == contents[..4];
    }
  }

  /** The layout of a frame: four zeros, its length, the body, 00 00 00 10, number and time. */
  lemma FrameLayout(body: seq<Byte>, number: nat, time: nat)
    ensures var f := Frame(body, number, time); var n := |f|;
            && n == |body| + 20
            && f[..4] == [0, 0, 0, 0] && f[4..8] == FourBytes(n) && f[8..n - 12] == body
            && f[n - 12..n - 8] == [0, 0, 0, 0x10] && f[n - 8..n - 4] == FourBytes(number)
            && f[n - 4..] == FourBytes(time)
  {
    var f := Frame(body, number, time);
    FourBytesLittleEndian(PACKET_CHECK_HEAD_KEY);
    FourBytesLittleEndian(|f|);
    FourBytesLittleEndian(PACKET_CHECK_TAIL_KEY);
    FourBytesLittleEndian(number);
    FourBytesLittleEndian(time);
    FrameSlices(Head(|f|), body, Tail(number, time));
  }

  lemma FrameSlices(head: seq<Byte>, body: seq<Byte>, tail: seq<Byte>)
    requires |head| == HEAD_SIZE && |tail| == TAIL_SIZE
    ensures var f := head + body + tail; var n := |f|;
            && f[..4] == head[..4] && f[4..8] == head[4..8] && f[8..n - 12] == body
            && f[n - 12..n - 8] == tail[..4] && f[n - 8..n - 4] == tail[4..8] && f[n - 4..] == tail[8..]
  {
  }

  /** A frame as any sender builds it: head key, own length, anything else. */
  ghost predicate IsFrame(f: seq<Byte>) {
    && HEAD_SIZE + TAIL_SIZE <= |f| < UINT32_LIMIT
    && f[..HEAD_SIZE] == Head(|f|)
  }

  lemma HeadReads(length: nat)
    requires length < UINT32_LIMIT
    ensures FromLittleEndian(Head(length)[..4]) == PACKET_CHECK_HEAD_KEY
    ensures FromLittleEndian(Head(length)[4..8]) == length
  {
    assert Pow256(4) == UINT32_LIMIT by { assert Pow256(2) == 0x1_0000; assert Pow256(4) == 256 * (256 * Pow256(2)); }
    assert Head(length)[..4] == LittleEndian(PACKET_CHECK_HEAD_KEY, 4);
    assert Head(length)[4..8] == LittleEndian(length, 4);
    LittleEndianRoundTrip(PACKET_CHECK_HEAD_KEY, 4);
    LittleEndianRoundTrip(length, 4);
  }

  lemma MadeFramesAreFrames(body: seq<Byte>, number: nat, time: nat)
    requires HEAD_SIZE + |body| + TAIL_SIZE < UINT32_LIMIT
    ensures IsFrame(Frame(body, number, time))
  {
    assert Frame(body, number, time)[..HEAD_SIZE] == Head(HEAD_SIZE + |body| + TAIL_SIZE);
  }

  /** With a frame at the front the parser finds exactly it once it is complete, and waits until then. */
  lemma ParseFrame(f: seq<Byte>, contents: seq<Byte>)
    requires IsFrame(f) && (f <= contents || contents <= f)
    ensures Parse(contents) == if |f| <= |contents| then Found(|f|) else Pending
  {
    if |contents| >= HEAD_SIZE {
      HeadReads(|f|);
      assert contents[..HEAD_SIZE] == f[..HEAD_SIZE];
      assert contents[..4] == contents[..HEAD_SIZE][..4];
      assert contents[4..8] == contents[..HEAD_SIZE][4..8];
    }
  }

  // ---------------------------------------------------------------- receiving

  /** A connection's receive side: still open, bytes buffered, packets handed on. */
  datatype Receiver = Receiver(open: bool, ring: seq<Byte>, pushed: seq<seq<Byte>>)

  /** One receive completion: `RecvComplete`, and the disconnect when it reports a failure. At most one
      packet is handed on, and having none to hand on is a failure. */
  function Receive(c: Receiver, size: nat, chunk: seq<Byte>): Receiver {
    if !c.open then c
    else if size < |c.ring| + |chunk| then c.(open := false)
    else
      var ring := c.ring + chunk;
      match Parse(ring)
      case Found(length) =>
        if 0 < length then c.(ring := ring[length..], pushed := c.pushed + [ring[..length]])
        else c.(open := false, ring := ring)
      case _ => c.(open := false, ring := ring)
  }

  /** The worker thread on a receive completion: one of no bytes closes the socket without looking at
      what is still buffered. */
  function Completion(c: Receiver, size: nat, chunk: seq<Byte>): Receiver {
    if chunk == [] then c.(open := false) else Receive(c, size, chunk)
  }

  class Connection {
    const ring: CircleBuffer
    var open: bool
    var pushed: seq<seq<Byte>>

    ghost predicate Valid()
      reads this, ring
    {
      ring.Valid()
    }

    ghost function State(): Receiver
      requires Valid()
      reads this, ring, ring.buffer
    {
      Receiver(open, ring.Contents(), pushed)
    }

    constructor (size: nat)
      ensures Valid() && fresh(ring) && fresh(ring.buffer) && ring.size == size
      ensures State() == Receiver(true, [], [])
    {
      ring := new CircleBuffer(size);
      open, pushed := true, [];
    }

    /** The application's parser: the packet length, 0 while pending, -1 if invalid. */
    method DataParser() returns (length: int)
      requires Valid()
      ensures length == match Parse(ring.Contents()) case Pending => 0 case Invalid => -1 case Found(n) => n
    {
      var r := ParseNetworkData(ring);
      match r
      case Pending => length := 0;
      case Invalid => length := -1;
      case Found(n) => length := n;
    }

    method RecvComplete(chunk: seq<Byte>) returns (r: int)
      requires Valid() && open
      modifies this`pushed, ring, ring.buffer
      ensures Valid()
      ensures var c := Receive(old(State()), ring.size, chunk);
              (r >= 0 <==> c.open) && State() == c.(open := true)
    {
      if ring.size - ring.dataSize < |chunk| {
        return -1;
      }
      var _ := ring.Write(chunk);
      var length := DataParser();
      if 0 < length {
        var _, packet := ring.Read(length);
        var _ := ring.Erase(length);
        pushed := pushed + [packet];
      } else {
        return -1;
      }
      return ring.dataSize;
    }

    method DoRecv(chunk: seq<Byte>)
      requires Valid() && open
      modifies this, ring, ring.buffer
      ensures Valid() && State() == Receive(old(State()), ring.size, chunk)
    {
      var r := RecvComplete(chunk);
      if 0 > r {
        open := false;
      }
    }

    /** The worker thread's handling of a receive completion. */
    method OnRecvCompletion(chunk: seq<Byte>)
      requires Valid() && open
      modifies this, ring, ring.buffer
      ensures Valid() && State() == Completion(old(State()), ring.size, chunk)
    {
      if |chunk| == 0 {
        open := false;
      } else {
        DoRecv(chunk);
      }
    }
  }

  // ---------------------------------------------------------------- whole streams

  function ReceiveAll(size: nat, chunks: seq<seq<Byte>>): Receiver {
    if chunks == [] then Receiver(true, [], [])
    else Completion(ReceiveAll(size, chunks[..|chunks| - 1]), size, chunks[|chunks| - 1])
  }

  /** One completion on any bytes whatever: exactly what is handed on, and exactly when it closes. */
  lemma CompletionOnAnyBytes(c: Receiver, size: nat, chunk: seq<Byte>)
    requires c.open
    ensures var ring, c' := c.ring + chunk, Completion(c, size, chunk);
            if chunk != [] && 8 <= |ring| <= size && ring[..4] == [0, 0, 0, 0] && 0 < NumberAt(ring, 4) <= |ring|
            then var n := NumberAt(ring, 4);
                 c' == Receiver(true, ring[n..], c.pushed + [ring[..n]])
            else !c'.open && c'.pushed == c.pushed
  {
    ParseAnyBytes(c.ring + chunk);
  }

  /** Bytes that are not the beginning of a frame, or too few to tell. */
  predicate Foreign(junk: seq<Byte>) {
    |junk| >= 8 ==> junk[..4] != [0, 0, 0, 0]
  }

  /** The bytes arriving are the frames sent, in order, and then perhaps foreign ones, cut up anyhow and
      possibly not all there yet. */
  ghost predicate Carries(chunks: seq<seq<Byte>>, frames: seq<seq<Byte>>, junk: seq<Byte>) {
    && (forall i :: 0 <= i < |frames| ==> IsFrame(frames[i])) && Foreign(junk)
    && Concat(chunks) <= Concat(frames) + junk
  }

  /** The last of `n` completions brings some bytes, finds at least `n` whole frames among the bytes received by then,
      and the bytes not yet handed on fit the ring. */
  predicate Timely(size: nat, chunks: seq<seq<Byte>>, frames: seq<seq<Byte>>)
    requires chunks != []
  {
    var n := |chunks|;
    && chunks[n - 1] != [] && n <= |frames|
    && |Concat(frames[..n])| <= |Concat(chunks)| <= size + |Concat(frames[..n - 1])|
  }

  /** Every completion is timely. */
  predicate AllTimely(size: nat, chunks: seq<seq<Byte>>, frames: seq<seq<Byte>>)
    decreases |chunks|
  {
    chunks == [] || (AllTimely(size, chunks[..|chunks| - 1], frames) && Timely(size, chunks, frames))
  }

  /** How many completions there were before the first that was not timely. */
  function TimelyCount(size: nat, chunks: seq<seq<Byte>>, frames: seq<seq<Byte>>): (n: nat)
    ensures n <= |chunks| && (n == |chunks| <==> AllTimely(size, chunks, frames))
    decreases |chunks|
  {
    if AllTimely(size, chunks, frames) then |chunks| else TimelyCount(size, chunks[..|chunks| - 1], frames)
  }

  /** One completion on a ring that begins with frame `f`, or holds the beginning of it. */
  lemma ReceiveFrame(c: Receiver, size: nat, chunk: seq<Byte>, f: seq<Byte>)
    requires c.open && IsFrame(f) && (f <= c.ring + chunk || c.ring + chunk <= f)
    ensures var ring, c' := c.ring + chunk, Receive(c, size, chunk);
            && (c'.open <==> |f| <= |ring| <= size)
            && (if c'.open then c'.pushed == c.pushed + [f] && ring == f + c'.ring else c'.pushed == c.pushed)
  {
    var ring := c.ring + chunk;
    ParseFrame(f, ring);
    if |f| <= |ring| {
      assert ring == f + ring[|f|..];
    }
  }

  lemma Advance(c: Receiver, c': Receiver, size: nat, chunk: seq<Byte>, frames: seq<seq<Byte>>, n: nat)
    requires n < |frames| && c.pushed == frames[..n]
    requires var ring, f := c.ring + chunk, frames[n];
             && (c'.open <==> |f| <= |ring| <= size)
             && (if c'.open then c'.pushed == c.pushed + [f] && ring == f + c'.ring else c'.pushed == c.pushed)
    ensures var base, got := Concat(frames[..n]), Concat(frames[..n]) + (c.ring + chunk);
            && (c'.open <==> |Concat(frames[..n + 1])| <= |got| <= size + |base|)
            && (if c'.open then c'.pushed == frames[..n + 1] && got == Concat(frames[..n + 1]) + c'.ring
                else c'.pushed == frames[..n])
  {
    ConcatSnoc(frames, n);
    assert frames[..n + 1] == frames[..n] + [frames[n]];
    var base := Concat(frames[..n]);
    assert base + (frames[n] + c'.ring) == (base + frames[n]) + c'.ring;
  }

  /** Completion `n + 1`, after the first `n` have handed on the first `n` frames. */
  lemma ReceiveOne(c: Receiver, size: nat, chunk: seq<Byte>, got: seq<Byte>, frames: seq<seq<Byte>>, junk: seq<Byte>, n: nat)
    requires c.open && n <= |frames| && c.pushed == frames[..n] && chunk != [] && Foreign(junk)
    requires got == Concat(frames[..n]) + (c.ring + chunk) && got <= Concat(frames) + junk
    requires n < |frames| ==> IsFrame(frames[n])
    ensures var c' := Receive(c, size, chunk);
            && (c'.open <==> n < |frames| && |Concat(frames[..n + 1])| <= |got| <= size + |Concat(frames[..n])|)
            && (if c'.open then c'.pushed == frames[..n + 1] && got == Concat(frames[..n + 1]) + c'.ring
                else c'.pushed == frames[..n])
  {
    assert frames[..|frames|] == frames;
    if n < |frames| {
      NextFrame(got, frames, junk, n, c.ring + chunk);
      ReceiveFrame(c, size, chunk, frames[n]);
      Advance(c, Receive(c, size, chunk), size, chunk, frames, n);
    } else {
      BehindSame(Concat(frames), c.ring + chunk, junk);
      ForeignStays(c.ring + chunk, junk);
      CompletionOnAnyBytes(c, size, chunk);
    }
  }

  lemma BehindSame(base: seq<Byte>, rest: seq<Byte>, more: seq<Byte>)
    requires base + rest <= base + more
    ensures rest <= more
  {
    assert (base + rest)[|base|..] == rest && (base + more)[|base|..] == more;
  }

  lemma ForeignStays(front: seq<Byte>, junk: seq<Byte>)
    requires front <= junk && Foreign(junk)
    ensures Foreign(front)
  {
    if |front| >= 8 { assert front[..4] == junk[..4]; }
  }

  /** Behind the first `n` frames comes the beginning of the next one, or all of it. */
  lemma NextFrame(got: seq<Byte>, frames: seq<seq<Byte>>, junk: seq<Byte>, n: nat, rest: seq<Byte>)
    requires n < |frames| && got <= Concat(frames) + junk && got == Concat(frames[..n]) + rest
    ensures frames[n] <= rest || rest <= frames[n]
  {
    var all := frames + [junk];
    assert all[..|frames|] == frames && all[..n] == frames[..n] && all[n] == frames[n];
    NextPart(got, all, n, rest);
  }

  /** What the receive side looks like after `chunks` of a stream of `frames`. */
  ghost predicate Tracks(c: Receiver, size: nat, chunks: seq<seq<Byte>>, frames: seq<seq<Byte>>) {
    && (c.open <==> AllTimely(size, chunks, frames))
    && |c.pushed| == TimelyCount(size, chunks, frames) && c.pushed <= frames
    && (c.open ==> Concat(chunks) == Concat(c.pushed) + c.ring)
  }

  lemma TracksNext(c: Receiver, size: nat, chunks: seq<seq<Byte>>, frames: seq<seq<Byte>>, junk: seq<Byte>)
    requires Carries(chunks, frames, junk) && chunks != []
    requires Tracks(c, size, chunks[..|chunks| - 1], frames)
    ensures Tracks(Completion(c, size, chunks[|chunks| - 1]), size, chunks, frames)
  {
    var n := |chunks| - 1;
    if c.open && chunks[n] != [] {
      assert c.pushed == frames[..n];
      Assoc(Concat(frames[..n]), c.ring, chunks[n]);
      ReceiveOne(c, size, chunks[n], Concat(chunks), frames, junk, n);
    }
  }

  /** The exact behaviour of the receive path on a stream of frames, whatever foreign bytes follow. The connection survives `n`
      completions if and only if each of them was timely. Whether or not it does, exactly the first
      frames have been handed on, in order and whole, one for each completion up to the first that
      was not timely; and while it is open the ring holds the rest of the bytes received. Nothing of
      what is foreign is ever handed on, and the completion that has nothing else to look at closes. */
  lemma {:induction false} ReceiveStream(size: nat, chunks: seq<seq<Byte>>, frames: seq<seq<Byte>>, junk: seq<Byte>)
    requires Carries(chunks, frames, junk)
    ensures Tracks(ReceiveAll(size, chunks), size, chunks, frames)
    decreases |chunks|
  {
    if chunks == [] {
      assert frames[..0] == [];
    } else {
      var front := chunks[..|chunks| - 1];
      assert Concat(front) <= Concat(chunks);
      ReceiveStream(size, front, frames, junk);
      TracksNext(ReceiveAll(size, front), size, chunks, frames, junk);
    }
  }

  lemma ReceiveFirst(size: nat, a: seq<Byte>, b: seq<Byte>)
    ensures ReceiveAll(size, [a, b]) == Completion(Completion(Receiver(true, [], []), size, a), size, b)
  {
    assert [a, b][..1] == [a] && [a][..0] == [];
    assert ReceiveAll(size, [a]) == Completion(ReceiveAll(size, []), size, a);
  }

  /** Delivery is not guaranteed: a frame that arrives in two pieces is lost with its connection, wherever
      it is cut, because the first completion hands nothing on. */
  lemma SplitFrameDrops(size: nat, f: seq<Byte>, k: nat)
    requires IsFrame(f) && k < |f|
    ensures var c := ReceiveAll(size, [f[..k], f[k..]]);
            !c.open && c.pushed == []
  {
    var start := Receiver(true, [], []);
    ReceiveFirst(size, f[..k], f[k..]);
    assert start.ring + f[..k] == f[..k];
    ReceiveFrame(start, size, f[..k], f);
  }

  /** Nor is it for a whole frame: when the peer sends two in one piece and closes, the second is
      buffered, and lost with the connection. */
  lemma CloseLosesBacklog(size: nat, f: seq<Byte>, g: seq<Byte>)
    requires IsFrame(f) && IsFrame(g) && |f| + |g| <= size
    ensures var c := ReceiveAll(size, [f + g, []]);
            !c.open && c.pushed == [f] && c.ring == g
  {
    var start := Receiver(true, [], []);
    ReceiveFirst(size, f + g, []);
    assert start.ring + (f + g) == f + g;
    ReceiveFrame(start, size, f + g, f);
    assert (f + g)[|f|..] == g;
  }

  /** A peer out of step: `k` frames and then a foreign head, one completion each. The frames are handed on,
      the completion that brings the foreign head to the front closes, and nothing more is handed on. */
  lemma ForeignHeadCloses(size: nat, frames: seq<seq<Byte>>, junk: seq<Byte>)
    requires forall i :: 0 <= i < |frames| ==> IsFrame(frames[i]) && |frames[i]| <= size
    requires 8 <= |junk| && junk[..4] != [0, 0, 0, 0]
    ensures ReceiveAll(size, frames) == Receiver(true, [], frames)
    ensures var c := ReceiveAll(size, frames + [junk]); !c.open && c.pushed == frames
  {
    FramesArrive(size, frames);
    var c := ReceiveAll(size, frames);
    assert (frames + [junk])[..|frames|] == frames;
    assert ReceiveAll(size, frames + [junk]) == Completion(c, size, junk);
    assert [] + junk == junk;
    CompletionOnAnyBytes(c, size, junk);
  }

  lemma FramesArrive(size: nat, frames: seq<seq<Byte>>)
    requires forall i :: 0 <= i < |frames| ==> IsFrame(frames[i]) && |frames[i]| <= size
    ensures ReceiveAll(size, frames) == Receiver(true, [], frames)
  {
    var c := ReceiveAll(size, frames);
    assert Concat(frames) + [] == Concat(frames);
    ReceiveStream(size, frames, frames, []);
    OneEach(size, frames, |frames|);
    assert frames[..|frames|] == frames;
    assert c.pushed == frames && |c.ring| == 0;
  }

  lemma {:induction false} OneEach(size: nat, frames: seq<seq<Byte>>, n: nat)
    requires n <= |frames| && forall i :: 0 <= i < |frames| ==> IsFrame(frames[i]) && |frames[i]| <= size
    ensures AllTimely(size, frames[..n], frames)
  {
    if n > 0 {
      OneEach(size, frames, n - 1);
      assert frames[..n][..n - 1] == frames[..n - 1];
      ConcatSnoc(frames, n - 1);
    }
  }
}
