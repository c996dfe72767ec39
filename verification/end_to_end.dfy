/** A packet's whole way: serialise, frame, ring, parse, tail check, slice, dispatch, deserialise. */
module EndToEnd {
  import opened Common
  import opened Bytes
  import opened CircleBuffers
  import opened Framing
  import opened Packets

  /** Whose handler table a packet is for. */
  datatype Side = AtServer | AtClient

  function ReceivedBy(k: Kind): Side {
    match k
    case CsAuth => AtServer
    case CsEnter => AtServer
    case CsLeave => AtServer
    case CsMove => AtServer
    case CsInteraction => AtServer
    case CsHeartbeat => AtServer
    case CsEcho => AtServer
    case _ => AtClient
  }

  /** The handler table: which packet is registered under a type number. */
  function Registered(side: Side, code: nat): Option<Kind> {
    match side
    case AtServer =>
      (match code
       case 1 => Some(CsAuth)
       case 2 => Some(CsEnter)
       case 3 => Some(CsLeave)
       case 4 => Some(CsMove)
       case 5 => Some(CsInteraction)
       case 6 => Some(CsHeartbeat)
       case 7 => Some(CsEcho)
       case _ => None)
    case AtClient =>
      (match code
       case 1 => Some(ScAuthResult)
       case 2 => Some(ScEnter)
       case 3 => Some(ScCharacterList)
       case 4 => Some(ScLeave)
       case 5 => Some(ScMove)
       case 6 => Some(ScInteraction)
       case 7 => Some(ScHeartbeat)
       case 8 => Some(ScEcho)
       case _ => None)
  }

  lemma RegisteredUnderItsCode(k: Kind)
    ensures Registered(ReceivedBy(k), Code(k)) == Some(k)
  {
  }

  // ---------------------------------------------------------------- bodies

  /** The type number and then the members. */
  function Body(p: Packet): seq<Byte>
    requires Valid(p)
  {
    IntBytes(Code(p.kind), 4) + Encode(p)
  }

  /** `OutOfTable`: the type number is past the end of the handler table, which the code indexes without
      a check; `Overrun`: the body announces more than the packet's array holds. */
  datatype Dispatched = NoHandler | OutOfTable | Overrun | Handled(packet: Packet)

  /** One more than the highest type number of a side. */
  function TableSize(side: Side): nat {
    match side case AtServer => 8 case AtClient => 9
  }

  /** What a handler table makes of a body: the packet it hands to the handler, if there is one. */
  function Dispatch(side: Side, body: seq<Byte>): Dispatched {
    var (code, members) := TakeInt(Put([], body), 4, 0);
    if code < 0 || TableSize(side) <= code then OutOfTable
    else
      match Registered(side, code)
      case None => NoHandler
      case Some(k) => if FitsStorage(k, members) then Handled(Decode(k, members).0) else Overrun
  }

  lemma {:induction false} EncodeIntsSize(widths: seq<nat>, ints: seq<int>)
    requires |ints| == |widths| && forall i :: 0 <= i < |widths| ==> widths[i] <= 8
    ensures |EncodeInts(widths, ints)| <= 8 * |widths|
    decreases |ints|
  {
    if ints != [] { EncodeIntsSize(widths[1..], ints[1..]); }
  }

  /** Every packet fits the serializer and, framed, the send buffer. */
  lemma BodySize(p: Packet)
    requires Valid(p)
    ensures |Body(p)| <= 500
  {
    EncodeIntsSize(Widths(p.kind), p.ints);
  }

  lemma StorageFits(p: Packet)
    requires Valid(p)
    ensures FitsStorage(p.kind, Encode(p))
  {
    var extra := EncodeEntries(p.entries) + p.blob;
    TakeIntsBack(Widths(p.kind), p.ints, DefaultInts(p.kind), extra);
  }

  lemma BodyOpens(p: Packet)
    requires Valid(p)
    ensures TakeInt(Put([], Body(p)), 4, 0) == (Code(p.kind), Encode(p))
  {
    BodySize(p);
    PutWhole(Body(p));
    CodeInRange(p.kind);
    TakeIntBack(Code(p.kind), 4, 0, Encode(p));
  }

  lemma PutWhole(body: seq<Byte>)
    requires |body| <= MAX_PACKET_BUFFER_SIZE
    ensures Put([], body) == body
  {
  }

  lemma CodeInRange(k: Kind)
    ensures InRange(Code(k), 4)
  {
    assert Pow256(4) == 256 * Pow256(3);
  }

  lemma DispatchTo(side: Side, body: seq<Byte>, k: Kind, members: seq<Byte>, p: Packet)
    requires side == ReceivedBy(k) && TakeInt(Put([], body), 4, 0) == (Code(k), members)
    requires FitsStorage(k, members) && Decode(k, members) == (p, [])
    ensures Dispatch(side, body) == Handled(p)
  {
    RegisteredUnderItsCode(k);
  }

  lemma DispatchBody(p: Packet)
    requires Valid(p)
    ensures Dispatch(ReceivedBy(p.kind), Body(p)) == Handled(p)
  {
    BodyOpens(p);
    StorageFits(p);
    DecodeEncode(p, []);
    assert Encode(p) + [] == Encode(p);
    DispatchTo(ReceivedBy(p.kind), Body(p), p.kind, Encode(p), p);
  }

  // ---------------------------------------------------------------- packets as received

  /** A packet as the receive path hands it on: as long as its head says. */
  predicate Cut(packet: seq<Byte>) {
    HEAD_SIZE <= |packet| ==> FromLittleEndian(packet[4..8]) == |packet|
  }

  /** `Outside`: the tail would begin before the packet, and the code reads whatever is there. */
  datatype TailCheck = Good | Bad | Outside

  function CheckTail(packet: seq<Byte>): TailCheck {
    if |packet| < TAIL_SIZE then Outside
    else if FromLittleEndian(packet[|packet| - TAIL_SIZE..|packet| - 8]) == PACKET_CHECK_TAIL_KEY then Good
    else Bad
  }

  /** The body between head and tail; for a packet shorter than both its length wraps to a number no
      serializer takes, so nothing is read. */
  function BodyOf(packet: seq<Byte>): seq<Byte> {
    if |packet| < HEAD_SIZE + TAIL_SIZE then [] else packet[HEAD_SIZE..|packet| - TAIL_SIZE]
  }

  /** What the receiver makes of a packet; the tail's verdict has no influence on it. */
  function Process(side: Side, packet: seq<Byte>): Dispatched {
    Dispatch(side, BodyOf(packet))
  }

  /** What becomes of any body by its first four bytes: type 0 has no handler, a type past the table is
      outside, and every other one is read as its packet if what it announces fits. */
  lemma DispatchByType(side: Side, body: seq<Byte>)
    requires 4 <= |body| <= 10240
    ensures var n, r := NumberAt(body, 0), Dispatch(side, body);
            && (n == 0 ==> r == NoHandler)
            && (n >= (if side.AtServer? then 8 else 9) ==> r == OutOfTable)
            && (0 < n < (if side.AtServer? then 8 else 9) ==>
                  && Registered(side, n).Some?
                  && var k := Registered(side, n).value;
                     r == if FitsStorage(k, body[4..]) then Handled(Decode(k, body[4..]).0) else Overrun)
  {
    PutWhole(body);
    NumberFromLittleEndian(body, 0);
    assert body[0..4] == body[..4];
    CodeOfBody(body);
    var n := NumberAt(body, 0);
    var code: int := if n < 0x8000_0000 then n else (n as int) - 0x1_0000_0000;
    DispatchCode(side, body, code, body[4..]);
  }

  lemma DispatchCode(side: Side, body: seq<Byte>, code: int, members: seq<Byte>)
    requires TakeInt(Put([], body), 4, 0) == (code, members)
    ensures var r := Dispatch(side, body);
            && (code == 0 ==> r == NoHandler)
            && (code < 0 || code >= (if side.AtServer? then 8 else 9) ==> r == OutOfTable)
            && (0 < code < (if side.AtServer? then 8 else 9) ==>
                  && Registered(side, code).Some?
                  && var k := Registered(side, code).value;
                     r == if FitsStorage(k, members) then Handled(Decode(k, members).0) else Overrun)
  {
    if 0 <= code { RegisteredRange(side, code); }
  }

  lemma RegisteredRange(side: Side, code: nat)
    ensures Registered(side, code).Some? <==> 1 <= code < TableSize(side)
  {
  }

  lemma CodeOfBody(body: seq<Byte>)
    requires |body| >= 4 && FromLittleEndian(body[..4]) == NumberAt(body, 0)
    ensures var n := NumberAt(body, 0);
            TakeInt(body, 4, 0) == (if n < 0x8000_0000 then n else n - 0x1_0000_0000, body[4..])
  {
    assert Pow256(4) == 256 * Pow256(3);
  }

  /** An echo of more than 32 bytes, or a list of more than 20 entries, does not fit. */
  lemma StorageLimits(s: seq<Byte>)
    ensures |s| >= 4 ==> (FitsStorage(CsEcho, s) <==> IntFrom(s[..4]) <= 32)
    ensures |s| >= 4 ==> (FitsStorage(ScCharacterList, s) <==> IntFrom(s[..4]) <= 20)
    ensures |s| >= 12 ==> (FitsStorage(ScEcho, s) <==> IntFrom(s[8..12]) <= 32)
  {
    OneMember(s, CsEcho);
    OneMember(s, ScCharacterList);
    if |s| >= 12 { TwoMembers(s); }
  }

  lemma OneMember(s: seq<Byte>, k: Kind)
    requires k == CsEcho || k == ScCharacterList
    ensures |s| >= 4 ==> TakeInts(s, Widths(k), DefaultInts(k)).0 == [IntFrom(s[..4])]
  {
    assert Widths(k)[1..] == [];
  }

  lemma TwoMembers(s: seq<Byte>)
    requires |s| >= 12
    ensures var r := TakeInts(s, Widths(ScEcho), DefaultInts(ScEcho)).0; |r| == 2 && r[1] == IntFrom(s[8..12])
  {
    var w, d := Widths(ScEcho), DefaultInts(ScEcho);
    assert w[1..] == [4] && w[1..][1..] == [];
    assert s[8..][..4] == s[8..12];
    assert TakeInts(s[8..], w[1..], d[1..]).0 == [IntFrom(s[8..12])];
  }

  /** The tail check on any packet: the four bytes twelve before its end have to be 00 00 00 10. */
  lemma CheckTailBytes(packet: seq<Byte>)
    ensures CheckTail(packet) ==
              if |packet| < 12 then Outside
              else if packet[|packet| - 12..|packet| - 8] == [0, 0, 0, 0x10] then Good
              else Bad
  {
    if |packet| >= 12 {
      var i := |packet| - 12;
      NumberFromLittleEndian(packet, i);
      assert packet[i..i + 4] == [packet[i], packet[i + 1], packet[i + 2], packet[i + 3]];
    }
  }

  /** A body without a whole type number is of type 0, which has no handler. */
  lemma NothingToRead(side: Side, body: seq<Byte>)
    requires |body| < 4
    ensures Dispatch(side, body) == NoHandler
  {
    PutWhole(body);
    assert TakeInt(body, 4, 0) == (0, body);
    match side
    case AtServer => assert Registered(side, 0) == None;
    case AtClient => assert Registered(side, 0) == None;
  }

  lemma FrameIsCut(f: seq<Byte>)
    requires IsFrame(f)
    ensures Cut(f)
  {
    HeadReads(|f|);
    assert f[4..8] == f[..HEAD_SIZE][4..8];
  }

  lemma FrameParts(body: seq<Byte>, number: nat, time: nat)
    ensures BodyOf(Frame(body, number, time)) == body
    ensures CheckTail(Frame(body, number, time)) == Good
  {
    var f := Frame(body, number, time);
    assert f[|f| - TAIL_SIZE..|f| - 8] == LittleEndian(PACKET_CHECK_TAIL_KEY, 4);
    assert PACKET_CHECK_TAIL_KEY < Pow256(4) by { assert Pow256(4) == 256 * Pow256(3); }
    LittleEndianRoundTrip(PACKET_CHECK_TAIL_KEY, 4);
  }

  function FrameOf(p: Packet, number: nat, time: nat): seq<Byte>
    requires Valid(p)
  {
    Frame(Body(p), number, time)
  }

  /** A framed packet is a frame, and comes out of the receiver's table as it went in. */
  lemma FrameProcessed(p: Packet, number: nat, time: nat)
    requires Valid(p)
    ensures var f := FrameOf(p, number, time);
            && IsFrame(f) && |f| <= 520
            && CheckTail(f) == Good && Process(ReceivedBy(p.kind), f) == Handled(p)
  {
    BodySize(p);
    MadeFramesAreFrames(Body(p), number, time);
    FrameParts(Body(p), number, time);
    DispatchBody(p);
  }

  /** Every packet of the protocol, framed and found at the front of any buffered bytes, is cut out
      whole, passes the tail check, and comes out of the receiver's handler table as it went in. */
  lemma FramedRoundTrip(p: Packet, number: nat, time: nat, following: seq<Byte>)
    requires Valid(p)
    ensures var f := FrameOf(p, number, time);
            && Parse(f + following) == Found(|f|)
            && (f + following)[..|f|] == f
            && CheckTail(f) == Good && Process(ReceivedBy(p.kind), f) == Handled(p)
  {
    var f := FrameOf(p, number, time);
    FrameProcessed(p, number, time);
    ParseFrame(f, f + following);
  }

  // ---------------------------------------------------------------- whole conversations

  /** A packet and the number and time its tail is stamped with. */
  datatype Sent = Sent(packet: Packet, number: nat, time: nat)

  /** `frames` are the frames of packets for one side. */
  ghost predicate Framed(side: Side, sent: seq<Sent>, frames: seq<seq<Byte>>) {
    |frames| == |sent| && forall i :: 0 <= i < |sent| ==> FrameFor(side, sent[i], frames[i])
  }

  ghost predicate FrameFor(side: Side, s: Sent, frame: seq<Byte>) {
    Valid(s.packet) && ReceivedBy(s.packet.kind) == side && frame == FrameOf(s.packet, s.number, s.time)
  }

  /** Sender and receiver together: for any packets and any way the network cuts up their bytes, the
      packets that reach the handlers are exactly the first ones sent, whole and in order, one for
      each timely completion, whatever foreign bytes follow; and the connection survives exactly
      while all completions are timely. */
  lemma ConversationArrives(side: Side, sent: seq<Sent>, frames: seq<seq<Byte>>, junk: seq<Byte>,
                            size: nat, chunks: seq<seq<Byte>>)
    requires Framed(side, sent, frames) && Foreign(junk) && Concat(chunks) <= Concat(frames) + junk
    ensures var c, n := ReceiveAll(size, chunks), TimelyCount(size, chunks, frames);
            && (c.open <==> AllTimely(size, chunks, frames))
            && |c.pushed| == n <= |sent|
            && forall i :: 0 <= i < n ==>
                 CheckTail(c.pushed[i]) == Good && Process(side, c.pushed[i]) == Handled(sent[i].packet)
  {
    var c := ReceiveAll(size, chunks);
    forall i | 0 <= i < |frames| ensures IsFrame(frames[i]) { SentProcessed(side, sent[i], frames[i]); }
    ReceiveStream(size, chunks, frames, junk);
    forall i | 0 <= i < |c.pushed|
      ensures CheckTail(c.pushed[i]) == Good && Process(side, c.pushed[i]) == Handled(sent[i].packet)
    {
      SentProcessed(side, sent[i], frames[i]);
      assert c.pushed[i] == frames[i];
    }
  }

  lemma SentProcessed(side: Side, s: Sent, f: seq<Byte>)
    requires FrameFor(side, s, f)
    ensures IsFrame(f) && CheckTail(f) == Good && Process(side, f) == Handled(s.packet)
  {
    FrameProcessed(s.packet, s.number, s.time);
  }

  // ---------------------------------------------------------------- the objects

  method Serialise(p: Packet) returns (body: seq<Byte>)
    requires Valid(p)
    ensures body == Body(p)
  {
    BodySize(p);
    var pack := new Serializer.ForSend();
    var _ := pack.Value(Code(p.kind), 4);
    assert Put([], IntBytes(Code(p.kind), 4)) == IntBytes(Code(p.kind), 4);
    PutPacketFits(IntBytes(Code(p.kind), 4), p);
    pack.Send(p);
    body := pack.buffer[..pack.dataSize];
  }

  /** `PacketHandler::Execute` and the functor it finds, on any body. */
  method Execute(side: Side, body: seq<Byte>) returns (r: Dispatched)
    ensures r == Dispatch(side, body)
  {
    var unpack := new Serializer.ForReceive(body);
    var code := unpack.Value(0, 4);
    if code < 0 || TableSize(side) <= code {
      return OutOfTable;
    }
    var handler := Registered(side, code);
    if handler.None? {
      return NoHandler;
    }
    var again := new Serializer.ForReceive(body);
    var _ := again.Value(0, 4);
    var received := again.Receive(handler.value);
    match received
    case Whole(p) => r := Handled(p);
    case Oversized => r := Overrun;
  }

  method MakeFrame(p: Packet, number: nat, time: nat) returns (frame: seq<Byte>)
    requires Valid(p)
    ensures frame == FrameOf(p, number, time)
  {
    BodySize(p);
    var body := Serialise(p);
    frame := FrameBody(body, number, time);
  }

  method FrameBody(body: seq<Byte>, number: nat, time: nat) returns (frame: seq<Byte>)
    requires |body| <= 500
    ensures frame == Frame(body, number, time)
  {
    ShortLength(|body|);
    var out := new Byte[MAX_PACKET_BUFFER_SIZE](_ => 0);
    var made := MakeNetworkPacket(body, out, MAX_PACKET_BUFFER_SIZE, number, time);
    frame := out[..made.size];
  }

  /** The process thread on any packet the receive path hands on. A bad tail disconnects whichever
      connection the thread served before, as the variable still names that one, and the packet goes
      to its session all the same. */
  method ProcessPacket(side: Side, packet: seq<Byte>, previous: Option<nat>)
    returns (tail: TailCheck, dropped: Option<nat>, r: Dispatched)
    requires Cut(packet)
    ensures tail == CheckTail(packet) && r == Process(side, packet)
    ensures dropped == if tail.Bad? then previous else None
  {
    tail := CheckTail(packet);
    dropped := if tail.Bad? then previous else None;
    if HEAD_SIZE > |packet| {
      NothingToRead(side, BodyOf(packet));
      return tail, dropped, NoHandler;
    }
    r := Execute(side, BodyOf(packet));
  }

  /** Cuts the frame at the front out of the ring. */
  method TakeFrame(ring: CircleBuffer, ghost frame: seq<Byte>, ghost following: seq<Byte>)
    returns (packet: seq<Byte>)
    requires ring.Valid() && IsFrame(frame) && ring.Contents() == frame + following
    modifies ring, ring.buffer
    ensures ring.Valid() && packet == frame && ring.Contents() == following
  {
    ParseFrame(frame, ring.Contents());
    var parsed := ParseNetworkData(ring);
    var _, bytes := ring.Read(parsed.length);
    var _ := ring.Erase(parsed.length);
    packet := bytes;
  }

  /** The same way through the actual objects, with the ring's cursors anywhere and other frames waiting
      in it: these come out first, then the packet; if it does not fit, the ring stays as it is. */
  method SendThrough(p: Packet, ring: CircleBuffer, number: nat, time: nat, ghost waiting: seq<seq<Byte>>)
    returns (earlier: seq<seq<Byte>>, tail: TailCheck, r: Dispatched)
    requires Valid(p) && ring.Valid() && ring.Contents() == Concat(waiting)
    requires forall i :: 0 <= i < |waiting| ==> IsFrame(waiting[i])
    modifies ring, ring.buffer
    ensures ring.Valid()
    ensures if old(ring.dataSize) + |FrameOf(p, number, time)| <= ring.size
            then ring.Contents() == [] && earlier == waiting && tail == Good && r == Handled(p)
            else ring.Contents() == old(ring.Contents()) && earlier == [] && tail == Outside && r == NoHandler
  {
    FrameProcessed(p, number, time);
    var frame := MakeFrame(p, number, time);
    var packet: Option<seq<Byte>>;
    earlier, packet := PassThrough(frame, ring, waiting);
    if packet.None? {
      return earlier, Outside, NoHandler;
    }
    FrameIsCut(frame);
    var check, _, handled := ProcessPacket(ReceivedBy(p.kind), packet.value, None);
    return earlier, check, handled;
  }

  /** Into the ring behind other frames, and out again. */
  method PassThrough(frame: seq<Byte>, ring: CircleBuffer, ghost waiting: seq<seq<Byte>>)
    returns (earlier: seq<seq<Byte>>, packet: Option<seq<Byte>>)
    requires IsFrame(frame) && ring.Valid() && ring.Contents() == Concat(waiting)
    requires forall i :: 0 <= i < |waiting| ==> IsFrame(waiting[i])
    modifies ring, ring.buffer
    ensures ring.Valid()
    ensures if old(ring.dataSize) + |frame| <= ring.size
            then ring.Contents() == [] && earlier == waiting && packet == Some(frame)
            else ring.Contents() == old(ring.Contents()) && earlier == [] && packet == None
  {
    var written := ring.Write(frame);
    if written == FAILED {
      return [], None;
    }
    earlier := TakeWaiting(ring, waiting, frame);
    var last := TakeFrame(ring, frame, []);
    packet := Some(last);
  }

  /** Cuts out the frames in front of the last one. */
  method TakeWaiting(ring: CircleBuffer, ghost waiting: seq<seq<Byte>>, last: seq<Byte>)
    returns (taken: seq<seq<Byte>>)
    requires ring.Valid() && ring.Contents() == Concat(waiting) + last
    requires forall i :: 0 <= i < |waiting| ==> IsFrame(waiting[i])
    modifies ring, ring.buffer
    ensures ring.Valid() && ring.Contents() == last + [] && taken == waiting
  {
    taken := [];
    ghost var behind := waiting;
    while |last| < ring.dataSize
      invariant ring.Valid() && ring.Contents() == Concat(behind) + last
      invariant |taken| <= |waiting| && taken == waiting[..|taken|] && behind == waiting[|taken|..]
      decreases |behind|
    {
      assert |ring.Contents()| == ring.dataSize;
      var packet := TakeNext(ring, behind, last);
      taken := taken + [packet];
      behind := behind[1..];
    }
    assert |ring.Contents()| == ring.dataSize;
    NothingLeft(behind);
  }

  method TakeNext(ring: CircleBuffer, ghost behind: seq<seq<Byte>>, ghost last: seq<Byte>)
    returns (packet: seq<Byte>)
    requires ring.Valid() && ring.Contents() == Concat(behind) + last && behind != [] && IsFrame(behind[0])
    modifies ring, ring.buffer
    ensures ring.Valid() && packet == behind[0] && ring.Contents() == Concat(behind[1..]) + last
  {
    ConcatCons(behind);
    Assoc(behind[0], Concat(behind[1..]), last);
    packet := TakeFrame(ring, behind[0], Concat(behind[1..]) + last);
  }

  lemma NothingLeft(frames: seq<seq<Byte>>)
    requires Concat(frames) == [] && forall i :: 0 <= i < |frames| ==> IsFrame(frames[i])
    ensures frames == []
  {
  }
}
