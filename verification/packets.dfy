/** The client and server packets, and the serializer that both writes and reads them.

    A packet is its integer members in declaration order, the entries of a character list and the
    used part of an echo buffer; the rest of such an array is zero. Integers are stored little-endian in
    two's complement. */
module Packets {
  import opened Common
  import opened Bytes

  const MAX_ECHO_DATA_LENGTH: nat := 32
  const MAX_SEND_COUNT_CHARACTER_DB_DATA: nat := 20

  datatype Kind =
    | CsAuth | CsEnter | CsLeave | CsMove | CsInteraction | CsHeartbeat | CsEcho
    | ScAuthResult | ScEnter | ScCharacterList | ScLeave | ScMove | ScInteraction | ScHeartbeat | ScEcho

  /** The type number in front of every body; client and server number their packets separately. */
  function Code(k: Kind): nat {
    match k
    case CsAuth => 1
    case CsEnter => 2
    case CsLeave => 3
    case CsMove => 4
    case CsInteraction => 5
    case CsHeartbeat => 6
    case CsEcho => 7
    case ScAuthResult => 1
    case ScEnter => 2
    case ScCharacterList => 3
    case ScLeave => 4
    case ScMove => 5
    case ScInteraction => 6
    case ScHeartbeat => 7
    case ScEcho => 8
  }

  /** Widths in bytes of the integer members a packet passes to `Value`, in order. */
  function Widths(k: Kind): seq<nat> {
    match k
    case CsAuth => [4]                // id
    case CsEnter => [8]               // token
    case CsLeave => [8]               // token
    case CsMove => [4, 4]             // x, y
    case CsInteraction => [8, 4]      // targetToken, interactionType
    case CsHeartbeat => []
    case CsEcho => [4]                // echoDataSize
    case ScAuthResult => [4, 8]       // id, token
    case ScEnter => [8, 4, 4]         // token, x, y
    case ScCharacterList => [4]       // count
    case ScLeave => [8]               // token
    case ScMove => [8, 4, 4]          // token, x, y
    case ScInteraction => [8, 8, 4]   // token, targetToken, interactionType
    case ScHeartbeat => []
    case ScEcho => [8, 4]             // token, echoDataSize
  }

  /** One entry of a character list. */
  datatype Entry = Entry(token: int, zone: int, x: int, y: int)

  datatype Packet = Packet(kind: Kind, ints: seq<int>, entries: seq<Entry>, blob: seq<Byte>)

  predicate HasBlob(k: Kind) { k.CsEcho? || k.ScEcho? }

  predicate InRange(v: int, width: nat) { 0 - Pow256(width) <= 2 * v < Pow256(width) }

  predicate AllInRange(widths: seq<nat>, ints: seq<int>) {
    |ints| == |widths| && forall i :: 0 <= i < |ints| ==> InRange(ints[i], widths[i])
  }

  predicate EntryInRange(e: Entry) {
    InRange(e.token, 8) && InRange(e.zone, 4) && InRange(e.x, 4) && InRange(e.y, 4)
  }

  /** The last integer of a list or echo is the length of what follows it. */
  predicate ExtraFits(k: Kind, length: int, entries: seq<Entry>, blob: seq<Byte>) {
    if k.ScCharacterList? then
      && length == |entries| <= MAX_SEND_COUNT_CHARACTER_DB_DATA && blob == []
      && forall e :: e in entries ==> EntryInRange(e)
    else if HasBlob(k) then length == |blob| <= MAX_ECHO_DATA_LENGTH && entries == []
    else entries == [] && blob == []
  }

  function Length(k: Kind, ints: seq<int>): int
    requires |ints| == |Widths(k)|
  {
    if k.ScCharacterList? || HasBlob(k) then ints[|ints| - 1] else 0
  }

  /** The packets the protocol sends: an echo of 0 to 32 bytes, a list of 0 to 20 entries. */
  predicate Valid(p: Packet) {
    && AllInRange(Widths(p.kind), p.ints)
    && ExtraFits(p.kind, Length(p.kind, p.ints), p.entries, p.blob)
  }

  // ---------------------------------------------------------------- integers

  /** The unsigned number with the same two's-complement bits. */
  function Unsigned(v: int, width: nat): nat {
    if v >= 0 then v else if v + Pow256(width) >= 0 then v + Pow256(width) else 0
  }

  function IntBytes(v: int, width: nat): (r: seq<Byte>)
    ensures |r| == width
  {
    LittleEndian(Unsigned(v, width), width)
  }

  function IntFrom(bytes: seq<Byte>): int {
    var u := FromLittleEndian(bytes);
    if 2 * u >= Pow256(|bytes|) then u - Pow256(|bytes|) else u
  }

  lemma IntRoundTrip(v: int, width: nat)
    requires InRange(v, width)
    ensures IntFrom(IntBytes(v, width)) == v
  {
    LittleEndianRoundTrip(Unsigned(v, width), width);
  }

  // ---------------------------------------------------------------- the wire format

  function EncodeInts(widths: seq<nat>, ints: seq<int>): seq<Byte>
    requires |ints| == |widths|
    decreases |ints|
  {
    if ints == [] then [] else IntBytes(ints[0], widths[0]) + EncodeInts(widths[1..], ints[1..])
  }

  function EncodeEntry(e: Entry): (r: seq<Byte>)
    ensures |r| == 20
  {
    IntBytes(e.token, 8) + IntBytes(e.zone, 4) + IntBytes(e.x, 4) + IntBytes(e.y, 4)
  }

  function EncodeEntries(entries: seq<Entry>): (r: seq<Byte>)
    ensures |r| == 20 * |entries|
    decreases |entries|
  {
    if entries == [] then [] else EncodeEntry(entries[0]) + EncodeEntries(entries[1..])
  }

  function Encode(p: Packet): seq<Byte>
    requires Valid(p)
  {
    EncodeInts(Widths(p.kind), p.ints) + (EncodeEntries(p.entries) + p.blob)
  }

  /** Reading an integer that is not there leaves the member as it was. */
  function TakeInt(s: seq<Byte>, width: nat, was: int): (int, seq<Byte>) {
    if |s| < width then (was, s) else (IntFrom(s[..width]), s[width..])
  }

  function TakeInts(s: seq<Byte>, widths: seq<nat>, was: seq<int>): (r: (seq<int>, seq<Byte>))
    requires |was| == |widths|
    ensures |r.0| == |widths|
    decreases |widths|
  {
    if widths == [] then ([], s)
    else
      var (v, s') := TakeInt(s, widths[0], was[0]);
      var (vs, s'') := TakeInts(s', widths[1..], was[1..]);
      ([v] + vs, s'')
  }

  lemma {:induction false} TakeIntsBack(widths: seq<nat>, ints: seq<int>, was: seq<int>, rest: seq<Byte>)
    requires AllInRange(widths, ints) && |was| == |widths|
    ensures TakeInts(EncodeInts(widths, ints) + rest, widths, was) == (ints, rest)
    decreases |ints|
  {
    var s := EncodeInts(widths, ints) + rest;
    if ints == [] {
      assert s == rest;
    } else {
      var tail := EncodeInts(widths[1..], ints[1..]) + rest;
      assert s == IntBytes(ints[0], widths[0]) + tail;
      assert s[..widths[0]] == IntBytes(ints[0], widths[0]) && s[widths[0]..] == tail;
      IntRoundTrip(ints[0], widths[0]);
      assert TakeInt(s, widths[0], was[0]) == (ints[0], tail);
      TakeIntsBack(widths[1..], ints[1..], was[1..], rest);
      assert ints == [ints[0]] + ints[1..];
    }
  }

  const NO_ENTRY := Entry(0, 0, 0, 0)

  function TakeEntry(s: seq<Byte>): (Entry, seq<Byte>) {
    var (token, s1) := TakeInt(s, 8, NO_ENTRY.token);
    var (zone, s2) := TakeInt(s1, 4, NO_ENTRY.zone);
    var (x, s3) := TakeInt(s2, 4, NO_ENTRY.x);
    var (y, s4) := TakeInt(s3, 4, NO_ENTRY.y);
    (Entry(token, zone, x, y), s4)
  }

  lemma TakeIntBack(v: int, width: nat, was: int, rest: seq<Byte>)
    requires InRange(v, width)
    ensures TakeInt(IntBytes(v, width) + rest, width, was) == (v, rest)
  {
    var s := IntBytes(v, width) + rest;
    assert s[..width] == IntBytes(v, width) && s[width..] == rest;
    IntRoundTrip(v, width);
  }

  lemma TakeEntryBack(e: Entry, rest: seq<Byte>)
    requires EntryInRange(e)
    ensures TakeEntry(EncodeEntry(e) + rest) == (e, rest)
  {
    var r3 := IntBytes(e.y, 4) + rest;
    var r2 := IntBytes(e.x, 4) + r3;
    var r1 := IntBytes(e.zone, 4) + r2;
    assert EncodeEntry(e) + rest == IntBytes(e.token, 8) + r1;
    TakeIntBack(e.token, 8, 0, r1);
    TakeIntBack(e.zone, 4, 0, r2);
    TakeIntBack(e.x, 4, 0, r3);
    TakeIntBack(e.y, 4, 0, rest);
  }

  function TakeEntries(s: seq<Byte>, n: nat): (seq<Entry>, seq<Byte>) {
    if n == 0 then ([], s)
    else
      var (e, s') := TakeEntry(s);
      var (es, s'') := TakeEntries(s', n - 1);
      ([e] + es, s'')
  }

  lemma TakeOneMore(s: seq<Byte>, n: nat, e: Entry, s': seq<Byte>, es: seq<Entry>, s'': seq<Byte>)
    requires n > 0 && TakeEntry(s) == (e, s') && TakeEntries(s', n - 1) == (es, s'')
    ensures TakeEntries(s, n) == ([e] + es, s'')
  {
  }

  lemma {:induction false} TakeEntriesBack(entries: seq<Entry>, rest: seq<Byte>)
    requires forall e :: e in entries ==> EntryInRange(e)
    ensures TakeEntries(EncodeEntries(entries) + rest, |entries|) == (entries, rest)
    decreases |entries|
  {
    if entries == [] {
      assert EncodeEntries(entries) + rest == rest;
    } else {
      var tail := EncodeEntries(entries[1..]) + rest;
      Assoc(EncodeEntry(entries[0]), EncodeEntries(entries[1..]), rest);
      TakeEntryBack(entries[0], tail);
      TakeEntriesBack(entries[1..], rest);
      TakeOneMore(EncodeEntries(entries) + rest, |entries|, entries[0], tail, entries[1..], rest);
      assert entries == [entries[0]] + entries[1..];
    }
  }

  /** The echo buffer after reading `size` bytes into it, of which the first `size` are used. */
  function TakeBlob(s: seq<Byte>, size: int): (seq<Byte>, seq<Byte>) {
    if size < 0 then ([], s)
    else if |s| < size then (Zeros(size), s)
    else (s[..size], s[size..])
  }

  function DefaultInts(k: Kind): (r: seq<int>)
    ensures |r| == |Widths(k)|
  {
    seq(|Widths(k)|, _ => 0)
  }

  /** What follows the integers. */
  function TakeExtra(k: Kind, length: int, s: seq<Byte>): (seq<Entry>, seq<Byte>, seq<Byte>) {
    if k.ScCharacterList? then
      var (entries, s') := TakeEntries(s, if length < 0 then 0 else length);
      (entries, [], s')
    else if HasBlob(k) then
      var (blob, s') := TakeBlob(s, length);
      ([], blob, s')
    else ([], [], s)
  }

  /** A default packet of a kind after reading it from `s`, and what is left of `s`. */
  function Decode(k: Kind, s: seq<Byte>): (Packet, seq<Byte>) {
    var (ints, s') := TakeInts(s, Widths(k), DefaultInts(k));
    var (entries, blob, rest) := TakeExtra(k, Length(k, ints), s');
    (Packet(k, ints, entries, blob), rest)
  }

  /** A member that is not there stays as it was: an empty body gives the default packet. */
  lemma {:induction false} TakeNoInts(widths: seq<nat>, was: seq<int>)
    requires |was| == |widths| && forall i :: 0 <= i < |widths| ==> 0 < widths[i]
    ensures TakeInts([], widths, was) == (was, [])
    decreases |widths|
  {
    if widths != [] {
      assert widths[0] > 0;
      TakeNoInts(widths[1..], was[1..]);
      assert was == [was[0]] + was[1..];
    }
  }

  lemma DecodeNothing(k: Kind)
    ensures var (p, rest) := Decode(k, []);
            && p.kind == k && p.entries == [] && p.blob == [] && rest == []
            && forall i :: 0 <= i < |p.ints| ==> p.ints[i] == 0
  {
    TakeNoInts(Widths(k), DefaultInts(k));
    assert Length(k, DefaultInts(k)) == 0;
    TakeNoExtra(k);
    DecodeParts(k, [], [], Packet(k, DefaultInts(k), [], []), []);
  }

  lemma TakeNoExtra(k: Kind)
    ensures TakeExtra(k, 0, []) == ([], [], [])
  {
    var none: seq<Byte> := [];
    assert none[..0] == [] && none[0..] == [];
  }

  /** An echo whose data is cut short: as many zeros as it announces, and nothing is consumed. */
  lemma EchoCutShort(k: Kind, size: nat, s: seq<Byte>)
    requires HasBlob(k) && |s| < size
    ensures var (entries, blob, rest) := TakeExtra(k, size, s);
            entries == [] && rest == s && |blob| == size && forall i :: 0 <= i < size ==> blob[i] == 0
  {
  }

  lemma TakeExtraBack(k: Kind, length: int, entries: seq<Entry>, blob: seq<Byte>, rest: seq<Byte>)
    requires ExtraFits(k, length, entries, blob)
    ensures TakeExtra(k, length, (EncodeEntries(entries) + blob) + rest) == (entries, blob, rest)
  {
    var s := (EncodeEntries(entries) + blob) + rest;
    if k.ScCharacterList? {
      assert s == EncodeEntries(entries) + rest;
      TakeEntriesBack(entries, rest);
    } else {
      assert s == blob + rest;
      if HasBlob(k) {
        assert s[..|blob|] == blob && s[|blob|..] == rest;
      } else {
        assert s == rest;
      }
    }
  }

  /** Reading undoes writing, for every packet the protocol sends and whatever follows it. */
  lemma DecodeEncode(p: Packet, rest: seq<Byte>)
    requires Valid(p)
    ensures Decode(p.kind, Encode(p) + rest) == (p, rest)
  {
    var k, ints, extra := p.kind, EncodeInts(Widths(p.kind), p.ints), EncodeEntries(p.entries) + p.blob;
    Assoc(ints, extra, rest);
    TakeIntsBack(Widths(k), p.ints, DefaultInts(k), extra + rest);
    TakeExtraBack(k, Length(k, p.ints), p.entries, p.blob, rest);
    DecodeParts(k, ints + (extra + rest), extra + rest, p, rest);
  }

  lemma DecodeParts(k: Kind, s: seq<Byte>, s': seq<Byte>, p: Packet, rest: seq<Byte>)
    requires p.kind == k && |p.ints| == |Widths(k)|
    requires TakeInts(s, Widths(k), DefaultInts(k)) == (p.ints, s')
    requires TakeExtra(k, Length(k, p.ints), s') == (p.entries, p.blob, rest)
    ensures Decode(k, s) == (p, rest)
  {
  }

  // ---------------------------------------------------------------- filling a buffer

  /** A member that does not fit the buffer is dropped without notice. */
  function Put(s: seq<Byte>, bytes: seq<Byte>): (r: seq<Byte>)
    ensures |s| <= MAX_PACKET_BUFFER_SIZE ==> |r| <= MAX_PACKET_BUFFER_SIZE
  {
    if |s| + |bytes| <= MAX_PACKET_BUFFER_SIZE then s + bytes else s
  }

  function PutInts(s: seq<Byte>, widths: seq<nat>, ints: seq<int>): seq<Byte>
    requires |ints| == |widths|
    decreases |ints|
  {
    if ints == [] then s else PutInts(Put(s, IntBytes(ints[0], widths[0])), widths[1..], ints[1..])
  }

  function PutEntry(s: seq<Byte>, e: Entry): seq<Byte> {
    Put(Put(Put(Put(s, IntBytes(e.token, 8)), IntBytes(e.zone, 4)), IntBytes(e.x, 4)), IntBytes(e.y, 4))
  }

  function PutEntries(s: seq<Byte>, entries: seq<Entry>): seq<Byte>
    decreases |entries|
  {
    if entries == [] then s else PutEntries(PutEntry(s, entries[0]), entries[1..])
  }

  function PutPacket(s: seq<Byte>, p: Packet): seq<Byte>
    requires Valid(p)
  {
    Put(PutEntries(PutInts(s, Widths(p.kind), p.ints), p.entries), p.blob)
  }

  /** The buffer holds 10240 bytes; a member that would go beyond leaves it as it is. */
  lemma PutAllOrNothing(s: seq<Byte>, bytes: seq<Byte>)
    ensures |s| + |bytes| <= 10240 ==> Put(s, bytes) == s + bytes
    ensures 10240 < |s| + |bytes| ==> Put(s, bytes) == s
  {
  }

  lemma {:induction false} PutIntsFits(s: seq<Byte>, widths: seq<nat>, ints: seq<int>)
    requires |ints| == |widths| && |s| + |EncodeInts(widths, ints)| <= MAX_PACKET_BUFFER_SIZE
    ensures PutInts(s, widths, ints) == s + EncodeInts(widths, ints)
    decreases |ints|
  {
    if ints != [] {
      var first, others := IntBytes(ints[0], widths[0]), EncodeInts(widths[1..], ints[1..]);
      PutIntsFits(s + first, widths[1..], ints[1..]);
      Assoc(s, first, others);
    }
  }

  lemma PutEntryFits(s: seq<Byte>, e: Entry)
    requires |s| + 20 <= MAX_PACKET_BUFFER_SIZE
    ensures PutEntry(s, e) == s + EncodeEntry(e)
  {
    var t, z, x, y := IntBytes(e.token, 8), IntBytes(e.zone, 4), IntBytes(e.x, 4), IntBytes(e.y, 4);
    assert PutEntry(s, e) == ((s + t) + z + x) + y;
    assert ((s + t) + z + x) + y == s + (t + z + x + y);
  }

  lemma {:induction false} PutEntriesFits(s: seq<Byte>, entries: seq<Entry>)
    requires |s| + |EncodeEntries(entries)| <= MAX_PACKET_BUFFER_SIZE
    ensures PutEntries(s, entries) == s + EncodeEntries(entries)
    decreases |entries|
  {
    if entries != [] {
      PutEntryFits(s, entries[0]);
      PutEntriesFits(s + EncodeEntry(entries[0]), entries[1..]);
      Assoc(s, EncodeEntry(entries[0]), EncodeEntries(entries[1..]));
    }
  }

  /** A packet that fits is appended whole. */
  lemma PutPacketFits(s: seq<Byte>, p: Packet)
    requires Valid(p) && |s| + |Encode(p)| <= MAX_PACKET_BUFFER_SIZE
    ensures PutPacket(s, p) == s + Encode(p)
  {
    var ints, entries := EncodeInts(Widths(p.kind), p.ints), EncodeEntries(p.entries);
    assert |Encode(p)| == |ints| + |entries| + |p.blob|;
    PutIntsFits(s, Widths(p.kind), p.ints);
    PutEntriesFits(s + ints, p.entries);
    Regroup(s, ints, entries, p.blob);
  }

  lemma Regroup(a: seq<Byte>, b: seq<Byte>, c: seq<Byte>, d: seq<Byte>)
    ensures ((a + b) + c) + d == a + (b + (c + d))
  {
  }

  // ---------------------------------------------------------------- the serializer

  /** The array a body announces fits its storage. */
  predicate FitsStorage(k: Kind, s: seq<Byte>) {
    var (ints, _) := TakeInts(s, Widths(k), DefaultInts(k));
    && (k.ScCharacterList? ==> Length(k, ints) <= MAX_SEND_COUNT_CHARACTER_DB_DATA)
    && (HasBlob(k) ==> Length(k, ints) <= MAX_ECHO_DATA_LENGTH)
  }

  /** `Oversized`: the body announces more than the packet's array holds, and the code, which does not
      check, would go on past its end. */
  datatype Received = Whole(packet: Packet) | Oversized

  class Serializer {
    const buffer: array<Byte>
    const forSend: bool
    var read: nat
    var write: nat
    var dataSize: nat

    ghost predicate ValidBuffer()
      reads this
    {
      && buffer.Length == MAX_PACKET_BUFFER_SIZE + 1
      && read + dataSize == write <= buffer.Length && dataSize <= MAX_PACKET_BUFFER_SIZE
    }

    /** Nothing has been read from a serializer made for sending. */
    ghost predicate Ready()
      reads this
    {
      ValidBuffer() && (forSend ==> read == 0)
    }

    ghost function Contents(): (r: seq<Byte>)
      requires ValidBuffer()
      reads this, buffer
      ensures |r| == dataSize
    {
      buffer[read..write]
    }

    constructor ForSend()
      ensures Ready() && fresh(buffer) && forSend && Contents() == []
    {
      buffer := new Byte[MAX_PACKET_BUFFER_SIZE + 1](_ => 0);
      forSend := true;
      read, write, dataSize := 0, 0, 0;
    }

    /** Takes a copy of a received body; one that does not fit is ignored. */
    constructor ForReceive(src: seq<Byte>)
      ensures Ready() && fresh(buffer) && !forSend && Contents() == Put([], src)
    {
      buffer := new Byte[MAX_PACKET_BUFFER_SIZE + 1](_ => 0);
      forSend := false;
      read, write, dataSize := 0, 0, 0;
      new;
      var _ := Write(src);
    }

    /** Appends what fits the free space, which has to be behind the write cursor: reading does not
        move the contents back to the front. */
    method Write(src: seq<Byte>) returns (r: int)
      requires ValidBuffer() && (dataSize + |src| <= MAX_PACKET_BUFFER_SIZE ==> write + |src| <= buffer.Length)
      modifies this`write, this`dataSize, buffer
      ensures ValidBuffer() && Contents() == Put(old(Contents()), src)
      ensures r == if old(dataSize) + |src| <= MAX_PACKET_BUFFER_SIZE then MAX_PACKET_BUFFER_SIZE - dataSize else -1
    {
      if MAX_PACKET_BUFFER_SIZE - dataSize < |src| {
        return -1;
      }
      forall i | 0 <= i < |src| {
        buffer[write + i] := src[i];
      }
      write := write + |src|;
      dataSize := dataSize + |src|;
      return MAX_PACKET_BUFFER_SIZE - dataSize;
    }

    method Read(n: nat) returns (ok: bool, dest: seq<Byte>)
      requires ValidBuffer()
      modifies this`read, this`dataSize
      ensures ValidBuffer() && (ok <==> n <= old(dataSize))
      ensures if ok then dest == old(Contents())[..n] && Contents() == old(Contents())[n..]
              else dest == [] && Contents() == old(Contents())
    {
      if dataSize < n {
        return false, [];
      }
      ghost var contents := Contents();
      dest := buffer[read..read + n];
      assert contents == dest + buffer[read + n..write];
      read := read + n;
      dataSize := dataSize - n;
      ok := true;
    }

    /** One integer member: appended when sending, if it fits; replaced when receiving, if it is there. */
    method Value(v: int, width: nat) returns (v': int)
      requires Ready()
      modifies this, buffer
      ensures Ready()
      ensures if forSend then v' == v && Contents() == Put(old(Contents()), IntBytes(v, width))
              else (v', Contents()) == TakeInt(old(Contents()), width, v)
    {
      v' := v;
      if forSend {
        var _ := Write(IntBytes(v, width));
      } else {
        var ok, bytes := Read(width);
        if ok {
          v' := IntFrom(bytes);
        }
      }
    }

    /** Consecutive integer members. */
    method Values(ints: seq<int>, widths: seq<nat>) returns (out: seq<int>)
      requires Ready() && |ints| == |widths|
      modifies this, buffer
      ensures Ready()
      ensures if forSend then out == ints && Contents() == PutInts(old(Contents()), widths, ints)
              else (out, Contents()) == TakeInts(old(Contents()), widths, ints)
      decreases |ints|
    {
      if ints == [] {
        out := [];
      } else {
        var v := Value(ints[0], widths[0]);
        var vs := Values(ints[1..], widths[1..]);
        out := [v] + vs;
      }
    }

    method SerializeEntry(e: Entry) returns (e': Entry)
      requires Ready()
      modifies this, buffer
      ensures Ready()
      ensures forSend ==> e' == e && Contents() == PutEntry(old(Contents()), e)
      ensures !forSend && e == NO_ENTRY ==> (e', Contents()) == TakeEntry(old(Contents()))
    {
      var token := Value(e.token, 8);
      var zone := Value(e.zone, 4);
      var x := Value(e.x, 4);
      var y := Value(e.y, 4);
      e' := Entry(token, zone, x, y);
    }

    /** The list's loop over its entries, of which a default packet has none to start with. */
    method SerializeEntries(entries: seq<Entry>, n: nat) returns (out: seq<Entry>)
      requires Ready() && (forSend ==> n == |entries|)
      modifies this, buffer
      ensures Ready()
      ensures if forSend then out == entries && Contents() == PutEntries(old(Contents()), entries)
              else (out, Contents()) == TakeEntries(old(Contents()), n)
      decreases n
    {
      if n == 0 {
        out := [];
      } else if forSend {
        var e := SerializeEntry(entries[0]);
        var es := SerializeEntries(entries[1..], n - 1);
        out := [e] + es;
        assert entries == [entries[0]] + entries[1..];
      } else {
        var e := SerializeEntry(NO_ENTRY);
        var es := SerializeEntries([], n - 1);
        out := [e] + es;
      }
    }

    /** `Serialize` of a packet, in its sending direction. */
    method Send(p: Packet)
      requires Ready() && forSend && Valid(p)
      modifies this, buffer
      ensures Ready() && Contents() == PutPacket(old(Contents()), p)
    {
      var _ := Values(p.ints, Widths(p.kind));
      var _ := SerializeEntries(p.entries, |p.entries|);
      var _ := Write(p.blob);
    }

    /** `Serialize` of a default packet of a kind, in its receiving direction. */
    method Receive(k: Kind) returns (r: Received)
      requires Ready() && !forSend
      modifies this, buffer
      ensures Ready() && (r.Oversized? <==> !FitsStorage(k, old(Contents())))
      ensures r.Whole? ==> (r.packet, Contents()) == Decode(k, old(Contents()))
    {
      var ints := Values(DefaultInts(k), Widths(k));
      var length := Length(k, ints);
      if k.ScCharacterList? && MAX_SEND_COUNT_CHARACTER_DB_DATA < length {
        return Oversized;
      }
      if HasBlob(k) && MAX_ECHO_DATA_LENGTH < length {
        return Oversized;
      }
      var entries, blob := ReceiveExtra(k, length);
      return Whole(Packet(k, ints, entries, blob));
    }

    /** What follows the integers: the entries of a list, or the data of an echo. */
    method ReceiveExtra(k: Kind, length: int) returns (entries: seq<Entry>, blob: seq<Byte>)
      requires Ready() && !forSend
      modifies this, buffer
      ensures Ready() && (entries, blob, Contents()) == TakeExtra(k, length, old(Contents()))
    {
      entries, blob := [], [];
      if k.ScCharacterList? {
        entries := SerializeEntries([], if length < 0 then 0 else length);
      } else if HasBlob(k) && length >= 0 {
        var ok, bytes := Read(length);
        blob := if ok then bytes else Zeros(length);
      }
    }
  }
}
