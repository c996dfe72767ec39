/** The bytes of every packet on the wire, written out member by member. */
module WireFormat {
  import opened Common
  import opened Bytes
  import opened Packets
  import opened EndToEnd

  const TWO32: int := 0x1_0000_0000

  /** A 32-bit and a 64-bit integer in two's complement, low-order byte first. */
  function Int32(v: int): seq<Byte> { FourBytes(v % TWO32) }

  function Int64(v: int): seq<Byte> { FourBytes(v % TWO32) + FourBytes(v / TWO32 % TWO32) }

  function EntryBytes(e: Entry): (r: seq<Byte>)
    ensures |r| == 20
  {
    Int64(e.token) + Int32(e.zone) + Int32(e.x) + Int32(e.y)
  }

  function EntriesBytes(entries: seq<Entry>): seq<Byte>
    decreases |entries|
  {
    if entries == [] then [] else EntryBytes(entries[0]) + EntriesBytes(entries[1..])
  }

  function TypeBytes(k: Kind): seq<Byte> {
    match k
    case CsAuth | ScAuthResult => [1, 0, 0, 0]
    case CsEnter | ScEnter => [2, 0, 0, 0]
    case CsLeave | ScCharacterList => [3, 0, 0, 0]
    case CsMove | ScLeave => [4, 0, 0, 0]
    case CsInteraction | ScMove => [5, 0, 0, 0]
    case CsHeartbeat | ScInteraction => [6, 0, 0, 0]
    case CsEcho | ScHeartbeat => [7, 0, 0, 0]
    case ScEcho => [8, 0, 0, 0]
  }

  /** The integer members in their order and widths; the last of a list or echo is the length of what
      follows it. */
  function MemberBytes(k: Kind, m: seq<int>): seq<Byte>
    requires |m| == |Widths(k)|
  {
    match k
    case CsAuth => Int32(m[0])
    case CsEnter => Int64(m[0])
    case CsLeave => Int64(m[0])
    case CsMove => Int32(m[0]) + Int32(m[1])
    case CsInteraction => Int64(m[0]) + Int32(m[1])
    case CsHeartbeat => []
    case CsEcho => Int32(m[0])
    case ScAuthResult => Int32(m[0]) + Int64(m[1])
    case ScEnter => Int64(m[0]) + (Int32(m[1]) + Int32(m[2]))
    case ScCharacterList => Int32(m[0])
    case ScLeave => Int64(m[0])
    case ScMove => Int64(m[0]) + (Int32(m[1]) + Int32(m[2]))
    case ScInteraction => Int64(m[0]) + (Int64(m[1]) + Int32(m[2]))
    case ScHeartbeat => []
    case ScEcho => Int64(m[0]) + Int32(m[1])
  }

  /** What travels between head and tail. */
  function Wire(p: Packet): seq<Byte>
    requires Valid(p)
  {
    TypeBytes(p.kind) + (MemberBytes(p.kind, p.ints) + (EntriesBytes(p.entries) + p.blob))
  }

  // ---------------------------------------------------------------- integers

  lemma PowerOf4()
    ensures Pow256(4) == TWO32 && Pow256(8) == TWO32 * TWO32
  {
    var two, four := 2, 4;
    assert Pow256(2) == 0x1_0000;
    assert Pow256(4) == 256 * (256 * Pow256(2));
    assert Pow256(6) == 256 * (256 * Pow256(4));
    assert Pow256(8) == 256 * (256 * Pow256(6));
  }

  lemma Wrapped(v: int, m: int)
    requires m > 0 && 0 - m <= v < m
    ensures v % m == if v >= 0 then v else v + m
  {
    if v < 0 { DivModUnique(v + m, m, 0, v + m); }
  }

  lemma IntBytes4(v: int)
    requires InRange(v, 4)
    ensures IntBytes(v, 4) == Int32(v)
  {
    PowerOf4();
    Wrapped(v, TWO32);
    FourBytesLittleEndian(v % TWO32);
  }

  lemma SplitInt64(v: int)
    requires 0 - TWO32 * TWO32 <= 2 * v < TWO32 * TWO32
    ensures var u := if v >= 0 then v else v + TWO32 * TWO32;
            u == v % TWO32 + TWO32 * (v / TWO32 % TWO32)
  {
    var h := v / TWO32;
    assert v == TWO32 * h + v % TWO32;
    assert 0 - TWO32 <= h < TWO32;
    Wrapped(h, TWO32);
  }

  lemma IntBytes8(v: int)
    requires InRange(v, 8)
    ensures IntBytes(v, 8) == Int64(v)
  {
    PowerOf4();
    SplitInt64(v);
    LittleEndianSplit(v % TWO32, v / TWO32 % TWO32, 4, 4);
    FourBytesLittleEndian(v % TWO32);
    FourBytesLittleEndian(v / TWO32 % TWO32);
  }

  lemma CodeBytes(n: nat)
    requires n < 128
    ensures IntBytes(n, 4) == [n as Byte, 0, 0, 0]
  {
    PowerOf4();
    IntBytes4(n);
  }

  // ---------------------------------------------------------------- members

  lemma EncodeOne(widths: seq<nat>, m: seq<int>)
    requires |m| == |widths| == 1
    ensures EncodeInts(widths, m) == IntBytes(m[0], widths[0])
  {
    assert m[1..] == [] && EncodeInts(widths[1..], m[1..]) == [];
  }

  lemma EncodeTwo(widths: seq<nat>, m: seq<int>)
    requires |m| == |widths| == 2
    ensures EncodeInts(widths, m) == IntBytes(m[0], widths[0]) + IntBytes(m[1], widths[1])
  {
    EncodeOne(widths[1..], m[1..]);
  }

  lemma EncodeThree(widths: seq<nat>, m: seq<int>)
    requires |m| == |widths| == 3
    ensures EncodeInts(widths, m) == IntBytes(m[0], widths[0]) + (IntBytes(m[1], widths[1]) + IntBytes(m[2], widths[2]))
  {
    EncodeTwo(widths[1..], m[1..]);
  }

  lemma EntryIsBytes(e: Entry)
    requires EntryInRange(e)
    ensures EncodeEntry(e) == EntryBytes(e)
  {
    IntBytes8(e.token);
    IntBytes4(e.zone);
    IntBytes4(e.x);
    IntBytes4(e.y);
  }

  lemma {:induction false} EntriesAreBytes(entries: seq<Entry>)
    requires forall e :: e in entries ==> EntryInRange(e)
    ensures EncodeEntries(entries) == EntriesBytes(entries)
    decreases |entries|
  {
    if entries != [] {
      assert entries[0] in entries && forall e :: e in entries[1..] ==> e in entries;
      EntryIsBytes(entries[0]);
      EntriesAreBytes(entries[1..]);
    }
  }

  lemma MembersAreBytes(k: Kind, m: seq<int>)
    requires AllInRange(Widths(k), m)
    ensures forall i :: 0 <= i < |m| ==>
              IntBytes(m[i], Widths(k)[i]) == if Widths(k)[i] == 8 then Int64(m[i]) else Int32(m[i])
  {
    forall i | 0 <= i < |m|
      ensures IntBytes(m[i], Widths(k)[i]) == if Widths(k)[i] == 8 then Int64(m[i]) else Int32(m[i])
    {
      assert Widths(k)[i] == 8 || Widths(k)[i] == 4;
      assert InRange(m[i], Widths(k)[i]);
      if Widths(k)[i] == 8 { IntBytes8(m[i]); } else { IntBytes4(m[i]); }
    }
  }

  lemma MembersJoined(k: Kind, m: seq<int>)
    requires AllInRange(Widths(k), m)
    ensures |m| == 0 ==> EncodeInts(Widths(k), m) == []
    ensures |m| == 1 ==> EncodeInts(Widths(k), m) == IntBytes(m[0], Widths(k)[0])
    ensures |m| == 2 ==> EncodeInts(Widths(k), m) == IntBytes(m[0], Widths(k)[0]) + IntBytes(m[1], Widths(k)[1])
    ensures |m| == 3 ==> EncodeInts(Widths(k), m)
                         == IntBytes(m[0], Widths(k)[0]) + (IntBytes(m[1], Widths(k)[1]) + IntBytes(m[2], Widths(k)[2]))
  {
    if |m| == 1 { EncodeOne(Widths(k), m); }
    if |m| == 2 { EncodeTwo(Widths(k), m); }
    if |m| == 3 { EncodeThree(Widths(k), m); }
  }

  lemma MembersAreWire(k: Kind, m: seq<int>)
    requires AllInRange(Widths(k), m)
    ensures EncodeInts(Widths(k), m) == MemberBytes(k, m)
  {
    MembersAreBytes(k, m);
    MembersJoined(k, m);
  }

  /** Every packet's body is exactly these bytes. */
  lemma BodyIsWire(p: Packet)
    requires Valid(p)
    ensures Body(p) == Wire(p)
  {
    CodeBytes(Code(p.kind));
    MembersAreWire(p.kind, p.ints);
    EntriesAreBytes(p.entries);
  }

  /** The handler tables: a body that opens with these four bytes goes to this packet's handler, and no
      other type number has one. */
  lemma TypesAreRegistered(side: Side, code: nat)
    ensures Registered(side, code).Some? <==> 1 <= code < TableSize(side)
    ensures TableSize(AtServer) == 8 && TableSize(AtClient) == 9
    ensures Registered(side, code).Some? ==>
              var k := Registered(side, code).value;
              TypeBytes(k) == [code as Byte, 0, 0, 0] && ReceivedBy(k) == side
  {
  }
}
