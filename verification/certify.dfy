/** The certify challenge: an XOR key, a 3-to-4 regrouping over permuted alphabets, and the answer. */
module Certify {
  import opened Common

  type Char = bv8
  type Key = bv32

  const MAX_STRING_LEN: nat := 60
  const MAX_CONVERT_BUFFER_LEN: nat := 80

  // ---------------------------------------------------------------- characters

  /** The four 6-bit groups of three characters. */
  function Group0(a: Char): Char { (a & 0xFC) >> 2 }
  function Group1(a: Char, b: Char): Char { ((a & 0x03) << 4) | ((b & 0xF0) >> 4) }
  function Group2(b: Char, c: Char): Char { ((b & 0x0F) << 2) | ((c & 0xC0) >> 6) }
  function Group3(c: Char): Char { c & 0x3F }

  /** Right shift of a signed character, cut back to eight bits. */
  function ShiftRight(x: Char, n: Char): Char
    requires n <= 8
  {
    (x >> n) | (if x >= 0x80 then !(0xFF >> n) else 0)
  }

  function Join0(e0: Char, e1: Char): Char { (e0 << 2) | ShiftRight(e1, 4) }
  function Join1(e1: Char, e2: Char): Char { (e1 << 4) | ShiftRight(e2, 2) }
  function Join2(e2: Char, e3: Char): Char { (e2 << 6) | e3 }

  lemma JoinGroups(a: Char, b: Char, c: Char)
    ensures Group0(a) < 64 && Group1(a, b) < 64 && Group2(b, c) < 64 && Group3(c) < 64
    ensures Join0(Group0(a), Group1(a, b)) == a
    ensures Join1(Group1(a, b), Group2(b, c)) == b
    ensures Join2(Group2(b, c), Group3(c)) == c
  {
  }

  function Xor(a: Char, b: Char): Char { a ^ b }

  lemma XorTwice(a: Char, b: Char)
    ensures Xor(Xor(a, b), b) == a
  {
  }

  // ---------------------------------------------------------------- alphabets

  /** Sixty-four characters, no two the same. */
  ghost predicate Alphabet(table: seq<Char>) {
    |table| == 64 && forall i, j :: 0 <= i < j < 64 ==> table[i] != table[j]
  }

  function CharAt(table: seq<Char>, e: Char): Char
    requires |table| == 64 && e < 64
  {
    table[e as int]
  }

  /** The position of a character, from `k` on; a character that is not there stands for itself. */
  function PositionFrom(table: seq<Char>, c: Char, k: nat): Char
    requires |table| == 64 && k <= 64
    decreases 64 - k
  {
    if k == 64 then c else if c == table[k] then k as Char else PositionFrom(table, c, k + 1)
  }

  lemma {:induction false} PositionFound(table: seq<Char>, e: Char, k: nat)
    requires Alphabet(table) && e < 64 && k <= e as int
    ensures PositionFrom(table, CharAt(table, e), k) == e
    decreases e as int - k
  {
    if k < e as int {
      PositionFound(table, e, k + 1);
    } else {
      CharInt(e);
    }
  }

  lemma CharInt(e: Char)
    ensures (e as int) as Char == e
  {
  }

  /** The lookup loop. */
  method Position(table: seq<Char>, c: Char) returns (r: Char)
    requires |table| == 64
    ensures r == PositionFrom(table, c, 0)
  {
    var k := 0;
    while k < 64
      invariant 0 <= k <= 64 && PositionFrom(table, c, 0) == PositionFrom(table, c, k)
    {
      if c == table[k] {
        return k as Char;
      }
      k := k + 1;
    }
    return c;
  }

  // ---------------------------------------------------------------- whole buffers

  function ConvertedThree(table: seq<Char>, a: Char, b: Char, c: Char): (r: seq<Char>)
    requires |table| == 64
    ensures |r| == 4
  {
    JoinGroups(a, b, c);
    [CharAt(table, Group0(a)), CharAt(table, Group1(a, b)), CharAt(table, Group2(b, c)), CharAt(table, Group3(c))]
  }

  function Converted(table: seq<Char>, s: seq<Char>): (r: seq<Char>)
    requires |table| == 64 && |s| % 3 == 0
    ensures |r| == |s| / 3 * 4
    decreases |s|
  {
    if |s| < 3 then [] else ConvertedThree(table, s[0], s[1], s[2]) + Converted(table, s[3..])
  }

  function RecoveredFour(table: seq<Char>, w: Char, x: Char, y: Char, z: Char): (r: seq<Char>)
    requires |table| == 64
    ensures |r| == 3
  {
    var e0, e1, e2, e3 := PositionFrom(table, w, 0), PositionFrom(table, x, 0), PositionFrom(table, y, 0), PositionFrom(table, z, 0);
    [Join0(e0, e1), Join1(e1, e2), Join2(e2, e3)]
  }

  function Recovered(table: seq<Char>, s: seq<Char>): (r: seq<Char>)
    requires |table| == 64 && |s| % 4 == 0
    ensures |r| == |s| / 4 * 3
    decreases |s|
  {
    if |s| < 4 then [] else RecoveredFour(table, s[0], s[1], s[2], s[3]) + Recovered(table, s[4..])
  }

  lemma RecoverThree(table: seq<Char>, a: Char, b: Char, c: Char)
    requires Alphabet(table)
    ensures var r := ConvertedThree(table, a, b, c); RecoveredFour(table, r[0], r[1], r[2], r[3]) == [a, b, c]
  {
    JoinGroups(a, b, c);
    PositionFound(table, Group0(a), 0);
    PositionFound(table, Group1(a, b), 0);
    PositionFound(table, Group2(b, c), 0);
    PositionFound(table, Group3(c), 0);
  }

  lemma RecoveredFirst(table: seq<Char>, four: seq<Char>, tail: seq<Char>)
    requires |table| == 64 && |four| == 4 && |tail| % 4 == 0
    ensures Recovered(table, four + tail) == RecoveredFour(table, four[0], four[1], four[2], four[3]) + Recovered(table, tail)
  {
    assert (four + tail)[4..] == tail;
  }

  /** Recovering undoes converting, over every alphabet and for every string of whole groups. */
  lemma {:induction false} RecoverUndoesConvert(table: seq<Char>, s: seq<Char>)
    requires Alphabet(table) && |s| % 3 == 0
    ensures Recovered(table, Converted(table, s)) == s
    decreases |s|
  {
    if |s| >= 3 {
      var head, tail := ConvertedThree(table, s[0], s[1], s[2]), Converted(table, s[3..]);
      RecoverThree(table, s[0], s[1], s[2]);
      RecoverUndoesConvert(table, s[3..]);
      RecoveredFirst(table, head, tail);
      assert s == [s[0], s[1], s[2]] + s[3..];
    }
  }

  // ---------------------------------------------------------------- what the conversion writes

  /** Twenty-four bits, from three characters and from four 6-bit groups, high-order first. */
  function Bits24(a: Char, b: Char, c: Char): Key { ((a as Key) << 16) | ((b as Key) << 8) | (c as Key) }

  function Bits6666(e0: Char, e1: Char, e2: Char, e3: Char): Key {
    ((e0 as Key) << 18) | ((e1 as Key) << 12) | ((e2 as Key) << 6) | (e3 as Key)
  }

  lemma SameBits(a: Char, b: Char, c: Char)
    ensures Bits6666(Group0(a), Group1(a, b), Group2(b, c), Group3(c)) == Bits24(a, b, c)
  {
  }

  lemma SliceBehind(head: seq<Char>, tail: seq<Char>, k: nat)
    requires |head| == 4 && k + 4 <= |tail|
    ensures (head + tail)[4 + k..4 + k + 4] == tail[k..k + 4]
  {
  }

  lemma {:induction false} ConvertedAt(table: seq<Char>, s: seq<Char>, g: nat)
    requires |table| == 64 && |s| % 3 == 0 && 3 * g + 3 <= |s|
    ensures Converted(table, s)[4 * g..4 * g + 4] == ConvertedThree(table, s[3 * g], s[3 * g + 1], s[3 * g + 2])
    decreases g
  {
    if g > 0 {
      var head, tail := ConvertedThree(table, s[0], s[1], s[2]), Converted(table, s[3..]);
      ConvertedAt(table, s[3..], g - 1);
      SliceBehind(head, tail, 4 * (g - 1));
    }
  }

  /** The four characters written for group `g` are the alphabet's characters at positions that spell, six
      bits each, the twenty-four bits of its three characters. */
  lemma ConvertedSpells(table: seq<Char>, s: seq<Char>, g: nat)
    requires Alphabet(table) && |s| % 3 == 0 && 3 * g + 3 <= |s|
    ensures var r := Converted(table, s);
            && 4 * g + 4 <= |r|
            && Bits6666(PositionFrom(table, r[4 * g], 0), PositionFrom(table, r[4 * g + 1], 0),
                        PositionFrom(table, r[4 * g + 2], 0), PositionFrom(table, r[4 * g + 3], 0))
               == Bits24(s[3 * g], s[3 * g + 1], s[3 * g + 2])
  {
    var a, b, c := s[3 * g], s[3 * g + 1], s[3 * g + 2];
    var r := Converted(table, s);
    ConvertedAt(table, s, g);
    var four := r[4 * g..4 * g + 4];
    assert r[4 * g] == four[0] && r[4 * g + 1] == four[1] && r[4 * g + 2] == four[2] && r[4 * g + 3] == four[3];
    ThreeSpells(table, a, b, c);
  }

  lemma ThreeSpells(table: seq<Char>, a: Char, b: Char, c: Char)
    requires Alphabet(table)
    ensures var four := ConvertedThree(table, a, b, c);
            Bits6666(PositionFrom(table, four[0], 0), PositionFrom(table, four[1], 0),
                     PositionFrom(table, four[2], 0), PositionFrom(table, four[3], 0)) == Bits24(a, b, c)
  {
    JoinGroups(a, b, c);
    PositionFound(table, Group0(a), 0);
    PositionFound(table, Group1(a, b), 0);
    PositionFound(table, Group2(b, c), 0);
    PositionFound(table, Group3(c), 0);
    SameBits(a, b, c);
  }

  // ---------------------------------------------------------------- the key

  function KeyByte(key: Key, j: nat): Char {
    match j
    case 0 => (key & 0xFF) as Char
    case 1 => ((key >> 8) & 0xFF) as Char
    case 2 => ((key >> 16) & 0xFF) as Char
    case _ => ((key >> 24) & 0xFF) as Char
  }

  /** A character under byte `j` of the key. */
  function Masked(c: Char, key: Key, j: nat): Char { Xor(c, KeyByte(key, j)) }

  /** The key's four bytes, low-order first, over and over. */
  function Xored(s: seq<Char>, key: Key): (r: seq<Char>)
    ensures |r| == |s|
    ensures forall i :: 0 <= i < |s| ==> r[i] == Masked(s[i], key, i % 4)
  {
    seq(|s|, i requires 0 <= i < |s| => Masked(s[i], key, i % 4))
  }

  lemma XoredAt(s: seq<Char>, key: Key, offset: nat, j: nat)
    requires offset % 4 == 0 && j < 4 && offset + j < |s|
    ensures Xored(s, key)[offset + j] == Masked(s[offset + j], key, j)
  {
    assert (offset + j) % 4 == j;
  }

  /** Encryption is its own inverse. */
  lemma XoredTwice(s: seq<Char>, key: Key)
    ensures Xored(Xored(s, key), key) == s
  {
    forall i | 0 <= i < |s| ensures Xored(Xored(s, key), key)[i] == s[i] {
      XorTwice(s[i], KeyByte(key, i % 4));
    }
  }

  lemma XoredPrefix(s: seq<Char>, key: Key, n: nat)
    requires n <= |s|
    ensures Xored(s, key)[..n] == Xored(s[..n], key)
  {
  }

  /** Four characters as the 32-bit word they are in memory. */
  function Word(a: Char, b: Char, c: Char, d: Char): Key {
    (a as Key) | ((b as Key) << 8) | ((c as Key) << 16) | ((d as Key) << 24)
  }

  function WordAt(s: seq<Char>, g: nat): Key
    requires 4 * g + 4 <= |s|
  {
    Word(s[4 * g], s[4 * g + 1], s[4 * g + 2], s[4 * g + 3])
  }

  function XorWords(x: Key, y: Key): Key { x ^ y }

  lemma MaskedWord(a: Char, b: Char, c: Char, d: Char, key: Key)
    ensures Word(Masked(a, key, 0), Masked(b, key, 1), Masked(c, key, 2), Masked(d, key, 3)) == XorWords(Word(a, b, c, d), key)
  {
  }

  /** Encryption is the key XORed into every 32-bit word of the buffer. */
  lemma EncryptedWords(s: seq<Char>, key: Key, g: nat)
    requires 4 * g + 4 <= |s|
    ensures WordAt(Xored(s, key), g) == XorWords(WordAt(s, g), key)
  {
    XoredAt(s, key, 4 * g, 0);
    XoredAt(s, key, 4 * g, 1);
    XoredAt(s, key, 4 * g, 2);
    XoredAt(s, key, 4 * g, 3);
    MaskedWord(s[4 * g], s[4 * g + 1], s[4 * g + 2], s[4 * g + 3], key);
  }

  lemma XorCancels(x: Key, k: Key, k': Key)
    ensures XorWords(x, k) == XorWords(x, k') <==> k == k'
  {
  }

  // ---------------------------------------------------------------- the certify strings

  const DIGITS: seq<Char> := [0x30, 0x31, 0x32, 0x33, 0x34, 0x35, 0x36, 0x37, 0x38, 0x39]

  function DigitChar(d: nat): (r: Char)
    ensures r != 0
  {
    match d
    case 0 => 0x30
    case 1 => 0x31
    case 2 => 0x32
    case 3 => 0x33
    case 4 => 0x34
    case 5 => 0x35
    case 6 => 0x36
    case 7 => 0x37
    case 8 => 0x38
    case _ => 0x39
  }

  /** The sixty digits of certify string `index`, starting with the digit after it. */
  function CertifyString(index: nat): (r: seq<Char>)
    ensures |r| == MAX_STRING_LEN
  {
    seq(MAX_STRING_LEN, i requires 0 <= i => DigitChar((index + 1 + i) % 10))
  }

  /** String `index` counts up through the ten digits, from the one after `index`. */
  lemma StringCounts(index: nat, i: nat)
    requires i < MAX_STRING_LEN
    ensures CertifyString(index)[i] == DIGITS[(index + 1 + i) % 10]
  {
    DigitChars((index + 1 + i) % 10);
  }

  lemma DigitChars(d: nat)
    requires d < 10
    ensures DigitChar(d) == DIGITS[d]
  {
  }

  lemma NoTerminator(index: nat)
    ensures forall i :: 0 <= i < MAX_STRING_LEN ==> CertifyString(index)[i] != 0
  {
    forall i | 0 <= i < MAX_STRING_LEN ensures CertifyString(index)[i] != 0 {
      assert CertifyString(index)[i] == DigitChar((index + 1 + i) % 10);
    }
  }

  /** `strncmp(...) == 0`: the same up to `n` characters or a common terminator. */
  function SameText(a: seq<Char>, b: seq<Char>, n: nat): bool
    requires n <= |a| && n <= |b|
    decreases n
  {
    n == 0 || (a[0] == b[0] && (a[0] == 0 || SameText(a[1..], b[1..], n - 1)))
  }

  lemma {:induction false} SameTextIsEqual(a: seq<Char>, b: seq<Char>, n: nat)
    requires n <= |a| && n <= |b| && forall i :: 0 <= i < n ==> b[i] != 0
    ensures SameText(a, b, n) <==> a[..n] == b[..n]
    decreases n
  {
    if n > 0 {
      SameTextIsEqual(a[1..], b[1..], n - 1);
      assert a[..n] == [a[0]] + a[1..][..n - 1];
      assert b[..n] == [b[0]] + b[1..][..n - 1];
    }
  }

  /** The answer the server accepts to the challenge it made. */
  function Answer(index: nat, key: Key): (r: seq<Char>)
    ensures |r| == MAX_STRING_LEN
  {
    Xored(CertifyString(index), key)
  }

  /** Different keys have different answers. */
  lemma AnswerTellsKey(index: nat, key: Key, key': Key)
    ensures Answer(index, key) == Answer(index, key') <==> key == key'
  {
    var s := CertifyString(index);
    EncryptedWords(s, key, 0);
    EncryptedWords(s, key', 0);
    XorCancels(WordAt(s, 0), key, key');
  }

  lemma AnswerIff(data: seq<Char>, index: nat, key: Key)
    requires |data| >= MAX_STRING_LEN
    ensures Xored(data, key)[..MAX_STRING_LEN] == CertifyString(index) <==> data[..MAX_STRING_LEN] == Answer(index, key)
  {
    XoredPrefix(data, key, MAX_STRING_LEN);
    XoredTwice(data[..MAX_STRING_LEN], key);
    XoredTwice(CertifyString(index), key);
  }

  /** The comparison succeeds on the right answers only. */
  lemma AcceptsAnswer(data: seq<Char>, index: nat, key: Key)
    requires |data| >= MAX_STRING_LEN
    ensures SameText(Xored(data, key), CertifyString(index), MAX_STRING_LEN)
            <==> data[..MAX_STRING_LEN] == Answer(index, key)
  {
    var reference := CertifyString(index);
    AnswerIff(data, index, key);
    NoTerminator(index);
    SameTextIsEqual(Xored(data, key), reference, MAX_STRING_LEN);
    assert reference[..MAX_STRING_LEN] == reference;
  }

  /** The answer to a challenge made with one key is refused by a challenge made with another. */
  lemma WrongKeyRefused(data: seq<Char>, index: nat, key: Key, key': Key)
    requires |data| >= MAX_STRING_LEN && data[..MAX_STRING_LEN] == Answer(index, key)
    ensures SameText(Xored(data, key'), CertifyString(index), MAX_STRING_LEN) <==> key == key'
  {
    AcceptsAnswer(data, index, key');
    AnswerTellsKey(index, key, key');
  }

  // ---------------------------------------------------------------- the object

  class CertifyData {
    var stringIndex: nat
    var convertTableId: nat
    var checkCount: int
    var encKey: Key
    const text: array<Char>

    ghost predicate Valid() {
      text.Length == MAX_CONVERT_BUFFER_LEN + 1
    }

    constructor ()
      ensures Valid() && fresh(text) && checkCount == 0
    {
      stringIndex, convertTableId, checkCount, encKey := 0, 0, 0, 0;
      text := new Char[MAX_CONVERT_BUFFER_LEN + 1](_ => 0);
    }

    method Store(src: seq<Char>)
      requires Valid() && |src| <= text.Length
      modifies text
      ensures text[..|src|] == src && text[|src|..] == old(text[|src|..])
    {
      forall i | 0 <= i < |src| {
        text[i] := src[i];
      }
    }

    method SetString(random: nat)
      requires Valid() && random < 10
      modifies this`stringIndex, text
      ensures stringIndex == random && text[..MAX_STRING_LEN] == CertifyString(random)
    {
      Store(CertifyString(random));
      text[MAX_STRING_LEN] := 0;
      stringIndex := random;
    }

    /** XORs the key into the buffer four bytes at a time; `Decrypt` is the same. */
    method Encrypt(key: Key)
      requires Valid()
      modifies text
      ensures text[..MAX_CONVERT_BUFFER_LEN] == Xored(old(text[..MAX_CONVERT_BUFFER_LEN]), key)
    {
      ghost var before := text[..MAX_CONVERT_BUFFER_LEN];
      ghost var after := Xored(before, key);
      var offset := 0;
      while offset < MAX_CONVERT_BUFFER_LEN
        invariant 0 <= offset <= MAX_CONVERT_BUFFER_LEN && offset % 4 == 0
        invariant forall i :: 0 <= i < offset ==> text[i] == after[i]
        invariant forall i :: offset <= i < MAX_CONVERT_BUFFER_LEN ==> text[i] == before[i]
      {
        XorWord(offset, key, before, after);
        offset := offset + 4;
      }
    }

    method XorWord(offset: nat, key: Key, ghost before: seq<Char>, ghost after: seq<Char>)
      requires Valid() && offset % 4 == 0 && offset + 4 <= MAX_CONVERT_BUFFER_LEN == |before|
      requires after == Xored(before, key)
      requires forall i :: offset <= i < offset + 4 ==> text[i] == before[i]
      modifies text
      ensures forall i :: 0 <= i < text.Length && !(offset <= i < offset + 4) ==> text[i] == old(text[i])
      ensures forall i :: offset <= i < offset + 4 ==> text[i] == after[i]
    {
      for j := 0 to 4
        invariant forall i :: 0 <= i < text.Length && !(offset <= i < offset + j) ==> text[i] == old(text[i])
        invariant forall i :: offset <= i < offset + j ==> text[i] == after[i]
      {
        XoredAt(before, key, offset, j);
        text[offset + j] := Masked(text[offset + j], key, j);
      }
    }

    method Convert(tableId: nat, table: seq<Char>)
      requires Valid() && |table| == 64
      modifies this`convertTableId, text
      ensures text[..MAX_CONVERT_BUFFER_LEN] == Converted(table, old(text[..MAX_STRING_LEN]))
      ensures convertTableId == tableId
    {
      var enc := ConvertAll(table, text[..MAX_STRING_LEN]);
      Store(enc);
      convertTableId := tableId;
    }

    /** Makes a challenge; the count of open challenges goes up. A zero key stands for a random one. */
    method MakeCertifyData(key: Key, randomKey: Key, randomString: nat, randomTable: nat, tables: seq<seq<Char>>)
      returns (tableId: nat)
      requires Valid() && randomString < 10 && randomTable < |tables| && |tables[randomTable]| == 64
      modifies this, text
      ensures tableId == convertTableId == randomTable && stringIndex == randomString
      ensures encKey == (if key == 0 then randomKey else key) && checkCount == old(checkCount) + 1
      ensures text[..MAX_CONVERT_BUFFER_LEN] == Converted(tables[randomTable], Answer(stringIndex, encKey))
    {
      var k := if key == 0 then randomKey else key;
      SetString(randomString);
      encKey := k;
      ghost var buffer := text[..MAX_CONVERT_BUFFER_LEN];
      assert buffer[..MAX_STRING_LEN] == CertifyString(randomString);
      Encrypt(k);
      XoredPrefix(buffer, k, MAX_STRING_LEN);
      assert text[..MAX_STRING_LEN] == text[..MAX_CONVERT_BUFFER_LEN][..MAX_STRING_LEN];
      Convert(randomTable, tables[randomTable]);
      checkCount := checkCount + 1;
      return convertTableId;
    }

    /** Accepts exactly the answers whose first sixty characters are right, and then closes the challenge. */
    method CheckCertifyData(data: seq<Char>) returns (ok: bool)
      requires Valid() && |data| == MAX_CONVERT_BUFFER_LEN
      modifies this`checkCount, text
      ensures ok <==> data[..MAX_STRING_LEN] == Answer(stringIndex, encKey)
      ensures checkCount == if ok then old(checkCount) - 1 else old(checkCount)
    {
      Store(data);
      Encrypt(encKey);
      var reference := CertifyString(stringIndex);
      var got := text[..MAX_CONVERT_BUFFER_LEN];
      AcceptsAnswer(data, stringIndex, encKey);
      if !SameText(got, reference, MAX_STRING_LEN) {
        return false;
      }
      checkCount := checkCount - 1;
      return true;
    }
  }

  /** The group-by-group loops of `Convert` and `Recover`. */
  method ConvertAll(table: seq<Char>, s: seq<Char>) returns (enc: seq<Char>)
    requires |table| == 64 && |s| % 3 == 0
    ensures enc == Converted(table, s)
  {
    enc := [];
    var rest := s;
    while |rest| > 0
      invariant |rest| % 3 == 0 && enc + Converted(table, rest) == Converted(table, s)
      decreases |rest|
    {
      var four := ConvertedThree(table, rest[0], rest[1], rest[2]);
      Assoc(enc, four, Converted(table, rest[3..]));
      enc := enc + four;
      rest := rest[3..];
    }
    assert enc + [] == enc;
  }

  method RecoverAll(table: seq<Char>, s: seq<Char>) returns (dec: seq<Char>)
    requires |table| == 64 && |s| % 4 == 0
    ensures dec == Recovered(table, s)
  {
    dec := [];
    var rest := s;
    while |rest| > 0
      invariant |rest| % 4 == 0 && dec + Recovered(table, rest) == Recovered(table, s)
      decreases |rest|
    {
      var three := RecoverFour(table, rest[0], rest[1], rest[2], rest[3]);
      Assoc(dec, three, Recovered(table, rest[4..]));
      dec := dec + three;
      rest := rest[4..];
    }
    assert dec + [] == dec;
  }

  method RecoverFour(table: seq<Char>, w: Char, x: Char, y: Char, z: Char) returns (r: seq<Char>)
    requires |table| == 64
    ensures r == RecoveredFour(table, w, x, y, z)
  {
    var e0 := Position(table, w);
    var e1 := Position(table, x);
    var e2 := Position(table, y);
    var e3 := Position(table, z);
    r := [Join0(e0, e1), Join1(e1, e2), Join2(e2, e3)];
  }

  /** The recovery loop, in place on the caller's 80 characters; `Recover` of the object is the same. */
  method CertifyDataRecover(table: seq<Char>, data: array<Char>)
    requires |table| == 64 && data.Length == MAX_CONVERT_BUFFER_LEN
    modifies data
    ensures data[..MAX_STRING_LEN] == Recovered(table, old(data[..]))
    ensures forall i :: MAX_STRING_LEN <= i < MAX_CONVERT_BUFFER_LEN ==> data[i] == 0
  {
    var dec := RecoverAll(table, data[..]);
    forall i | 0 <= i < MAX_CONVERT_BUFFER_LEN {
      data[i] := if i < MAX_STRING_LEN then dec[i] else 0;
    }
  }

  method ClientAnswer(table: seq<Char>, challenge: seq<Char>) returns (answer: seq<Char>)
    requires |table| == 64 && |challenge| == MAX_CONVERT_BUFFER_LEN
    ensures |answer| == MAX_CONVERT_BUFFER_LEN && answer[..MAX_STRING_LEN] == Recovered(table, challenge)
  {
    var data := new Char[MAX_CONVERT_BUFFER_LEN](i requires 0 <= i < MAX_CONVERT_BUFFER_LEN => challenge[i]);
    assert data[..] == challenge;
    CertifyDataRecover(table, data);
    answer := data[..];
    assert answer[..MAX_STRING_LEN] == data[..MAX_STRING_LEN];
  }

  /** The whole exchange: for every key, random choices and tables of distinct characters, what the
      client recovers from the challenge is accepted, and the count of open challenges is as before. */
  method ChallengeResponse(server: CertifyData, key: Key, randomKey: Key, randomString: nat, randomTable: nat,
                           tables: seq<seq<Char>>) returns (ok: bool)
    requires server.Valid() && randomString < 10 && randomTable < |tables| && Alphabet(tables[randomTable])
    modifies server, server.text
    ensures ok && server.checkCount == old(server.checkCount)
  {
    var id := server.MakeCertifyData(key, randomKey, randomString, randomTable, tables);
    ghost var answer := Answer(server.stringIndex, server.encKey);
    RecoverUndoesConvert(tables[id], answer);
    var data := ClientAnswer(tables[id], server.text[..MAX_CONVERT_BUFFER_LEN]);
    ok := server.CheckCertifyData(data);
  }
}
