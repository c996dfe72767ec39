/** The ten conversion tables, and the fact that each is an alphabet. */
module CertifyTables {
  import opened Common
  import opened Certify

  /** The tables, eight characters at a time. */
  function Table(id: nat): (r: string)
    ensures |r| == 64
  {
    if id < 5 then LowTable(id) else HighTable(id)
  }

  function LowTable(id: nat): (r: string)
    ensures |r| == 64
  {
    match id
    case 0 => "AKSBC+Z3" + "a69psMDg" + "wyxoiXLH" + "htn7cuTI" + "mdEYObrF" + "z58JGlWV" + "Ufk40eNP" + "QvqRj/12"
    case 1 => "Mv0oVS+P" + "TjdzZEAr" + "3eBf7lsO" + "hIHGCgn4" + "DFJkK/1L" + "btWNQmRy" + "5xcqi9Uu" + "wYXap826"
    case 2 => "8fnXUH+C" + "yMvGQeAw" + "xhcrBLSW" + "DTk1aE47" + "z3q2sIbF" + "5NliJ6pP" + "uKZOgjR/" + "Vt0Ydom9"
    case 3 => "Yq43A/PS" + "7tDOedBJ" + "0oVxZbun" + "CFE+kGyr" + "w5WIjpUH" + "QhlTKgsv" + "iaL2cRM6" + "z9fNXm18"
    case _ => "8qvxAb3V" + "N07Ph2Bd" + "fsCDXoU1" + "gTyu6jE/" + "FpmKGRlH" + "r4YeILZ+" + "iW5atzJn" + "cSMOQkw9"
  }

  function HighTable(id: nat): (r: string)
    ensures |r| == 64
  {
    match id
    case 5 => "oWCUsSF2" + "Zkqjz8Al" + "7edBcLr6" + "gxmvIQGH" + "hyu9RKDE" + "4MJbN+Tf" + "Y0t1aOPX" + "V/3inpw5"
    case 6 => "c26aq0o4" + "Mhfp1SAK" + "knJizlH5" + "BNGECDr3" + "YvF+b7QI" + "T8ULOxdy" + "jZ9mtPR/" + "VguWXesw"
    case 7 => "8+KzAhxB" + "PjNrLYCQ" + "25HlRmwI" + "gqpOJDvo" + "fbZ1dsWE" + "FXeSGnta" + "y4kc60MU" + "Ti3Vu97/"
    case 8 => "k5+qA/Lr" + "BuXQGxCJ" + "1KyD6aYR" + "EgNFPnMV" + "40Hzm72I" + "OswUS9ei" + "tocpl3Tv" + "fbjWZdh8"
    case _ => "UtwSq/r6" + "eFyKpxAa" + "v+5HQkcN" + "BRfMoJI8" + "h3XnLmCD" + "ZsgPEbT1" + "2z0dulGW" + "jiYOV479"
  }

  predicate TableChar(c: char) {
    'A' <= c <= 'Z' || 'a' <= c <= 'z' || '0' <= c <= '9' || c == '+' || c == '/'
  }

  // ---------------------------------------------------------------- every character is there

  lemma Covers0(c: char)
    requires TableChar(c)
    ensures c in Table(0)
  {
  }

  lemma Covers1(c: char)
    requires TableChar(c)
    ensures c in Table(1)
  {
  }

  lemma Covers2(c: char)
    requires TableChar(c)
    ensures c in Table(2)
  {
  }

  lemma Covers3(c: char)
    requires TableChar(c)
    ensures c in Table(3)
  {
  }

  lemma Covers4(c: char)
    requires TableChar(c)
    ensures c in Table(4)
  {
  }

  lemma Covers5(c: char)
    requires TableChar(c)
    ensures c in Table(5)
  {
  }

  lemma Covers6(c: char)
    requires TableChar(c)
    ensures c in Table(6)
  {
  }

  lemma Covers7(c: char)
    requires TableChar(c)
    ensures c in Table(7)
  {
  }

  lemma Covers8(c: char)
    requires TableChar(c)
    ensures c in Table(8)
  {
  }

  lemma Covers9(c: char)
    requires TableChar(c)
    ensures c in Table(9)
  {
  }

  lemma Covers(id: nat, c: char)
    requires TableChar(c) && id < 10
    ensures c in Table(id)
  {
    match id
    case 0 => Covers0(c);
    case 1 => Covers1(c);
    case 2 => Covers2(c);
    case 3 => Covers3(c);
    case 4 => Covers4(c);
    case 5 => Covers5(c);
    case 6 => Covers6(c);
    case 7 => Covers7(c);
    case 8 => Covers8(c);
    case _ => Covers9(c);
  }

  // ---------------------------------------------------------------- hence none is there twice

  ghost function Elements<T(!new)>(s: seq<T>): (r: set<T>)
    ensures |r| <= |s| && forall x :: x in r <==> x in s
  {
    if s == [] then {} else Elements(s[..|s| - 1]) + {s[|s| - 1]}
  }

  /** A sequence no longer than a set all of which it contains has no repetition, and nothing else. */
  lemma NoneTwice<T(!new)>(s: seq<T>, all: set<T>)
    requires |s| == |all| && forall x :: x in all ==> x in s
    ensures forall i, j :: 0 <= i < j < |s| ==> s[i] != s[j]
    ensures forall x :: x in s ==> x in all
  {
    SubsetSize(all, Elements(s));
    forall i, j | 0 <= i < j < |s| ensures s[i] != s[j] {
      if s[i] == s[j] {
        Skip(s, i, j);
        SubsetSize(all, Elements(s[..j] + s[j + 1..]));
        assert false;
      }
    }
  }

  lemma Skip<T(!new)>(s: seq<T>, i: nat, j: nat)
    requires i < j < |s| && s[i] == s[j]
    ensures forall x :: x in s ==> x in s[..j] + s[j + 1..]
  {
    var t := s[..j] + s[j + 1..];
    forall x | x in s ensures x in t {
      var k :| 0 <= k < |s| && s[k] == x;
      if k < j { assert t[k] == x; } else if k == j { assert t[i] == x; } else { assert t[k - 1] == x; }
    }
  }

  predicate Within(c: char, low: nat, n: nat) { low <= c as int < low + n }

  function Range(low: nat, n: nat): set<char> {
    set c: char | Within(c, low, n)
  }

  lemma {:induction false} RangeSize(low: nat, n: nat)
    requires low + n <= 128
    ensures |Range(low, n)| == n
  {
    if n == 0 {
      assert Range(low, 0) == {};
    } else {
      RangeSize(low, n - 1);
      assert Range(low, n) == Range(low, n - 1) + {(low + n - 1) as char};
    }
  }

  lemma DisjointSize<T>(x: set<T>, y: set<T>)
    requires x !! y
    ensures |x + y| == |x| + |y|
  {
  }

  ghost function TableChars(): (r: set<char>)
    ensures |r| == 64 && forall c :: c in r <==> TableChar(c)
  {
    RangeSize(65, 26);
    RangeSize(97, 26);
    RangeSize(48, 10);
    DisjointSize(Range(65, 26), Range(97, 26));
    DisjointSize(Range(65, 26) + Range(97, 26), Range(48, 10));
    DisjointSize(Range(65, 26) + Range(97, 26) + Range(48, 10), {'+', '/'});
    Range(65, 26) + Range(97, 26) + Range(48, 10) + {'+', '/'}
  }

  lemma DistinctIfCovering(table: string)
    requires |table| == 64 && forall c :: TableChar(c) ==> c in table
    ensures forall i, j :: 0 <= i < j < 64 ==> table[i] != table[j]
    ensures forall i :: 0 <= i < 64 ==> TableChar(table[i])
  {
    NoneTwice(table, TableChars());
    assert forall i :: 0 <= i < 64 ==> table[i] in table;
  }

  lemma TableDistinct(id: nat)
    requires id < 10
    ensures forall i, j :: 0 <= i < j < 64 ==> Table(id)[i] != Table(id)[j]
    ensures forall i :: 0 <= i < 64 ==> TableChar(Table(id)[i])
  {
    var table := Table(id);
    forall c | TableChar(c) ensures c in table { Covers(id, c); }
    DistinctIfCovering(table);
  }

  // ---------------------------------------------------------------- as the codec uses them

  lemma OneUp(b: Char)
    requires b < 255
    ensures (b + 1) as int == b as int + 1
  {
  }

  /** The character with a code. */
  function Code(n: nat): (r: Char)
    requires n < 128
    ensures r as int == n
  {
    if n == 0 then 0
    else
      var b := Code(n - 1);
      OneUp(b);
      b + 1
  }

  function CharOf(c: char): (r: Char)
    requires c as int < 128
    ensures r as int == c as int
  {
    Code(c as int)
  }

  /** `CertifyConvertTableInit`: the vectors hold the strings' characters. */
  ghost function BaseTable(id: nat): (r: seq<Char>)
    requires id < 10
    ensures |r| == 64
  {
    TableDistinct(id);
    seq(64, i requires 0 <= i < 64 => CharOf(TableAt(id, i)))
  }

  ghost function TableAt(id: nat, i: nat): (c: char)
    requires id < 10 && i < 64
    ensures c as int < 128 && c == Table(id)[i]
  {
    TableDistinct(id);
    Table(id)[i]
  }

  /** Every one of the ten tables is an alphabet. */
  lemma TablesAreAlphabets(id: nat)
    requires id < 10
    ensures Alphabet(BaseTable(id))
  {
    TableDistinct(id);
    forall i, j | 0 <= i < j < 64 ensures BaseTable(id)[i] != BaseTable(id)[j] {
      assert CharOf(TableAt(id, i)) as int != CharOf(TableAt(id, j)) as int;
    }
  }

  /** The exchange with the tables as they are: for every key and every random choice the client's answer
      is accepted, and the count of open challenges is as before. */
  method ChallengeWithTables(server: CertifyData, key: Key, randomKey: Key, randomString: nat, randomTable: nat)
    returns (ok: bool)
    requires server.Valid() && randomString < 10 && randomTable < 10
    modifies server, server.text
    ensures ok && server.checkCount == old(server.checkCount)
  {
    var tables := BaseTables();
    TablesAreAlphabets(randomTable);
    ok := ChallengeResponse(server, key, randomKey, randomString, randomTable, tables);
  }

  /** `CertifyConvertTableInit`'s loops over the tables and their characters. */
  method BaseTables() returns (tables: seq<seq<Char>>)
    ensures |tables| == 10 && forall id :: 0 <= id < 10 ==> tables[id] == BaseTable(id)
  {
    tables := [];
    for id := 0 to 10
      invariant |tables| == id && forall k :: 0 <= k < id ==> tables[k] == BaseTable(k)
    {
      var table := LoadTable(id);
      tables := tables + [table];
    }
  }

  method LoadTable(id: nat) returns (table: seq<Char>)
    requires id < 10
    ensures table == BaseTable(id)
  {
    table := [];
    var text := Table(id);
    TableDistinct(id);
    ghost var base := BaseTable(id);
    for offset := 0 to 64
      invariant table == base[..offset]
    {
      table := table + [CharOf(text[offset])];
      assert base[..offset + 1] == base[..offset] + [base[offset]];
    }
    assert base[..64] == base;
  }
}
