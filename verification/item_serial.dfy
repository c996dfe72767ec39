/** The item serial generator: seconds, server id and a sequence number packed into 64 bits. */
module ItemSerials {

  import opened Common
  import opened Bits

  const MAX_SEQUENCE: int := 0xFF_FFFF
  const INT32_MAX: int := 0x7FFF_FFFF
  const TWO24: int := 0x100_0000
  const TWO32: int := 0x1_0000_0000
  const TWO64: int := 0x1_0000_0000_0000_0000

  type Int32 = v: int | -0x8000_0000 <= v <= 0x7FFF_FFFF
  type ServerId = v: int | 0 <= v < 256

  /** The static fields. */
  datatype Generator = Generator(lastTimeSec: Int32, serverId: ServerId, sequence: Int32)

  datatype Outcome = Serial(value: int) | Overflow

  const NEW_GENERATOR := Generator(0, 0, 0)

  /** `+= 1` on a 32-bit integer wraps. */
  function Increment(v: Int32): Int32 { if v == INT32_MAX then -INT32_MAX - 1 else v + 1 }

  // ---------------------------------------------------------------- packing

  /** The 64 bits of a number in two's complement, and back. */
  function Bits64(v: int): nat { v % TWO64 }

  function Signed64(bits: nat): int { if bits < TWO64 / 2 then bits else bits - TWO64 }

  /** Time, server id and the low 24 bits of the sequence number, shifted to their places and joined. */
  function Packed(time: Int32, serverId: ServerId, sequence: Int32): int {
    Signed64(Or(Or(Bits64(time * TWO32), Bits64(serverId * TWO24)), And(Bits64(sequence), MAX_SEQUENCE)))
  }

  /** The number this is. */
  function Composed(time: int, serverId: int, sequence: int): int {
    time * TWO32 + serverId * TWO24 + sequence % TWO24
  }

  lemma Powers()
    ensures Pow(2, 24) == TWO24 && Pow(2, 32) == TWO32
  {
    assert Pow(2, 8) == 256;
    assert Pow(2, 16) == 0x1_0000;
    assert Pow(2, 24) == 0x100 * Pow(2, 16);
    assert Pow(2, 32) == 0x100 * Pow(2, 24);
  }

  lemma Remainder24(x: int, q: int, r: int)
    requires x == TWO24 * q + r && 0 <= r < TWO24
    ensures x % TWO24 == r
  {
  }

  lemma SameLowBits(v: int)
    ensures Bits64(v) % TWO24 == v % TWO24
  {
    var a, b := v / TWO64, v % TWO64;
    assert TWO64 == TWO24 * 0x100_0000_0000;
    Remainder24(v, 0x100_0000_0000 * a + b / TWO24, b % TWO24);
  }

  lemma AndMask(x: nat, k: nat, p: nat)
    requires Pow(2, k) == p
    ensures And(x, p - 1) == x % p
  {
    AndLow(x, k);
  }

  lemma LowBits(sequence: Int32)
    ensures And(Bits64(sequence), MAX_SEQUENCE) == sequence % TWO24
  {
    Powers();
    AndMask(Bits64(sequence), 24, TWO24);
    SameLowBits(sequence);
  }

  /** The three fields share no bit, so joining adds them. */
  lemma JoinFields(t: nat, s: nat, q: nat)
    requires s < 256 && q < TWO24
    ensures Or(Or(t * TWO32, s * TWO24), q) == t * TWO32 + s * TWO24 + q
  {
    Powers();
    OrAbove(t, s * TWO24, 32);
    var high := 256 * t + s;
    assert t * TWO32 + s * TWO24 == high * TWO24;
    OrAbove(high, q, 24);
  }

  /** A negative time sets the sign bit, and nothing else changes. */
  lemma SignBit(time: Int32, low: nat)
    requires low < TWO32
    ensures var t := if time < 0 then time + TWO32 else time;
            0 <= t && Bits64(time * TWO32) == t * TWO32 && Signed64(t * TWO32 + low) == time * TWO32 + low
  {
  }

  lemma PackedIsComposed(time: Int32, serverId: ServerId, sequence: Int32)
    ensures Packed(time, serverId, sequence) == Composed(time, serverId, sequence)
  {
    var t, q := if time < 0 then time + TWO32 else time, sequence % TWO24;
    LowBits(sequence);
    SignBit(time, serverId * TWO24 + q);
    SmallBits(serverId * TWO24);
    JoinFields(t, serverId, q);
    assert Packed(time, serverId, sequence) == Signed64(t * TWO32 + serverId * TWO24 + q);
  }

  lemma SmallBits(v: int)
    requires 0 <= v < TWO64
    ensures Bits64(v) == v
  {
  }

  // ---------------------------------------------------------------- the generator

  /** `GenerateSN` at clock reading `now`. */
  function Generate(g: Generator, now: Int32): (Generator, Outcome) {
    if now != g.lastTimeSec then
      (g.(lastTimeSec := now, sequence := 0), Serial(Composed(now, g.serverId, 0)))
    else
      var s := Increment(g.sequence);
      var g' := g.(sequence := s);
      if s > MAX_SEQUENCE then (g', Overflow) else (g', Serial(Composed(now, g.serverId, s)))
  }

  class GeneratorItemSN {
    var lastTimeSec: Int32
    var serverId: ServerId
    var sequence: Int32

    constructor (serverId: int)
      ensures State() == NEW_GENERATOR.(serverId := serverId % 256)
    {
      lastTimeSec, sequence := 0, 0;
      this.serverId := serverId % 256;
    }

    ghost function State(): Generator
      reads this
    {
      Generator(lastTimeSec, serverId, sequence)
    }

    method GenerateSN(now: Int32) returns (r: Outcome)
      modifies this`lastTimeSec, this`sequence
      ensures (State(), r) == Generate(old(State()), now)
    {
      if now != lastTimeSec {
        lastTimeSec := now;
        sequence := 0;
      } else {
        sequence := Increment(sequence);
        if sequence > MAX_SEQUENCE {
          return Overflow;
        }
      }
      PackedIsComposed(lastTimeSec, serverId, sequence);
      return Serial(Packed(lastTimeSec, serverId, sequence));
    }
  }

  // ---------------------------------------------------------------- one serial

  predicate Fields(time: Int32, sequence: Int32) {
    0 <= time && 0 <= sequence <= MAX_SEQUENCE
  }

  lemma ComposedInjective(t: int, s: int, q: int, t': int, s': int, q': int)
    requires 0 <= s < 256 && 0 <= s' < 256 && 0 <= q < TWO24 && 0 <= q' < TWO24
    ensures Composed(t, s, q) == Composed(t', s', q') <==> t == t' && s == s' && q == q'
  {
    Remainder24(q, 0, q);
    Remainder24(q', 0, q');
    if Composed(t, s, q) == Composed(t', s', q') {
      SameParts24(256 * t + s, q, 256 * t' + s', q');
      SameParts256(t, s, t', s');
    }
  }

  lemma SameParts24(h: int, q: int, h': int, q': int)
    requires TWO24 * h + q == TWO24 * h' + q' && 0 <= q < TWO24 && 0 <= q' < TWO24
    ensures h == h' && q == q'
  {
  }

  lemma SameParts256(t: int, s: int, t': int, s': int)
    requires 256 * t + s == 256 * t' + s' && 0 <= s < 256 && 0 <= s' < 256
    ensures t == t' && s == s'
  {
  }

  lemma ComposedOrdered(t: nat, s: nat, q: nat, t': nat, s': nat, q': nat)
    requires t' <= INT32_MAX && s < 256 && s' < 256 && q < TWO24 && q' < TWO24
    requires t < t' || (t == t' && s == s' && q < q')
    ensures 0 <= Composed(t, s, q) < Composed(t', s', q') <= 0x7FFF_FFFF_FFFF_FFFF
  {
    Remainder24(q, 0, q);
    Remainder24(q', 0, q');
  }

  /** A serial decodes uniquely into its three fields. */
  lemma PackInjective(t: Int32, s: ServerId, q: Int32, t': Int32, s': ServerId, q': Int32)
    requires Fields(t, q) && Fields(t', q')
    ensures Packed(t, s, q) == Packed(t', s', q') <==> t == t' && s == s' && q == q'
  {
    PackedIsComposed(t, s, q);
    PackedIsComposed(t', s', q');
    ComposedInjective(t, s, q, t', s', q');
  }

  /** Serials are ordered by time first, and fit a signed 64-bit integer. */
  lemma PackOrdered(t: Int32, s: ServerId, q: Int32, t': Int32, s': ServerId, q': Int32)
    requires Fields(t, q) && Fields(t', q') && (t < t' || (t == t' && s == s' && q < q'))
    ensures 0 <= Packed(t, s, q) < Packed(t', s', q') <= 0x7FFF_FFFF_FFFF_FFFF
  {
    PackedIsComposed(t, s, q);
    PackedIsComposed(t', s', q');
    ComposedOrdered(t, s, q, t', s', q');
  }

  // ---------------------------------------------------------------- runs

  /** The serials handed out, without the calls that threw. */
  function Serials(g: Generator, clock: seq<Int32>): seq<int>
    decreases |clock|
  {
    if clock == [] then []
    else
      var (g', r) := Generate(g, clock[0]);
      (match r case Serial(v) => [v] case Overflow => []) + Serials(g', clock[1..])
  }

  predicate Clock(from: int, clock: seq<Int32>) {
    && 0 <= from
    && (forall i :: 0 <= i < |clock| ==> from <= clock[i])
    && forall i, j :: 0 <= i < j < |clock| ==> clock[i] <= clock[j]
  }

  predicate Increasing(s: seq<int>) {
    forall i, j :: 0 <= i < j < |s| ==> s[i] < s[j]
  }

  /** No second sees so many calls that the 32-bit sequence number, now `sequence` for second `last`,
      is incremented past its maximum. */
  predicate NoWrap(sequence: int, last: int, clock: seq<Int32>)
    decreases |clock|
  {
    clock == [] ||
    if clock[0] == last then sequence < INT32_MAX && NoWrap(sequence + 1, last, clock[1..])
    else NoWrap(0, clock[0], clock[1..])
  }

  lemma ClockTail(from: int, clock: seq<Int32>)
    requires Clock(from, clock) && clock != []
    ensures Clock(clock[0], clock[1..])
  {
    forall i | 0 <= i < |clock| - 1 ensures clock[0] <= clock[1..][i] {
      assert clock[1..][i] == clock[i + 1];
    }
  }

  ghost predicate Ready(g: Generator, clock: seq<Int32>) {
    Clock(g.lastTimeSec, clock) && 0 <= g.sequence
  }

  /** The highest serial the current second has handed out so far, if it has handed out any. */
  function Mark(g: Generator): int {
    g.lastTimeSec * TWO32 + g.serverId * TWO24 + if g.sequence > MAX_SEQUENCE then MAX_SEQUENCE else g.sequence
  }

  lemma GenerateRaises(g: Generator, now: Int32)
    requires Ready(g, [now]) && (now == g.lastTimeSec ==> g.sequence < INT32_MAX)
    ensures var (g', r) := Generate(g, now);
            && g'.lastTimeSec == now && g'.serverId == g.serverId && 0 <= g'.sequence <= INT32_MAX
            && Mark(g) <= Mark(g') && (r.Serial? ==> Mark(g) < r.value == Mark(g'))
  {
    assert g.lastTimeSec <= [now][0];
  }

  /** Without a wrap, everything handed out from here on increases and is above what was handed out. */
  lemma {:induction false} SerialsAbove(g: Generator, clock: seq<Int32>)
    requires Ready(g, clock) && NoWrap(g.sequence, g.lastTimeSec, clock)
    ensures Increasing(Serials(g, clock))
    ensures forall v :: v in Serials(g, clock) ==> v > Mark(g)
    decreases |clock|
  {
    if clock != [] {
      var (g', r) := Generate(g, clock[0]);
      assert g.lastTimeSec <= clock[0];
      ClockTail(g.lastTimeSec, clock);
      GenerateRaises(g, clock[0]);
      SerialsAbove(g', clock[1..]);
      var rest := Serials(g', clock[1..]);
      var head := if r.Serial? then [r.value] else [];
      assert Serials(g, clock) == head + rest;
      if r.Serial? { PrependIncreasing(r.value, rest); } else { assert head + rest == rest; }
      forall v | v in Serials(g, clock) ensures v > Mark(g) {
        assert v in head || v in rest;
      }
    }
  }

  lemma PrependIncreasing(first: int, s: seq<int>)
    requires Increasing(s) && forall v :: v in s ==> v > first
    ensures Increasing([first] + s)
  {
    var t := [first] + s;
    forall i, j | 0 <= i < j < |t| ensures t[i] < t[j] {
      assert t[j] == s[j - 1] && s[j - 1] in s;
      if i > 0 { assert t[i] == s[i - 1]; }
    }
  }

  lemma FirstNotBelow(v: int, s: seq<int>)
    requires v in s
    ensures forall first :: first >= v ==> !Increasing([first] + s)
  {
    var i :| 0 <= i < |s| && s[i] == v;
    forall first | first >= v ensures !Increasing([first] + s) {
      assert ([first] + s)[i + 1] == v && ([first] + s)[0] == first;
    }
  }

  lemma IncreasingTail(first: int, s: seq<int>)
    requires !Increasing(s)
    ensures !Increasing([first] + s)
  {
    var i, j :| 0 <= i < j < |s| && s[i] >= s[j];
    assert ([first] + s)[i + 1] == s[i] && ([first] + s)[j + 1] == s[j];
  }

  /** With a wrap, the second in which it happens hands out its lowest serial again, after `seen`. */
  lemma {:induction false} WrapRepeats(g: Generator, clock: seq<Int32>, seen: int)
    requires Ready(g, clock) && !NoWrap(g.sequence, g.lastTimeSec, clock)
    requires seen >= Composed(g.lastTimeSec, g.serverId, 0)
    ensures !Increasing([seen] + Serials(g, clock))
    decreases |clock|
  {
    var (g', r) := Generate(g, clock[0]);
    var rest := Serials(g', clock[1..]);
    assert g.lastTimeSec <= clock[0];
    ClockTail(g.lastTimeSec, clock);
    if clock[0] == g.lastTimeSec && g.sequence == INT32_MAX {
      assert r == Serial(Composed(clock[0], g.serverId, 0));
      assert Serials(g, clock) == [r.value] + rest;
      FirstNotBelow(r.value, Serials(g, clock));
    } else if r.Serial? {
      WrapRepeats(g', clock[1..], r.value);
      assert Serials(g, clock) == [r.value] + rest;
      IncreasingTail(seen, Serials(g, clock));
    } else {
      WrapRepeats(g', clock[1..], seen);
      assert Serials(g, clock) == rest;
    }
  }

  /** Over every run of a new generator under a non-decreasing clock, the serials handed out are strictly
      increasing, thrown overflows included, if and only if no second sees so many calls that the
      sequence number wraps. */
  lemma SerialsIncreaseUnlessWrapped(serverId: ServerId, clock: seq<Int32>)
    requires Clock(0, clock)
    ensures Increasing(Serials(NEW_GENERATOR.(serverId := serverId), clock)) <==> NoWrap(0, 0, clock)
  {
    var g := NEW_GENERATOR.(serverId := serverId);
    if NoWrap(0, 0, clock) {
      SerialsAbove(g, clock);
    } else {
      var (g', r) := Generate(g, clock[0]);
      ClockTail(0, clock);
      assert r.Serial? && r.value >= Composed(clock[0], serverId, 0);
      WrapRepeats(g', clock[1..], r.value);
      assert Serials(g, clock) == [r.value] + Serials(g', clock[1..]);
    }
  }

  function Repeat(t: Int32, n: nat): (r: seq<Int32>)
    ensures |r| == n && forall i :: 0 <= i < n ==> r[i] == t
  {
    seq(n, _ => t)
  }

  lemma {:induction false} RepeatWraps(sequence: int, t: Int32, n: nat)
    requires sequence <= INT32_MAX
    ensures NoWrap(sequence, t, Repeat(t, n)) <==> sequence + n <= INT32_MAX
    decreases n
  {
    if n > 0 && sequence < INT32_MAX {
      assert Repeat(t, n)[1..] == Repeat(t, n - 1);
      RepeatWraps(sequence + 1, t, n - 1);
    }
  }

  /** How many calls a single second takes: exactly 2^31 before a serial comes out twice. */
  lemma SecondLimit(serverId: ServerId, t: Int32, n: nat)
    requires 0 < t
    ensures Increasing(Serials(NEW_GENERATOR.(serverId := serverId), Repeat(t, n))) <==> n <= INT32_MAX + 1
  {
    SerialsIncreaseUnlessWrapped(serverId, Repeat(t, n));
    if n > 0 {
      assert Repeat(t, n)[1..] == Repeat(t, n - 1);
      RepeatWraps(0, t, n - 1);
    }
  }

  // ---------------------------------------------------------------- every single call

  /** What every call of a run gives, thrown or not. */
  function Outcomes(g: Generator, clock: seq<Int32>): (r: seq<Outcome>)
    ensures |r| == |clock|
    decreases |clock|
  {
    if clock == [] then []
    else
      var (g', r) := Generate(g, clock[0]);
      [r] + Outcomes(g', clock[1..])
  }

  /** How many calls fell in second `t`. */
  function Calls(clock: seq<Int32>, t: Int32): nat {
    if clock == [] then 0
    else Calls(clock[..|clock| - 1], t) + if clock[|clock| - 1] == t then 1 else 0
  }

  /** The place of call `i` within its second: how many calls came before it there. Second 0 counts as
      begun, since the static fields start out as if it had seen a call. */
  function Place(clock: seq<Int32>, i: nat): nat
    requires i < |clock|
  {
    Calls(clock[..i], clock[i]) + Begun(clock[i])
  }

  function Begun(t: Int32): nat { if t == 0 then 1 else 0 }

  /** The number a signed 32-bit counter shows after `n` increments from 0. */
  function Counter32(n: nat): Int32 {
    if n % TWO32 <= INT32_MAX then n % TWO32 else n % TWO32 - TWO32
  }

  lemma CounterNext(n: nat)
    ensures Increment(Counter32(n)) == Counter32(n + 1)
  {
    if n % TWO32 == TWO32 - 1 {
      assert (n + 1) % TWO32 == 0;
    } else {
      assert (n + 1) % TWO32 == n % TWO32 + 1;
    }
  }

  /** What the call at place `n` of second `t` gives: an exception from place 2^24 to place 2^31 - 1, and
      otherwise time, server and the low 24 bits of the place; every 2^32 places it starts over. */
  function Expected(serverId: ServerId, t: Int32, n: nat): Outcome {
    if TWO24 <= n % TWO32 <= INT32_MAX then Overflow
    else Serial(t * TWO32 + serverId * TWO24 + n % TWO24)
  }

  lemma LowOfCounter(n: nat)
    ensures Counter32(n) > MAX_SEQUENCE <==> TWO24 <= n % TWO32 <= INT32_MAX
    ensures Counter32(n) % TWO24 == n % TWO24
  {
    var m := n % TWO32;
    assert n == TWO24 * (256 * (n / TWO32)) + m;
    Remainder24(n, 256 * (n / TWO32) + m / TWO24, m % TWO24);
    if m > INT32_MAX { Remainder24(m - TWO32, m / TWO24 - 256, m % TWO24); }
  }

  /** The generator after the calls `seen`: the last second, and the last place in it. */
  ghost predicate Remembers(g: Generator, seen: seq<Int32>) {
    && g.lastTimeSec == (if seen == [] then 0 else seen[|seen| - 1])
    && Calls(seen, g.lastTimeSec) + Begun(g.lastTimeSec) >= 1
    && g.sequence == Counter32(Calls(seen, g.lastTimeSec) + Begun(g.lastTimeSec) - 1)
  }

  lemma {:induction false} NoneLater(clock: seq<Int32>, t: Int32)
    requires forall i :: 0 <= i < |clock| ==> clock[i] < t
    ensures Calls(clock, t) == 0
    decreases |clock|
  {
    if clock != [] { NoneLater(clock[..|clock| - 1], t); }
  }

  lemma CallsSnoc(seen: seq<Int32>, now: Int32)
    ensures Calls(seen + [now], now) == Calls(seen, now) + 1
  {
    assert (seen + [now])[..|seen|] == seen;
  }

  /** A call at place `n` of its second finds the counter at `n - 1` or the second new. */
  lemma CallAt(g: Generator, now: Int32, n: nat)
    requires if now == g.lastTimeSec then n >= 1 && g.sequence == Counter32(n - 1) else n == 0
    ensures var (g', r) := Generate(g, now);
            g'.lastTimeSec == now && g'.serverId == g.serverId && g'.sequence == Counter32(n)
            && r == Expected(g.serverId, now, n)
  {
    LowOfCounter(n);
    if now == g.lastTimeSec { CounterNext(n - 1); }
  }

  lemma NewSecond(g: Generator, seen: seq<Int32>, now: Int32)
    requires Remembers(g, seen) && Clock(0, seen + [now]) && now != g.lastTimeSec
    ensures Calls(seen, now) + Begun(now) == 0
  {
    var all := seen + [now];
    assert 0 <= all[|seen|] && (seen != [] ==> all[|seen| - 1] == seen[|seen| - 1] && all[|seen| - 1] <= all[|seen|]);
    forall i | 0 <= i < |seen| ensures seen[i] < now {
      assert all[i] == seen[i];
      if i < |seen| - 1 { assert all[i] <= all[|seen| - 1]; }
    }
    NoneLater(seen, now);
  }

  lemma OneCall(g: Generator, seen: seq<Int32>, now: Int32)
    requires Remembers(g, seen) && Clock(0, seen + [now])
    ensures var (g', r) := Generate(g, now);
            && Remembers(g', seen + [now]) && g'.serverId == g.serverId
            && r == Expected(g.serverId, now, Calls(seen, now) + Begun(now))
  {
    var n := Calls(seen, now) + Begun(now);
    CallsSnoc(seen, now);
    if now != g.lastTimeSec { NewSecond(g, seen, now); }
    CallAt(g, now, n);
    RemembersNext(Generate(g, now).0, seen, now, n);
  }

  lemma RemembersNext(g: Generator, seen: seq<Int32>, now: Int32, n: nat)
    requires g.lastTimeSec == now && g.sequence == Counter32(n) && Calls(seen + [now], now) + Begun(now) == n + 1
    ensures Remembers(g, seen + [now])
  {
  }

  lemma ClockPrefix(clock: seq<Int32>, k: nat)
    requires Clock(0, clock) && k <= |clock|
    ensures Clock(0, clock[..k])
  {
    var front := clock[..k];
    forall i | 0 <= i < k ensures 0 <= front[i] { assert clock[i] == front[i]; }
    forall i, j | 0 <= i < j < k ensures front[i] <= front[j] { assert clock[i] == front[i] && clock[j] == front[j]; }
  }

  lemma CallAfter(g: Generator, clock: seq<Int32>, k: nat)
    requires Clock(0, clock) && k < |clock| && Remembers(g, clock[..k])
    ensures var (g', r) := Generate(g, clock[k]);
            && Remembers(g', clock[..k + 1]) && g'.serverId == g.serverId
            && r == Expected(g.serverId, clock[k], Place(clock, k))
  {
    assert clock[..k + 1] == clock[..k] + [clock[k]];
    ClockPrefix(clock, k + 1);
    OneCall(g, clock[..k], clock[k]);
  }

  /** The generator after the first `n` calls of a run. */
  function Advanced(g: Generator, clock: seq<Int32>, n: nat): Generator
    requires n <= |clock|
  {
    if n == 0 then g else Generate(Advanced(g, clock, n - 1), clock[n - 1]).0
  }

  lemma {:induction false} AdvancedRemembers(serverId: ServerId, clock: seq<Int32>, n: nat)
    requires Clock(0, clock) && n <= |clock|
    ensures var g := Advanced(NEW_GENERATOR.(serverId := serverId), clock, n);
            Remembers(g, clock[..n]) && g.serverId == serverId
  {
    if n == 0 {
      assert clock[..0] == [];
      FreshRemembers(serverId);
    } else {
      AdvancedRemembers(serverId, clock, n - 1);
      CallAfter(Advanced(NEW_GENERATOR.(serverId := serverId), clock, n - 1), clock, n - 1);
    }
  }

  lemma {:induction false} OutcomesAt(g: Generator, clock: seq<Int32>, k: nat, i: nat)
    requires k <= i < |clock|
    ensures Outcomes(Advanced(g, clock, k), clock[k..])[i - k] == Generate(Advanced(g, clock, i), clock[i]).1
    decreases i - k
  {
    OutcomesTail(Advanced(g, clock, k), clock, k);
    if k < i { OutcomesAt(g, clock, k + 1, i); }
  }

  lemma OutcomesTail(g: Generator, clock: seq<Int32>, k: nat)
    requires k < |clock|
    ensures var (g', r) := Generate(g, clock[k]); Outcomes(g, clock[k..]) == [r] + Outcomes(g', clock[k + 1..])
  {
    assert clock[k..][1..] == clock[k + 1..];
  }

  /** Every call of every run: under a non-decreasing clock, what call `i` gives is decided by its second and
      its place in it. So it throws if and only if at least 2^24 and fewer than 2^31 calls came
      before it in its second (one fewer in second 0), counted modulo 2^32. */
  lemma EveryCall(serverId: ServerId, clock: seq<Int32>, i: nat)
    requires Clock(0, clock) && i < |clock|
    ensures Outcomes(NEW_GENERATOR.(serverId := serverId), clock)[i] == Expected(serverId, clock[i], Place(clock, i))
  {
    var g := NEW_GENERATOR.(serverId := serverId);
    assert clock[0..] == clock;
    OutcomesAt(g, clock, 0, i);
    AdvancedRemembers(serverId, clock, i);
    CallAfter(Advanced(g, clock, i), clock, i);
  }

  lemma FreshRemembers(serverId: ServerId)
    ensures Remembers(NEW_GENERATOR.(serverId := serverId), [])
  {
    var none: seq<Int32> := [];
    assert Calls(none, 0) == 0 && Counter32(0) == 0;
  }

  predicate AllSerial(r: seq<Outcome>) {
    forall i :: 0 <= i < |r| ==> r[i].Serial?
  }

  lemma AllSerialCons(r: Outcome, tail: seq<Outcome>)
    ensures AllSerial([r] + tail) <==> r.Serial? && AllSerial(tail)
  {
    var all := [r] + tail;
    if AllSerial(all) {
      assert all[0].Serial?;
      forall i | 0 <= i < |tail| ensures tail[i].Serial? { assert all[i + 1].Serial?; }
    }
  }

  lemma {:induction false} SerialsFromOutcomes(g: Generator, clock: seq<Int32>)
    ensures |Serials(g, clock)| <= |clock|
    ensures |Serials(g, clock)| == |clock| <==> AllSerial(Outcomes(g, clock))
    decreases |clock|
  {
    if clock != [] {
      var (g', r) := Generate(g, clock[0]);
      SerialsFromOutcomes(g', clock[1..]);
      AllSerialCons(r, Outcomes(g', clock[1..]));
    }
  }

  lemma {:induction false} CallsUpTo(clock: seq<Int32>, t: Int32, k: nat)
    requires k <= |clock|
    ensures Calls(clock[..k], t) <= Calls(clock, t)
    decreases |clock| - k
  {
    if k < |clock| {
      assert clock[..k + 1][..k] == clock[..k];
      CallsUpTo(clock, t, k + 1);
    } else {
      assert clock[..k] == clock;
    }
  }

  /** A second with more than `n` calls has one at place `n`. */
  lemma {:induction false} CallAtPlace(clock: seq<Int32>, t: Int32, n: nat) returns (i: nat)
    requires n < Calls(clock, t)
    ensures i < |clock| && clock[i] == t && Calls(clock[..i], t) == n
    decreases |clock|
  {
    var last := |clock| - 1;
    if Calls(clock[..last], t) == n {
      i := last;
    } else {
      i := CallAtPlace(clock[..last], t, n);
      assert clock[..last][..i] == clock[..i];
    }
  }

  /** No call of a run throws if and only if no second sees more than 2^24 calls, 2^24 - 1 in second 0. */
  lemma NoneThrows(serverId: ServerId, clock: seq<Int32>)
    requires Clock(0, clock)
    ensures |Serials(NEW_GENERATOR.(serverId := serverId), clock)| == |clock| <==>
              forall t: Int32 :: Calls(clock, t) + Begun(t) <= TWO24
  {
    var g := NEW_GENERATOR.(serverId := serverId);
    SerialsFromOutcomes(g, clock);
    if forall t: Int32 :: Calls(clock, t) + Begun(t) <= TWO24 {
      forall i | 0 <= i < |clock| ensures Outcomes(g, clock)[i].Serial? {
        EveryCall(serverId, clock, i);
        PlaceBelow(clock, i);
      }
    } else {
      var t: Int32 :| Calls(clock, t) + Begun(t) > TWO24;
      var i := CallAtPlace(clock, t, TWO24 - Begun(t));
      EveryCall(serverId, clock, i);
      assert Place(clock, i) == TWO24;
    }
  }

  lemma PlaceBelow(clock: seq<Int32>, i: nat)
    requires i < |clock|
    ensures Place(clock, i) < Calls(clock, clock[i]) + Begun(clock[i])
  {
    assert clock[..i + 1][..i] == clock[..i];
    CallsUpTo(clock, clock[i], i + 1);
  }

  // ---------------------------------------------------------------- several servers

  lemma PackServer(time: int, serverId: int, sequence: int)
    requires 0 <= serverId < 256
    ensures (Composed(time, serverId, sequence) / TWO24) % 256 == serverId
  {
    var q := sequence % TWO24;
    assert Composed(time, serverId, sequence) == TWO24 * (256 * time + serverId) + q;
    assert Composed(time, serverId, sequence) / TWO24 == 256 * time + serverId;
  }

  /** Every serial carries its generator's server id, whatever the clock does. */
  lemma {:induction false} SerialsCarryServer(g: Generator, clock: seq<Int32>)
    ensures forall v :: v in Serials(g, clock) ==> (v / TWO24) % 256 == g.serverId
    decreases |clock|
  {
    if clock != [] {
      var (g', r) := Generate(g, clock[0]);
      SerialsCarryServer(g', clock[1..]);
      PackServer(clock[0], g.serverId, 0);
      PackServer(clock[0], g.serverId, g'.sequence);
    }
  }

  /** Generators with different server ids never hand out the same serial. */
  lemma ServersNeverCollide(g: Generator, clock: seq<Int32>, h: Generator, clock': seq<Int32>)
    requires g.serverId != h.serverId
    ensures forall v :: v in Serials(g, clock) ==> v !in Serials(h, clock')
  {
    SerialsCarryServer(g, clock);
    SerialsCarryServer(h, clock');
  }
}
