/** What is still on its way to a client: the packets already handed to its connector, then the
    queued sends, then what the queued broadcasts and lists will turn into. */
module ZoneStreams {
  import opened Common
  import opened ZoneModel

  // ---------------------------------------------------------------- what a stream shows

  /** Whether another character `t` is shown after one packet. */
  function Shows(shown: bool, m: Message, t: Token): bool {
    match m
    case Enter(u) => u == t || shown
    case Leave(u) => u != t && shown
    case CharacterList(us) => t in us || shown
    case _ => shown
  }

  function ShownAfter(shown: bool, ms: seq<Message>, t: Token): bool
    decreases |ms|
  {
    if ms == [] then shown else ShownAfter(Shows(shown, ms[0], t), ms[1..], t)
  }

  lemma {:induction false} ShownConcat(shown: bool, x: seq<Message>, y: seq<Message>, t: Token)
    ensures ShownAfter(shown, x + y, t) == ShownAfter(ShownAfter(shown, x, t), y, t)
    decreases |x|
  {
    if x == [] {
      assert x + y == y;
    } else {
      assert (x + y)[0] == x[0] && (x + y)[1..] == x[1..] + y;
      ShownConcat(Shows(shown, x[0], t), x[1..], y, t);
    }
  }

  lemma {:induction false} ShownMonotone(ms: seq<Message>, t: Token)
    ensures ShownAfter(false, ms, t) ==> ShownAfter(true, ms, t)
    decreases |ms|
  {
    if ms != [] {
      ShownMonotone(ms[1..], t);
    }
  }

  /** The last packet about `t` decides. */
  lemma ShownLast(shown: bool, ms: seq<Message>, m: Message, t: Token)
    ensures ShownAfter(shown, ms + [m], t) == Shows(ShownAfter(shown, ms, t), m, t)
  {
    ShownConcat(shown, ms, [m], t);
    assert ShownAfter(ShownAfter(shown, ms, t), [m], t)
        == ShownAfter(Shows(ShownAfter(shown, ms, t), m, t), [], t);
  }

  lemma {:induction false} ShownByList(shown: bool, tokens: seq<Token>, t: Token)
    ensures ShownAfter(shown, ListPackets(tokens), t) == (shown || t in tokens)
    decreases |tokens|
  {
    if tokens != [] {
      var ms := ListPackets(tokens);
      assert ms[0] == CharacterList([tokens[0]]) && ms[1..] == ListPackets(tokens[1..]);
      ShownByList(Shows(shown, ms[0], t), tokens[1..], t);
    }
  }

  /** A client whose stream opens with its own token, given once, shows exactly the other
      characters its stream shows. */
  lemma {:induction false} ReplayShows(ms: seq<Message>, self: Token, t: Token)
    requires OpensWith(ms, self)
    ensures Replay(ms).player == self && Replay(ms).read == |ms|
    ensures t in Replay(ms).view <==> t != self && ShownAfter(false, ms, t)
    decreases |ms|
  {
    var n := |ms| - 1;
    assert ms == ms[..n] + [ms[n]];
    ShownLast(false, ms[..n], ms[n], t);
    if n == 0 {
      assert ms[..n] == [];
    } else {
      ReplayShows(ms[..n], self, t);
    }
  }

  predicate OpensWith(ms: seq<Message>, self: Token) {
    |ms| > 0 && ms[0] == AuthResult(self) && forall i :: 0 < i < |ms| ==> !ms[i].AuthResult?
  }

  // ---------------------------------------------------------------- what the queue holds

  /** Packets that queued sends will put on the stream of `a`. */
  function SendsTo(q: seq<Command>, a: Token): seq<Message>
    decreases |q|
  {
    if q == [] then []
    else
      (match q[0] case SendPacket(u, m) => if u == a then [m] else [] case _ => [])
      + SendsTo(q[1..], a)
  }

  /** Packets of the queued broadcasts to the entry zone. */
  function Announced(q: seq<Command>): seq<Message>
    decreases |q|
  {
    if q == [] then []
    else
      (match q[0] case SendBroadcast(z, m) => if z == ENTRY_ZONE then [m] else [] case _ => [])
      + Announced(q[1..])
  }

  /** Packets that member `a` will get from queued broadcasts and lists, if the zone holds
      `present` when they run. */
  ghost function Coming(q: seq<Command>, a: Token, present: set<Token>): seq<Message>
    decreases |q|
  {
    if q == [] then [] else ComingFrom(q[0], a, present) + Coming(q[1..], a, present)
  }

  ghost function ComingFrom(c: Command, a: Token, present: set<Token>): seq<Message> {
    match c
    case SendBroadcast(z, m) => if z == ENTRY_ZONE then [m] else []
    case SendCharacterList(u, z) =>
      if u == a && z == ENTRY_ZONE then ListPackets(Ascending(present - {a})) else []
    case _ => []
  }

  lemma {:induction false} SendsToConcat(p: seq<Command>, q: seq<Command>, a: Token)
    ensures SendsTo(p + q, a) == SendsTo(p, a) + SendsTo(q, a)
    decreases |p|
  {
    if p == [] {
      assert p + q == q;
    } else {
      assert (p + q)[0] == p[0] && (p + q)[1..] == p[1..] + q;
      SendsToConcat(p[1..], q, a);
    }
  }

  lemma {:induction false} AnnouncedConcat(p: seq<Command>, q: seq<Command>)
    ensures Announced(p + q) == Announced(p) + Announced(q)
    decreases |p|
  {
    if p == [] {
      assert p + q == q;
    } else {
      assert (p + q)[0] == p[0] && (p + q)[1..] == p[1..] + q;
      AnnouncedConcat(p[1..], q);
    }
  }

  lemma {:induction false} ComingConcat(p: seq<Command>, q: seq<Command>, a: Token, present: set<Token>)
    ensures Coming(p + q, a, present) == Coming(p, a, present) + Coming(q, a, present)
    decreases |p|
  {
    if p == [] {
      assert p + q == q;
    } else {
      assert (p + q)[0] == p[0] && (p + q)[1..] == p[1..] + q;
      ComingConcat(p[1..], q, a, present);
      Assoc(ComingFrom(p[0], a, present), Coming(p[1..], a, present), Coming(q, a, present));
    }
  }

  lemma ComingOne(c: Command, a: Token, present: set<Token>)
    ensures Coming([c], a, present) == ComingFrom(c, a, present)
  {
    assert [c][1..] == [];
    assert Coming([], a, present) == [];
  }

  lemma AnnouncedOne(c: Command)
    ensures Announced([c]) == if c.SendBroadcast? && c.zone == ENTRY_ZONE then [c.msg] else []
  {
    assert [c][1..] == [];
    assert Announced([]) == [];
  }

  lemma {:induction false} NoSends(q: seq<Command>, a: Token)
    requires forall i :: 0 <= i < |q| ==> !q[i].SendPacket?
    ensures SendsTo(q, a) == []
    decreases |q|
  {
    if q != [] {
      NoSends(q[1..], a);
    }
  }

  /** A fan-out puts exactly one packet on the stream of each recipient and none on another. */
  lemma {:induction false} FanOutReachesEachOnce(to: seq<Token>, m: Message, a: Token, present: set<Token>)
    requires forall i, j :: 0 <= i < j < |to| ==> to[i] < to[j]
    ensures SendsTo(FanOut(to, m), a) == if a in to then [m] else []
    ensures Coming(FanOut(to, m), a, present) == [] && Announced(FanOut(to, m)) == []
    decreases |to|
  {
    if to != [] {
      var q := FanOut(to, m);
      assert q[0] == SendPacket(to[0], m) && q[1..] == FanOut(to[1..], m);
      FanOutReachesEachOnce(to[1..], m, a, present);
      if to[0] == a {
        assert a !in to[1..];
      }
    }
  }

  lemma {:induction false} SendAllSends(u: Token, ms: seq<Message>, a: Token)
    ensures SendsTo(SendAll(u, ms), a) == if a == u then ms else []
    decreases |ms|
  {
    if ms != [] {
      var q := SendAll(u, ms);
      assert q[0] == SendPacket(u, ms[0]) && q[1..] == SendAll(u, ms[1..]);
      SendAllSends(u, ms[1..], a);
      assert ms == [ms[0]] + ms[1..];
    }
  }

  lemma {:induction false} SendAllAnnouncesNothing(u: Token, ms: seq<Message>, a: Token, present: set<Token>)
    ensures Coming(SendAll(u, ms), a, present) == [] && Announced(SendAll(u, ms)) == []
    decreases |ms|
  {
    if ms != [] {
      var q := SendAll(u, ms);
      assert q[0] == SendPacket(u, ms[0]) && q[1..] == SendAll(u, ms[1..]);
      SendAllAnnouncesNothing(u, ms[1..], a, present);
    }
  }

  /** Addressed packets reach their addressee, all of them and in order, and nobody else. */
  lemma SendAllReachesOne(u: Token, ms: seq<Message>, a: Token, present: set<Token>)
    ensures SendsTo(SendAll(u, ms), a) == if a == u then ms else []
    ensures Coming(SendAll(u, ms), a, present) == [] && Announced(SendAll(u, ms)) == []
  {
    SendAllSends(u, ms, a);
    SendAllAnnouncesNothing(u, ms, a, present);
  }

  /** Only the presence of `t` itself matters for whether the queue will show `t`. */
  lemma {:induction false} ComingFrame(shown: bool, q: seq<Command>, a: Token, p: set<Token>, p': set<Token>, t: Token)
    requires t in p <==> t in p'
    ensures ShownAfter(shown, Coming(q, a, p), t) == ShownAfter(shown, Coming(q, a, p'), t)
    decreases |q|
  {
    if q != [] {
      var m, m' := ComingFrom(q[0], a, p), ComingFrom(q[0], a, p');
      if q[0].SendCharacterList? {
        AscendingVisitsAll(p - {a});
        AscendingVisitsAll(p' - {a});
        ShownByList(shown, Ascending(p - {a}), t);
        ShownByList(shown, Ascending(p' - {a}), t);
      }
      assert ShownAfter(shown, m, t) == ShownAfter(shown, m', t);
      ShownConcat(shown, m, Coming(q[1..], a, p), t);
      ShownConcat(shown, m', Coming(q[1..], a, p'), t);
      ComingFrame(ShownAfter(shown, m, t), q[1..], a, p, p', t);
    }
  }

  /** A client with no list on its way gets the broadcasts only. */
  lemma {:induction false} ComingWithoutLists(q: seq<Command>, a: Token, present: set<Token>)
    requires forall i :: 0 <= i < |q| ==> !(q[i].SendCharacterList? && q[i].token == a)
    ensures Coming(q, a, present) == Announced(q)
    decreases |q|
  {
    if q != [] {
      assert forall i :: 0 <= i < |q[1..]| ==> q[1..][i] == q[i + 1];
      ComingWithoutLists(q[1..], a, present);
    }
  }

  // ---------------------------------------------------------------- the stream that is due

  /** Everything client `a` will have been sent once the commands queued now have run, as long as
      it stays in the entry zone and nobody else enters or leaves. */
  ghost function Due(s: Server, a: Token): seq<Message> {
    s.Stream(a) + (SendsTo(s.Queue(), a) + Coming(s.Queue(), a, s.Members(ENTRY_ZONE)))
  }

  /** Whether `t` will be shown to `a` once its due stream has been handled. */
  ghost predicate DueShows(s: Server, a: Token, t: Token) {
    ShownAfter(false, Due(s, a), t)
  }
}
