/** How each step of the protocol changes what is due to a client. */
module ZoneSteps {
  import opened Common
  import opened ZoneModel
  import opened ZoneStreams

  /** The characters whose membership of the entry zone a step announces. */
  function Touched(s: Server, step: Step): set<Token> {
    if step.Fire? && s.firing != [] then
      match s.firing[0]
      case EnterCharacter(u, z) => if z == ENTRY_ZONE && u in s.sessions then {u} else {}
      case LeaveCharacter(u, z) => if z == ENTRY_ZONE then {u} else {}
      case _ => {}
    else {}
  }

  /** The server after taking the head of the batch off, before running it. */
  function Popped(s: Server): Server
    requires s.firing != []
  {
    s.(firing := s.firing[1..])
  }

  lemma PoppedQueue(s: Server, a: Token, present: set<Token>)
    requires s.firing != []
    ensures s.Queue() == [s.firing[0]] + Popped(s).Queue()
    ensures SendsTo(s.Queue(), a) == SendsTo([s.firing[0]], a) + SendsTo(Popped(s).Queue(), a)
    ensures Coming(s.Queue(), a, present)
         == ComingFrom(s.firing[0], a, present) + Coming(Popped(s).Queue(), a, present)
    ensures Announced(s.Queue()) == Announced([s.firing[0]]) + Announced(Popped(s).Queue())
  {
    var q := s.Queue();
    assert q == [s.firing[0]] + Popped(s).Queue();
    SendsToConcat([s.firing[0]], Popped(s).Queue(), a);
    ComingConcat([s.firing[0]], Popped(s).Queue(), a, present);
    ComingOne(s.firing[0], a, present);
    AnnouncedConcat([s.firing[0]], Popped(s).Queue());
  }

  lemma AddQueue(s: Server, more: seq<Command>, a: Token, present: set<Token>)
    ensures s.Add(more).Queue() == s.Queue() + more
    ensures SendsTo(s.Add(more).Queue(), a) == SendsTo(s.Queue(), a) + SendsTo(more, a)
    ensures Coming(s.Add(more).Queue(), a, present)
         == Coming(s.Queue(), a, present) + Coming(more, a, present)
    ensures Announced(s.Add(more).Queue()) == Announced(s.Queue()) + Announced(more)
  {
    assert s.Add(more).Queue() == s.Queue() + more;
    SendsToConcat(s.Queue(), more, a);
    ComingConcat(s.Queue(), more, a, present);
    AnnouncedConcat(s.Queue(), more);
  }

  lemma AppendToEnd<T>(x: seq<T>, y: seq<T>, c: seq<T>, d: seq<T>)
    ensures x + (y + (c + d)) == (x + (y + c)) + d
  {
    Assoc(y, c, d);
    Assoc(x, y + c, d);
  }

  /** Queueing a command that is not a send to `a` extends the due stream at its end. */
  lemma DueAdd(s: Server, more: seq<Command>, a: Token)
    requires SendsTo(more, a) == []
    ensures Due(s.Add(more), a) == Due(s, a) + Coming(more, a, s.Members(ENTRY_ZONE))
  {
    var z := s.Members(ENTRY_ZONE);
    AddQueue(s, more, a, z);
    assert SendsTo(s.Add(more).Queue(), a) == SendsTo(s.Queue(), a);
    AppendToEnd(s.Stream(a), SendsTo(s.Queue(), a), Coming(s.Queue(), a, z), Coming(more, a, z));
  }

  /** A command that turns the packets `ms` it would give `a` into sends moves them from the front of
      what is coming to the end of what is queued: the due stream stays the same. */
  lemma TurnIntoSends(s: Server, more: seq<Command>, ms: seq<Message>, a: Token)
    requires s.firing != [] && !s.firing[0].SendPacket?
    requires var z := s.Members(ENTRY_ZONE);
             && ComingFrom(s.firing[0], a, z) == ms
             && SendsTo(more, a) == ms && Coming(more, a, z) == []
    ensures Due(Popped(s).Add(more), a) == Due(s, a)
  {
    var z, p := s.Members(ENTRY_ZONE), Popped(s);
    PoppedQueue(s, a, z);
    NoSends([s.firing[0]], a);
    AddQueue(p, more, a, z);
    var y, c := SendsTo(p.Queue(), a), Coming(p.Queue(), a, z);
    assert SendsTo(s.Queue(), a) == y;
    assert Coming(p.Add(more).Queue(), a, z) == c;
    Assoc(y, ms, c);
  }

  lemma MoveToStream<T>(x: seq<T>, m: T, y: seq<T>, c: seq<T>)
    ensures (x + [m]) + (y + c) == x + (([m] + y) + c)
  {
    Assoc(x, [m], y + c);
    Assoc([m], y, c);
  }

  /** The queued send at the head of the batch is the next packet of its recipient's stream. */
  lemma SendKeepsDue(s: Server, a: Token)
    requires s.firing != [] && s.firing[0].SendPacket? && a in s.sessions
    ensures Due(FireNext(s), a) == Due(s, a)
  {
    var SendPacket(u, m) := s.firing[0];
    var z, p := s.Members(ENTRY_ZONE), Popped(s);
    var y, c := SendsTo(p.Queue(), a), Coming(p.Queue(), a, z);
    SentTo(p, u, m, a);
    assert Due(FireNext(s), a) == (if u == a then s.Stream(a) + [m] else s.Stream(a)) + (y + c);
    assert Coming(s.Queue(), a, z) == c && SendsTo(s.Queue(), a) == if u == a then [m] + y else y by {
      PoppedQueue(s, a, z);
      HeadSend(u, m, a);
    }
    MoveToStream(s.Stream(a), m, y, c);
  }

  lemma HeadSend(u: Token, m: Message, a: Token)
    ensures SendsTo([SendPacket(u, m)], a) == if u == a then [m] else []
  {
    assert [SendPacket(u, m)][1..] == [];
  }

  lemma SentTo(p: Server, u: Token, m: Message, a: Token)
    requires a in p.sessions
    ensures var s' := Execute(p, SendPacket(u, m));
            && s'.Queue() == p.Queue() && s'.zones == p.zones
            && s'.Stream(a) == if u == a then p.Stream(a) + [m] else p.Stream(a)
  {
  }

  /** Running a broadcast, a send or a list changes where a packet is, not what a member is due. */
  lemma FireKeepsDue(s: Server, a: Token)
    requires s.firing != [] && s.zones.Keys <= {ENTRY_ZONE}
    requires s.firing[0].SendBroadcast? || s.firing[0].SendPacket? || s.firing[0].SendCharacterList?
    requires a in s.Members(ENTRY_ZONE) && a in s.sessions
    ensures Due(FireNext(s), a) == Due(s, a)
  {
    var p, z := Popped(s), s.Members(ENTRY_ZONE);
    match s.firing[0]
    case SendBroadcast(zone, m) =>
      if zone == ENTRY_ZONE {
        AscendingVisitsAll(z);
        FanOutReachesEachOnce(Ascending(z), m, a, z);
        TurnIntoSends(s, FanOut(Ascending(z), m), [m], a);
      } else {
        FirePopped(s, a);
      }
    case SendPacket(u, m) => SendKeepsDue(s, a);
    case SendCharacterList(u, zone) =>
      if zone == ENTRY_ZONE && u in s.sessions {
        var ms := ListPackets(Ascending(z - {u}));
        SendAllReachesOne(u, ms, a, z);
        TurnIntoSends(s, SendAll(u, ms), if a == u then ms else [], a);
      } else {
        FirePopped(s, a);
      }
  }

  /** Taking a command off that would give `a` nothing leaves its due stream alone. */
  lemma FirePopped(s: Server, a: Token)
    requires s.firing != [] && !s.firing[0].SendPacket?
    requires ComingFrom(s.firing[0], a, s.Members(ENTRY_ZONE)) == []
    ensures Due(Popped(s), a) == Due(s, a)
  {
    var z := s.Members(ENTRY_ZONE);
    PoppedQueue(s, a, z);
    NoSends([s.firing[0]], a);
    assert SendsTo(s.Queue(), a) == SendsTo(Popped(s).Queue(), a);
    assert Coming(s.Queue(), a, z) == Coming(Popped(s).Queue(), a, z);
  }

  /** The due stream of `a` if the zone held `present`. */
  ghost function DueIf(s: Server, a: Token, present: set<Token>): seq<Message> {
    s.Stream(a) + (SendsTo(s.Queue(), a) + Coming(s.Queue(), a, present))
  }

  lemma DueIfFrame(s: Server, a: Token, present: set<Token>, t: Token)
    requires t in present <==> t in s.Members(ENTRY_ZONE)
    ensures ShownAfter(false, DueIf(s, a, present), t) == DueShows(s, a, t)
  {
    var x, y := s.Stream(a), SendsTo(s.Queue(), a);
    var shown := ShownAfter(ShownAfter(false, x, t), y, t);
    var c, c' := Coming(s.Queue(), a, s.Members(ENTRY_ZONE)), Coming(s.Queue(), a, present);
    ShownConcat(false, x, y + c, t);
    ShownConcat(false, x, y + c', t);
    ShownConcat(ShownAfter(false, x, t), y, c, t);
    ShownConcat(ShownAfter(false, x, t), y, c', t);
    ComingFrame(shown, s.Queue(), a, present, s.Members(ENTRY_ZONE), t);
  }

  /** Running an enter command shows the newcomer to everyone, and the zone to the newcomer. */
  lemma FireEnterShows(s: Server, a: Token, t: Token)
    requires s.firing != [] && s.firing[0].EnterCharacter?
    requires s.firing[0].zone == ENTRY_ZONE && s.firing[0].token in s.sessions && t != a
    ensures var u := s.firing[0].token;
            DueShows(FireNext(s), a, t)
            == (t == u || DueShows(s, a, t) || (a == u && t in s.Members(ENTRY_ZONE)))
  {
    var u, p, z := s.firing[0].token, Popped(s), s.Members(ENTRY_ZONE);
    var z' := z + {u};
    var more := [SendBroadcast(ENTRY_ZONE, Enter(u)), SendCharacterList(u, ENTRY_ZONE)];
    var grown := p.(zones := p.zones[ENTRY_ZONE := z']);
    assert FireNext(s) == grown.Add(more);
    FirePopped(s, a);
    EnterComing(u, a, z');
    NoSends(more, a);
    DueAdd(grown, more, a);
    NewcomerShows(DueIf(p, a, z'), u, a, z', t);
    if t != u {
      DueIfFrame(p, a, z', t);
    }
  }

  /** An enter packet and then, for the newcomer itself, the list of everybody else. */
  lemma NewcomerShows(due: seq<Message>, u: Token, a: Token, present: set<Token>, t: Token)
    requires t != a
    ensures var list := if a == u then ListPackets(Ascending(present - {a})) else [];
            ShownAfter(false, due + ([Enter(u)] + list), t)
            == (t == u || ShownAfter(false, due, t) || (a == u && t in present))
  {
    var list := if a == u then ListPackets(Ascending(present - {a})) else [];
    Assoc(due, [Enter(u)], list);
    ShownConcat(false, due + [Enter(u)], list, t);
    ShownLast(false, due, Enter(u), t);
    AscendingVisitsAll(present - {a});
    ShownByList(ShownAfter(false, due + [Enter(u)], t), Ascending(present - {a}), t);
  }

  lemma EnterComing(u: Token, a: Token, present: set<Token>)
    ensures Coming([SendBroadcast(ENTRY_ZONE, Enter(u)), SendCharacterList(u, ENTRY_ZONE)], a, present)
         == [Enter(u)] + if a == u then ListPackets(Ascending(present - {a})) else []
  {
    var b, l := SendBroadcast(ENTRY_ZONE, Enter(u)), SendCharacterList(u, ENTRY_ZONE);
    assert [b, l] == [b] + [l];
    ComingConcat([b], [l], a, present);
    ComingOne(b, a, present);
    ComingOne(l, a, present);
  }

  /** Running a leave command hides the one who left from every other member, and nothing else. */
  lemma FireLeaveShows(s: Server, a: Token, t: Token)
    requires s.firing != [] && s.firing[0].LeaveCharacter? && s.zones.Keys <= {ENTRY_ZONE}
    requires t != a
    ensures var LeaveCharacter(u, zone) := s.firing[0];
            DueShows(FireNext(s), a, t)
            == (DueShows(s, a, t) && !(zone == ENTRY_ZONE && t == u))
  {
    var LeaveCharacter(u, zone) := s.firing[0];
    var p := Popped(s);
    var more := [SendBroadcast(zone, Leave(u))];
    var shrunk := FireNext(s).(cmds := p.cmds);
    assert FireNext(s) == shrunk.Add(more);
    FirePopped(s, a);
    NoSends(more, a);
    DueAdd(shrunk, more, a);
    ComingOne(more[0], a, shrunk.Members(ENTRY_ZONE));
    var due := DueIf(p, a, shrunk.Members(ENTRY_ZONE));
    assert Due(shrunk, a) == due;
    if zone == ENTRY_ZONE {
      assert Due(FireNext(s), a) == due + [Leave(u)];
      ShownLast(false, due, Leave(u), t);
      if t != u {
        DueIfFrame(p, a, shrunk.Members(ENTRY_ZONE), t);
      }
    } else {
      assert Due(FireNext(s), a) == due;
      DueIfFrame(p, a, shrunk.Members(ENTRY_ZONE), t);
    }
  }

  /** A packet that says nothing about membership may be put on the stream at any time. */
  lemma BeatShows(s: Server, a: Token, u: Token, t: Token)
    requires u in s.sessions
    ensures DueShows(NextServer(s, Beat(u)), a, t) == DueShows(s, a, t)
  {
    var s', rest := NextServer(s, Beat(u)), SendsTo(s.Queue(), a) + Coming(s.Queue(), a, s.Members(ENTRY_ZONE));
    assert Due(s', a) == s'.Stream(a) + rest;
    if a == u { HeartbeatShows(s.Stream(a), rest, t); }
  }

  lemma HeartbeatShows(stream: seq<Message>, rest: seq<Message>, t: Token)
    ensures ShownAfter(false, (stream + [Heartbeat]) + rest, t) == ShownAfter(false, stream + rest, t)
  {
    ShownConcat(false, stream, rest, t);
    ShownConcat(false, stream + [Heartbeat], rest, t);
    ShownLast(false, stream, Heartbeat, t);
  }

  /** Packets from clients only queue commands, which show or hide nobody until they run. */
  lemma RequestShows(s: Server, c: Command, a: Token, t: Token)
    requires c.EnterCharacter? || c.LeaveCharacter? || (c.SendBroadcast? && c.msg.Relay?)
    ensures DueShows(s.Add([c]), a, t) == DueShows(s, a, t)
  {
    NoSends([c], a);
    DueAdd(s, [c], a);
    ComingOne(c, a, s.Members(ENTRY_ZONE));
    if c.SendBroadcast? && c.zone == ENTRY_ZONE {
      ShownLast(false, Due(s, a), c.msg, t);
    } else {
      assert Due(s.Add([c]), a) == Due(s, a);
    }
  }

  /** A session's own fields are not part of what is due. */
  lemma SameDue(s: Server, s': Server, a: Token)
    requires s'.zones == s.zones && s'.Stream(a) == s.Stream(a) && s'.Queue() == s.Queue()
    ensures Due(s', a) == Due(s, a)
  {
  }

  /** One step, seen by a client that is a live member before and after it: a character it announces
      is due to be shown exactly if it is now in the zone; nothing changes for the others, except
      that a member entering again is told of the whole zone again. */
  lemma StepShows(w: World, step: Step, a: Token, t: Token)
    requires var s, s' := w.server, Next(w, step).server;
             && s.zones.Keys <= {ENTRY_ZONE} && a in w.clients && t != a
             && a in s.Members(ENTRY_ZONE) && a in s.sessions
             && a in s'.Members(ENTRY_ZONE) && a in s'.sessions
    ensures var s, s' := w.server, Next(w, step).server;
            && (t in Touched(s, step) ==> DueShows(s', a, t) == (t in s'.Members(ENTRY_ZONE)))
            && (t !in Touched(s, step) ==>
                  && (t in s'.Members(ENTRY_ZONE) <==> t in s.Members(ENTRY_ZONE))
                  && (DueShows(s, a, t) ==> DueShows(s', a, t))
                  && (DueShows(s', a, t) ==> DueShows(s, a, t) || t in s.Members(ENTRY_ZONE)))
  {
    var s, s' := w.server, Next(w, step).server;
    if step.Fire? {
      if s.firing != [] { FireShows(w, a, t); }
    } else {
      assert s'.zones == s.zones && Touched(s, step) == {};
      RestShows(w, step, a, t);
    }
  }

  lemma FireShows(w: World, a: Token, t: Token)
    requires var s := w.server;
             && s.firing != [] && s.zones.Keys <= {ENTRY_ZONE} && t != a
             && a in s.Members(ENTRY_ZONE) && a in s.sessions && a in FireNext(s).Members(ENTRY_ZONE)
    ensures var s, s' := w.server, FireNext(w.server);
            && (t in Touched(s, Fire) ==> DueShows(s', a, t) == (t in s'.Members(ENTRY_ZONE)))
            && (t !in Touched(s, Fire) ==>
                  && (t in s'.Members(ENTRY_ZONE) <==> t in s.Members(ENTRY_ZONE))
                  && (DueShows(s, a, t) ==> DueShows(s', a, t))
                  && (DueShows(s', a, t) ==> DueShows(s, a, t) || t in s.Members(ENTRY_ZONE)))
  {
    var s := w.server;
    match s.firing[0]
    case EnterCharacter(u, z) =>
      if u in s.sessions && z == ENTRY_ZONE {
        FireEnterShows(s, a, t);
      } else if u in s.sessions {
        EnterElsewhere(s, a);
      } else {
        FirePopped(s, a);
      }
    case LeaveCharacter(u, z) => FireLeaveShows(s, a, t);
    case _ => FireKeepsDue(s, a);
  }

  /** An enter command for another zone is no concern of the entry zone. */
  lemma EnterElsewhere(s: Server, a: Token)
    requires s.firing != [] && s.firing[0].EnterCharacter? && s.firing[0].token in s.sessions
    requires s.firing[0].zone != ENTRY_ZONE
    ensures Due(FireNext(s), a) == Due(s, a)
  {
    var EnterCharacter(u, z) := s.firing[0];
    var p := Popped(s);
    var b, l := SendBroadcast(z, Enter(u)), SendCharacterList(u, z);
    var grown := p.(zones := p.zones[z := p.Members(z) + {u}]);
    assert FireNext(s) == grown.Add([b, l]);
    FirePopped(s, a);
    assert [b, l] == [b] + [l];
    ComingConcat([b], [l], a, grown.Members(ENTRY_ZONE));
    ComingOne(b, a, grown.Members(ENTRY_ZONE));
    ComingOne(l, a, grown.Members(ENTRY_ZONE));
    NoSends([b, l], a);
    DueAdd(grown, [b, l], a);
  }

  lemma RestShows(w: World, step: Step, a: Token, t: Token)
    requires !step.Fire? && a in w.clients
    ensures DueShows(Next(w, step).server, a, t) == DueShows(w.server, a, t)
  {
    var s, s' := w.server, Next(w, step).server;
    match step
    case Auth(u, _) =>
      if u != NO_TOKEN && u !in w.clients { SameDue(s, s', a); }
    case CsEnter(u) =>
      if u in s.sessions {
        var moved := s.(sessions := s.sessions[u := ENTRY_ZONE]);
        SameDue(s, moved, a);
        RequestShows(moved, EnterCharacter(u, ENTRY_ZONE), a, t);
      }
    case CsLeave(u) =>
      if u in s.sessions { RequestShows(s, LeaveCharacter(u, s.sessions[u]), a, t); }
    case CsRelay(u, p) =>
      if u in s.sessions { RequestShows(s, SendBroadcast(s.sessions[u], Relay(p)), a, t); }
    case Anonymous(c) =>
      if AnonymousCommand(c) { RequestShows(s, c, a, t); }
    case Release(u) =>
      if u in s.sessions {
        var gone := s.(sessions := s.sessions - {u});
        SameDue(s, gone, a);
        if s.sessions[u] == NO_ZONE {
          assert s'.Queue() == gone.Queue();
          SameDue(gone, s', a);
        } else {
          RequestShows(gone, LeaveCharacter(u, s.sessions[u]), a, t);
        }
      }
    case Beat(u) =>
      if u in s.sessions { BeatShows(s, a, u, t); }
    case Swap =>
      assert s'.Queue() == s.Queue();
      SameDue(s, s', a);
    case Deliver(u) =>
  }
}
