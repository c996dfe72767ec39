/** Every client's view against the zone map: convergence for a client that stays, and the exact
    view of one that has left and come back. */
module ZoneConvergence {
  import opened ZoneModel
  import opened ZoneStreams
  import opened ZoneSteps
  import opened ZoneInvariant

  /** The characters whose coming or going a run announces. */
  ghost function AllTouched(w: World, steps: seq<Step>): set<Token>
    decreases |steps|
  {
    if steps == [] then {} else Touched(w.server, steps[0]) + AllTouched(Next(w, steps[0]), steps[1..])
  }

  /** Throughout the run `a`, once in the zone, stays in it, and its session is not released. */
  ghost predicate Stays(w: World, steps: seq<Step>, a: Token)
    decreases |steps|
  {
    steps == [] ||
    (var w' := Next(w, steps[0]);
     && (a in w.server.Members(ENTRY_ZONE) ==> a in w'.server.Members(ENTRY_ZONE))
     && (a in w.server.sessions ==> a in w'.server.sessions)
     && Stays(w', steps[1..], a))
  }

  /** The queue is drained and the client has handled everything on its stream. */
  ghost predicate Settled(w: World, a: Token) {
    a in w.clients && w.server.Queue() == [] && w.clients[a].read == |w.server.Stream(a)|
  }

  lemma SettledView(w: World, a: Token, t: Token)
    requires Inv(w) && Settled(w, a)
    ensures t in w.clients[a].view <==> t != a && DueShows(w.server, a, t)
  {
    var stream := w.server.Stream(a);
    assert stream[..w.clients[a].read] == stream;
    assert Due(w.server, a) == stream;
    ReplayShows(stream, a, t);
  }

  // ---------------------------------------------------------------- members

  /** What a live member is due to see after a run: the zone as it is now, and beyond that only
      what it was already due to see and the run never announced. */
  lemma {:induction false} MemberView(w: World, steps: seq<Step>, a: Token, t: Token)
    requires Inv(w) && Stays(w, steps, a) && t != a
    requires a in w.server.Members(ENTRY_ZONE) && a in w.server.sessions
    ensures var s' := Run(w, steps).server;
            && a in s'.Members(ENTRY_ZONE) && a in s'.sessions
            && DueShows(s', a, t)
               == (t in s'.Members(ENTRY_ZONE) || (t !in AllTouched(w, steps) && DueShows(w.server, a, t)))
            && (t !in AllTouched(w, steps) ==>
                  (t in s'.Members(ENTRY_ZONE) <==> t in w.server.Members(ENTRY_ZONE)))
    decreases |steps|
  {
    if steps != [] {
      StepShows(w, steps[0], a, t);
      InvStep(w, steps[0]);
      MemberView(Next(w, steps[0]), steps[1..], a, t);
    }
  }

  /** Exactly what a settled member shows, after any history and however often it has left and come
      back: the others in the zone, plus whatever it was due to see at any earlier moment `before` of
      its stay that has since neither entered nor left. Its view is the zone map if and only if
      every such leftover was announced again. */
  lemma ViewIsZoneAndLeftovers(before: seq<Step>, after: seq<Step>, a: Token)
    requires var w := Run(EMPTY_WORLD, before);
             && a in w.server.Members(ENTRY_ZONE) && a in w.server.sessions
             && Stays(w, after, a) && Settled(Run(w, after), a)
    ensures var w := Run(EMPTY_WORLD, before); var w' := Run(w, after);
            && (forall t :: t in w'.clients[a].view <==>
                  t != a && (t in w'.server.Members(ENTRY_ZONE)
                             || (DueShows(w.server, a, t) && t !in AllTouched(w, after))))
            && (w'.clients[a].view == w'.server.Members(ENTRY_ZONE) - {a} <==>
                  forall t :: t != a && DueShows(w.server, a, t) && t !in w.server.Members(ENTRY_ZONE)
                    ==> t in AllTouched(w, after))
  {
    var w := Run(EMPTY_WORLD, before);
    var w' := Run(w, after);
    InvEmpty();
    InvRun(EMPTY_WORLD, before);
    InvRun(w, after);
    forall t
      ensures t in w'.clients[a].view <==>
                t != a && (t in w'.server.Members(ENTRY_ZONE)
                           || (DueShows(w.server, a, t) && t !in AllTouched(w, after)))
      ensures t != a && t !in AllTouched(w, after) ==>
                (t in w'.server.Members(ENTRY_ZONE) <==> t in w.server.Members(ENTRY_ZONE))
    {
      SettledView(w', a, t);
      if t != a { MemberView(w, after, a, t); }
    }
    var view, zone := w'.clients[a].view, w'.server.Members(ENTRY_ZONE) - {a};
    if forall t :: t != a && DueShows(w.server, a, t) && t !in w.server.Members(ENTRY_ZONE)
         ==> t in AllTouched(w, after) {
      forall t ensures t in view <==> t in zone {
      }
      assert view == zone;
    } else {
      var t :| t != a && DueShows(w.server, a, t) && t !in w.server.Members(ENTRY_ZONE) && t !in AllTouched(w, after);
      assert t in view && t !in zone;
    }
  }

  // ---------------------------------------------------------------- first entry

  /** A client that has never been in the zone: nothing about anybody is on its way to it. */
  ghost predicate Newcomer(w: World, a: Token) {
    var s := w.server;
    && a in w.clients && a !in s.Members(ENTRY_ZONE)
    && SendsTo(s.Queue(), a) == []
    && (forall i :: 0 <= i < |s.Queue()| ==> !(s.Queue()[i].SendCharacterList? && s.Queue()[i].token == a))
    && forall t :: !ShownAfter(false, s.Stream(a), t)
  }

  /** A member that is due to be shown exactly the others in the zone. */
  ghost predicate InStep(w: World, a: Token) {
    && a in w.server.Members(ENTRY_ZONE)
    && forall t :: t != a ==> (DueShows(w.server, a, t) <==> t in w.server.Members(ENTRY_ZONE))
  }

  lemma NewcomerDue(w: World, a: Token, t: Token)
    requires Inv(w) && Newcomer(w, a)
    ensures DueShows(w.server, a, t) ==> t in w.server.Members(ENTRY_ZONE)
  {
    var s := w.server;
    ComingWithoutLists(s.Queue(), a, s.Members(ENTRY_ZONE));
    var rest := SendsTo(s.Queue(), a) + Coming(s.Queue(), a, s.Members(ENTRY_ZONE));
    assert rest == Announced(s.Queue());
    ShownConcat(false, s.Stream(a), rest, t);
  }

  lemma NewcomerEnters(w: World, a: Token)
    requires Inv(w) && Newcomer(w, a) && a in w.server.sessions
    requires w.server.firing != [] && w.server.firing[0] == EnterCharacter(a, ENTRY_ZONE)
    ensures InStep(Next(w, Fire), a)
  {
    forall t | t != a
      ensures DueShows(FireNext(w.server), a, t) <==> t in FireNext(w.server).Members(ENTRY_ZONE)
    {
      NewcomerDue(w, a, t);
      FireEnterShows(w.server, a, t);
    }
  }

  /** Commands a step appends reach only members, and those who have just entered. */
  lemma AppendedSpares(w: World, step: Step, a: Token)
    requires Inv(w) && a !in w.server.Members(ENTRY_ZONE) && a !in Touched(w.server, step)
    requires forall i :: 0 <= i < |w.server.Queue()| ==>
               !(w.server.Queue()[i].SendCharacterList? && w.server.Queue()[i].token == a)
    ensures SendsTo(Appended(w.server, step), a) == []
    ensures forall c :: c in Appended(w.server, step) ==> !(c.SendCharacterList? && c.token == a)
  {
    var s := w.server;
    var q := Appended(s, step);
    if step.Fire? && s.firing != [] {
      PoppedSane(w);
      assert s.Queue()[0] == s.firing[0];
      match s.firing[0]
      case SendBroadcast(zone, m) =>
        if zone in s.zones {
          AscendingVisitsAll(s.zones[zone]);
          FanOutReachesEachOnce(Ascending(s.zones[zone]), m, a, {});
          FanOutOnlySends(Ascending(s.zones[zone]), m);
        }
      case SendCharacterList(u, zone) =>
        if u in s.sessions && zone in s.zones {
          var ms := ListPackets(Ascending(s.zones[zone] - {u}));
          SendAllReachesOne(u, ms, a, {});
          SendAllOnlySends(u, ms);
        }
      case _ => NoSends(q, a);
    } else {
      NoSends(q, a);
    }
  }

  lemma {:induction false} FanOutOnlySends(to: seq<Token>, m: Message)
    ensures forall c :: c in FanOut(to, m) ==> c.SendPacket?
    decreases |to|
  {
    if to != [] { FanOutOnlySends(to[1..], m); }
  }

  lemma {:induction false} SendAllOnlySends(u: Token, ms: seq<Message>)
    ensures forall c :: c in SendAll(u, ms) ==> c.SendPacket?
    decreases |ms|
  {
    if ms != [] { SendAllOnlySends(u, ms[1..]); }
  }

  /** A newcomer stays one until its own enter command runs. */
  lemma NewcomerStep(w: World, step: Step, a: Token)
    requires Inv(w) && Newcomer(w, a) && a !in Touched(w.server, step)
    ensures Newcomer(Next(w, step), a)
  {
    var s, s' := w.server, Next(w, step).server;
    UntouchedStay(w, step, a);
    AppendedSpares(w, step, a);
    QueueAppends(w, step);
    SendsToConcat(Taken(s, step), s'.Queue(), a);
    SendsToConcat(s.Queue(), Appended(s, step), a);
    assert SendsTo(Taken(s, step), a) + SendsTo(s'.Queue(), a) == [];
    forall i | 0 <= i < |s'.Queue()|
      ensures !(s'.Queue()[i].SendCharacterList? && s'.Queue()[i].token == a)
    {
      var c := s'.Queue()[i];
      assert c in Taken(s, step) + s'.Queue();
      assert c in s.Queue() || c in Appended(s, step);
    }
    NewcomerStream(w, step, a);
  }

  lemma NewcomerStream(w: World, step: Step, a: Token)
    requires Inv(w) && Newcomer(w, a)
    ensures forall t :: !ShownAfter(false, Next(w, step).server.Stream(a), t)
  {
    var s := w.server;
    StreamStep(w, step, a);
    if step.Fire? && s.firing != [] && s.firing[0].SendPacket? && s.firing[0].token == a {
      PoppedQueue(s, a, {});
      HeadSend(a, s.firing[0].msg, a);
    }
    assert Sent(s, step, a) == [] || Sent(s, step, a) == [Heartbeat];
    forall t ensures !ShownAfter(false, s.Stream(a) + Sent(s, step, a), t) {
      if Sent(s, step, a) == [] {
        assert s.Stream(a) + Sent(s, step, a) == s.Stream(a);
      } else {
        ShownLast(false, s.Stream(a), Heartbeat, t);
      }
    }
  }

  lemma Issued(w: World, a: Token, entered: bool)
    requires Inv(w) && a !in w.clients && a != NO_TOKEN
    ensures Newcomer(Next(w, Auth(a, entered)), a)
  {
    var s' := Next(w, Auth(a, entered)).server;
    assert s'.Queue() == w.server.Queue();
    NoneTo(w.server.Queue(), a, w.clients.Keys);
    forall t ensures !ShownAfter(false, s'.Stream(a), t) {
      assert s'.Stream(a) == [] + [AuthResult(a)];
      ShownLast(false, [], AuthResult(a), t);
    }
  }

  lemma {:induction false} NoneTo(q: seq<Command>, a: Token, issued: set<Token>)
    requires a !in issued && forall c :: c in q ==> SaneCommand(c, issued)
    ensures SendsTo(q, a) == []
    ensures forall i :: 0 <= i < |q| ==> !(q[i].SendCharacterList? && q[i].token == a)
    decreases |q|
  {
    if q != [] {
      assert q[0] in q;
      assert forall c :: c in q[1..] ==> c in q;
      NoneTo(q[1..], a, issued);
      assert forall i :: 0 < i < |q| ==> q[i] == q[1..][i - 1];
    }
  }

  /** Where a client that stays stands: not yet known, new, or in step with the zone. */
  ghost predicate OnTrack(w: World, a: Token) {
    a !in w.clients || a !in w.server.sessions || Newcomer(w, a) || InStep(w, a)
  }

  lemma OnTrackStep(w: World, step: Step, a: Token)
    requires Inv(w) && OnTrack(w, a) && Stays(w, [step], a)
    ensures OnTrack(Next(w, step), a)
  {
    var w' := Next(w, step);
    InvStep(w, step);
    if a in w'.clients && a in w'.server.sessions {
      if a !in w.clients {
        Issued(w, a, step.entered);
      } else {
        LiveBefore(w, step, a);
        if Newcomer(w, a) {
          if a in Touched(w.server, step) {
            NewcomerTouched(w, step, a);
          } else {
            NewcomerStep(w, step, a);
          }
        } else {
          forall t | t != a ensures DueShows(w'.server, a, t) <==> t in w'.server.Members(ENTRY_ZONE) {
            StepShows(w, step, a, t);
          }
        }
      }
    }
  }

  /** Only its own enter or leave command touches a newcomer; a leave finds nothing to remove. */
  lemma NewcomerTouched(w: World, step: Step, a: Token)
    requires Inv(w) && Newcomer(w, a) && a in w.server.sessions && a in Touched(w.server, step)
    ensures Newcomer(Next(w, step), a) || InStep(Next(w, step), a)
  {
    var s := w.server;
    PoppedSane(w);
    if s.firing[0].EnterCharacter? {
      NewcomerEnters(w, a);
    } else {
      var s', p := FireNext(s), Popped(s);
      var more := [SendBroadcast(ENTRY_ZONE, Leave(a))];
      PoppedQueue(s, a, {});
      assert s'.Queue() == p.Queue() + more;
      SendsToConcat(p.Queue(), more, a);
      NoSends(more, a);
      NoSends([s.firing[0]], a);
      forall i | 0 <= i < |s'.Queue()|
        ensures !(s'.Queue()[i].SendCharacterList? && s'.Queue()[i].token == a)
      {
        if i < |p.Queue()| { assert s'.Queue()[i] == s.Queue()[i + 1]; }
      }
    }
  }

  lemma {:induction false} OnTrackRun(w: World, steps: seq<Step>, a: Token)
    requires Inv(w) && OnTrack(w, a) && Stays(w, steps, a)
    ensures OnTrack(Run(w, steps), a)
    decreases |steps|
  {
    if steps != [] {
      assert Stays(w, [steps[0]], a) by { assert [steps[0]][1..] == []; }
      OnTrackStep(w, steps[0], a);
      InvStep(w, steps[0]);
      OnTrackRun(Next(w, steps[0]), steps[1..], a);
    }
  }

  /** View convergence: in every run of authentications, enters, leaves, relays, heartbeats and
      releases by any sessions, interleaved in any way with ticks and deliveries, a client that has
      entered the zone and not left it shows exactly the other members once everything is drained. */
  lemma ViewConverges(steps: seq<Step>, a: Token)
    requires Stays(EMPTY_WORLD, steps, a)
    requires var w := Run(EMPTY_WORLD, steps);
             a in w.server.Members(ENTRY_ZONE) && a in w.server.sessions && Settled(w, a)
    ensures var w := Run(EMPTY_WORLD, steps);
            w.clients[a].view == w.server.Members(ENTRY_ZONE) - {a}
  {
    var w := Run(EMPTY_WORLD, steps);
    InvEmpty();
    InvRun(EMPTY_WORLD, steps);
    OnTrackRun(EMPTY_WORLD, steps, a);
    forall t ensures t in w.clients[a].view <==> t in w.server.Members(ENTRY_ZONE) - {a} {
      SettledView(w, a, t);
    }
  }
}
