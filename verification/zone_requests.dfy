/** What a client's requests come to: who is in the zone once the queue has drained. */
module ZoneRequests {
  import opened Common
  import opened ZoneModel
  import opened ZoneStreams
  import opened ZoneSteps
  import opened ZoneInvariant
  import opened ZoneConvergence
  import opened ZoneDelivery
  import opened ZoneLimits
  import opened ZoneTicks

  // ---------------------------------------------------------------- what is queued about a character

  predicate EnterQueued(q: seq<Command>, t: Token) {
    EnterCharacter(t, ENTRY_ZONE) in q
  }

  /** A leave with no enter behind it. */
  predicate LeaveBehind(q: seq<Command>, t: Token) {
    exists i :: 0 <= i < |q| && q[i] == LeaveCharacter(t, ENTRY_ZONE) && !EnterQueued(q[i + 1..], t)
  }

  /** Whether `t` is in the zone after a command, while its session lives. */
  function After(present: bool, c: Command, t: Token): bool {
    if c == EnterCharacter(t, ENTRY_ZONE) then true
    else if c == LeaveCharacter(t, ENTRY_ZONE) then false
    else present
  }

  function Fate(present: bool, q: seq<Command>, t: Token): bool
    decreases |q|
  {
    if q == [] then present else Fate(After(present, q[0], t), q[1..], t)
  }

  lemma {:induction false} FateConcat(present: bool, p: seq<Command>, q: seq<Command>, t: Token)
    ensures Fate(present, p + q, t) == Fate(Fate(present, p, t), q, t)
    decreases |p|
  {
    if p == [] {
      assert p + q == q;
    } else {
      assert (p + q)[0] == p[0] && (p + q)[1..] == p[1..] + q;
      FateConcat(After(present, p[0], t), p[1..], q, t);
    }
  }

  lemma FateOne(present: bool, c: Command, t: Token)
    ensures Fate(present, [c], t) == After(present, c, t)
  {
    assert [c][1..] == [];
  }

  lemma {:induction false} FateMonotone(q: seq<Command>, t: Token)
    ensures Fate(false, q, t) ==> Fate(true, q, t)
    decreases |q|
  {
    if q != [] { FateMonotone(q[1..], t); }
  }

  lemma {:induction false} FateUnmentioned(present: bool, q: seq<Command>, t: Token)
    requires forall c :: c in q ==> After(present, c, t) == present
    ensures Fate(present, q, t) == present
    decreases |q|
  {
    if q != [] {
      assert q[0] in q && forall c :: c in q[1..] ==> c in q;
      FateUnmentioned(present, q[1..], t);
    }
  }

  /** Out in the end exactly if a leave comes behind every queued enter, or it is not there and no enter
      is queued. */
  lemma {:induction false} FateIff(present: bool, q: seq<Command>, t: Token)
    ensures !Fate(present, q, t) <==> LeaveBehind(q, t) || (!present && !EnterQueued(q, t))
    decreases |q|
  {
    if q != [] {
      var tail := q[1..];
      FateIff(After(present, q[0], t), tail, t);
      assert EnterQueued(q, t) <==> q[0] == EnterCharacter(t, ENTRY_ZONE) || EnterQueued(tail, t);
      LeaveBehindCons(q, t);
    }
  }

  lemma LeaveBehindCons(q: seq<Command>, t: Token)
    requires q != []
    ensures LeaveBehind(q, t) <==>
              LeaveBehind(q[1..], t) || (q[0] == LeaveCharacter(t, ENTRY_ZONE) && !EnterQueued(q[1..], t))
  {
    var tail := q[1..];
    if LeaveBehind(tail, t) {
      var i :| 0 <= i < |tail| && tail[i] == LeaveCharacter(t, ENTRY_ZONE) && !EnterQueued(tail[i + 1..], t);
      assert q[i + 1] == tail[i] && q[i + 2..] == tail[i + 1..];
    }
    if LeaveBehind(q, t) {
      var i :| 0 <= i < |q| && q[i] == LeaveCharacter(t, ENTRY_ZONE) && !EnterQueued(q[i + 1..], t);
      if i > 0 { assert tail[i - 1] == q[i] && tail[i..] == q[i + 1..]; }
    }
  }

  // ---------------------------------------------------------------- steps

  /** Where the queue will leave `t`, if its session lives on. */
  ghost predicate Fated(s: Server, t: Token) {
    Fate(t in s.Members(ENTRY_ZONE), s.Queue(), t)
  }

  /** Running a command queues no enter and no leave. */
  lemma EmittedNeutral(s: Server, c: Command)
    ensures forall d :: d in Emitted(s, c) ==> !d.EnterCharacter? && !d.LeaveCharacter?
  {
    EmittedWithin(s, c);
  }

  /** What one step does to where `t` will end up: the commands it queues, after those queued already. */
  lemma FatedStep(w: World, step: Step, t: Token)
    requires Inv(w) && t in w.server.sessions
    ensures Fated(Next(w, step).server, t) == Fate(Fated(w.server, t), Appended(w.server, step), t)
  {
    var s, s' := w.server, Next(w, step).server;
    var now := t in s.Members(ENTRY_ZONE);
    QueueAppends(w, step);
    FateConcat(now, s.Queue(), Appended(s, step), t);
    FateConcat(now, Taken(s, step), s'.Queue(), t);
    TakenMoves(w, step, t);
  }

  lemma TakenMoves(w: World, step: Step, t: Token)
    requires Inv(w) && t in w.server.sessions
    ensures (t in Next(w, step).server.Members(ENTRY_ZONE))
         == Fate(t in w.server.Members(ENTRY_ZONE), Taken(w.server, step), t)
  {
    var s := w.server;
    if step.Fire? && s.firing != [] {
      PoppedSane(w);
      FateOne(t in s.Members(ENTRY_ZONE), s.firing[0], t);
      if t !in Touched(s, step) { UntouchedStay(w, step, t); }
    } else {
      UntouchedStay(w, step, t);
    }
  }

  /** Only its own requests queue an enter or a leave of a character. */
  lemma OthersNeutral(w: World, step: Step, t: Token)
    requires Inv(w) && t in w.server.sessions
    requires step != CsEnter(t) && step != CsLeave(t) && step != Release(t)
    ensures Fated(Next(w, step).server, t) == Fated(w.server, t)
  {
    var s, q := w.server, Appended(w.server, step);
    FatedStep(w, step, t);
    assert t != NO_TOKEN;
    if step.Fire? && s.firing != [] { EmittedNeutral(Popped(s), s.firing[0]); }
    FateUnmentioned(Fated(s, t), q, t);
  }

  predicate Without(steps: seq<Step>, step: Step) {
    forall i :: 0 <= i < |steps| ==> steps[i] != step
  }

  lemma OwnRequest(w: World, step: Step, c: Command, t: Token)
    requires Inv(w) && t in w.server.sessions && Appended(w.server, step) == [c]
    ensures Fated(Next(w, step).server, t) == After(Fated(w.server, t), c, t)
  {
    FatedStep(w, step, t);
    FateOne(Fated(w.server, t), c, t);
  }

  // ---------------------------------------------------------------- entering

  /** A live session that is bound for the zone gets there unless it asks to leave or is released. */
  lemma {:induction false} BoundForZone(w: World, steps: seq<Step>, t: Token)
    requires Inv(w) && t in w.server.sessions && Fated(w.server, t)
    requires Without(steps, CsLeave(t)) && Without(steps, Release(t))
    ensures t in Run(w, steps).server.sessions && Fated(Run(w, steps).server, t)
    decreases |steps|
  {
    if steps != [] {
      if steps[0] == CsEnter(t) {
        OwnRequest(w, steps[0], EnterCharacter(t, ENTRY_ZONE), t);
      } else {
        OthersNeutral(w, steps[0], t);
      }
      InvStep(w, steps[0]);
      SessionLives(w, steps[0], t);
      BoundForZone(Next(w, steps[0]), steps[1..], t);
    }
  }

  lemma SessionLives(w: World, step: Step, t: Token)
    requires t in w.server.sessions && step != Release(t)
    ensures t in Next(w, step).server.sessions
  {
  }

  /** An enter request is granted: whatever happened before, and whatever else happens, once the queue is
      drained the character is in the zone, unless it asked to leave again or was released. */
  lemma EnterAdmits(before: seq<Step>, after: seq<Step>, t: Token)
    requires t in Run(EMPTY_WORLD, before).server.sessions
    requires Without(after, CsLeave(t)) && Without(after, Release(t))
    requires Run(Next(Run(EMPTY_WORLD, before), CsEnter(t)), after).server.Queue() == []
    ensures t in Run(Next(Run(EMPTY_WORLD, before), CsEnter(t)), after).server.Members(ENTRY_ZONE)
  {
    var w := Run(EMPTY_WORLD, before);
    InvEmpty();
    InvRun(EMPTY_WORLD, before);
    EnterAdmitsFrom(w, after, t);
  }

  lemma EnterAdmitsFrom(w: World, after: seq<Step>, t: Token)
    requires Inv(w) && t in w.server.sessions && Without(after, CsLeave(t)) && Without(after, Release(t))
    ensures Fated(Run(Next(w, CsEnter(t)), after).server, t)
  {
    OwnRequest(w, CsEnter(t), EnterCharacter(t, ENTRY_ZONE), t);
    InvStep(w, CsEnter(t));
    SessionLives(w, CsEnter(t), t);
    BoundForZone(Next(w, CsEnter(t)), after, t);
  }

  /** Authentication makes a session of a new token: it can enter. */
  lemma AuthenticatedCanEnter(before: seq<Step>, after: seq<Step>, t: Token, entered: bool)
    requires t != NO_TOKEN && t !in Run(EMPTY_WORLD, before).clients
    requires Without(after, CsLeave(t)) && Without(after, Release(t))
    requires Run(Next(Next(Run(EMPTY_WORLD, before), Auth(t, entered)), CsEnter(t)), after).server.Queue() == []
    ensures t in Run(Next(Next(Run(EMPTY_WORLD, before), Auth(t, entered)), CsEnter(t)), after).server.Members(ENTRY_ZONE)
  {
    var w := Run(EMPTY_WORLD, before);
    InvEmpty();
    InvRun(EMPTY_WORLD, before);
    InvStep(w, Auth(t, entered));
    EnterAdmitsFrom(Next(w, Auth(t, entered)), after, t);
  }

  // ---------------------------------------------------------------- leaving

  /** A character that is bound to be out stays so until it asks to enter, released or not. */
  lemma BoundForExitStep(w: World, step: Step, t: Token)
    requires Inv(w) && t in w.clients && !Fated(w.server, t) && step != CsEnter(t)
    ensures !Fated(Next(w, step).server, t)
  {
    var s, s' := w.server, Next(w, step).server;
    var q := Appended(s, step);
    var now := t in s.Members(ENTRY_ZONE);
    assert t != NO_TOKEN;
    QueueAppends(w, step);
    FateConcat(now, s.Queue(), q, t);
    FateConcat(now, Taken(s, step), s'.Queue(), t);
    if step.Fire? && s.firing != [] { EmittedNeutral(Popped(s), s.firing[0]); }
    FateUnmentioned(false, q, t);
    TakenAtMost(w, step, t);
    FateMonotone(s'.Queue(), t);
  }

  /** Without a session an enter command does nothing. */
  lemma TakenAtMost(w: World, step: Step, t: Token)
    requires Inv(w)
    ensures t in Next(w, step).server.Members(ENTRY_ZONE) ==>
              Fate(t in w.server.Members(ENTRY_ZONE), Taken(w.server, step), t)
  {
    var s := w.server;
    if step.Fire? && s.firing != [] {
      PoppedSane(w);
      FateOne(t in s.Members(ENTRY_ZONE), s.firing[0], t);
      if t !in Touched(s, step) { UntouchedStay(w, step, t); }
    } else {
      UntouchedStay(w, step, t);
    }
  }

  lemma {:induction false} BoundForExit(w: World, steps: seq<Step>, t: Token)
    requires Inv(w) && t in w.clients && !Fated(w.server, t) && Without(steps, CsEnter(t))
    ensures !Fated(Run(w, steps).server, t)
    decreases |steps|
  {
    if steps != [] {
      BoundForExitStep(w, steps[0], t);
      InvStep(w, steps[0]);
      BoundForExit(Next(w, steps[0]), steps[1..], t);
    }
  }

  /** A session that knows no zone can ask to leave as often as it likes: nothing comes of it. */
  lemma {:induction false} LeavesNothing(w: World, steps: seq<Step>, t: Token)
    requires Inv(w) && t in w.server.sessions && w.server.sessions[t] == NO_ZONE
    requires Without(steps, CsEnter(t)) && Without(steps, Release(t))
    ensures Fated(Run(w, steps).server, t) == Fated(w.server, t)
    decreases |steps|
  {
    if steps != [] {
      if steps[0] == CsLeave(t) {
        OwnRequest(w, steps[0], LeaveCharacter(t, NO_ZONE), t);
      } else {
        OthersNeutral(w, steps[0], t);
      }
      InvStep(w, steps[0]);
      StillNowhere(w, steps[0], t);
      LeavesNothing(Next(w, steps[0]), steps[1..], t);
    }
  }

  lemma StillNowhere(w: World, step: Step, t: Token)
    requires t in w.clients && t in w.server.sessions && w.server.sessions[t] == NO_ZONE
    requires step != CsEnter(t) && step != Release(t)
    ensures t in Next(w, step).server.sessions && Next(w, step).server.sessions[t] == NO_ZONE
  {
  }

  /** A leave request of a session that knows its zone is granted, whatever happened before and whatever
      else happens, even if the session is released, unless it asks to enter again. */
  lemma LeaveGranted(before: seq<Step>, after: seq<Step>, t: Token)
    requires var w := Run(EMPTY_WORLD, before); t in w.server.sessions && w.server.sessions[t] == ENTRY_ZONE
    requires Without(after, CsEnter(t))
    requires Run(Next(Run(EMPTY_WORLD, before), CsLeave(t)), after).server.Queue() == []
    ensures t !in Run(Next(Run(EMPTY_WORLD, before), CsLeave(t)), after).server.Members(ENTRY_ZONE)
  {
    InvEmpty();
    InvRun(EMPTY_WORLD, before);
    LeaveGrantedFrom(Run(EMPTY_WORLD, before), after, t);
  }

  lemma LeaveGrantedFrom(w: World, after: seq<Step>, t: Token)
    requires Inv(w) && t in w.server.sessions && w.server.sessions[t] == ENTRY_ZONE && Without(after, CsEnter(t))
    ensures !Fated(Run(Next(w, CsLeave(t)), after).server, t)
  {
    OwnRequest(w, CsLeave(t), LeaveCharacter(t, ENTRY_ZONE), t);
    InvStep(w, CsLeave(t));
    BoundForExit(Next(w, CsLeave(t)), after, t);
  }

  /** Exactly when a leave request takes the character out: its session knew the zone, or a leave behind
      its last queued enter was queued already, or it was not there and no enter of it was queued. */
  lemma LeaveClears(before: seq<Step>, after: seq<Step>, t: Token)
    requires t in Run(EMPTY_WORLD, before).server.sessions
    requires Without(after, CsEnter(t)) && Without(after, Release(t))
    requires Run(Next(Run(EMPTY_WORLD, before), CsLeave(t)), after).server.Queue() == []
    ensures var w := Run(EMPTY_WORLD, before);
            t !in Run(Next(w, CsLeave(t)), after).server.Members(ENTRY_ZONE) <==>
              || w.server.sessions[t] == ENTRY_ZONE
              || LeaveBehind(w.server.Queue(), t)
              || (t !in w.server.Members(ENTRY_ZONE) && !EnterQueued(w.server.Queue(), t))
  {
    InvEmpty();
    InvRun(EMPTY_WORLD, before);
    ZonesKnown(EMPTY_WORLD, before);
    LeaveClearsFrom(Run(EMPTY_WORLD, before), after, t);
  }

  lemma LeaveClearsFrom(w: World, after: seq<Step>, t: Token)
    requires Inv(w) && ZoneIdsKnown(w) && t in w.server.sessions
    requires Without(after, CsEnter(t)) && Without(after, Release(t))
    ensures !Fated(Run(Next(w, CsLeave(t)), after).server, t) <==>
              || w.server.sessions[t] == ENTRY_ZONE
              || LeaveBehind(w.server.Queue(), t)
              || (t !in w.server.Members(ENTRY_ZONE) && !EnterQueued(w.server.Queue(), t))
  {
    if w.server.sessions[t] == ENTRY_ZONE {
      LeaveGrantedFrom(w, after, t);
    } else {
      OwnRequest(w, CsLeave(t), LeaveCharacter(t, NO_ZONE), t);
      InvStep(w, CsLeave(t));
      StillNowhere(w, CsLeave(t), t);
      LeavesNothing(Next(w, CsLeave(t)), after, t);
      FateIff(t in w.server.Members(ENTRY_ZONE), w.server.Queue(), t);
    }
  }

  /** Entering makes the session know its zone, so that a leave request right behind it is granted. */
  lemma EnterThenLeave(before: seq<Step>, after: seq<Step>, t: Token)
    requires t in Run(EMPTY_WORLD, before).server.sessions && Without(after, CsEnter(t))
    requires Run(Next(Next(Run(EMPTY_WORLD, before), CsEnter(t)), CsLeave(t)), after).server.Queue() == []
    ensures t !in Run(Next(Next(Run(EMPTY_WORLD, before), CsEnter(t)), CsLeave(t)), after).server.Members(ENTRY_ZONE)
  {
    var w := Run(EMPTY_WORLD, before);
    InvEmpty();
    InvRun(EMPTY_WORLD, before);
    InvStep(w, CsEnter(t));
    LeaveGrantedFrom(Next(w, CsEnter(t)), after, t);
  }

  /** A session that held the zone's id before it authenticated can leave right away, with no effect on who
      is there. */
  lemma AuthenticatedKnowsZone(w: World, t: Token, entered: bool)
    requires t != NO_TOKEN && t !in w.clients
    ensures var s' := Next(w, Auth(t, entered)).server;
            && s'.sessions == w.server.sessions[t := if entered then 1 else 0]
            && s'.zones == w.server.zones && s'.Queue() == w.server.Queue()
            && s'.Stream(t) == [AuthResult(t)] && forall a :: a != t ==> s'.Stream(a) == w.server.Stream(a)
  {
  }

  /** Running a leave command makes a live session forget its zone, whichever zone it was. */
  lemma LeaveForgetsZone(w: World, t: Token, zone: ZoneId)
    requires w.server.firing != [] && w.server.firing[0] == LeaveCharacter(t, zone)
    ensures var s, s' := w.server, Next(w, Fire).server;
            && s'.sessions.Keys == s.sessions.Keys
            && forall u :: u in s.sessions ==> s'.sessions[u] == if u == t then 0 else s.sessions[u]
  {
  }

  /** Commands for a token without a session, or a zone nobody has entered, come to nothing. */
  lemma NothingForNobody(s: Server, t: Token, m: Message)
    requires t !in s.sessions || ENTRY_ZONE !in s.zones
    ensures t !in s.sessions ==> Execute(s, SendPacket(t, m)) == s && Execute(s, EnterCharacter(t, ENTRY_ZONE)) == s
    ensures Execute(s, SendCharacterList(t, ENTRY_ZONE)) == s
    ensures ENTRY_ZONE !in s.zones ==> Execute(s, SendBroadcast(ENTRY_ZONE, m)) == s
  {
  }

  /** Requests before authentication carry the token 0 and are queued like others. */
  lemma AnonymousQueued(w: World, c: Command)
    requires || c == EnterCharacter(0, 1) || c == LeaveCharacter(0, 0) || c == LeaveCharacter(0, 1)
             || (c.SendBroadcast? && c.msg.Relay? && (c.zone == 0 || c.zone == 1))
    ensures Next(w, Anonymous(c)).server == w.server.(cmds := w.server.cmds + [c])
  {
  }

  // ---------------------------------------------------------------- relays and heartbeats

  /** A move, interaction or echo reaches every member that stays, once, after all that was queued before
      it and before all that is queued later. */
  lemma RelayArrives(before: seq<Step>, after: seq<Step>, t: Token, payload: int, a: Token)
    requires var w := Run(EMPTY_WORLD, before);
             && t in w.server.sessions && w.server.sessions[t] == ENTRY_ZONE
             && a in w.server.Members(ENTRY_ZONE) && a in w.server.sessions
             && Stays(Next(w, CsRelay(t, payload)), after, a)
             && Run(Next(w, CsRelay(t, payload)), after).server.Queue() == []
    ensures var w := Run(EMPTY_WORLD, before); var w1 := Next(w, CsRelay(t, payload));
            Broadcasts(Run(w1, after).server.Stream(a))
            == Mail(w.server, a) + [Relay(payload)] + AllAnnounced(w1, after)
  {
    InvEmpty();
    InvRun(EMPTY_WORLD, before);
    RelayArrivesFrom(Run(EMPTY_WORLD, before), after, t, payload, a);
  }

  lemma RelayArrivesFrom(w: World, after: seq<Step>, t: Token, payload: int, a: Token)
    requires Inv(w) && t in w.server.sessions && w.server.sessions[t] == ENTRY_ZONE
    requires a in w.server.Members(ENTRY_ZONE) && a in w.server.sessions
    requires Stays(Next(w, CsRelay(t, payload)), after, a) && Run(Next(w, CsRelay(t, payload)), after).server.Queue() == []
    ensures var w1 := Next(w, CsRelay(t, payload));
            Broadcasts(Run(w1, after).server.Stream(a))
            == Mail(w.server, a) + [Relay(payload)] + AllAnnounced(w1, after)
  {
    var step := CsRelay(t, payload);
    RelayMail(w, t, payload, a);
    InvStep(w, step);
    MailRun(Next(w, step), after, a);
    var s' := Run(Next(w, step), after).server;
    assert Mail(s', a) == Broadcasts(s'.Stream(a));
  }

  lemma RelayMail(w: World, t: Token, payload: int, a: Token)
    requires Inv(w) && t in w.server.sessions && w.server.sessions[t] == ENTRY_ZONE
    requires a in w.server.Members(ENTRY_ZONE) && a in w.server.sessions
    ensures var s' := Next(w, CsRelay(t, payload)).server;
            && Mail(s', a) == Mail(w.server, a) + [Relay(payload)]
            && a in s'.Members(ENTRY_ZONE) && a in s'.sessions
  {
    MailStep(w, CsRelay(t, payload), a);
    AnnouncedOne(SendBroadcast(ENTRY_ZONE, Relay(payload)));
  }

  /** A heartbeat goes straight to its own client and changes nothing else. */
  lemma HeartbeatGoesOut(w: World, t: Token, a: Token)
    requires t in w.server.sessions
    ensures var s' := Next(w, Beat(t)).server;
            && s'.Stream(a) == w.server.Stream(a) + (if a == t then [Heartbeat] else [])
            && s'.Queue() == w.server.Queue() && s'.zones == w.server.zones && s'.sessions == w.server.sessions
  {
    assert w.server.Stream(a) + [] == w.server.Stream(a);
  }
}
