/** Where the protocol does not do what one would expect of it, and exactly when it does. */
module ZoneLimits {
  import opened Common
  import opened ZoneModel
  import opened ZoneStreams
  import opened ZoneSteps
  import opened ZoneInvariant
  import opened ZoneConvergence
  import opened ZoneDelivery

  // ---------------------------------------------------------------- released sessions

  /** A released token does not come back: its session is gone and nothing queues more of it. */
  ghost predicate Gone(w: World, t: Token) {
    t in w.clients && t != NO_TOKEN && t !in w.server.sessions
  }

  predicate LeavePending(s: Server, t: Token) {
    LeaveCharacter(t, ENTRY_ZONE) in s.Queue()
  }

  lemma LeaveLeavesFront(w: World, step: Step, t: Token)
    requires Inv(w) && Gone(w, t)
    ensures var s, s', c := w.server, Next(w, step).server, LeaveCharacter(t, ENTRY_ZONE);
            c in s.Queue() <==> c in Taken(s, step) || c in s'.Queue()
  {
    var s, s', c := w.server, Next(w, step).server, LeaveCharacter(t, ENTRY_ZONE);
    NoLeaveAppended(w, step, t);
    QueueAppends(w, step);
    assert c in s.Queue() + Appended(s, step) <==> c in s.Queue() || c in Appended(s, step);
    assert c in Taken(s, step) + s'.Queue() <==> c in Taken(s, step) || c in s'.Queue();
  }

  lemma GoneStep(w: World, step: Step, t: Token)
    requires Inv(w) && Gone(w, t)
    ensures Gone(Next(w, step), t)
    ensures var s, s' := w.server, Next(w, step).server;
            (t in s'.Members(ENTRY_ZONE) && !LeavePending(s', t))
            == (t in s.Members(ENTRY_ZONE) && !LeavePending(s, t))
  {
    var s, s' := w.server, Next(w, step).server;
    var c := LeaveCharacter(t, ENTRY_ZONE);
    LeaveLeavesFront(w, step, t);
    if t in Touched(s, step) {
      PoppedSane(w);
      assert s.firing[0] == c;
      assert c in s.Queue();
    } else {
      UntouchedStay(w, step, t);
      assert c !in Taken(s, step);
    }
  }

  /** What a command queues when it runs is never a leave. */
  lemma EmittedNoLeave(s: Server, t: Token)
    requires s.firing != []
    ensures LeaveCharacter(t, ENTRY_ZONE) !in Appended(s, Fire)
  {
    match s.firing[0]
    case SendBroadcast(zone, m) =>
      if zone in s.zones { FanOutOnlySends(Ascending(s.zones[zone]), m); }
    case SendCharacterList(u, zone) =>
      if u in s.sessions && zone in s.zones {
        SendAllOnlySends(u, ListPackets(Ascending(s.zones[zone] - {u})));
      }
    case _ =>
  }

  lemma NoLeaveAppended(w: World, step: Step, t: Token)
    requires Inv(w) && Gone(w, t)
    ensures LeaveCharacter(t, ENTRY_ZONE) !in Appended(w.server, step)
  {
    if step.Fire? && w.server.firing != [] { EmittedNoLeave(w.server, t); }
  }

  lemma {:induction false} GoneRun(w: World, steps: seq<Step>, t: Token)
    requires Inv(w) && Gone(w, t)
    ensures var s, s' := w.server, Run(w, steps).server;
            (t in s'.Members(ENTRY_ZONE) && !LeavePending(s', t))
            == (t in s.Members(ENTRY_ZONE) && !LeavePending(s, t))
    decreases |steps|
  {
    if steps != [] {
      GoneStep(w, steps[0], t);
      InvStep(w, steps[0]);
      GoneRun(Next(w, steps[0]), steps[1..], t);
    }
  }

  /** What a release leaves queued. */
  lemma ReleaseRequests(w: World, t: Token)
    requires Inv(w) && ZoneIdsKnown(w) && t in w.server.sessions
    ensures var w1 := Next(w, Release(t));
            && Gone(w1, t) && w1.server.zones == w.server.zones
            && (LeavePending(w1.server, t) <==> w.server.sessions[t] == ENTRY_ZONE || LeavePending(w.server, t))
  {
    var s, s1 := w.server, Next(w, Release(t)).server;
    assert s1.Queue() == s.Queue() + Requested(s, Release(t));
  }

  lemma ReleaseClearsFrom(w: World, after: seq<Step>, t: Token)
    requires Inv(w) && ZoneIdsKnown(w) && t in w.server.sessions
    requires Run(Next(w, Release(t)), after).server.Queue() == []
    ensures t !in Run(Next(w, Release(t)), after).server.Members(ENTRY_ZONE) <==>
              || t !in w.server.Members(ENTRY_ZONE)
              || w.server.sessions[t] == ENTRY_ZONE
              || LeavePending(w.server, t)
  {
    var w1 := Next(w, Release(t));
    ReleaseRequests(w, t);
    InvStep(w, Release(t));
    GoneRun(w1, after, t);
    assert !LeavePending(Run(w1, after).server, t);
  }

  /** Releasing a session takes its character out of the zone, in every run that later drains the
      queue, if and only if at the release the character was not in the zone, or its session
      still knew its zone, or a leave command for it was already queued. */
  lemma ReleaseClears(before: seq<Step>, after: seq<Step>, t: Token)
    requires var w := Run(EMPTY_WORLD, before);
             && t in w.server.sessions
             && Run(Next(w, Release(t)), after).server.Queue() == []
    ensures var w := Run(EMPTY_WORLD, before); var w' := Run(Next(w, Release(t)), after);
            t !in w'.server.Members(ENTRY_ZONE) <==>
              || t !in w.server.Members(ENTRY_ZONE)
              || w.server.sessions[t] == ENTRY_ZONE
              || LeavePending(w.server, t)
  {
    InvEmpty();
    InvRun(EMPTY_WORLD, before);
    ZonesKnown(EMPTY_WORLD, before);
    ReleaseClearsFrom(Run(EMPTY_WORLD, before), after, t);
  }

  /** A session's character holds zone id 0 or the entry zone. */
  ghost predicate ZoneIdsKnown(w: World) {
    forall t :: t in w.server.sessions ==> w.server.sessions[t] == NO_ZONE || w.server.sessions[t] == ENTRY_ZONE
  }

  lemma ZonesStayKnown(w: World, step: Step)
    requires ZoneIdsKnown(w)
    ensures ZoneIdsKnown(Next(w, step))
  {
    if step.Fire? && w.server.firing != [] {
      match w.server.firing[0]
      case LeaveCharacter(_, _) =>
      case _ =>
    }
  }

  lemma {:induction false} ZonesKnown(w: World, steps: seq<Step>)
    requires ZoneIdsKnown(w)
    ensures ZoneIdsKnown(Run(w, steps))
    decreases |steps|
  {
    if steps != [] {
      ZonesStayKnown(w, steps[0]);
      ZonesKnown(Next(w, steps[0]), steps[1..]);
    }
  }

  // ---------------------------------------------------------------- two failing runs

  /** A server on which clients 1 and 2 have authenticated. */
  function Pair(z1: ZoneId, z2: ZoneId, zones: map<ZoneId, set<Token>>, firing: seq<Command>, cmds: seq<Command>,
                s1: seq<Message>, s2: seq<Message>): Server
  {
    Server(map[1 := z1, 2 := z2], zones, firing, cmds, map[1 := s1, 2 := s2])
  }

  function Zone(present: set<Token>): map<ZoneId, set<Token>> {
    map[ENTRY_ZONE := present]
  }

  lemma FirePairEnter(t: Token, z1: ZoneId, z2: ZoneId, zones: map<ZoneId, set<Token>>, firing: seq<Command>,
                      cmds: seq<Command>, s1: seq<Message>, s2: seq<Message>)
    requires (t == 1 || t == 2) && zones.Keys <= {ENTRY_ZONE}
    ensures FireNext(Pair(z1, z2, zones, [EnterCharacter(t, ENTRY_ZONE)] + firing, cmds, s1, s2))
         == Pair(z1, z2, Zone((if ENTRY_ZONE in zones then zones[ENTRY_ZONE] else {}) + {t}), firing,
                 cmds + [SendBroadcast(ENTRY_ZONE, Enter(t)), SendCharacterList(t, ENTRY_ZONE)], s1, s2)
  {
    assert ([EnterCharacter(t, ENTRY_ZONE)] + firing)[1..] == firing;
  }

  lemma FirePairLeave(t: Token, z1: ZoneId, z2: ZoneId, present: set<Token>, firing: seq<Command>,
                      cmds: seq<Command>, s1: seq<Message>, s2: seq<Message>)
    requires t == 1 || t == 2
    ensures FireNext(Pair(z1, z2, Zone(present), [LeaveCharacter(t, ENTRY_ZONE)] + firing, cmds, s1, s2))
         == Pair(if t == 1 then NO_ZONE else z1, if t == 2 then NO_ZONE else z2, Zone(present - {t}), firing,
                 cmds + [SendBroadcast(ENTRY_ZONE, Leave(t))], s1, s2)
  {
    assert ([LeaveCharacter(t, ENTRY_ZONE)] + firing)[1..] == firing;
  }

  lemma FirePairSend(t: Token, m: Message, z1: ZoneId, z2: ZoneId, present: set<Token>, firing: seq<Command>,
                     cmds: seq<Command>, s1: seq<Message>, s2: seq<Message>)
    requires t == 1 || t == 2
    ensures FireNext(Pair(z1, z2, Zone(present), [SendPacket(t, m)] + firing, cmds, s1, s2))
         == Pair(z1, z2, Zone(present), firing, cmds,
                 if t == 1 then s1 + [m] else s1, if t == 2 then s2 + [m] else s2)
  {
    assert ([SendPacket(t, m)] + firing)[1..] == firing;
  }

  lemma AscendingPair(present: set<Token>)
    requires present in {{}, {1}, {2}, {1, 2}}
    ensures Ascending(present) == if present == {} then [] else if present == {1, 2} then [1, 2]
                                  else if present == {1} then [1] else [2]
  {
    AscendingVisitsAll(present);
    var r := Ascending(present);
    assert |{1, 2}| == 2;
    assert 0 < |r| ==> r[0] in present;
    assert 1 < |r| ==> r[1] in present;
  }

  /** A broadcast reaches both or, in an empty zone, nobody. */
  lemma FirePairBroadcast(m: Message, z1: ZoneId, z2: ZoneId, present: set<Token>, firing: seq<Command>,
                          cmds: seq<Command>, s1: seq<Message>, s2: seq<Message>)
    requires present == {} || present == {1, 2}
    ensures FireNext(Pair(z1, z2, Zone(present), [SendBroadcast(ENTRY_ZONE, m)] + firing, cmds, s1, s2))
         == Pair(z1, z2, Zone(present), firing,
                 cmds + (if present == {} then [] else [SendPacket(1, m), SendPacket(2, m)]), s1, s2)
  {
    assert ([SendBroadcast(ENTRY_ZONE, m)] + firing)[1..] == firing;
    AscendingPair(present);
    assert FanOut([1, 2], m) == [SendPacket(1, m)] + FanOut([1, 2][1..], m);
    assert [1, 2][1..] == [2] && FanOut([2], m) == [SendPacket(2, m)] + FanOut([2][1..], m);
  }

  /** The list sent to one of the two holds the other. */
  lemma FirePairList(t: Token, z1: ZoneId, z2: ZoneId, firing: seq<Command>,
                     cmds: seq<Command>, s1: seq<Message>, s2: seq<Message>)
    requires t == 1 || t == 2
    ensures FireNext(Pair(z1, z2, Zone({1, 2}), [SendCharacterList(t, ENTRY_ZONE)] + firing, cmds, s1, s2))
         == Pair(z1, z2, Zone({1, 2}), firing, cmds + [SendPacket(t, CharacterList([3 - t]))], s1, s2)
  {
    assert ([SendCharacterList(t, ENTRY_ZONE)] + firing)[1..] == firing;
    var u := 3 - t;
    assert {1, 2} - {t} == {u};
    AscendingPair({u});
    assert ListPackets([u]) == [CharacterList([u])] + ListPackets([u][1..]);
    assert SendAll(t, [CharacterList([u])]) == [SendPacket(t, CharacterList([u]))] + SendAll(t, [CharacterList([u])][1..]);
  }

  /** The run so far leads to `s`, and neither client has handled anything yet. */
  ghost predicate At(steps: seq<Step>, s: Server) {
    Run(EMPTY_WORLD, steps) == World(s, map[1 := NEW_CLIENT, 2 := NEW_CLIENT])
  }

  lemma Then(steps: seq<Step>, s: Server, step: Step) returns (r: seq<Step>)
    requires At(steps, s) && !step.Auth? && !step.Deliver?
    ensures r == steps + [step] && At(r, NextServer(s, step))
  {
    r := steps + [step];
    RunConcat(EMPTY_WORLD, steps, [step]);
    assert [step][1..] == [];
  }

  lemma ThenEnter(steps: seq<Step>, t: Token, z1: ZoneId, z2: ZoneId, zones: map<ZoneId, set<Token>>, firing: seq<Command>,
                  cmds: seq<Command>, s1: seq<Message>, s2: seq<Message>) returns (r: seq<Step>)
    requires (t == 1 || t == 2) && zones.Keys <= {ENTRY_ZONE}
    requires At(steps, Pair(z1, z2, zones, [EnterCharacter(t, ENTRY_ZONE)] + firing, cmds, s1, s2))
    ensures At(r, Pair(z1, z2, Zone((if ENTRY_ZONE in zones then zones[ENTRY_ZONE] else {}) + {t}), firing,
                       cmds + [SendBroadcast(ENTRY_ZONE, Enter(t)), SendCharacterList(t, ENTRY_ZONE)], s1, s2))
  {
    r := Then(steps, Pair(z1, z2, zones, [EnterCharacter(t, ENTRY_ZONE)] + firing, cmds, s1, s2), Fire);
    FirePairEnter(t, z1, z2, zones, firing, cmds, s1, s2);
  }

  lemma ThenLeave(steps: seq<Step>, t: Token, z1: ZoneId, z2: ZoneId, present: set<Token>, firing: seq<Command>,
                  cmds: seq<Command>, s1: seq<Message>, s2: seq<Message>) returns (r: seq<Step>)
    requires t == 1 || t == 2
    requires At(steps, Pair(z1, z2, Zone(present), [LeaveCharacter(t, ENTRY_ZONE)] + firing, cmds, s1, s2))
    ensures At(r, Pair(if t == 1 then NO_ZONE else z1, if t == 2 then NO_ZONE else z2, Zone(present - {t}), firing,
                       cmds + [SendBroadcast(ENTRY_ZONE, Leave(t))], s1, s2))
  {
    r := Then(steps, Pair(z1, z2, Zone(present), [LeaveCharacter(t, ENTRY_ZONE)] + firing, cmds, s1, s2), Fire);
    FirePairLeave(t, z1, z2, present, firing, cmds, s1, s2);
  }

  lemma ThenBroadcast(steps: seq<Step>, m: Message, z1: ZoneId, z2: ZoneId, present: set<Token>, firing: seq<Command>,
                      cmds: seq<Command>, s1: seq<Message>, s2: seq<Message>) returns (r: seq<Step>)
    requires present == {} || present == {1, 2}
    requires At(steps, Pair(z1, z2, Zone(present), [SendBroadcast(ENTRY_ZONE, m)] + firing, cmds, s1, s2))
    ensures At(r, Pair(z1, z2, Zone(present), firing,
                       cmds + (if present == {} then [] else [SendPacket(1, m), SendPacket(2, m)]), s1, s2))
  {
    r := Then(steps, Pair(z1, z2, Zone(present), [SendBroadcast(ENTRY_ZONE, m)] + firing, cmds, s1, s2), Fire);
    FirePairBroadcast(m, z1, z2, present, firing, cmds, s1, s2);
  }

  lemma ThenList(steps: seq<Step>, t: Token, z1: ZoneId, z2: ZoneId, firing: seq<Command>,
                 cmds: seq<Command>, s1: seq<Message>, s2: seq<Message>) returns (r: seq<Step>)
    requires t == 1 || t == 2
    requires At(steps, Pair(z1, z2, Zone({1, 2}), [SendCharacterList(t, ENTRY_ZONE)] + firing, cmds, s1, s2))
    ensures At(r, Pair(z1, z2, Zone({1, 2}), firing, cmds + [SendPacket(t, CharacterList([3 - t]))], s1, s2))
  {
    r := Then(steps, Pair(z1, z2, Zone({1, 2}), [SendCharacterList(t, ENTRY_ZONE)] + firing, cmds, s1, s2), Fire);
    FirePairList(t, z1, z2, firing, cmds, s1, s2);
  }

  lemma BothAuthenticate() returns (r: seq<Step>)
    ensures At(r, Pair(NO_ZONE, NO_ZONE, map[], [], [], [AuthResult(1)], [AuthResult(2)]))
  {
    r := [Auth(1, false), Auth(2, false)];
    assert r[1..] == [Auth(2, false)] && r[1..][1..] == [];
    var w1 := Next(EMPTY_WORLD, Auth(1, false));
    var w2 := Next(w1, Auth(2, false));
    assert Run(w1, r[1..]) == Run(w2, []);
  }

  /** Release can leave a character behind: after entering, leaving and entering again before
      the next tick, the character is in the zone while its session has forgotten the zone and no
      leave command is queued, which is the case excluded by `ReleaseClears`. */
  lemma ReleaseCanLeaveBehind() returns (r: seq<Step>)
    ensures var w := Run(EMPTY_WORLD, r);
            && 1 in w.server.sessions && 1 in w.server.Members(ENTRY_ZONE)
            && w.server.sessions[1] != ENTRY_ZONE && !LeavePending(w.server, 1)
  {
    var a1, a2 := [AuthResult(1)], [AuthResult(2)];
    var e, l := EnterCharacter(1, ENTRY_ZONE), LeaveCharacter(1, ENTRY_ZONE);
    var said := [SendBroadcast(ENTRY_ZONE, Enter(1)), SendCharacterList(1, ENTRY_ZONE)];
    var left := SendBroadcast(ENTRY_ZONE, Leave(1));
    r := BothAuthenticate();
    r := Then(r, Pair(NO_ZONE, NO_ZONE, map[], [], [], a1, a2), CsEnter(1));
    r := Then(r, Pair(ENTRY_ZONE, NO_ZONE, map[], [], [e], a1, a2), CsLeave(1));
    r := Then(r, Pair(ENTRY_ZONE, NO_ZONE, map[], [], [e, l], a1, a2), CsEnter(1));
    r := Then(r, Pair(ENTRY_ZONE, NO_ZONE, map[], [], [e, l, e], a1, a2), Swap);
    r := FireThree(r, a1, a2);
  }

  lemma FireThree(r0: seq<Step>, a1: seq<Message>, a2: seq<Message>) returns (r: seq<Step>)
    requires var e, l := EnterCharacter(1, ENTRY_ZONE), LeaveCharacter(1, ENTRY_ZONE);
             At(r0, Pair(ENTRY_ZONE, NO_ZONE, map[], [e, l, e], [], a1, a2))
    ensures var b, i := SendBroadcast(ENTRY_ZONE, Enter(1)), SendCharacterList(1, ENTRY_ZONE);
            At(r, Pair(NO_ZONE, NO_ZONE, Zone({1}), [], [b, i, SendBroadcast(ENTRY_ZONE, Leave(1)), b, i], a1, a2))
  {
    var e, l := EnterCharacter(1, ENTRY_ZONE), LeaveCharacter(1, ENTRY_ZONE);
    var b, i := SendBroadcast(ENTRY_ZONE, Enter(1)), SendCharacterList(1, ENTRY_ZONE);
    var left := SendBroadcast(ENTRY_ZONE, Leave(1));
    assert [e] + [l, e] == [e, l, e] && [] + [b, i] == [b, i] && {} + {1} == {1};
    r := ThenEnter(r0, 1, ENTRY_ZONE, NO_ZONE, map[], [l, e], [], a1, a2);
    assert [l] + [e] == [l, e] && [b, i] + [left] == [b, i, left] && {1} - {1} == {};
    r := ThenLeave(r, 1, ENTRY_ZONE, NO_ZONE, {1}, [e], [b, i], a1, a2);
    assert [e] + [] == [e] && [b, i, left] + [b, i] == [b, i, left, b, i];
    r := ThenEnter(r, 1, NO_ZONE, NO_ZONE, Zone({}), [], [b, i, left], a1, a2);
  }

  // ---------------------------------------------------------------- coming back

  /** Both enter and learn of each other; both leave, and 1 asks to come back before the next tick. */
  lemma BothComeAndGo() returns (r: seq<Step>)
    ensures At(r, Pair(ENTRY_ZONE, NO_ZONE, Zone({}), [],
                       Sends() + [SendBroadcast(ENTRY_ZONE, Leave(1)), SendBroadcast(ENTRY_ZONE, Leave(2)),
                                  EnterCharacter(1, ENTRY_ZONE)],
                       [AuthResult(1)], [AuthResult(2)]))
  {
    var a1, a2 := [AuthResult(1)], [AuthResult(2)];
    var e1, e2 := EnterCharacter(1, ENTRY_ZONE), EnterCharacter(2, ENTRY_ZONE);
    var l1, l2 := LeaveCharacter(1, ENTRY_ZONE), LeaveCharacter(2, ENTRY_ZONE);
    r := BothAuthenticate();
    r := Then(r, Pair(NO_ZONE, NO_ZONE, map[], [], [], a1, a2), CsEnter(1));
    r := Then(r, Pair(ENTRY_ZONE, NO_ZONE, map[], [], [e1], a1, a2), CsEnter(2));
    r := Then(r, Pair(ENTRY_ZONE, ENTRY_ZONE, map[], [], [e1, e2], a1, a2), Swap);
    r := BothEnter(r, a1, a2);
    var news := News();
    r := Then(r, Pair(ENTRY_ZONE, ENTRY_ZONE, Zone({1, 2}), [], news, a1, a2), CsLeave(1));
    r := Then(r, Pair(ENTRY_ZONE, ENTRY_ZONE, Zone({1, 2}), [], news + [l1], a1, a2), CsLeave(2));
    assert (news + [l1]) + [l2] == news + [l1, l2];
    r := Then(r, Pair(ENTRY_ZONE, ENTRY_ZONE, Zone({1, 2}), [], news + [l1, l2], a1, a2), Swap);
    r := BothLeave(r, a1, a2);
    var b1, b2 := SendBroadcast(ENTRY_ZONE, Leave(1)), SendBroadcast(ENTRY_ZONE, Leave(2));
    r := Then(r, Pair(NO_ZONE, NO_ZONE, Zone({}), [], Sends() + [b1, b2], a1, a2), CsEnter(1));
    assert (Sends() + [b1, b2]) + [e1] == Sends() + [b1, b2, e1];
  }

  /** What entering queues for 1 and then 2. */
  function News(): seq<Command> {
    [SendBroadcast(ENTRY_ZONE, Enter(1)), SendCharacterList(1, ENTRY_ZONE),
     SendBroadcast(ENTRY_ZONE, Enter(2)), SendCharacterList(2, ENTRY_ZONE)]
  }

  /** The sends this turns into. */
  function Sends(): seq<Command> {
    [SendPacket(1, Enter(1)), SendPacket(2, Enter(1)), SendPacket(1, CharacterList([2])),
     SendPacket(1, Enter(2)), SendPacket(2, Enter(2)), SendPacket(2, CharacterList([1]))]
  }

  lemma BothEnter(r0: seq<Step>, a1: seq<Message>, a2: seq<Message>) returns (r: seq<Step>)
    requires At(r0, Pair(ENTRY_ZONE, ENTRY_ZONE, map[],
                         [EnterCharacter(1, ENTRY_ZONE), EnterCharacter(2, ENTRY_ZONE)], [], a1, a2))
    ensures At(r, Pair(ENTRY_ZONE, ENTRY_ZONE, Zone({1, 2}), [], News(), a1, a2))
  {
    var e1, e2 := EnterCharacter(1, ENTRY_ZONE), EnterCharacter(2, ENTRY_ZONE);
    var n := News();
    assert [e1] + [e2] == [e1, e2] && [] + n[..2] == n[..2] && {} + {1} == {1};
    r := ThenEnter(r0, 1, ENTRY_ZONE, ENTRY_ZONE, map[], [e2], [], a1, a2);
    assert [e2] + [] == [e2] && n[..2] + n[2..] == n && {1} + {2} == {1, 2};
    r := ThenEnter(r, 2, ENTRY_ZONE, ENTRY_ZONE, Zone({1}), [], n[..2], a1, a2);
  }

  lemma BothLeave(r0: seq<Step>, a1: seq<Message>, a2: seq<Message>) returns (r: seq<Step>)
    requires At(r0, Pair(ENTRY_ZONE, ENTRY_ZONE, Zone({1, 2}),
                         News() + [LeaveCharacter(1, ENTRY_ZONE), LeaveCharacter(2, ENTRY_ZONE)], [], a1, a2))
    ensures At(r, Pair(NO_ZONE, NO_ZONE, Zone({}), [],
                       Sends() + [SendBroadcast(ENTRY_ZONE, Leave(1)), SendBroadcast(ENTRY_ZONE, Leave(2))], a1, a2))
  {
    var l1, l2 := LeaveCharacter(1, ENTRY_ZONE), LeaveCharacter(2, ENTRY_ZONE);
    var b1, b2 := SendBroadcast(ENTRY_ZONE, Leave(1)), SendBroadcast(ENTRY_ZONE, Leave(2));
    r := Tell(r0, a1, a2);
    assert [l1] + [l2] == [l1, l2] && {1, 2} - {1} == {2};
    r := ThenLeave(r, 1, ENTRY_ZONE, ENTRY_ZONE, {1, 2}, [l2], Sends(), a1, a2);
    assert [l2] + [] == [l2] && (Sends() + [b1]) + [b2] == Sends() + [b1, b2] && {2} - {2} == {};
    r := ThenLeave(r, 2, NO_ZONE, ENTRY_ZONE, {2}, [], Sends() + [b1], a1, a2);
  }

  /** The broadcast of one who has entered goes to both, and the list to that one. */
  lemma TellOf(r0: seq<Step>, t: Token, firing: seq<Command>, cmds: seq<Command>, a1: seq<Message>, a2: seq<Message>)
    returns (r: seq<Step>)
    requires t == 1 || t == 2
    requires At(r0, Pair(ENTRY_ZONE, ENTRY_ZONE, Zone({1, 2}),
                         [SendBroadcast(ENTRY_ZONE, Enter(t))] + ([SendCharacterList(t, ENTRY_ZONE)] + firing), cmds, a1, a2))
    ensures At(r, Pair(ENTRY_ZONE, ENTRY_ZONE, Zone({1, 2}), firing,
                       (cmds + [SendPacket(1, Enter(t)), SendPacket(2, Enter(t))]) + [SendPacket(t, CharacterList([3 - t]))],
                       a1, a2))
  {
    var told := cmds + [SendPacket(1, Enter(t)), SendPacket(2, Enter(t))];
    r := ThenBroadcast(r0, Enter(t), ENTRY_ZONE, ENTRY_ZONE, {1, 2}, [SendCharacterList(t, ENTRY_ZONE)] + firing, cmds, a1, a2);
    r := ThenList(r, t, ENTRY_ZONE, ENTRY_ZONE, firing, told, a1, a2);
  }

  lemma Tell(r0: seq<Step>, a1: seq<Message>, a2: seq<Message>) returns (r: seq<Step>)
    requires At(r0, Pair(ENTRY_ZONE, ENTRY_ZONE, Zone({1, 2}),
                         News() + [LeaveCharacter(1, ENTRY_ZONE), LeaveCharacter(2, ENTRY_ZONE)], [], a1, a2))
    ensures At(r, Pair(ENTRY_ZONE, ENTRY_ZONE, Zone({1, 2}),
                       [LeaveCharacter(1, ENTRY_ZONE), LeaveCharacter(2, ENTRY_ZONE)], Sends(), a1, a2))
  {
    var q, leaves := News(), [LeaveCharacter(1, ENTRY_ZONE), LeaveCharacter(2, ENTRY_ZONE)];
    var second := [q[2]] + ([q[3]] + leaves);
    assert q + leaves == [q[0]] + ([q[1]] + second);
    r := TellOf(r0, 1, second, [], a1, a2);
    var told := ([] + Sends()[..2]) + [Sends()[2]];
    assert told == ([] + [SendPacket(1, Enter(1)), SendPacket(2, Enter(1))]) + [SendPacket(1, CharacterList([2]))];
    r := TellOf(r, 2, leaves, told, a1, a2);
    assert (told + [SendPacket(1, Enter(2)), SendPacket(2, Enter(2))]) + [SendPacket(2, CharacterList([1]))] == Sends();
  }

  /** Sends at the front of the batch go onto the streams, whatever else is queued. */
  lemma {:induction false} FireSends(r0: seq<Step>, sends: seq<Command>, rest: seq<Command>,
                                     s1: seq<Message>, s2: seq<Message>) returns (r: seq<Step>)
    requires forall i :: 0 <= i < |sends| ==> sends[i].SendPacket? && (sends[i].token == 1 || sends[i].token == 2)
    requires At(r0, Pair(ENTRY_ZONE, NO_ZONE, Zone({}), sends + rest, [], s1, s2))
    ensures At(r, Pair(ENTRY_ZONE, NO_ZONE, Zone({}), rest, [],
                       s1 + SendsTo(sends, 1), s2 + SendsTo(sends, 2)))
    decreases |sends|
  {
    if sends == [] {
      r := r0;
      assert sends + rest == rest;
      assert s1 + SendsTo(sends, 1) == s1 && s2 + SendsTo(sends, 2) == s2;
    } else {
      var SendPacket(t, m) := sends[0];
      r := Then(r0, Pair(ENTRY_ZONE, NO_ZONE, Zone({}), sends + rest, [], s1, s2), Fire);
      assert sends + rest == [sends[0]] + (sends[1..] + rest);
      FirePairSend(t, m, ENTRY_ZONE, NO_ZONE, {}, sends[1..] + rest, [], s1, s2);
      var s1', s2' := if t == 1 then s1 + [m] else s1, if t == 2 then s2 + [m] else s2;
      assert s1' + SendsTo(sends[1..], 1) == s1 + SendsTo(sends, 1);
      assert s2' + SendsTo(sends[1..], 2) == s2 + SendsTo(sends, 2);
      r := FireSends(r, sends[1..], rest, s1', s2');
    }
  }

  /** Client 1 is back in the zone, alone, and its stream has told it of 2 but never of 2's leaving. */
  lemma ComesBack() returns (r: seq<Step>, s1: seq<Message>, s2: seq<Message>)
    ensures At(r, Pair(ENTRY_ZONE, NO_ZONE, Zone({1}), [],
                       [SendBroadcast(ENTRY_ZONE, Enter(1)), SendCharacterList(1, ENTRY_ZONE)], s1, s2))
    ensures ShownAfter(false, s1, 2)
  {
    var a1, a2 := [AuthResult(1)], [AuthResult(2)];
    var last := [SendBroadcast(ENTRY_ZONE, Leave(1)), SendBroadcast(ENTRY_ZONE, Leave(2)), EnterCharacter(1, ENTRY_ZONE)];
    r := BothComeAndGo();
    r := Then(r, Pair(ENTRY_ZONE, NO_ZONE, Zone({}), [], Sends() + last, a1, a2), Swap);
    r := FireSends(r, Sends(), last, a1, a2);
    s1, s2 := a1 + SendsTo(Sends(), 1), a2 + SendsTo(Sends(), 2);
    r := NobodyHears(r, s1, s2);
    OneIsTold(a1);
  }

  /** The leave broadcasts find the zone empty, and then 1 enters. */
  lemma NobodyHears(r0: seq<Step>, s1: seq<Message>, s2: seq<Message>) returns (r: seq<Step>)
    requires At(r0, Pair(ENTRY_ZONE, NO_ZONE, Zone({}),
                         [SendBroadcast(ENTRY_ZONE, Leave(1)), SendBroadcast(ENTRY_ZONE, Leave(2)),
                          EnterCharacter(1, ENTRY_ZONE)], [], s1, s2))
    ensures At(r, Pair(ENTRY_ZONE, NO_ZONE, Zone({1}), [],
                       [SendBroadcast(ENTRY_ZONE, Enter(1)), SendCharacterList(1, ENTRY_ZONE)], s1, s2))
  {
    var b1, b2 := SendBroadcast(ENTRY_ZONE, Leave(1)), SendBroadcast(ENTRY_ZONE, Leave(2));
    var e1, none: seq<Command> := EnterCharacter(1, ENTRY_ZONE), [];
    assert [b1] + [b2, e1] == [b1, b2, e1] && [b2] + [e1] == [b2, e1] && [e1] + none == [e1] && none + none == none;
    r := ThenBroadcast(r0, Leave(1), ENTRY_ZONE, NO_ZONE, {}, [b2, e1], none, s1, s2);
    r := ThenBroadcast(r, Leave(2), ENTRY_ZONE, NO_ZONE, {}, [e1], none, s1, s2);
    r := ThenEnter(r, 1, ENTRY_ZONE, NO_ZONE, Zone({}), none, none, s1, s2);
    assert {} + {1} == {1};
    assert none + [SendBroadcast(ENTRY_ZONE, Enter(1)), SendCharacterList(1, ENTRY_ZONE)]
        == [SendBroadcast(ENTRY_ZONE, Enter(1)), SendCharacterList(1, ENTRY_ZONE)];
  }

  lemma OneIsTold(a1: seq<Message>)
    ensures ShownAfter(false, a1 + SendsTo(Sends(), 1), 2)
  {
    var q := Sends();
    SendsToConcat(q[..3], q[3..], 1);
    assert q == q[..3] + q[3..];
    assert q[3..][0] == SendPacket(1, Enter(2));
    NoSendsToOne(q[4..]);
    assert q[3..][1..] == q[4..];
    assert SendsTo(q[3..], 1) == [Enter(2)];
    assert a1 + SendsTo(q, 1) == (a1 + SendsTo(q[..3], 1)) + [Enter(2)];
    ShownLast(false, a1 + SendsTo(q[..3], 1), Enter(2), 2);
  }

  lemma {:induction false} NoSendsToOne(q: seq<Command>)
    requires forall i :: 0 <= i < |q| ==> q[i].SendPacket? && q[i].token == 2
    ensures SendsTo(q, 1) == []
    decreases |q|
  {
    if q != [] { NoSendsToOne(q[1..]); }
  }

  /** Commands that change nobody's membership lead only to such commands. */
  ghost predicate Peaceful(s: Server) {
    forall c :: c in s.Queue() ==> !c.EnterCharacter? && !c.LeaveCharacter?
  }

  lemma {:induction false} PeacefulRun(w: World, steps: seq<Step>, a: Token)
    requires Inv(w) && Peaceful(w.server)
    requires forall i :: 0 <= i < |steps| ==> steps[i].Fire? || steps[i].Swap? || steps[i].Deliver?
    ensures AllTouched(w, steps) == {} && Stays(w, steps, a)
    decreases |steps|
  {
    if steps != [] {
      PeacefulStep(w, steps[0]);
      InvStep(w, steps[0]);
      PeacefulRun(Next(w, steps[0]), steps[1..], a);
    }
  }

  lemma PeacefulCommand(s: Server, c: Command)
    requires !c.EnterCharacter? && !c.LeaveCharacter?
    ensures Execute(s, c).zones == s.zones && Execute(s, c).sessions == s.sessions
    ensures forall d :: d in Emitted(s, c) ==> d.SendPacket?
  {
    match c
    case SendBroadcast(zone, m) =>
      if zone in s.zones { FanOutOnlySends(Ascending(s.zones[zone]), m); }
    case SendCharacterList(u, zone) =>
      if u in s.sessions && zone in s.zones {
        SendAllOnlySends(u, ListPackets(Ascending(s.zones[zone] - {u})));
      }
    case SendPacket(_, _) =>
  }

  lemma PeacefulStep(w: World, step: Step)
    requires Inv(w) && Peaceful(w.server) && (step.Fire? || step.Swap? || step.Deliver?)
    ensures var s, s' := w.server, Next(w, step).server;
            Touched(s, step) == {} && s'.zones == s.zones && s'.sessions == s.sessions && Peaceful(s')
  {
    var s, s' := w.server, Next(w, step).server;
    if step.Fire? && s.firing != [] {
      assert s.firing[0] in s.Queue();
      PeacefulCommand(Popped(s), s.firing[0]);
    }
    QueueAppends(w, step);
    forall c | c in s'.Queue() ensures !c.EnterCharacter? && !c.LeaveCharacter? {
      assert c in Taken(s, step) + s'.Queue();
    }
  }

  /** Convergence fails for a client that comes back: it never forgets, on leaving, whom it has seen,
      and hears nothing while it is away. Here 1 and 2 meet, both leave, and 1 returns: once
      everything is drained 1 still shows 2 in an otherwise empty zone. */
  lemma ComingBackCanShowLeftovers() returns (before: seq<Step>, after: seq<Step>)
    ensures var w := Run(EMPTY_WORLD, before); var w' := Run(w, after);
            && 1 in w.server.Members(ENTRY_ZONE) && 1 in w.server.sessions
            && Stays(w, after, 1) && Settled(w', 1)
            && w'.clients[1].view != w'.server.Members(ENTRY_ZONE) - {1}
  {
    var s1, s2;
    before, s1, s2 := ComesBack();
    var w := Run(EMPTY_WORLD, before);
    InvEmpty();
    InvRun(EMPTY_WORLD, before);
    CanSettle(w, 1);
    after :| OnlyTicksAndDeliveries(after, 1) && Settled(Run(w, after), 1);
    PeacefulRun(w, after, 1);
    StillDue(w.server, s1, s2);
    ViewIsZoneAndLeftovers(before, after, 1);
  }

  // ---------------------------------------------------------------- what is left over on coming back

  lemma {:induction false} KeptWithoutLeave(ms: seq<Message>, t: Token)
    requires Leave(t) !in ms
    ensures ShownAfter(true, ms, t)
    decreases |ms|
  {
    if ms != [] {
      assert ms[0] in ms && forall m :: m in ms[1..] ==> m in ms;
      KeptWithoutLeave(ms[1..], t);
    }
  }

  /** Packets that do not show `t` by themselves keep it shown exactly if none of them says it left. */
  lemma {:induction false} KeptUnlessLeft(shown: bool, ms: seq<Message>, t: Token)
    requires !ShownAfter(false, ms, t)
    ensures ShownAfter(shown, ms, t) <==> shown && Leave(t) !in ms
    decreases |ms|
  {
    if ms != [] {
      assert Leave(t) in ms <==> ms[0] == Leave(t) || Leave(t) in ms[1..];
      if Shows(false, ms[0], t) {
        if Leave(t) !in ms[1..] { KeptWithoutLeave(ms[1..], t); }
      } else {
        KeptUnlessLeft(Shows(shown, ms[0], t), ms[1..], t);
      }
    }
  }

  /** Lists on their way do not show anybody who is not there. */
  lemma {:induction false} ComingAboutAbsent(shown: bool, q: seq<Command>, a: Token, present: set<Token>, t: Token)
    requires t !in present
    ensures ShownAfter(shown, Coming(q, a, present), t) == ShownAfter(shown, Announced(q), t)
    decreases |q|
  {
    if q != [] {
      var m := ComingFrom(q[0], a, present);
      var b := match q[0] case SendBroadcast(z, m) => if z == ENTRY_ZONE then [m] else [] case _ => [];
      if q[0].SendCharacterList? {
        AscendingVisitsAll(present - {a});
        ShownByList(shown, Ascending(present - {a}), t);
      }
      ShownConcat(shown, m, Coming(q[1..], a, present), t);
      ShownConcat(shown, b, Announced(q[1..]), t);
      ComingAboutAbsent(ShownAfter(shown, m, t), q[1..], a, present, t);
    }
  }

  /** A character `t` that the client will go on showing although it is gone: what has been sent or fanned
      out to the client shows it, it is not in the zone, and no queued broadcast says that it left. */
  ghost predicate Leftover(s: Server, a: Token, t: Token) {
    && t != a && t !in s.Members(ENTRY_ZONE)
    && ShownAfter(false, s.Stream(a) + SendsTo(s.Queue(), a), t)
    && Leave(t) !in Announced(s.Queue())
  }

  lemma DueAboutAbsent(s: Server, a: Token, t: Token)
    requires SilentAboutAbsent(s) && t !in s.Members(ENTRY_ZONE) && t != a
    ensures DueShows(s, a, t) <==> Leftover(s, a, t)
  {
    var known, q := s.Stream(a) + SendsTo(s.Queue(), a), s.Queue();
    var shown := ShownAfter(false, known, t);
    var coming := Coming(q, a, s.Members(ENTRY_ZONE));
    Assoc(s.Stream(a), SendsTo(q, a), coming);
    ShownConcat(false, known, coming, t);
    ComingAboutAbsent(shown, q, a, s.Members(ENTRY_ZONE), t);
    KeptUnlessLeft(shown, Announced(q), t);
  }

  /** The moment a client's enter command runs: it is due to show exactly the zone and the leftovers. */
  lemma DueOnReturn(w: World, a: Token, t: Token)
    requires Inv(w) && a in w.server.sessions && a !in w.server.Members(ENTRY_ZONE) && t != a
    requires w.server.firing != [] && w.server.firing[0] == EnterCharacter(a, ENTRY_ZONE)
    ensures var s' := Next(w, Fire).server;
            && s'.Members(ENTRY_ZONE) == w.server.Members(ENTRY_ZONE) + {a}
            && (DueShows(s', a, t) <==> t in w.server.Members(ENTRY_ZONE) || Leftover(w.server, a, t))
  {
    FireEnterShows(w.server, a, t);
    if t !in w.server.Members(ENTRY_ZONE) { DueAboutAbsent(w.server, a, t); }
  }

  /** A client that comes back, whatever happened before: once settled it shows the zone map if and only if
      everyone left over at the moment its enter command ran has come or gone since. */
  lemma ReturnShowsZone(before: seq<Step>, after: seq<Step>, a: Token)
    requires var w := Run(EMPTY_WORLD, before);
             && a in w.server.sessions && a !in w.server.Members(ENTRY_ZONE)
             && w.server.firing != [] && w.server.firing[0] == EnterCharacter(a, ENTRY_ZONE)
             && Stays(Next(w, Fire), after, a) && Settled(Run(Next(w, Fire), after), a)
    ensures var w := Run(EMPTY_WORLD, before); var w' := Run(Next(w, Fire), after);
            w'.clients[a].view == w'.server.Members(ENTRY_ZONE) - {a} <==>
              forall t :: Leftover(w.server, a, t) ==> t in AllTouched(Next(w, Fire), after)
  {
    var w := Run(EMPTY_WORLD, before);
    var w1 := Next(w, Fire);
    InvEmpty();
    InvRun(EMPTY_WORLD, before);
    RunConcat(EMPTY_WORLD, before, [Fire]);
    assert [Fire][1..] == [];
    assert Run(EMPTY_WORLD, before + [Fire]) == w1;
    ReturnEnters(w, a);
    ViewIsZoneAndLeftovers(before + [Fire], after, a);
    forall t ensures (t != a && DueShows(w1.server, a, t) && t !in w1.server.Members(ENTRY_ZONE)) == Leftover(w.server, a, t) {
      if t != a { DueOnReturn(w, a, t); }
    }
  }

  lemma ReturnEnters(w: World, a: Token)
    requires a in w.server.sessions && w.server.firing != [] && w.server.firing[0] == EnterCharacter(a, ENTRY_ZONE)
    ensures a in Next(w, Fire).server.Members(ENTRY_ZONE) && a in Next(w, Fire).server.sessions
  {
  }

  lemma StillDue(s: Server, s1: seq<Message>, s2: seq<Message>)
    requires s == Pair(ENTRY_ZONE, NO_ZONE, Zone({1}), [],
                       [SendBroadcast(ENTRY_ZONE, Enter(1)), SendCharacterList(1, ENTRY_ZONE)], s1, s2)
    requires ShownAfter(false, s1, 2)
    ensures DueShows(s, 1, 2)
  {
    var q := s.Queue();
    assert q == s.cmds;
    NoSends(q, 1);
    EnterComing(1, 1, {1});
    assert {1} - {1} == {} && Ascending({}) == [];
    assert Due(s, 1) == s1 + [Enter(1)];
    ShownLast(false, s1, Enter(1), 2);
  }
}
