/** What every reachable state of the protocol satisfies. */
module ZoneInvariant {
  import opened ZoneModel
  import opened ZoneStreams
  import opened ZoneSteps

  // ---------------------------------------------------------------- what a step appends

  ghost function Emitted(s: Server, c: Command): seq<Command> {
    match c
    case SendBroadcast(zone, msg) =>
      if zone in s.zones then FanOut(Ascending(s.zones[zone]), msg) else []
    case SendPacket(_, _) => []
    case EnterCharacter(token, zone) =>
      if token in s.sessions then [SendBroadcast(zone, Enter(token)), SendCharacterList(token, zone)] else []
    case LeaveCharacter(token, zone) => [SendBroadcast(zone, Leave(token))]
    case SendCharacterList(token, zone) =>
      if token in s.sessions && zone in s.zones then
        SendAll(token, ListPackets(Ascending(s.zones[zone] - {token})))
      else []
  }

  function Requested(s: Server, step: Step): seq<Command> {
    match step
    case CsEnter(t) => if t in s.sessions then [EnterCharacter(t, ENTRY_ZONE)] else []
    case CsLeave(t) => if t in s.sessions then [LeaveCharacter(t, s.sessions[t])] else []
    case CsRelay(t, p) => if t in s.sessions then [SendBroadcast(s.sessions[t], Relay(p))] else []
    case Anonymous(c) => if AnonymousCommand(c) then [c] else []
    case Release(t) =>
      if t in s.sessions && s.sessions[t] != NO_ZONE then [LeaveCharacter(t, s.sessions[t])] else []
    case _ => []
  }

  lemma ExecuteEmits(s: Server, c: Command)
    ensures Execute(s, c).cmds == s.cmds + Emitted(s, c) && Execute(s, c).firing == s.firing
  {
  }

  lemma StepRequests(s: Server, step: Step)
    requires !step.Fire? && !step.Swap?
    ensures NextServer(s, step).cmds == s.cmds + Requested(s, step)
    ensures NextServer(s, step).firing == s.firing
  {
  }

  /** What a step takes off the queue, then the queue after it, is the queue before and what it adds. */
  ghost function Appended(s: Server, step: Step): seq<Command> {
    if step.Fire? then
      if s.firing == [] then [] else Emitted(Popped(s), s.firing[0])
    else Requested(s, step)
  }

  lemma QueueAppends(w: World, step: Step)
    ensures Taken(w.server, step) + Next(w, step).server.Queue()
         == w.server.Queue() + Appended(w.server, step)
  {
    var s, s' := w.server, Next(w, step).server;
    if step.Fire? {
      if s.firing != [] {
        ExecuteEmits(Popped(s), s.firing[0]);
        assert s.firing == [s.firing[0]] + s.firing[1..];
      }
    } else if !step.Swap? {
      StepRequests(s, step);
    }
  }

  // ---------------------------------------------------------------- tokens and commands

  ghost predicate SaneCommand(c: Command, issued: set<Token>) {
    match c
    case SendBroadcast(_, m) => m.Enter? || m.Leave? || m.Relay?
    case SendPacket(u, m) => u in issued && !m.AuthResult?
    case EnterCharacter(_, z) => z == ENTRY_ZONE
    case LeaveCharacter(_, _) => true
    case SendCharacterList(u, z) => u in issued && z == ENTRY_ZONE
  }

  /** Only the entry zone exists, and only issued tokens have sessions, streams or a place in it. */
  ghost predicate SaneTokens(w: World) {
    var s := w.server;
    && s.zones.Keys <= {ENTRY_ZONE} && NO_TOKEN !in w.clients
    && s.sessions.Keys <= w.clients.Keys && s.Members(ENTRY_ZONE) <= w.clients.Keys
    && s.sent.Keys == w.clients.Keys
  }

  ghost predicate SaneQueue(w: World) {
    forall c :: c in w.server.Queue() ==> SaneCommand(c, w.clients.Keys)
  }

  /** Every stream opens with the session's own token, and every client is what its handlers make of
      the part of its stream that has arrived. */
  ghost predicate SaneClients(w: World) {
    forall a :: a in w.clients ==> SaneClient(w.server.Stream(a), w.clients[a], a)
  }

  predicate SaneClient(stream: seq<Message>, c: Client, a: Token) {
    OpensWith(stream, a) && c.read <= |stream| && c == Replay(stream[..c.read])
  }

  /** Nobody outside the zone is announced as present by the broadcasts still queued. */
  ghost predicate SilentAboutAbsent(s: Server) {
    forall t :: t !in s.Members(ENTRY_ZONE) ==> !ShownAfter(false, Announced(s.Queue()), t)
  }

  /** Every live member is due to be shown every other member. */
  ghost predicate MembersDue(s: Server) {
    forall a, t :: a in s.Members(ENTRY_ZONE) && a in s.sessions && t in s.Members(ENTRY_ZONE) && t != a
      ==> DueShows(s, a, t)
  }

  ghost predicate Inv(w: World) {
    SaneTokens(w) && SaneQueue(w) && SaneClients(w) && SilentAboutAbsent(w.server) && MembersDue(w.server)
  }

  lemma {:induction false} FanOutSane(to: seq<Token>, m: Message, issued: set<Token>)
    requires !m.AuthResult? && forall t :: t in to ==> t in issued
    ensures forall c :: c in FanOut(to, m) ==> SaneCommand(c, issued)
    decreases |to|
  {
    if to != [] {
      FanOutSane(to[1..], m, issued);
    }
  }

  lemma {:induction false} ListsSane(u: Token, tokens: seq<Token>, issued: set<Token>)
    requires u in issued
    ensures forall c :: c in SendAll(u, ListPackets(tokens)) ==> SaneCommand(c, issued)
    decreases |tokens|
  {
    if tokens != [] {
      var ms := ListPackets(tokens);
      assert ms[0] == CharacterList([tokens[0]]) && ms[1..] == ListPackets(tokens[1..]);
      ListsSane(u, tokens[1..], issued);
    }
  }

  lemma EmittedSane(w: World, c: Command)
    requires SaneTokens(w) && SaneCommand(c, w.clients.Keys)
    ensures forall d :: d in Emitted(w.server, c) ==> SaneCommand(d, w.clients.Keys)
  {
    match c
    case SendBroadcast(zone, msg) =>
      if zone in w.server.zones {
        AscendingVisitsAll(w.server.zones[zone]);
        FanOutSane(Ascending(w.server.zones[zone]), msg, w.clients.Keys);
      }
    case SendCharacterList(token, zone) =>
      if token in w.server.sessions && zone in w.server.zones {
        ListsSane(token, Ascending(w.server.zones[zone] - {token}), w.clients.Keys);
      }
    case _ =>
  }

  lemma PoppedSane(w: World)
    requires SaneTokens(w) && SaneQueue(w) && w.server.firing != []
    ensures SaneTokens(World(Popped(w.server), w.clients))
    ensures SaneCommand(w.server.firing[0], w.clients.Keys)
  {
    assert w.server.firing[0] in w.server.Queue();
  }

  lemma AppendedSane(w: World, step: Step)
    requires SaneTokens(w) && SaneQueue(w)
    ensures forall c :: c in Appended(w.server, step) ==> SaneCommand(c, w.clients.Keys)
  {
    if step.Fire? && w.server.firing != [] {
      PoppedSane(w);
      EmittedSane(World(Popped(w.server), w.clients), w.server.firing[0]);
    }
  }

  lemma KeepsSaneQueue(w: World, step: Step)
    requires SaneTokens(w) && SaneQueue(w)
    ensures SaneQueue(Next(w, step))
  {
    var w' := Next(w, step);
    AppendedSane(w, step);
    QueueAppends(w, step);
    forall c | c in w'.server.Queue() ensures SaneCommand(c, w'.clients.Keys) {
      assert c in Taken(w.server, step) + w'.server.Queue();
      assert c in w.server.Queue() || c in Appended(w.server, step);
      assert SaneCommand(c, w.clients.Keys);
    }
  }

  lemma FireKeepsTokens(w: World)
    requires SaneTokens(w) && SaneQueue(w) && w.server.firing != []
    ensures SaneTokens(World(FireNext(w.server), w.clients))
  {
    PoppedSane(w);
  }

  lemma KeepsSaneTokens(w: World, step: Step)
    requires SaneTokens(w) && SaneQueue(w)
    ensures SaneTokens(Next(w, step))
  {
    if step.Fire? && w.server.firing != [] {
      FireKeepsTokens(w);
    }
  }

  lemma StreamGrows(stream: seq<Message>, c: Client, a: Token, m: Message)
    requires SaneClient(stream, c, a) && !m.AuthResult?
    ensures SaneClient(stream + [m], c, a)
  {
    assert (stream + [m])[..c.read] == stream[..c.read];
  }

  lemma ClientReads(stream: seq<Message>, c: Client, a: Token)
    requires SaneClient(stream, c, a) && c.read < |stream|
    ensures SaneClient(stream, Handle(c, stream[c.read]), a)
  {
    var ms := stream[..c.read + 1];
    assert ms[..|ms| - 1] == stream[..c.read] && ms[|ms| - 1] == stream[c.read];
  }

  /** What a step puts on the stream of `a`. */
  function Sent(s: Server, step: Step, a: Token): seq<Message> {
    if step.Beat? && step.token == a && a in s.sessions then [Heartbeat]
    else if step.Fire? && s.firing != [] && s.firing[0].SendPacket? && s.firing[0].token == a && a in s.sessions
    then [s.firing[0].msg]
    else []
  }

  lemma StreamStep(w: World, step: Step, a: Token)
    requires a in w.clients
    ensures Next(w, step).server.Stream(a) == w.server.Stream(a) + Sent(w.server, step, a)
  {
    var x := w.server.Stream(a);
    assert x + [] == x;
    match step
    case Fire =>
      if w.server.firing != [] { FireStream(w.server, a); }
    case _ =>
  }

  lemma FireStream(s: Server, a: Token)
    requires s.firing != []
    ensures FireNext(s).Stream(a) == s.Stream(a) + Sent(s, Fire, a)
  {
    assert s.Stream(a) + [] == s.Stream(a);
    match s.firing[0]
    case SendPacket(_, _) =>
    case _ => assert FireNext(s).sent == s.sent;
  }

  lemma KeepsSaneClients(w: World, step: Step)
    requires SaneTokens(w) && SaneQueue(w) && SaneClients(w)
    ensures SaneClients(Next(w, step))
  {
    var w' := Next(w, step);
    forall a | a in w'.clients ensures SaneClient(w'.server.Stream(a), w'.clients[a], a) {
      if a in w.clients {
        StreamStep(w, step, a);
        var ms := Sent(w.server, step, a);
        if ms == [] {
          assert w'.server.Stream(a) == w.server.Stream(a);
          if step == Deliver(a) && w.clients[a].read < |w.server.Stream(a)| {
            ClientReads(w.server.Stream(a), w.clients[a], a);
          }
        } else {
          if step.Fire? { PoppedSane(w); }
          StreamGrows(w.server.Stream(a), w.clients[a], a, ms[0]);
          assert ms == [ms[0]];
        }
      }
    }
  }

  // ---------------------------------------------------------------- broadcasts

  lemma AppendedAnnounces(w: World, step: Step)
    requires SaneTokens(w) && SaneQueue(w)
    ensures var s := w.server; var news := Announced(Appended(s, step));
            || news == []
            || (exists p :: news == [Relay(p)])
            || (exists u :: news == [Enter(u)] && u in Touched(s, step) && u in Next(w, step).server.Members(ENTRY_ZONE))
            || (exists u :: news == [Leave(u)] && u in Touched(s, step) && u !in Next(w, step).server.Members(ENTRY_ZONE))
    ensures Announced(Taken(w.server, step)) != [] ==> Announced(Appended(w.server, step)) == []
  {
    var s := w.server;
    if step.Fire? {
      if s.firing != [] { FireAnnounces(w); }
    } else {
      var q := Requested(s, step);
      if q != [] {
        assert q == [q[0]] && q[1..] == [];
        if q[0].SendBroadcast? && q[0].zone == ENTRY_ZONE {
          assert Announced(q) == [Relay(q[0].msg.payload)];
        } else {
          assert Announced(q) == [];
        }
      }
    }
  }

  lemma EnterAnnounced(u: Token)
    ensures Announced([SendBroadcast(ENTRY_ZONE, Enter(u)), SendCharacterList(u, ENTRY_ZONE)]) == [Enter(u)]
  {
    var b, l := SendBroadcast(ENTRY_ZONE, Enter(u)), SendCharacterList(u, ENTRY_ZONE);
    assert [b, l] == [b] + [l];
    AnnouncedConcat([b], [l]);
    AnnouncedOne(b);
    AnnouncedOne(l);
  }

  lemma FireAnnounces(w: World)
    requires SaneTokens(w) && SaneQueue(w) && w.server.firing != []
    ensures var s := w.server; var news := Announced(Appended(s, Fire));
            || news == []
            || (exists u :: news == [Enter(u)] && u in Touched(s, Fire) && u in Next(w, Fire).server.Members(ENTRY_ZONE))
            || (exists u :: news == [Leave(u)] && u in Touched(s, Fire) && u !in Next(w, Fire).server.Members(ENTRY_ZONE))
    ensures Announced(Taken(w.server, Fire)) != [] ==> Announced(Appended(w.server, Fire)) == []
  {
    var s := w.server;
    var p, c := Popped(s), s.firing[0];
    PoppedSane(w);
    AnnouncedOne(c);
    match c
    case SendBroadcast(zone, m) =>
      if zone in s.zones {
        AscendingVisitsAll(s.zones[zone]);
        FanOutReachesEachOnce(Ascending(s.zones[zone]), m, NO_TOKEN, {});
      }
    case SendCharacterList(u, zone) =>
      if u in s.sessions && zone in s.zones {
        SendAllReachesOne(u, ListPackets(Ascending(s.zones[zone] - {u})), NO_TOKEN, {});
      }
    case EnterCharacter(u, zone) =>
      if u in s.sessions {
        EnterAnnounced(u);
      }
    case LeaveCharacter(u, zone) =>
      AnnouncedOne(SendBroadcast(zone, Leave(u)));
    case SendPacket(_, _) =>
  }

  /** Membership of the entry zone only changes for those a step announces. */
  lemma UntouchedStay(w: World, step: Step, t: Token)
    requires SaneTokens(w) && SaneQueue(w) && t !in Touched(w.server, step)
    ensures t in Next(w, step).server.Members(ENTRY_ZONE) <==> t in w.server.Members(ENTRY_ZONE)
  {
    if step.Fire? && w.server.firing != [] {
      PoppedSane(w);
    }
  }

  lemma AnnouncedStep(w: World, step: Step)
    ensures var s, s' := w.server, Next(w, step).server;
            Announced(Taken(s, step)) + Announced(s'.Queue()) == Announced(s.Queue()) + Announced(Appended(s, step))
  {
    QueueAppends(w, step);
    AnnouncedConcat(Taken(w.server, step), Next(w, step).server.Queue());
    AnnouncedConcat(w.server.Queue(), Appended(w.server, step));
  }

  lemma KeepsSilent(w: World, step: Step)
    requires SaneTokens(w) && SaneQueue(w) && SilentAboutAbsent(w.server)
    ensures SilentAboutAbsent(Next(w, step).server)
  {
    var s, s' := w.server, Next(w, step).server;
    forall t | t !in s'.Members(ENTRY_ZONE) ensures !ShownAfter(false, Announced(s'.Queue()), t) {
      SilentAbout(w, step, t);
    }
  }

  lemma SilentAbout(w: World, step: Step, t: Token)
    requires SaneTokens(w) && SaneQueue(w) && SilentAboutAbsent(w.server)
    requires t !in Next(w, step).server.Members(ENTRY_ZONE)
    ensures !ShownAfter(false, Announced(Next(w, step).server.Queue()), t)
  {
    var s, s' := w.server, Next(w, step).server;
    var was, now := Announced(s.Queue()), Announced(s'.Queue());
    var news, gone := Announced(Appended(s, step)), Announced(Taken(s, step));
    AnnouncedStep(w, step);
    AppendedAnnounces(w, step);
    if t !in Touched(s, step) { UntouchedStay(w, step, t); }
    if gone == [] {
      assert now == was + news;
      if news == [] {
        assert now == was;
        if t in Touched(s, step) { TouchedAnnounced(w, step); }
      } else {
        SilentWithNews(was, news, t);
      }
    } else {
      assert gone + now == was + [] == was;
      SilentWithoutFirst(was, gone, now, t);
    }
  }

  lemma SilentWithNews(was: seq<Message>, news: seq<Message>, t: Token)
    requires |news| == 1 && news[0] != Enter(t) && !news[0].CharacterList?
    requires news[0] == Leave(t) || !ShownAfter(false, was, t)
    ensures !ShownAfter(false, was + news, t)
  {
    assert news == [news[0]];
    ShownLast(false, was, news[0], t);
  }

  lemma SilentWithoutFirst(was: seq<Message>, gone: seq<Message>, now: seq<Message>, t: Token)
    requires was == gone + now && !ShownAfter(false, was, t)
    ensures !ShownAfter(false, now, t)
  {
    ShownConcat(false, gone, now, t);
    ShownMonotone(now, t);
  }

  /** Everyone whose membership a step touches is announced by it. */
  lemma TouchedAnnounced(w: World, step: Step)
    requires SaneTokens(w) && SaneQueue(w) && Touched(w.server, step) != {}
    ensures Announced(Appended(w.server, step)) != []
  {
    var s := w.server;
    PoppedSane(w);
    var q := Emitted(Popped(s), s.firing[0]);
    assert Announced(q) == [q[0].msg] + Announced(q[1..]);
  }

  // ---------------------------------------------------------------- members

  lemma LiveBefore(w: World, step: Step, a: Token)
    requires a in w.clients && a in Next(w, step).server.sessions
    ensures a in w.server.sessions
  {
  }

  lemma KeepsMembersDue(w: World, step: Step)
    requires Inv(w)
    ensures MembersDue(Next(w, step).server)
  {
    var s, s' := w.server, Next(w, step).server;
    forall a, t | a in s'.Members(ENTRY_ZONE) && a in s'.sessions && t in s'.Members(ENTRY_ZONE) && t != a
      ensures DueShows(s', a, t)
    {
      MemberDue(w, step, a, t);
    }
  }

  lemma MemberDue(w: World, step: Step, a: Token, t: Token)
    requires Inv(w) && t != a
    requires var s' := Next(w, step).server;
             a in s'.Members(ENTRY_ZONE) && a in s'.sessions && t in s'.Members(ENTRY_ZONE)
    ensures DueShows(Next(w, step).server, a, t)
  {
    var s, s' := w.server, Next(w, step).server;
    KeepsSaneTokens(w, step);
    if a in s.Members(ENTRY_ZONE) {
      LiveBefore(w, step, a);
      StepShows(w, step, a, t);
    } else {
      if a !in Touched(s, step) { UntouchedStay(w, step, a); }
      FireEnterShows(s, a, t);
    }
  }

  lemma InvStep(w: World, step: Step)
    requires Inv(w)
    ensures Inv(Next(w, step))
  {
    KeepsSaneTokens(w, step);
    KeepsSaneQueue(w, step);
    KeepsSaneClients(w, step);
    KeepsSilent(w, step);
    KeepsMembersDue(w, step);
  }

  /** The invariant holds after every run from the empty world. */
  lemma {:induction false} InvRun(w: World, steps: seq<Step>)
    requires Inv(w)
    ensures Inv(Run(w, steps))
    decreases |steps|
  {
    if steps != [] {
      InvStep(w, steps[0]);
      InvRun(Next(w, steps[0]), steps[1..]);
    }
  }

  lemma InvEmpty()
    ensures Inv(EMPTY_WORLD)
  {
  }
}
