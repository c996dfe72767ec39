/** Broadcast order, and the fact that the self-feeding queue always drains. */
module ZoneDelivery {
  import opened Common
  import opened ZoneModel
  import opened ZoneStreams
  import opened ZoneSteps
  import opened ZoneInvariant
  import opened ZoneConvergence

  // ---------------------------------------------------------------- order

  /** The broadcast packets of a stream; lists, heartbeats and the auth result are addressed. */
  function Broadcasts(ms: seq<Message>): seq<Message>
    decreases |ms|
  {
    if ms == [] then []
    else
      (if ms[0].Enter? || ms[0].Leave? || ms[0].Relay? then [ms[0]] else []) + Broadcasts(ms[1..])
  }

  lemma {:induction false} BroadcastsConcat(x: seq<Message>, y: seq<Message>)
    ensures Broadcasts(x + y) == Broadcasts(x) + Broadcasts(y)
    decreases |x|
  {
    if x == [] {
      assert x + y == y;
    } else {
      assert (x + y)[0] == x[0] && (x + y)[1..] == x[1..] + y;
      BroadcastsConcat(x[1..], y);
      var head := if x[0].Enter? || x[0].Leave? || x[0].Relay? then [x[0]] else [];
      Assoc(head, Broadcasts(x[1..]), Broadcasts(y));
    }
  }

  lemma {:induction false} ListsAreNotBroadcasts(tokens: seq<Token>)
    ensures Broadcasts(ListPackets(tokens)) == []
    decreases |tokens|
  {
    if tokens != [] {
      var ms := ListPackets(tokens);
      assert ms[0] == CharacterList([tokens[0]]) && ms[1..] == ListPackets(tokens[1..]);
      ListsAreNotBroadcasts(tokens[1..]);
    }
  }

  /** The broadcasts a member has been sent, then those already fanned out to it, then those queued. */
  ghost function Mail(s: Server, a: Token): seq<Message> {
    Broadcasts(s.Stream(a)) + (Broadcasts(SendsTo(s.Queue(), a)) + Announced(s.Queue()))
  }

  ghost function AllAnnounced(w: World, steps: seq<Step>): seq<Message>
    decreases |steps|
  {
    if steps == [] then []
    else Announced(Appended(w.server, steps[0])) + AllAnnounced(Next(w, steps[0]), steps[1..])
  }

  /** What the commands a step appends will send to member `a`: the broadcast the step runs, if any. */
  lemma AppendedToMember(w: World, step: Step, a: Token)
    requires Inv(w) && a in w.server.Members(ENTRY_ZONE) && a in w.server.sessions
    ensures Broadcasts(SendsTo(Appended(w.server, step), a)) == Announced(Taken(w.server, step))
    ensures Announced(Taken(w.server, step)) != [] ==> Announced(Appended(w.server, step)) == []
  {
    var s := w.server;
    var q := Appended(s, step);
    AppendedAnnounces(w, step);
    if step.Fire? && s.firing != [] {
      PoppedSane(w);
      assert [s.firing[0]][1..] == [];
      match s.firing[0]
      case SendBroadcast(zone, m) =>
        assert [m][1..] == [];
        if zone in s.zones {
          AscendingVisitsAll(s.zones[zone]);
          FanOutReachesEachOnce(Ascending(s.zones[zone]), m, a, {});
        }
      case SendCharacterList(u, zone) =>
        if u in s.sessions && zone in s.zones {
          var tokens := Ascending(s.zones[zone] - {u});
          SendAllReachesOne(u, ListPackets(tokens), a, {});
          ListsAreNotBroadcasts(tokens);
        }
      case _ => NoSends(q, a);
    } else {
      NoSends(q, a);
    }
  }

  /** The same, on plain sequences: packets move from announced to fanned out to sent, in order. */
  lemma MailAlgebra(st: seq<Message>, out: seq<Message>, fan: seq<Message>, fan': seq<Message>,
                    up: seq<Message>, an: seq<Message>, an': seq<Message>, news: seq<Message>)
    requires out + fan' == fan + up && up + an' == an + news
    requires up == [] || (out == [] && news == [])
    ensures (st + out) + (fan' + an') == (st + (fan + an)) + news
  {
    if up == [] {
      assert fan + up == fan && up + an' == an';
      assert (st + out) + (fan' + an') == st + ((out + fan') + an');
      assert (st + (fan + an)) + news == st + (fan + (an + news));
    } else {
      assert fan' == fan + up && an == up + an';
      assert st + (fan' + an') == st + (fan + (up + an'));
    }
  }

  lemma TakenSends(w: World, step: Step, a: Token)
    requires Inv(w) && a in w.server.sessions
    ensures Broadcasts(Sent(w.server, step, a)) == Broadcasts(SendsTo(Taken(w.server, step), a))
    ensures Announced(Taken(w.server, step)) != [] ==> SendsTo(Taken(w.server, step), a) == []
  {
    var s := w.server;
    if step.Fire? && s.firing != [] {
      assert [s.firing[0]][1..] == [];
      if s.firing[0].SendPacket? {
        HeadSend(s.firing[0].token, s.firing[0].msg, a);
        assert Announced([s.firing[0]]) == [] + Announced([s.firing[0]][1..]);
      } else {
        NoSends([s.firing[0]], a);
      }
    } else if step.Beat? {
      assert [Heartbeat][1..] == [];
    }
  }

  lemma MailStep(w: World, step: Step, a: Token)
    requires Inv(w) && a in w.server.Members(ENTRY_ZONE) && a in w.server.sessions
    ensures Mail(Next(w, step).server, a) == Mail(w.server, a) + Announced(Appended(w.server, step))
  {
    var s, s' := w.server, Next(w, step).server;
    var taken, more := Taken(s, step), Appended(s, step);
    var up := Announced(taken);
    var out := Broadcasts(SendsTo(taken, a));
    assert out + Broadcasts(SendsTo(s'.Queue(), a)) == Broadcasts(SendsTo(s.Queue(), a)) + up by {
      AppendedToMember(w, step, a);
      QueueAppends(w, step);
      SendsToConcat(taken, s'.Queue(), a);
      SendsToConcat(s.Queue(), more, a);
      BroadcastsConcat(SendsTo(taken, a), SendsTo(s'.Queue(), a));
      BroadcastsConcat(SendsTo(s.Queue(), a), SendsTo(more, a));
    }
    AnnouncedStep(w, step);
    TakenSends(w, step, a);
    AppendedToMember(w, step, a);
    assert Broadcasts(s'.Stream(a)) == Broadcasts(s.Stream(a)) + out by {
      StreamStep(w, step, a);
      BroadcastsConcat(s.Stream(a), Sent(s, step, a));
    }
    MailAlgebra(Broadcasts(s.Stream(a)), out, Broadcasts(SendsTo(s.Queue(), a)), Broadcasts(SendsTo(s'.Queue(), a)),
                up, Announced(s.Queue()), Announced(s'.Queue()), Announced(more));
  }

  lemma {:induction false} MailRun(w: World, steps: seq<Step>, a: Token)
    requires Inv(w) && Stays(w, steps, a)
    requires a in w.server.Members(ENTRY_ZONE) && a in w.server.sessions
    ensures Mail(Run(w, steps).server, a) == Mail(w.server, a) + AllAnnounced(w, steps)
    decreases |steps|
  {
    if steps != [] {
      var w' := Next(w, steps[0]);
      MailStep(w, steps[0], a);
      InvStep(w, steps[0]);
      MailRun(w', steps[1..], a);
      Assoc(Mail(w.server, a), Announced(Appended(w.server, steps[0])), AllAnnounced(w', steps[1..]));
    }
  }

  /** Broadcast order: from any reachable moment of a member's stay on, the broadcasts it is sent are
      those it was due, then every broadcast queued to the zone since, each exactly once and in the
      order they were queued. So any two broadcasts reach every common recipient in that order. */
  lemma BroadcastsArriveInOrder(before: seq<Step>, after: seq<Step>, a: Token)
    requires var w := Run(EMPTY_WORLD, before);
             && a in w.server.Members(ENTRY_ZONE) && a in w.server.sessions
             && Stays(w, after, a) && Run(w, after).server.Queue() == []
    ensures var w := Run(EMPTY_WORLD, before);
            Broadcasts(Run(w, after).server.Stream(a)) == Mail(w.server, a) + AllAnnounced(w, after)
  {
    InvEmpty();
    InvRun(EMPTY_WORLD, before);
    var w := Run(EMPTY_WORLD, before);
    MailRun(w, after, a);
    var s' := Run(w, after).server;
    assert Mail(s', a) == Broadcasts(s'.Stream(a));
  }

  /** Running a broadcast queues exactly one send per member of the moment, in the order of their tokens, and
      does nothing else. */
  lemma BroadcastFansOut(s: Server, m: Message)
    requires ENTRY_ZONE in s.zones
    ensures var s' := Execute(s, SendBroadcast(ENTRY_ZONE, m)); var to := Ascending(s.zones[ENTRY_ZONE]);
            && s' == s.(cmds := s'.cmds) && s.cmds <= s'.cmds
            && |to| == |s.zones[ENTRY_ZONE]| && |s'.cmds| == |s.cmds| + |to|
            && forall i :: 0 <= i < |to| ==> s'.cmds[|s.cmds| + i] == SendPacket(to[i], m)
  {
    var to := Ascending(s.zones[ENTRY_ZONE]);
    AscendingVisitsAll(s.zones[ENTRY_ZONE]);
    FanOutExactly(to, m);
  }

  lemma {:induction false} FanOutExactly(to: seq<Token>, m: Message)
    ensures |FanOut(to, m)| == |to| && forall i :: 0 <= i < |to| ==> FanOut(to, m)[i] == SendPacket(to[i], m)
    decreases |to|
  {
    if to != [] { FanOutExactly(to[1..], m); }
  }

  /** Running a list command queues, for the one who asked, one packet with one entry for each other member,
      in the order of their tokens, and does nothing else. */
  lemma ListNamesOthers(s: Server, u: Token)
    requires ENTRY_ZONE in s.zones && u in s.sessions
    ensures var s' := Execute(s, SendCharacterList(u, ENTRY_ZONE)); var others := Ascending(s.zones[ENTRY_ZONE] - {u});
            && s' == s.(cmds := s'.cmds) && s.cmds <= s'.cmds
            && |others| == |s.zones[ENTRY_ZONE] - {u}| && |s'.cmds| == |s.cmds| + |others|
            && forall i :: 0 <= i < |others| ==> s'.cmds[|s.cmds| + i] == SendPacket(u, CharacterList([others[i]]))
  {
    var others := Ascending(s.zones[ENTRY_ZONE] - {u});
    AscendingVisitsAll(s.zones[ENTRY_ZONE] - {u});
    ListExactly(u, others);
  }

  lemma {:induction false} ListExactly(u: Token, tokens: seq<Token>)
    ensures var q := SendAll(u, ListPackets(tokens));
            |q| == |tokens| && forall i :: 0 <= i < |tokens| ==> q[i] == SendPacket(u, CharacterList([tokens[i]]))
    decreases |tokens|
  {
    if tokens != [] {
      var ms := ListPackets(tokens);
      assert ms[0] == CharacterList([tokens[0]]) && ms[1..] == ListPackets(tokens[1..]);
      ListExactly(u, tokens[1..]);
    }
  }

  // ---------------------------------------------------------------- draining

  /** A bound on the commands that running `c` can lead to, with at most `n` characters around. */
  function Cost(c: Command, n: nat): nat {
    match c
    case SendPacket(_, _) => 1
    case SendBroadcast(_, _) => 1 + n
    case SendCharacterList(_, _) => 1 + n
    case LeaveCharacter(_, _) => 2 + n
    case EnterCharacter(_, _) => 3 + n + n
  }

  function TotalCost(q: seq<Command>, n: nat): nat
    decreases |q|
  {
    if q == [] then 0 else Cost(q[0], n) + TotalCost(q[1..], n)
  }

  lemma {:induction false} TotalCostConcat(p: seq<Command>, q: seq<Command>, n: nat)
    ensures TotalCost(p + q, n) == TotalCost(p, n) + TotalCost(q, n)
    decreases |p|
  {
    if p == [] {
      assert p + q == q;
    } else {
      assert (p + q)[0] == p[0] && (p + q)[1..] == p[1..] + q;
      TotalCostConcat(p[1..], q, n);
    }
  }

  lemma {:induction false} SendsCost(q: seq<Command>, n: nat)
    requires forall c :: c in q ==> c.SendPacket?
    ensures TotalCost(q, n) == |q|
    decreases |q|
  {
    if q != [] {
      assert q[0] in q;
      assert forall c :: c in q[1..] ==> c in q;
      SendsCost(q[1..], n);
    }
  }

  /** Running a command costs more than everything it queues. */
  lemma EmittedCost(s: Server, c: Command, issued: set<Token>)
    requires s.zones.Keys <= {ENTRY_ZONE} && s.Members(ENTRY_ZONE) <= issued
    ensures TotalCost(Emitted(s, c), |issued|) < Cost(c, |issued|)
  {
    var n, q := |issued|, Emitted(s, c);
    match c
    case SendBroadcast(zone, m) =>
      if zone in s.zones {
        var to := Ascending(s.zones[zone]);
        AscendingVisitsAll(s.zones[zone]);
        FanOutExactly(to, m);
        FanOutOnlySends(to, m);
        SendsCost(q, n);
        SubsetSize(s.zones[zone], issued);
      }
    case SendCharacterList(u, zone) =>
      if u in s.sessions && zone in s.zones {
        AscendingVisitsAll(s.zones[zone] - {u});
        ListExactly(u, Ascending(s.zones[zone] - {u}));
        SendAllOnlySends(u, ListPackets(Ascending(s.zones[zone] - {u})));
        SendsCost(q, n);
        SubsetSize(s.zones[zone] - {u}, issued);
      }
    case EnterCharacter(u, zone) =>
      if q != [] {
        assert TotalCost(q[1..], n) == Cost(q[1], n) + TotalCost(q[1..][1..], n);
        assert q[1..][1..] == [];
      }
    case LeaveCharacter(u, zone) =>
      assert q[1..] == [];
    case SendPacket(_, _) =>
  }

  /** Every fired command lowers the total cost of the queue. */
  lemma FireCosts(w: World)
    requires Inv(w) && w.server.firing != []
    ensures TotalCost(Next(w, Fire).server.Queue(), |w.clients|) < TotalCost(w.server.Queue(), |w.clients|)
  {
    var s, s', n := w.server, Next(w, Fire).server, |w.clients|;
    var c, more := s.firing[0], Appended(s, Fire);
    assert n == |w.clients.Keys|;
    PoppedSane(w);
    EmittedCost(Popped(s), c, w.clients.Keys);
    QueueAppends(w, Fire);
    TotalCostConcat([c], s'.Queue(), n);
    TotalCostConcat(s.Queue(), more, n);
    assert [c][1..] == [];
  }

  /** Ticks alone empty the queue: from every reachable state, firing and swapping until there is
      nothing left comes to an end. */
  lemma {:induction false} QueueDrains(w: World) returns (steps: seq<Step>)
    requires Inv(w)
    ensures forall i :: 0 <= i < |steps| ==> steps[i].Fire? || steps[i].Swap?
    ensures Run(w, steps).server.Queue() == []
    decreases TotalCost(w.server.Queue(), |w.clients|), w.server.firing == []
  {
    if w.server.Queue() == [] {
      steps := [];
    } else {
      var step := if w.server.firing == [] then Swap else Fire;
      InvStep(w, step);
      if step.Fire? {
        FireCosts(w);
      } else {
        assert Next(w, Swap).server.Queue() == w.server.Queue();
      }
      var rest := QueueDrains(Next(w, step));
      steps := [step] + rest;
      assert steps[1..] == rest;
    }
  }

  /** Deliveries catch a client up with its stream without changing anything else. */
  lemma {:induction false} Deliveries(w: World, a: Token) returns (steps: seq<Step>)
    requires Inv(w) && a in w.clients
    ensures forall i :: 0 <= i < |steps| ==> steps[i] == Deliver(a)
    ensures Run(w, steps).server == w.server && a in Run(w, steps).clients
    ensures Run(w, steps).clients[a].read == |w.server.Stream(a)|
    decreases |w.server.Stream(a)| - w.clients[a].read
  {
    if w.clients[a].read == |w.server.Stream(a)| {
      steps := [];
    } else {
      InvStep(w, Deliver(a));
      var rest := Deliveries(Next(w, Deliver(a)), a);
      steps := [Deliver(a)] + rest;
      assert steps[1..] == rest;
    }
  }

  lemma {:induction false} RunConcat(w: World, x: seq<Step>, y: seq<Step>)
    ensures Run(w, x + y) == Run(Run(w, x), y)
    decreases |x|
  {
    if x == [] {
      assert x + y == y;
    } else {
      assert (x + y)[0] == x[0] && (x + y)[1..] == x[1..] + y;
      RunConcat(Next(w, x[0]), x[1..], y);
    }
  }

  /** Steps the server and one client's connection take on their own. */
  predicate OnlyTicksAndDeliveries(steps: seq<Step>, a: Token) {
    forall i :: 0 <= i < |steps| ==> steps[i].Fire? || steps[i].Swap? || steps[i] == Deliver(a)
  }

  /** Settling is always possible: every reachable state has a continuation by ticks and deliveries
      alone after which the queue is drained and the client has handled its whole stream. */
  lemma CanSettle(w: World, a: Token)
    requires Inv(w) && a in w.clients
    ensures exists steps :: OnlyTicksAndDeliveries(steps, a) && Settled(Run(w, steps), a)
  {
    var ticks := QueueDrains(w);
    InvRun(w, ticks);
    KeepsClients(w, ticks, a);
    var handled := Deliveries(Run(w, ticks), a);
    RunConcat(w, ticks, handled);
    assert OnlyTicksAndDeliveries(ticks + handled, a);
  }

  lemma {:induction false} KeepsClients(w: World, steps: seq<Step>, a: Token)
    requires a in w.clients
    ensures a in Run(w, steps).clients
    decreases |steps|
  {
    if steps != [] {
      KeepsClients(Next(w, steps[0]), steps[1..], a);
    }
  }
}
