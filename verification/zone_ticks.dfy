/** How many ticks the self-feeding queue needs. */
module ZoneTicks {
  import opened ZoneModel
  import opened ZoneInvariant
  import opened ZoneConvergence
  import opened ZoneServer

  /** How many generations of commands come after this one: an enter or leave queues broadcasts and
      lists, these queue sends, and a send queues nothing. */
  function Generations(c: Command): nat {
    match c
    case SendPacket(_, _) => 0
    case SendBroadcast(_, _) => 1
    case SendCharacterList(_, _) => 1
    case EnterCharacter(_, _) => 2
    case LeaveCharacter(_, _) => 2
  }

  ghost predicate Within(q: seq<Command>, n: nat) {
    forall c :: c in q ==> Generations(c) < n
  }

  /** What a command queues has fewer generations left than the command. */
  lemma EmittedWithin(s: Server, c: Command)
    ensures Within(Emitted(s, c), Generations(c))
  {
    match c
    case SendBroadcast(zone, m) =>
      if zone in s.zones { FanOutOnlySends(Ascending(s.zones[zone]), m); }
    case SendCharacterList(u, zone) =>
      if u in s.sessions && zone in s.zones {
        SendAllOnlySends(u, ListPackets(Ascending(s.zones[zone] - {u})));
      }
    case _ =>
  }

  lemma FireWithin(s: Server, n: nat)
    requires s.firing != [] && Within(s.firing, n + 1) && Within(s.cmds, n)
    ensures var s' := FireNext(s);
            s'.firing == s.firing[1..] && Within(s'.firing, n + 1) && Within(s'.cmds, n)
  {
    var p, c := s.(firing := s.firing[1..]), s.firing[0];
    assert c in s.firing;
    ExecuteEmits(p, c);
    EmittedWithin(p, c);
  }

  lemma {:induction false} BatchWithin(s: Server, n: nat)
    requires Within(s.firing, n + 1) && Within(s.cmds, n)
    ensures var s' := FireMany(s, |s.firing|); s'.firing == [] && Within(s'.cmds, n)
    decreases |s.firing|
  {
    if s.firing != [] {
      FireWithin(s, n);
      BatchWithin(FireNext(s), n);
    }
  }

  /** One tick of the update thread between two swaps. */
  ghost function Tick(s: Server): Server {
    FireMany(SwapIn(s), |s.cmds|)
  }

  lemma TickWithin(s: Server, n: nat)
    requires s.firing == [] && Within(s.cmds, n + 1)
    ensures Tick(s).firing == [] && Within(Tick(s).cmds, n)
  {
    BatchWithin(SwapIn(s), n);
  }

  lemma SomethingWithin(q: seq<Command>)
    requires q != []
    ensures !Within(q, 0)
  {
    assert q[0] in q;
  }

  /** Three ticks without a new request empty the queue, whatever was in it and however many characters
      the zones hold. */
  lemma ThreeTicksDrain(s: Server)
    requires s.firing == []
    ensures Tick(Tick(Tick(s))).Queue() == []
  {
    assert Within(s.cmds, 3);
    TickWithin(s, 2);
    TickWithin(Tick(s), 1);
    TickWithin(Tick(Tick(s)), 0);
    var q := Tick(Tick(Tick(s))).cmds;
    if q != [] { SomethingWithin(q); }
  }

  /** Two are not enough: the broadcast of an enter is only fanned out in the second. */
  lemma TwoTicksAreNotEnough(t: Token)
    ensures var s := Server(map[t := ENTRY_ZONE], map[], [], [EnterCharacter(t, ENTRY_ZONE)], map[]);
            Tick(Tick(s)).cmds != []
  {
    var s := Server(map[t := ENTRY_ZONE], map[], [], [EnterCharacter(t, ENTRY_ZONE)], map[]);
    var e, b, l := EnterCharacter(t, ENTRY_ZONE), SendBroadcast(ENTRY_ZONE, Enter(t)), SendCharacterList(t, ENTRY_ZONE);
    assert [e][1..] == [] && [b, l][1..] == [l] && [l][1..] == [];
    assert Tick(s) == FireMany(FireNext(SwapIn(s)), 0);
    var s1 := Tick(s);
    assert {} + {t} == {t} && map[][ENTRY_ZONE := {t}] == map[ENTRY_ZONE := {t}];
    assert s1.cmds == [] + [b, l] == [b, l];
    assert s1.cmds == [b, l] && s1.zones == map[ENTRY_ZONE := {t}] && s1.firing == [];
    var f1 := FireNext(SwapIn(s1));
    AscendingVisitsAll({t});
    assert f1.cmds == FanOut(Ascending({t}), Enter(t)) && f1.cmds != [];
    assert Tick(s1) == FireMany(f1, 1) == FireNext(f1);
    ExecuteAppends(f1.(firing := []), l);
  }

  /** The same for the server object. */
  method RunThreeTicks(server: GameServer)
    modifies server
    ensures server.State([]) == Tick(Tick(Tick(old(server.State([])))))
    ensures server.cmds == []
  {
    ThreeTicksDrain(server.State([]));
    server.FireOps();
    server.FireOps();
    server.FireOps();
  }
}
