/** The zone membership protocol as a step system.

    Packet handlers append commands to one queue; the update thread swaps the queue out and
    fires the commands in order, and firing may append more. Every session has one ordered
    byte stream to its client, which rebuilds the set of visible characters from it.
    Characters are identified by their token. */
module ZoneModel {
  import opened Common

  type Token = int
  type ZoneId = int

  const NO_TOKEN: Token := 0
  const NO_ZONE: ZoneId := 0

  /** The only zone the enter handler sends anyone to. */
  const ENTRY_ZONE: ZoneId := 1

  /** Server-to-client packets; `Relay` stands for move, interaction and echo. */
  datatype Message =
    | AuthResult(token: Token)
    | Enter(token: Token)
    | CharacterList(tokens: seq<Token>)
    | Leave(token: Token)
    | Relay(payload: int)
    | Heartbeat

  datatype Command =
    | SendBroadcast(zone: ZoneId, msg: Message)
    | SendPacket(token: Token, msg: Message)
    | EnterCharacter(token: Token, zone: ZoneId)
    | LeaveCharacter(token: Token, zone: ZoneId)
    | SendCharacterList(token: Token, zone: ZoneId)

  /** `sessions` maps each token of the session map to the zone id its character holds;
      `firing` is what is left of the batch swapped out by the current tick, `cmds` the commands
      waiting for a later tick; `sent` is everything ever handed to a session's connector. */
  datatype Server = Server(
    sessions: map<Token, ZoneId>,
    zones: map<ZoneId, set<Token>>,
    firing: seq<Command>,
    cmds: seq<Command>,
    sent: map<Token, seq<Message>>)
  {
    function Members(zone: ZoneId): set<Token> {
      if zone in zones then zones[zone] else {}
    }

    function Stream(token: Token): seq<Message> {
      if token in sent then sent[token] else []
    }

    function Queue(): seq<Command> {
      firing + cmds
    }

    function Add(more: seq<Command>): Server {
      this.(cmds := cmds + more)
    }
  }

  /** A client: its own token (0 until the server tells it), the other characters it shows,
      and how many packets of its stream it has handled. */
  datatype Client = Client(player: Token, view: set<Token>, read: nat)

  datatype World = World(server: Server, clients: map<Token, Client>)

  const EMPTY_WORLD := World(Server(map[], map[], [], [], map[]), map[])

  // ---------------------------------------------------------------- ascending enumeration

  predicate IsLeast(m: Token, s: set<Token>) {
    m in s && forall x :: x in s ==> m <= x
  }

  lemma Pick<T>(s: set<T>) returns (x: T)
    requires s != {}
    ensures x in s
  {
    x :| x in s;
  }

  lemma {:induction false} LeastExists(s: set<Token>)
    requires s != {}
    ensures exists m :: IsLeast(m, s)
  {
    var x := Pick(s);
    if s == {x} {
      assert IsLeast(x, s);
    } else {
      LeastExists(s - {x});
      var y :| IsLeast(y, s - {x});
      var m := if x < y then x else y;
      forall z | z in s ensures m <= z { assert z == x || z in s - {x}; }
      assert IsLeast(m, s);
    }
  }

  /** The smallest key, which is where iteration over an ordered map starts. */
  ghost function Least(s: set<Token>): (m: Token)
    requires s != {}
    ensures IsLeast(m, s)
  {
    LeastExists(s);
    var m :| IsLeast(m, s);
    m
  }

  /** The order in which a loop over an ordered map visits its keys. */
  ghost function Ascending(s: set<Token>): seq<Token> {
    if s == {} then [] else [Least(s)] + Ascending(s - {Least(s)})
  }

  lemma PrependLeast(m: Token, rest: seq<Token>, s: set<Token>)
    requires IsLeast(m, s) && forall x :: x in rest <==> x in s - {m}
    requires forall i, j :: 0 <= i < j < |rest| ==> rest[i] < rest[j]
    ensures var all := [m] + rest;
            && (forall x :: x in all <==> x in s)
            && (forall i, j :: 0 <= i < j < |all| ==> all[i] < all[j])
  {
    var all := [m] + rest;
    forall x ensures x in all <==> x in s { assert x in all <==> x == m || x in rest; }
    forall i, j | 0 <= i < j < |all| ensures all[i] < all[j] {
      assert all[j] == rest[j - 1] && rest[j - 1] in rest;
      if i > 0 { assert all[i] == rest[i - 1]; }
    }
  }

  /** Every key is visited, once, and in increasing order. */
  lemma {:induction false} AscendingVisitsAll(s: set<Token>)
    ensures |Ascending(s)| == |s|
    ensures forall x :: x in Ascending(s) <==> x in s
    ensures forall i, j :: 0 <= i < j < |Ascending(s)| ==> Ascending(s)[i] < Ascending(s)[j]
  {
    if s != {} {
      var m := Least(s);
      AscendingVisitsAll(s - {m});
      PrependLeast(m, Ascending(s - {m}), s);
      assert |s| == |s - {m}| + 1;
    }
  }

  // ---------------------------------------------------------------- commands

  /** One send per recipient, in the given order. */
  function FanOut(to: seq<Token>, msg: Message): seq<Command> {
    if to == [] then [] else [SendPacket(to[0], msg)] + FanOut(to[1..], msg)
  }

  /** The list packets for the given characters. `SetData` reports "ready to send" while the
      count is at most 20, so each packet leaves with exactly one entry. */
  function ListPackets(tokens: seq<Token>): seq<Message> {
    if tokens == [] then [] else [CharacterList([tokens[0]])] + ListPackets(tokens[1..])
  }

  function SendAll(to: Token, msgs: seq<Message>): seq<Command> {
    if msgs == [] then [] else [SendPacket(to, msgs[0])] + SendAll(to, msgs[1..])
  }

  /** What `Operator()` of a command does. */
  ghost function Execute(s: Server, c: Command): Server {
    match c
    case SendBroadcast(zone, msg) =>
      if zone in s.zones then s.Add(FanOut(Ascending(s.zones[zone]), msg)) else s
    case SendPacket(token, msg) =>
      if token in s.sessions then s.(sent := s.sent[token := s.Stream(token) + [msg]]) else s
    case EnterCharacter(token, zone) =>
      if token in s.sessions then
        s.(zones := s.zones[zone := s.Members(zone) + {token}])
         .Add([SendBroadcast(zone, Enter(token)), SendCharacterList(token, zone)])
      else s
    case LeaveCharacter(token, zone) =>
      s.(sessions := if token in s.sessions then s.sessions[token := NO_ZONE] else s.sessions,
         zones := if zone in s.zones then s.zones[zone := s.zones[zone] - {token}] else s.zones)
       .Add([SendBroadcast(zone, Leave(token))])
    case SendCharacterList(token, zone) =>
      if token in s.sessions && zone in s.zones then
        s.Add(SendAll(token, ListPackets(Ascending(s.zones[zone] - {token}))))
      else s
  }

  /** Fires the next command of the current batch. */
  ghost function FireNext(s: Server): Server {
    if s.firing == [] then s else Execute(s.(firing := s.firing[1..]), s.firing[0])
  }

  /** `SwapOpList` at the start of a tick. */
  function SwapIn(s: Server): Server {
    if s.firing == [] then s.(firing := s.cmds, cmds := []) else s
  }

  // ---------------------------------------------------------------- client

  /** What the client's packet handlers do to its character map. */
  function Handle(c: Client, m: Message): Client {
    match m
    case AuthResult(token) => c.(player := token, read := c.read + 1)
    case Enter(token) =>
      c.(view := if token == c.player then c.view else c.view + {token}, read := c.read + 1)
    case CharacterList(tokens) =>
      c.(view := c.view + (set t | t in tokens && t != c.player), read := c.read + 1)
    case Leave(token) =>
      c.(view := if token == c.player then c.view else c.view - {token}, read := c.read + 1)
    case Relay(_) => c.(read := c.read + 1)
    case Heartbeat => c.(read := c.read + 1)
  }

  const NEW_CLIENT := Client(NO_TOKEN, {}, 0)

  /** A client that has handled exactly `ms`. */
  function Replay(ms: seq<Message>): Client {
    if ms == [] then NEW_CLIENT else Handle(Replay(ms[..|ms| - 1]), ms[|ms| - 1])
  }

  // ---------------------------------------------------------------- steps

  /** `Auth` issues a new token, to a session whose character may already hold the entry zone's id from
      an enter request before authentication; the `Cs` steps are packets of an authenticated session,
      `Anonymous` a command queued by one that has not authenticated; `Release` drops a session;
      `Beat` is the heartbeat, which bypasses the queue. A step that is not possible in a
      world leaves it as it is. */
  datatype Step =
    | Auth(token: Token, entered: bool)
    | CsEnter(token: Token)
    | CsLeave(token: Token)
    | CsRelay(token: Token, payload: int)
    | Anonymous(cmd: Command)
    | Release(token: Token)
    | Beat(token: Token)
    | Swap
    | Fire
    | Deliver(token: Token)

  /** Without authentication the token is 0, and the zone id 0 or 1. */
  predicate AnonymousCommand(c: Command) {
    match c
    case EnterCharacter(token, zone) => token == NO_TOKEN && zone == ENTRY_ZONE
    case LeaveCharacter(token, zone) => token == NO_TOKEN && (zone == NO_ZONE || zone == ENTRY_ZONE)
    case SendBroadcast(zone, msg) => msg.Relay? && (zone == NO_ZONE || zone == ENTRY_ZONE)
    case _ => false
  }

  ghost function NextServer(s: Server, step: Step): Server {
    match step
    case Auth(t, entered) =>
      s.(sessions := s.sessions[t := if entered then ENTRY_ZONE else NO_ZONE], sent := s.sent[t := [AuthResult(t)]])
    case CsEnter(t) =>
      if t in s.sessions then
        s.(sessions := s.sessions[t := ENTRY_ZONE]).Add([EnterCharacter(t, ENTRY_ZONE)])
      else s
    case CsLeave(t) => if t in s.sessions then s.Add([LeaveCharacter(t, s.sessions[t])]) else s
    case CsRelay(t, p) =>
      if t in s.sessions then s.Add([SendBroadcast(s.sessions[t], Relay(p))]) else s
    case Anonymous(c) => if AnonymousCommand(c) then s.Add([c]) else s
    case Release(t) =>
      if t in s.sessions then
        s.(sessions := s.sessions - {t})
         .Add(if s.sessions[t] == NO_ZONE then [] else [LeaveCharacter(t, s.sessions[t])])
      else s
    case Beat(t) =>
      if t in s.sessions then s.(sent := s.sent[t := s.Stream(t) + [Heartbeat]]) else s
    case Swap => SwapIn(s)
    case Fire => FireNext(s)
    case Deliver(t) => s
  }

  ghost function Next(w: World, step: Step): World {
    match step
    case Auth(t, _) =>
      if t != NO_TOKEN && t !in w.clients then
        World(NextServer(w.server, step), w.clients[t := NEW_CLIENT])
      else w
    case Deliver(t) =>
      if t in w.clients && w.clients[t].read < |w.server.Stream(t)| then
        w.(clients := w.clients[t := Handle(w.clients[t], w.server.Stream(t)[w.clients[t].read])])
      else w
    case _ => w.(server := NextServer(w.server, step))
  }

  ghost function Run(w: World, steps: seq<Step>): World
    decreases |steps|
  {
    if steps == [] then w else Run(Next(w, steps[0]), steps[1..])
  }

  // ---------------------------------------------------------------- the command queue

  /** What one step takes off the queue. */
  function Taken(s: Server, step: Step): seq<Command> {
    if step.Fire? && s.firing != [] then [s.firing[0]] else []
  }

  /** The commands a run executes, oldest first. */
  ghost function Executed(w: World, steps: seq<Step>): seq<Command>
    decreases |steps|
  {
    if steps == [] then []
    else
      Taken(w.server, steps[0]) + Executed(Next(w, steps[0]), steps[1..])
  }

  /** The commands one step appends. */
  ghost function Added(w: World, step: Step): seq<Command> {
    var before, after := w.server, Next(w, step).server;
    if step.Swap? then []
    else if |before.cmds| <= |after.cmds| then after.cmds[|before.cmds|..] else []
  }

  ghost function AllAdded(w: World, steps: seq<Step>): seq<Command>
    decreases |steps|
  {
    if steps == [] then [] else Added(w, steps[0]) + AllAdded(Next(w, steps[0]), steps[1..])
  }

  /** Every command only ever appends to `cmds`. */
  lemma ExecuteAppends(s: Server, c: Command)
    ensures Execute(s, c).firing == s.firing && s.cmds <= Execute(s, c).cmds
  {
  }

  lemma NextServerAppends(s: Server, step: Step)
    requires !step.Swap? && !step.Fire?
    ensures NextServer(s, step).firing == s.firing && s.cmds <= NextServer(s, step).cmds
  {
  }

  /** Commands leave the queue only from the front of `firing`, and the batch only changes by
      losing its head or, when used up, by a swap. */
  lemma QueueStep(w: World, step: Step)
    requires !step.Swap?
    ensures w.server.firing == Taken(w.server, step) + Next(w, step).server.firing
    ensures Next(w, step).server.cmds == w.server.cmds + Added(w, step)
  {
    var s, s' := w.server, Next(w, step).server;
    if step.Fire? {
      if s.firing != [] {
        ExecuteAppends(s.(firing := s.firing[1..]), s.firing[0]);
      }
    } else {
      NextServerAppends(s, step);
    }
    assert s.cmds <= s'.cmds;
  }

  lemma QueueMoves(w: World, step: Step)
    ensures Taken(w.server, step) + Next(w, step).server.Queue() == w.server.Queue() + Added(w, step)
  {
    var s, s' := w.server, Next(w, step).server;
    if step.Swap? {
      assert s'.Queue() == s.Queue() && [] + s'.Queue() == s'.Queue() + [];
    } else {
      QueueStep(w, step);
      Assoc(Taken(s, step), s'.firing, s'.cmds);
      Assoc(s.firing, s.cmds, Added(w, step));
    }
  }

  lemma Regroup<T>(head: seq<T>, q': seq<T>, q: seq<T>, add: seq<T>, ex: seq<T>, end: seq<T>, more: seq<T>)
    requires head + q' == q + add && ex + end == q' + more
    ensures (head + ex) + end == q + (add + more)
  {
    Assoc(head, ex, end);
    Assoc(head, q', more);
    Assoc(q, add, more);
  }

  /** The queue is a FIFO for every run: what was executed followed by what is pending is what was
      pending at the start followed by what was added since, in the order of addition. */
  lemma {:induction false} QueueConserves(w: World, steps: seq<Step>)
    ensures Executed(w, steps) + Run(w, steps).server.Queue() == w.server.Queue() + AllAdded(w, steps)
    decreases |steps|
  {
    if steps != [] {
      var w' := Next(w, steps[0]);
      var head := Taken(w.server, steps[0]);
      QueueMoves(w, steps[0]);
      QueueConserves(w', steps[1..]);
      Regroup(head, w'.server.Queue(), w.server.Queue(), Added(w, steps[0]),
              Executed(w', steps[1..]), Run(w', steps[1..]).server.Queue(), AllAdded(w', steps[1..]));
    }
  }

  /** A command added during a tick waits for a later one: until the next swap, the commands
      executed are exactly a prefix of the batch, whatever is added meanwhile. */
  lemma {:induction false} AddedCommandsWait(w: World, steps: seq<Step>)
    requires forall i :: 0 <= i < |steps| ==> !steps[i].Swap?
    ensures Executed(w, steps) + Run(w, steps).server.firing == w.server.firing
    ensures Run(w, steps).server.cmds == w.server.cmds + AllAdded(w, steps)
    decreases |steps|
  {
    if steps != [] {
      var w' := Next(w, steps[0]);
      QueueStep(w, steps[0]);
      AddedCommandsWait(w', steps[1..]);
      Assoc(Taken(w.server, steps[0]), Executed(w', steps[1..]), Run(w', steps[1..]).server.firing);
      Assoc(w.server.cmds, Added(w, steps[0]), AllAdded(w', steps[1..]));
    }
  }
}
