/** The server's operations on its own state, and the client's handlers, proved to be the steps of
    the protocol model. */
module ZoneServer {
  import opened ZoneModel

  /** Fires the next `n` commands of the batch. */
  ghost function FireMany(s: Server, n: nat): Server
    decreases n
  {
    if n == 0 then s else FireMany(FireNext(s), n - 1)
  }

  lemma {:induction false} FireOneMore(s: Server, n: nat)
    ensures FireMany(s, n + 1) == FireNext(FireMany(s, n))
    decreases n
  {
    if n > 0 {
      FireOneMore(FireNext(s), n - 1);
    }
  }

  /** The packet being filled: how many entries it holds, and which. */
  datatype ListPacket = ListPacket(count: nat, data: seq<Token>)

  const MAX_SEND_COUNT_CHARACTER_DB_DATA: nat := 20
  const EMPTY_LIST := ListPacket(0, [])

  /** Stores one entry and reports whether the packet should go out. */
  function SetData(p: ListPacket, token: Token): (ListPacket, bool) {
    var p' := ListPacket(p.count + 1, p.data + [token]);
    (p', MAX_SEND_COUNT_CHARACTER_DB_DATA >= p'.count)
  }

  class GameServer {
    var sessions: map<Token, ZoneId>
    var zones: map<ZoneId, set<Token>>
    var cmds: seq<Command>
    var sent: map<Token, seq<Message>>

    constructor ()
      ensures State([]) == EMPTY_WORLD.server
    {
      sessions, zones, cmds, sent := map[], map[], [], map[];
    }

    /** The protocol state, with `firing` the rest of the batch the current tick holds. */
    ghost function State(firing: seq<Command>): Server
      reads this
    {
      Server(sessions, zones, firing, cmds, sent)
    }

    method Add(c: Command)
      modifies this`cmds
      ensures cmds == old(cmds) + [c]
    {
      cmds := cmds + [c];
    }

    /** One send for each character of the zone, in the order of the zone's map. */
    method PacketBroadcast(zone: ZoneId, msg: Message)
      requires zone in zones
      modifies this`cmds
      ensures cmds == old(cmds) + FanOut(Ascending(zones[zone]), msg)
    {
      var rest := zones[zone];
      assert cmds + FanOut(Ascending(rest), msg) == old(cmds) + FanOut(Ascending(zones[zone]), msg);
      while rest != {}
        invariant cmds + FanOut(Ascending(rest), msg) == old(cmds) + FanOut(Ascending(zones[zone]), msg)
        decreases |rest|
      {
        LeastExists(rest);
        var token :| token in rest && IsLeast(token, rest);
        ghost var tail := Ascending(rest - {token});
        assert Ascending(rest) == [token] + tail;
        assert ([token] + tail)[1..] == tail;
        ghost var before := cmds;
        Add(SendPacket(token, msg));
        assert cmds + FanOut(tail, msg) == before + ([SendPacket(token, msg)] + FanOut(tail, msg));
        rest := rest - {token};
      }
      assert cmds + FanOut(Ascending(rest), msg) == cmds;
    }

    /** Everyone in the zone but one, in the order of the zone's map. */
    method GetCharacterDbList(zone: ZoneId, except: Token) returns (list: seq<Token>)
      requires zone in zones
      ensures list == Ascending(zones[zone] - {except})
    {
      var rest := zones[zone];
      list := [];
      assert [] + Ascending(rest - {except}) == Ascending(zones[zone] - {except});
      while rest != {}
        invariant list + Ascending(rest - {except}) == Ascending(zones[zone] - {except})
        decreases |rest|
      {
        LeastExists(rest);
        var token :| token in rest && IsLeast(token, rest);
        if token != except {
          LeastWithout(token, rest, except);
          list := list + [token];
        } else {
          assert rest - {except} == (rest - {token}) - {except};
        }
        rest := rest - {token};
      }
      assert rest - {except} == {};
    }

    /** The list command's packet loop: whatever the constant suggests, every entry leaves in a packet
        of its own and nothing is left over for the final send. */
    method SendList(to: Token, list: seq<Token>)
      modifies this`cmds
      ensures cmds == old(cmds) + SendAll(to, ListPackets(list))
    {
      var packet := EMPTY_LIST;
      var i := 0;
      assert list[0..] == list;
      while i < |list|
        invariant 0 <= i <= |list| && packet == EMPTY_LIST
        invariant cmds + SendAll(to, ListPackets(list[i..])) == old(cmds) + SendAll(to, ListPackets(list))
      {
        var (filled, ready) := SetData(packet, list[i]);
        packet := filled;
        if ready {
          ghost var tail := ListPackets(list[i + 1..]);
          assert list[i..][0] == list[i] && list[i..][1..] == list[i + 1..];
          assert ListPackets(list[i..]) == [CharacterList([list[i]])] + tail;
          assert ([CharacterList([list[i]])] + tail)[1..] == tail;
          ghost var before := cmds;
          Add(SendPacket(to, CharacterList(packet.data)));
          assert packet.data == [list[i]];
          assert cmds + SendAll(to, tail)
              == before + ([SendPacket(to, CharacterList([list[i]]))] + SendAll(to, tail));
          packet := EMPTY_LIST;
        }
        i := i + 1;
      }
      assert list[i..] == [];
      if 0 < packet.count {
        // the send for a partly filled last packet, which never happens
        assert false;
      }
    }

    method OnEnterCharacter(token: Token, zone: ZoneId, ghost firing: seq<Command>)
      modifies this
      ensures State(firing) == Execute(old(State(firing)), EnterCharacter(token, zone))
    {
      if token !in sessions {
        return;
      }
      if zone in zones {
        zones := zones[zone := zones[zone] + {token}];
      } else {
        zones := zones[zone := {}];
        zones := zones[zone := zones[zone] + {token}];
      }
      Add(SendBroadcast(zone, Enter(token)));
      Add(SendCharacterList(token, zone));
      assert cmds == old(cmds) + [SendBroadcast(zone, Enter(token)), SendCharacterList(token, zone)];
    }

    method OnLeaveCharacter(token: Token, zone: ZoneId, ghost firing: seq<Command>)
      modifies this
      ensures State(firing) == Execute(old(State(firing)), LeaveCharacter(token, zone))
    {
      if token in sessions {
        sessions := sessions[token := NO_ZONE];
      }
      if zone in zones {
        zones := zones[zone := zones[zone] - {token}];
      }
      Add(SendBroadcast(zone, Leave(token)));
    }

    /** A command's operator does what the model says, and touches nothing of the running batch. */
    method Operator(c: Command, ghost firing: seq<Command>)
      modifies this
      ensures State(firing) == Execute(old(State(firing)), c)
    {
      match c
      case SendBroadcast(zone, msg) =>
        if zone in zones {
          PacketBroadcast(zone, msg);
        }
      case SendPacket(token, msg) =>
        if token in sessions {
          sent := sent[token := (if token in sent then sent[token] else []) + [msg]];
        }
      case EnterCharacter(token, zone) => OnEnterCharacter(token, zone, firing);
      case LeaveCharacter(token, zone) => OnLeaveCharacter(token, zone, firing);
      case SendCharacterList(token, zone) =>
        if token in sessions && zone in zones {
          var list := GetCharacterDbList(zone, token);
          SendList(token, list);
        }
    }

    /** One tick: swap the pending commands out, run each of them in order, and leave pending
        exactly what they queued. */
    method FireOps()
      modifies this
      ensures State([]) == FireMany(SwapIn(old(State([]))), old(|cmds|))
    {
      var firing := cmds;
      cmds := [];
      ghost var start := State(firing);
      var i := 0;
      assert firing[0..] == firing;
      while i < |firing|
        invariant 0 <= i <= |firing|
        invariant State(firing[i..]) == FireMany(start, i)
      {
        ghost var rest := firing[i + 1..];
        assert firing[i..][0] == firing[i] && firing[i..][1..] == rest;
        ghost var before := State(firing[i..]);
        assert before.(firing := rest) == State(rest);
        Operator(firing[i], rest);
        assert State(rest) == FireNext(before);
        FireOneMore(start, i);
        i := i + 1;
      }
      assert firing[i..] == [];
    }

    /** The handlers of an authenticated session, and its release. */
    method HandleEnter(token: Token, ghost firing: seq<Command>)
      requires token in sessions
      modifies this
      ensures State(firing) == NextServer(old(State(firing)), CsEnter(token))
    {
      sessions := sessions[token := ENTRY_ZONE];
      Add(EnterCharacter(token, ENTRY_ZONE));
    }

    method HandleLeave(token: Token, ghost firing: seq<Command>)
      requires token in sessions
      modifies this
      ensures State(firing) == NextServer(old(State(firing)), CsLeave(token))
    {
      Add(LeaveCharacter(token, sessions[token]));
    }

    method ReleaseSession(token: Token, ghost firing: seq<Command>)
      requires token in sessions
      modifies this
      ensures State(firing) == NextServer(old(State(firing)), Release(token))
    {
      if sessions[token] != NO_ZONE {
        Add(LeaveCharacter(token, sessions[token]));
      }
      sessions := sessions - {token};
    }
  }

  /** The smallest element stays so when another is taken away. */
  lemma LeastWithout(m: Token, s: set<Token>, except: Token)
    requires IsLeast(m, s) && m != except
    ensures Ascending(s - {except}) == [m] + Ascending((s - {m}) - {except})
  {
    var t := s - {except};
    assert IsLeast(m, t);
    assert t - {m} == (s - {m}) - {except};
  }

  /** The client's character map. */
  class CharacterMgr {
    var player: Token
    var characterMap: set<Token>

    constructor ()
      ensures Snapshot(0) == NEW_CLIENT
    {
      player, characterMap := NO_TOKEN, {};
    }

    ghost function Snapshot(read: nat): Client
      reads this
    {
      Client(player, characterMap, read)
    }

    predicate GetCharacter(token: Token)
      reads this
    {
      player == token || token in characterMap
    }

    method EnterCharacter(token: Token)
      modifies this`characterMap
      ensures characterMap == if token == player then old(characterMap) else old(characterMap) + {token}
    {
      if GetCharacter(token) {
        return;
      }
      characterMap := characterMap + {token};
    }

    method OnEnter(token: Token)
      modifies this`characterMap
      ensures characterMap == if token == player then old(characterMap) else old(characterMap) + {token}
    {
      if token != player {
        EnterCharacter(token);
      }
    }

    method OnCharacterList(tokens: seq<Token>)
      modifies this`characterMap
      ensures characterMap == old(characterMap) + set t | t in tokens && t != player
    {
      var i := 0;
      while i < |tokens|
        invariant 0 <= i <= |tokens|
        invariant characterMap == old(characterMap) + set t | t in tokens[..i] && t != player
      {
        EnterCharacter(tokens[i]);
        assert tokens[..i + 1] == tokens[..i] + [tokens[i]];
        i := i + 1;
      }
      assert tokens[..i] == tokens;
    }

    method OnLeave(token: Token)
      modifies this`characterMap
      ensures characterMap == if token == player then old(characterMap) else old(characterMap) - {token}
    {
      if !GetCharacter(token) || token == player {
        return;
      }
      characterMap := characterMap - {token};
    }

    /** Handling a packet is the client's step of the model. */
    method HandlePacket(m: Message, ghost read: nat)
      modifies this
      ensures Snapshot(read + 1) == Handle(old(Snapshot(read)), m)
    {
      match m
      case AuthResult(token) => player := token;
      case Enter(token) => OnEnter(token);
      case CharacterList(tokens) => OnCharacterList(tokens);
      case Leave(token) => OnLeave(token);
      case Relay(_) =>
      case Heartbeat =>
    }
  }
}
