/** The C# session's send pump: a queue, a pending list, and a completion that may come at once. */
module SendPump {
  import opened Common

  /** A buffer is known by its contents. */
  type Buffer = seq<int>

  datatype Session = Session(connected: bool, sent: seq<Buffer>, pending: seq<Buffer>, queue: seq<Buffer>)

  const NEW_SESSION := Session(true, [], [], [])

  const BATCH: nat := 10

  /** How many buffers the fill loop moves from a queue of `n`: it compares a growing index with
      the shrinking queue, so it stops half way, and at ten. */
  function Moved(n: nat): nat {
    var half := (n + 1) / 2;
    if half < BATCH then half else BATCH
  }

  /** `DoSend` up to the socket call. */
  function Fill(s: Session): Session {
    if !s.connected || s.pending != [] then s
    else s.(pending := s.queue[..Moved(|s.queue|)], queue := s.queue[Moved(|s.queue|)..])
  }

  /** The part of `OnSendCompleted` that empties the pending list. */
  function Clear(s: Session): Session {
    s.(sent := s.sent + s.pending, pending := [])
  }

  /** `OnSendCompleted` of a send that went well or not, and the `DoSend` it calls. `now` is how the
      further sends fare that complete at once; the one after these is left to complete later. A send
      that fails, or transfers nothing, disconnects and leaves the pending list as it is. */
  function Completed(s: Session, ok: bool, now: seq<bool>): Session
    decreases |now|, 2
  {
    if !ok then s.(connected := false)
    else
      var c := Clear(s);
      if c.queue == [] then c else Pump(c, now)
  }

  /** `DoSend`. */
  function Pump(s: Session, now: seq<bool>): Session
    decreases |now|, 1
  {
    if !s.connected || s.pending != [] then s
    else
      var f := Fill(s);
      if now == [] then f else Completed(f, now[0], now[1..])
  }

  function Send(s: Session, b: Buffer, now: seq<bool>): Session {
    Pump(s.(queue := s.queue + [b]), now)
  }

  // ---------------------------------------------------------------- invariants

  function Order(s: Session): seq<Buffer> { s.sent + (s.pending + s.queue) }

  /** With nothing pending nothing waits. */
  ghost predicate Resting(s: Session) { s.pending == [] ==> s.queue == [] }

  /** Filling moves exactly the smaller of ten and half the queue, rounded up, from its front. */
  lemma FillMoves(s: Session)
    requires s.connected && s.pending == [] && s.queue != []
    ensures var f := Fill(s); var half := (|s.queue| + 1) / 2;
            && |f.pending| == (if half < 10 then half else 10) && f.sent == s.sent && f.connected
            && f.pending + f.queue == s.queue && Order(f) == Order(s) && |f.queue| < |s.queue|
  {
    var k := Moved(|s.queue|);
    assert s.queue[..k] + s.queue[k..] == s.queue;
    assert [] + s.queue == s.queue;
  }

  lemma ClearKeepsOrder(s: Session)
    ensures Order(Clear(s)) == Order(s)
  {
    assert s.sent + (s.pending + s.queue) == (s.sent + s.pending) + ([] + s.queue);
  }

  /** A session's order never changes by sending, and while it is connected nothing waits idly. */
  ghost predicate Keeps(s: Session, r: Session) {
    && Order(r) == Order(s) && s.sent <= r.sent
    && (r.connected ==> s.connected && Resting(r))
  }

  lemma {:induction false} PumpKeeps(s: Session, now: seq<bool>)
    ensures Keeps(s, Pump(s, now))
    ensures s.connected && (forall i :: 0 <= i < |now| ==> now[i]) ==> Pump(s, now).connected
    decreases |now|, 1
  {
    if s.connected && s.pending == [] {
      if s.queue != [] { FillMoves(s); }
      if now != [] {
        CompletedKeeps(Fill(s), now[0], now[1..]);
      }
    }
  }

  lemma {:induction false} CompletedKeeps(s: Session, ok: bool, now: seq<bool>)
    ensures Keeps(s, Completed(s, ok, now))
    ensures s.connected && ok && (forall i :: 0 <= i < |now| ==> now[i]) ==> Completed(s, ok, now).connected
    decreases |now|, 2
  {
    if ok {
      var c := Clear(s);
      ClearKeepsOrder(s);
      if c.queue != [] {
        PumpKeeps(c, now);
      }
    }
  }

  /** A completion that keeps completing at once drains everything, in order: each round moves at least
      one buffer, so as many successes as are queued are enough. */
  lemma {:induction false} CompletedDrains(s: Session, now: seq<bool>)
    requires s.connected && |now| >= |s.queue| && forall i :: 0 <= i < |now| ==> now[i]
    ensures Completed(s, true, now) == s.(sent := Order(s), pending := [], queue := [])
    decreases |now|
  {
    var c := Clear(s);
    ClearKeepsOrder(s);
    if c.queue == [] {
      assert Order(c) == c.sent;
    } else {
      FillMoves(c);
      CompletedDrains(Fill(c), now[1..]);
    }
  }

  // ---------------------------------------------------------------- runs

  datatype Event = SendCall(buffer: Buffer, now: seq<bool>) | Completion(ok: bool, now: seq<bool>)

  /** A completion arrives only for a send that is under way. */
  function Step(s: Session, e: Event): Session {
    match e
    case SendCall(b, now) => Send(s, b, now)
    case Completion(ok, now) => if s.pending == [] || !s.connected then s else Completed(s, ok, now)
  }

  function Run(s: Session, events: seq<Event>): Session
    decreases |events|
  {
    if events == [] then s else Run(Step(s, events[0]), events[1..])
  }

  function Enqueued(events: seq<Event>): seq<Buffer>
    decreases |events|
  {
    if events == [] then []
    else (match events[0] case SendCall(b, _) => [b] case _ => []) + Enqueued(events[1..])
  }

  /** No send of the run fails. */
  predicate AllWell(e: Event) {
    && (forall i :: 0 <= i < |e.now| ==> e.now[i])
    && (e.Completion? ==> e.ok)
  }

  lemma SendKeeps(s: Session, b: Buffer, now: seq<bool>)
    requires s.connected ==> Resting(s)
    ensures var q := s.(queue := s.queue + [b]); Keeps(q, Send(s, b, now)) && Order(q) == Order(s) + [b]
  {
    var q := s.(queue := s.queue + [b]);
    assert Order(q) == Order(s) + [b];
    PumpKeeps(q, now);
  }

  lemma StepKeeps(s: Session, e: Event)
    requires s.connected ==> Resting(s)
    ensures var r := Step(s, e);
            && Order(r) == Order(s) + Enqueued([e]) && s.sent <= r.sent
            && (r.connected ==> Resting(r)) && (s.connected && AllWell(e) ==> r.connected)
  {
    assert [e][1..] == [];
    match e
    case SendCall(b, now) =>
      SendKeeps(s, b, now);
      PumpKeeps(s.(queue := s.queue + [b]), now);
    case Completion(ok, now) =>
      CompletedKeeps(s, ok, now);
      assert Order(s) + [] == Order(s);
  }

  lemma EnqueuedOne(e: Event)
    ensures Enqueued([e]) == match e case SendCall(b, _) => [b] case _ => []
  {
    assert [e][1..] == [];
  }

  lemma {:induction false} RunKeeps(s: Session, events: seq<Event>)
    requires s.connected ==> Resting(s)
    ensures var r := Run(s, events);
            && Order(r) == Order(s) + Enqueued(events) && s.sent <= r.sent
            && (r.connected ==> Resting(r))
            && (s.connected && (forall i :: 0 <= i < |events| ==> AllWell(events[i])) ==> r.connected)
    decreases |events|
  {
    if events == [] {
      assert Order(s) + [] == Order(s);
    } else {
      var e := events[0];
      StepKeeps(s, e);
      RunKeeps(Step(s, e), events[1..]);
      EnqueuedOne(e);
      Assoc(Order(s), Enqueued([e]), Enqueued(events[1..]));
    }
  }

  /** For every run, with sends that fail anywhere in it, buffers sent, pending and queued are the
      buffers enqueued, in order; between steps of a connected session the queue is empty whenever
      nothing is pending; and the session stays connected as long as no send fails. */
  lemma SentInOrder(events: seq<Event>)
    ensures var r := Run(NEW_SESSION, events);
            && r.sent + (r.pending + r.queue) == Enqueued(events)
            && (r.connected && r.pending == [] ==> r.queue == [])
            && ((forall i :: 0 <= i < |events| ==> AllWell(events[i])) ==> r.connected)
  {
    RunKeeps(NEW_SESSION, events);
    assert Order(NEW_SESSION) == [];
  }

  /** A send that fails, or transfers nothing, counts as not sent: its buffers stay pending. */
  lemma FailedSendsNothing(s: Session, now: seq<bool>)
    ensures Completed(s, false, now) == Session(false, s.sent, s.pending, s.queue)
  {
  }

  /** A send that goes well counts everything that was pending as sent, and goes on with the queue. */
  lemma CompletedSends(s: Session, now: seq<bool>)
    requires s.connected
    ensures var r := Completed(s, true, now);
            && s.sent + s.pending <= r.sent
            && (s.queue == [] ==> r == Session(true, s.sent + s.pending, [], []))
            && (s.queue != [] && now == [] ==> r.sent == s.sent + s.pending && r.pending + r.queue == s.queue && r.pending != [])
  {
    var c := Clear(s);
    if c.queue != [] {
      FillMoves(c);
      PumpKeeps(c, now);
    }
  }

  lemma {:induction false} StaysDown(s: Session, events: seq<Event>)
    requires !s.connected
    ensures var r := Run(s, events); !r.connected && r.sent == s.sent && r.pending == s.pending
    decreases |events|
  {
    if events != [] { StaysDown(Step(s, events[0]), events[1..]); }
  }

  // ---------------------------------------------------------------- the session

  class NetSession {
    var connected: bool
    ghost var sent: seq<Buffer>
    var sendPendingList: seq<Buffer>
    var sendQueue: seq<Buffer>

    ghost function State(): Session
      reads this
    {
      Session(connected, sent, sendPendingList, sendQueue)
    }

    constructor ()
      ensures State() == NEW_SESSION
    {
      connected, sent, sendPendingList, sendQueue := true, [], [], [];
    }

    /** The fill loop: the index is compared with a queue that shrinks as it grows. */
    method MoveToPending()
      requires sendPendingList == []
      modifies this`sendPendingList, this`sendQueue
      ensures sendPendingList == old(sendQueue)[..Moved(|old(sendQueue)|)]
      ensures sendQueue == old(sendQueue)[Moved(|old(sendQueue)|)..]
    {
      ghost var all := sendQueue;
      var cnt := 0;
      while cnt < |sendQueue| && cnt < 10
        invariant 0 <= cnt <= Moved(|all|) && cnt <= |all|
        invariant sendPendingList == all[..cnt] && sendQueue == all[cnt..]
      {
        var buffer := sendQueue[0];
        sendQueue := sendQueue[1..];
        sendPendingList := sendPendingList + [buffer];
        cnt := cnt + 1;
      }
      assert cnt == Moved(|all|);
    }

    method Enqueue(b: Buffer, now: seq<bool>)
      modifies this
      ensures State() == Send(old(State()), b, now)
    {
      sendQueue := sendQueue + [b];
      DoSend(now);
    }

    /** `DoSend`; the socket completes this and the following sends of `now` at once. */
    method DoSend(now: seq<bool>)
      modifies this
      ensures State() == Pump(old(State()), now)
      decreases |now|, 1
    {
      if !connected || sendPendingList != [] {
        return;
      }
      MoveToPending();
      if now != [] {
        OnSendCompleted(now[0], now[1..]);
      }
    }

    method OnSendCompleted(ok: bool, now: seq<bool>)
      modifies this
      ensures State() == Completed(old(State()), ok, now)
      decreases |now|, 2
    {
      if ok {
        sent := sent + sendPendingList;
        sendPendingList := [];
        if 0 < |sendQueue| {
          DoSend(now);
        }
      } else {
        connected := false;
      }
    }
  }
}
