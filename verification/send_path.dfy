/** The send path: a queue of buffers and one overlapped request in flight, acknowledged in parts. */
module SendPaths {
  import opened Common
  import opened Bytes

  /** `open` until the socket is closed; `request` is what is left of the buffer being sent, `sendRef`
      the reference count, `onWire` whether an overlapped send has been issued and not completed;
      `written` and `acked` are all bytes accepted from callers and all bytes confirmed by
      completions. */
  datatype Pump = Pump(
    open: bool,
    queue: seq<seq<Byte>>,
    request: Option<seq<Byte>>,
    sendRef: nat,
    onWire: bool,
    written: seq<Byte>,
    acked: seq<Byte>)

  const IDLE := Pump(true, [], None, 0, false, [], [])

  function InFlight(p: Pump): seq<Byte> {
    match p.request case None => [] case Some(rest) => rest
  }

  // ---------------------------------------------------------------- the operations

  /** `SendPrepare`: start on the next buffer, unless there is none or one is being sent. */
  function Prepare(p: Pump): Pump {
    if p.queue == [] || 0 < p.sendRef then p
    else p.(queue := p.queue[1..], request := Some(p.queue[0]), sendRef := p.sendRef + 1)
  }

  /** What `SendPrepare` reports: the size of the buffer it started on, or 0. */
  function PreparedSize(p: Pump): nat {
    if p.queue == [] || 0 < p.sendRef then 0 else |p.queue[0]|
  }

  /** `Network::Write`; `issued` is whether the socket takes the send. A send it refuses is only
      reported to the caller: the buffer keeps the reference. */
  function Write(p: Pump, data: seq<Byte>, issued: bool): Pump {
    if !p.open || MAX_PACKET_BUFFER_SIZE < |data| then p
    else
      var q := p.(queue := p.queue + [data], written := p.written + data);
      if 0 < q.sendRef then q else Prepare(q).(onWire := issued)
  }

  predicate WriteSucceeds(p: Pump, data: seq<Byte>, issued: bool) {
    p.open && |data| <= MAX_PACKET_BUFFER_SIZE && (0 < p.sendRef || issued)
  }

  /** `SendComplete`: how much of the request is left, and the request itself. */
  function Complete(p: Pump, n: nat): (Pump, nat) {
    match p.request
    case None => (p, 0)
    case Some(rest) =>
      if n < |rest| then
        (p.(request := Some(rest[n..]), acked := p.acked + rest[..n]), |rest| - n)
      else
        (p.(request := None, sendRef := if p.sendRef == 0 then 0 else p.sendRef - 1, acked := p.acked + rest), 0)
  }

  /** Sending on: a send the socket refuses here disconnects. */
  function Continue(p: Pump, issued: bool): Pump {
    if issued then p.(onWire := true) else p.(open := false)
  }

  /** `Network::DoSend`, the completion of a send of `n` bytes. */
  function DoSend(p: Pump, n: nat, issued: bool): Pump {
    var (q, remain) := Complete(p.(onWire := false), n);
    if 0 < remain then Continue(q, issued)
    else if 0 < PreparedSize(q) then Continue(Prepare(q), issued)
    else Prepare(q)
  }

  /** The worker thread on a send completion: one of no bytes closes the socket. */
  function Completion(p: Pump, n: nat, issued: bool): Pump {
    if n == 0 then p.(open := false, onWire := false, sendRef := if p.sendRef == 0 then 0 else p.sendRef - 1)
    else DoSend(p, n, issued)
  }

  // ---------------------------------------------------------------- invariants

  /** Nothing lost, repeated or reordered. */
  ghost predicate Conserved(p: Pump) {
    p.written == p.acked + (InFlight(p) + Concat(p.queue))
  }

  /** At most one reference, held exactly while a buffer is being sent; without one nothing waits. */
  ghost predicate Counted(p: Pump) {
    && (p.sendRef == 1 <==> p.request.Some?) && p.sendRef <= 1
    && (p.sendRef == 0 ==> p.queue == [])
  }

  ghost predicate Sound(p: Pump) {
    Conserved(p) && (p.open ==> Counted(p)) && (p.onWire ==> p.open && p.sendRef == 1)
  }

  /** Open, and a send is on the wire whenever a buffer is held: neither closed nor stalled. */
  ghost predicate Running(p: Pump) {
    p.open && (p.onWire <==> p.sendRef == 1)
  }

  /** A write keeps byte order and count; it keeps the pump running if and only if a send it has to
      issue itself is taken by the socket. */
  lemma WriteKeeps(p: Pump, data: seq<Byte>, issued: bool)
    requires Sound(p)
    ensures Sound(Write(p, data, issued))
    ensures Running(p) ==>
              (Running(Write(p, data, issued)) <==> p.sendRef == 1 || MAX_PACKET_BUFFER_SIZE < |data| || issued)
  {
    assert (p.queue + [data])[..|p.queue|] == p.queue;
    if p.open && |data| <= MAX_PACKET_BUFFER_SIZE {
      assert p.written + data == p.acked + (InFlight(p) + (Concat(p.queue) + data));
      if p.sendRef == 0 {
        assert p.queue + [data] == [data];
        assert ([data])[1..] == [];
        assert [data][..0] == [] && Concat([data]) == [] + data;
      }
    }
  }

  lemma Acknowledge(acked: seq<Byte>, front: seq<Byte>, back: seq<Byte>, queued: seq<Byte>)
    ensures acked + ((front + back) + queued) == (acked + front) + (back + queued)
  {
    Assoc(front, back, queued);
    Assoc(acked, front, back + queued);
  }

  lemma CompleteKeeps(p: Pump, n: nat)
    requires Conserved(p) && Counted(p)
    ensures var (q, remain) := Complete(p, n);
            && Conserved(q) && q.sendRef <= 1 && (q.sendRef == 1 <==> q.request.Some?)
            && q.queue == p.queue && (remain > 0 ==> q.sendRef == 1)
            && (remain == 0 ==> q.sendRef == 0)
            && |q.acked| == |p.acked| + (if n < |InFlight(p)| then n else |InFlight(p)|)
  {
    if p.request.Some? {
      var rest := p.request.value;
      if n < |rest| {
        assert rest == rest[..n] + rest[n..];
        Acknowledge(p.acked, rest[..n], rest[n..], Concat(p.queue));
      } else {
        assert rest == rest + [];
        Acknowledge(p.acked, rest, [], Concat(p.queue));
      }
    }
  }

  lemma PrepareKeeps(p: Pump)
    requires Conserved(p) && p.sendRef == 0 && p.request.None?
    ensures Conserved(Prepare(p)) && Counted(Prepare(p))
  {
    if p.queue != [] {
      ConcatCons(p.queue);
      assert InFlight(p) + Concat(p.queue) == InFlight(Prepare(p)) + Concat(Prepare(p).queue);
    }
  }

  /** A completion keeps byte order and count. It keeps the pump running if and only if it is not one of
      no bytes, does not run into an empty buffer, and the socket takes the send it leads to. */
  lemma CompletionKeeps(p: Pump, n: nat, issued: bool)
    requires Sound(p) && p.onWire
    ensures Sound(Completion(p, n, issued))
    ensures Running(Completion(p, n, issued)) <==>
              && 0 < n
              && (n < |InFlight(p)| ==> issued)
              && (n >= |InFlight(p)| && p.queue != [] ==> p.queue[0] != [] && issued)
  {
    if 0 < n {
      var idle := p.(onWire := false);
      CompleteKeeps(idle, n);
      var (q, remain) := Complete(idle, n);
      if remain == 0 { PrepareKeeps(q); }
    }
  }

  // ---------------------------------------------------------------- runs

  /** `Dropped` stands for everything else that closes the socket: a failed completion, the receive
      side, the session. */
  datatype Event = Written(data: seq<Byte>, issued: bool) | Completed(n: nat, issued: bool) | Dropped

  /** A completion only happens while a send is on the wire. */
  function Step(p: Pump, e: Event): Pump {
    match e
    case Written(data, issued) => Write(p, data, issued)
    case Completed(n, issued) => if p.onWire then Completion(p, n, issued) else p
    case Dropped => p.(open := false, onWire := false)
  }

  function Run(p: Pump, events: seq<Event>): Pump
    decreases |events|
  {
    if events == [] then p else Step(Run(p, events[..|events| - 1]), events[|events| - 1])
  }

  // ---------------------------------------------------------------- when it keeps running

  function Lengths(buffers: seq<seq<Byte>>): (r: seq<nat>)
    ensures |r| == |buffers| && forall i :: 0 <= i < |r| ==> r[i] == |buffers[i]|
  {
    seq(|buffers|, i requires 0 <= i < |buffers| => |buffers[i]|)
  }

  /** The lengths of the buffers not yet acknowledged, what is left of the one being sent first. */
  function Owing(p: Pump): seq<nat> {
    match p.request case None => [] case Some(rest) => [|rest|] + Lengths(p.queue)
  }

  /** The same from the sizes alone. */
  function OwedStep(owed: seq<nat>, e: Event): seq<nat> {
    match e
    case Written(data, _) => if |data| <= MAX_PACKET_BUFFER_SIZE then owed + [|data|] else owed
    case Completed(n, _) =>
      if owed == [] then owed else if n < owed[0] then [owed[0] - n] + owed[1..] else owed[1..]
    case Dropped => owed
  }

  function Owed(events: seq<Event>): seq<nat>
    decreases |events|
  {
    if events == [] then [] else OwedStep(Owed(events[..|events| - 1]), events[|events| - 1])
  }

  /** With `owed` outstanding the event does no harm: a send that has to be issued is taken, a
      completion reports some bytes, and the buffer it moves on to is not empty. */
  predicate Harmless(owed: seq<nat>, e: Event) {
    match e
    case Written(data, issued) => owed != [] || MAX_PACKET_BUFFER_SIZE < |data| || issued
    case Completed(n, issued) =>
      owed == [] || (0 < n && if n < owed[0] then issued else |owed| == 1 || (0 < owed[1] && issued))
    case Dropped => false
  }

  predicate AllHarmless(events: seq<Event>)
    decreases |events|
  {
    events == [] ||
    (AllHarmless(events[..|events| - 1]) && Harmless(Owed(events[..|events| - 1]), events[|events| - 1]))
  }

  lemma LengthsSnoc(buffers: seq<seq<Byte>>, b: seq<Byte>)
    ensures Lengths(buffers + [b]) == Lengths(buffers) + [|b|]
  {
  }

  lemma LengthsCons(buffers: seq<seq<Byte>>)
    requires buffers != []
    ensures Lengths(buffers) == [|buffers[0]|] + Lengths(buffers[1..])
  {
  }

  lemma WriteOwes(p: Pump, data: seq<Byte>, issued: bool)
    requires Sound(p) && Running(p)
    ensures Owing(Write(p, data, issued)) == OwedStep(Owing(p), Written(data, issued))
  {
    if |data| <= MAX_PACKET_BUFFER_SIZE {
      LengthsSnoc(p.queue, data);
      if p.sendRef == 0 {
        assert p.queue + [data] == [data] && [data][1..] == [];
      } else {
        assert ([|p.request.value|] + Lengths(p.queue)) + [|data|] == [|p.request.value|] + Lengths(p.queue + [data]);
      }
    }
  }

  /** What a completion does to the buffers. */
  predicate Moves(p: Pump, q: Pump, n: nat) {
    if n < |InFlight(p)| then q.queue == p.queue && q.request == Some(InFlight(p)[n..])
    else if p.queue == [] then q.request == None
    else q.queue == p.queue[1..] && q.request == Some(p.queue[0])
  }

  lemma CompletionMoves(p: Pump, n: nat, issued: bool)
    requires Sound(p) && p.onWire && 0 < n
    ensures Moves(p, Completion(p, n, issued), n)
  {
  }

  lemma MovesOwe(p: Pump, q: Pump, n: nat, issued: bool)
    requires p.request.Some? && Moves(p, q, n)
    ensures Owing(q) == OwedStep(Owing(p), Completed(n, issued))
  {
    assert Owing(p)[1..] == Lengths(p.queue);
    if p.queue != [] { LengthsCons(p.queue); }
  }

  lemma CompletionOwes(p: Pump, n: nat, issued: bool)
    requires Sound(p) && Running(p) && p.onWire && 0 < n
    ensures Owing(Completion(p, n, issued)) == OwedStep(Owing(p), Completed(n, issued))
  {
    CompletionMoves(p, n, issued);
    MovesOwe(p, Completion(p, n, issued), n, issued);
  }

  /** One event on a running pump. */
  lemma StepRuns(p: Pump, e: Event)
    requires Sound(p) && Running(p)
    ensures Running(Step(p, e)) <==> Harmless(Owing(p), e)
    ensures Running(Step(p, e)) ==> Owing(Step(p, e)) == OwedStep(Owing(p), e)
  {
    match e
    case Written(data, issued) =>
      WriteKeeps(p, data, issued);
      WriteOwes(p, data, issued);
    case Completed(n, issued) =>
      if p.onWire {
        CompletionRuns(p, n, issued);
        if 0 < n { CompletionOwes(p, n, issued); }
      }
    case Dropped =>
  }

  lemma CompletionRuns(p: Pump, n: nat, issued: bool)
    requires Sound(p) && p.onWire
    ensures Running(Completion(p, n, issued)) <==> Harmless(Owing(p), Completed(n, issued))
  {
    CompletionKeeps(p, n, issued);
    assert p.queue != [] ==> Owing(p)[1] == |p.queue[0]|;
  }

  /** Once closed or stalled, always so; and every event keeps the byte order. */
  lemma StepKeeps(p: Pump, e: Event)
    requires Sound(p)
    ensures Sound(Step(p, e)) && (Running(Step(p, e)) ==> Running(p))
  {
    match e
    case Written(data, issued) => WriteKeeps(p, data, issued);
    case Completed(n, issued) => if p.onWire { CompletionKeeps(p, n, issued); }
    case Dropped =>
  }

  /** For every run whatever: the bytes written are those acknowledged, then the rest of the request,
      then the queue; while the socket is open the reference count is 0 or 1, and 0 means nothing is
      queued. The pump is open and not stalled if and only if every event was harmless, which can be
      told from the sizes alone; a send is then on the wire exactly while something is unacknowledged. */
  lemma {:induction false} SendPathExact(events: seq<Event>)
    ensures var p := Run(IDLE, events);
            && Sound(p)
            && (Running(p) <==> AllHarmless(events))
            && (Running(p) ==> Owing(p) == Owed(events) && (p.onWire <==> Owed(events) != []))
    decreases |events|
  {
    if events != [] {
      var front, e := events[..|events| - 1], events[|events| - 1];
      SendPathExact(front);
      var p := Run(IDLE, front);
      StepKeeps(p, e);
      if Running(p) { StepRuns(p, e); }
    }
  }

  // ---------------------------------------------------------------- which bytes those are

  /** Everything the callers wrote, but for what is too long for a buffer. */
  function WrittenBytes(events: seq<Event>): seq<Byte>
    decreases |events|
  {
    if events == [] then []
    else
      var e := events[|events| - 1];
      WrittenBytes(events[..|events| - 1]) + if e.Written? && |e.data| <= 10240 then e.data else []
  }

  /** How many bytes the completions reported. */
  function ReportedBytes(events: seq<Event>): nat
    decreases |events|
  {
    if events == [] then 0
    else
      var e := events[|events| - 1];
      ReportedBytes(events[..|events| - 1]) + if e.Completed? then e.n else 0
  }

  /** Completions come for sends under way and report no more than was to be sent. */
  predicate Plausible(events: seq<Event>)
    decreases |events|
  {
    events == [] ||
    (var front, e := events[..|events| - 1], events[|events| - 1];
     Plausible(front) && (e.Completed? ==> Owed(front) != [] && e.n <= Owed(front)[0]))
  }

  lemma CompletionAcks(p: Pump, n: nat, issued: bool)
    requires Sound(p) && p.onWire && 0 < n <= |InFlight(p)|
    ensures var q := Completion(p, n, issued); q.written == p.written && |q.acked| == |p.acked| + n
  {
    CompleteKeeps(p.(onWire := false), n);
  }

  /** On a run that keeps running, what is acknowledged is exactly as many bytes as the completions
      reported, from the front of everything that was written. */
  lemma {:induction false} AcknowledgedBytes(events: seq<Event>)
    requires AllHarmless(events) && Plausible(events)
    ensures var p := Run(IDLE, events);
            && p.written == WrittenBytes(events)
            && ReportedBytes(events) <= |WrittenBytes(events)|
            && p.acked == WrittenBytes(events)[..ReportedBytes(events)]
    decreases |events|
  {
    SendPathExact(events);
    if events != [] {
      var front, e := events[..|events| - 1], events[|events| - 1];
      AcknowledgedBytes(front);
      SendPathExact(front);
      StepAccounts(Run(IDLE, front), e);
    }
    var p := Run(IDLE, events);
    assert p.acked == p.written[..|p.acked|];
  }

  lemma StepAccounts(p: Pump, e: Event)
    requires Sound(p) && Running(p) && Running(Step(p, e))
    requires e.Completed? ==> Owing(p) != [] && e.n <= Owing(p)[0]
    ensures var q := Step(p, e);
            && q.written == p.written + (if e.Written? && |e.data| <= 10240 then e.data else [])
            && |q.acked| == |p.acked| + (if e.Completed? then e.n else 0)
  {
    assert p.written + [] == p.written;
    match e
    case Written(_, _) =>
    case Completed(n, issued) =>
      CompletionKeeps(p, n, issued);
      CompletionAcks(p, n, issued);
    case Dropped =>
  }

  /** What a write reports: success means that the bytes are accepted and, on a running path, will be sent
      in their turn; failure on an open socket means that they were too long and nothing changed, or
      that the socket refused the send, and then the path holds them and stalls. */
  lemma WriteReports(p: Pump, data: seq<Byte>, issued: bool)
    requires Sound(p) && p.open
    ensures var q := Write(p, data, issued);
            if WriteSucceeds(p, data, issued) then
              q.open && q.written == p.written + data && (Running(p) ==> Running(q))
            else if 10240 < |data| then q == p
            else q.open && q.written == p.written + data && !Running(q) && q.request == Some(data)
  {
    WriteKeeps(p, data, issued);
    if p.sendRef == 0 { assert p.queue + [data] == [data]; }
  }

  /** A completion of no bytes closes the socket, gives the reference back, and leaves every byte where it
      was, unacknowledged. */
  lemma ZeroBytesClose(p: Pump, issued: bool)
    requires Sound(p) && p.onWire
    ensures var q := Completion(p, 0, issued);
            && !q.open && !q.onWire && q.sendRef == 0
            && q.queue == p.queue && q.request == p.request && q.written == p.written && q.acked == p.acked
  {
  }

  /** A completion leaves the socket open if and only if it reports some bytes and the socket takes the
      send it leads to, if it leads to one: a refused send closes here, where in a write it stalls. */
  lemma CompletionLeavesOpen(p: Pump, n: nat, issued: bool)
    requires Sound(p) && p.onWire
    ensures Completion(p, n, issued).open <==>
              && 0 < n
              && (n < |InFlight(p)| || (p.queue != [] && p.queue[0] != []) ==> issued)
  {
    if 0 < n { CompletionMoves(p, n, issued); }
  }

  lemma DropCloses(p: Pump)
    ensures var q := Step(p, Dropped); !q.open && !q.onWire && q.queue == p.queue && q.request == p.request
  {
  }

  lemma WriteWhenClosed(p: Pump, data: seq<Byte>, issued: bool)
    requires !p.open
    ensures Write(p, data, issued) == p && !WriteSucceeds(p, data, issued)
  {
  }

  predicate Ordinary(e: Event) {
    match e
    case Written(data, issued) => data != [] && issued
    case Completed(n, issued) => 0 < n && issued
    case Dropped => false
  }

  lemma {:induction false} OrdinaryIsHarmless(events: seq<Event>)
    requires forall i :: 0 <= i < |events| ==> Ordinary(events[i])
    ensures AllHarmless(events) && forall i :: 0 <= i < |Owed(events)| ==> 0 < Owed(events)[i]
    decreases |events|
  {
    if events != [] {
      OrdinaryIsHarmless(events[..|events| - 1]);
    }
  }

  /** For every run of non-empty writes and completions of any positive size on a working socket, the
      bytes written are those acknowledged, then the rest of the request, then the queue; the
      reference count is 0 or 1; with 0 everything is acknowledged, and with 1 a send is on the
      wire, so the pump never stalls. */
  lemma SendsInOrderWithoutStall(events: seq<Event>)
    requires forall i :: 0 <= i < |events| ==> Ordinary(events[i])
    ensures var p := Run(IDLE, events);
            && p.written == p.acked + (InFlight(p) + Concat(p.queue))
            && p.sendRef <= 1 && (p.sendRef == 0 ==> p.queue == [] && p.acked == p.written)
            && (p.sendRef == 1 <==> p.onWire)
  {
    OrdinaryIsHarmless(events);
    SendPathExact(events);
    var p := Run(IDLE, events);
    if p.sendRef == 0 {
      assert p.acked + ([] + []) == p.acked;
    }
  }

  // ---------------------------------------------------------------- the two empty writes

  /** A stall is for good: nothing is on the wire, so nothing completes, and writes only queue up. */
  lemma {:induction false} StallIsForGood(p: Pump, events: seq<Event>)
    requires !p.onWire && p.sendRef == 1
    ensures var q := Run(p, events);
            !q.onWire && q.sendRef == 1 && q.acked == p.acked && p.written <= q.written
    decreases |events|
  {
    if events != [] {
      StallIsForGood(p, events[..|events| - 1]);
    }
  }

  lemma {:induction false} RunConcat(p: Pump, x: seq<Event>, y: seq<Event>)
    ensures Run(p, x + y) == Run(Run(p, x), y)
    decreases |y|
  {
    if y == [] {
      assert x + y == x;
    } else {
      assert (x + y)[..|x + y| - 1] == x + y[..|y| - 1];
      RunConcat(p, x, y[..|y| - 1]);
    }
  }

  /** An empty write behind another buffer stalls the pump: whatever ran before, it is started on without
      a send being issued, and nothing written after it is ever sent. */
  lemma EmptyWriteStalls(before: seq<Event>, n: nat, taken: bool, later: seq<Event>)
    requires AllHarmless(before) && Owed(before) == [n] && 0 < n
    ensures var p := Run(IDLE, before + [Written([], true), Completed(n, taken)] + later);
            !p.onWire && p.sendRef == 1 && p.acked == Run(IDLE, before).written
  {
    var p := Run(IDLE, before);
    SendPathExact(before);
    assert p.queue == [] && |p.request.value| == n by { assert |Owing(p)| == 1 && Owing(p)[0] == n; }
    var two := [Written([], true), Completed(n, taken)];
    assert two[..1] == [two[0]] && two[..1][..0] == [];
    var p1 := Write(p, [], true);
    assert Run(p, two[..1]) == Step(Run(p, two[..1][..0]), two[0]);
    assert p1.queue == [[]] && p1.request == p.request && p1.sendRef == 1 && p1.onWire;
    var p2 := Run(p, two);
    assert p2 == Step(p1, two[1]) == DoSend(p1, n, taken);
    assert !p2.onWire && p2.sendRef == 1 && p2.acked == p.acked + p.request.value;
    assert p.acked + (p.request.value + []) == p.acked + p.request.value;
    RunConcat(IDLE, before, two);
    RunConcat(IDLE, before + two, later);
    StallIsForGood(p2, later);
  }

  /** An empty write on an idle pump closes the connection: the send of no bytes it issues completes with
      no bytes, which the worker thread takes for a disconnect. */
  lemma IdleEmptyWriteCloses(before: seq<Event>, taken: bool)
    requires AllHarmless(before) && Owed(before) == []
    ensures var e := [Written([], true), Completed(0, taken)];
            !AllHarmless(before + e) && !Run(IDLE, before + e).open
  {
    var e := [Written([], true), Completed(0, taken)];
    SendPathExact(before);
    SendPathExact(before + e);
    RunConcat(IDLE, before, e);
    var p := Run(IDLE, before);
    assert e[..1] == [e[0]] && e[..1][..0] == [];
    assert Run(p, e[..1]) == Step(Run(p, e[..1][..0]), e[0]);
    assert Run(p, e) == Step(Run(p, e[..1]), e[1]);
    assert Write(p, [], true).onWire;
  }

  /** A send the socket refuses in a write stalls the pump instead of closing it. */
  lemma RefusedWriteStalls(before: seq<Event>, data: seq<Byte>, later: seq<Event>)
    requires AllHarmless(before) && Owed(before) == [] && |data| <= MAX_PACKET_BUFFER_SIZE
    ensures var p := Run(IDLE, before + [Written(data, false)] + later);
            !p.onWire && p.sendRef == 1 && p.acked == Run(IDLE, before).acked
  {
    SendPathExact(before);
    var p, e := Run(IDLE, before), [Written(data, false)];
    assert e[..0] == [];
    assert Run(p, e) == Step(Run(p, e[..0]), e[0]);
    RunConcat(IDLE, before, e);
    RunConcat(IDLE, before + e, later);
    StallIsForGood(Run(p, e), later);
  }

  // ---------------------------------------------------------------- the connector

  class Connector {
    var open: bool
    var queue: seq<seq<Byte>>
    var request: Option<seq<Byte>>
    var sendRef: nat
    var onWire: bool
    ghost var written: seq<Byte>
    ghost var acked: seq<Byte>

    ghost function State(): Pump
      reads this
    {
      Pump(open, queue, request, sendRef, onWire, written, acked)
    }

    constructor ()
      ensures State() == IDLE
    {
      open, queue, request, sendRef, onWire := true, [], None, 0, false;
      written, acked := [], [];
    }

    method AddSendQueue(data: seq<Byte>) returns (r: int)
      modifies this`queue, this`written
      ensures if |data| <= MAX_PACKET_BUFFER_SIZE
              then queue == old(queue) + [data] && written == old(written) + data && r == |queue|
              else queue == old(queue) && written == old(written) && r == -1
    {
      if MAX_PACKET_BUFFER_SIZE < |data| {
        return -1;
      }
      queue := queue + [data];
      written := written + data;
      return |queue|;
    }

    method SendPrepare() returns (size: nat)
      modifies this`queue, this`request, this`sendRef
      ensures State() == Prepare(old(State())) && size == PreparedSize(old(State()))
    {
      if queue == [] || 0 < sendRef {
        return 0;
      }
      var next := queue[0];
      queue := queue[1..];
      request := Some(next);
      sendRef := sendRef + 1;
      return |next|;
    }

    method SendComplete(n: nat) returns (remain: nat)
      modifies this`request, this`sendRef, this`acked
      ensures (State(), remain) == Complete(old(State()), n)
    {
      match request
      case None => remain := 0;
      case Some(rest) =>
        if n < |rest| {
          request := Some(rest[n..]);
          acked := acked + rest[..n];
          remain := |rest| - n;
        } else {
          sendRef := if sendRef == 0 then 0 else sendRef - 1;
          acked := acked + rest;
          request := None;
          remain := 0;
        }
    }

    method NetworkWrite(data: seq<Byte>, issued: bool) returns (ok: bool)
      modifies this
      ensures State() == Write(old(State()), data, issued) && (ok <==> WriteSucceeds(old(State()), data, issued))
    {
      if !open {
        return false;
      }
      var r := AddSendQueue(data);
      if 0 > r {
        return false;
      }
      if sendRef == 0 {
        var _ := SendPrepare();
        onWire := issued;
        return issued;
      }
      return true;
    }

    method NetworkDoSend(n: nat, issued: bool)
      modifies this
      ensures State() == DoSend(old(State()), n, issued)
    {
      onWire := false;
      var remain := SendComplete(n);
      var size := 0;
      if 0 == remain {
        size := SendPrepare();
      }
      if 0 < remain || 0 < size {
        if issued {
          onWire := true;
        } else {
          open := false;
        }
      }
    }

    /** The worker thread's handling of a send completion. */
    method OnSendCompletion(n: nat, issued: bool)
      modifies this
      ensures State() == Completion(old(State()), n, issued)
    {
      if n == 0 {
        open, onWire := false, false;
        sendRef := if sendRef == 0 then 0 else sendRef - 1;
      } else {
        NetworkDoSend(n, issued);
      }
    }
  }
}
