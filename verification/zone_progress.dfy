/** Convergence as a promise about what happens, not only about drained states: left to its ticks and
    deliveries, the system brings every member's view to the zone map. */
module ZoneProgress {
  import opened ZoneModel
  import opened ZoneStreams
  import opened ZoneSteps
  import opened ZoneInvariant
  import opened ZoneConvergence
  import opened ZoneDelivery
  import opened ZoneLimits

  /** Running commands queues no leave command; only a client's request or a release does. */
  lemma TickQueuesNoLeave(w: World, step: Step, a: Token)
    requires Inv(w) && !LeavePending(w.server, a)
    requires step.Fire? || step.Swap? || step.Deliver?
    ensures !LeavePending(Next(w, step).server, a)
  {
    var s, s' := w.server, Next(w, step).server;
    var c := LeaveCharacter(a, ENTRY_ZONE);
    QueueAppends(w, step);
    assert c !in Appended(s, step) by {
      if step.Fire? && s.firing != [] { EmittedNoLeave(s, a); }
    }
    assert c in s'.Queue() ==> c in Taken(s, step) + s'.Queue();
  }

  /** Without a leave command of its own a member stays in the zone through ticks and deliveries. */
  lemma TickKeepsMember(w: World, step: Step, a: Token)
    requires Inv(w) && !LeavePending(w.server, a)
    requires step.Fire? || step.Swap? || step.Deliver?
    ensures Stays(w, [step], a)
  {
    var s, s' := w.server, Next(w, step).server;
    assert [step][1..] == [];
    if a in s.Members(ENTRY_ZONE) {
      if a in Touched(s, step) {
        PoppedSane(w);
        assert s.firing[0] in s.Queue();
      } else {
        UntouchedStay(w, step, a);
      }
    }
  }

  lemma {:induction false} TicksKeepMember(w: World, steps: seq<Step>, a: Token)
    requires Inv(w) && !LeavePending(w.server, a)
    requires OnlyTicksAndDeliveries(steps, a)
    ensures Stays(w, steps, a) && !LeavePending(Run(w, steps).server, a)
    decreases |steps|
  {
    if steps != [] {
      TickKeepsMember(w, steps[0], a);
      TickQueuesNoLeave(w, steps[0], a);
      InvStep(w, steps[0]);
      TicksKeepMember(Next(w, steps[0]), steps[1..], a);
    }
  }

  lemma {:induction false} StaysConcat(w: World, x: seq<Step>, y: seq<Step>, a: Token)
    requires Stays(w, x, a) && Stays(Run(w, x), y, a)
    ensures Stays(w, x + y, a)
    decreases |x|
  {
    if x == [] {
      assert x + y == y;
    } else {
      assert (x + y)[0] == x[0] && (x + y)[1..] == x[1..] + y;
      StaysConcat(Next(w, x[0]), x[1..], y, a);
    }
  }

  lemma {:induction false} StayingMember(w: World, steps: seq<Step>, a: Token)
    requires Stays(w, steps, a) && a in w.server.Members(ENTRY_ZONE) && a in w.server.sessions
    ensures a in Run(w, steps).server.Members(ENTRY_ZONE) && a in Run(w, steps).server.sessions
    decreases |steps|
  {
    if steps != [] { StayingMember(Next(w, steps[0]), steps[1..], a); }
  }

  /** Whatever happened before, a member that has not left and has no leave queued can be settled by
      ticks and deliveries alone; and however these are interleaved, whenever they settle the client
      it is still a member and shows exactly the others in the zone. */
  lemma SettlingConverges(steps: seq<Step>, a: Token)
    requires Stays(EMPTY_WORLD, steps, a)
    requires var w := Run(EMPTY_WORLD, steps);
             && a in w.server.sessions && a in w.server.Members(ENTRY_ZONE)
             && !LeavePending(w.server, a)
    ensures var w := Run(EMPTY_WORLD, steps);
            && (exists more :: OnlyTicksAndDeliveries(more, a) && Settled(Run(w, more), a))
            && (forall more :: OnlyTicksAndDeliveries(more, a) && Settled(Run(w, more), a) ==>
                  && a in Run(w, more).server.Members(ENTRY_ZONE)
                  && Run(w, more).clients[a].view == Run(w, more).server.Members(ENTRY_ZONE) - {a})
  {
    var w := Run(EMPTY_WORLD, steps);
    InvEmpty();
    InvRun(EMPTY_WORLD, steps);
    CanSettle(w, a);
    forall more | OnlyTicksAndDeliveries(more, a) && Settled(Run(w, more), a)
      ensures a in Run(w, more).server.Members(ENTRY_ZONE)
      ensures Run(w, more).clients[a].view == Run(w, more).server.Members(ENTRY_ZONE) - {a}
    {
      TicksKeepMember(w, more, a);
      StayingMember(w, more, a);
      StaysConcat(EMPTY_WORLD, steps, more, a);
      RunConcat(EMPTY_WORLD, steps, more);
      ViewConverges(steps + more, a);
    }
  }
}
