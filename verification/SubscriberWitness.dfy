// Two runs that show where a promise ends: a put-back breaks claim order, so that a buffered row outlives the
// half-lease bound, and a cancelled handler leaves its dispatch open.

module SubscriberWitness {
  import opened Prelude
  import opened Rows
  import opened LeaseTable
  import opened Message
  import opened Metrics
  import opened Subscriber
  import opened SubscriberBalance
  import opened SubscriberRuns
  import opened SubscriberFifo

  // ----- a few steps at a time -----

  /** One idle worker, and a fetch loop at its top. */
  lemma OneWorker(c: Config) returns (s: Sub)
    ensures Reachable(c, s) && s == Initial(1).(workers := [Idle().(pc := Top)], fetch := FTop)
  {
    var s0 := Initial(1);
    ReachableFirst(c, 1);
    ReachableNext(c, s0, Open(0));
    var s1 := Step(c, s0, Open(0));
    assert s1.workers == [Idle().(pc := Top)];
    ReachableNext(c, s1, FetchOpen);
    s := Step(c, s1, FetchOpen);
  }

  lemma Fetching(c: Config, s: Sub) returns (t: Sub)
    requires Reachable(c, s) && s.fetch.FTop? && s.running && !s.stopping && Free(c, s) >= RefillAt(c)
    ensures Reachable(c, t) && t == s.(fetch := FFetching(Free(c, s), None), wake := false, notified := false)
  {
    ReachableNext(c, s, FetchTop);
    var s1 := Step(c, s, FetchTop);
    ReachableNext(c, s1, FetchLock);
    t := Step(c, s1, FetchLock);
  }

  lemma Fetches(c: Config, s: Sub, r: Row) returns (t: Sub)
    requires Reachable(c, s) && s.fetch.FFetching? && s.fetch.rows.None? && s.fetch.free >= 1
    ensures Reachable(c, t) && t.queue == s.queue + [Received(r, s.mono)] && t.fetch.FTop?
    ensures SameBut(s, t) && t.workers == s.workers
  {
    ReachableNext(c, s, FetchRuns([r]));
    var s1 := Step(c, s, FetchRuns([r]));
    ReachableNext(c, s1, FetchReply);
    t := Step(c, s1, FetchReply);
    assert t.queue == s.queue + [Received(r, s.mono)];
  }

  /** What no step here changes. */
  ghost predicate SameBut(s: Sub, t: Sub) {
    && t.stop == s.stop && t.running == s.running && t.stopping == s.stopping && t.generation == s.generation
    && t.mono == s.mono && t.returned == s.returned && t.leaked == s.leaked
  }

  lemma FetchesOne(c: Config, s: Sub, r: Row) returns (t: Sub)
    requires Reachable(c, s) && s.fetch.FTop? && s.running && !s.stopping && Free(c, s) >= RefillAt(c)
    ensures Reachable(c, t) && t.queue == s.queue + [Received(r, s.mono)] && t.fetch.FTop?
    ensures SameBut(s, t) && t.workers == s.workers
  {
    var s1 := Fetching(c, s);
    t := Fetches(c, s1, r);
  }

  lemma Waits(c: Config, s: Sub, elapsed: real) returns (t: Sub)
    requires Reachable(c, s) && elapsed >= 0.0
    ensures Reachable(c, t) && t == s.(mono := s.mono + elapsed)
  {
    ReachableNext(c, s, Wait(elapsed));
    t := Step(c, s, Wait(elapsed));
  }

  /** The fetch loop loses its connection; the only worker puts its next row back. */
  lemma PutsBackOne(c: Config, s: Sub) returns (t: Sub)
    requires Reachable(c, s) && !s.fetch.FDone? && c.pooled && s.queue != [] && s.running && s.stop.Up?
    requires |s.workers| == 1 && s.workers[0].pc.Top? && s.workers[0].buffer == []
    requires s.workers[0].generation == s.generation
    ensures Reachable(c, t) && t.queue == s.queue[1..] + [s.queue[0]] && t.mono == s.mono
    ensures t.workers == [s.workers[0].(pc := Invalidating)] && t.running && t.generation == s.generation + 1
    ensures t.returned == s.returned + {LeaseHeld(s.queue[0])}
  {
    ReachableNext(c, s, FetchFails);
    var s1 := Step(c, s, FetchFails);
    ReachableNext(c, s1, TakeRow(0));
    t := Step(c, s1, TakeRow(0));
    assert t.workers == [s.workers[0].(pc := Invalidating)];
  }

  lemma Reopens(c: Config, s: Sub) returns (t: Sub)
    requires Reachable(c, s) && s.running && |s.workers| == 1 && s.workers[0].pc.Invalidating?
    ensures Reachable(c, t)
    ensures t == s.(workers := [s.workers[0].(pc := Top, generation := s.generation, checked := s.mono)])
  {
    ReachableNext(c, s, Invalidated(0));
    var s1 := Step(c, s, Invalidated(0));
    ReachableNext(c, s1, Open(0));
    t := Step(c, s1, Open(0));
    assert t.workers == [s.workers[0].(pc := Top, generation := s.generation, checked := s.mono)];
  }

  function AckedMsg(m: Msg): Msg { Timed(Apply(m, CallAck(0.0))) }

  ghost predicate Ready(c: Config, s: Sub) {
    && Reachable(c, s) && s.running && c.maxDeliveries.None?
    && |s.workers| == 1 && s.generation == s.workers[0].generation
  }

  lemma Takes(c: Config, s: Sub) returns (t: Sub)
    requires Ready(c, s) && s.workers[0].pc.Top? && s.queue != []
    ensures Ready(c, t) && t.queue == s.queue[1..] && t.workers == [s.workers[0].(pc := Handling(s.queue[0]))]
    ensures t.mono == s.mono && t.returned == s.returned
  {
    ReachableNext(c, s, TakeRow(0));
    t := Step(c, s, TakeRow(0));
    assert t.workers == [s.workers[0].(pc := Handling(s.queue[0]))];
  }

  lemma OneAck(m: Msg)
    requires m.outcome.None?
    ensures ApplyAll(m, [CallAck(0.0)]) == Apply(m, CallAck(0.0)) && Apply(m, CallAck(0.0)).outcome == Some(Ack)
  {
    assert [CallAck(0.0)][1..] == [];
  }

  lemma Acks(c: Config, s: Sub) returns (t: Sub)
    requires Ready(c, s) && s.workers[0].pc.Handling? && s.workers[0].pc.m.outcome.None? && c.flushBatch > 1
    ensures var w := s.workers[0];
            t.workers == [AfterDispatch(c, w.(buffer := w.buffer + [Pending(AckedMsg(w.pc.m), Acked)]), s.mono)]
    ensures Ready(c, t) && t.queue == s.queue && t.mono == s.mono && t.returned == s.returned
  {
    var w, l := s.workers[0], Returned(0, [CallAck(0.0)], 0.0, NoStrategy);
    OneAck(w.pc.m);
    ReachableNext(c, s, l);
    t := Step(c, s, l);
    assert t.workers == [AfterDispatch(c, w.(buffer := w.buffer + [Pending(AckedMsg(w.pc.m), Acked)]), s.mono)];
  }

  // ----- a put-back -----

  const SLOW := Config(4, 3, 10.0, None, false, true, None)

  predicate Older(q: seq<Msg>, x: Row, y: Row) { q == [Received(y, 4.0), Received(x, 0.0)] }

  /** x is claimed at 0 and y at 4; the put-back of x leaves it behind y. */
  lemma Overtaken(x: Row, y: Row) returns (s: Sub)
    ensures Ready(SLOW, s) && Older(s.queue, x, y) && s.mono == 4.0 && s.returned == {LeaseOf(x)}
    ensures s.workers == [Worker(Top, [], 1, 4.0)]
  {
    var s0 := OneWorker(SLOW);
    var s1 := FetchesOne(SLOW, s0, x);
    var s2 := Waits(SLOW, s1, 4.0);
    var s3 := FetchesOne(SLOW, s2, y);
    assert s3.queue == [Received(x, 0.0), Received(y, 4.0)];
    var s4 := PutsBackOne(SLOW, s3);
    s := Reopens(SLOW, s4);
  }

  /** Its worker ends at the top of the loop, holding x at age 8.5, past the half lease of 5, though its buffer
      is short and its head young. */
  lemma PutBackOutlives(x: Row, y: Row) returns (s: Sub, p: Pending)
    ensures ValidConfig(SLOW) && Reachable(SLOW, s) && |s.workers| == 1 && s.workers[0].pc.Top?
    ensures p in s.workers[0].buffer && p.m.row == x && s.workers[0].checked - p.m.claimedAt == 8.5
    ensures !Young(SLOW, s.workers[0], p) && s.returned == {LeaseOf(x)}
  {
    var s0 := Overtaken(x, y);
    var s1 := Takes(SLOW, s0);
    var s2 := Acks(SLOW, s1);
    var first := Pending(AckedMsg(Received(y, 4.0)), Acked);
    assert s1.workers[0].buffer + [first] == [first];
    assert s2.workers == [Worker(Top, [first], 1, 4.0)];
    var s3 := Takes(SLOW, s2);
    var s4 := Waits(SLOW, s3, 4.5);
    s := Acks(SLOW, s4);
    p := Pending(AckedMsg(Received(x, 0.0)), Acked);
    assert s.workers[0].buffer == [first, p];
  }

  // ----- a cancelled handler -----

  /** For any row and configuration: claimed, dispatched, cancelled. Nothing will close that dispatch. */
  lemma CancelledInHandler(c: Config, r: Row) returns (s: Sub)
    requires ValidConfig(c) && WithinLimit(c, r)
    ensures Reachable(c, s) && StillOpen(s, Unit()) == 0 && s.leaked == [r]
  {
    var s0 := OneWorker(c);
    var s1 := FetchesOne(c, s0, r);
    ReachableNext(c, s1, TakeRow(0));
    var s2 := Step(c, s1, TakeRow(0));
    ReachableNext(c, s2, Cancel(0));
    s := Step(c, s2, Cancel(0));
    SumOne(s.workers[0], OpenWeightOf(Unit()));
    assert s.workers == [s.workers[0]];
  }
}
