// What single steps of a worker lead to, said of rows, outcomes and events rather than of the steps' own pieces.

module SubscriberSteps {
  import opened Prelude
  import opened Rows
  import opened Message
  import opened Metrics
  import opened Subscriber
  import opened SubscriberShape

  // ----- taking a row -----

  predicate WithinDeliveryLimit(c: Config, r: Row) {
    match c.maxDeliveries
    case None => true
    case Some(limit) => r.deliveries <= limit
  }

  predicate WriterPredatesError(c: Config, s: Sub, i: nat)
    requires i < |s.workers|
  {
    c.pooled && s.workers[i].generation != s.generation
  }

  /** The head of the queue is dispatched exactly when the worker's writer is current and the row is within its
      delivery limit. */
  lemma TakeDispatchesIff(c: Config, s: Sub, i: nat)
    requires WorkerEnabled(c, s, TakeRow(i))
    ensures var s', r := WorkerStep(c, s, TakeRow(i)), s.queue[0].row;
            && (s'.workers[i].pc.Handling? <==> !WriterPredatesError(c, s, i) && WithinDeliveryLimit(c, r))
            && (s'.workers[i].pc.Handling? ==>
                  && s'.workers[i].pc.m == s.queue[0]
                  && s'.events == s.events + [Dispatched(r)] && s'.queue == s.queue[1..])
  {
  }

  /** A row past its limit is on its way out as a terminal failure, undispatched. */
  lemma TakeBlocks(c: Config, s: Sub, i: nat)
    requires WorkerEnabled(c, s, TakeRow(i)) && !WriterPredatesError(c, s, i)
    requires !WithinDeliveryLimit(c, s.queue[0].row)
    ensures var s' := WorkerStep(c, s, TakeRow(i));
            && s'.events == s.events && s'.queue == s.queue[1..]
            && PassedOn(s.workers[i], s'.workers[i]).Some?
            && PassedOn(s.workers[i], s'.workers[i]).value.m.row == s.queue[0].row
            && PassedOn(s.workers[i], s'.workers[i]).value.m.outcome == Some(Terminal(MaxDeliveries))
  {
  }

  /** A stale worker leaves the rows in memory as they are, the head behind the others, and goes to reconnect. */
  lemma TakePutsBack(c: Config, s: Sub, i: nat)
    requires WorkerEnabled(c, s, TakeRow(i)) && WriterPredatesError(c, s, i)
    requires s.stop.Joining? ==> s.unfinished != 0
    ensures var s', n := WorkerStep(c, s, TakeRow(i)), |s.queue|;
            && |s'.queue| == n && s'.queue[n - 1] == s.queue[0]
            && (forall k :: 0 <= k < n - 1 ==> s'.queue[k] == s.queue[k + 1])
            && s'.unfinished == s.unfinished && s'.events == s.events && s'.stop == s.stop
            && s'.workers[i].buffer == s.workers[i].buffer
            && (s'.workers[i].pc.Invalidating? || s'.workers[i].pc == Flushing(ToInvalidate, None))
  {
  }

  // ----- after the handler -----

  /** The row a worker sends on: inline, or as the newest of its buffer. */
  function PassedOn(w: Worker, w': Worker): Option<Pending> {
    if w'.pc.Writing? then Some(Pending(w'.pc.m, w'.pc.kind))
    else if |w'.buffer| == |w.buffer| + 1 then Some(w'.buffer[|w.buffer|])
    else None
  }

  predicate IsPlainDelete(c: Config, o: Rows.Outcome) {
    match o
    case Ack => true
    case Retry(_) => false
    case Terminal(_) => !c.dlq
  }

  /** The event that will report an outcome once its write landed. */
  function ReportOf(o: Rows.Outcome): Kind {
    match o
    case Ack => Acked
    case Retry(_) => NackedRetried
    case Terminal(_) => NackedTerminal
  }

  /** A message on its way to a write: of this row, decided by these calls. */
  ghost predicate Carries(p: Pending, m: Msg, cs: seq<Call>, now: real, v: Verdict) {
    && p.m.row == m.row && p.m.outcome.Some? && Settles(cs, v, p.m.outcome.value)
    && p.kind == ReportOf(p.m.outcome.value)
    && p.m.attempts == m.row.attempts + 1
    && p.m.lastAt.Some? && DecidedAt(cs, now, p.m.lastAt.value)
    && p.m.firstAt == (if m.row.firstAt.Some? then m.row.firstAt else p.m.lastAt)
    && p.m.timed
  }

  lemma CallsDecide(m: Msg, cs: seq<Call>)
    requires m.outcome.None?
    ensures ApplyAll(m, cs).outcome.Some? <==> Decides(cs)
  {
    var i := FirstCallDecides(m, cs);
    if Decides(cs) {
      var k := FirstDeciding(cs);
      DecidesOnce(cs, k);
      assert DecidesAt(cs, i);
    } else {
      NeverDecides(cs);
    }
  }

  lemma OutcomePassedOn(c: Config, w: Worker, mono: real, m: Msg, mayBuffer: bool)
    requires m.outcome.Some?
    ensures var w' := ByOutcome(c, w, mono, m, mayBuffer);
            && PassedOn(w, w') == Some(Pending(m, ReportOf(m.outcome.value)))
            && (!w'.pc.Writing? <==> mayBuffer && c.flushBatch > 1 && IsPlainDelete(c, m.outcome.value))
  {
  }

  /** A handler that ends, or a configuration error after it, passes its row on with the outcome its calls
      settle, buffered exactly when the handler returned and the write is a plain delete that may wait; only a
      row nobody decided while the subscriber was stopped is left to its lease. */
  lemma HandlerLeadsTo(c: Config, s: Sub, l: Label)
    requires (l.Returned? || l.Misconfigured?) && WorkerEnabled(c, s, l) && IsFresh(s.workers[l.i].pc.m)
    ensures var w, w' := s.workers[l.i], WorkerStep(c, s, l).workers[l.i];
            if !Decides(l.calls) && !s.running then PassedOn(w, w').None? && w'.buffer == w.buffer
            else
              && PassedOn(w, w').Some? && Carries(PassedOn(w, w').value, w.pc.m, l.calls, l.now, l.verdict)
              && (!w'.pc.Writing? <==>
                    l.Returned? && c.flushBatch > 1 && IsPlainDelete(c, PassedOn(w, w').value.m.outcome.value))
  {
    var w := s.workers[l.i];
    var m := Timed(ApplyAll(w.pc.m, l.calls));
    CallsDecide(w.pc.m, l.calls);
    if m.outcome.Some? || s.running {
      OutcomeSettles(w.pc.m, l.calls, l.now, l.verdict);
      TimedSettles(ApplyAll(w.pc.m, l.calls), l.now, l.verdict);
      OutcomePassedOn(c, w, s.mono, AssertStateSet(m, l.now, l.verdict), l.Returned?);
    }
  }

  lemma TimedSettles(m: Msg, now: real, v: Verdict)
    ensures AssertStateSet(Timed(m), now, v) == Timed(AssertStateSet(m, now, v))
  {
  }

  // ----- the buffer -----

  /** The worker goes back to the top exactly when its buffer is short and its oldest row young. */
  lemma ParksIff(c: Config, w: Worker, mono: real)
    ensures var w' := AfterDispatch(c, w, mono);
            && (w'.pc.Top? <==>
                  w.buffer == [] || (|w.buffer| < c.flushBatch && mono < w.buffer[0].m.claimedAt + c.ttl / 2.0))
            && (!w'.pc.Top? ==> w'.pc == Flushing(ToTop, None))
            && w'.buffer == w.buffer
  {
  }

  // ----- the answer of an inline write -----

  /** A write that landed is reported by its outcome, after the archive copy if it wrote one; one that did not is
      a lost lease. */
  lemma ReplyReports(c: Config, s: Sub, i: nat)
    requires WorkerEnabled(c, s, WriteReply(i)) && WorkerShape(c, s.workers[i])
    ensures var m, ok := s.workers[i].pc.m, s.workers[i].pc.answer.value;
            var es := WorkerStep(c, s, WriteReply(i)).events;
            && |es| == |s.events| + (if ok && m.outcome.value.Terminal? && c.dlq then 2 else 1)
            && es[..|s.events|] == s.events
            && es[|es| - 1] == Outcome(if ok then ReportOf(m.outcome.value) else LeaseLost, m.row, m.timed)
            && (DlqWritten(m.row) in es[|s.events|..] <==> ok && m.outcome.value.Terminal? && c.dlq)
            && WorkerStep(c, s, WriteReply(i)).unfinished == s.unfinished - 1
  {
    var m, kind, ok := s.workers[i].pc.m, s.workers[i].pc.kind, s.workers[i].pc.answer.value;
    var added := InlineEvents(c, m, kind, ok);
    assert WorkerStep(c, s, WriteReply(i)).events == s.events + added;
    assert kind == ReportOf(m.outcome.value);
    assert (s.events + added)[|s.events|..] == added;
  }

  // ----- the fetch loop and the writers -----

  /** The fetch loop asks for every free slot, once half of them and at least one are free; it clears the event
      first. */
  lemma FetchAsksForFreeSlots(c: Config, s: Sub)
    requires ValidConfig(c) && s.fetch.FTop? && |s.queue| <= c.batchSize && s.running && !s.stopping
    ensures var s', free := FetchStep(c, s, FetchTop), c.batchSize - |s.queue|;
            if free >= 1 && 2 * free >= c.batchSize - 1 then s'.fetch == FLock(free) && !s'.wake
            else s'.fetch.FFull? && s'.wake == s.wake
  {
  }

  /** A fetch error makes every writer opened before it stale, and a writer opened after it is not. */
  lemma ErrorsRetireWriters(c: Config, s: Sub, i: nat)
    requires i < |s.workers| && FetchEnabled(s, FetchFails) && c.pooled
    ensures s.workers[i].generation == s.generation ==> WriterPredatesError(c, FetchStep(c, s, FetchFails), i)
    ensures s.workers[i].pc.Down? && s.running ==>
              && WorkerStep(c, s, Open(i)).workers[i].pc.Top?
              && !WriterPredatesError(c, WorkerStep(c, s, Open(i)), i)
  {
  }

  /** Every row of an answered fetch enters the queue behind the others, in order, stamped with the present. */
  lemma FetchedRowsAreQueued(c: Config, s: Sub, k: nat)
    requires FetchEnabled(s, FetchReply) && k < |s.fetch.rows.value|
    ensures var s', rows, n := FetchStep(c, s, FetchReply), s.fetch.rows.value, |s.queue|;
            && |s'.queue| == n + |rows| && s'.queue[..n] == s.queue && s'.unfinished == s.unfinished + |rows|
            && s'.queue[n + k].row == rows[k] && s'.queue[n + k].claimedAt == s.mono
            && s'.queue[n + k].outcome.None? && s'.queue[n + k].attempts == rows[k].attempts
            && s'.queue[n + k].firstAt == rows[k].firstAt
  {
  }

  /** A write or flush that raised takes a worker with a connection of its own out of the loop, by way of one
      flush of what it still holds; without one, a failed write leaves it in the loop. */
  lemma ErrorsLeaveTheLoop(c: Config, s: Sub, i: nat)
    requires WorkerEnabled(c, s, WriteFails(i)) || WorkerEnabled(c, s, FlushFails(i))
    ensures s.workers[i].pc.Flushing? ==>
              var w' := WorkerStep(c, s, FlushFails(i)).workers[i];
              w'.buffer == [] && (w'.pc.Done? || w'.pc.Down?) && (w'.pc.Done? <==> s.workers[i].pc.after.ToDone?)
    ensures s.workers[i].pc.Writing? ==>
              var w, w' := s.workers[i], WorkerStep(c, s, WriteFails(i)).workers[i];
              && w'.buffer == w.buffer
              && (c.pooled ==> w'.pc == if w.buffer == [] then Down else Flushing(ToDown, None))
              && (!c.pooled ==> w'.pc.Top? || w'.pc == Flushing(ToTop, None))
  {
  }

  /** An answered flush leaves an empty buffer and leads where the worker was going. */
  lemma FlushesLeadOn(c: Config, s: Sub, i: nat)
    requires WorkerEnabled(c, s, FlushReply(i))
    ensures var w, w' := s.workers[i], WorkerStep(c, s, FlushReply(i)).workers[i];
            && w'.buffer == [] && (w.pc.after.ToTop? <==> w'.pc.Top?)
            && (w.pc.after.ToInvalidate? <==> w'.pc.Invalidating?)
            && (w.pc.after.ToDown? <==> w'.pc.Down?) && (w.pc.after.ToDone? <==> w'.pc.Done?)
  {
  }
}
