// What every reachable subscriber state looks like: buffers and hands, queue capacity, the wake event
// and the phases of stop().

module SubscriberShape {
  import opened Rows
  import opened Message
  import opened Metrics
  import opened Subscriber
  import opened SubscriberBalance

  // ----- one worker -----

  predicate IsFresh(m: Msg) { m == Received(m.row, m.claimedAt) }

  predicate KindFits(m: Msg, kind: Kind) {
    m.outcome.Some? &&
    match m.outcome.value
    case Ack => kind.Acked?
    case Retry(_) => kind.NackedRetried?
    case Terminal(_) => kind.NackedTerminal?
  }

  /** A row on its way to a write: one outcome, and an event that will name it. */
  predicate Decided(c: Config, m: Msg, kind: Kind) {
    Sound(c.limit, m) && KindFits(m, kind)
  }

  /** Only plain deletes are buffered: never a retry, never a failure that must be archived. */
  predicate Buffered(c: Config, p: Pending) {
    Decided(c, p.m, p.kind) && !p.kind.NackedRetried? && Batchable(c, p.m)
  }

  predicate HeadYoung(c: Config, w: Worker) {
    w.buffer != [] ==> w.checked - w.buffer[0].m.claimedAt < c.ttl / 2.0
  }

  ghost predicate WorkerShape(c: Config, w: Worker) {
    && (forall p :: p in w.buffer ==> Buffered(c, p))
    && |w.buffer| <= c.flushBatch
    && match w.pc
       case Down => w.buffer == []
       case Invalidating => w.buffer == []
       case Done => w.buffer == []
       case Flushing(_, _) => w.buffer != []
       case Top => |w.buffer| < c.flushBatch && HeadYoung(c, w)
       case Handling(m) => |w.buffer| < c.flushBatch && HeadYoung(c, w) && IsFresh(m)
       case Writing(m, kind, _) => |w.buffer| < c.flushBatch && Decided(c, m, kind)
  }

  lemma ParkShape(c: Config, w: Worker, mono: real)
    requires forall p :: p in w.buffer ==> Buffered(c, p)
    requires |w.buffer| <= c.flushBatch
    requires ValidConfig(c)
    ensures WorkerShape(c, AfterDispatch(c, w, mono))
  {
  }

  lemma BufferShape(c: Config, w: Worker, mono: real, m: Msg, kind: Kind, mayBuffer: bool)
    requires ValidConfig(c)
    requires forall p :: p in w.buffer ==> Buffered(c, p)
    requires |w.buffer| < c.flushBatch && Decided(c, m, kind) && !kind.NackedRetried?
    ensures WorkerShape(c, FlushOrBuffer(c, w, mono, m, kind, mayBuffer))
  {
    if mayBuffer && Batchable(c, m) {
      ParkShape(c, w.(buffer := w.buffer + [Pending(m, kind)]), mono);
    }
  }

  lemma OutcomeShape(c: Config, w: Worker, mono: real, m: Msg, mayBuffer: bool)
    requires ValidConfig(c)
    requires forall p :: p in w.buffer ==> Buffered(c, p)
    requires |w.buffer| < c.flushBatch && Sound(c.limit, m) && m.outcome.Some?
    ensures WorkerShape(c, ByOutcome(c, w, mono, m, mayBuffer))
  {
    match m.outcome.value
    case Ack => BufferShape(c, w, mono, m, Acked, mayBuffer);
    case Terminal(_) => BufferShape(c, w, mono, m, NackedTerminal, mayBuffer);
    case Retry(_) =>
  }

  lemma HandledSound(c: Config, m: Msg, calls: seq<Call>, now: real, v: Verdict)
    requires IsFresh(m) && HandlerWithin(c, m, calls, v)
    ensures Sound(c.limit, AssertStateSet(Timed(ApplyAll(m, calls)), now, v))
  {
    CallsKeepSound(c.limit, m, calls);
  }

  lemma LeaveShape(c: Config, w: Worker, target: After)
    requires target.ToDown? || target.ToDone?
    requires (forall p :: p in w.buffer ==> Buffered(c, p)) && |w.buffer| <= c.flushBatch
    ensures WorkerShape(c, Leave(w, target))
  {
  }

  lemma ClearShape(c: Config, w: Worker, pc: Pc)
    requires ValidConfig(c) && (pc.Down? || pc.Top? || pc.Done? || pc.Invalidating?)
    ensures WorkerShape(c, w.(pc := pc, buffer := []))
  {
  }

  lemma CancelShape(c: Config, s: Sub, i: nat)
    requires ValidConfig(c) && i < |s.workers| && WorkerShape(c, s.workers[i])
    ensures WorkerShape(c, Cancelled(s, i).workers[i])
  {
    var w := s.workers[i];
    LeaveShape(c, w, ToDone);
    ClearShape(c, w, Done);
  }

  lemma FlushShape(c: Config, s: Sub, l: Label)
    requires ValidConfig(c) && (l.FlushReply? || l.FlushFails?) && WorkerEnabled(c, s, l)
    ensures WorkerShape(c, WorkerStep(c, s, l).workers[l.i])
  {
    var w' := WorkerStep(c, s, l).workers[l.i];
    ClearShape(c, s.workers[l.i], w'.pc);
  }

  lemma WriteShape(c: Config, s: Sub, l: Label)
    requires ValidConfig(c) && (l.WriteReply? || l.WriteFails? || l.Escaped?) && WorkerEnabled(c, s, l)
    requires WorkerShape(c, s.workers[l.i])
    ensures WorkerShape(c, WorkerStep(c, s, l).workers[l.i])
  {
    ParkShape(c, s.workers[l.i], s.mono);
    LeaveShape(c, s.workers[l.i], ToDown);
  }

  /** Every worker step keeps the worker's shape. */
  lemma WorkerShapeKept(c: Config, s: Sub, l: Label)
    requires ValidConfig(c) && IsWorkerStep(l) && WorkerEnabled(c, s, l) && WorkerShape(c, s.workers[l.i])
    requires forall m :: m in s.queue ==> IsFresh(m)
    ensures WorkerShape(c, WorkerStep(c, s, l).workers[l.i])
  {
    if l.TakeRow? { TakeShape(c, s, l.i); }
    else if l.Returned? || l.Misconfigured? { HandledShape(c, s, l); }
    else if l.Cancel? { CancelShape(c, s, l.i); }
    else if l.FlushReply? || l.FlushFails? { FlushShape(c, s, l); }
    else if l.WriteReply? || l.WriteFails? || l.Escaped? { WriteShape(c, s, l); }
    else { RestShape(c, s, l); }
  }

  lemma RestShape(c: Config, s: Sub, l: Label)
    requires ValidConfig(c) && (IsQuiet(l) || l.WriteRuns? || l.FlushRuns?) && WorkerEnabled(c, s, l)
    requires WorkerShape(c, s.workers[l.i])
    ensures WorkerShape(c, WorkerStep(c, s, l).workers[l.i])
  {
  }

  lemma TakeShape(c: Config, s: Sub, i: nat)
    requires ValidConfig(c) && i < |s.workers| && s.queue != [] && s.workers[i].pc.Top? && WorkerShape(c, s.workers[i])
    requires IsFresh(s.queue[0])
    ensures WorkerShape(c, Take(c, s, i).workers[i])
  {
    if !Stale(c, s, i) && !Message.Allowed(s.queue[0], c.maxDeliveries) {
      BufferShape(c, s.workers[i], s.mono, Block(s.queue[0]), NackedTerminal, true);
    }
  }

  lemma HandledShape(c: Config, s: Sub, l: Label)
    requires ValidConfig(c) && (l.Returned? || l.Misconfigured?) && WorkerEnabled(c, s, l)
    requires WorkerShape(c, s.workers[l.i])
    ensures WorkerShape(c, WorkerStep(c, s, l).workers[l.i])
  {
    var w := s.workers[l.i];
    var m := Timed(ApplyAll(w.pc.m, l.calls));
    HandledSound(c, w.pc.m, l.calls, l.now, l.verdict);
    if m.outcome.None? && !s.running {
      ParkShape(c, w, s.mono);
    } else {
      OutcomeShape(c, w, s.mono, AssertStateSet(m, l.now, l.verdict), l.Returned?);
    }
  }

  // ----- the whole subscriber -----

  ghost predicate Shaped(c: Config, s: Sub) {
    && (forall m :: m in s.queue ==> IsFresh(m))
    && forall i :: 0 <= i < |s.workers| ==> WorkerShape(c, s.workers[i])
  }

  /** put_nowait never overfills: the free slots a fetch was sized by are still free when its rows arrive. */
  ghost predicate Roomy(c: Config, s: Sub) {
    && |s.queue| <= c.batchSize
    && (s.fetch.FLock? ==> s.fetch.free >= 1 && |s.queue| + s.fetch.free <= c.batchSize)
    && (s.fetch.FFetching? ==>
          && s.fetch.free >= 1 && |s.queue| + s.fetch.free <= c.batchSize
          && (s.fetch.rows.Some? ==> |s.fetch.rows.value| <= s.fetch.free))
  }

  /** No wake-up is lost: in the queue-full wait with enough free slots, or after a NOTIFY the last fetch
      may have missed, or once stop() has begun, the event is set. */
  ghost predicate Wakeful(c: Config, s: Sub) {
    && (s.fetch.FFull? && Free(c, s) >= RefillAt(c) ==> s.wake)
    && ((s.fetch.FLock? || s.fetch.FFetching? || s.fetch.FIdle?) && s.notified ==> s.wake)
    && ((s.fetch.FFull? || s.fetch.FLock? || s.fetch.FFetching? || s.fetch.FIdle?) && s.stopping ==> s.wake)
  }

  ghost predicate Draining(s: Sub) {
    && (s.stopping <==> !s.stop.Up?)
    && (s.running <==> !(s.stop.Closing? || s.stop.Stopped?))
    && (s.stop.Joining? || s.stop.Joined? || s.stop == Closing(true) ==> !s.fetch.FFetching?)
    && (s.stop.Joining? ==> s.unfinished != 0)
    && (s.stop.Joined? || s.stop == Closing(true) ==> s.unfinished == 0)
    && (s.stop.Stopped? ==> AllDone(s) && s.queue == [])
  }

  ghost predicate Inv(c: Config, s: Sub) {
    Shaped(c, s) && Roomy(c, s) && Wakeful(c, s) && Draining(s) && Accounted(s)
  }

  /** What a worker step can do to the rest of the subscriber. */
  ghost predicate Framed(c: Config, s: Sub, s': Sub) {
    && s'.fetch == s.fetch && s'.stopping == s.stopping && s'.running == s.running && s'.mono == s.mono
    && s'.notified == s.notified && s'.generation == s.generation && s'.landed == s.landed
    && |s'.workers| == |s.workers|
    && (s.wake ==> s'.wake)
    && |s'.queue| <= |s.queue|
    && (|s'.queue| < |s.queue| && Free(c, s') >= RefillAt(c) ==> s'.wake)
    && (forall m :: m in s'.queue ==> m in s.queue)
    && (s'.stop == if s.stop.Joining? && s'.unfinished == 0 then Joined else s.stop)
  }

  lemma PutFramed(c: Config, s: Sub, i: nat, w: Worker)
    requires i < |s.workers| && (s.stop.Joining? ==> s.unfinished != 0)
    ensures Framed(c, s, Put(s, i, w))
  {
  }

  lemma DoneFramed(c: Config, s: Sub, i: nat, w: Worker, es: seq<Event>, leaked: seq<Row>, n: nat)
    requires i < |s.workers| && (s.stop.Joining? ==> s.unfinished != 0)
    ensures Framed(c, s, Put(TaskDone(Emit(s, es).(leaked := leaked), n), i, w))
  {
  }

  lemma LeakFree(s: Sub, es: seq<Event>)
    ensures Emit(s, es).(leaked := s.leaked) == Emit(s, es)
    ensures Emit(s, []) == s
  {
    assert s.events + [] == s.events;
  }

  lemma PutBackFramed(c: Config, s: Sub, i: nat)
    requires i < |s.workers| && s.queue != [] && (s.stop.Joining? ==> s.unfinished != 0)
    ensures Framed(c, s, PutBack(s, i))
  {
    var q := s.queue[1..] + [s.queue[0]];
    assert |q| == |s.queue|;
    forall m | m in q ensures m in s.queue {}
  }

  lemma DequeuedFramed(c: Config, s: Sub, i: nat, w: Worker, es: seq<Event>)
    requires i < |s.workers| && s.queue != [] && (s.stop.Joining? ==> s.unfinished != 0)
    ensures Framed(c, s, Put(Emit(Dequeued(c, s), es), i, w))
  {
  }

  lemma TakeFramed(c: Config, s: Sub, i: nat)
    requires i < |s.workers| && s.queue != [] && (s.stop.Joining? ==> s.unfinished != 0)
    ensures Framed(c, s, Take(c, s, i))
  {
    if Stale(c, s, i) {
      PutBackFramed(c, s, i);
    } else {
      var es := if Message.Allowed(s.queue[0], c.maxDeliveries) then [Dispatched(s.queue[0].row)] else [];
      LeakFree(Dequeued(c, s), es);
      DequeuedFramed(c, s, i, Take(c, s, i).workers[i], es);
    }
  }

  lemma SettleFramed(c: Config, s: Sub, i: nat, es: seq<Event>)
    requires i < |s.workers| && (s.stop.Joining? ==> s.unfinished != 0)
    ensures Framed(c, s, Settle(c, s, i, s.workers[i], es))
  {
    LeakFree(s, es);
    DoneFramed(c, s, i, AfterDispatch(c, s.workers[i], s.mono), es, s.leaked, 1);
  }

  lemma HandledFramed(c: Config, s: Sub, l: Label)
    requires (l.Returned? || l.Misconfigured?) && WorkerEnabled(c, s, l) && (s.stop.Joining? ==> s.unfinished != 0)
    ensures Framed(c, s, WorkerStep(c, s, l))
  {
    var m := Timed(ApplyAll(s.workers[l.i].pc.m, l.calls));
    if m.outcome.None? && !s.running {
      SettleFramed(c, s, l.i, Abandon(m));
    } else {
      PutFramed(c, s, l.i, WorkerStep(c, s, l).workers[l.i]);
    }
  }

  lemma LeakFramed(c: Config, s: Sub, i: nat)
    requires i < |s.workers| && s.workers[i].pc.Handling? && (s.stop.Joining? ==> s.unfinished != 0)
    ensures Framed(c, s, Cancelled(s, i))
  {
    var leaked := s.leaked + [s.workers[i].pc.m.row];
    LeakFree(s, []);
    assert Emit(s, []).(leaked := leaked) == s.(leaked := leaked);
    DoneFramed(c, s, i, Leave(s.workers[i], ToDone), [], leaked, 1);
  }

  lemma DropFramed(c: Config, s: Sub, i: nat)
    requires i < |s.workers| && (s.workers[i].pc.Writing? || s.workers[i].pc.Flushing?)
    requires s.stop.Joining? ==> s.unfinished != 0
    ensures Framed(c, s, Cancelled(s, i))
  {
    var w := s.workers[i];
    if w.pc.Writing? {
      LeakFree(s, Abandon(w.pc.m));
      DoneFramed(c, s, i, Leave(w, ToDone), Abandon(w.pc.m), s.leaked, 1);
    } else {
      LeakFree(s, AbandonAll(w.buffer));
      DoneFramed(c, s, i, w.(pc := Done, buffer := []), AbandonAll(w.buffer), s.leaked, |w.buffer|);
    }
  }

  lemma CancelFramed(c: Config, s: Sub, i: nat)
    requires i < |s.workers| && (s.stop.Joining? ==> s.unfinished != 0)
    ensures Framed(c, s, Cancelled(s, i))
  {
    if s.workers[i].pc.Handling? {
      LeakFramed(c, s, i);
    } else if s.workers[i].pc.Writing? || s.workers[i].pc.Flushing? {
      DropFramed(c, s, i);
    } else {
      PutFramed(c, s, i, Cancelled(s, i).workers[i]);
    }
  }

  lemma FlushFramed(c: Config, s: Sub, l: Label)
    requires (l.FlushReply? || l.FlushFails?) && WorkerEnabled(c, s, l) && (s.stop.Joining? ==> s.unfinished != 0)
    ensures Framed(c, s, WorkerStep(c, s, l))
  {
    var w, w' := s.workers[l.i], WorkerStep(c, s, l).workers[l.i];
    var es := if l.FlushFails? then AbandonAll(w.buffer) else FlushEvents(w.buffer, w.pc.deleted.value);
    LeakFree(s, es);
    DoneFramed(c, s, l.i, w', es, s.leaked, |w.buffer|);
  }

  lemma WriteFramed(c: Config, s: Sub, l: Label)
    requires (l.WriteReply? || l.WriteFails? || l.Escaped?) && WorkerEnabled(c, s, l)
    requires s.stop.Joining? ==> s.unfinished != 0
    ensures Framed(c, s, WorkerStep(c, s, l))
  {
    var w := s.workers[l.i];
    if l.WriteReply? {
      SettleFramed(c, s, l.i, InlineEvents(c, w.pc.m, w.pc.kind, w.pc.answer.value));
    } else if l.Escaped? {
      SettleFramed(c, s, l.i, Abandon(Timed(w.pc.m)));
    } else if c.pooled {
      LeakFree(s, Abandon(w.pc.m));
      DoneFramed(c, s, l.i, Leave(w, ToDown), Abandon(w.pc.m), s.leaked, 1);
    } else {
      SettleFramed(c, s, l.i, Abandon(w.pc.m));
    }
  }

  lemma WorkerFramed(c: Config, s: Sub, l: Label)
    requires IsWorkerStep(l) && WorkerEnabled(c, s, l) && (s.stop.Joining? ==> s.unfinished != 0)
    ensures Framed(c, s, WorkerStep(c, s, l))
  {
    if l.TakeRow? { TakeFramed(c, s, l.i); }
    else if l.Returned? || l.Misconfigured? { HandledFramed(c, s, l); }
    else if l.Cancel? { CancelFramed(c, s, l.i); }
    else if l.FlushReply? || l.FlushFails? { FlushFramed(c, s, l); }
    else if l.WriteReply? || l.WriteFails? || l.Escaped? { WriteFramed(c, s, l); }
    else { PutFramed(c, s, l.i, WorkerStep(c, s, l).workers[l.i]); }
  }
}
