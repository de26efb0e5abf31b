// The subscriber as the object it is: a bounded asyncio queue, an event, flags and counters that each
// segment between two awaits updates in place. Every segment is proved to be its step, and to respect the
// queue's own preconditions: put_nowait needs a free slot, task_done an unfinished item.

module SubscriberClass {
  import opened Prelude
  import opened Rows
  import opened LeaseTable
  import opened Message
  import opened Metrics
  import opened Subscriber
  import opened SubscriberShape
  import opened SubscriberRuns

  class InflightQueue {
    const maxsize: nat
    var items: seq<Msg>
    var unfinished: int

    constructor (maxsize: nat)
      ensures this.maxsize == maxsize && items == [] && unfinished == 0
    {
      this.maxsize := maxsize;
      items, unfinished := [], 0;
    }

    /** Raises QueueFull without a free slot. */
    method PutNowait(m: Msg)
      requires |items| < maxsize
      modifies this
      ensures items == old(items) + [m] && unfinished == old(unfinished) + 1
    {
      items := items + [m];
      unfinished := unfinished + 1;
    }

    method GetNowait() returns (m: Msg)
      requires items != []
      modifies this
      ensures m == old(items)[0] && items == old(items)[1..] && unfinished == old(unfinished)
    {
      m := items[0];
      items := items[1..];
    }

    /** Raises ValueError when called more often than items were put. */
    method TaskDone()
      requires unfinished > 0
      modifies this
      ensures unfinished == old(unfinished) - 1 && items == old(items)
    {
      unfinished := unfinished - 1;
    }
  }

  // ----- loops, one element at a time -----

  function FlushEvent(p: Pending, deleted: set<Lease>): Event {
    Metrics.Outcome(if LeaseHeld(p.m) in deleted then p.kind else LeaseLost, p.m.row, p.m.timed)
  }

  lemma TailOfPrefix<T>(s: seq<T>, k: nat)
    requires k < |s|
    ensures s[1..][..k] == s[..k + 1][1..]
    ensures s[..k + 1] != [] && s[..k + 1][0] == s[0] && (k > 0 ==> s[1..][k - 1] == s[k])
  {
  }

  lemma {:induction false} FlushEventsSnoc(ps: seq<Pending>, k: nat, deleted: set<Lease>)
    requires k < |ps|
    ensures FlushEvents(ps[..k + 1], deleted)
         == FlushEvents(ps[..k], deleted)
            + [FlushEvent(ps[k], deleted)]
  {
    if k > 0 {
      FlushEventsSnoc(ps[1..], k - 1, deleted);
      TailOfPrefix(ps, k);
      TailOfPrefix(ps, k - 1);
    }
  }

  lemma {:induction false} AbandonAllSnoc(ps: seq<Pending>, k: nat)
    requires k < |ps|
    ensures AbandonAll(ps[..k + 1]) == AbandonAll(ps[..k]) + Abandon(ps[k].m)
  {
    if k > 0 {
      AbandonAllSnoc(ps[1..], k - 1);
      TailOfPrefix(ps, k);
      TailOfPrefix(ps, k - 1);
    }
  }

  lemma ArrivedSnoc(rows: seq<Row>, k: nat, mono: real)
    requires k < |rows|
    ensures Arrived(rows[..k + 1], mono) == Arrived(rows[..k], mono) + [Received(rows[k], mono)]
  {
  }

  /** Emitting and balancing row by row is emitting everything and balancing everything. */
  lemma OneMoreRow(s: Sub, es: seq<Event>, k: nat, more: seq<Event>)
    requires s.stop.Joining? ==> k < s.unfinished
    ensures TaskDone(Emit(TaskDone(Emit(s, es), k), more), 1) == TaskDone(Emit(s, es + more), k + 1)
  {
    assert s.events + es + more == s.events + (es + more);
  }

  /** Rows a worker holds are part of the unfinished count. */
  lemma HeldIsUnfinished(c: Config, s: Sub, i: nat)
    requires Inv(c, s) && i < |s.workers|
    ensures LoadOf(s.workers[i]) <= s.unfinished
  {
    LoadsAreHeld(s.workers);
    SumAtLeast(s.workers, i, LoadOf);
  }

  class OutboxSubscriber {
    const config: Config
    const inflight: InflightQueue
    var workers: seq<Worker>
    var fetch: FetchPc
    var stop: StopPc
    var stopping: bool
    var running: bool
    var wake: bool
    var generation: nat
    var mono: real
    var events: seq<Event>
    ghost var notified: bool
    ghost var landed: seq<Row>
    ghost var leaked: seq<Row>
    ghost var returned: set<Lease>

    ghost function View(): Sub
      reads this, inflight
    {
      Sub(inflight.items, inflight.unfinished, workers, fetch, stop, stopping, running, wake, generation, mono, events,
          notified, landed, leaked, returned)
    }

    ghost predicate Valid()
      reads this, inflight
    {
      ValidConfig(config) && inflight.maxsize == config.batchSize && Inv(config, View())
    }

    constructor (config: Config, workers: nat)
      requires ValidConfig(config)
      ensures Valid() && View() == Initial(workers) && this.config == config
    {
      this.config := config;
      inflight := new InflightQueue(config.batchSize);
      this.workers := seq(workers, _ => Idle());
      fetch, stop, stopping, running, wake := FDown, Up, false, true, false;
      generation, mono, events := 0, 0.0, [];
      notified, landed, leaked, returned := false, [], [], {};
      new;
      InitialHolds(config, workers, Unit());
      assert View() == Initial(workers);
    }

    method EmitMetric(e: Event)
      modifies this`events
      ensures View() == Emit(old(View()), [e])
    {
      events := events + [e];
    }

    /** task_done on the queue; reaching zero wakes a waiting join. */
    method TaskDoneOnce()
      requires inflight.unfinished > 0
      modifies this`stop, inflight
      ensures View() == TaskDone(old(View()), 1)
    {
      inflight.TaskDone();
      if stop.Joining? && inflight.unfinished == 0 {
        stop := Joined;
      }
    }

    method EmitDispatchAbandoned(m: Msg)
      modifies this`events
      ensures View() == Emit(old(View()), Abandon(m))
    {
      LeakFree(View(), []);
      if m.timed {
        EmitMetric(Metrics.Outcome(DispatchAbandoned, m.row, true));
      }
    }

    // ----- the fetch loop -----

    method PutAll(rows: seq<Row>)
      requires |inflight.items| + |rows| <= inflight.maxsize
      modifies inflight
      ensures View() == old(View()).(queue := old(View()).queue + Arrived(rows, mono),
                                     unfinished := old(View()).unfinished + |rows|)
    {
      for k := 0 to |rows|
        invariant inflight.items == old(inflight.items) + Arrived(rows[..k], mono)
        invariant inflight.unfinished == old(inflight.unfinished) + k
      {
        inflight.PutNowait(Received(rows[k], mono));
        ArrivedSnoc(rows, k, mono);
      }
      assert rows[..|rows|] == rows;
    }

    /** The rows of an answered fetch enter the queue one by one, each into a free slot. */
    method EnqueueFetched()
      requires Valid() && FetchEnabled(View(), FetchReply)
      modifies this, inflight
      ensures Valid() && View() == FetchStep(config, old(View()), FetchReply)
    {
      ghost var before := View();
      var rows := fetch.rows.value;
      PutAll(rows);
      EmitMetric(Fetched(|rows|));
      fetch := if rows == [] then FIdle else FTop;
      assert View() == FetchStep(config, before, FetchReply);
      FetchKeeps(config, before, FetchReply);
    }

    /** The top of the fetch loop: leave, wait for room, or clear the event and go for the claim lock. */
    method FetchTopSegment()
      requires Valid() && fetch.FTop?
      modifies this
      ensures Valid() && View() == FetchStep(config, old(View()), FetchTop)
    {
      ghost var before := View();
      var free := inflight.maxsize - |inflight.items|;
      if !running || stopping {
        fetch := FDown;
      } else if free < RefillAt(config) {
        fetch := FFull;
      } else {
        wake, notified := false, false;
        fetch := FLock(free);
      }
      assert View() == FetchStep(config, before, FetchTop);
      FetchKeeps(config, before, FetchTop);
    }

    /** Inside the claim lock: stop() may have begun while it was waited for. */
    method FetchLocked()
      requires Valid() && fetch.FLock?
      modifies this
      ensures Valid() && View() == FetchStep(config, old(View()), FetchLock)
    {
      ghost var before := View();
      if stopping { fetch := FDown; } else { fetch := FFetching(fetch.free, None); }
      FetchKeeps(config, before, FetchLock);
    }

    /** The end of either wait. */
    method FetchWoken()
      requires Valid() && (fetch.FFull? || fetch.FIdle?)
      modifies this
      ensures Valid() && View() == FetchStep(config, old(View()), FetchWake)
    {
      ghost var before := View();
      wake := false;
      fetch := FTop;
      FetchKeeps(config, before, FetchWake);
    }

    method OnNotify()
      requires Valid()
      modifies this
      ensures Valid() && View() == OtherStep(old(View()), Notify)
    {
      ghost var before := View();
      wake, notified := true, true;
      OtherKeeps(config, before, Notify);
    }

    // ----- flushing a buffer -----

    method ReportOne(p: Pending, deleted: set<Lease>)
      requires inflight.unfinished > 0
      modifies this`stop, this`events, inflight
      ensures View() == TaskDone(Emit(old(View()), [FlushEvent(p, deleted)]), 1)
    {
      EmitMetric(FlushEvent(p, deleted));
      TaskDoneOnce();
    }

    method AbandonOne(m: Msg)
      requires inflight.unfinished > 0
      modifies this`stop, this`events, inflight
      ensures View() == TaskDone(Emit(old(View()), Abandon(m)), 1)
    {
      EmitDispatchAbandoned(m);
      TaskDoneOnce();
    }

    lemma NothingReported(s: Sub)
      requires s.stop.Joining? ==> s.unfinished != 0
      ensures TaskDone(Emit(s, []), 0) == s
    {
      LeakFree(s, []);
    }

    method ReportFlushed(buffer: seq<Pending>, deleted: set<Lease>)
      requires |buffer| <= inflight.unfinished && (stop.Joining? ==> inflight.unfinished != 0)
      modifies this`stop, this`events, inflight
      ensures View() == TaskDone(Emit(old(View()), FlushEvents(buffer, deleted)), |buffer|)
    {
      NothingReported(View());
      for k := 0 to |buffer|
        invariant View() == TaskDone(Emit(old(View()), FlushEvents(buffer[..k], deleted)), k)
      {
        FlushEventsSnoc(buffer, k, deleted);
        OneMoreRow(old(View()), FlushEvents(buffer[..k], deleted), k, [FlushEvent(buffer[k], deleted)]);
        ReportOne(buffer[k], deleted);
      }
      assert buffer[..|buffer|] == buffer;
    }

    method ReportUnflushed(buffer: seq<Pending>)
      requires |buffer| <= inflight.unfinished && (stop.Joining? ==> inflight.unfinished != 0)
      modifies this`stop, this`events, inflight
      ensures View() == TaskDone(Emit(old(View()), AbandonAll(buffer)), |buffer|)
    {
      NothingReported(View());
      for k := 0 to |buffer|
        invariant View() == TaskDone(Emit(old(View()), AbandonAll(buffer[..k])), k)
      {
        AbandonAllSnoc(buffer, k);
        OneMoreRow(old(View()), AbandonAll(buffer[..k]), k, Abandon(buffer[k].m));
        AbandonOne(buffer[k].m);
      }
      assert buffer[..|buffer|] == buffer;
    }

    /** The answer of a batched delete: one event and one task_done per row, then the buffer is cleared. */
    method FlushAnswer(i: nat)
      requires Valid() && WorkerEnabled(config, View(), FlushReply(i))
      modifies this, inflight
      ensures Valid() && View() == WorkerStep(config, old(View()), FlushReply(i))
    {
      ghost var before := View();
      HeldIsUnfinished(config, before, i);
      var w := workers[i];
      ReportFlushed(w.buffer, w.pc.deleted.value);
      workers := workers[i := w.(pc := Onward(w.pc.after), buffer := [])];
      assert View() == FlushAnswered(before, i);
      WorkerKeeps(config, before, FlushReply(i));
    }

    /** A flush that raised: every row is abandoned to its lease and balanced before the error goes on. */
    method FlushError(i: nat)
      requires Valid() && WorkerEnabled(config, View(), FlushFails(i))
      modifies this, inflight
      ensures Valid() && View() == WorkerStep(config, old(View()), FlushFails(i))
    {
      ghost var before := View();
      HeldIsUnfinished(config, before, i);
      var w := workers[i];
      ReportUnflushed(w.buffer);
      workers := workers[i := w.(pc := if w.pc.after.ToDone? then Done else Down, buffer := [])];
      assert View() == FlushFailed(before, i);
      WorkerKeeps(config, before, FlushFails(i));
    }

    // ----- a worker -----

    /** After every dispatch: flush a full or ageing buffer, else back to the top. */
    method Park(i: nat, w: Worker)
      requires i < |workers|
      modifies this`workers
      ensures View() == Put(old(View()), i, AfterDispatch(config, w, mono))
    {
      if w.buffer != [] && (|w.buffer| >= config.flushBatch || mono - w.buffer[0].m.claimedAt >= config.ttl / 2.0) {
        workers := workers[i := w.(pc := Flushing(ToTop, None), checked := mono)];
      } else {
        workers := workers[i := w.(pc := Top, checked := mono)];
      }
    }

    /** Buffer a batchable terminal delete, or send it inline. */
    method BufferOrWrite(i: nat, w: Worker, m: Msg, kind: Kind, mayBuffer: bool)
      requires i < |workers|
      modifies this`workers
      ensures View() == Put(old(View()), i, FlushOrBuffer(config, w, mono, m, kind, mayBuffer))
    {
      if mayBuffer && config.flushBatch > 1 && !(m.outcome.Some? && m.outcome.value.Terminal? && config.dlq) {
        Park(i, w.(buffer := w.buffer + [Pending(m, kind)]));
      } else {
        workers := workers[i := w.(pc := Writing(m, kind, None))];
      }
    }

    method PutRowBack(i: nat)
      requires i < |workers| && inflight.items != [] && |inflight.items| <= inflight.maxsize && inflight.unfinished >= 0
      modifies this, inflight
      ensures View() == PutBack(old(View()), i)
    {
      var w := workers[i];
      var row := inflight.GetNowait();
      inflight.PutNowait(row);
      TaskDoneOnce();
      returned := returned + {LeaseHeld(row)};
      workers := workers[i := w.(pc := if w.buffer != [] then Flushing(ToInvalidate, None) else Invalidating)];
    }

    method Dequeue() returns (row: Msg)
      requires inflight.items != [] && inflight.maxsize == config.batchSize
      modifies this`wake, inflight
      ensures row == old(inflight.items)[0] && View() == Dequeued(config, old(View()))
    {
      row := inflight.GetNowait();
      if inflight.maxsize - |inflight.items| >= RefillAt(config) {
        wake := true;
      }
    }

    method TakeAny(i: nat)
      requires i < |workers| && inflight.items != [] && inflight.maxsize == config.batchSize
      requires |inflight.items| <= inflight.maxsize && inflight.unfinished >= 0
      modifies this, inflight
      ensures View() == Take(config, old(View()), i)
    {
      if config.pooled && generation != workers[i].generation {
        PutRowBack(i);
      } else {
        var w := workers[i];
        var row := Dequeue();
        if !Message.Allowed(row, config.maxDeliveries) {
          BufferOrWrite(i, w, Block(row), NackedTerminal, true);
        } else {
          EmitMetric(Dispatched(row.row));
          workers := workers[i := w.(pc := Handling(row))];
        }
      }
    }

    lemma CountIsNat(c: Config, s: Sub)
      requires Inv(c, s)
      ensures s.unfinished >= 0 && |s.queue| <= c.batchSize
    {
    }

    /** A row leaves the queue: put back by a stale writer, stopped by its delivery limit, or dispatched. */
    method TakeSegment(i: nat)
      requires Valid() && WorkerEnabled(config, View(), TakeRow(i))
      modifies this, inflight
      ensures Valid() && View() == WorkerStep(config, old(View()), TakeRow(i))
    {
      CountIsNat(config, View());
      ghost var before := View();
      TakeAny(i);
      WorkerKeeps(config, before, TakeRow(i));
    }

    /** An inline row is finished. */
    method Finish(i: nat, w: Worker)
      requires i < |workers| && inflight.unfinished > 0
      modifies this`workers, this`stop, inflight
      ensures View() == Settle(config, old(View()), i, w, [])
    {
      LeakFree(View(), []);
      TaskDoneOnce();
      Park(i, w);
    }

    method WriteRecorded(i: nat, w: Worker, m: Msg, now: real, v: Verdict, mayBuffer: bool)
      requires i < |workers| && inflight.unfinished > 0
      modifies this, inflight
      ensures View() == WriteOutcome(config, old(View()), i, w, m, now, v, mayBuffer)
    {
      if m.outcome.None? && !running {
        EmitDispatchAbandoned(m);
        Finish(i, w);
        LeakFree(Emit(old(View()), Abandon(m)), []);
      } else {
        var sent := AssertStateSet(m, now, v);
        match sent.outcome.value {
          case Terminal(_) => BufferOrWrite(i, w, sent, NackedTerminal, mayBuffer);
          case Retry(_) => workers := workers[i := w.(pc := Writing(sent, NackedRetried, None))];
          case Ack => BufferOrWrite(i, w, sent, Acked, mayBuffer);
        }
      }
    }

    /** The handler returned, or raised a configuration error after recording its outcome. */
    method HandledSegment(l: Label)
      requires (l.Returned? || l.Misconfigured?) && Valid() && WorkerEnabled(config, View(), l)
      modifies this, inflight
      ensures Valid() && View() == WorkerStep(config, old(View()), l)
    {
      HeldIsUnfinished(config, View(), l.i);
      ghost var before := View();
      var w := workers[l.i];
      WriteRecorded(l.i, w, Timed(ApplyAll(w.pc.m, l.calls)), l.now, l.verdict, l.Returned?);
      WorkerKeeps(config, before, l);
    }

    /** The answer of an inline write: its event, or the lost lease. */
    method ReportWrite(m: Msg, kind: Kind, ok: bool)
      modifies this`events
      ensures View() == Emit(old(View()), InlineEvents(config, m, kind, ok))
    {
      if !ok {
        EmitMetric(Metrics.Outcome(LeaseLost, m.row, m.timed));
      } else {
        if kind.NackedTerminal? && config.dlq {
          EmitMetric(DlqWritten(m.row));
        }
        EmitMetric(Metrics.Outcome(kind, m.row, m.timed));
      }
    }

    method WriteAnswer(i: nat)
      requires Valid() && WorkerEnabled(config, View(), WriteReply(i))
      modifies this, inflight
      ensures Valid() && View() == WorkerStep(config, old(View()), WriteReply(i))
    {
      HeldIsUnfinished(config, View(), i);
      ghost var before := View();
      var w := workers[i];
      ReportWrite(w.pc.m, w.pc.kind, w.pc.answer.value);
      LeakFree(View(), []);
      Finish(i, w);
      WorkerKeeps(config, before, WriteReply(i));
    }

    /** A write that raised: with a pooled connection the worker leaves to rebuild it. */
    method WriteError(i: nat)
      requires Valid() && WorkerEnabled(config, View(), WriteFails(i))
      modifies this, inflight
      ensures Valid() && View() == WorkerStep(config, old(View()), WriteFails(i))
    {
      HeldIsUnfinished(config, View(), i);
      ghost var before := View();
      var w := workers[i];
      EmitDispatchAbandoned(w.pc.m);
      if config.pooled {
        TaskDoneOnce();
        workers := workers[i := Leave(w, ToDown)];
      } else {
        LeakFree(View(), []);
        Finish(i, w);
      }
      WorkerKeeps(config, before, WriteFails(i));
    }

    // ----- stop() -----

    method StopCalled()
      requires Valid() && stop.Up?
      modifies this
      ensures Valid() && View() == OtherStep(old(View()), StopCall)
    {
      ghost var before := View();
      stopping, wake, stop := true, true, LockWait;
      OtherKeeps(config, before, StopCall);
    }

    /** The claim lock is free: join() returns at once when nothing is unfinished. */
    method StopPassedLock()
      requires Valid() && stop.LockWait? && !fetch.FFetching?
      modifies this
      ensures Valid() && View() == OtherStep(old(View()), StopLock)
    {
      ghost var before := View();
      stop := if inflight.unfinished == 0 then Joined else Joining;
      OtherKeeps(config, before, StopLock);
    }

    /** join() returned in time, and nothing is left in memory. */
    method StopDrained()
      requires Valid() && stop.Joined?
      modifies this
      ensures Valid() && View() == OtherStep(old(View()), StopJoined)
      ensures inflight.items == [] && inflight.unfinished == 0
    {
      ghost var before := View();
      CountIsNat(config, before);
      running, stop := false, Closing(true);
      OtherKeeps(config, before, StopJoined);
    }
  }
}
