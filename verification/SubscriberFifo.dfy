// Claim order in memory: apart from rows a stale writer put back, every worker meets rows in the order they
// were claimed, so the age of a buffer's oldest row bounds the age of all of those.

module SubscriberFifo {
  import opened Prelude
  import opened Rows
  import opened LeaseTable
  import opened Message
  import opened Metrics
  import opened Subscriber
  import opened SubscriberBalance
  import opened SubscriberShape
  import opened SubscriberRuns

  /** When a row in memory was claimed. */
  datatype Stamp = Stamp(lease: Lease, at: real)

  function StampOf(m: Msg): Stamp { Stamp(LeaseHeld(m), m.claimedAt) }

  function Hand(w: Worker): Option<Stamp> {
    if w.pc.Handling? || w.pc.Writing? then Some(StampOf(w.pc.m)) else None
  }

  /** A row behind another was not claimed before it, unless it was put back. */
  predicate Ordered(a: Stamp, b: Stamp, returned: set<Lease>) { b.lease in returned || a.at <= b.at }

  ghost predicate BufferSorted(b: seq<Pending>, returned: set<Lease>) {
    forall i, j :: 0 <= i < j < |b| ==> Ordered(StampOf(b[i].m), StampOf(b[j].m), returned)
  }

  ghost predicate QueueSorted(q: seq<Msg>, returned: set<Lease>) {
    forall i, j :: 0 <= i < j < |q| ==> Ordered(StampOf(q[i]), StampOf(q[j]), returned)
  }

  ghost predicate NoneLater(b: seq<Pending>, x: Stamp, returned: set<Lease>) {
    forall p :: p in b ==> Ordered(StampOf(p.m), x, returned)
  }

  ghost predicate NoneEarlier(q: seq<Msg>, x: Stamp, returned: set<Lease>) {
    forall m :: m in q ==> Ordered(x, StampOf(m), returned)
  }

  /** Buffer, then hand, then queue. */
  ghost predicate InLine(w: Worker, q: seq<Msg>, returned: set<Lease>) {
    && BufferSorted(w.buffer, returned)
    && (forall m :: m in q ==> NoneLater(w.buffer, StampOf(m), returned))
    && (Hand(w).Some? ==> NoneLater(w.buffer, Hand(w).value, returned) && NoneEarlier(q, Hand(w).value, returned))
  }

  ghost predicate UpTo(w: Worker, t: real) {
    (forall p :: p in w.buffer ==> p.m.claimedAt <= t) && (Hand(w).Some? ==> Hand(w).value.at <= t)
  }

  ghost predicate Fifo(s: Sub) {
    && QueueSorted(s.queue, s.returned)
    && (forall m :: m in s.queue ==> m.claimedAt <= s.mono)
    && (forall i :: 0 <= i < |s.workers| ==> InLine(s.workers[i], s.queue, s.returned) && UpTo(s.workers[i], s.mono))
  }

  // ----- pieces -----

  /** Finishing the row in hand, or the whole buffer, keeps the line. */
  lemma LineShrinks(w: Worker, w': Worker, q: seq<Msg>, returned: set<Lease>, t: real)
    requires InLine(w, q, returned) && UpTo(w, t)
    requires w'.buffer == w.buffer || w'.buffer == []
    requires Hand(w') == Hand(w) || Hand(w').None?
    ensures InLine(w', q, returned) && UpTo(w', t)
  {
  }

  ghost predicate Next(w: Worker, q: seq<Msg>, returned: set<Lease>, x: Stamp, t: real) {
    && BufferSorted(w.buffer, returned) && NoneLater(w.buffer, x, returned) && NoneEarlier(q, x, returned)
    && (forall m :: m in q ==> NoneLater(w.buffer, StampOf(m), returned))
    && (forall p :: p in w.buffer ==> p.m.claimedAt <= t) && x.at <= t
  }

  /** The row in hand stays there or becomes the last of the buffer. */
  lemma LineBuffers(
    c: Config, w: Worker, q: seq<Msg>, returned: set<Lease>, mono: real, m: Msg, kind: Kind, mayBuffer: bool)
    requires Next(w, q, returned, StampOf(m), mono)
    ensures InLine(FlushOrBuffer(c, w, mono, m, kind, mayBuffer), q, returned)
    ensures UpTo(FlushOrBuffer(c, w, mono, m, kind, mayBuffer), mono)
  {
  }

  lemma OutcomeInLine(c: Config, w: Worker, q: seq<Msg>, returned: set<Lease>, mono: real, m: Msg, mayBuffer: bool)
    requires Next(w, q, returned, StampOf(m), mono) && m.outcome.Some?
    ensures InLine(ByOutcome(c, w, mono, m, mayBuffer), q, returned) && UpTo(ByOutcome(c, w, mono, m, mayBuffer), mono)
  {
    if !m.outcome.value.Retry? {
      LineBuffers(c, w, q, returned, mono, m, if m.outcome.value.Ack? then Acked else NackedTerminal, mayBuffer);
    }
  }

  lemma HandlingInLine(w: Worker, q: seq<Msg>, returned: set<Lease>, m: Msg, mono: real)
    requires Next(w, q, returned, StampOf(m), mono)
    ensures InLine(w.(pc := Handling(m)), q, returned) && UpTo(w.(pc := Handling(m)), mono)
  {
  }

  lemma LineDequeues(w: Worker, q: seq<Msg>, returned: set<Lease>)
    requires InLine(w, q, returned) && q != []
    ensures InLine(w, q[1..], returned)
  {
  }

  lemma HeadFirst(q: seq<Msg>, returned: set<Lease>)
    requires q != [] && QueueSorted(q, returned)
    ensures NoneEarlier(q[1..], StampOf(q[0]), returned) && QueueSorted(q[1..], returned)
  {
  }

  /** The head of the queue is what the worker meets next. */
  lemma HeadIsNext(w: Worker, q: seq<Msg>, returned: set<Lease>, t: real)
    requires InLine(w, q, returned) && q != [] && QueueSorted(q, returned) && UpTo(w, t) && q[0].claimedAt <= t
    ensures Next(w, q[1..], returned, StampOf(q[0]), t)
  {
    HeadFirst(q, returned);
    LineDequeues(w, q, returned);
  }

  // ----- worker steps that put nothing back -----

  lemma TakeInLine(c: Config, s: Sub, i: nat)
    requires Fifo(s) && i < |s.workers| && s.workers[i].pc.Top? && s.queue != [] && !Stale(c, s, i)
    ensures var s' := Take(c, s, i);
            && s'.queue == s.queue[1..] && s'.returned == s.returned
            && InLine(s'.workers[i], s'.queue, s.returned) && UpTo(s'.workers[i], s.mono)
  {
    var w, m := s.workers[i], s.queue[0];
    HeadIsNext(w, s.queue, s.returned, s.mono);
    if Message.Allowed(m, c.maxDeliveries) {
      HandlingInLine(w, s.queue[1..], s.returned, m, s.mono);
    } else {
      LineBuffers(c, w, s.queue[1..], s.returned, s.mono, Block(m), NackedTerminal, true);
    }
  }

  ghost predicate Shrinks(s: Sub, s': Sub, i: nat)
    requires i < |s.workers| && i < |s'.workers|
  {
    var w, w' := s.workers[i], s'.workers[i];
    && s'.queue == s.queue && s'.returned == s.returned
    && (w'.buffer == w.buffer || w'.buffer == [])
    && (Hand(w') == Hand(w) || Hand(w').None?)
  }

  lemma QuietShrinks(c: Config, s: Sub, l: Label)
    requires (IsQuiet(l) || l.WriteRuns? || l.FlushRuns?) && WorkerEnabled(c, s, l)
    ensures Shrinks(s, WorkerStep(c, s, l), l.i)
  {
  }

  lemma PutShrinks(s: Sub, t: Sub, i: nat, w: Worker)
    requires i < |s.workers| && t.workers == s.workers && t.queue == s.queue && t.returned == s.returned
    requires (w.buffer == s.workers[i].buffer || w.buffer == []) && Hand(w).None?
    ensures Shrinks(s, Put(t, i, w), i)
  {
  }

  lemma SettleShrinks(c: Config, s: Sub, i: nat, es: seq<Event>)
    requires i < |s.workers|
    ensures Shrinks(s, Settle(c, s, i, s.workers[i], es), i)
  {
    PutShrinks(s, TaskDone(Emit(s, es), 1), i, AfterDispatch(c, s.workers[i], s.mono));
  }

  lemma WriteShrinks(c: Config, s: Sub, l: Label)
    requires (l.Escaped? || l.WriteReply? || l.WriteFails?) && WorkerEnabled(c, s, l)
    ensures Shrinks(s, WorkerStep(c, s, l), l.i)
  {
    var w := s.workers[l.i];
    if l.Escaped? { SettleShrinks(c, s, l.i, Abandon(Timed(w.pc.m))); }
    else if l.WriteReply? { SettleShrinks(c, s, l.i, InlineEvents(c, w.pc.m, w.pc.kind, w.pc.answer.value)); }
    else if c.pooled { PutShrinks(s, TaskDone(Emit(s, Abandon(w.pc.m)), 1), l.i, Leave(w, ToDown)); }
    else { SettleShrinks(c, s, l.i, Abandon(w.pc.m)); }
  }

  lemma FlushShrinks(c: Config, s: Sub, l: Label)
    requires (l.FlushReply? || l.FlushFails?) && WorkerEnabled(c, s, l)
    ensures Shrinks(s, WorkerStep(c, s, l), l.i)
  {
  }

  lemma CancelShrinks(c: Config, s: Sub, i: nat)
    requires i < |s.workers|
    ensures Shrinks(s, Subscriber.Cancelled(s, i), i)
  {
    var w := s.workers[i];
    match w.pc
    case Handling(m) =>
      PutShrinks(s, TaskDone(s.(leaked := s.leaked + [m.row]), 1), i, Leave(w, ToDone));
    case Writing(m, _, _) => PutShrinks(s, TaskDone(Emit(s, Abandon(m)), 1), i, Leave(w, ToDone));
    case Flushing(_, _) =>
      PutShrinks(s, TaskDone(Emit(s, AbandonAll(w.buffer)), |w.buffer|), i, w.(pc := Done, buffer := []));
    case Top => PutShrinks(s, s, i, Leave(w, ToDone));
    case _ => PutShrinks(s, s, i, w.(pc := Done));
  }

  lemma RestShrinks(c: Config, s: Sub, l: Label)
    requires IsWorkerStep(l) && WorkerEnabled(c, s, l) && !l.TakeRow? && !l.Returned? && !l.Misconfigured?
    ensures Shrinks(s, WorkerStep(c, s, l), l.i)
  {
    if l.Cancel? { CancelShrinks(c, s, l.i); }
    else if l.FlushReply? || l.FlushFails? { FlushShrinks(c, s, l); }
    else if l.WriteReply? || l.WriteFails? || l.Escaped? { WriteShrinks(c, s, l); }
    else { QuietShrinks(c, s, l); }
  }

  lemma OutcomeFollows(c: Config, s: Sub, i: nat, m: Msg, mayBuffer: bool)
    requires Fifo(s) && i < |s.workers| && Hand(s.workers[i]) == Some(StampOf(m)) && m.outcome.Some?
    ensures var w' := ByOutcome(c, s.workers[i], s.mono, m, mayBuffer);
            InLine(w', s.queue, s.returned) && UpTo(w', s.mono)
  {
    OutcomeInLine(c, s.workers[i], s.queue, s.returned, s.mono, m, mayBuffer);
  }

  lemma HandledInLine(c: Config, s: Sub, l: Label)
    requires Fifo(s) && (l.Returned? || l.Misconfigured?) && WorkerEnabled(c, s, l)
    ensures var s' := WorkerStep(c, s, l);
            && s'.queue == s.queue && s'.returned == s.returned
            && InLine(s'.workers[l.i], s.queue, s.returned) && UpTo(s'.workers[l.i], s.mono)
  {
    var w := s.workers[l.i];
    CallsKeepRow(w.pc.m, l.calls);
    var m := Timed(ApplyAll(w.pc.m, l.calls));
    if m.outcome.None? && !s.running {
      SettleShrinks(c, s, l.i, Abandon(m));
      LineShrinks(w, WorkerStep(c, s, l).workers[l.i], s.queue, s.returned, s.mono);
    } else {
      OutcomeFollows(c, s, l.i, AssertStateSet(m, l.now, l.verdict), l.Returned?);
    }
  }

  predicate PutsBack(c: Config, s: Sub, l: Label)
    requires IsWorkerStep(l) && WorkerEnabled(c, s, l)
  {
    l.TakeRow? && Stale(c, s, l.i)
  }

  lemma WorkerInLine(c: Config, s: Sub, l: Label)
    requires Fifo(s) && IsWorkerStep(l) && WorkerEnabled(c, s, l) && !PutsBack(c, s, l)
    ensures var s' := WorkerStep(c, s, l);
            && (s'.queue == s.queue || (s.queue != [] && s'.queue == s.queue[1..])) && s'.returned == s.returned
            && InLine(s'.workers[l.i], s'.queue, s.returned) && UpTo(s'.workers[l.i], s.mono)
  {
    if l.TakeRow? {
      TakeInLine(c, s, l.i);
    } else if l.Returned? || l.Misconfigured? {
      HandledInLine(c, s, l);
    } else {
      RestShrinks(c, s, l);
      LineShrinks(s.workers[l.i], WorkerStep(c, s, l).workers[l.i], s.queue, s.returned, s.mono);
    }
  }

  lemma LinesKept(s: Sub, s': Sub, i: nat)
    requires Fifo(s) && i < |s.workers| && |s'.workers| == |s.workers| && s'.mono == s.mono && s'.returned == s.returned
    requires s'.workers == s.workers[i := s'.workers[i]]
    requires s'.queue == s.queue || (s.queue != [] && s'.queue == s.queue[1..])
    requires InLine(s'.workers[i], s'.queue, s.returned) && UpTo(s'.workers[i], s.mono)
    ensures Fifo(s')
  {
    if s.queue != [] { HeadFirst(s.queue, s.returned); }
    forall j | 0 <= j < |s'.workers|
      ensures InLine(s'.workers[j], s'.queue, s.returned) && UpTo(s'.workers[j], s.mono)
    {
      if j != i {
        assert s'.workers[j] == s.workers[j];
        if s'.queue != s.queue { LineDequeues(s.workers[j], s.queue, s.returned); }
      }
    }
  }

  // ----- a put-back -----

  /** The row goes to the end of every line, and from there on is exempt. */
  lemma RotatedInLine(w: Worker, q: seq<Msg>, returned: set<Lease>)
    requires InLine(w, q, returned) && q != []
    ensures InLine(w, q[1..] + [q[0]], returned + {LeaseHeld(q[0])})
  {
  }

  lemma RotatedSorted(q: seq<Msg>, returned: set<Lease>)
    requires QueueSorted(q, returned) && q != []
    ensures QueueSorted(q[1..] + [q[0]], returned + {LeaseHeld(q[0])})
  {
  }

  lemma PutBackFifo(s: Sub, i: nat)
    requires Fifo(s) && i < |s.workers| && s.queue != [] && s.workers[i].pc.Top?
    ensures Fifo(PutBack(s, i))
  {
    var s' := PutBack(s, i);
    RotatedSorted(s.queue, s.returned);
    forall m | m in s'.queue ensures m.claimedAt <= s.mono { assert m in s.queue; }
    forall j | 0 <= j < |s'.workers|
      ensures InLine(s'.workers[j], s'.queue, s'.returned) && UpTo(s'.workers[j], s.mono)
    {
      RotatedInLine(s.workers[j], s.queue, s.returned);
      LineShrinks(s.workers[j], s'.workers[j], s'.queue, s'.returned, s.mono);
    }
  }

  // ----- every step -----

  lemma WorkerFifo(c: Config, s: Sub, l: Label)
    requires Inv(c, s) && Fifo(s) && IsWorkerStep(l) && WorkerEnabled(c, s, l)
    ensures Fifo(WorkerStep(c, s, l))
  {
    if PutsBack(c, s, l) {
      PutBackFifo(s, l.i);
    } else {
      WorkerInLine(c, s, l);
      FreshUntimed(s);
      WorkerMoves(c, s, l, Unit());
      WorkerFramed(c, s, l);
      LinesKept(s, WorkerStep(c, s, l), l.i);
    }
  }

  /** Rows arrive stamped with the present, so they go to the end of every line. */
  lemma ArrivalsLast(s: Sub, rows: seq<Row>)
    requires Fifo(s)
    ensures Fifo(s.(queue := s.queue + Arrived(rows, s.mono)))
  {
    var q := s.queue + Arrived(rows, s.mono);
    forall m | m in q ensures m.claimedAt <= s.mono && (m !in s.queue ==> m.claimedAt == s.mono) {
      if m !in s.queue { assert m in Arrived(rows, s.mono); }
    }
  }

  lemma FetchFifo(c: Config, s: Sub, l: Label)
    requires Fifo(s) && IsFetchStep(l) && FetchEnabled(s, l)
    ensures Fifo(FetchStep(c, s, l))
  {
    if l.FetchReply? {
      ArrivalsLast(s, s.fetch.rows.value);
    }
  }

  lemma OtherFifo(s: Sub, l: Label)
    requires Fifo(s) && !IsWorkerStep(l) && !IsFetchStep(l) && OtherEnabled(s, l)
    ensures Fifo(OtherStep(s, l))
  {
  }

  lemma StepIsFifo(c: Config, s: Sub, l: Label)
    requires Inv(c, s) && Fifo(s) && Enabled(c, s, l)
    ensures Fifo(Step(c, s, l))
  {
    if IsWorkerStep(l) { WorkerFifo(c, s, l); }
    else if IsFetchStep(l) { FetchFifo(c, s, l); }
    else { OtherFifo(s, l); }
  }

  lemma FirstIsFifo(c: Config, ss: seq<Sub>, ls: seq<Label>)
    requires Run(c, ss, ls)
    ensures Fifo(ss[0])
  {
    var n: nat :| ss[0] == Initial(n);
    InitialRests(n);
  }

  lemma LaterIsFifo(c: Config, ss: seq<Sub>, ls: seq<Label>, i: nat)
    requires ValidConfig(c) && Run(c, ss, ls) && i < |ls| && Fifo(ss[i])
    ensures Fifo(ss[i + 1])
  {
    RunKeeps(c, ss, ls, i, Unit());
    assert StepAt(c, ss, ls, i);
    StepIsFifo(c, ss[i], ls[i]);
  }

  lemma {:induction false} RunIsFifo(c: Config, ss: seq<Sub>, ls: seq<Label>, i: nat)
    requires ValidConfig(c) && Run(c, ss, ls) && i <= |ls|
    ensures Fifo(ss[i])
  {
    if i == 0 {
      FirstIsFifo(c, ss, ls);
    } else {
      RunIsFifo(c, ss, ls, i - 1);
      LaterIsFifo(c, ss, ls, i - 1);
    }
  }

  ghost predicate Young(c: Config, w: Worker, p: Pending) { w.checked - p.m.claimedAt < c.ttl / 2.0 }

  /** At the top of the loop every buffered row that no stale writer put back was claimed less than half a
      lease before the last check. */
  lemma BufferIsYoung(c: Config, s: Sub, i: nat, p: Pending)
    requires ValidConfig(c) && Reachable(c, s) && i < |s.workers| && s.workers[i].pc.Top?
    requires p in s.workers[i].buffer && LeaseHeld(p.m) !in s.returned
    ensures Young(c, s.workers[i], p)
  {
    var ss, ls :| Run(c, ss, ls) && ss[|ls|] == s;
    RunIsFifo(c, ss, ls, |ls|);
    BuffersAreBounded(c, s, i);
    var j :| 0 <= j < |s.workers[i].buffer| && s.workers[i].buffer[j] == p;
    assert j > 0 ==> Ordered(StampOf(s.workers[i].buffer[0].m), StampOf(p.m), s.returned);
  }
}
