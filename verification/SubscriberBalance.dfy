// Conservation laws of one subscriber step, for any weight on claimed rows: where every dispatched and
// every claimed row is, and what the unfinished count measures.

module SubscriberBalance {
  import opened Prelude
  import opened Rows
  import opened LeaseTable
  import opened Message
  import opened Metrics
  import opened Subscriber

  type Weight = Row -> nat

  function OnMsg(g: Weight): Msg -> nat { (m: Msg) => g(m.row) }

  function OnPending(g: Weight): Pending -> nat { (p: Pending) => g(p.m.row) }

  function TimedWeight(g: Weight, m: Msg): nat { if m.timed then g(m.row) else 0 }

  function OnTimed(g: Weight): Pending -> nat { (p: Pending) => TimedWeight(g, p.m) }

  /** Rows in a worker's hand and buffer. */
  ghost function HeldBy(w: Worker, g: Weight): nat {
    InHand(w, g) + Sum(w.buffer, OnPending(g))
  }

  function InHand(w: Worker, g: Weight): nat {
    if w.pc.Handling? || w.pc.Writing? then g(w.pc.m.row) else 0
  }

  /** Dispatches a worker has not closed yet. */
  ghost function OpenOf(w: Worker, g: Weight): nat {
    OpenInHand(w, g) + Sum(w.buffer, OnTimed(g))
  }

  function OpenInHand(w: Worker, g: Weight): nat {
    if w.pc.Handling? || (w.pc.Writing? && w.pc.m.timed) then g(w.pc.m.row) else 0
  }

  ghost function HeldWeight(g: Weight): Worker -> nat { (w: Worker) => HeldBy(w, g) }

  ghost function OpenWeightOf(g: Weight): Worker -> nat { (w: Worker) => OpenOf(w, g) }

  ghost function Queued(s: Sub, g: Weight): nat { Sum(s.queue, OnMsg(g)) }

  ghost function Held(s: Sub, g: Weight): nat { Sum(s.workers, HeldWeight(g)) }

  ghost function StillOpen(s: Sub, g: Weight): nat { Sum(s.workers, OpenWeightOf(g)) }

  ghost function Arriving(s: Sub, g: Weight): nat {
    if s.fetch.FFetching? && s.fetch.rows.Some? then Sum(s.fetch.rows.value, g) else 0
  }

  /** Every dispatch is closed, still open, or was cancelled inside the handler; nothing is dispatched, or
      held in memory, more often than it was claimed. */
  ghost predicate Balanced(s: Sub, g: Weight) {
    && Opened(s.events, g) == Closed(s.events, g) + StillOpen(s, g) + Sum(s.leaked, g)
    && Opened(s.events, g) + Queued(s, g) + Arriving(s, g) <= Sum(s.landed, g)
    && Queued(s, g) + Arriving(s, g) + Held(s, g) <= Sum(s.landed, g)
  }

  /** The unfinished count is the rows queued, in workers' hands and in workers' buffers. */
  ghost predicate Accounted(s: Sub) {
    s.unfinished == Queued(s, Unit()) + Held(s, Unit())
  }

  /** At every point of the event stream, closings never outrun dispatches. */
  ghost predicate InOrder(es: seq<Event>, g: Weight) {
    forall k :: 0 <= k <= |es| ==> Closed(es[..k], g) <= Opened(es[..k], g)
  }

  // ----- what a worker step must balance locally -----

  ghost predicate Local(s: Sub, s': Sub, i: nat, g: Weight) {
    && i < |s.workers|
    && s'.fetch == s.fetch && s'.landed == s.landed
    && |s'.workers| == |s.workers| && s'.workers == s.workers[i := s'.workers[i]]
    && Queued(s', g) + HeldBy(s'.workers[i], g) <= Queued(s, g) + HeldBy(s.workers[i], g)
    && Opened(s'.events, g) + Queued(s', g) <= Opened(s.events, g) + Queued(s, g)
    && Opened(s'.events, g) + Closed(s.events, g) + OpenOf(s.workers[i], g) + Sum(s.leaked, g)
       == Opened(s.events, g) + Closed(s'.events, g) + OpenOf(s'.workers[i], g) + Sum(s'.leaked, g)
  }

  ghost predicate Counts(s: Sub, s': Sub, i: nat) {
    i < |s.workers| && i < |s'.workers| &&
    s'.unfinished - s.unfinished
      == (Queued(s', Unit()) + HeldBy(s'.workers[i], Unit())) - (Queued(s, Unit()) + HeldBy(s.workers[i], Unit()))
  }

  lemma LocalBalances(s: Sub, s': Sub, i: nat, g: Weight)
    requires Balanced(s, g) && Local(s, s', i, g)
    ensures Balanced(s', g)
  {
    SumUpdate(s.workers, i, s'.workers[i], HeldWeight(g));
    SumUpdate(s.workers, i, s'.workers[i], OpenWeightOf(g));
  }

  lemma LocalAccounts(s: Sub, s': Sub, i: nat)
    requires Accounted(s) && Local(s, s', i, Unit()) && Counts(s, s', i)
    ensures Accounted(s')
  {
    SumUpdate(s.workers, i, s'.workers[i], HeldWeight(Unit()));
  }

  // ----- events -----

  lemma AbandonWeight(m: Msg, g: Weight)
    ensures Opened(Abandon(m), g) == 0 && Closed(Abandon(m), g) == if m.timed then g(m.row) else 0
  {
    if m.timed { EmitOne(Abandon(m)[0], g); }
  }

  lemma {:induction false} AbandonAllWeight(ps: seq<Pending>, g: Weight)
    ensures Opened(AbandonAll(ps), g) == 0 && Closed(AbandonAll(ps), g) == Sum(ps, OnTimed(g))
  {
    if ps != [] {
      AbandonAllWeight(ps[1..], g);
      AbandonWeight(ps[0].m, g);
      EmitMany(Abandon(ps[0].m), AbandonAll(ps[1..]), g);
    }
  }

  lemma InlineWeight(c: Config, m: Msg, kind: Kind, ok: bool, g: Weight)
    ensures var es := InlineEvents(c, m, kind, ok);
            Opened(es, g) == 0 && Closed(es, g) == if m.timed then g(m.row) else 0
  {
    var es := InlineEvents(c, m, kind, ok);
    if ok && kind.NackedTerminal? && c.dlq {
      EmitOne(es[0], g);
      EmitOne(es[1], g);
      EmitMany([es[0]], [es[1]], g);
      assert es == [es[0]] + [es[1]];
    } else {
      EmitOne(es[0], g);
      assert es == [es[0]];
    }
  }

  lemma {:induction false} FlushWeight(ps: seq<Pending>, deleted: set<Lease>, g: Weight)
    ensures Opened(FlushEvents(ps, deleted), g) == 0 && Closed(FlushEvents(ps, deleted), g) == Sum(ps, OnTimed(g))
  {
    if ps != [] {
      var e := FlushEvents(ps, deleted)[0];
      FlushWeight(ps[1..], deleted, g);
      EmitOne(e, g);
      EmitMany([e], FlushEvents(ps[1..], deleted), g);
    }
  }

  // ----- the pieces of a step -----

  lemma {:induction false} CallsKeepRow(m: Msg, cs: seq<Call>)
    ensures ApplyAll(m, cs).row == m.row && ApplyAll(m, cs).timed == m.timed && ApplyAll(m, cs).claimedAt == m.claimedAt
    decreases |cs|
  {
    if cs != [] { CallsKeepRow(Apply(m, cs[0]), cs[1..]); }
  }

  /** Finishing an inline row: its hold is released and its dispatch, if any, is closed. */
  lemma SettleMoves(c: Config, s: Sub, i: nat, m: Msg, es: seq<Event>, g: Weight)
    requires i < |s.workers| && (s.workers[i].pc.Handling? || s.workers[i].pc.Writing?)
    requires s.workers[i].pc.m.row == m.row
    requires s.workers[i].pc.Handling? ==> m.timed
    requires s.workers[i].pc.Writing? ==> s.workers[i].pc.m.timed == m.timed
    requires Opened(es, g) == 0 && Closed(es, g) == if m.timed then g(m.row) else 0
    ensures Local(s, Settle(c, s, i, s.workers[i], es), i, g)
    ensures Counts(s, Settle(c, s, i, s.workers[i], es), i)
  {
    EmitMany(s.events, es, g);
  }

  lemma LeaveMoves(s: Sub, i: nat, m: Msg, target: After, es: seq<Event>, g: Weight)
    requires i < |s.workers| && s.workers[i].pc.Writing? && s.workers[i].pc.m == m
    requires target.ToDown? || target.ToDone?
    requires Opened(es, g) == 0 && Closed(es, g) == if m.timed then g(m.row) else 0
    ensures var s' := Put(TaskDone(Emit(s, es), 1), i, Leave(s.workers[i], target));
            Local(s, s', i, g) && Counts(s, s', i)
  {
    EmitMany(s.events, es, g);
  }

  lemma BufferAppend(ps: seq<Pending>, p: Pending, g: Weight)
    ensures Sum(ps + [p], OnPending(g)) == Sum(ps, OnPending(g)) + g(p.m.row)
    ensures Sum(ps + [p], OnTimed(g)) == Sum(ps, OnTimed(g)) + TimedWeight(g, p.m)
  {
    SumAppend(ps, [p], OnPending(g));
    SumAppend(ps, [p], OnTimed(g));
    SumOne(p, OnPending(g));
    SumOne(p, OnTimed(g));
  }

  lemma RestingWorker(c: Config, w: Worker, mono: real, g: Weight)
    ensures HeldBy(AfterDispatch(c, w, mono), g) == Sum(w.buffer, OnPending(g))
    ensures OpenOf(AfterDispatch(c, w, mono), g) == Sum(w.buffer, OnTimed(g))
  {
  }

  /** A handled or blocked row goes to the buffer or to an inline write: either way it stays held, and open
      if it was dispatched. */
  lemma BufferKeeps(c: Config, w: Worker, mono: real, m: Msg, kind: Kind, mayBuffer: bool, g: Weight)
    ensures var w' := FlushOrBuffer(c, w, mono, m, kind, mayBuffer);
            && HeldBy(w', g) == g(m.row) + Sum(w.buffer, OnPending(g))
            && OpenOf(w', g) == TimedWeight(g, m) + Sum(w.buffer, OnTimed(g))
  {
    BufferAppend(w.buffer, Pending(m, kind), g);
    RestingWorker(c, w.(buffer := w.buffer + [Pending(m, kind)]), mono, g);
  }

  lemma OutcomeKeeps(c: Config, w: Worker, mono: real, m: Msg, mayBuffer: bool, g: Weight)
    requires m.outcome.Some?
    ensures var w' := ByOutcome(c, w, mono, m, mayBuffer);
            && HeldBy(w', g) == g(m.row) + Sum(w.buffer, OnPending(g))
            && OpenOf(w', g) == TimedWeight(g, m) + Sum(w.buffer, OnTimed(g))
  {
    if !m.outcome.value.Retry? {
      BufferKeeps(c, w, mono, m, if m.outcome.value.Ack? then Acked else NackedTerminal, mayBuffer, g);
    }
  }

  lemma WriteOutcomeMoves(c: Config, s: Sub, i: nat, m: Msg, now: real, v: Verdict, mayBuffer: bool, g: Weight)
    requires i < |s.workers| && s.workers[i].pc.Handling? && s.workers[i].pc.m.row == m.row && m.timed
    ensures Local(s, WriteOutcome(c, s, i, s.workers[i], m, now, v, mayBuffer), i, g)
    ensures Counts(s, WriteOutcome(c, s, i, s.workers[i], m, now, v, mayBuffer), i)
  {
    if m.outcome.None? && !s.running {
      AbandonWeight(m, g);
      AbandonWeight(m, Unit());
      SettleMoves(c, s, i, m, Abandon(m), g);
    } else {
      OutcomeKeeps(c, s.workers[i], s.mono, AssertStateSet(m, now, v), mayBuffer, g);
      OutcomeKeeps(c, s.workers[i], s.mono, AssertStateSet(m, now, v), mayBuffer, Unit());
    }
  }

  lemma QueueHead(q: seq<Msg>, g: Weight)
    requires q != []
    ensures Sum(q, OnMsg(g)) == g(q[0].row) + Sum(q[1..], OnMsg(g))
    ensures Sum(q[1..] + [q[0]], OnMsg(g)) == Sum(q, OnMsg(g))
  {
    SumAppend(q[1..], [q[0]], OnMsg(g));
    SumOne(q[0], OnMsg(g));
  }

  lemma PutBackMoves(s: Sub, i: nat, g: Weight)
    requires i < |s.workers| && s.queue != [] && s.workers[i].pc.Top?
    ensures Local(s, PutBack(s, i), i, g) && Counts(s, PutBack(s, i), i)
  {
    QueueHead(s.queue, g);
    QueueHead(s.queue, Unit());
  }

  lemma BlockMoves(c: Config, s: Sub, i: nat, g: Weight)
    requires i < |s.workers| && s.queue != [] && s.workers[i].pc.Top? && !s.queue[0].timed
    ensures var s' := Put(Dequeued(c, s), i,
                          FlushOrBuffer(c, s.workers[i], s.mono, Block(s.queue[0]), NackedTerminal, true));
            Local(s, s', i, g) && Counts(s, s', i)
  {
    QueueHead(s.queue, g);
    QueueHead(s.queue, Unit());
    BufferKeeps(c, s.workers[i], s.mono, Block(s.queue[0]), NackedTerminal, true, g);
    BufferKeeps(c, s.workers[i], s.mono, Block(s.queue[0]), NackedTerminal, true, Unit());
  }

  lemma DispatchMoves(c: Config, s: Sub, i: nat, g: Weight)
    requires i < |s.workers| && s.queue != [] && s.workers[i].pc.Top?
    ensures var m := s.queue[0];
            var s' := Put(Emit(Dequeued(c, s), [Dispatched(m.row)]), i, s.workers[i].(pc := Handling(m)));
            Local(s, s', i, g) && Counts(s, s', i)
  {
    QueueHead(s.queue, g);
    QueueHead(s.queue, Unit());
    EmitOne(Dispatched(s.queue[0].row), g);
    EmitMany(s.events, [Dispatched(s.queue[0].row)], g);
  }

  lemma TakeMoves(c: Config, s: Sub, i: nat, g: Weight)
    requires i < |s.workers| && s.queue != [] && s.workers[i].pc.Top? && !s.queue[0].timed
    ensures Local(s, Take(c, s, i), i, g) && Counts(s, Take(c, s, i), i)
  {
    if Stale(c, s, i) {
      PutBackMoves(s, i, g);
    } else if !Message.Allowed(s.queue[0], c.maxDeliveries) {
      BlockMoves(c, s, i, g);
    } else {
      DispatchMoves(c, s, i, g);
    }
  }

  // ----- every step -----

  lemma BufferOut(s: Sub, i: nat, es: seq<Event>, next: Pc, g: Weight)
    requires i < |s.workers| && s.workers[i].pc.Flushing?
    requires Opened(es, g) == 0 && Closed(es, g) == Sum(s.workers[i].buffer, OnTimed(g))
    requires !next.Handling? && !next.Writing?
    ensures var s' := Put(TaskDone(Emit(s, es), |s.workers[i].buffer|), i, s.workers[i].(pc := next, buffer := []));
            Local(s, s', i, g) && Counts(s, s', i)
  {
    EmitMany(s.events, es, g);
    SumLength(s.workers[i].buffer, OnPending(Unit()));
  }

  lemma FlushFailedMoves(s: Sub, i: nat, g: Weight)
    requires i < |s.workers| && s.workers[i].pc.Flushing?
    ensures Local(s, FlushFailed(s, i), i, g) && Counts(s, FlushFailed(s, i), i)
  {
    AbandonAllWeight(s.workers[i].buffer, g);
    BufferOut(s, i, AbandonAll(s.workers[i].buffer), FlushFailed(s, i).workers[i].pc, g);
  }

  lemma FlushAnsweredMoves(s: Sub, i: nat, g: Weight)
    requires i < |s.workers| && s.workers[i].pc.Flushing? && s.workers[i].pc.deleted.Some?
    ensures Local(s, FlushAnswered(s, i), i, g) && Counts(s, FlushAnswered(s, i), i)
  {
    FlushWeight(s.workers[i].buffer, s.workers[i].pc.deleted.value, g);
    BufferOut(s, i, FlushEvents(s.workers[i].buffer, s.workers[i].pc.deleted.value),
              FlushAnswered(s, i).workers[i].pc, g);
  }

  predicate EmptyHanded(pc: Pc) { !pc.Handling? && !pc.Writing? }

  /** Moving between waits that hold no row in hand. */
  lemma QuietMoves(s: Sub, i: nat, w': Worker, g: Weight)
    requires i < |s.workers| && EmptyHanded(s.workers[i].pc) && EmptyHanded(w'.pc) && w'.buffer == s.workers[i].buffer
    ensures Local(s, Put(s, i, w'), i, g) && Counts(s, Put(s, i, w'), i)
  {
  }

  lemma LeakMoves(s: Sub, i: nat, m: Msg, g: Weight)
    requires i < |s.workers| && s.workers[i].pc == Handling(m)
    ensures var s' := Put(TaskDone(s.(leaked := s.leaked + [m.row]), 1), i, Leave(s.workers[i], ToDone));
            Local(s, s', i, g) && Counts(s, s', i)
  {
    SumAppend(s.leaked, [m.row], g);
    SumOne(m.row, g);
  }

  lemma CancelMoves(s: Sub, i: nat, g: Weight)
    requires i < |s.workers| && !s.workers[i].pc.Done?
    ensures Local(s, Cancelled(s, i), i, g) && Counts(s, Cancelled(s, i), i)
  {
    var w := s.workers[i];
    if w.pc.Handling? {
      LeakMoves(s, i, w.pc.m, g);
    } else if w.pc.Writing? {
      AbandonWeight(w.pc.m, g);
      LeaveMoves(s, i, w.pc.m, ToDone, Abandon(w.pc.m), g);
    } else if w.pc.Flushing? {
      AbandonAllWeight(w.buffer, g);
      BufferOut(s, i, AbandonAll(w.buffer), Done, g);
    } else {
      QuietMoves(s, i, Cancelled(s, i).workers[i], g);
    }
  }

  lemma WriteFailsMoves(c: Config, s: Sub, i: nat, g: Weight)
    requires i < |s.workers| && s.workers[i].pc.Writing?
    ensures Local(s, WorkerStep(c, s, WriteFails(i)), i, g) && Counts(s, WorkerStep(c, s, WriteFails(i)), i)
  {
    var m := s.workers[i].pc.m;
    AbandonWeight(m, g);
    if c.pooled { LeaveMoves(s, i, m, ToDown, Abandon(m), g); } else { SettleMoves(c, s, i, m, Abandon(m), g); }
  }

  lemma AnswerMoves(c: Config, s: Sub, l: Label, g: Weight)
    requires (l.WriteRuns? || l.FlushRuns?) && WorkerEnabled(c, s, l)
    ensures Local(s, WorkerStep(c, s, l), l.i, g) && Counts(s, WorkerStep(c, s, l), l.i)
  {
    if l.FlushRuns? { QuietMoves(s, l.i, WorkerStep(c, s, l).workers[l.i], g); }
  }

  predicate IsQuiet(l: Label) {
    l.Open? || l.IdleFlush? || l.LeaveLoop? || l.Invalidated?
  }

  lemma QuietStepMoves(c: Config, s: Sub, l: Label, g: Weight)
    requires IsWorkerStep(l) && IsQuiet(l) && WorkerEnabled(c, s, l)
    ensures Local(s, WorkerStep(c, s, l), l.i, g) && Counts(s, WorkerStep(c, s, l), l.i)
  {
    QuietMoves(s, l.i, WorkerStep(c, s, l).workers[l.i], g);
  }

  lemma HandledMoves(c: Config, s: Sub, l: Label, g: Weight)
    requires (l.Returned? || l.Misconfigured? || l.Escaped?) && WorkerEnabled(c, s, l)
    ensures Local(s, WorkerStep(c, s, l), l.i, g) && Counts(s, WorkerStep(c, s, l), l.i)
  {
    var i, w := l.i, s.workers[l.i];
    if l.Escaped? {
      AbandonWeight(Timed(w.pc.m), g);
      AbandonWeight(Timed(w.pc.m), Unit());
      SettleMoves(c, s, i, Timed(w.pc.m), Abandon(Timed(w.pc.m)), g);
    } else {
      CallsKeepRow(w.pc.m, l.calls);
      WriteOutcomeMoves(c, s, i, Timed(ApplyAll(w.pc.m, l.calls)), l.now, l.verdict, l.Returned?, g);
    }
  }

  lemma ReplyMoves(c: Config, s: Sub, i: nat, g: Weight)
    requires WorkerEnabled(c, s, WriteReply(i))
    ensures Local(s, WorkerStep(c, s, WriteReply(i)), i, g) && Counts(s, WorkerStep(c, s, WriteReply(i)), i)
  {
    var pc := s.workers[i].pc;
    InlineWeight(c, pc.m, pc.kind, pc.answer.value, g);
    SettleMoves(c, s, i, pc.m, InlineEvents(c, pc.m, pc.kind, pc.answer.value), g);
  }

  /** Every worker step balances locally. */
  lemma WorkerMoves(c: Config, s: Sub, l: Label, g: Weight)
    requires IsWorkerStep(l) && WorkerEnabled(c, s, l)
    requires forall m :: m in s.queue ==> !m.timed
    ensures Local(s, WorkerStep(c, s, l), l.i, g) && Counts(s, WorkerStep(c, s, l), l.i)
  {
    match l
    case TakeRow(i) => TakeMoves(c, s, i, g);
    case Returned(_, _, _, _) => HandledMoves(c, s, l, g);
    case Misconfigured(_, _, _, _) => HandledMoves(c, s, l, g);
    case Escaped(_) => HandledMoves(c, s, l, g);
    case WriteRuns(_, _) => AnswerMoves(c, s, l, g);
    case WriteReply(i) => ReplyMoves(c, s, i, g);
    case WriteFails(i) => WriteFailsMoves(c, s, i, g);
    case FlushRuns(_, _) => AnswerMoves(c, s, l, g);
    case FlushReply(i) => FlushAnsweredMoves(s, i, g);
    case FlushFails(i) => FlushFailedMoves(s, i, g);
    case Cancel(i) => CancelMoves(s, i, g);
    case _ => QuietStepMoves(c, s, l, g);
  }

  lemma {:induction false} ArrivedWeight(rows: seq<Row>, mono: real, g: Weight)
    ensures Sum(Arrived(rows, mono), OnMsg(g)) == Sum(rows, g)
  {
    if rows != [] {
      ArrivedWeight(rows[1..], mono, g);
      assert Arrived(rows, mono)[1..] == Arrived(rows[1..], mono);
    }
  }

  lemma ReplyArrives(c: Config, s: Sub, g: Weight)
    requires FetchEnabled(s, FetchReply) && Balanced(s, g)
    ensures Balanced(FetchStep(c, s, FetchReply), g)
  {
    var rows := s.fetch.rows.value;
    ArrivedWeight(rows, s.mono, g);
    SumAppend(s.queue, Arrived(rows, s.mono), OnMsg(g));
    EmitOne(Fetched(|rows|), g);
    EmitMany(s.events, [Fetched(|rows|)], g);
  }

  lemma ClaimArrives(c: Config, s: Sub, rows: seq<Row>, g: Weight)
    requires FetchEnabled(s, FetchRuns(rows)) && Balanced(s, g)
    ensures Balanced(FetchStep(c, s, FetchRuns(rows)), g)
  {
    SumAppend(s.landed, rows, g);
  }

  /** A step that leaves the rows and events alone, and at most drops a fetch's unanswered rows. */
  lemma NothingMoves(s: Sub, s': Sub, g: Weight)
    requires Balanced(s, g)
    requires s'.queue == s.queue && s'.workers == s.workers && s'.events == s.events
    requires s'.leaked == s.leaked && s'.landed == s.landed
    requires Arriving(s', g) <= Arriving(s, g)
    ensures Balanced(s', g)
  {
  }

  lemma FetchFrame(c: Config, s: Sub, l: Label)
    requires IsFetchStep(l) && FetchEnabled(s, l) && !l.FetchRuns? && !l.FetchReply?
    ensures var s' := FetchStep(c, s, l);
            && s'.queue == s.queue && s'.workers == s.workers && s'.events == s.events
            && s'.leaked == s.leaked && s'.landed == s.landed && !(s'.fetch.FFetching? && s'.fetch.rows.Some?)
  {
  }

  lemma FetchMoves(c: Config, s: Sub, l: Label, g: Weight)
    requires IsFetchStep(l) && FetchEnabled(s, l) && Balanced(s, g)
    ensures Balanced(FetchStep(c, s, l), g)
  {
    if l.FetchRuns? {
      ClaimArrives(c, s, l.rows, g);
    } else if l.FetchReply? {
      ReplyArrives(c, s, g);
    } else {
      var s' := FetchStep(c, s, l);
      FetchFrame(c, s, l);
      NothingMoves(s, s', g);
    }
  }

  lemma FetchAccounts(c: Config, s: Sub, l: Label)
    requires IsFetchStep(l) && FetchEnabled(s, l) && Accounted(s)
    ensures Accounted(FetchStep(c, s, l))
  {
    if l.FetchReply? {
      var rows := s.fetch.rows.value;
      ArrivedWeight(rows, s.mono, Unit());
      SumLength(rows, Unit());
      SumAppend(s.queue, Arrived(rows, s.mono), OnMsg(Unit()));
    }
  }

  ghost predicate Resting(w: Worker) { w.buffer == [] && !w.pc.Handling? && !w.pc.Writing? }

  lemma {:induction false} RestingHoldNothing(ws: seq<Worker>, g: Weight)
    requires forall w :: w in ws ==> Resting(w)
    ensures Sum(ws, HeldWeight(g)) == 0 && Sum(ws, OpenWeightOf(g)) == 0
  {
    if ws != [] {
      assert ws[0] in ws;
      RestingHoldNothing(ws[1..], g);
    }
  }

  lemma RestartMoves(s: Sub, g: Weight)
    requires OtherEnabled(s, Start) && Balanced(s, g) && forall w :: w in s.workers ==> Resting(w)
    ensures Balanced(OtherStep(s, Start), g)
  {
    RestingHoldNothing(s.workers, g);
    RestingHoldNothing(OtherStep(s, Start).workers, g);
  }

  lemma TimeoutMoves(s: Sub, g: Weight)
    requires OtherEnabled(s, StopTimeout) && Balanced(s, g)
    ensures Balanced(OtherStep(s, StopTimeout), g)
  {
    EmitOne(DrainTimedOut, g);
    EmitMany(s.events, [DrainTimedOut], g);
  }

  lemma OtherMoves(s: Sub, l: Label, g: Weight)
    requires !IsWorkerStep(l) && !IsFetchStep(l) && OtherEnabled(s, l) && Balanced(s, g)
    requires l.StopEnd? || l.Start? ==> forall w :: w in s.workers ==> Resting(w)
    ensures Balanced(OtherStep(s, l), g)
  {
    if l.StopTimeout? {
      TimeoutMoves(s, g);
    } else if l.Start? {
      RestartMoves(s, g);
    } else if !l.StopEnd? {
      NothingMoves(s, OtherStep(s, l), g);
    }
  }

  lemma OtherAccounts(s: Sub, l: Label)
    requires !IsWorkerStep(l) && !IsFetchStep(l) && OtherEnabled(s, l) && Accounted(s)
    requires l.StopEnd? || l.Start? ==> forall w :: w in s.workers ==> Resting(w)
    ensures Accounted(OtherStep(s, l))
  {
    if l.StopEnd? || l.Start? {
      RestingHoldNothing(s.workers, Unit());
      RestingHoldNothing(OtherStep(s, l).workers, Unit());
    }
  }
}
