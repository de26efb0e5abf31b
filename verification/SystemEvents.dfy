// The event stream tells the truth: a subscriber reports a row acked, rescheduled or terminally failed only
// when that very write landed at the database, and no claim is ever reported so twice.

module SystemEvents {
  import opened Prelude
  import opened Rows
  import Ordering
  import opened LeaseTable
  import opened TableLaws
  import opened History
  import opened Message
  import opened Metrics
  import opened Subscriber
  import opened SubscriberBalance
  import opened SubscriberShape
  import opened ClaimLaws
  import opened FlushLaws
  import opened OutboxSystem
  import Database
  import Runs = DatabaseRuns
  import SubRuns = SubscriberRuns
  import opened SystemRuns

  predicate Success(k: Kind) { k.Acked? || k.NackedRetried? || k.NackedTerminal? }

  function KindOf(o: Rows.Outcome): Kind {
    match o case Ack => Kind.Acked case Retry(_) => NackedRetried case Terminal(_) => NackedTerminal
  }

  /** A landed write of one claim, as the event that may report it. */
  predicate Wrote(e: Entry, l: Lease, k: Kind) {
    match e
    case Removed(id, token, outcome, _, _, _) => Lease(id, Some(token)) == l && KindOf(outcome) == k
    case Rescheduled(id, token, _, _, _, _) => Lease(id, Some(token)) == l && k.NackedRetried?
    case _ => false
  }

  function WroteWeight(l: Lease, k: Kind): Entry -> nat { (e: Entry) => if Wrote(e, l, k) then 1 else 0 }

  ghost function Written(log: seq<Entry>, l: Lease, k: Kind): nat { Sum(log, WroteWeight(l, k)) }

  function ToldWeight(l: Lease, k: Kind): Event -> nat {
    (e: Event) => if e.Outcome? && e.kind == k && LeaseOf(e.row) == l then 1 else 0
  }

  ghost function Told(es: seq<Event>, l: Lease, k: Kind): nat { Sum(es, ToldWeight(l, k)) }

  function DueWeight(l: Lease, k: Kind, landed: bool): Pending -> nat {
    (p: Pending) => if landed && p.kind == k && LeaseHeld(p.m) == l then 1 else 0
  }

  /** Answers a worker has received a landed write for but not reported yet. */
  ghost function DueOf(w: Worker, l: Lease, k: Kind): nat {
    match w.pc
    case Writing(m, kind, answer) => if answer == Some(true) && kind == k && LeaseHeld(m) == l then 1 else 0
    case Flushing(_, deleted) => if deleted.Some? then Sum(w.buffer, DueWeight(l, k, l in deleted.value)) else 0
    case _ => 0
  }

  ghost function DueWorker(l: Lease, k: Kind): Worker -> nat { (w: Worker) => DueOf(w, l, k) }

  ghost function Reports(s: Sub, l: Lease, k: Kind): nat { Told(s.events, l, k) + Sum(s.workers, DueWorker(l, k)) }

  ghost function ReportsOf(l: Lease, k: Kind): Sub -> nat { (s: Sub) => Reports(s, l, k) }

  ghost predicate True(st: State, l: Lease, k: Kind) {
    Sum(st.subs, ReportsOf(l, k)) <= Written(st.w.log, l, k)
  }

  // ----- what a worker step reports -----

  lemma {:induction false} AbandonsTellNothing(ps: seq<Pending>, l: Lease, k: Kind)
    requires Success(k)
    ensures Told(AbandonAll(ps), l, k) == 0
  {
    if ps != [] {
      AbandonsTellNothing(ps[1..], l, k);
      AbandonTellsNothing(ps[0].m, l, k);
      SumAppend(Abandon(ps[0].m), AbandonAll(ps[1..]), ToldWeight(l, k));
    }
  }

  lemma AbandonTellsNothing(m: Msg, l: Lease, k: Kind)
    requires Success(k)
    ensures Told(Abandon(m), l, k) == 0
  {
    if m.timed { SumOne(Metrics.Outcome(DispatchAbandoned, m.row, true), ToldWeight(l, k)); }
  }

  lemma {:induction false} FlushTells(ps: seq<Pending>, deleted: set<Lease>, l: Lease, k: Kind)
    requires Success(k)
    ensures Told(FlushEvents(ps, deleted), l, k) == Sum(ps, DueWeight(l, k, l in deleted))
  {
    if ps != [] {
      FlushTells(ps[1..], deleted, l, k);
      var e := FlushEvents(ps, deleted)[0];
      SumAppend([e], FlushEvents(ps[1..], deleted), ToldWeight(l, k));
      SumOne(e, ToldWeight(l, k));
    }
  }

  lemma InlineTells(c: Subscriber.Config, m: Msg, kind: Kind, ok: bool, l: Lease, k: Kind)
    requires Success(k)
    ensures Told(InlineEvents(c, m, kind, ok), l, k) == if ok && kind == k && LeaseHeld(m) == l then 1 else 0
  {
    var es, f := InlineEvents(c, m, kind, ok), ToldWeight(l, k);
    if ok && kind.NackedTerminal? && c.dlq {
      assert es == [es[0]] + [es[1]];
      SumAppend([es[0]], [es[1]], f);
      SumOne(es[0], f);
      SumOne(es[1], f);
    } else {
      assert es == [es[0]];
      SumOne(es[0], f);
    }
  }

  lemma OpenTells(r: Row, l: Lease, k: Kind)
    ensures Told([Dispatched(r)], l, k) == 0 && Told([], l, k) == 0
  {
    SumOne(Dispatched(r), ToldWeight(l, k));
  }

  /** What a worker emits was due: an answered write or flush reports what landed, anything else nothing. */
  lemma EmittedWasDue(c: Subscriber.Config, s: Sub, a: Label, l: Lease, k: Kind)
    requires IsWorkerStep(a) && WorkerEnabled(c, s, a) && Success(k)
    ensures Told(SubRuns.Emitted(c, s, a), l, k) <= DueOf(s.workers[a.i], l, k)
  {
    var w := s.workers[a.i];
    if a.WriteReply? {
      InlineTells(c, w.pc.m, w.pc.kind, w.pc.answer.value, l, k);
    } else if a.FlushReply? {
      FlushTells(w.buffer, w.pc.deleted.value, l, k);
    } else {
      OthersTellNothing(c, s, a, l, k);
    }
  }

  lemma OthersTellNothing(c: Subscriber.Config, s: Sub, a: Label, l: Lease, k: Kind)
    requires IsWorkerStep(a) && WorkerEnabled(c, s, a) && Success(k) && !a.WriteReply? && !a.FlushReply?
    ensures Told(SubRuns.Emitted(c, s, a), l, k) == 0
  {
    var w := s.workers[a.i];
    if a.TakeRow? {
      OpenTells(s.queue[0].row, l, k);
    } else if a.Returned? || a.Misconfigured? {
      AbandonTellsNothing(Timed(ApplyAll(w.pc.m, a.calls)), l, k);
    } else if a.Escaped? {
      AbandonTellsNothing(Timed(w.pc.m), l, k);
    } else if w.pc.Writing? {
      AbandonTellsNothing(w.pc.m, l, k);
    } else {
      AbandonsTellNothing(w.buffer, l, k);
    }
  }

  predicate NothingDue(w: Worker) {
    match w.pc
    case Writing(_, _, answer) => answer.None?
    case Flushing(_, deleted) => deleted.None?
    case _ => true
  }

  lemma SettledDue(c: Subscriber.Config, w: Worker, mono: real, m: Msg, mayBuffer: bool)
    ensures NothingDue(AfterDispatch(c, w, mono)) && NothingDue(Leave(w, ToDone)) && NothingDue(Leave(w, ToDown))
    ensures NothingDue(FlushOrBuffer(c, w, mono, m, NackedTerminal, mayBuffer))
    ensures m.outcome.Some? ==> NothingDue(ByOutcome(c, w, mono, m, mayBuffer))
  {
  }

  lemma HandledDue(c: Subscriber.Config, s: Sub, a: Label)
    requires (a.Returned? || a.Misconfigured?) && WorkerEnabled(c, s, a)
    ensures NothingDue(WorkerStep(c, s, a).workers[a.i])
  {
    var w := s.workers[a.i];
    var m := AssertStateSet(Timed(ApplyAll(w.pc.m, a.calls)), a.now, a.verdict);
    SettledDue(c, w, s.mono, m, a.Returned?);
  }

  lemma TakenDue(c: Subscriber.Config, s: Sub, i: nat)
    requires WorkerEnabled(c, s, TakeRow(i))
    ensures NothingDue(Take(c, s, i).workers[i])
  {
    SettledDue(c, s.workers[i], s.mono, Block(s.queue[0]), true);
  }

  lemma CancelledDue(c: Subscriber.Config, s: Sub, i: nat)
    requires i < |s.workers|
    ensures NothingDue(Subscriber.Cancelled(s, i).workers[i])
  {
    if s.workers[i].pc.Handling? || s.workers[i].pc.Writing? || s.workers[i].pc.Top? {
      assert Subscriber.Cancelled(s, i).workers[i] == Leave(s.workers[i], ToDone);
    }
  }

  lemma WrittenDue(c: Subscriber.Config, s: Sub, a: Label)
    requires (a.WriteReply? || a.WriteFails? || a.Escaped?) && WorkerEnabled(c, s, a)
    ensures NothingDue(WorkerStep(c, s, a).workers[a.i])
  {
  }

  lemma FlushedDue(c: Subscriber.Config, s: Sub, a: Label)
    requires (a.FlushReply? || a.FlushFails?) && WorkerEnabled(c, s, a)
    ensures NothingDue(WorkerStep(c, s, a).workers[a.i])
  {
  }

  lemma QuietDue(c: Subscriber.Config, s: Sub, a: Label)
    requires IsQuiet(a) && WorkerEnabled(c, s, a)
    ensures NothingDue(WorkerStep(c, s, a).workers[a.i])
  {
  }

  lemma StepLeavesNothingDue(c: Subscriber.Config, s: Sub, a: Label)
    requires IsWorkerStep(a) && Silent(a) && WorkerEnabled(c, s, a)
    ensures NothingDue(WorkerStep(c, s, a).workers[a.i])
  {
    if a.TakeRow? { TakenDue(c, s, a.i); }
    else if a.Returned? || a.Misconfigured? { HandledDue(c, s, a); }
    else if a.Cancel? { CancelledDue(c, s, a.i); }
    else if a.FlushReply? || a.FlushFails? { FlushedDue(c, s, a); }
    else if a.WriteReply? || a.WriteFails? || a.Escaped? { WrittenDue(c, s, a); }
    else { QuietDue(c, s, a); }
  }

  // ----- steps that run no statement report nothing new -----

  lemma WorkerReports(c: Subscriber.Config, s: Sub, a: Label, l: Lease, k: Kind)
    requires forall m :: m in s.queue ==> IsFresh(m)
    requires IsWorkerStep(a) && Silent(a) && WorkerEnabled(c, s, a) && Success(k)
    ensures Reports(WorkerStep(c, s, a), l, k) <= Reports(s, l, k)
  {
    var s' := WorkerStep(c, s, a);
    SubRuns.FreshUntimed(s);
    WorkerMoves(c, s, a, Unit());
    SubRuns.EmitsAre(c, s, a);
    SumAppend(s.events, SubRuns.Emitted(c, s, a), ToldWeight(l, k));
    EmittedWasDue(c, s, a, l, k);
    StepLeavesNothingDue(c, s, a);
    SumUpdate(s.workers, a.i, s'.workers[a.i], DueWorker(l, k));
  }

  lemma OtherReports(c: Subscriber.Config, s: Sub, a: Label, l: Lease, k: Kind)
    requires !IsWorkerStep(a) && Subscriber.Enabled(c, s, a) && Success(k)
    ensures Reports(Subscriber.Step(c, s, a), l, k) <= Reports(s, l, k)
  {
    var s' := Subscriber.Step(c, s, a);
    if a.FetchReply? {
      SumAppend(s.events, [Fetched(|s.fetch.rows.value|)], ToldWeight(l, k));
      SumOne(Fetched(|s.fetch.rows.value|), ToldWeight(l, k));
    } else if a.StopTimeout? {
      SumAppend(s.events, [DrainTimedOut], ToldWeight(l, k));
      SumOne(DrainTimedOut, ToldWeight(l, k));
    } else if a.Start? {
      SumZero(s'.workers, DueWorker(l, k));
    }
  }

  // ----- statements: what they land and what is due for it -----

  ghost predicate LogGrows(w: Database.World, w': Database.World) { w.log <= w'.log }

  lemma {:induction false} PublishBatchLog(w: Database.World, qs: seq<Request>)
    ensures LogGrows(w, Database.PublishBatch(w, qs))
    decreases |qs|
  {
    if qs != [] { PublishBatchLog(Database.Publish(w, qs[0], None, Ignore), qs[1..]); }
  }

  lemma {:induction false} ClaimEachLog(w: Database.World, ks: seq<Ordering.Key>, token: nat, ttl: real)
    requires forall key :: key in ks ==> key.id in w.table.rows
    ensures LogGrows(w, Database.ClaimEach(w, ks, token, ttl))
    decreases |ks|
  {
    if ks != [] { ClaimEachLog(Database.ClaimOne(w, ks[0].id, token, ttl), ks[1..], token, ttl); }
  }

  lemma {:induction false} FinishAllLog(db: Database.Config, w: Database.World, ds: seq<Database.Done>)
    ensures LogGrows(w, Database.FinishAll(db, w, ds))
    decreases |ds|
  {
    if ds != [] {
      FinishAllLog(db, Database.Finish(db, w, ds[0].lease, ds[0].outcome, ds[0].exception), ds[1..]);
    }
  }

  lemma OpLog(db: Database.Config, w: Database.World, op: Runs.Op)
    requires Runs.Allowed(db, w, op)
    ensures LogGrows(w, Runs.Step(db, w, op))
  {
    match op
    case PublishBatch(qs) => PublishBatchLog(w, qs);
    case Fetch(queues, limit, ttl, locked, token) =>
      PickedAreClaimable(w.table, queues, limit, w.now, ttl, locked);
      ClaimEachLog(w, Picked(w.table, queues, limit, w.now, ttl, locked), token, ttl);
    case FinishAll(ds) => FinishAllLog(db, w, ds);
    case _ =>
  }

  lemma WrittenGrows(log: seq<Entry>, log': seq<Entry>, l: Lease, k: Kind)
    requires log <= log'
    ensures Written(log, l, k) <= Written(log', l, k)
  {
    assert log' == log + log'[|log|..];
    SumAppend(log, log'[|log|..], WroteWeight(l, k));
  }

  lemma WrittenOne(log: seq<Entry>, e: Entry, l: Lease, k: Kind)
    ensures Written(log + [e], l, k) == Written(log, l, k) + if Wrote(e, l, k) then 1 else 0
  {
    SumAppend(log, [e], WroteWeight(l, k));
    SumOne(e, WroteWeight(l, k));
  }

  /** An inline write that lands is one write of its claim, of the kind its event will name. */
  lemma InlineLands(db: Database.Config, w: Database.World, m: Msg, kind: Kind, note: Option<string>, l: Lease, k: Kind)
    requires KindFits(m, kind) && Success(k)
    ensures Written(WriteInline(db, w, m, note).log, l, k)
         == Written(w.log, l, k) + if Holds(w.table, LeaseHeld(m)) && kind == k && LeaseHeld(m) == l then 1 else 0
  {
    var held := LeaseHeld(m);
    if Holds(w.table, held) {
      WrittenOne(w.log, Final(WriteInline(db, w, m, note).log), l, k);
      assert WriteInline(db, w, m, note).log == w.log + [Final(WriteInline(db, w, m, note).log)];
    }
  }

  ghost predicate AtMostOne(ps: seq<Pending>, l: Lease) { Sum(ps, OnPending(OfLease(l))) <= 1 }

  lemma {:induction false} NoneDue(ps: seq<Pending>, l: Lease, k: Kind, landed: bool)
    requires Sum(ps, OnPending(OfLease(l))) == 0
    ensures Sum(ps, DueWeight(l, k, landed)) == 0
  {
    if ps != [] { NoneDue(ps[1..], l, k, landed); }
  }

  lemma OtherLeaseHolds(t: Table, a: Lease, l: Lease, now: real)
    requires a != l
    ensures Holds(Delete(t, a, None, now), l) <==> Holds(t, l)
  {
  }

  /** A flush lands one write for each lease it reports deleted. */
  lemma {:induction false} FlushLands(
    c: Subscriber.Config, db: Database.Config, w: Database.World, ps: seq<Pending>, l: Lease, k: Kind)
    requires c.dlq == db.dlq && Plain(c, ps) && Settled(ps) && AtMostOne(ps, l) && Success(k)
    ensures Written(w.log, l, k) + Sum(ps, DueWeight(l, k, Holds(w.table, l)))
         <= Written(WriteBatch(db, w, ps).log, l, k)
    decreases |ps|
  {
    if ps != [] {
      var p, rest := ps[0], ps[1..];
      var w1 := WriteInline(db, w, p.m, None);
      TailParts(ps);
      PlainHead(c, db, w, p);
      InlineLands(db, w, p.m, p.kind, None, l, k);
      FlushLands(c, db, w1, rest, l, k);
      if LeaseHeld(p.m) == l { NoneDue(rest, l, k, Holds(w.table, l)); }
      else { OtherLeaseHolds(w.table, LeaseHeld(p.m), l, w.now); }
    }
  }

  // ----- every step of the outbox -----

  lemma SubReports(st: State, k: nat, s': Sub, l: Lease, kind: Kind)
    requires k < |st.subs|
    ensures Sum(st.subs[k := s'], ReportsOf(l, kind)) + Reports(st.subs[k], l, kind)
         == Sum(st.subs, ReportsOf(l, kind)) + Reports(s', l, kind)
  {
    SumUpdate(st.subs, k, s', ReportsOf(l, kind));
  }

  lemma MoveTrue(u: Setup, st: State, a: Action, l: Lease, k: Kind)
    requires ValidSetup(u) && Kept(u, st, OfLease(l)) && OutboxSystem.Enabled(u, st, a) && True(st, l, k) && Success(k)
    requires a.Move?
    ensures True(OutboxSystem.Step(u, st, a), l, k)
  {
    var c, s := u.members[a.k].config, st.subs[a.k];
    assert SubOk(u, st.w, s, a.k);
    SubRuns.ReachableKeeps(c, s, Unit());
    if IsWorkerStep(a.l) { WorkerReports(c, s, a.l, l, k); } else { OtherReports(c, s, a.l, l, k); }
    SubReports(st, a.k, Subscriber.Step(c, s, a.l), l, k);
  }

  /** No two buffered rows of a worker carry the same lease. */
  lemma BufferHoldsOne(u: Setup, st: State, k: nat, i: nat, l: Lease)
    requires ValidSetup(u) && Kept(u, st, OfLease(l)) && k < |st.subs| && i < |st.subs[k].workers|
    ensures AtMostOne(st.subs[k].workers[i].buffer, l)
  {
    var s, g := st.subs[k], OfLease(l);
    assert SubOk(u, st.w, s, k);
    SubRuns.ReachableKeeps(u.members[k].config, s, g);
    Runs.ReachableKeeps(u.db, st.w);
    LeaseIssuedOnce(st.w.log, l);
    SumAtLeast(st.subs, k, LandedWeight(g));
    SumAtLeast(s.workers, i, HeldWeight(g));
  }

  lemma DeletedWereHeld(w: Database.World, ps: seq<Pending>, l: Lease, k: Kind)
    ensures Sum(ps, DueWeight(l, k, l in Deleted(w, ps))) <= Sum(ps, DueWeight(l, k, Holds(w.table, l)))
  {
    if l !in Deleted(w, ps) { SumZero(ps, DueWeight(l, k, false)); }
  }

  lemma WriteAnswered(c: Subscriber.Config, s: Sub, i: nat, ok: bool, l: Lease, k: Kind)
    requires WorkerEnabled(c, s, WriteRuns(i, ok))
    ensures Reports(WorkerStep(c, s, WriteRuns(i, ok)), l, k) == Reports(s, l, k) +
              if ok && s.workers[i].pc.kind == k && LeaseHeld(s.workers[i].pc.m) == l then 1 else 0
  {
    SumUpdate(s.workers, i, WorkerStep(c, s, WriteRuns(i, ok)).workers[i], DueWorker(l, k));
  }

  lemma FlushIsAnswered(c: Subscriber.Config, s: Sub, i: nat, gone: set<Lease>, l: Lease, k: Kind)
    requires WorkerEnabled(c, s, FlushRuns(i, gone))
    ensures Reports(WorkerStep(c, s, FlushRuns(i, gone)), l, k)
         == Reports(s, l, k) + Sum(s.workers[i].buffer, DueWeight(l, k, l in gone))
  {
    SumUpdate(s.workers, i, WorkerStep(c, s, FlushRuns(i, gone)).workers[i], DueWorker(l, k));
  }

  /** A statement lands at least what its worker will report for it. */
  lemma StatementLands(u: Setup, st: State, k: nat, i: nat, note: Option<string>, l: Lease, kind: Kind)
    requires ValidSetup(u) && Kept(u, st, OfLease(l)) && Success(kind) && k < |st.subs| && Sent(st.subs[k], i).Some?
    ensures var stmt, w, pc := Sent(st.subs[k], i).value, st.w, st.subs[k].workers[i].pc;
            Written(w.log, l, kind)
            + (match stmt
               case Inline(m) => if Holds(w.table, LeaseHeld(m)) && pc.kind == kind && LeaseHeld(m) == l then 1 else 0
               case Batch(ps) => Sum(ps, DueWeight(l, kind, l in Deleted(w, ps))))
            <= Written(RunStatement(u.db, w, stmt, note).log, l, kind)
  {
    var c, s, stmt := u.members[k].config, st.subs[k], Sent(st.subs[k], i).value;
    assert SubOk(u, st.w, s, k);
    SubRuns.ReachableKeeps(c, s, Unit());
    assert WorkerShape(c, s.workers[i]);
    if stmt.Inline? {
      InlineLands(u.db, st.w, stmt.m, s.workers[i].pc.kind, note, l, kind);
    } else {
      BufferHoldsOne(u, st, k, i, l);
      FlushLands(c, u.db, st.w, stmt.ps, l, kind);
      DeletedWereHeld(st.w, stmt.ps, l, kind);
    }
  }

  lemma ExecuteTrue(u: Setup, st: State, a: Action, l: Lease, k: Kind)
    requires ValidSetup(u) && Kept(u, st, OfLease(l)) && OutboxSystem.Enabled(u, st, a) && True(st, l, k) && Success(k)
    requires a.Execute?
    ensures True(OutboxSystem.Step(u, st, a), l, k)
  {
    var c, s, stmt := u.members[a.k].config, st.subs[a.k], Sent(st.subs[a.k], a.i).value;
    StatementLands(u, st, a.k, a.i, a.note, l, k);
    if stmt.Inline? {
      WriteAnswered(c, s, a.i, Holds(st.w.table, LeaseHeld(stmt.m)), l, k);
    } else {
      FlushIsAnswered(c, s, a.i, Deleted(st.w, stmt.ps), l, k);
    }
    SubReports(st, a.k, Subscriber.Step(c, s, Reply(st.w, a.i, stmt)), l, k);
  }

  lemma ClaimTrue(u: Setup, st: State, a: Action, l: Lease, k: Kind)
    requires OutboxSystem.Enabled(u, st, a) && True(st, l, k) && Success(k) && a.Claim?
    ensures True(OutboxSystem.Step(u, st, a), l, k)
  {
    var c, s, rows := u.members[a.k].config, st.subs[a.k], ClaimedRows(u, st, a);
    OpLog(u.db, st.w, Runs.Fetch(u.members[a.k].queues, s.fetch.free, c.ttl, a.locked, a.token));
    WrittenGrows(st.w.log, OutboxSystem.Step(u, st, a).w.log, l, k);
    OtherReports(c, s, FetchRuns(rows), l, k);
    SubReports(st, a.k, Subscriber.Step(c, s, FetchRuns(rows)), l, k);
  }

  lemma DatabaseTrue(u: Setup, st: State, a: Action, l: Lease, k: Kind)
    requires Kept(u, st, OfLease(l)) && OutboxSystem.Enabled(u, st, a) && True(st, l, k) && (a.Late? || a.Outside?)
    ensures True(OutboxSystem.Step(u, st, a), l, k)
  {
    if a.Late? {
      assert st.late[a.j] in st.late;
      StatementIsAllowed(u.db, st.w, st.late[a.j], a.note);
      OpLog(u.db, st.w, OpOf(st.late[a.j], a.note));
    } else {
      OpLog(u.db, st.w, a.op);
    }
    WrittenGrows(st.w.log, OutboxSystem.Step(u, st, a).w.log, l, k);
  }

  lemma StepTrue(u: Setup, st: State, a: Action, l: Lease, k: Kind)
    requires ValidSetup(u) && Kept(u, st, OfLease(l)) && OutboxSystem.Enabled(u, st, a) && True(st, l, k) && Success(k)
    ensures True(OutboxSystem.Step(u, st, a), l, k)
  {
    if a.Move? { MoveTrue(u, st, a, l, k); }
    else if a.Execute? { ExecuteTrue(u, st, a, l, k); }
    else if a.Claim? { ClaimTrue(u, st, a, l, k); }
    else { DatabaseTrue(u, st, a, l, k); }
  }

  lemma NewReportsNothing(n: nat, l: Lease, k: Kind)
    ensures Reports(Initial(n), l, k) == 0
  {
    SumZero(Initial(n).workers, DueWorker(l, k));
  }

  lemma FirstTrue(u: Setup, l: Lease, k: Kind)
    ensures True(First(u), l, k)
  {
    forall s | s in First(u).subs ensures ReportsOf(l, k)(s) == 0 {
      var i :| 0 <= i < |First(u).subs| && First(u).subs[i] == s;
      NewReportsNothing(u.members[i].workers, l, k);
    }
    SumZero(First(u).subs, ReportsOf(l, k));
  }

  lemma LaterTrue(u: Setup, sts: seq<State>, acts: seq<Action>, i: nat, l: Lease, k: Kind)
    requires ValidSetup(u) && OutboxSystem.Run(u, sts, acts) && i < |acts| && Success(k) && True(sts[i], l, k)
    ensures True(sts[i + 1], l, k)
  {
    RunKeeps(u, sts, acts, i, OfLease(l));
    assert OutboxSystem.StepAt(u, sts, acts, i);
    StepTrue(u, sts[i], acts[i], l, k);
  }

  lemma {:induction false} RunTrue(u: Setup, sts: seq<State>, acts: seq<Action>, i: nat, l: Lease, k: Kind)
    requires ValidSetup(u) && OutboxSystem.Run(u, sts, acts) && i <= |acts| && Success(k)
    ensures True(sts[i], l, k)
  {
    if i == 0 {
      FirstTrue(u, l, k);
    } else {
      RunTrue(u, sts, acts, i - 1, l, k);
      LaterTrue(u, sts, acts, i - 1, l, k);
    }
  }

  // ----- what the event stream guarantees -----

  lemma {:induction false} SumPositive(log: seq<Entry>, l: Lease, k: Kind) returns (i: nat)
    requires Written(log, l, k) >= 1
    ensures i < |log| && Wrote(log[i], l, k)
  {
    i := 0;
    if !Wrote(log[0], l, k) {
      var j := SumPositive(log[1..], l, k);
      i := j + 1;
    }
  }

  /** A success event is emitted only for a write that landed: the history holds that write, of that claim and
      of that kind. */
  lemma SuccessWasWritten(u: Setup, st: State, k: nat, e: Event) returns (i: nat)
    requires ValidSetup(u) && OutboxSystem.Reachable(u, st) && k < |st.subs|
    requires e in st.subs[k].events && e.Outcome? && Success(e.kind)
    ensures i < |st.w.log| && Wrote(st.w.log[i], LeaseOf(e.row), e.kind)
  {
    var l := LeaseOf(e.row);
    var sts, acts :| OutboxSystem.Run(u, sts, acts) && sts[|acts|] == st;
    RunTrue(u, sts, acts, |acts|, l, e.kind);
    var j :| 0 <= j < |st.subs[k].events| && st.subs[k].events[j] == e;
    SumAtLeast(st.subs[k].events, j, ToldWeight(l, e.kind));
    SumAtLeast(st.subs, k, ReportsOf(l, e.kind));
    i := SumPositive(st.w.log, l, e.kind);
  }

  ghost function Outcomes(log: seq<Entry>, l: Lease): nat {
    Written(log, l, Kind.Acked) + Written(log, l, NackedRetried) + Written(log, l, NackedTerminal)
  }

  lemma {:induction false} WrittenOnce(log: seq<Entry>, l: Lease)
    requires Legal(log)
    ensures Outcomes(log, l) <= 1
    decreases |log|
  {
    if log != [] {
      var before, e := Init(log), Final(log);
      WrittenOnce(before, l);
      assert log == before + [e];
      WrittenOne(before, e, l, Kind.Acked);
      WrittenOne(before, e, l, NackedRetried);
      WrittenOne(before, e, l, NackedTerminal);
      if IsWrite(e) && Lease(e.id, Some(e.token)) == l && Outcomes(before, l) == 1 {
        var k := if Written(before, l, Kind.Acked) == 1 then Kind.Acked
                 else if Written(before, l, NackedRetried) == 1 then NackedRetried else NackedTerminal;
        var i := SumPositive(before, l, k);
        OneWritePerClaim(log, i, |log| - 1);
      }
    }
  }

  ghost function ToldBy(l: Lease, k: Kind): Sub -> nat { (s: Sub) => Told(s.events, l, k) }

  /** Success events of one claim and kind, over all subscribers. */
  ghost function ToldTotal(st: State, l: Lease, k: Kind): nat { Sum(st.subs, ToldBy(l, k)) }

  lemma ToldIsWritten(u: Setup, st: State, l: Lease, k: Kind)
    requires ValidSetup(u) && OutboxSystem.Reachable(u, st) && Success(k)
    ensures ToldTotal(st, l, k) <= Written(st.w.log, l, k)
  {
    var sts, acts :| OutboxSystem.Run(u, sts, acts) && sts[|acts|] == st;
    RunTrue(u, sts, acts, |acts|, l, k);
    SumBelow(st.subs, ToldBy(l, k), ReportsOf(l, k));
  }

  /** No claim is reported twice as a success: not by one subscriber or two, not as one kind or two. */
  lemma SuccessReportedOnce(u: Setup, st: State, l: Lease)
    requires ValidSetup(u) && OutboxSystem.Reachable(u, st)
    ensures ToldTotal(st, l, Kind.Acked) + ToldTotal(st, l, NackedRetried) + ToldTotal(st, l, NackedTerminal) <= 1
  {
    ToldIsWritten(u, st, l, Kind.Acked);
    ToldIsWritten(u, st, l, NackedRetried);
    ToldIsWritten(u, st, l, NackedTerminal);
    ReachableKeeps(u, st, Unit());
    Runs.ReachableKeeps(u.db, st.w);
    WrittenOnce(st.w.log, l);
  }

  // ----- batching changes nothing, in any reachable state -----

  lemma BuffersAreDistinct(u: Setup, st: State, k: nat, i: nat)
    requires ValidSetup(u) && OutboxSystem.Reachable(u, st) && k < |st.subs| && i < |st.subs[k].workers|
    ensures DistinctLeases(st.subs[k].workers[i].buffer)
  {
    var ps := st.subs[k].workers[i].buffer;
    forall a, b | 0 <= a < b < |ps| ensures LeaseHeld(ps[a].m) != LeaseHeld(ps[b].m) {
      var l := LeaseHeld(ps[a].m);
      ReachableKeeps(u, st, OfLease(l));
      BufferHoldsOne(u, st, k, i, l);
      SumAtLeastTwo(ps, a, b, OnPending(OfLease(l)));
    }
  }

  lemma FlushIsPlain(u: Setup, st: State, k: nat, i: nat)
    requires ValidSetup(u) && OutboxSystem.Reachable(u, st) && k < |u.members| && k < |st.subs|
    requires i < |st.subs[k].workers|
    ensures Plain(u.members[k].config, st.subs[k].workers[i].buffer) && Settled(st.subs[k].workers[i].buffer)
  {
    ReachableKeeps(u, st, Unit());
    assert SubOk(u, st.w, st.subs[k], k);
    SubRuns.ReachableKeeps(u.members[k].config, st.subs[k], Unit());
    assert WorkerShape(u.members[k].config, st.subs[k].workers[i]);
  }

  /** Whenever a worker of the outbox flushes, the one DELETE leaves the database as the inline path would, and
      the events are the ones the inline path would emit row by row. */
  lemma FlushesAreInline(u: Setup, st: State, k: nat, i: nat, note: Option<string>)
    requires ValidSetup(u) && OutboxSystem.Reachable(u, st) && k < |u.members| && k < |st.subs|
    requires Sent(st.subs[k], i).Some? && Sent(st.subs[k], i).value.Batch?
    ensures Settled(Sent(st.subs[k], i).value.ps)
    ensures var ps, w' := Sent(st.subs[k], i).value.ps, RunStatement(u.db, st.w, Sent(st.subs[k], i).value, note);
            && w'.table == DeleteBatch(st.w.table, Elems(Leases(ps)))
            && OneByOne(u.members[k].config, u.db, st.w, ps) == (w', FlushEvents(ps, Deleted(st.w, ps)))
  {
    var ps := st.subs[k].workers[i].buffer;
    FlushIsPlain(u, st, k, i);
    BuffersAreDistinct(u, st, k, i);
    BatchedFlushIsInline(u.members[k].config, u.db, st.w, ps);
    FlushIsBatchDelete(u.members[k].config, u.db, st.w, ps);
  }
}
