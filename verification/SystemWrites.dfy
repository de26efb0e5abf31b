// From a handler's decision to the row, and from the row to the subscriber: what a worker's statement writes and
// what a fetch brings, column by column.

module SystemWrites {
  import opened Prelude
  import opened Rows
  import opened LeaseTable
  import opened TableLaws
  import opened Message
  import opened Subscriber
  import opened SubscriberShape
  import opened SubscriberSteps
  import opened OutboxSystem
  import Database

  /** What a worker sends inline after its handler ended is the statement for the outcome its calls settle. */
  lemma SentAfterHandler(c: Subscriber.Config, s: Sub, l: Label)
    requires (l.Returned? || l.Misconfigured?) && WorkerEnabled(c, s, l) && IsFresh(s.workers[l.i].pc.m)
    requires Decides(l.calls) || s.running
    requires WorkerStep(c, s, l).workers[l.i].pc.Writing?
    ensures Sent(WorkerStep(c, s, l), l.i).Some? && Sent(WorkerStep(c, s, l), l.i).value.Inline?
    ensures var m := Sent(WorkerStep(c, s, l), l.i).value.m;
            m.row == s.workers[l.i].pc.m.row && m.outcome.Some? && Settles(l.calls, l.verdict, m.outcome.value)
  {
    HandlerLeadsTo(c, s, l);
    NewlyWritten(c, s, l);
  }

  lemma NewlyWritten(c: Subscriber.Config, s: Sub, l: Label)
    requires (l.Returned? || l.Misconfigured?) && WorkerEnabled(c, s, l)
    requires WorkerStep(c, s, l).workers[l.i].pc.Writing?
    ensures WorkerStep(c, s, l).workers[l.i].pc.answer.None?
  {
  }

  ghost predicate OthersKept(t: Table, t': Table, id: nat) {
    && t'.nextId == t.nextId
    && (forall x :: x != id ==> (x in t'.rows <==> x in t.rows))
    && (forall x :: x != id && x in t.rows && x in t'.rows ==> t'.rows[x] == t.rows[x])
  }

  /** A retry whose lease is current leaves the row unleased and due after the granted delay. */
  lemma RetryWrites(db: Database.Config, w: Database.World, m: Msg, delay: real, note: Option<string>)
    requires m.outcome == Some(Retry(delay)) && Holds(w.table, LeaseHeld(m)) && m.firstAt.Some? && m.lastAt.Some?
    ensures var t, t' := w.table, RunStatement(db, w, Inline(m), note).table;
            && m.row.id in t.rows && m.row.id in t'.rows && OthersKept(t, t', m.row.id) && t'.dlq == t.dlq
            && var r, r' := t.rows[m.row.id], t'.rows[m.row.id];
               && r'.nextAt >= w.now && r'.nextAt >= w.now + delay
               && (r'.nextAt == w.now || r'.nextAt == w.now + delay)
               && r'.attempts == m.attempts && r'.firstAt == m.firstAt && r'.lastAt == m.lastAt
               && r'.token.None? && r'.acquiredAt.None? && r'.deliveries == r.deliveries
               && r'.payload == r.payload && r'.headers == r.headers && r'.queue == r.queue
  {
    RescheduleWrites(w.table, LeaseHeld(m), delay, m.attempts, m.firstAt.value, m.lastAt.value, w.now);
  }

  /** A terminal write whose lease is current removes the row, and with a dead-letter table archives a failure. */
  lemma TerminalWrites(db: Database.Config, w: Database.World, m: Msg, note: Option<string>)
    requires m.outcome.Some? && !m.outcome.value.Retry? && Holds(w.table, LeaseHeld(m))
    ensures var t, t' := w.table, RunStatement(db, w, Inline(m), note).table;
            && m.row.id in t.rows && m.row.id !in t'.rows && OthersKept(t, t', m.row.id)
            && (!(db.dlq && m.outcome.value.Terminal?) ==> t'.dlq == t.dlq)
            && (db.dlq && m.outcome.value.Terminal? ==>
                  && |t'.dlq| == |t.dlq| + 1 && t'.dlq[..|t.dlq|] == t.dlq
                  && var r, d := t.rows[m.row.id], t'.dlq[|t.dlq|];
                     && d.originalId == r.id && d.queue == r.queue && d.payload == r.payload && d.headers == r.headers
                     && d.deliveries == r.deliveries && d.createdAt == r.createdAt && d.timer == r.timer
                     && d.failedAt == w.now && d.reason == m.outcome.value.reason && d.exception == note)
  {
  }

  /** A statement whose lease is gone changes nothing. */
  lemma LateWritesNothing(db: Database.Config, w: Database.World, m: Msg, note: Option<string>)
    requires !Holds(w.table, LeaseHeld(m))
    ensures RunStatement(db, w, Inline(m), note) == w
  {
  }

  /** What a subscriber's fetch brings: at most as many rows as it has free slots, all of queues it serves, due,
      and free or past the subscriber's own lease. */
  lemma FetchServes(u: Setup, st: State, a: Action, r: Row)
    requires OutboxSystem.Enabled(u, st, a) && a.Claim? && r in ClaimedRows(u, st, a)
    ensures |ClaimedRows(u, st, a)| <= st.subs[a.k].fetch.free
    ensures r.queue in u.members[a.k].queues && r.nextAt <= st.w.now
    ensures r.acquiredAt == Some(st.w.now) && r.token == Some(a.token)
    ensures r.id in st.w.table.rows && r.id !in a.locked
    ensures var before := st.w.table.rows[r.id];
            && r.payload == before.payload && r.headers == before.headers && r.timer == before.timer
            && r.deliveries == before.deliveries + 1 && r.attempts == before.attempts
            && (before.token.None?
                || (before.acquiredAt.Some? && before.acquiredAt.value + u.members[a.k].config.ttl < st.w.now))
  {
    var m, free := u.members[a.k], st.subs[a.k].fetch.free;
    var ks := Picked(st.w.table, m.queues, free, st.w.now, m.config.ttl, a.locked);
    PickedAreClaimable(st.w.table, m.queues, free, st.w.now, m.config.ttl, a.locked);
    var i :| 0 <= i < |ClaimedRows(u, st, a)| && ClaimedRows(u, st, a)[i] == r;
    assert ks[i] in ks;
    assert RowOk(st.w.table, ks[i].id);
  }
}
