// What a worker's statements do at the database, and why batching plain deletes changes nothing: one
// flush has the effect and the events of writing its rows one at a time.

module FlushLaws {
  import opened Prelude
  import opened LeaseTable
  import opened TableLaws
  import opened Message
  import opened Metrics
  import opened Subscriber
  import opened SubscriberShape
  import Database

  function Known(at: Option<real>): real { if at.Some? then at.value else 0.0 }

  /** The statement of the inline path: a reschedule for a retry, a terminal delete otherwise. */
  ghost function WriteInline(db: Database.Config, w: Database.World, m: Msg, note: Option<string>): Database.World
    requires m.outcome.Some?
  {
    match m.outcome.value
    case Retry(delay) => Database.Retire(w, LeaseHeld(m), delay, m.attempts, Known(m.firstAt), Known(m.lastAt))
    case _ => Database.Finish(db, w, LeaseHeld(m), m.outcome.value, note)
  }

  ghost predicate Settled(ps: seq<Pending>) { forall p :: p in ps ==> p.m.outcome.Some? }

  function DoneOf(p: Pending): Database.Done
    requires p.m.outcome.Some?
  {
    Database.Done(LeaseHeld(p.m), p.m.outcome.value, None)
  }

  ghost function Dones(ps: seq<Pending>): seq<Database.Done>
    requires Settled(ps)
  {
    seq(|ps|, i requires 0 <= i < |ps| => DoneOf(ps[i]))
  }

  function Leases(ps: seq<Pending>): seq<Lease> { seq(|ps|, i requires 0 <= i < |ps| => LeaseHeld(ps[i].m)) }

  ghost predicate DistinctLeases(ps: seq<Pending>) {
    forall i, j :: 0 <= i < j < |ps| ==> LeaseHeld(ps[i].m) != LeaseHeld(ps[j].m)
  }

  /** The statement of a flush. */
  ghost function WriteBatch(db: Database.Config, w: Database.World, ps: seq<Pending>): Database.World
    requires Settled(ps)
  {
    Database.FinishAll(db, w, Dones(ps))
  }

  /** The leases a flush reports deleted. */
  ghost function Deleted(w: Database.World, ps: seq<Pending>): set<Lease> { BatchHits(w.table, Elems(Leases(ps))) }

  lemma TailParts(ps: seq<Pending>)
    requires ps != [] && Settled(ps)
    ensures Settled(ps[1..]) && Dones(ps)[0] == DoneOf(ps[0]) && Dones(ps)[1..] == Dones(ps[1..])
    ensures Leases(ps)[0] == LeaseHeld(ps[0].m) && Leases(ps)[1..] == Leases(ps[1..])
    ensures Elems(Leases(ps)) == {LeaseHeld(ps[0].m)} + Elems(Leases(ps[1..]))
  {
    assert Leases(ps)[1..] == Leases(ps[1..]);
    assert Leases(ps) == [LeaseHeld(ps[0].m)] + Leases(ps[1..]);
  }

  ghost predicate Plain(c: Subscriber.Config, ps: seq<Pending>) { forall p :: p in ps ==> Buffered(c, p) }

  lemma PlainHead(c: Subscriber.Config, db: Database.Config, w: Database.World, p: Pending)
    requires c.dlq == db.dlq && Buffered(c, p)
    ensures var w1 := WriteInline(db, w, p.m, None);
            && w1 == Database.Finish(db, w, LeaseHeld(p.m), p.m.outcome.value, None)
            && w1.table == Delete(w.table, LeaseHeld(p.m), None, w.now) && w1.now == w.now
  {
  }

  /** A flush is the one DELETE over its leases. */
  lemma {:induction false} FlushIsBatchDelete(
    c: Subscriber.Config, db: Database.Config, w: Database.World, ps: seq<Pending>)
    requires c.dlq == db.dlq && Plain(c, ps) && Settled(ps)
    ensures WriteBatch(db, w, ps).table == DeleteBatch(w.table, Elems(Leases(ps)))
    decreases |ps|
  {
    BatchIsFold(w.table, Leases(ps), w.now);
    FlushIsFold(c, db, w, ps);
  }

  lemma {:induction false} FlushIsFold(c: Subscriber.Config, db: Database.Config, w: Database.World, ps: seq<Pending>)
    requires c.dlq == db.dlq && Plain(c, ps) && Settled(ps)
    ensures WriteBatch(db, w, ps).table == DeleteEach(w.table, Leases(ps), w.now)
    decreases |ps|
  {
    if ps != [] {
      TailParts(ps);
      PlainHead(c, db, w, ps[0]);
      FlushIsFold(c, db, WriteInline(db, w, ps[0].m, None), ps[1..]);
    }
  }

  /** The inline path taken row by row: the statements and the events. */
  ghost function OneByOne(
    c: Subscriber.Config, db: Database.Config, w: Database.World, ps: seq<Pending>): (Database.World, seq<Event>)
    requires Settled(ps)
    decreases |ps|
  {
    if ps == [] then (w, []) else
      var m := ps[0].m;
      var rest := OneByOne(c, db, WriteInline(db, w, m, None), ps[1..]);
      (rest.0, InlineEvents(c, m, ps[0].kind, Holds(w.table, LeaseHeld(m))) + rest.1)
  }

  lemma {:induction false} EventsByAnswer(ps: seq<Pending>, a: set<Lease>, b: set<Lease>)
    requires forall p :: p in ps ==> (LeaseHeld(p.m) in a <==> LeaseHeld(p.m) in b)
    ensures FlushEvents(ps, a) == FlushEvents(ps, b)
  {
    if ps != [] { EventsByAnswer(ps[1..], a, b); }
  }

  /** Deleting one row changes no other lease's answer. */
  lemma OtherAnswersStay(w: Database.World, w1: Database.World, ps: seq<Pending>)
    requires ps != [] && Settled(ps) && DistinctLeases(ps)
    requires w1.table == Delete(w.table, LeaseHeld(ps[0].m), None, w.now)
    ensures FlushEvents(ps[1..], Deleted(w1, ps[1..])) == FlushEvents(ps[1..], Deleted(w, ps))
  {
    var l, rest := LeaseHeld(ps[0].m), ps[1..];
    TailParts(ps);
    DeleteThenBatch(w.table, l, Elems(Leases(rest)), w.now);
    forall p | p in rest ensures LeaseHeld(p.m) in Deleted(w1, rest) <==> LeaseHeld(p.m) in Deleted(w, ps) {
      var i :| 0 <= i < |rest| && rest[i] == p;
      assert ps[i + 1] == p;
      assert LeaseHeld(p.m) != l;
    }
    EventsByAnswer(rest, Deleted(w1, rest), Deleted(w, ps));
  }

  lemma {:induction false} HeadAnswer(c: Subscriber.Config, w: Database.World, ps: seq<Pending>)
    requires ps != [] && Settled(ps) && Buffered(c, ps[0])
    ensures FlushEvents(ps, Deleted(w, ps))
         == InlineEvents(c, ps[0].m, ps[0].kind, Holds(w.table, LeaseHeld(ps[0].m)))
          + FlushEvents(ps[1..], Deleted(w, ps))
  {
    TailParts(ps);
  }

  /** The batched flush leaves the database in the state, and emits for each row the events, of the inline
      path run row by row: for stale and live copies of one row, in any order. */
  lemma {:induction false} BatchedFlushIsInline(
    c: Subscriber.Config, db: Database.Config, w: Database.World, ps: seq<Pending>)
    requires c.dlq == db.dlq && Plain(c, ps) && Settled(ps) && DistinctLeases(ps)
    ensures OneByOne(c, db, w, ps) == (WriteBatch(db, w, ps), FlushEvents(ps, Deleted(w, ps)))
    decreases |ps|
  {
    if ps != [] {
      var w1 := WriteInline(db, w, ps[0].m, None);
      TailParts(ps);
      PlainHead(c, db, w, ps[0]);
      assert DistinctLeases(ps[1..]) by { assert forall i :: 0 <= i < |ps[1..]| ==> ps[1..][i] == ps[i + 1]; }
      BatchedFlushIsInline(c, db, w1, ps[1..]);
      OtherAnswersStay(w, w1, ps);
      HeadAnswer(c, w, ps);
    }
  }
}
