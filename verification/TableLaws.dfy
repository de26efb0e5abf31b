// Laws of the table operations that span several statements.

module TableLaws {
  import opened Prelude
  import opened Rows
  import opened LeaseTable

  // ----- every statement keeps the table well formed -----

  lemma ClaimRowsValid(t: Table, ids: set<nat>, now: real, token: nat)
    requires Valid(t)
    ensures Valid(ClaimRows(t, ids, now, token))
  {
    var t' := ClaimRows(t, ids, now, token);
    forall id ensures RowOk(t', id) { assert RowOk(t, id); }
    forall a, b | a in t'.rows && b in t'.rows && SameTimer(t'.rows[a], t'.rows[b]) ensures a == b {
      assert SameTimer(t.rows[a], t.rows[b]);
    }
  }

  lemma DeleteValid(t: Table, l: Lease, failure: Option<Failure>, now: real)
    requires Valid(t)
    ensures Valid(Delete(t, l, failure, now))
  {
    forall id ensures RowOk(Delete(t, l, failure, now), id) { assert RowOk(t, id); }
  }

  lemma DeleteBatchValid(t: Table, wanted: set<Lease>)
    requires Valid(t)
    ensures Valid(DeleteBatch(t, wanted))
  {
    forall id ensures RowOk(DeleteBatch(t, wanted), id) { assert RowOk(t, id); }
  }

  lemma UpdateValid(t: Table, id: nat, r: Row)
    requires Valid(t) && id in t.rows
    requires r.id == id && r.queue == t.rows[id].queue && r.timer == t.rows[id].timer
    requires r.token.Some? <==> r.acquiredAt.Some?
    ensures Valid(t.(rows := t.rows[id := r]))
  {
    var t' := t.(rows := t.rows[id := r]);
    assert RowOk(t, id);
    forall i ensures RowOk(t', i) { assert RowOk(t, i); }
    forall a, b | a in t'.rows && b in t'.rows && SameTimer(t'.rows[a], t'.rows[b]) ensures a == b {
      assert SameTimer(t.rows[a], t.rows[b]);
    }
  }

  lemma RescheduleValid(t: Table, l: Lease, delay: real, attempts: nat, first: real, last: real, now: real)
    requires Valid(t)
    ensures Valid(Reschedule(t, l, delay, attempts, first, last, now))
  {
    if Holds(t, l) {
      assert RowOk(t, l.id);
      UpdateValid(t, l.id, Reschedule(t, l, delay, attempts, first, last, now).rows[l.id]);
    }
  }

  lemma AppendValid(t: Table, q: Request, timer: Option<string>, now: real)
    requires Valid(t) && (timer.Some? ==> !TimerTaken(t, q.queue, timer.value))
    ensures Valid(Append(t, q, timer, now))
  {
    var t' := Append(t, q, timer, now);
    var added := NewRow(t.nextId, q, timer, now);
    forall i ensures RowOk(t', i) { assert RowOk(t, i); }
    assert RowOk(t, t.nextId);
    forall a | a in t.rows ensures !SameTimer(t.rows[a], added) && !SameTimer(added, t.rows[a]) {
      assert timer.Some? ==> !HoldsTimer(t.rows[a], q.queue, timer.value);
    }
  }

  lemma InsertValid(t: Table, q: Request, timer: Option<string>, conflict: Conflict, now: real)
    requires Valid(t)
    ensures Valid(Insert(t, q, timer, conflict, now).0)
  {
    if timer.Some? && TimerTaken(t, q.queue, timer.value) {
      var id := TimerRow(t, q.queue, timer.value);
      assert RowOk(t, id);
      UpdateValid(t, id, ExtendRow(t.rows[id], q));
    } else {
      AppendValid(t, q, timer, now);
    }
  }

  lemma {:induction false} InsertBatchValid(t: Table, qs: seq<Request>, now: real)
    requires Valid(t)
    ensures Valid(InsertBatch(t, qs, now)) && InsertBatch(t, qs, now).nextId == t.nextId + |qs|
    decreases |qs|
  {
    if qs != [] {
      AppendValid(t, qs[0], None, now);
      InsertBatchValid(Append(t, qs[0], None, now), qs[1..], now);
    }
  }

  lemma CancelValid(t: Table, queue: string, timer: string)
    requires Valid(t)
    ensures Valid(Cancel(t, queue, timer))
  {
    forall id ensures RowOk(Cancel(t, queue, timer), id) { assert RowOk(t, id); }
  }

  // ----- what a statement writes, column by column -----

  /** A claim sets the two lease columns, counts one delivery, and touches nothing else of the row. */
  lemma ClaimTouchesLeaseOnly(t: Table, ids: set<nat>, now: real, token: nat, id: nat)
    requires id in t.rows
    ensures ClaimRows(t, ids, now, token).rows.Keys == t.rows.Keys
    ensures var r, r' := t.rows[id], ClaimRows(t, ids, now, token).rows[id];
            if id !in ids then r' == r
            else
              && r'.acquiredAt == Some(now) && r'.token == Some(token) && r'.deliveries == r.deliveries + 1
              && r'.id == r.id && r'.queue == r.queue && r'.payload == r.payload && r'.headers == r.headers
              && r'.attempts == r.attempts && r'.createdAt == r.createdAt && r'.nextAt == r.nextAt
              && r'.firstAt == r.firstAt && r'.lastAt == r.lastAt && r'.timer == r.timer
  {
  }

  /** A retry write that lands releases the lease, is due after its delay, and keeps what was published. */
  lemma RescheduleWrites(t: Table, l: Lease, delay: real, attempts: nat, first: real, last: real, now: real)
    requires Holds(t, l)
    ensures var t' := Reschedule(t, l, delay, attempts, first, last, now);
            var r, r' := t.rows[l.id], t'.rows[l.id];
            && t'.rows.Keys == t.rows.Keys && (forall id :: id in t.rows && id != l.id ==> t'.rows[id] == t.rows[id])
            && r'.nextAt >= now && r'.nextAt >= now + delay && (r'.nextAt == now || r'.nextAt == now + delay)
            && r'.attempts == attempts && r'.firstAt == Some(first) && r'.lastAt == Some(last)
            && r'.acquiredAt.None? && r'.token.None?
            && r'.id == r.id && r'.queue == r.queue && r'.payload == r.payload && r'.headers == r.headers
            && r'.deliveries == r.deliveries && r'.createdAt == r.createdAt && r'.timer == r.timer
  {
  }

  /** A stored row is what was asked for: unleased, never attempted, due at the requested deadline. */
  lemma StoredAsRequested(t: Table, q: Request, timer: Option<string>, now: real)
    ensures var t' := Append(t, q, timer, now);
            && t'.rows.Keys == t.rows.Keys + {t.nextId} && t'.nextId == t.nextId + 1
            && (forall id :: id in t.rows && id != t.nextId ==> t'.rows[id] == t.rows[id])
    ensures var r := Append(t, q, timer, now).rows[t.nextId];
            && r.id == t.nextId && r.queue == q.queue && r.payload == q.payload && r.headers == q.headers
            && r.timer == timer && r.nextAt == q.at && r.createdAt == now
            && r.attempts == 0 && r.deliveries == 0 && r.firstAt.None? && r.lastAt.None?
            && r.acquiredAt.None? && r.token.None?
  {
  }

  /** The publisher skips its NOTIFY exactly when no fetch of the queue could claim the stored row at once. */
  lemma SkippedIffNotClaimable(
    t: Table, queue: string, payload: Bytes, headers: Option<Headers>, timer: Option<string>,
    activateIn: Option<real>, activateAt: Option<real>, now: real, ttl: real)
    ensures var q := Request(queue, payload, headers, NextAttempt(activateIn, activateAt, now));
            IsFutureDated(activateIn, activateAt, now)
            <==> !Claimable(Append(t, q, timer, now).rows[t.nextId], [queue], now, ttl)
  {
    FutureDatedIffNotDue(activateIn, activateAt, now);
  }

  /** A batch stores its rows in order, under consecutive ids, each as requested. */
  lemma {:induction false} BatchStoredAsRequested(t: Table, qs: seq<Request>, now: real, i: nat)
    requires i < |qs|
    ensures t.nextId + i in InsertBatch(t, qs, now).rows
    ensures var r := InsertBatch(t, qs, now).rows[t.nextId + i];
            && r.id == t.nextId + i && r.queue == qs[i].queue && r.payload == qs[i].payload
            && r.headers == qs[i].headers && r.nextAt == qs[i].at && r.createdAt == now
            && r.timer.None? && r.token.None? && r.attempts == 0 && r.deliveries == 0
    ensures forall id :: id in t.rows && id < t.nextId ==>
              id in InsertBatch(t, qs, now).rows && InsertBatch(t, qs, now).rows[id] == t.rows[id]
    decreases |qs|
  {
    BatchKeepsOthers(Append(t, qs[0], None, now), qs[1..], now);
    if i > 0 { BatchStoredAsRequested(Append(t, qs[0], None, now), qs[1..], now, i - 1); }
  }

  lemma {:induction false} BatchKeepsOthers(t: Table, qs: seq<Request>, now: real)
    ensures forall id :: id in t.rows && id < t.nextId ==>
              id in InsertBatch(t, qs, now).rows && InsertBatch(t, qs, now).rows[id] == t.rows[id]
    decreases |qs|
  {
    if qs != [] { BatchKeepsOthers(Append(t, qs[0], None, now), qs[1..], now); }
  }

  /** What a publish to a timer does: stored when no live row holds the timer; otherwise the live row is left
      alone when the conflict is ignored or the row is leased, and never pulled forward by an extend. */
  lemma TimerPublish(t: Table, q: Request, timer: string, conflict: Conflict, now: real)
    ensures var (t', id) := Insert(t, q, Some(timer), conflict, now);
            if !TimerTaken(t, q.queue, timer) then t' == Append(t, q, Some(timer), now) && id == Some(t.nextId)
            else
              var live := TimerRow(t, q.queue, timer);
              var r := t.rows[live];
              && (conflict.Ignore? || r.token.Some? ==> t' == t && id.None?)
              && (conflict.Extend? && r.token.None? ==>
                    && id == Some(live) && live in t'.rows && t'.nextId == t.nextId && t'.dlq == t.dlq
                    && t'.rows[live].nextAt == (if q.at > r.nextAt then q.at else r.nextAt)
                    && t'.rows[live].payload == (if q.at > r.nextAt then q.payload else r.payload)
                    && t'.rows[live].headers == (if q.at > r.nextAt then q.headers else r.headers)
                    && (q.at > r.nextAt ==> t'.rows[live].attempts == 0)
                    && (q.at <= r.nextAt ==> t'.rows[live] == r))
  {
  }

  /** A cancel lands exactly when an unleased row holds the timer, and removes that row only. */
  lemma CancelLandsIff(t: Table, queue: string, timer: string)
    requires Valid(t)
    ensures Cancels(t, queue, timer)
       <==> exists id :: id in t.rows && HoldsTimer(t.rows[id], queue, timer) && t.rows[id].token.None?
    ensures Cancel(t, queue, timer).nextId == t.nextId && Cancel(t, queue, timer).dlq == t.dlq
    ensures forall id ::
              id in Cancel(t, queue, timer).rows
              <==> id in t.rows && !(HoldsTimer(t.rows[id], queue, timer) && t.rows[id].token.None?)
    ensures forall id :: id in Cancel(t, queue, timer).rows ==> Cancel(t, queue, timer).rows[id] == t.rows[id]
  {
    forall id | id in t.rows && HoldsTimer(t.rows[id], queue, timer)
      ensures TimerTaken(t, queue, timer) && TimerRow(t, queue, timer) == id
    {
      TimerRowUnique(t, queue, timer, id);
    }
  }

  // ----- a batched delete is the fold of single deletes -----

  function DeleteEach(t: Table, ls: seq<Lease>, now: real): Table
    decreases |ls|
  {
    if ls == [] then t else DeleteEach(Delete(t, ls[0], None, now), ls[1..], now)
  }

  /** The leases whose own single delete landed, in the order given. */
  ghost function LandedEach(t: Table, ls: seq<Lease>, now: real): set<Lease>
    decreases |ls|
  {
    if ls == [] then {} else
      (if Holds(t, ls[0]) then {ls[0]} else {}) + LandedEach(Delete(t, ls[0], None, now), ls[1..], now)
  }

  ghost function Elems(ls: seq<Lease>): set<Lease> { set l | l in ls }

  lemma DeleteThenBatch(t: Table, l: Lease, rest: set<Lease>, now: real)
    ensures DeleteBatch(Delete(t, l, None, now), rest) == DeleteBatch(t, {l} + rest)
    ensures (if Holds(t, l) then {l} else {}) + BatchHits(Delete(t, l, None, now), rest) == BatchHits(t, {l} + rest)
  {
    var t' := Delete(t, l, None, now);
    forall x | x in rest ensures Holds(t', x) <==> Holds(t, x) && !(Holds(t, l) && x == l) {
      if Holds(t, l) && x.id == l.id {
        assert Holds(t, x) ==> x == l;
      }
    }
    assert (if Holds(t, l) then {l} else {}) + BatchHits(t', rest) == BatchHits(t, {l} + rest);
    assert DeleteBatch(t', rest).rows == DeleteBatch(t, {l} + rest).rows by {
      var hits := BatchHits(t, {l} + rest);
      var later := BatchHits(t', rest);
      assert hits == (if Holds(t, l) then {l} else {}) + later;
      assert (set x | x in hits :: x.id) == (if Holds(t, l) then {l.id} else {}) + (set x | x in later :: x.id);
    }
  }

  /** One statement over any list of leases, with repeats and stale copies, in any order, removes the
      same rows and reports the same leases as deleting them one at a time. */
  lemma {:induction false} BatchIsFold(t: Table, ls: seq<Lease>, now: real)
    ensures DeleteEach(t, ls, now) == DeleteBatch(t, Elems(ls))
    ensures LandedEach(t, ls, now) == BatchHits(t, Elems(ls))
    decreases |ls|
  {
    if ls == [] {
      assert t.rows - (set l: Lease | l in BatchHits(t, Elems(ls)) :: l.id) == t.rows;
    } else {
      BatchIsFold(Delete(t, ls[0], None, now), ls[1..], now);
      DeleteThenBatch(t, ls[0], Elems(ls[1..]), now);
      assert ls == [ls[0]] + ls[1..];
      assert Elems(ls) == {ls[0]} + Elems(ls[1..]);
    }
  }

  // ----- extends of one unleased timer form a running maximum -----

  function ExtendAll(r: Row, qs: seq<Request>): Row
    decreases |qs|
  {
    if qs == [] then r else ExtendAll(ExtendRow(r, qs[0]), qs[1..])
  }

  predicate IsLatest(r: Row, qs: seq<Request>, at: real) {
    && r.nextAt <= at
    && (forall q :: q in qs ==> q.at <= at)
    && (r.nextAt == at || exists q :: q in qs && q.at == at)
  }

  /** `i` is the first request to ask for `at`. */
  predicate FirstToReach(qs: seq<Request>, i: nat, at: real) {
    i < |qs| && qs[i].at == at && forall j :: 0 <= j < i ==> qs[j].at < at
  }

  function Refreshed(r: Row, q: Request): Row {
    r.(nextAt := q.at, payload := q.payload, headers := q.headers, attempts := 0, firstAt := None, lastAt := None)
  }

  /** The final deadline is the latest of all; the payload is the first request's to reach it; the retry
      history is reset exactly when the deadline moved; nothing else changes. */
  lemma {:induction false} ExtendsKeepTheLatest(r: Row, qs: seq<Request>) returns (first: nat)
    requires r.token.None?
    ensures var f := ExtendAll(r, qs);
            && IsLatest(r, qs, f.nextAt)
            && (f.nextAt == r.nextAt ==> f == r)
            && (f.nextAt != r.nextAt ==> FirstToReach(qs, first, f.nextAt) && f == Refreshed(r, qs[first]))
    decreases |qs|
  {
    first := 0;
    if qs != [] {
      var r1, rest := ExtendRow(r, qs[0]), qs[1..];
      var k := ExtendsKeepTheLatest(r1, rest);
      var f := ExtendAll(r, qs);
      assert forall j :: 0 < j < |qs| ==> qs[j] == rest[j - 1];
      if f.nextAt != r1.nextAt {
        first := k + 1;
        assert forall j :: 0 <= j < first ==> qs[j].at < f.nextAt;
      }
      if f.nextAt != r.nextAt {
        assert qs[first].at == f.nextAt;
      } else {
        assert r1.nextAt == r.nextAt;
      }
    }
  }

  /** The order in which refreshes commit does not change the deadline. */
  lemma ExtendOrderFree(r: Row, qs: seq<Request>, ps: seq<Request>)
    requires r.token.None? && multiset(qs) == multiset(ps)
    ensures ExtendAll(r, qs).nextAt == ExtendAll(r, ps).nextAt
  {
    var _ := ExtendsKeepTheLatest(r, qs);
    var _ := ExtendsKeepTheLatest(r, ps);
    assert forall q :: q in qs <==> q in multiset(qs);
    assert forall q :: q in ps <==> q in multiset(ps);
  }

  /** A leased row is never touched by an extend, however many arrive. */
  lemma {:induction false} ExtendsLeaveLeased(r: Row, qs: seq<Request>)
    requires r.token.Some?
    ensures ExtendAll(r, qs) == r
    decreases |qs|
  {
    if qs != [] { ExtendsLeaveLeased(r, qs[1..]); }
  }
}
