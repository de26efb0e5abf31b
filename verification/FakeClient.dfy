// The in-memory client: a list of rows changed in place, proved against the table's statements.

module FakeClient {
  import opened Prelude
  import opened Rows
  import opened Ordering
  import opened LeaseTable
  import opened TableLaws
  import opened RowList

  // ----- the client -----

  const MAX_NAME_LENGTH := 255

  predicate NamesFit(queue: string, timer: Option<string>) {
    |queue| <= MAX_NAME_LENGTH && (timer.Some? ==> |timer.value| <= MAX_NAME_LENGTH)
  }

  datatype Inserted = Invalid | Skipped | Stored(id: nat)

  class FakeOutboxClient {
    const dlqEnabled: bool
    var rows: seq<Row>
    var nextId: nat
    var dlqRows: seq<DlqRow>
    var dispatchable: seq<nat>

    ghost function State(): Table
      reads this
    {
      Table(Live(rows), nextId, dlqRows)
    }

    ghost predicate Ok()
      reads this
    {
      Ascending(rows) && Valid(State())
    }

    constructor (dlqEnabled: bool)
      ensures Ok() && State() == EMPTY && this.dlqEnabled == dlqEnabled && dispatchable == []
    {
      this.dlqEnabled := dlqEnabled;
      rows, nextId, dlqRows, dispatchable := [], 1, [], [];
      new;
      assert forall id :: RowOk(State(), id);
    }

    /** The index of the first row holding the timer, or the length of the list. */
    method FindTimer(queue: string, timer: Option<string>) returns (i: nat)
      requires Ok()
      ensures i <= |rows|
      ensures i < |rows| ==> timer.Some? && HoldsTimer(rows[i], queue, timer.value)
                             && TimerTaken(State(), queue, timer.value)
                             && TimerRow(State(), queue, timer.value) == rows[i].id
      ensures i == |rows| && timer.Some? ==> !TimerTaken(State(), queue, timer.value)
    {
      i := 0;
      while i < |rows| && !(timer.Some? && HoldsTimer(rows[i], queue, timer.value))
        invariant i <= |rows|
        invariant timer.Some? ==> forall j :: 0 <= j < i ==> !HoldsTimer(rows[j], queue, timer.value)
      {
        i := i + 1;
      }
      if i < |rows| {
        RowAt(rows, i);
        TimerRowUnique(State(), queue, timer.value, rows[i].id);
      } else if timer.Some? && TimerTaken(State(), queue, timer.value) {
        var j := IndexOf(rows, TimerRow(State(), queue, timer.value));
      }
    }

    method AppendNew(q: Request, timer: Option<string>, now: real) returns (id: nat)
      requires Ok() && (timer.Some? ==> !TimerTaken(State(), q.queue, timer.value))
      modifies this`rows, this`nextId
      ensures Ok() && State() == Append(old(State()), q, timer, now) && id == old(nextId)
    {
      id := nextId;
      AppendValid(State(), q, timer, now);
      AppendRow(rows, NewRow(id, q, timer, now));
      forall i | 0 <= i < |rows| ensures rows[i].id < id { RowAt(rows, i); assert RowOk(State(), rows[i].id); }
      rows := rows + [NewRow(id, q, timer, now)];
      nextId := nextId + 1;
    }

    /** Insert one row, skip it, or extend the live timer; over-long names are refused before anything changes. */
    method Insert(queue: string, payload: Bytes, headers: Option<Headers>,
                  activateIn: Option<real>, activateAt: Option<real>,
                  timer: Option<string>, conflict: Conflict, now: real) returns (r: Inserted)
      requires Ok()
      modifies this`rows, this`nextId, this`dispatchable
      ensures Ok()
      ensures !NamesFit(queue, timer) ==> r == Invalid && State() == old(State())
      ensures NamesFit(queue, timer) ==>
                var q := Request(queue, payload, headers, NextAttempt(activateIn, activateAt, now));
                var (t, id) := LeaseTable.Insert(old(State()), q, timer, conflict, now);
                State() == t && r == match id { case Some(i) => Stored(i) case None => Skipped }
      ensures dispatchable == old(dispatchable) + if nextId > old(nextId) then [old(nextId)] else []
    {
      if !NamesFit(queue, timer) { return Invalid; }
      var q := Request(queue, payload, headers, NextAttempt(activateIn, activateAt, now));
      InsertValid(State(), q, timer, conflict, now);
      var i := FindTimer(queue, timer);
      if i < |rows| {
        RowAt(rows, i);
        if conflict.Ignore? || rows[i].token.Some? {
          return Skipped;
        }
        UpdateAscends(rows, i, ExtendRow(rows[i], q));
        UpdateAt(rows, i, ExtendRow(rows[i], q));
        rows := rows[i := ExtendRow(rows[i], q)];
        return Stored(rows[i].id);
      }
      var id := AppendNew(q, timer, now);
      dispatchable := dispatchable + [id];
      r := Stored(id);
    }

    /** All rows of a batch, or none when the queue name is refused. */
    method InsertBatch(queue: string, bodies: seq<(Bytes, Option<Headers>)>,
                       activateIn: Option<real>, activateAt: Option<real>, now: real) returns (ok: bool)
      requires Ok()
      modifies this`rows, this`nextId, this`dispatchable
      ensures Ok() && ok == (|queue| <= MAX_NAME_LENGTH || bodies == [])
      ensures !ok ==> State() == old(State()) && dispatchable == old(dispatchable)
      ensures ok ==>
                State() == LeaseTable.InsertBatch(
                             old(State()), Requests(queue, bodies, activateIn, activateAt, now), now)
      ensures ok ==> dispatchable == old(dispatchable) + seq(|bodies|, k => old(nextId) + k)
    {
      ok := |queue| <= MAX_NAME_LENGTH || bodies == [];
      if !ok { return; }
      var qs := Requests(queue, bodies, activateIn, activateAt, now);
      ghost var start, first := State(), nextId;
      for k := 0 to |bodies|
        invariant Ok() && nextId == first + k
        invariant LeaseTable.InsertBatch(State(), qs[k..], now) == LeaseTable.InsertBatch(start, qs, now)
        invariant dispatchable == old(dispatchable) + seq(k, j => first + j)
      {
        var id := AppendNew(qs[k], None, now);
        dispatchable := dispatchable + [id];
        assert qs[k..][1..] == qs[k + 1..];
      }
    }

    /** Claim the oldest claimable rows under one token and return the claimed copies, oldest first. */
    method Fetch(queues: seq<string>, limit: nat, ttl: real, now: real, token: nat) returns (out: seq<Row>)
      requires Ok()
      modifies this`rows
      ensures Ok()
      ensures var ks := Picked(old(State()), queues, limit, now, ttl, {});
              && State() == ClaimRows(old(State()), Ids(ks), now, token)
              && |out| == |ks|
              && ClaimedCopies(old(State()), ks, out, now, token)
    {
      var eligible := Scan(queues, ttl, now);
      ScanPicks(State(), rows, queues, limit, now, ttl, {});
      PickedAreClaimable(State(), queues, limit, now, ttl, {});
      PickedInOrder(State(), queues, limit, now, ttl, {});
      out := ClaimInOrder(Oldest(eligible, limit), now, token);
    }

    method Scan(queues: seq<string>, ttl: real, now: real) returns (eligible: seq<Key>)
      ensures eligible == Select(rows, IsClaimable(queues, now, ttl, {}))
    {
      eligible := [];
      for i := 0 to |rows|
        invariant eligible == Select(rows[..i], IsClaimable(queues, now, ttl, {}))
      {
        assert rows[..i + 1] == rows[..i] + [rows[i]];
        SelectAppend(rows[..i], rows[i], IsClaimable(queues, now, ttl, {}));
        if Claimable(rows[i], queues, now, ttl) {
          eligible := eligible + [KeyOf(rows[i])];
        }
      }
      assert rows[..|rows|] == rows;
    }

    method ClaimInOrder(order: seq<Key>, now: real, token: nat) returns (out: seq<Row>)
      requires Ok()
      requires forall k :: k in order ==> k.id in State().rows
      requires forall i, j :: 0 <= i < j < |order| ==> order[i].id != order[j].id
      modifies this`rows
      ensures Ok() && State() == ClaimRows(old(State()), Ids(order), now, token)
      ensures |out| == |order| && ClaimedCopies(old(State()), order, out, now, token)
    {
      ghost var start := State();
      ClaimRowsValid(start, Ids(order), now, token);
      ClaimNone(start, now, token);
      out := [];
      for k := 0 to |order|
        invariant Ascending(rows) && Live(rows) == ClaimRows(start, Ids(order[..k]), now, token).rows
        invariant |out| == k && ClaimedCopies(start, order, out, now, token)
      {
        assert order[k] in order;
        ClaimStep(start, order, k, now, token);
        var row := ClaimAt(order[k].id, now, token);
        out := out + [row];
      }
      assert order[..|order|] == order;
    }

    /** Set the lease and bump the delivery count of one row, in place. */
    method ClaimAt(id: nat, now: real, token: nat) returns (row: Row)
      requires Ascending(rows) && id in Live(rows)
      modifies this`rows
      ensures Ascending(rows) && row == Claim(old(Live(rows))[id], now, token)
      ensures Live(rows) == old(Live(rows))[id := row]
    {
      var i := Find(id);
      row := Claim(rows[i], now, token);
      RowAt(rows, i);
      assert row.id == rows[i].id;
      UpdateAscends(rows, i, row);
      UpdateAt(rows, i, row);
      rows := rows[i := row];
    }

    method Find(id: nat) returns (i: nat)
      requires Ascending(rows) && id in Live(rows)
      ensures i < |rows| && rows[i].id == id && Live(rows)[id] == rows[i]
    {
      ghost var at := IndexOf(rows, id);
      i := 0;
      while rows[i].id != id
        invariant i <= at
        decreases at - i
      {
        i := i + 1;
      }
      RowAt(rows, i);
    }

    /** The index of the row this lease still holds, or the length of the list. */
    method FindLease(l: Lease) returns (i: nat)
      requires Ok()
      ensures i <= |rows|
      ensures Holds(State(), l) <==> i < |rows|
      ensures i < |rows| ==> rows[i].id == l.id && State().rows[l.id] == rows[i]
    {
      i := 0;
      while i < |rows| && !(rows[i].id == l.id && l.token.Some? && rows[i].token == l.token)
        invariant i <= |rows|
        invariant forall j :: 0 <= j < i ==> !(rows[j].id == l.id && l.token.Some? && rows[j].token == l.token)
      {
        i := i + 1;
      }
      if i < |rows| {
        RowAt(rows, i);
      } else if l.id in Live(rows) {
        var j := IndexOf(rows, l.id);
      }
    }

    /** Delete iff the lease still holds, archiving in the same call; an archive request without a
        dead-letter table is refused when the row matches. */
    method DeleteWithLease(l: Lease, failure: Option<Failure>, now: real) returns (r: Answer)
      requires Ok()
      modifies this`rows, this`dlqRows
      ensures Ok()
      ensures (r, State()) == TryDelete(dlqEnabled, old(State()), l, failure, now)
    {
      var i := FindLease(l);
      if i == |rows| { return Ran(false); }
      if failure.Some? {
        if !dlqEnabled { return Refused; }
        dlqRows := dlqRows + [Archive(rows[i], failure.value, now)];
      }
      DeleteValid(old(State()), l, failure, now);
      RemoveAscends(rows, i);
      RemoveAt(rows, i);
      rows := rows[..i] + rows[i + 1..];
      r := Ran(true);
    }

    /** Delete every pair that still holds its lease and report exactly those pairs. */
    method DeleteBatchWithLease(pairs: seq<Lease>) returns (deleted: set<Lease>)
      requires Ok()
      modifies this`rows
      ensures Ok()
      ensures State() == DeleteBatch(old(State()), Elems(pairs)) && deleted == BatchHits(old(State()), Elems(pairs))
    {
      var wanted := set l | l in pairs && l.token.Some?;
      ghost var before, start := rows, State();
      deleted := {};
      var i := |rows|;
      ScanStart(before, wanted);
      while i > 0
        invariant 0 <= i && Scanned(before, rows, i, wanted, deleted)
      {
        i := i - 1;
        var l := LeaseOf(rows[i]);
        ScanStep(before, rows, i, wanted, deleted);
        if l.token.Some? && l in wanted {
          deleted := deleted + {l};
          rows := rows[..i] + rows[i + 1..];
        }
      }
      HitsAre(before, start, pairs, wanted);
      DeleteBatchValid(start, Elems(pairs));
    }

    /** Release the lease and reschedule, iff it still holds; a negative delay counts as zero. */
    method MarkPendingWithLease(l: Lease, delay: real, attempts: nat, first: real, last: real, now: real)
      returns (landed: bool)
      requires Ok()
      modifies this`rows
      ensures Ok() && landed == Holds(old(State()), l)
      ensures State() == Reschedule(old(State()), l, delay, attempts, first, last, now)
    {
      var i := FindLease(l);
      landed := i < |rows|;
      if landed {
        RescheduleValid(State(), l, delay, attempts, first, last, now);
        var r := rows[i].(nextAt := now + (if delay > 0.0 then delay else 0.0), attempts := attempts,
                          firstAt := Some(first), lastAt := Some(last), acquiredAt := None, token := None);
        UpdateAscends(rows, i, r);
        UpdateAt(rows, i, r);
        rows := rows[i := r];
      }
    }

    /** Drop the timer's row unless a worker holds it. */
    method CancelTimer(queue: string, timer: string) returns (landed: bool)
      requires Ok()
      modifies this`rows
      ensures Ok() && landed == Cancels(old(State()), queue, timer)
      ensures State() == Cancel(old(State()), queue, timer)
    {
      var i := FindTimer(queue, Some(timer));
      landed := i < |rows| && rows[i].token.None?;
      if i < |rows| { RowAt(rows, i); }
      if landed {
        CancelValid(State(), queue, timer);
        RemoveAscends(rows, i);
        RemoveAt(rows, i);
        rows := rows[..i] + rows[i + 1..];
      }
    }
  }

  function Requests(queue: string, bodies: seq<(Bytes, Option<Headers>)>,
                    activateIn: Option<real>, activateAt: Option<real>, now: real): (r: seq<Request>)
    ensures |r| == |bodies|
  {
    seq(|bodies|, k requires 0 <= k < |bodies| =>
      Request(queue, bodies[k].0, bodies[k].1, NextAttempt(activateIn, activateAt, now)))
  }

  ghost predicate ClaimedCopies(t: Table, order: seq<Key>, out: seq<Row>, now: real, token: nat) {
    && |out| <= |order|
    && forall j :: 0 <= j < |out| ==> order[j].id in t.rows && out[j] == Claim(t.rows[order[j].id], now, token)
  }

  lemma ClaimNone(t: Table, now: real, token: nat)
    ensures ClaimRows(t, Ids([]), now, token) == t
  {
    assert ClaimRows(t, Ids([]), now, token).rows == t.rows;
  }

  lemma ClaimStep(t: Table, order: seq<Key>, k: nat, now: real, token: nat)
    requires k < |order| && order[k].id in t.rows
    requires forall i, j :: 0 <= i < j < |order| ==> order[i].id != order[j].id
    ensures ClaimRows(t, Ids(order[..k]), now, token).rows[order[k].id] == t.rows[order[k].id]
    ensures ClaimRows(t, Ids(order[..k + 1]), now, token).rows
         == ClaimRows(t, Ids(order[..k]), now, token).rows[order[k].id := Claim(t.rows[order[k].id], now, token)]
  {
    assert order[..k + 1] == order[..k] + [order[k]];
    assert Ids(order[..k + 1]) == Ids(order[..k]) + {order[k].id};
    assert order[k].id !in Ids(order[..k]);
  }

  ghost function HitsFrom(rows: seq<Row>, i: nat, wanted: set<Lease>): set<Lease> {
    set j | i <= j < |rows| && LeaseOf(rows[j]) in wanted && rows[j].token.Some? :: LeaseOf(rows[j])
  }

  lemma HitsStep(rows: seq<Row>, i: nat, wanted: set<Lease>)
    requires i < |rows|
    ensures HitsFrom(rows, i, wanted) == HitsFrom(rows, i + 1, wanted) +
              if LeaseOf(rows[i]) in wanted && rows[i].token.Some? then {LeaseOf(rows[i])} else {}
  {
  }

  ghost function IdsOf(ls: set<Lease>): set<nat> { set l | l in ls :: l.id }

  /** After scanning from the end down to i: the hits so far are gone, the rest is untouched. */
  ghost predicate Scanned(before: seq<Row>, rows: seq<Row>, i: nat, wanted: set<Lease>, deleted: set<Lease>) {
    && i <= |rows| && i <= |before| && Ascending(rows)
    && (forall j :: 0 <= j < i ==> rows[j] == before[j])
    && Live(rows) == Live(before) - IdsOf(deleted)
    && deleted == HitsFrom(before, i, wanted)
  }

  lemma ScanStart(before: seq<Row>, wanted: set<Lease>)
    requires Ascending(before)
    ensures Scanned(before, before, |before|, wanted, {})
  {
    assert Live(before) - IdsOf({}) == Live(before);
  }

  lemma ScanStep(before: seq<Row>, rows: seq<Row>, i: nat, wanted: set<Lease>, deleted: set<Lease>)
    requires Scanned(before, rows, i + 1, wanted, deleted)
    ensures var l := LeaseOf(rows[i]);
            if l.token.Some? && l in wanted
            then Scanned(before, Without(rows, i), i, wanted, deleted + {l})
            else Scanned(before, rows, i, wanted, deleted)
  {
    var l := LeaseOf(rows[i]);
    HitsStep(before, i, wanted);
    if l.token.Some? && l in wanted {
      RemoveAscends(rows, i);
      RemoveAt(rows, i);
      assert IdsOf(deleted + {l}) == IdsOf(deleted) + {l.id};
      assert Live(before) - IdsOf(deleted) - {l.id} == Live(before) - IdsOf(deleted + {l});
    }
  }

  lemma HitsAre(rows: seq<Row>, t: Table, pairs: seq<Lease>, wanted: set<Lease>)
    requires Ascending(rows) && t.rows == Live(rows)
    requires wanted == set l | l in pairs && l.token.Some?
    ensures HitsFrom(rows, 0, wanted) == BatchHits(t, Elems(pairs))
  {
    forall l | l in HitsFrom(rows, 0, wanted) ensures l in BatchHits(t, Elems(pairs)) {
      var j :| 0 <= j < |rows| && LeaseOf(rows[j]) == l && l in wanted && l.token.Some?;
      RowAt(rows, j);
    }
    forall l | l in BatchHits(t, Elems(pairs)) ensures l in HitsFrom(rows, 0, wanted) {
      var j := IndexOf(rows, l.id);
      assert LeaseOf(rows[j]) == l;
    }
  }
}
