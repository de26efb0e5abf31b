// The SQL forms of the statements, read as functions of the visible rows, and their agreement with
// the simple table statements.

module SqlClient {
  import opened Prelude
  import opened Rows
  import opened Ordering
  import opened LeaseTable
  import opened TableLaws
  import opened RowList

  // ----- the claim query -----

  datatype Branch = Pending | Overdue

  function LeaseState(b: Branch, cutoff: real): Row -> bool {
    match b
    case Pending => (r: Row) => r.token.None?
    case Overdue => (r: Row) => r.token.Some? && r.acquiredAt.Some? && r.acquiredAt.value < cutoff
  }

  /** The WHERE clause of one branch, extended to any list of queues. */
  function InBranch(b: Branch, queues: seq<string>, now: real, ttl: real, locked: set<nat>): Row -> bool {
    (r: Row) => r.queue in queues && r.nextAt <= now && LeaseState(b, now - ttl)(r) && r.id !in locked
  }

  function Distinct(queues: seq<string>): seq<string> {
    if queues == [] then []
    else if queues[0] in queues[1..] then Distinct(queues[1..])
    else [queues[0]] + Distinct(queues[1..])
  }

  ghost predicate NoneTwice(queues: seq<string>) {
    forall i, j :: 0 <= i < j < |queues| ==> queues[i] != queues[j]
  }

  /** Per queue, everything the branch's scan would see without its LIMIT. */
  function Scans(
    heap: seq<Row>, b: Branch, queues: seq<string>, now: real, ttl: real, locked: set<nat>): seq<seq<Key>>
  {
    if queues == [] then []
    else [Select(heap, InBranch(b, [queues[0]], now, ttl, locked))] + Scans(heap, b, queues[1..], now, ttl, locked)
  }

  /** UNION ALL of the two branches, each cut at `limit` per queue. */
  function Candidates(
    heap: seq<Row>, queues: seq<string>, limit: nat, now: real, ttl: real, locked: set<nat>): seq<Key>
  {
    var names := Distinct(queues);
    Flatten(EachOldest(Scans(heap, Pending, names, now, ttl, locked), limit))
    + Flatten(EachOldest(Scans(heap, Overdue, names, now, ttl, locked), limit))
  }

  function Ready(heap: seq<Row>, queues: seq<string>, limit: nat, now: real, ttl: real, locked: set<nat>): seq<Key> {
    Oldest(Candidates(heap, queues, limit, now, ttl, locked), limit)
  }

  lemma {:induction false} DistinctFacts(queues: seq<string>)
    ensures NoneTwice(Distinct(queues))
    ensures forall q :: q in Distinct(queues) <==> q in queues
  {
    if queues != [] {
      DistinctFacts(queues[1..]);
      assert queues == [queues[0]] + queues[1..];
    }
  }

  /** A scan by either of two conditions that never both hold is the bag sum of the two scans. */
  lemma {:induction false} SelectSplits(heap: seq<Row>, p: Row -> bool, a: Row -> bool, b: Row -> bool)
    requires forall r :: r in heap ==> (p(r) <==> a(r) || b(r)) && !(a(r) && b(r))
    ensures multiset(Select(heap, p)) == multiset(Select(heap, a) + Select(heap, b))
  {
    if heap != [] {
      SelectSplits(heap[1..], p, a, b);
      assert heap[0] in heap;
    }
  }

  lemma {:induction false} SelectNothing(heap: seq<Row>, p: Row -> bool)
    requires forall r :: r in heap ==> !p(r)
    ensures Select(heap, p) == []
  {
    if heap != [] {
      assert heap[0] in heap;
      SelectNothing(heap[1..], p);
    }
  }

  lemma QueuesSplit(heap: seq<Row>, b: Branch, queues: seq<string>, now: real, ttl: real, locked: set<nat>)
    requires NoneTwice(queues) && queues != []
    ensures multiset(Select(heap, InBranch(b, queues, now, ttl, locked)))
         == multiset(Select(heap, InBranch(b, [queues[0]], now, ttl, locked)))
          + multiset(Select(heap, InBranch(b, queues[1..], now, ttl, locked)))
  {
    assert queues == [queues[0]] + queues[1..];
    assert queues[0] !in queues[1..];
    SelectSplits(heap, InBranch(b, queues, now, ttl, locked),
                 InBranch(b, [queues[0]], now, ttl, locked), InBranch(b, queues[1..], now, ttl, locked));
  }

  /** The per-queue scans of one branch together see each of its rows once, because the names are distinct. */
  lemma {:induction false} ScansCover(
    heap: seq<Row>, b: Branch, queues: seq<string>, now: real, ttl: real, locked: set<nat>)
    requires NoneTwice(queues)
    ensures multiset(Flatten(Scans(heap, b, queues, now, ttl, locked)))
         == multiset(Select(heap, InBranch(b, queues, now, ttl, locked)))
  {
    if queues == [] {
      SelectNothing(heap, InBranch(b, queues, now, ttl, locked));
    } else {
      var rest := queues[1..];
      ScansCover(heap, b, rest, now, ttl, locked);
      QueuesSplit(heap, b, queues, now, ttl, locked);
    }
  }

  lemma Tail<T>(a: seq<T>, b: seq<T>)
    requires a != []
    ensures (a + b)[0] == a[0] && (a + b)[1..] == a[1..] + b
  {
  }

  lemma Associative<T>(x: seq<T>, y: seq<T>, z: seq<T>)
    ensures x + (y + z) == (x + y) + z
  {
  }

  lemma {:induction false} FlattenAppend(a: seq<seq<Key>>, b: seq<seq<Key>>)
    ensures Flatten(a + b) == Flatten(a) + Flatten(b)
  {
    if a == [] {
      assert a + b == b;
    } else {
      FlattenAppend(a[1..], b);
      Tail(a, b);
      Associative(a[0], Flatten(a[1..]), Flatten(b));
    }
  }

  lemma {:induction false} EachOldestAppend(a: seq<seq<Key>>, b: seq<seq<Key>>, n: nat)
    ensures EachOldest(a + b, n) == EachOldest(a, n) + EachOldest(b, n)
  {
    if a == [] {
      assert a + b == b;
    } else {
      EachOldestAppend(a[1..], b, n);
      Tail(a, b);
      Associative([Oldest(a[0], n)], EachOldest(a[1..], n), EachOldest(b, n));
    }
  }

  /** The claim query refines the simple one: cutting each (queue, lease state) branch at `limit`, uniting
      and cutting again selects the first `limit` of all unlocked claimable rows in order, for every
      table, queue list with repeats, lock set and limit. */
  lemma ReadyIsOldestClaimable(heap: seq<Row>, queues: seq<string>, limit: nat, now: real, ttl: real, locked: set<nat>)
    ensures Ready(heap, queues, limit, now, ttl, locked)
         == Oldest(Select(heap, IsClaimable(queues, now, ttl, locked)), limit)
  {
    var names := Distinct(queues);
    var ps := Scans(heap, Pending, names, now, ttl, locked);
    var os := Scans(heap, Overdue, names, now, ttl, locked);
    FlattenAppend(ps, os);
    EachOldestAppend(ps, os, limit);
    FlattenAppend(EachOldest(ps, limit), EachOldest(os, limit));
    OldestOfBranches(ps + os, limit);
    DistinctFacts(queues);
    ScansCover(heap, Pending, names, now, ttl, locked);
    ScansCover(heap, Overdue, names, now, ttl, locked);
    SelectSplits(heap, IsClaimable(queues, now, ttl, locked),
                 InBranch(Pending, names, now, ttl, locked), InBranch(Overdue, names, now, ttl, locked));
    SortByContents(Flatten(ps) + Flatten(os), Select(heap, IsClaimable(queues, now, ttl, locked)));
  }

  /** RETURNING yields the claimed rows in any order; sorting them restores the claim order. */
  lemma SortedReturn(heap: seq<Row>, returned: seq<Key>, queues: seq<string>,
                     limit: nat, now: real, ttl: real, locked: set<nat>)
    requires multiset(returned) == multiset(Ready(heap, queues, limit, now, ttl, locked))
    ensures Sort(returned) == Ready(heap, queues, limit, now, ttl, locked)
  {
    SortSorts(Candidates(heap, queues, limit, now, ttl, locked));
    SortByContents(returned, Ready(heap, queues, limit, now, ttl, locked));
    SortOfSorted(Ready(heap, queues, limit, now, ttl, locked));
  }

  /** On the table: whatever order RETURNING yields, the query updates exactly the rows the in-memory client
      claims, and returns them in the same order. */
  lemma {:induction false} QueryClaimsPicked(
    t: Table, heap: seq<Row>, returned: seq<Key>, queues: seq<string>,
    limit: nat, now: real, ttl: real, locked: set<nat>, token: nat)
    requires Ascending(heap) && t.rows == Live(heap) && Valid(t)
    requires multiset(returned) == multiset(Ready(heap, queues, limit, now, ttl, locked))
    ensures Sort(returned) == Picked(t, queues, limit, now, ttl, locked)
    ensures ClaimRows(t, Ids(returned), now, token)
         == ClaimRows(t, Ids(Picked(t, queues, limit, now, ttl, locked)), now, token)
  {
    ReadyIsOldestClaimable(heap, queues, limit, now, ttl, locked);
    ScanPicks(t, heap, queues, limit, now, ttl, locked);
    SortedReturn(heap, returned, queues, limit, now, ttl, locked);
    SortSorts(returned);
    SameIds(returned, Sort(returned));
  }

  lemma SameIds(a: seq<Key>, b: seq<Key>)
    requires multiset(a) == multiset(b)
    ensures Ids(a) == Ids(b)
  {
    forall k: Key ensures k in a <==> k in b {
      InMultiset(a, k);
      InMultiset(b, k);
    }
    forall id | id in Ids(a) ensures id in Ids(b) {
      var i :| 0 <= i < |a| && a[i].id == id;
      assert a[i] in b;
    }
    forall id | id in Ids(b) ensures id in Ids(a) {
      var i :| 0 <= i < |b| && b[i].id == id;
      assert b[i] in a;
    }
  }

  // ----- the upsert -----

  function Greatest(a: real, b: real): real { if a >= b then a else b }

  /** ON CONFLICT DO UPDATE, column by column, with its WHERE on the lease. */
  function UpsertRow(r: Row, excluded: Request): Row {
    if r.token.Some? then r else
      var later := excluded.at > r.nextAt;
      r.(nextAt := Greatest(r.nextAt, excluded.at),
         payload := if later then excluded.payload else r.payload,
         headers := if later then excluded.headers else r.headers,
         attempts := if later then 0 else r.attempts,
         firstAt := if later then None else r.firstAt,
         lastAt := if later then None else r.lastAt)
  }

  lemma UpsertIsExtend(r: Row, q: Request)
    ensures UpsertRow(r, q) == ExtendRow(r, q)
  {
    if r.token.None? && q.at <= r.nextAt {
      assert Greatest(r.nextAt, q.at) == r.nextAt;
    }
  }

  function UpsertAll(r: Row, qs: seq<Request>): Row
    decreases |qs|
  {
    if qs == [] then r else UpsertAll(UpsertRow(r, qs[0]), qs[1..])
  }

  /** Any sequence of upserts agrees with the branching form, so it too is a running maximum. */
  lemma {:induction false} UpsertsKeepTheLatest(r: Row, qs: seq<Request>)
    requires r.token.None?
    ensures UpsertAll(r, qs) == ExtendAll(r, qs) && IsLatest(r, qs, UpsertAll(r, qs).nextAt)
    decreases |qs|
  {
    if qs != [] {
      UpsertIsExtend(r, qs[0]);
      UpsertsKeepTheLatest(UpsertRow(r, qs[0]), qs[1..]);
    }
    var _ := ExtendsKeepTheLatest(r, qs);
  }

  // ----- the archiving delete -----

  ghost function Matching(t: Table, l: Lease): set<nat> {
    set id | id in t.rows && id == l.id && l.token.Some? && t.rows[id].token == l.token
  }

  /** What the DELETE returns, and what the SELECT over it inserts; failed_at is the archive's own default. */
  datatype Returned = Returned(
    id: nat,
    queue: string,
    payload: Bytes,
    headers: Option<Headers>,
    deliveriesCount: nat,
    createdAt: real,
    timerId: Option<string>)

  function Returning(r: Row): Returned {
    Returned(r.id, r.queue, r.payload, r.headers, r.deliveries, r.createdAt, r.timer)
  }

  function Inserted(d: Returned, failureReason: Reason, lastException: Option<string>, failedAt: real): DlqRow {
    DlqRow(
      originalId := d.id, queue := d.queue, payload := d.payload, headers := d.headers,
      deliveries := d.deliveriesCount, createdAt := d.createdAt, timer := d.timerId,
      failedAt := failedAt, reason := failureReason, exception := lastException)
  }

  ghost function ArchiveEach(t: Table, ids: set<nat>, f: Failure, now: real): seq<DlqRow>
    requires ids <= t.rows.Keys
  {
    if ids == {} then [] else
      var id :| id in ids;
      [Inserted(Returning(t.rows[id]), f.reason, f.exception, now)] + ArchiveEach(t, ids - {id}, f, now)
  }

  /** WITH deleted AS (DELETE ... RETURNING ...) INSERT INTO dlq SELECT ... FROM deleted. */
  ghost function DeleteAndArchive(t: Table, l: Lease, f: Failure, now: real): Table {
    var deleted := Matching(t, l);
    t.(rows := t.rows - deleted, dlq := t.dlq + ArchiveEach(t, deleted, f, now))
  }

  lemma ArchiveOne(t: Table, id: nat, f: Failure, now: real)
    requires id in t.rows
    ensures ArchiveEach(t, {id}, f, now) == [Archive(t.rows[id], f, now)]
  {
    assert {id} - {id} == {};
  }

  lemma CteIsDelete(t: Table, l: Lease, f: Failure, now: real)
    ensures DeleteAndArchive(t, l, f, now) == Delete(t, l, Some(f), now)
    ensures Matching(t, l) != {} <==> Holds(t, l)
  {
    if Holds(t, l) {
      assert l.id in Matching(t, l);
      assert Matching(t, l) == {l.id};
      ArchiveOne(t, l.id, f, now);
    } else {
      assert Matching(t, l) == {};
      assert t.rows - {} == t.rows;
    }
  }

  /** The database client's delete: an archive request without a dead-letter table is refused outright; else
      one of the two statements runs, and its row count answers. */
  ghost function DatabaseDelete(dlq: bool, t: Table, l: Lease, failure: Option<Failure>, now: real): (Answer, Table) {
    if failure.Some? && !dlq then (Refused, t)
    else (Ran(|Matching(t, l)| > 0),
          if failure.Some? then DeleteAndArchive(t, l, failure.value, now) else t.(rows := t.rows - Matching(t, l)))
  }

  lemma MatchingIs(t: Table, l: Lease)
    ensures Matching(t, l) == (if Holds(t, l) then {l.id} else {})
  {
  }

  /** The two clients answer alike and leave the same table if and only if there is no archive to write, a
      dead-letter table exists, or the lease still holds. */
  lemma DeletesAgreeIff(dlq: bool, t: Table, l: Lease, failure: Option<Failure>, now: real)
    ensures DatabaseDelete(dlq, t, l, failure, now) == TryDelete(dlq, t, l, failure, now)
       <==> (failure.Some? && !dlq ==> Holds(t, l))
  {
    MatchingIs(t, l);
    if failure.Some? { CteIsDelete(t, l, failure.value, now); }
    assert t.rows - {} == t.rows;
  }

  // ----- queue lag -----

  function Least(a: Option<real>, b: Option<real>): Option<real> {
    if a.None? then b else if b.None? then a else if a.value <= b.value then a else b
  }

  function HeadAt(s: seq<Key>): Option<real> { if s == [] then None else Some(s[0].at) }

  function Coalesce(a: Option<real>, b: real): real { if a.Some? then a.value else b }

  function UpTo(p: Row -> bool, cut: real): Row -> bool { (r: Row) => p(r) && r.nextAt <= cut }

  /** least(pending, overdue), with the expired branch cut at the oldest pending deadline. */
  function Lag(heap: seq<Row>, queue: string, now: real, ttl: real): Option<real> {
    var pending := HeadAt(Oldest(Select(heap, InBranch(Pending, [queue], now, ttl, {})), 1));
    var cut := UpTo(InBranch(Overdue, [queue], now, ttl, {}), Coalesce(pending, now));
    var overdue := HeadAt(Oldest(Select(heap, cut), 1));
    Least(pending, overdue)
  }

  ghost predicate IsMinimum(s: seq<Key>, m: Option<real>) {
    && (m.None? <==> s == [])
    && (m.Some? ==> (exists k :: k in s && k.at == m.value) && forall k :: k in s ==> m.value <= k.at)
  }

  lemma HeadIsMinimum(s: seq<Key>)
    ensures IsMinimum(s, HeadAt(Oldest(s, 1)))
  {
    SortSorts(s);
    forall k ensures k in s <==> k in Sort(s) {
      InMultiset(s, k);
      InMultiset(Sort(s), k);
    }
    if s != [] {
      assert Oldest(s, 1) == [Sort(s)[0]];
      assert Sort(s)[0] in s;
      forall k | k in s ensures Sort(s)[0].at <= k.at { HeadIsLeast(Sort(s), k); }
    }
  }

  /** The pruned lag query is exact: it is the least deadline over all claimable rows of the queue, is empty
      iff none is claimable, and is the deadline of the row a fetch with limit 1 would claim. */
  lemma {:induction false} LagIsExact(heap: seq<Row>, queue: string, now: real, ttl: real)
    ensures Lag(heap, queue, now, ttl) == HeadAt(Ready(heap, [queue], 1, now, ttl, {}))
    ensures IsMinimum(Select(heap, IsClaimable([queue], now, ttl, {})), Lag(heap, queue, now, ttl))
  {
    var ps, os := InBranch(Pending, [queue], now, ttl, {}), InBranch(Overdue, [queue], now, ttl, {});
    var pending := HeadAt(Oldest(Select(heap, ps), 1));
    var cut := UpTo(os, Coalesce(pending, now));
    var all := IsClaimable([queue], now, ttl, {});
    HeadIsMinimum(Select(heap, ps));
    HeadIsMinimum(Select(heap, cut));
    HeadIsMinimum(Select(heap, all));
    ReadyIsOldestClaimable(heap, [queue], 1, now, ttl, {});
    PrunedMinimum(heap, ps, os, all, now, pending, HeadAt(Oldest(Select(heap, cut), 1)));
    MinimumUnique(Select(heap, all), Lag(heap, queue, now, ttl), HeadAt(Oldest(Select(heap, all), 1)));
  }

  lemma MinimumUnique(s: seq<Key>, a: Option<real>, b: Option<real>)
    requires IsMinimum(s, a) && IsMinimum(s, b)
    ensures a == b
  {
  }

  lemma PrunedMinimum(heap: seq<Row>, ps: Row -> bool, os: Row -> bool, all: Row -> bool, now: real,
                      pending: Option<real>, overdue: Option<real>)
    requires forall r :: r in heap ==> (all(r) <==> ps(r) || os(r)) && (os(r) ==> r.nextAt <= now)
    requires IsMinimum(Select(heap, ps), pending)
    requires IsMinimum(Select(heap, UpTo(os, Coalesce(pending, now))), overdue)
    ensures IsMinimum(Select(heap, all), Least(pending, overdue))
  {
    var cut := UpTo(os, Coalesce(pending, now));
    forall k | k in Select(heap, ps) ensures k in Select(heap, all) {
      var i := SelectComesFrom(heap, k, ps);
      SelectHas(heap, i, all);
    }
    forall k | k in Select(heap, cut) ensures k in Select(heap, all) {
      var i := SelectComesFrom(heap, k, cut);
      SelectHas(heap, i, all);
    }
    forall k | k in Select(heap, all) ensures Least(pending, overdue).Some? && Least(pending, overdue).value <= k.at {
      var i := SelectComesFrom(heap, k, all);
      if ps(heap[i]) {
        SelectHas(heap, i, ps);
      } else if heap[i].nextAt <= Coalesce(pending, now) {
        SelectHas(heap, i, cut);
      }
    }
    if Select(heap, all) != [] { assert Select(heap, all)[0] in Select(heap, all); }
    if Select(heap, ps) != [] { assert Select(heap, ps)[0] in Select(heap, all); }
    if Select(heap, cut) != [] { assert Select(heap, cut)[0] in Select(heap, all); }
  }
}
