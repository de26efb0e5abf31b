// The leased-row table as a value: what each statement does to it. A row is claimable when its
// lease is unset or expired, and every terminal write names the lease it believes it holds.

module LeaseTable {
  import opened Prelude
  import opened Rows
  import opened Ordering

  datatype Table = Table(rows: map<nat, Row>, nextId: nat, dlq: seq<DlqRow>)

  /** What a writer presents: the row it handled and the token it was handed. */
  datatype Lease = Lease(id: nat, token: Option<nat>)

  function LeaseOf(r: Row): Lease { Lease(r.id, r.token) }

  /** Counts the copies that carry one lease. */
  function OfLease(l: Lease): Row -> nat { (r: Row) => if LeaseOf(r) == l then 1 else 0 }

  const EMPTY := Table(map[], 1, [])

  predicate HoldsTimer(r: Row, queue: string, timer: string) {
    r.queue == queue && r.timer == Some(timer)
  }

  predicate SameTimer(a: Row, b: Row) {
    a.timer.Some? && a.timer == b.timer && a.queue == b.queue
  }

  ghost predicate RowOk(t: Table, id: nat) {
    id in t.rows ==>
      && t.rows[id].id == id
      && 1 <= id < t.nextId
      && (t.rows[id].token.Some? <==> t.rows[id].acquiredAt.Some?)
  }

  ghost predicate TimersUnique(t: Table) {
    forall a, b :: a in t.rows && b in t.rows && SameTimer(t.rows[a], t.rows[b]) ==> a == b
  }

  ghost predicate Valid(t: Table) {
    && t.nextId >= 1
    && (forall id :: RowOk(t, id))
    && TimersUnique(t)
  }

  // ----- claiming -----

  predicate Expired(r: Row, now: real, ttl: real) {
    r.acquiredAt.Some? && r.acquiredAt.value < now - ttl
  }

  predicate Claimable(r: Row, queues: seq<string>, now: real, ttl: real) {
    r.queue in queues && r.nextAt <= now && (r.token.None? || Expired(r, now, ttl))
  }

  function KeyOf(r: Row): Key { Key(r.nextAt, r.id) }

  ghost function ClaimableIds(t: Table, queues: seq<string>, now: real, ttl: real, locked: set<nat>): set<nat> {
    set id | id in t.rows && id !in locked && Claimable(t.rows[id], queues, now, ttl)
  }

  ghost function Keys(t: Table, ids: set<nat>): set<Key>
    requires ids <= t.rows.Keys
  {
    set id | id in ids :: KeyOf(t.rows[id])
  }

  ghost function AsSeq(s: set<Key>): (r: seq<Key>)
    ensures multiset(r) == multiset(s)
  {
    if s == {} then [] else
      var k :| k in s;
      assert s == {k} + (s - {k});
      [k] + AsSeq(s - {k})
  }

  /** The rows a fetch picks, in the order it returns them: the oldest `limit` claimable unlocked rows. */
  ghost function Picked(t: Table, queues: seq<string>, limit: nat, now: real, ttl: real, locked: set<nat>): seq<Key> {
    Oldest(AsSeq(Keys(t, ClaimableIds(t, queues, now, ttl, locked))), limit)
  }

  function Claim(r: Row, now: real, token: nat): Row {
    r.(acquiredAt := Some(now), token := Some(token), deliveries := r.deliveries + 1)
  }

  function ClaimRows(t: Table, ids: set<nat>, now: real, token: nat): Table {
    t.(rows := map id | id in t.rows :: if id in ids then Claim(t.rows[id], now, token) else t.rows[id])
  }

  function Ids(keys: seq<Key>): set<nat> { set i | 0 <= i < |keys| :: keys[i].id }

  /** The copies handed to the fetcher. */
  ghost function Copies(t: Table, keys: seq<Key>): seq<Row>
    requires forall k :: k in keys ==> k.id in t.rows
  {
    seq(|keys|, i requires 0 <= i < |keys| => t.rows[keys[i].id])
  }

  lemma PickedAreClaimable(t: Table, queues: seq<string>, limit: nat, now: real, ttl: real, locked: set<nat>)
    requires Valid(t)
    ensures forall k :: k in Picked(t, queues, limit, now, ttl, locked) ==>
              k.id in ClaimableIds(t, queues, now, ttl, locked) && k == KeyOf(t.rows[k.id])
  {
    var all := Keys(t, ClaimableIds(t, queues, now, ttl, locked));
    SortSorts(AsSeq(all));
    forall k | k in Picked(t, queues, limit, now, ttl, locked)
      ensures k.id in ClaimableIds(t, queues, now, ttl, locked) && k == KeyOf(t.rows[k.id])
    {
      InMultiset(Sort(AsSeq(all)), k);
      assert k in all;
      var id :| id in ClaimableIds(t, queues, now, ttl, locked) && k == KeyOf(t.rows[id]);
      assert RowOk(t, id);
    }
  }

  lemma PickedInOrder(t: Table, queues: seq<string>, limit: nat, now: real, ttl: real, locked: set<nat>)
    requires Valid(t)
    ensures var ks := Picked(t, queues, limit, now, ttl, locked);
            && Sorted(ks)
            && |ks| <= limit
            && (forall i, j :: 0 <= i < j < |ks| ==> ks[i].id != ks[j].id)
  {
    var all := Keys(t, ClaimableIds(t, queues, now, ttl, locked));
    var s := AsSeq(all);
    var ks := Picked(t, queues, limit, now, ttl, locked);
    SortSorts(s);
    PickedAreClaimable(t, queues, limit, now, ttl, locked);
    forall i, j | 0 <= i < j < |ks| ensures ks[i].id != ks[j].id {
      DistinctInSet(Sort(s), all, i, j);
      assert ks[i] in ks && ks[j] in ks;
    }
  }

  lemma Twice(s: seq<Key>, i: nat, j: nat)
    requires i < j < |s| && s[i] == s[j]
    ensures multiset(s)[s[i]] >= 2
  {
    assert s == s[..j] + s[j..];
    assert multiset(s)[s[i]] == multiset(s[..j])[s[i]] + multiset(s[j..])[s[i]];
    assert s[..j][i] == s[i] && s[j..][0] == s[i];
    InMultiset(s[..j], s[i]);
    InMultiset(s[j..], s[i]);
  }

  lemma DistinctInSet(s: seq<Key>, all: set<Key>, i: nat, j: nat)
    requires multiset(s) == multiset(all) && i < j < |s|
    ensures s[i] != s[j]
  {
    if s[i] == s[j] {
      Twice(s, i, j);
    }
  }

  /** No live row is stranded: once its deadline and any lease have passed, every fetch of its queue
      whose limit covers the claimable backlog returns it, unless another transaction holds it locked. */
  lemma NotStranded(t: Table, id: nat, queues: seq<string>, limit: nat, now: real, ttl: real, locked: set<nat>)
    requires Valid(t) && id in t.rows && t.rows[id].queue in queues && id !in locked
    requires t.rows[id].nextAt <= now
    requires t.rows[id].acquiredAt.Some? ==> t.rows[id].acquiredAt.value + ttl < now
    requires |ClaimableIds(t, queues, now, ttl, locked)| <= limit
    ensures KeyOf(t.rows[id]) in Picked(t, queues, limit, now, ttl, locked)
  {
    var ids := ClaimableIds(t, queues, now, ttl, locked);
    var s := AsSeq(Keys(t, ids));
    assert RowOk(t, id);
    assert id in ids;
    SortSorts(s);
    KeysSize(t, ids);
    assert |s| == |multiset(s)| == |Keys(t, ids)|;
    assert KeyOf(t.rows[id]) in multiset(s);
    InMultiset(Sort(s), KeyOf(t.rows[id]));
  }

  lemma {:induction false} KeysSize(t: Table, ids: set<nat>)
    requires ids <= t.rows.Keys
    ensures |Keys(t, ids)| <= |ids|
    decreases ids
  {
    if ids != {} {
      var id :| id in ids;
      KeysSize(t, ids - {id});
      assert Keys(t, ids) == Keys(t, ids - {id}) + {KeyOf(t.rows[id])};
    }
  }

  // ----- terminal and retry writes -----

  /** A write lands only for the current lease; an unset token on either side never matches. */
  predicate Holds(t: Table, l: Lease) {
    l.token.Some? && l.id in t.rows && t.rows[l.id].token == l.token
  }

  function Delete(t: Table, l: Lease, failure: Option<Failure>, now: real): Table {
    if !Holds(t, l) then t else
      t.(rows := t.rows - {l.id},
         dlq := if failure.Some? then t.dlq + [Archive(t.rows[l.id], failure.value, now)] else t.dlq)
  }

  /** What a delete reports: refused outright, or run, with whether it landed. */
  datatype Answer = Refused | Ran(landed: bool)

  /** The in-memory client's delete: an archive request without a dead-letter table is refused, but only when
      the row matches. */
  function TryDelete(dlq: bool, t: Table, l: Lease, failure: Option<Failure>, now: real): (Answer, Table) {
    if failure.Some? && !dlq && Holds(t, l) then (Refused, t) else (Ran(Holds(t, l)), Delete(t, l, failure, now))
  }

  ghost function BatchHits(t: Table, wanted: set<Lease>): set<Lease> {
    set l | l in wanted && Holds(t, l)
  }

  ghost function DeleteBatch(t: Table, wanted: set<Lease>): Table {
    t.(rows := t.rows - (set l | l in BatchHits(t, wanted) :: l.id))
  }

  function Reschedule(t: Table, l: Lease, delay: real, attempts: nat, first: real, last: real, now: real): Table {
    if !Holds(t, l) then t else
      var r := t.rows[l.id];
      t.(rows := t.rows[l.id := r.(
        nextAt := now + (if delay > 0.0 then delay else 0.0),
        attempts := attempts,
        firstAt := Some(first),
        lastAt := Some(last),
        acquiredAt := None,
        token := None)])
  }

  // ----- publishing -----

  datatype Conflict = Ignore | Extend

  predicate TimerTaken(t: Table, queue: string, timer: string) {
    exists id :: id in t.rows && HoldsTimer(t.rows[id], queue, timer)
  }

  ghost function TimerRow(t: Table, queue: string, timer: string): (id: nat)
    requires TimerTaken(t, queue, timer)
    ensures id in t.rows && HoldsTimer(t.rows[id], queue, timer)
  {
    var id :| id in t.rows && HoldsTimer(t.rows[id], queue, timer);
    id
  }

  function NewRow(id: nat, q: Request, timer: Option<string>, now: real): Row {
    Row(id, q.queue, q.payload, q.headers, 0, 0, now, q.at, None, None, None, None, timer)
  }

  function Append(t: Table, q: Request, timer: Option<string>, now: real): Table {
    t.(rows := t.rows[t.nextId := NewRow(t.nextId, q, timer, now)], nextId := t.nextId + 1)
  }

  /** An extend of an unleased timer: a strictly later deadline replaces the payload and resets the retry history. */
  function ExtendRow(r: Row, q: Request): Row {
    if r.token.Some? || q.at <= r.nextAt then r
    else r.(nextAt := q.at, payload := q.payload, headers := q.headers, attempts := 0, firstAt := None, lastAt := None)
  }

  ghost function Insert(
    t: Table, q: Request, timer: Option<string>, conflict: Conflict, now: real): (Table, Option<nat>)
  {
    if timer.Some? && TimerTaken(t, q.queue, timer.value) then
      var id := TimerRow(t, q.queue, timer.value);
      if conflict.Extend? && t.rows[id].token.None? then
        (t.(rows := t.rows[id := ExtendRow(t.rows[id], q)]), Some(id))
      else (t, None)
    else (Append(t, q, timer, now), Some(t.nextId))
  }

  function InsertBatch(t: Table, qs: seq<Request>, now: real): Table
    decreases |qs|
  {
    if qs == [] then t else InsertBatch(Append(t, qs[0], None, now), qs[1..], now)
  }

  ghost function Cancel(t: Table, queue: string, timer: string): Table {
    if TimerTaken(t, queue, timer) && t.rows[TimerRow(t, queue, timer)].token.None?
    then t.(rows := t.rows - {TimerRow(t, queue, timer)}) else t
  }

  ghost predicate Cancels(t: Table, queue: string, timer: string) {
    TimerTaken(t, queue, timer) && t.rows[TimerRow(t, queue, timer)].token.None?
  }

  lemma TimerRowUnique(t: Table, queue: string, timer: string, id: nat)
    requires TimersUnique(t) && id in t.rows && HoldsTimer(t.rows[id], queue, timer)
    ensures TimerTaken(t, queue, timer) && TimerRow(t, queue, timer) == id
  {
  }
}
