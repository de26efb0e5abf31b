// The table together with its history: every statement as one step, taken by any publisher, any
// subscriber, any late or orphaned writer, in any order.

module Database {
  import opened Prelude
  import opened Rows
  import opened Ordering
  import opened LeaseTable
  import opened TableLaws
  import opened History

  /** Whether a dead-letter table is configured, and the retry strategy's attempt limit. */
  datatype Config = Config(dlq: bool, maxAttempts: Option<nat>)

  /** `tokens` holds every token a fetch has drawn; `claims` every copy a fetch has handed out. */
  datatype World = World(
    table: Table, now: real, log: seq<Entry>, tokens: set<nat>, claims: map<(nat, nat), Row>)

  const START := World(EMPTY, 0.0, [], {}, map[])

  // ----- statements -----

  ghost function Record(w: World, t: Table, e: Entry): World {
    w.(table := t, log := w.log + [e])
  }

  /** Whether a publish to a live timer moves its deadline. */
  predicate Moves(r: Row, q: Request, conflict: Conflict) { conflict.Extend? && r.token.None? && q.at > r.nextAt }

  ghost function Publish(w: World, q: Request, timer: Option<string>, conflict: Conflict): World {
    var t := Insert(w.table, q, timer, conflict, w.now).0;
    if timer.Some? && TimerTaken(w.table, q.queue, timer.value) then
      var id := TimerRow(w.table, q.queue, timer.value);
      if Moves(w.table.rows[id], q, conflict) then Record(w, t, Extended(id, q)) else w.(table := t)
    else Record(w, t, Born(w.table.nextId, q, timer, w.now))
  }

  ghost function PublishBatch(w: World, qs: seq<Request>): World
    decreases |qs|
  {
    if qs == [] then w else PublishBatch(Publish(w, qs[0], None, Ignore), qs[1..])
  }

  ghost function ClaimOne(w: World, id: nat, token: nat, ttl: real): World
    requires id in w.table.rows
  {
    var r := Claim(w.table.rows[id], w.now, token);
    World(w.table.(rows := w.table.rows[id := r]), w.now,
          w.log + [Claimed(id, token, w.now, ttl, r)], w.tokens, w.claims[(id, token) := r])
  }

  ghost function ClaimEach(w: World, ks: seq<Key>, token: nat, ttl: real): World
    requires forall k :: k in ks ==> k.id in w.table.rows
    decreases |ks|
  {
    if ks == [] then w else ClaimEach(ClaimOne(w, ks[0].id, token, ttl), ks[1..], token, ttl)
  }

  ghost function Fetch(w: World, queues: seq<string>, limit: nat, ttl: real, locked: set<nat>, token: nat): World
    requires Valid(w.table)
  {
    PickedAreClaimable(w.table, queues, limit, w.now, ttl, locked);
    ClaimEach(w, Picked(w.table, queues, limit, w.now, ttl, locked), token, ttl).(tokens := w.tokens + {token})
  }

  function FailureOf(cfg: Config, outcome: Outcome, exception: Option<string>): Option<Failure> {
    if outcome.Terminal? && cfg.dlq then Some(Failure(outcome.reason, exception)) else None
  }

  /** A terminal delete; a terminal failure carries its archive copy when a dead-letter table is configured. */
  ghost function Finish(cfg: Config, w: World, l: Lease, outcome: Outcome, exception: Option<string>): World {
    if !Holds(w.table, l) then w else
      Record(w, Delete(w.table, l, FailureOf(cfg, outcome, exception), w.now),
             Removed(l.id, l.token.value, outcome, w.table.rows[l.id], exception, w.now))
  }

  /** One row of a buffered flush: the lease and the outcome it was handled with. */
  datatype Done = Done(lease: Lease, outcome: Outcome, exception: Option<string>)

  ghost function FinishAll(cfg: Config, w: World, ds: seq<Done>): World
    decreases |ds|
  {
    if ds == [] then w
    else FinishAll(cfg, Finish(cfg, w, ds[0].lease, ds[0].outcome, ds[0].exception), ds[1..])
  }

  ghost function Retire(w: World, l: Lease, delay: real, attempts: nat, first: real, last: real): World {
    if !Holds(w.table, l) then w else
      Record(w, Reschedule(w.table, l, delay, attempts, first, last, w.now),
             Rescheduled(l.id, l.token.value, delay, first, last, w.now))
  }

  ghost function Withdraw(w: World, queue: string, timer: string): World {
    if !Cancels(w.table, queue, timer) then w else
      Record(w, Cancel(w.table, queue, timer), Cancelled(TimerRow(w.table, queue, timer)))
  }

  // ----- what every reachable world satisfies -----

  /** A row's stored state is determined by the latest history entry about it. While that entry is a
      claim, the stored row is the very copy the claim handed out. */
  ghost predicate Linked(w: World, id: nat) {
    match Last(w.log, id)
    case None => id !in w.table.rows && (id == 0 || id >= w.table.nextId)
    case Some(e) =>
      && 1 <= id < w.table.nextId
      && (IsEnd(e) ==> id !in w.table.rows)
      && (IsFree(e) ==> id in w.table.rows && w.table.rows[id].token.None?)
      && (e.Claimed? ==>
            && id in w.table.rows && w.table.rows[id] == e.copy
            && e.copy.token == Some(e.token) && e.copy.acquiredAt == Some(e.at))
  }

  /** Delivery and attempt counters against the history; one end per row that is no longer live. */
  ghost predicate Counted(cfg: Config, w: World, id: nat) {
    && (id in w.table.rows ==>
          && w.table.rows[id].deliveries == Claims(w.log, id)
          && w.table.rows[id].attempts == Retries(w.log, id)
          && (cfg.maxAttempts.Some? ==>
                w.table.rows[id].attempts == 0 || w.table.rows[id].attempts < cfg.maxAttempts.value))
    && (id in w.table.rows ==> Ends(w.log, id) == 0)
    && (1 <= id < w.table.nextId && id !in w.table.rows ==> Ends(w.log, id) == 1)
    && (id >= w.table.nextId ==> Ends(w.log, id) == 0 && Claims(w.log, id) == 0)
  }

  /** Every other stored column is what the history says. */
  ghost predicate Storied(w: World, id: nat) {
    id in w.table.rows ==> FactsOf(w.log, id) == Some(RowFacts(w.table.rows[id]))
  }

  ghost predicate ClaimKept(w: World, e: Entry) {
    e.Claimed? ==> e.token in w.tokens && (e.id, e.token) in w.claims && w.claims[(e.id, e.token)] == e.copy
  }

  ghost predicate ClaimsKept(w: World) {
    forall i :: 0 <= i < |w.log| ==> ClaimKept(w, w.log[i])
  }

  ghost predicate ClaimTokens(w: World) {
    forall p :: p in w.claims ==> p.1 in w.tokens
  }

  ghost predicate ArchiveKept(cfg: Config, w: World) {
    w.table.dlq == if cfg.dlq then Archives(w.log) else []
  }

  ghost predicate Inv(cfg: Config, w: World) {
    && Valid(w.table)
    && Legal(w.log)
    && ClaimsKept(w)
    && ClaimTokens(w)
    && RowsNamed(w.log)
    && Numbered(w.log)
    && ArchiveKept(cfg, w)
    && (forall id :: Linked(w, id))
    && (forall id :: Counted(cfg, w, id))
    && (forall id :: Storied(w, id))
  }

  /** A retry write is honest when it reports one more attempt than the copy it was handed, within
      the strategy's limit, and keeps a first attempt time the copy already had. Every worker's is. */
  ghost predicate Honest(cfg: Config, w: World, l: Lease, attempts: nat, first: real) {
    l.token.Some? && (l.id, l.token.value) in w.claims ==>
      && attempts == w.claims[(l.id, l.token.value)].attempts + 1
      && (w.claims[(l.id, l.token.value)].firstAt.Some? ==> w.claims[(l.id, l.token.value)].firstAt.value == first)
      && (cfg.maxAttempts.Some? ==> attempts < cfg.maxAttempts.value)
  }

  // ----- one new entry changes nothing about other rows -----

  lemma OtherRowKept(cfg: Config, w: World, w': World, e: Entry, id: nat)
    requires w'.log == w.log + [e] && e.id != id
    requires id in w.table.rows <==> id in w'.table.rows
    requires id in w.table.rows ==> w.table.rows[id] == w'.table.rows[id]
    requires w'.table.nextId == w.table.nextId || (w'.table.nextId == w.table.nextId + 1 && id != w.table.nextId)
    requires Linked(w, id) && Counted(cfg, w, id) && Storied(w, id)
    ensures Linked(w', id) && Counted(cfg, w', id) && Storied(w', id)
  {
    LastOfAppend(w.log, e, id);
    CountsOfAppend(w.log, e, id);
    FactsOfAppend(w.log, e, id);
  }

  lemma EntryKept(w: World, w': World, e: Entry)
    requires ClaimsKept(w) && RowsNamed(w.log)
    requires w'.log == w.log + [e]
    requires w.tokens <= w'.tokens && (forall p :: p in w.claims ==> p in w'.claims && w'.claims[p] == w.claims[p])
    requires ClaimKept(w', e)
    requires e.Removed? ==> e.row.id == e.id
    ensures ClaimsKept(w') && RowsNamed(w'.log)
  {
    forall i | 0 <= i < |w'.log| ensures ClaimKept(w', w'.log[i]) {
      if i < |w.log| { assert ClaimKept(w, w.log[i]); }
    }
  }

  // ----- publishing and cancelling -----

  lemma PublishKeeps(cfg: Config, w: World, q: Request, timer: Option<string>, conflict: Conflict)
    requires Inv(cfg, w)
    ensures Inv(cfg, Publish(w, q, timer, conflict))
  {
    InsertValid(w.table, q, timer, conflict, w.now);
    if timer.Some? && TimerTaken(w.table, q.queue, timer.value) {
      var id := TimerRow(w.table, q.queue, timer.value);
      if Moves(w.table.rows[id], q, conflict) {
        ExtendKeeps(cfg, w, q, timer.value, conflict);
      } else {
        SameRowSameTable(w.table, id);
      }
    } else {
      BirthKeeps(cfg, w, q, timer);
    }
  }

  lemma BirthKeeps(cfg: Config, w: World, q: Request, timer: Option<string>)
    requires Inv(cfg, w) && Valid(Append(w.table, q, timer, w.now))
    ensures Inv(cfg, Record(w, Append(w.table, q, timer, w.now), Born(w.table.nextId, q, timer, w.now)))
  {
    var n := w.table.nextId;
    var e := Born(n, q, timer, w.now);
    var w' := Record(w, Append(w.table, q, timer, w.now), e);
    assert Linked(w, n) && Counted(cfg, w, n);
    LegalAppend(w.log, e);
    NumberedAppend(w.log, e);
    EntryKept(w, w', e);
    ArchivesOfAppend(w.log, e);
    LastOfAppend(w.log, e, n);
    CountsOfAppend(w.log, e, n);
    FactsOfAppend(w.log, e, n);
    assert n !in w.table.rows by { assert RowOk(w.table, n); }
    forall id ensures Linked(w', id) && Counted(cfg, w', id) && Storied(w', id) {
      assert Linked(w, id) && Counted(cfg, w, id) && Storied(w, id);
      if id != n { OtherRowKept(cfg, w, w', e, id); }
    }
  }

  /** One row rewritten or dropped by a single entry. */
  lemma OneRowKeeps(cfg: Config, w: World, w': World, e: Entry)
    requires Inv(cfg, w)
    requires w' == Record(w, w'.table, e) && !e.Claimed? && !e.Born?
    requires Valid(w'.table) && w'.table.nextId == w.table.nextId
    requires LegalNext(w.log, e)
    requires e.Removed? ==> e.row.id == e.id
    requires w'.table.dlq == w.table.dlq +
               if cfg.dlq && e.Removed? && e.outcome.Terminal?
               then [Archive(e.row, Failure(e.outcome.reason, e.exception), e.at)] else []
    requires forall id :: id != e.id ==>
               ((id in w.table.rows <==> id in w'.table.rows)
                && (id in w.table.rows ==> w.table.rows[id] == w'.table.rows[id]))
    requires Linked(w', e.id) && Counted(cfg, w', e.id) && Storied(w', e.id)
    ensures Inv(cfg, w')
  {
    LegalAppend(w.log, e);
    NumberedAppend(w.log, e);
    EntryKept(w, w', e);
    ArchivesOfAppend(w.log, e);
    forall id ensures Linked(w', id) && Counted(cfg, w', id) && Storied(w', id) {
      assert Linked(w, id) && Counted(cfg, w, id) && Storied(w, id);
      if id != e.id { OtherRowKept(cfg, w, w', e, id); }
    }
  }

  lemma SameRowSameTable(t: Table, id: nat)
    requires id in t.rows
    ensures t.(rows := t.rows[id := t.rows[id]]) == t
  {
    assert t.rows[id := t.rows[id]] == t.rows;
  }

  lemma ExtendKeeps(cfg: Config, w: World, q: Request, timer: string, conflict: Conflict)
    requires Inv(cfg, w) && TimerTaken(w.table, q.queue, timer)
    requires Valid(Insert(w.table, q, Some(timer), conflict, w.now).0)
    requires Moves(w.table.rows[TimerRow(w.table, q.queue, timer)], q, conflict)
    ensures Inv(cfg, Publish(w, q, Some(timer), conflict))
  {
    var id := TimerRow(w.table, q.queue, timer);
    var w', e := Publish(w, q, Some(timer), conflict), Extended(id, q);
    assert Linked(w, id) && Counted(cfg, w, id);
    assert Storied(w, id);
    LastOfAppend(w.log, e, id);
    CountsOfAppend(w.log, e, id);
    FactsOfAppend(w.log, e, id);
    OneRowKeeps(cfg, w, w', e);
  }

  lemma WithdrawKeeps(cfg: Config, w: World, queue: string, timer: string)
    requires Inv(cfg, w)
    ensures Inv(cfg, Withdraw(w, queue, timer))
  {
    if Cancels(w.table, queue, timer) {
      var id := TimerRow(w.table, queue, timer);
      var e := Cancelled(id);
      assert Linked(w, id) && Counted(cfg, w, id);
      LastOfAppend(w.log, e, id);
      CountsOfAppend(w.log, e, id);
      CancelValid(w.table, queue, timer);
      OneRowKeeps(cfg, w, Withdraw(w, queue, timer), e);
    }
  }

  // ----- terminal and retry writes -----

  lemma FinishKeeps(cfg: Config, w: World, l: Lease, outcome: Outcome, exception: Option<string>)
    requires Inv(cfg, w)
    ensures Inv(cfg, Finish(cfg, w, l, outcome, exception))
  {
    if Holds(w.table, l) {
      var e := Removed(l.id, l.token.value, outcome, w.table.rows[l.id], exception, w.now);
      assert Linked(w, l.id) && Counted(cfg, w, l.id) && RowOk(w.table, l.id);
      LastOfAppend(w.log, e, l.id);
      CountsOfAppend(w.log, e, l.id);
      DeleteValid(w.table, l, FailureOf(cfg, outcome, exception), w.now);
      OneRowKeeps(cfg, w, Finish(cfg, w, l, outcome, exception), e);
    }
  }

  lemma {:induction false} FinishAllKeeps(cfg: Config, w: World, ds: seq<Done>)
    requires Inv(cfg, w)
    ensures Inv(cfg, FinishAll(cfg, w, ds))
    decreases |ds|
  {
    if ds != [] {
      FinishKeeps(cfg, w, ds[0].lease, ds[0].outcome, ds[0].exception);
      FinishAllKeeps(cfg, Finish(cfg, w, ds[0].lease, ds[0].outcome, ds[0].exception), ds[1..]);
    }
  }

  lemma RetireKeeps(cfg: Config, w: World, l: Lease, delay: real, attempts: nat, first: real, last: real)
    requires Inv(cfg, w) && Honest(cfg, w, l, attempts, first)
    ensures Inv(cfg, Retire(w, l, delay, attempts, first, last))
  {
    if Holds(w.table, l) {
      var e := Rescheduled(l.id, l.token.value, delay, first, last, w.now);
      assert Linked(w, l.id) && Counted(cfg, w, l.id) && Storied(w, l.id);
      var i := LastIndex(w.log, l.id);
      assert ClaimKept(w, w.log[i]);
      LastOfAppend(w.log, e, l.id);
      CountsOfAppend(w.log, e, l.id);
      FactsOfAppend(w.log, e, l.id);
      RescheduleValid(w.table, l, delay, attempts, first, last, w.now);
      OneRowKeeps(cfg, w, Retire(w, l, delay, attempts, first, last), e);
    }
  }

  // ----- fetching -----

  ghost predicate CanClaim(w: World, id: nat, token: nat, ttl: real) {
    && id in w.table.rows && token in w.tokens && (id, token) !in w.claims
    && w.table.rows[id].nextAt <= w.now
    && (w.table.rows[id].token.None? || Expired(w.table.rows[id], w.now, ttl))
  }

  lemma ClaimOneKeeps(cfg: Config, w: World, id: nat, token: nat, ttl: real)
    requires Inv(cfg, w) && CanClaim(w, id, token, ttl)
    ensures Inv(cfg, ClaimOne(w, id, token, ttl))
  {
    var w' := ClaimOne(w, id, token, ttl);
    var e := Final(w'.log);
    assert w'.log == w.log + [e];
    assert Linked(w, id) && Counted(cfg, w, id) && Storied(w, id) && RowOk(w.table, id);
    assert NeverClaimed(w.log, id, token) by { assert forall i :: 0 <= i < |w.log| ==> ClaimKept(w, w.log[i]); }
    UpdateValid(w.table, id, w'.table.rows[id]);
    LegalAppend(w.log, e);
    LastOfAppend(w.log, e, id);
    CountsOfAppend(w.log, e, id);
    FactsOfAppend(w.log, e, id);
    NumberedAppend(w.log, e);
    EntryKept(w, w', e);
    ArchivesOfAppend(w.log, e);
    forall x ensures Linked(w', x) && Counted(cfg, w', x) && Storied(w', x) {
      assert Linked(w, x) && Counted(cfg, w, x) && Storied(w, x);
      if x != id { OtherRowKept(cfg, w, w', e, x); }
    }
  }

  ghost predicate DistinctIds(ks: seq<Key>) {
    forall i, j :: 0 <= i < j < |ks| ==> ks[i].id != ks[j].id
  }

  lemma {:induction false} ClaimEachKeeps(cfg: Config, w: World, ks: seq<Key>, token: nat, ttl: real)
    requires Inv(cfg, w) && DistinctIds(ks)
    requires forall k :: k in ks ==> k.id in w.table.rows && CanClaim(w, k.id, token, ttl)
    ensures Inv(cfg, ClaimEach(w, ks, token, ttl))
    decreases |ks|
  {
    if ks != [] {
      var w1 := ClaimOne(w, ks[0].id, token, ttl);
      ClaimOneKeeps(cfg, w, ks[0].id, token, ttl);
      forall k | k in ks[1..] ensures k.id in w1.table.rows && CanClaim(w1, k.id, token, ttl) {
        var i :| 0 <= i < |ks[1..]| && ks[1..][i] == k;
        assert ks[0].id != ks[i + 1].id;
        assert CanClaim(w, k.id, token, ttl);
      }
      ClaimEachKeeps(cfg, w1, ks[1..], token, ttl);
    }
  }

  /** Claiming one row at a time is the single UPDATE over the picked ids. */
  lemma {:induction false} ClaimEachIsUpdate(w: World, ks: seq<Key>, token: nat, ttl: real)
    requires DistinctIds(ks) && forall k :: k in ks ==> k.id in w.table.rows
    ensures ClaimEach(w, ks, token, ttl).table == ClaimRows(w.table, Ids(ks), w.now, token)
    ensures ClaimEach(w, ks, token, ttl).now == w.now
    decreases |ks|
  {
    if ks == [] {
      assert ClaimRows(w.table, Ids(ks), w.now, token).rows == w.table.rows;
    } else {
      var w1 := ClaimOne(w, ks[0].id, token, ttl);
      ClaimEachIsUpdate(w1, ks[1..], token, ttl);
      assert Ids(ks) == {ks[0].id} + Ids(ks[1..]) by { assert ks == [ks[0]] + ks[1..]; }
      assert ks[0].id !in Ids(ks[1..]) by { assert forall i :: 0 <= i < |ks[1..]| ==> ks[1..][i] == ks[i + 1]; }
    }
  }

  lemma FetchKeeps(cfg: Config, w: World, queues: seq<string>, limit: nat, ttl: real, locked: set<nat>, token: nat)
    requires Inv(cfg, w) && token !in w.tokens
    ensures Inv(cfg, Fetch(w, queues, limit, ttl, locked, token))
  {
    PickedAreClaimable(w.table, queues, limit, w.now, ttl, locked);
    PickedInOrder(w.table, queues, limit, w.now, ttl, locked);
    var ks, w0 := Picked(w.table, queues, limit, w.now, ttl, locked), w.(tokens := w.tokens + {token});
    assert Inv(cfg, w0) by {
      forall i | 0 <= i < |w0.log| ensures ClaimKept(w0, w0.log[i]) { assert ClaimKept(w, w.log[i]); }
      forall id ensures Linked(w0, id) && Counted(cfg, w0, id) && Storied(w0, id) {
        assert Linked(w, id) && Counted(cfg, w, id) && Storied(w, id);
      }
    }
    forall k | k in ks ensures k.id in w0.table.rows && CanClaim(w0, k.id, token, ttl) {
      assert (k.id, token).1 == token;
    }
    ClaimEachKeeps(cfg, w0, ks, token, ttl);
    TokensFirst(w, ks, token, ttl);
  }

  lemma {:induction false} TokensFirst(w: World, ks: seq<Key>, token: nat, ttl: real)
    requires forall k :: k in ks ==> k.id in w.table.rows
    ensures var w0 := w.(tokens := w.tokens + {token});
            ClaimEach(w0, ks, token, ttl) == ClaimEach(w, ks, token, ttl).(tokens := w0.tokens)
    ensures ClaimEach(w, ks, token, ttl).tokens == w.tokens
    decreases |ks|
  {
    if ks != [] {
      TokensFirst(ClaimOne(w, ks[0].id, token, ttl), ks[1..], token, ttl);
      assert ClaimOne(w.(tokens := w.tokens + {token}), ks[0].id, token, ttl)
          == ClaimOne(w, ks[0].id, token, ttl).(tokens := w.tokens + {token});
    }
  }
}
