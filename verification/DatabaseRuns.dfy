// Runs of the leased-row table and what every one of them keeps.

module DatabaseRuns {
  import opened Prelude
  import opened Rows
  import opened LeaseTable
  import opened History
  import opened Database

  /** One statement, by anyone. A fetch names the rows other transactions hold locked and the token it drew. */
  datatype Op =
    | Tick(elapsed: real)
    | Publish(request: Request, timer: Option<string>, conflict: Conflict)
    | PublishBatch(requests: seq<Request>)
    | Fetch(queues: seq<string>, limit: nat, ttl: real, locked: set<nat>, token: nat)
    | Finish(lease: Lease, outcome: Outcome, exception: Option<string>)
    | FinishAll(done: seq<Done>)
    | Retire(lease: Lease, delay: real, attempts: nat, first: real, last: real)
    | Cancel(queue: string, timerId: string)

  /** The only assumptions: the database clock does not go back, tokens are fresh per fetch, and a retry write
      reports one more attempt than the copy it was handed and keeps its first attempt time. */
  ghost predicate Allowed(cfg: Config, w: World, op: Op) {
    match op
    case Tick(elapsed) => elapsed >= 0.0
    case Fetch(_, _, _, _, token) => Valid(w.table) && token !in w.tokens
    case Retire(l, _, attempts, first, _) => Honest(cfg, w, l, attempts, first)
    case _ => true
  }

  ghost function Step(cfg: Config, w: World, op: Op): World
    requires Allowed(cfg, w, op)
  {
    match op
    case Tick(elapsed) => w.(now := w.now + elapsed)
    case Publish(q, timer, conflict) => Database.Publish(w, q, timer, conflict)
    case PublishBatch(qs) => Database.PublishBatch(w, qs)
    case Fetch(queues, limit, ttl, locked, token) => Database.Fetch(w, queues, limit, ttl, locked, token)
    case Finish(l, outcome, exception) => Database.Finish(cfg, w, l, outcome, exception)
    case FinishAll(ds) => Database.FinishAll(cfg, w, ds)
    case Retire(l, delay, attempts, first, last) => Database.Retire(w, l, delay, attempts, first, last)
    case Cancel(queue, timer) => Database.Withdraw(w, queue, timer)
  }

  ghost predicate StepAt(cfg: Config, ws: seq<World>, ops: seq<Op>, i: nat)
    requires i < |ops| && |ws| == |ops| + 1
  {
    Allowed(cfg, ws[i], ops[i]) && ws[i + 1] == Step(cfg, ws[i], ops[i])
  }

  /** The states of a run: each follows from the one before by one allowed statement. */
  ghost predicate Run(cfg: Config, ws: seq<World>, ops: seq<Op>) {
    && |ws| == |ops| + 1
    && ws[0] == START
    && forall i :: 0 <= i < |ops| ==> StepAt(cfg, ws, ops, i)
  }

  ghost predicate Reachable(cfg: Config, w: World) {
    exists ws, ops :: Run(cfg, ws, ops) && ws[|ops|] == w
  }

  lemma {:induction false} PublishBatchKeeps(cfg: Config, w: World, qs: seq<Request>)
    requires Inv(cfg, w)
    ensures Inv(cfg, Database.PublishBatch(w, qs))
    decreases |qs|
  {
    if qs != [] {
      PublishKeeps(cfg, w, qs[0], None, Ignore);
      PublishBatchKeeps(cfg, Database.Publish(w, qs[0], None, Ignore), qs[1..]);
    }
  }

  lemma TickKeeps(cfg: Config, w: World, elapsed: real)
    requires Inv(cfg, w)
    ensures Inv(cfg, w.(now := w.now + elapsed))
  {
    var w' := w.(now := w.now + elapsed);
    forall i | 0 <= i < |w.log| ensures ClaimKept(w', w'.log[i]) { assert ClaimKept(w, w.log[i]); }
    forall id ensures Linked(w', id) && Counted(cfg, w', id) && Storied(w', id) {
      assert Linked(w, id) && Counted(cfg, w, id) && Storied(w, id);
    }
  }

  /** Every statement keeps the invariant. */
  lemma StepKeeps(cfg: Config, w: World, op: Op)
    requires Inv(cfg, w) && Allowed(cfg, w, op)
    ensures Inv(cfg, Step(cfg, w, op))
  {
    match op
    case Tick(elapsed) => TickKeeps(cfg, w, elapsed);
    case Publish(q, timer, conflict) => PublishKeeps(cfg, w, q, timer, conflict);
    case PublishBatch(qs) => PublishBatchKeeps(cfg, w, qs);
    case Fetch(queues, limit, ttl, locked, token) => FetchKeeps(cfg, w, queues, limit, ttl, locked, token);
    case Finish(l, outcome, exception) => FinishKeeps(cfg, w, l, outcome, exception);
    case FinishAll(ds) => FinishAllKeeps(cfg, w, ds);
    case Retire(l, delay, attempts, first, last) => RetireKeeps(cfg, w, l, delay, attempts, first, last);
    case Cancel(queue, timer) => WithdrawKeeps(cfg, w, queue, timer);
  }

  lemma StartHolds(cfg: Config)
    ensures Inv(cfg, START)
  {
    assert forall id :: RowOk(START.table, id);
    assert forall id :: Linked(START, id) && Counted(cfg, START, id) && Storied(START, id);
  }

  lemma {:induction false} RunKeeps(cfg: Config, ws: seq<World>, ops: seq<Op>, i: nat)
    requires Run(cfg, ws, ops) && i <= |ops|
    ensures Inv(cfg, ws[i])
  {
    if i == 0 {
      StartHolds(cfg);
    } else {
      RunKeeps(cfg, ws, ops, i - 1);
      assert StepAt(cfg, ws, ops, i - 1);
      StepKeeps(cfg, ws[i - 1], ops[i - 1]);
    }
  }

  lemma ReachableKeeps(cfg: Config, w: World)
    requires Reachable(cfg, w)
    ensures Inv(cfg, w)
  {
    var ws, ops :| Run(cfg, ws, ops) && ws[|ops|] == w;
    RunKeeps(cfg, ws, ops, |ops|);
  }

  lemma ReachableNext(cfg: Config, w: World, op: Op)
    requires Reachable(cfg, w) && Allowed(cfg, w, op)
    ensures Reachable(cfg, Step(cfg, w, op))
  {
    var ws, ops :| Run(cfg, ws, ops) && ws[|ops|] == w;
    var ws', ops' := ws + [Step(cfg, w, op)], ops + [op];
    RunExtends(cfg, ws, ops, op);
    assert ws'[|ops'|] == Step(cfg, w, op);
  }

  lemma RunExtends(cfg: Config, ws: seq<World>, ops: seq<Op>, op: Op)
    requires Run(cfg, ws, ops) && Allowed(cfg, ws[|ops|], op)
    ensures Run(cfg, ws + [Step(cfg, ws[|ops|], op)], ops + [op])
  {
    var ws', ops' := ws + [Step(cfg, ws[|ops|], op)], ops + [op];
    forall i | 0 <= i < |ops'| ensures StepAt(cfg, ws', ops', i) {
      if i < |ops| { assert StepAt(cfg, ws, ops, i); }
    }
  }

  // ----- what a run guarantees -----

  /** While a row still carries a claim's token, every stored column equals the copy that claim handed
      out: no extend, cancel, reclaim or other write can have touched it. */
  lemma LeasedRowIsItsCopy(cfg: Config, w: World, id: nat, token: nat)
    requires Reachable(cfg, w)
    requires id in w.table.rows && w.table.rows[id].token == Some(token)
    ensures (id, token) in w.claims && w.table.rows[id] == w.claims[(id, token)]
  {
    ReachableKeeps(cfg, w);
    assert Linked(w, id);
    var i := LastIndex(w.log, id);
    assert ClaimKept(w, w.log[i]);
  }

  /** No claim before it is due: a row is claimed no earlier than the deadline its insert, the last extend that
      moved it, or the last retry write asked for. */
  lemma NoClaimBeforeDue(cfg: Config, w: World, j: nat, k: nat)
    requires Reachable(cfg, w) && j < k < |w.log| && w.log[k].Claimed? && w.log[j].id == w.log[k].id
    requires IsFree(w.log[j]) && forall i :: j < i < k && w.log[i].id == w.log[j].id ==> !IsFree(w.log[i])
    ensures IsRequest(w.log[j]) ==> w.log[k].at >= w.log[j].request.at
    ensures w.log[j].Rescheduled? ==> w.log[k].at >= w.log[j].at && w.log[k].at >= w.log[j].at + w.log[j].delay
    ensures w.log[k].copy.lastAt == if w.log[j].Rescheduled? then Some(w.log[j].last) else None
  {
    ReachableKeeps(cfg, w);
    NumberedAt(w.log, k);
    var upTo := w.log[..k + 1];
    assert NoneSince(upTo, j, (e: Entry) => IsFree(e));
    DueSinceFree(upTo, j);
    LastSinceFree(upTo, j);
  }

  /** Every claimed copy carries the queue, timer and creation time of its insert, and the payload and headers
      of that insert or of the last extend that moved its deadline. */
  lemma CopyIsAsRequested(cfg: Config, w: World, b: nat, j: nat, k: nat)
    requires Reachable(cfg, w) && b <= j < k < |w.log| && w.log[k].Claimed?
    requires w.log[b].Born? && IsRequest(w.log[j]) && w.log[b].id == w.log[j].id == w.log[k].id
    requires forall i :: j < i < k && w.log[i].id == w.log[j].id ==> !IsRequest(w.log[i])
    ensures var r := w.log[k].copy;
            && r.id == w.log[b].id && r.queue == w.log[b].request.queue && r.timer == w.log[b].timer
            && r.createdAt == w.log[b].at
            && r.payload == w.log[j].request.payload && r.headers == w.log[j].request.headers
  {
    ReachableKeeps(cfg, w);
    NumberedAt(w.log, k);
    var upTo := w.log[..k + 1];
    assert NoneSince(upTo, j, (e: Entry) => IsRequest(e));
    PayloadSinceRequest(upTo, j);
    forall i | b < i <= k && w.log[i].id == w.log[b].id ensures !w.log[i].Born? { BornOnce(w.log, b, i); }
    assert NoneSince(upTo, b, (e: Entry) => e.Born?);
    IdentitySinceBirth(upTo, b);
  }

  /** Once an attempt was written back, every later copy carries the first attempt's time, until an extend
      resets it. */
  lemma FirstAttemptStays(cfg: Config, w: World, j: nat, r: nat, k: nat)
    requires Reachable(cfg, w) && j < r < k < |w.log| && w.log[k].Claimed? && IsRequest(w.log[j])
    requires w.log[r].Rescheduled? && w.log[j].id == w.log[r].id == w.log[k].id
    requires NoReschedule(w.log, w.log[j].id, j, r)
    requires forall i :: j < i < k && w.log[i].id == w.log[j].id ==> !IsRequest(w.log[i])
    ensures w.log[k].copy.firstAt == Some(w.log[r].first)
  {
    ReachableKeeps(cfg, w);
    NumberedAt(w.log, k);
    var upTo := w.log[..k + 1];
    assert NoneSince(upTo, j, (e: Entry) => IsRequest(e));
    FirstSinceRequest(upTo, j, r);
  }

  /** A live row stores the deadline of the last entry that set it, whatever claims came since. */
  lemma LiveRowDeadline(cfg: Config, w: World, j: nat)
    requires Reachable(cfg, w) && j < |w.log| && IsFree(w.log[j]) && w.log[j].id in w.table.rows
    requires forall i :: j < i < |w.log| && w.log[i].id == w.log[j].id ==> !IsFree(w.log[i])
    ensures w.table.rows[w.log[j].id].nextAt == Deadline(w.log[j])
  {
    ReachableKeeps(cfg, w);
    assert Storied(w, w.log[j].id);
    assert NoneSince(w.log, j, (e: Entry) => IsFree(e));
    DueSinceFree(w.log, j);
  }

  /** Over any run at most one terminal or retry write lands per claim, and it lands directly after
      that claim on its row. A holder whose row was reclaimed, rescheduled or removed changes nothing. */
  lemma WritesFollowClaims(cfg: Config, w: World, i: nat, j: nat) returns (c: nat)
    requires Reachable(cfg, w) && i < |w.log| && j < |w.log| && i != j && IsWrite(w.log[i]) && IsWrite(w.log[j])
    ensures w.log[i].id != w.log[j].id || w.log[i].token != w.log[j].token
    ensures c < i && w.log[c].Claimed? && w.log[c].id == w.log[i].id && w.log[c].token == w.log[i].token
    ensures NoneBetween(w.log, w.log[i].id, c, i)
  {
    ReachableKeeps(cfg, w);
    c := WriteFollowsItsClaim(w.log, i);
    if w.log[i].id == w.log[j].id {
      if i < j { OneWritePerClaim(w.log, i, j); } else { OneWritePerClaim(w.log, j, i); }
    }
  }

  /** Two successive claims of a row have a landed reschedule between them or are more than the
      reclaiming fetch's lease apart. */
  lemma ClaimsOfARunExclude(cfg: Config, w: World, i: nat, k: nat) returns (r: nat)
    requires Reachable(cfg, w)
    requires i < k < |w.log| && w.log[i].Claimed? && w.log[k].Claimed? && w.log[i].id == w.log[k].id
    requires forall j :: i < j < k && w.log[j].id == w.log[i].id ==> !w.log[j].Claimed?
    ensures w.log[k].at - w.log[i].at > w.log[k].ttl
         || (i < r < k && w.log[r].Rescheduled? && w.log[r].id == w.log[i].id)
  {
    ReachableKeeps(cfg, w);
    r := ClaimsExclude(w.log, i, k);
  }

  ghost function ClaimedUnder(log: seq<Entry>, token: nat): set<nat> {
    set i | 0 <= i < |log| && log[i].Claimed? && log[i].token == token :: log[i].id
  }

  /** Fetch b comes after fetch a, within its own lease, and no row of a was rescheduled in between. */
  ghost predicate Overlapping(log: seq<Entry>, a: nat, b: nat) {
    forall i, k :: 0 <= i < |log| && 0 <= k < |log| && log[i].Claimed? && log[k].Claimed?
                   && log[i].token == a && log[k].token == b ==>
      i < k && log[k].at - log[i].at <= log[k].ttl && NoReschedule(log, log[i].id, i, k)
  }

  /** The rows two such fetches hand out are disjoint, whatever fetches came between. */
  lemma FetchesAreDisjoint(cfg: Config, w: World, a: nat, b: nat)
    requires Reachable(cfg, w) && Overlapping(w.log, a, b)
    requires forall j :: 0 <= j < |w.log| && w.log[j].Claimed? ==> w.log[j].ttl >= 0.0
    ensures ClaimedUnder(w.log, a) !! ClaimedUnder(w.log, b)
  {
    ReachableKeeps(cfg, w);
    forall id | id in ClaimedUnder(w.log, a) ensures id !in ClaimedUnder(w.log, b) {
      var i :| 0 <= i < |w.log| && w.log[i].Claimed? && w.log[i].token == a && w.log[i].id == id;
      forall k | 0 <= k < |w.log| && w.log[k].Claimed? && w.log[k].token == b ensures w.log[k].id != id {
        if w.log[k].id == id { ReclaimsWaitOut(w.log, i, k); }
      }
    }
  }

  /** Conservation: every inserted id is in exactly one of live, acked, terminally failed, cancelled;
      and with a dead-letter table it has exactly as many archive rows as terminal failures. */
  lemma Conservation(cfg: Config, w: World, id: nat)
    requires Reachable(cfg, w) && 1 <= id < w.table.nextId
    ensures (if id in w.table.rows then 1 else 0)
            + Fates(w.log, id, Acked) + Fates(w.log, id, Failed) + Fates(w.log, id, Withdrawn) == 1
    ensures CopiesOf(w.table.dlq, id) == if cfg.dlq then Fates(w.log, id, Failed) else 0
  {
    ReachableKeeps(cfg, w);
    assert Counted(cfg, w, id);
    ArchiveCounts(w.log, id);
  }

  /** Each archive row holds, column by column, what the claim whose delete landed handed out, and the instant,
      reason and exception of that delete. */
  lemma ArchiveMatchesClaim(cfg: Config, w: World, d: DlqRow) returns (c: nat, k: nat)
    requires Reachable(cfg, w) && d in w.table.dlq
    ensures c < k < |w.log| && w.log[c].Claimed? && w.log[k].Removed? && w.log[k].outcome.Terminal?
    ensures w.log[c].id == w.log[k].id && w.log[c].token == w.log[k].token
    ensures var r := w.log[c].copy;
            && d.originalId == r.id == w.log[k].id && d.queue == r.queue
            && d.payload == r.payload && d.headers == r.headers
            && d.deliveries == r.deliveries && d.createdAt == r.createdAt && d.timer == r.timer
    ensures d.failedAt == w.log[k].at && d.reason == w.log[k].outcome.reason && d.exception == w.log[k].exception
  {
    ReachableKeeps(cfg, w);
    c, k := ArchiveOrigin(w.log, d);
    NumberedAt(w.log, c);
  }

  /** The stored counters are exact: deliveries counts the claims, attempts counts the reschedules landed
      since the row was inserted or its history reset, and stays below the attempt limit. */
  lemma CountersExact(cfg: Config, w: World, id: nat)
    requires Reachable(cfg, w) && id in w.table.rows
    ensures w.table.rows[id].deliveries == Claims(w.log, id)
    ensures w.table.rows[id].attempts == Retries(w.log, id)
    ensures cfg.maxAttempts.Some? && cfg.maxAttempts.value >= 1 ==> Retries(w.log, id) <= cfg.maxAttempts.value - 1
  {
    ReachableKeeps(cfg, w);
    assert Counted(cfg, w, id);
  }

  /** The table itself stays well formed: ids below the counter, one live row per timer, a lease fully
      set or fully unset. Hence no live row is stranded. */
  lemma NothingStranded(
    cfg: Config, w: World, id: nat, queues: seq<string>, limit: nat, ttl: real, locked: set<nat>)
    requires Reachable(cfg, w) && id in w.table.rows && w.table.rows[id].queue in queues && id !in locked
    requires w.table.rows[id].nextAt <= w.now
    requires w.table.rows[id].acquiredAt.Some? ==> w.table.rows[id].acquiredAt.value + ttl < w.now
    requires |ClaimableIds(w.table, queues, w.now, ttl, locked)| <= limit
    ensures Valid(w.table) && KeyOf(w.table.rows[id]) in Picked(w.table, queues, limit, w.now, ttl, locked)
  {
    ReachableKeeps(cfg, w);
    NotStranded(w.table, id, queues, limit, w.now, ttl, locked);
  }
}
