// The claims of a run as a multiset of handed-out copies: which statements add to it, and how often one
// lease or one row can occur in it.

module ClaimLaws {
  import opened Prelude
  import opened Rows
  import opened Ordering
  import opened LeaseTable
  import opened History
  import opened Database
  import Runs = DatabaseRuns

  /** A copy some fetch really handed out. */
  ghost predicate Backed(w: World, r: Row) {
    r.token.Some? && (r.id, r.token.value) in w.claims && w.claims[(r.id, r.token.value)] == r
  }

  /** The copies a fetch hands out, in the order it returns them. */
  ghost function Handed(w: World, ks: seq<Key>, token: nat): seq<Row>
    requires forall k :: k in ks ==> k.id in w.table.rows
  {
    seq(|ks|, i requires 0 <= i < |ks| => Claim(w.table.rows[ks[i].id], w.now, token))
  }

  function WithinDeliveries(id: nat, limit: nat): Row -> nat {
    (r: Row) => if r.id == id && r.deliveries <= limit then 1 else 0
  }

  function OfRow(id: nat): Row -> nat { (r: Row) => if r.id == id then 1 else 0 }

  // ----- which statements hand out copies -----

  ghost predicate NoClaims(w: World, w': World, g: Row -> nat) {
    w'.claims == w.claims && ClaimSum(w'.log, g) == ClaimSum(w.log, g)
  }

  lemma PublishClaimsNothing(w: World, q: Request, timer: Option<string>, conflict: Conflict, g: Row -> nat)
    ensures NoClaims(w, Publish(w, q, timer, conflict), g)
  {
    ClaimSumOfAppend(w.log, Born(w.table.nextId, q, timer, w.now), g);
    if timer.Some? && TimerTaken(w.table, q.queue, timer.value) {
      ClaimSumOfAppend(w.log, Extended(TimerRow(w.table, q.queue, timer.value), q), g);
    }
  }

  lemma {:induction false} BatchClaimsNothing(w: World, qs: seq<Request>, g: Row -> nat)
    ensures NoClaims(w, PublishBatch(w, qs), g)
    decreases |qs|
  {
    if qs != [] {
      PublishClaimsNothing(w, qs[0], None, Ignore, g);
      BatchClaimsNothing(Publish(w, qs[0], None, Ignore), qs[1..], g);
    }
  }

  lemma FinishClaimsNothing(cfg: Config, w: World, l: Lease, outcome: Outcome, exception: Option<string>, g: Row -> nat)
    ensures NoClaims(w, Finish(cfg, w, l, outcome, exception), g)
  {
    if Holds(w.table, l) {
      ClaimSumOfAppend(w.log, Removed(l.id, l.token.value, outcome, w.table.rows[l.id], exception, w.now), g);
    }
  }

  lemma {:induction false} FinishAllClaimsNothing(cfg: Config, w: World, ds: seq<Done>, g: Row -> nat)
    ensures NoClaims(w, FinishAll(cfg, w, ds), g)
    decreases |ds|
  {
    if ds != [] {
      FinishClaimsNothing(cfg, w, ds[0].lease, ds[0].outcome, ds[0].exception, g);
      FinishAllClaimsNothing(cfg, Finish(cfg, w, ds[0].lease, ds[0].outcome, ds[0].exception), ds[1..], g);
    }
  }

  lemma RetireClaimsNothing(w: World, l: Lease, delay: real, attempts: nat, first: real, last: real, g: Row -> nat)
    ensures NoClaims(w, Retire(w, l, delay, attempts, first, last), g)
  {
    if Holds(w.table, l) {
      ClaimSumOfAppend(w.log, Rescheduled(l.id, l.token.value, delay, first, last, w.now), g);
    }
  }

  lemma WithdrawClaimsNothing(w: World, queue: string, timer: string, g: Row -> nat)
    ensures NoClaims(w, Withdraw(w, queue, timer), g)
  {
    if Cancels(w.table, queue, timer) { ClaimSumOfAppend(w.log, Cancelled(TimerRow(w.table, queue, timer)), g); }
  }

  ghost predicate Picks(w: World, ks: seq<Key>) {
    DistinctIds(ks) && forall k :: k in ks ==> k.id in w.table.rows
  }

  lemma HandedRest(w: World, ks: seq<Key>, token: nat, ttl: real)
    requires Picks(w, ks) && ks != []
    ensures var w1 := ClaimOne(w, ks[0].id, token, ttl);
            Picks(w1, ks[1..]) && Handed(w1, ks[1..], token) == Handed(w, ks, token)[1..]
  {
    var w1 := ClaimOne(w, ks[0].id, token, ttl);
    assert forall i :: 0 <= i < |ks[1..]| ==> ks[1..][i] == ks[i + 1];
    assert forall i :: 0 < i < |ks| ==> ks[i].id != ks[0].id;
  }

  /** A fetch adds exactly the copies it hands out. */
  lemma {:induction false} ClaimEachHands(w: World, ks: seq<Key>, token: nat, ttl: real, g: Row -> nat)
    requires Picks(w, ks)
    ensures ClaimSum(ClaimEach(w, ks, token, ttl).log, g) == ClaimSum(w.log, g) + Sum(Handed(w, ks, token), g)
    decreases |ks|
  {
    if ks != [] {
      var w1 := ClaimOne(w, ks[0].id, token, ttl);
      HandedRest(w, ks, token, ttl);
      ClaimSumOfAppend(w.log, Final(w1.log), g);
      ClaimEachHands(w1, ks[1..], token, ttl, g);
    }
  }

  ghost predicate ClaimsGrow(w: World, w': World) {
    forall p :: p in w.claims ==> p in w'.claims && w'.claims[p] == w.claims[p]
  }

  ghost predicate Unissued(w: World, ks: seq<Key>, token: nat) {
    forall k :: k in ks ==> k.id in w.table.rows && w.table.rows[k.id].id == k.id && (k.id, token) !in w.claims
  }

  lemma BackedGrows(w: World, w': World, r: Row)
    requires ClaimsGrow(w, w') && Backed(w, r)
    ensures Backed(w', r)
  {
    var p := (r.id, r.token.value);
    assert p in w'.claims;
  }

  lemma UnissuedRest(w: World, ks: seq<Key>, token: nat, ttl: real)
    requires Picks(w, ks) && ks != [] && Unissued(w, ks, token)
    ensures var w1 := ClaimOne(w, ks[0].id, token, ttl);
            Unissued(w1, ks[1..], token) && ClaimsGrow(w, w1) && Backed(w1, Handed(w, ks, token)[0])
  {
    assert forall i :: 0 <= i < |ks[1..]| ==> ks[1..][i] == ks[i + 1];
    assert forall i :: 0 < i < |ks| ==> ks[i].id != ks[0].id;
    assert ks[0] in ks;
  }

  lemma {:induction false} ClaimEachBacks(w: World, ks: seq<Key>, token: nat, ttl: real)
    requires Picks(w, ks) && Unissued(w, ks, token)
    ensures forall r :: r in Handed(w, ks, token) ==> Backed(ClaimEach(w, ks, token, ttl), r)
    ensures ClaimsGrow(w, ClaimEach(w, ks, token, ttl))
    decreases |ks|
  {
    if ks != [] {
      var w1, w' := ClaimOne(w, ks[0].id, token, ttl), ClaimEach(w, ks, token, ttl);
      HandedRest(w, ks, token, ttl);
      UnissuedRest(w, ks, token, ttl);
      ClaimEachBacks(w1, ks[1..], token, ttl);
      forall r | r in Handed(w, ks, token) ensures Backed(w', r) {
        if r !in Handed(w, ks, token)[1..] {
          assert r == Handed(w, ks, token)[0];
          BackedGrows(w1, w', r);
        }
      }
    }
  }

  /** What a fetch hands out: the claimed copies of the rows it picks. */
  ghost function FetchedRows(
    w: World, queues: seq<string>, limit: nat, ttl: real, locked: set<nat>, token: nat): (r: seq<Row>)
    requires Valid(w.table)
    ensures |r| <= limit
  {
    PickedAreClaimable(w.table, queues, limit, w.now, ttl, locked);
    PickedInOrder(w.table, queues, limit, w.now, ttl, locked);
    Handed(w, Picked(w.table, queues, limit, w.now, ttl, locked), token)
  }

  lemma FetchHands(
    cfg: Config, w: World, queues: seq<string>, limit: nat, ttl: real, locked: set<nat>, token: nat, g: Row -> nat)
    requires Inv(cfg, w) && token !in w.tokens
    ensures var w' := Fetch(w, queues, limit, ttl, locked, token);
            var rows := FetchedRows(w, queues, limit, ttl, locked, token);
            && ClaimSum(w'.log, g) == ClaimSum(w.log, g) + Sum(rows, g)
            && ClaimsGrow(w, w') && |rows| <= limit
            && (forall r :: r in rows ==> Backed(w', r))
  {
    var ks := Picked(w.table, queues, limit, w.now, ttl, locked);
    PickedAreClaimable(w.table, queues, limit, w.now, ttl, locked);
    PickedInOrder(w.table, queues, limit, w.now, ttl, locked);
    ClaimEachHands(w, ks, token, ttl, g);
    forall k | k in ks ensures w.table.rows[k.id].id == k.id && (k.id, token) !in w.claims {
      assert RowOk(w.table, k.id);
      assert (k.id, token).1 == token;
    }
    ClaimEachBacks(w, ks, token, ttl);
    var w' := Fetch(w, queues, limit, ttl, locked, token);
    forall r | r in FetchedRows(w, queues, limit, ttl, locked, token) ensures Backed(w', r) {
      assert Backed(ClaimEach(w, ks, token, ttl), r);
    }
  }

  // ----- how often a lease or a row can be claimed -----

  lemma {:induction false} UnclaimedWeighsNothing(log: seq<Entry>, id: nat, token: nat)
    requires Numbered(log) && NeverClaimed(log, id, token)
    ensures ClaimSum(log, OfLease(Lease(id, Some(token)))) == 0
    decreases |log|
  {
    if log != [] {
      assert forall i :: 0 <= i < |Init(log)| ==> Init(log)[i] == log[i];
      assert Final(log) == log[|log| - 1];
      UnclaimedWeighsNothing(Init(log), id, token);
    }
  }

  /** A lease is issued at most once in a run. */
  lemma {:induction false} LeaseIssuedOnce(log: seq<Entry>, l: Lease)
    requires Legal(log) && Numbered(log)
    ensures ClaimSum(log, OfLease(l)) <= 1
    decreases |log|
  {
    if log != [] {
      LeaseIssuedOnce(Init(log), l);
      var e := Final(log);
      if e.Claimed? && Lease(e.copy.id, e.copy.token) == l {
        UnclaimedWeighsNothing(Init(log), e.id, e.token);
      }
    }
  }

  /** Among a row's claims, at most as many carry a deliveries count within the limit as the limit says. */
  lemma {:induction false} DeliveriesNumberClaims(log: seq<Entry>, id: nat, limit: nat)
    requires Numbered(log)
    ensures ClaimSum(log, WithinDeliveries(id, limit)) <= Min(limit, Claims(log, id))
    decreases |log|
  {
    if log != [] { DeliveriesNumberClaims(Init(log), id, limit); }
  }

  lemma {:induction false} ClaimsOfRow(log: seq<Entry>, id: nat)
    requires Numbered(log)
    ensures ClaimSum(log, OfRow(id)) == Claims(log, id)
    decreases |log|
  {
    if log != [] { ClaimsOfRow(Init(log), id); }
  }

  // ----- the effect of any statement on the claims -----

  lemma OpClaims(cfg: Config, w: World, op: Runs.Op, g: Row -> nat)
    requires Inv(cfg, w) && Runs.Allowed(cfg, w, op)
    ensures var w' := Runs.Step(cfg, w, op);
            && ClaimsGrow(w, w') && ClaimSum(w.log, g) <= ClaimSum(w'.log, g)
            && (!op.Fetch? ==> NoClaims(w, w', g))
  {
    match op
    case Tick(_) =>
    case Publish(q, timer, conflict) => PublishClaimsNothing(w, q, timer, conflict, g);
    case PublishBatch(qs) => BatchClaimsNothing(w, qs, g);
    case Fetch(queues, limit, ttl, locked, token) => FetchHands(cfg, w, queues, limit, ttl, locked, token, g);
    case Finish(l, outcome, exception) => FinishClaimsNothing(cfg, w, l, outcome, exception, g);
    case FinishAll(ds) => FinishAllClaimsNothing(cfg, w, ds, g);
    case Retire(l, delay, attempts, first, last) => RetireClaimsNothing(w, l, delay, attempts, first, last, g);
    case Cancel(queue, timer) => WithdrawClaimsNothing(w, queue, timer, g);
  }
}
