// Runs of the whole outbox. Each one, seen from the database, is a run of allowed statements, and seen from
// any subscriber, a run of that subscriber; together they bound what reaches the handlers.

module SystemRuns {
  import opened Prelude
  import opened Rows
  import opened LeaseTable
  import opened History
  import opened Metrics
  import opened Subscriber
  import opened SubscriberBalance
  import opened SubscriberShape
  import opened ClaimLaws
  import opened OutboxSystem
  import Database
  import Runs = DatabaseRuns
  import SubRuns = SubscriberRuns

  ghost function LandedWeight(g: Weight): Sub -> nat { (s: Sub) => Sum(s.landed, g) }

  /** The claimed copies of all fetches of all subscribers. */
  ghost function LandedTotal(st: State, g: Weight): nat { Sum(st.subs, LandedWeight(g)) }

  ghost predicate SubOk(u: Setup, w: Database.World, s: Sub, k: nat)
    requires k < |u.members|
  {
    SubRuns.Reachable(u.members[k].config, s) && AllBacked(w, s.landed)
  }

  ghost predicate SubsOk(u: Setup, w: Database.World, subs: seq<Sub>) {
    |subs| == |u.members| && forall k :: 0 <= k < |subs| ==> SubOk(u, w, subs[k], k)
  }

  ghost predicate LateOk(u: Setup, w: Database.World, late: seq<Statement>) {
    forall st :: st in late ==> StatementOk(u.db, w, st)
  }

  /** What every reachable state of the outbox satisfies: no more copies were received than handed out. */
  ghost predicate Kept(u: Setup, st: State, g: Weight) {
    && Runs.Reachable(u.db, st.w)
    && SubsOk(u, st.w, st.subs)
    && LateOk(u, st.w, st.late)
    && LandedTotal(st, g) <= ClaimSum(st.w.log, g)
  }

  // ----- what moves on -----

  lemma BackedAllGrows(w: Database.World, w': Database.World, rows: seq<Row>)
    requires ClaimsGrow(w, w') && AllBacked(w, rows)
    ensures AllBacked(w', rows)
  {
    forall r | r in rows ensures Backed(w', r) { BackedGrows(w, w', r); }
  }

  lemma SubsOkGrows(u: Setup, w: Database.World, w': Database.World, subs: seq<Sub>)
    requires ClaimsGrow(w, w') && SubsOk(u, w, subs)
    ensures SubsOk(u, w', subs)
  {
    forall k | 0 <= k < |subs| ensures SubOk(u, w', subs[k], k) {
      assert SubOk(u, w, subs[k], k);
      BackedAllGrows(w, w', subs[k].landed);
    }
  }

  lemma LateOkGrows(u: Setup, w: Database.World, w': Database.World, late: seq<Statement>)
    requires ClaimsGrow(w, w') && LateOk(u, w, late)
    ensures LateOk(u, w', late)
  {
    forall st | st in late ensures StatementOk(u.db, w', st) { StatementOkGrows(u.db, w, w', st); }
  }

  /** The database side of a step. */
  lemma OpKeeps(u: Setup, st: State, op: Runs.Op, g: Weight)
    requires Kept(u, st, g) && Runs.Allowed(u.db, st.w, op)
    ensures Kept(u, st.(w := Runs.Step(u.db, st.w, op)), g)
    ensures ClaimsGrow(st.w, Runs.Step(u.db, st.w, op))
  {
    var w' := Runs.Step(u.db, st.w, op);
    Runs.ReachableKeeps(u.db, st.w);
    Runs.ReachableNext(u.db, st.w, op);
    OpClaims(u.db, st.w, op, g);
    SubsOkGrows(u, st.w, w', st.subs);
    LateOkGrows(u, st.w, w', st.late);
  }

  lemma StatementKeeps(u: Setup, st: State, stmt: Statement, note: Option<string>, g: Weight)
    requires Kept(u, st, g) && StatementOk(u.db, st.w, stmt)
    ensures Kept(u, st.(w := RunStatement(u.db, st.w, stmt, note)), g)
  {
    StatementIsAllowed(u.db, st.w, stmt, note);
    OpKeeps(u, st, OpOf(stmt, note), g);
  }

  lemma LandedStays(c: Subscriber.Config, s: Sub, l: Label)
    requires Inv(c, s) && Subscriber.Enabled(c, s, l) && !l.FetchRuns?
    ensures Subscriber.Step(c, s, l).landed == s.landed
  {
    if IsWorkerStep(l) {
      WorkerFramed(c, s, l);
    }
  }

  /** The subscriber side of a step that hands it no rows. */
  lemma SubMoves(u: Setup, st: State, k: nat, l: Label, g: Weight)
    requires ValidSetup(u) && Kept(u, st, g) && k < |st.subs|
    requires Subscriber.Enabled(u.members[k].config, st.subs[k], l) && !l.FetchRuns?
    ensures Kept(u, st.(subs := st.subs[k := Subscriber.Step(u.members[k].config, st.subs[k], l)]), g)
  {
    var c, s := u.members[k].config, st.subs[k];
    assert SubOk(u, st.w, s, k);
    SubRuns.ReachableKeeps(c, s, Unit());
    SubRuns.ReachableNext(c, s, l);
    LandedStays(c, s, l);
    SubReplaced(u, st, k, Subscriber.Step(c, s, l), g);
  }

  lemma SubReplaced(u: Setup, st: State, k: nat, s': Sub, g: Weight)
    requires Kept(u, st, g) && k < |st.subs| && SubOk(u, st.w, s', k)
    requires LandedTotal(st, g) - Sum(st.subs[k].landed, g) + Sum(s'.landed, g) <= ClaimSum(st.w.log, g)
    ensures Kept(u, st.(subs := st.subs[k := s']), g)
  {
    SumUpdate(st.subs, k, s', LandedWeight(g));
    var subs' := st.subs[k := s'];
    forall j | 0 <= j < |subs'| ensures SubOk(u, st.w, subs'[j], j) {
      if j != k { assert SubOk(u, st.w, st.subs[j], j); }
    }
  }

  // ----- every action -----

  lemma MoveKeeps(u: Setup, st: State, a: Action, g: Weight)
    requires ValidSetup(u) && Kept(u, st, g) && OutboxSystem.Enabled(u, st, a) && a.Move?
    ensures Kept(u, OutboxSystem.Step(u, st, a), g)
  {
    var s := st.subs[a.k];
    assert SubOk(u, st.w, s, a.k);
    SubMoves(u, st, a.k, a.l, g);
    if LeftBehind(s, a.l) != [] { SentIsOk(u.db, u.members[a.k].config, s, st.w, a.l.i); }
  }

  lemma ExecuteKeeps(u: Setup, st: State, a: Action, g: Weight)
    requires ValidSetup(u) && Kept(u, st, g) && OutboxSystem.Enabled(u, st, a) && a.Execute?
    ensures Kept(u, OutboxSystem.Step(u, st, a), g)
  {
    var s := st.subs[a.k];
    var stmt := Sent(s, a.i).value;
    assert SubOk(u, st.w, s, a.k);
    SentIsOk(u.db, u.members[a.k].config, s, st.w, a.i);
    StatementKeeps(u, st, stmt, a.note, g);
    SubMoves(u, st.(w := RunStatement(u.db, st.w, stmt, a.note)), a.k, Reply(st.w, a.i, stmt), g);
  }

  lemma LateKeeps(u: Setup, st: State, a: Action, g: Weight)
    requires Kept(u, st, g) && OutboxSystem.Enabled(u, st, a) && a.Late?
    ensures Kept(u, OutboxSystem.Step(u, st, a), g)
  {
    assert st.late[a.j] in st.late;
    StatementKeeps(u, st, st.late[a.j], a.note, g);
    var w', late' := RunStatement(u.db, st.w, st.late[a.j], a.note), st.late[..a.j] + st.late[a.j + 1..];
    assert LateOk(u, w', late') by { assert forall x :: x in late' ==> x in st.late; }
  }

  lemma ReceiveKeeps(u: Setup, st: State, k: nat, rows: seq<Row>, g: Weight)
    requires Kept(u, st, g) && k < |st.subs| && AllBacked(st.w, rows)
    requires Subscriber.Enabled(u.members[k].config, st.subs[k], FetchRuns(rows))
    requires LandedTotal(st, g) + Sum(rows, g) <= ClaimSum(st.w.log, g)
    ensures Kept(u, st.(subs := st.subs[k := Subscriber.Step(u.members[k].config, st.subs[k], FetchRuns(rows))]), g)
  {
    var c, s := u.members[k].config, st.subs[k];
    assert SubOk(u, st.w, s, k);
    SubRuns.ReachableNext(c, s, FetchRuns(rows));
    SumAppend(s.landed, rows, g);
    SubReplaced(u, st, k, Subscriber.Step(c, s, FetchRuns(rows)), g);
  }

  lemma ClaimOpKeeps(u: Setup, st: State, a: Action, g: Weight)
    requires Kept(u, st, g) && OutboxSystem.Enabled(u, st, a) && a.Claim?
    ensures var c, s := u.members[a.k].config, st.subs[a.k];
            var w' := Database.Fetch(st.w, u.members[a.k].queues, s.fetch.free, c.ttl, a.locked, a.token);
            && Kept(u, st.(w := w'), g) && AllBacked(w', ClaimedRows(u, st, a))
            && LandedTotal(st, g) + Sum(ClaimedRows(u, st, a), g) <= ClaimSum(w'.log, g)
  {
    var k, c, s := a.k, u.members[a.k].config, st.subs[a.k];
    Runs.ReachableKeeps(u.db, st.w);
    OpKeeps(u, st, Runs.Fetch(u.members[k].queues, s.fetch.free, c.ttl, a.locked, a.token), g);
    FetchHands(u.db, st.w, u.members[k].queues, s.fetch.free, c.ttl, a.locked, a.token, g);
  }

  lemma ClaimKeeps(u: Setup, st: State, a: Action, g: Weight)
    requires Kept(u, st, g) && OutboxSystem.Enabled(u, st, a) && a.Claim?
    ensures Kept(u, OutboxSystem.Step(u, st, a), g)
  {
    ClaimOpKeeps(u, st, a, g);
    ReceiveKeeps(u, st.(w := OutboxSystem.Step(u, st, a).w), a.k, ClaimedRows(u, st, a), g);
  }

  lemma StepKeeps(u: Setup, st: State, a: Action, g: Weight)
    requires ValidSetup(u) && Kept(u, st, g) && OutboxSystem.Enabled(u, st, a)
    ensures Kept(u, OutboxSystem.Step(u, st, a), g)
  {
    match a
    case Move(_, _) => MoveKeeps(u, st, a, g);
    case Execute(_, _, _) => ExecuteKeeps(u, st, a, g);
    case Claim(_, _, _) => ClaimKeeps(u, st, a, g);
    case Late(_, _) => LateKeeps(u, st, a, g);
    case Outside(op) => OpKeeps(u, st, op, g);
  }

  lemma FirstKept(u: Setup, g: Weight)
    ensures Kept(u, First(u), g)
  {
    var st := First(u);
    var ws: seq<Database.World>, ops: seq<Runs.Op> := [Database.START], [];
    assert Runs.Run(u.db, ws, ops) && ws[|ops|] == st.w;
    forall k | 0 <= k < |st.subs| ensures SubOk(u, st.w, st.subs[k], k) {
      SubRuns.ReachableFirst(u.members[k].config, u.members[k].workers);
    }
    SumZero(st.subs, LandedWeight(g));
  }

  lemma LaterKept(u: Setup, sts: seq<State>, acts: seq<Action>, i: nat, g: Weight)
    requires ValidSetup(u) && Run(u, sts, acts) && i < |acts| && Kept(u, sts[i], g)
    ensures Kept(u, sts[i + 1], g)
  {
    assert OutboxSystem.StepAt(u, sts, acts, i);
    StepKeeps(u, sts[i], acts[i], g);
  }

  lemma {:induction false} RunKeeps(u: Setup, sts: seq<State>, acts: seq<Action>, i: nat, g: Weight)
    requires ValidSetup(u) && Run(u, sts, acts) && i <= |acts|
    ensures Kept(u, sts[i], g)
  {
    if i == 0 {
      FirstKept(u, g);
    } else {
      RunKeeps(u, sts, acts, i - 1, g);
      LaterKept(u, sts, acts, i - 1, g);
    }
  }

  lemma ReachableKeeps(u: Setup, st: State, g: Weight)
    requires ValidSetup(u) && Reachable(u, st)
    ensures Kept(u, st, g)
  {
    var sts, acts :| Run(u, sts, acts) && sts[|acts|] == st;
    RunKeeps(u, sts, acts, |acts|, g);
  }

  // ----- what a run of the whole outbox guarantees -----

  /** Every run projects onto a run of the database and one of each subscriber, so what those runs guarantee
      holds here: the workers' own statements meet the assumptions made of writers. */
  lemma RunsProject(u: Setup, st: State, k: nat)
    requires ValidSetup(u) && Reachable(u, st) && k < |u.members|
    ensures Runs.Reachable(u.db, st.w)
    ensures |st.subs| == |u.members| && SubRuns.Reachable(u.members[k].config, st.subs[k])
  {
    ReachableKeeps(u, st, Unit());
    assert SubOk(u, st.w, st.subs[k], k);
  }

  /** Conservation over the whole outbox, inline and buffered paths, late and lost statements together: every
      inserted id is live or has met exactly one end, and with a dead-letter table it has exactly one archive
      row if that end was a terminal failure and none otherwise. */
  lemma NothingLostNothingTwice(u: Setup, st: State, id: nat)
    requires ValidSetup(u) && Reachable(u, st) && 1 <= id < st.w.table.nextId
    ensures (if id in st.w.table.rows then 1 else 0) + Fates(st.w.log, id, Fate.Acked) + Fates(st.w.log, id, Failed)
            + Fates(st.w.log, id, Withdrawn) == 1
    ensures CopiesOf(st.w.table.dlq, id) == if u.db.dlq then Fates(st.w.log, id, Failed) else 0
  {
    ReachableKeeps(u, st, Unit());
    Runs.Conservation(u.db, st.w, id);
  }

  ghost function StartWeight(g: Weight): Sub -> nat { (s: Sub) => Opened(s.events, g) }

  /** Handler starts, over all subscribers. */
  ghost function Starts(st: State, g: Weight): nat { Sum(st.subs, StartWeight(g)) }

  lemma {:induction false} SumBelow(ss: seq<Sub>, f: Sub -> nat, h: Sub -> nat)
    requires forall s :: s in ss ==> f(s) <= h(s)
    ensures Sum(ss, f) <= Sum(ss, h)
  {
    if ss != [] { SumBelow(ss[1..], f, h); }
  }

  lemma StartsAreLanded(u: Setup, st: State, g: Weight)
    requires ValidSetup(u) && Reachable(u, st)
    ensures Starts(st, g) <= LandedTotal(st, g)
  {
    ReachableKeeps(u, st, g);
    forall s | s in st.subs ensures StartWeight(g)(s) <= LandedWeight(g)(s) {
      var k :| 0 <= k < |st.subs| && st.subs[k] == s;
      assert SubOk(u, st.w, s, k);
      SubRuns.ReachableKeeps(u.members[k].config, s, g);
    }
    SumBelow(st.subs, StartWeight(g), LandedWeight(g));
  }

  /** Each claimed copy is received by at most one subscriber and dispatched at most once in the whole run. */
  lemma ClaimDispatchedOnce(u: Setup, st: State, l: Lease)
    requires ValidSetup(u) && Reachable(u, st)
    ensures LandedTotal(st, OfLease(l)) <= 1 && Starts(st, OfLease(l)) <= 1
  {
    ReachableKeeps(u, st, OfLease(l));
    StartsAreLanded(u, st, OfLease(l));
    Runs.ReachableKeeps(u.db, st.w);
    LeaseIssuedOnce(st.w.log, l);
  }

  /** In every subscriber, the dispatch of a claim is closed by exactly one event carrying a duration unless it
      is still open or was cancelled inside the handler. */
  lemma DispatchesClose(u: Setup, st: State, k: nat, l: Lease)
    requires ValidSetup(u) && Reachable(u, st) && k < |st.subs|
    ensures SubRuns.AccountedOnce(st.subs[k], OfLease(l))
  {
    ClaimDispatchedOnce(u, st, l);
    ReachableKeeps(u, st, OfLease(l));
    assert SubOk(u, st.w, st.subs[k], k);
    SumAtLeast(st.subs, k, LandedWeight(OfLease(l)));
    SubRuns.DispatchClosedOnce(u.members[k].config, st.subs[k], l);
  }

  ghost predicate AllWithin(es: seq<Event>, limit: nat) {
    forall e :: e in es && e.Dispatched? ==> e.row.deliveries <= limit
  }

  lemma {:induction false} OpenedWithin(es: seq<Event>, id: nat, limit: nat)
    requires AllWithin(es, limit)
    ensures Opened(es, OfRow(id)) == Opened(es, WithinDeliveries(id, limit))
  {
    if es != [] {
      assert es[0] in es;
      OpenedWithin(es[1..], id, limit);
    }
  }

  ghost predicate MaxDeliveriesWithin(u: Setup, limit: nat) {
    forall k :: 0 <= k < |u.members| ==>
      u.members[k].config.maxDeliveries.Some? && u.members[k].config.maxDeliveries.value <= limit
  }

  /** With max_deliveries = D the handler is started at most D times for a row over the whole run, on all
      subscribers together, and never more often than the row was claimed. */
  lemma StartsBounded(u: Setup, st: State, id: nat, limit: nat)
    requires ValidSetup(u) && Reachable(u, st) && MaxDeliveriesWithin(u, limit)
    ensures Starts(st, OfRow(id)) <= Min(limit, Claims(st.w.log, id))
  {
    var g := WithinDeliveries(id, limit);
    ReachableKeeps(u, st, g);
    StartsAreLanded(u, st, g);
    Runs.ReachableKeeps(u.db, st.w);
    DeliveriesNumberClaims(st.w.log, id, limit);
    forall s | s in st.subs ensures StartWeight(OfRow(id))(s) <= StartWeight(g)(s) {
      var k :| 0 <= k < |st.subs| && st.subs[k] == s;
      assert SubOk(u, st.w, s, k);
      SubRuns.BlockedRowsOpenNothing(u.members[k].config, s);
      OpenedWithin(s.events, id, limit);
    }
    SumBelow(st.subs, StartWeight(OfRow(id)), StartWeight(g));
  }

  /** Without a limit the handler is started at most once per claim of the row. */
  lemma StartsAreClaims(u: Setup, st: State, id: nat)
    requires ValidSetup(u) && Reachable(u, st)
    ensures Starts(st, OfRow(id)) <= Claims(st.w.log, id)
  {
    ReachableKeeps(u, st, OfRow(id));
    StartsAreLanded(u, st, OfRow(id));
    Runs.ReachableKeeps(u.db, st.w);
    ClaimsOfRow(st.w.log, id);
  }
}
