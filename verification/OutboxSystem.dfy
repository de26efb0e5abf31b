// The whole outbox: any number of subscribers sharing one table with publishers, cancellers and other
// clients. A worker's or fetch loop's statement runs at the database at an instant of its own; its reply may
// come later, never, or after the worker has given up on it.

module OutboxSystem {
  import opened Prelude
  import opened Rows
  import opened LeaseTable
  import opened Message
  import opened Metrics
  import opened Subscriber
  import opened SubscriberBalance
  import opened SubscriberShape
  import opened ClaimLaws
  import opened FlushLaws
  import Database
  import Runs = DatabaseRuns
  import SubRuns = SubscriberRuns

  datatype Member = Member(config: Subscriber.Config, queues: seq<string>, workers: nat)

  datatype Setup = Setup(db: Database.Config, members: seq<Member>)

  /** The members share one broker: its dead-letter table, and an attempt limit none of them exceeds. */
  predicate MemberFits(db: Database.Config, c: Subscriber.Config) {
    && ValidConfig(c) && c.dlq == db.dlq
    && (db.maxAttempts.Some? ==> c.limit.Some? && c.limit.value <= db.maxAttempts.value)
  }

  ghost predicate ValidSetup(u: Setup) {
    forall k :: 0 <= k < |u.members| ==> MemberFits(u.db, u.members[k].config)
  }

  datatype Statement = Inline(m: Msg) | Batch(ps: seq<Pending>)

  /** `late` holds the statements whose worker gave up before they ran: each may still run, or never. */
  datatype State = State(w: Database.World, subs: seq<Sub>, late: seq<Statement>)

  ghost function First(u: Setup): State {
    State(Database.START, seq(|u.members|, k requires 0 <= k < |u.members| => Initial(u.members[k].workers)), [])
  }

  /** `note` is the rendered exception an archiving delete carries. */
  datatype Action =
    | Move(k: nat, l: Label)
    | Execute(k: nat, i: nat, note: Option<string>)
    | Claim(k: nat, locked: set<nat>, token: nat)
    | Late(j: nat, note: Option<string>)
    | Outside(op: Runs.Op)

  predicate Silent(l: Label) { !l.WriteRuns? && !l.FlushRuns? && !l.FetchRuns? }

  /** What others do: time, publishers, cancellers, and fetches by any other client. */
  predicate FromOutside(op: Runs.Op) { op.Tick? || op.Publish? || op.PublishBatch? || op.Fetch? || op.Cancel? }

  /** The statement a worker has sent and not seen run. */
  function Sent(s: Sub, i: nat): Option<Statement> {
    if i >= |s.workers| then None
    else match s.workers[i].pc
      case Writing(m, _, answer) => if answer.None? then Some(Inline(m)) else None
      case Flushing(_, deleted) => if deleted.None? then Some(Batch(s.workers[i].buffer)) else None
      case _ => None
  }

  predicate GivesUp(l: Label) { l.WriteFails? || l.FlushFails? || l.Cancel? }

  function LeftBehind(s: Sub, l: Label): seq<Statement> {
    if GivesUp(l) && Sent(s, l.i).Some? then [Sent(s, l.i).value] else []
  }

  ghost function RunStatement(
    db: Database.Config, w: Database.World, st: Statement, note: Option<string>): Database.World
  {
    match st
    case Inline(m) => if m.outcome.Some? then WriteInline(db, w, m, note) else w
    case Batch(ps) => if Settled(ps) then WriteBatch(db, w, ps) else w
  }

  /** What the database answers: whether the lease was still current, or which leases were. */
  ghost function Reply(w: Database.World, i: nat, st: Statement): Label {
    match st
    case Inline(m) => WriteRuns(i, Holds(w.table, LeaseHeld(m)))
    case Batch(ps) => FlushRuns(i, Deleted(w, ps))
  }

  ghost predicate Enabled(u: Setup, st: State, a: Action) {
    |st.subs| == |u.members| &&
    match a
    case Move(k, l) => k < |st.subs| && Silent(l) && Subscriber.Enabled(u.members[k].config, st.subs[k], l)
    case Execute(k, i, _) => k < |st.subs| && Sent(st.subs[k], i).Some?
    case Claim(k, _, token) =>
      && k < |st.subs| && st.subs[k].fetch.FFetching? && st.subs[k].fetch.rows.None?
      && Valid(st.w.table) && token !in st.w.tokens
    case Late(j, _) => j < |st.late|
    case Outside(op) => FromOutside(op) && Runs.Allowed(u.db, st.w, op)
  }

  ghost function ClaimedRows(u: Setup, st: State, a: Action): seq<Row>
    requires Enabled(u, st, a) && a.Claim?
  {
    FetchedRows(st.w, u.members[a.k].queues, st.subs[a.k].fetch.free, u.members[a.k].config.ttl, a.locked, a.token)
  }

  ghost function Step(u: Setup, st: State, a: Action): State
    requires Enabled(u, st, a)
  {
    match a
    case Move(k, l) =>
      State(st.w, st.subs[k := Subscriber.Step(u.members[k].config, st.subs[k], l)],
            st.late + LeftBehind(st.subs[k], l))
    case Execute(k, i, note) =>
      var stmt := Sent(st.subs[k], i).value;
      State(RunStatement(u.db, st.w, stmt, note),
            st.subs[k := Subscriber.Step(u.members[k].config, st.subs[k], Reply(st.w, i, stmt))], st.late)
    case Claim(k, locked, token) =>
      var c, s := u.members[k].config, st.subs[k];
      State(Database.Fetch(st.w, u.members[k].queues, s.fetch.free, c.ttl, locked, token),
            st.subs[k := Subscriber.Step(c, s, FetchRuns(ClaimedRows(u, st, a)))], st.late)
    case Late(j, note) =>
      State(RunStatement(u.db, st.w, st.late[j], note), st.subs, st.late[..j] + st.late[j + 1..])
    case Outside(op) => st.(w := Runs.Step(u.db, st.w, op))
  }

  ghost predicate StepAt(u: Setup, sts: seq<State>, acts: seq<Action>, i: nat)
    requires i < |acts| && |sts| == |acts| + 1
  {
    Enabled(u, sts[i], acts[i]) && sts[i + 1] == Step(u, sts[i], acts[i])
  }

  ghost predicate Run(u: Setup, sts: seq<State>, acts: seq<Action>) {
    && |sts| == |acts| + 1
    && sts[0] == First(u)
    && forall i :: 0 <= i < |acts| ==> StepAt(u, sts, acts, i)
  }

  ghost predicate Reachable(u: Setup, st: State) {
    exists sts, acts :: Run(u, sts, acts) && sts[|acts|] == st
  }

  // ----- every statement a worker sends is one the database analysis allows -----

  ghost predicate StatementOk(db: Database.Config, w: Database.World, st: Statement) {
    match st
    case Batch(ps) => Settled(ps) && forall p :: p in ps ==> Backed(w, p.m.row)
    case Inline(m) =>
      && m.outcome.Some? && Backed(w, m.row)
      && (m.outcome.value.Retry? ==>
            && m.attempts == m.row.attempts + 1 && (db.maxAttempts.Some? ==> m.attempts < db.maxAttempts.value)
            && m.lastAt.Some? && m.firstAt == if m.row.firstAt.Some? then m.row.firstAt else m.lastAt)
  }

  ghost function OpOf(st: Statement, note: Option<string>): Runs.Op
    requires st.Inline? ==> st.m.outcome.Some?
    requires st.Batch? ==> Settled(st.ps)
  {
    match st
    case Batch(ps) => Runs.FinishAll(Dones(ps))
    case Inline(m) =>
      match m.outcome.value
      case Retry(delay) => Runs.Retire(LeaseHeld(m), delay, m.attempts, Known(m.firstAt), Known(m.lastAt))
      case _ => Runs.Finish(LeaseHeld(m), m.outcome.value, note)
  }

  lemma StatementIsAllowed(db: Database.Config, w: Database.World, st: Statement, note: Option<string>)
    requires StatementOk(db, w, st)
    ensures Runs.Allowed(db, w, OpOf(st, note)) && !OpOf(st, note).Fetch?
    ensures RunStatement(db, w, st, note) == Runs.Step(db, w, OpOf(st, note))
  {
  }

  lemma StatementOkGrows(db: Database.Config, w: Database.World, w': Database.World, st: Statement)
    requires StatementOk(db, w, st) && ClaimsGrow(w, w')
    ensures StatementOk(db, w', st)
  {
    if st.Inline? {
      BackedGrows(w, w', st.m.row);
    } else {
      forall p | p in st.ps ensures Backed(w', p.m.row) { BackedGrows(w, w', p.m.row); }
    }
  }

  ghost predicate AllBacked(w: Database.World, rows: seq<Row>) { forall r :: r in rows ==> Backed(w, r) }

  ghost function Unbacked(w: Database.World): Weight { (r: Row) => if Backed(w, r) then 0 else 1 }

  /** What a worker holds in hand was handed out by a fetch. */
  lemma HeldIsBacked(c: Subscriber.Config, s: Sub, w: Database.World, i: nat)
    requires ValidConfig(c) && SubRuns.Reachable(c, s) && AllBacked(w, s.landed)
    requires i < |s.workers| && s.workers[i].pc.Writing?
    ensures Backed(w, s.workers[i].pc.m.row)
  {
    var g := Unbacked(w);
    SubRuns.ReachableKeeps(c, s, g);
    SumZero(s.landed, g);
    SumAtLeast(s.workers, i, HeldWeight(g));
  }

  /** And so was every row in its buffer. */
  lemma BufferIsBacked(c: Subscriber.Config, s: Sub, w: Database.World, i: nat)
    requires ValidConfig(c) && SubRuns.Reachable(c, s) && AllBacked(w, s.landed) && i < |s.workers|
    ensures forall p :: p in s.workers[i].buffer ==> Backed(w, p.m.row)
  {
    var g := Unbacked(w);
    SubRuns.ReachableKeeps(c, s, g);
    SumZero(s.landed, g);
    SumAtLeast(s.workers, i, HeldWeight(g));
    forall p | p in s.workers[i].buffer ensures Backed(w, p.m.row) {
      var j :| 0 <= j < |s.workers[i].buffer| && s.workers[i].buffer[j] == p;
      SumAtLeast(s.workers[i].buffer, j, OnPending(g));
    }
  }

  /** Every statement a worker sends names leases some fetch issued, and a retry reports one more attempt than
      the copy it was handed, within the limit. */
  lemma SentIsOk(db: Database.Config, c: Subscriber.Config, s: Sub, w: Database.World, i: nat)
    requires MemberFits(db, c) && SubRuns.Reachable(c, s) && AllBacked(w, s.landed) && Sent(s, i).Some?
    ensures StatementOk(db, w, Sent(s, i).value)
  {
    SubRuns.ReachableKeeps(c, s, Unit());
    assert WorkerShape(c, s.workers[i]);
    if s.workers[i].pc.Writing? { HeldIsBacked(c, s, w, i); } else { BufferIsBacked(c, s, w, i); }
  }
}
