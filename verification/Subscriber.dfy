// The subscriber: one fetch loop, N worker loops, a bounded queue with an unfinished count, per-worker
// delete buffers, the claim lock, the wake event, the writer generation, and stop(). Code between two
// awaits is one step; steps of different tasks interleave in any order. What the database answers to a
// statement is an input here.

module Subscriber {
  import opened Prelude
  import opened Rows
  import opened LeaseTable
  import opened Message
  import opened Metrics

  /** `pooled` is false on the test-broker path, where workers have no writer connection. */
  datatype Config = Config(
    batchSize: nat,
    flushBatch: nat,
    ttl: real,
    maxDeliveries: Option<nat>,
    dlq: bool,
    pooled: bool,
    limit: Option<nat>)

  predicate ValidConfig(c: Config) {
    c.batchSize >= 1 && c.flushBatch >= 1 && c.ttl > 0.0 && (c.maxDeliveries.Some? ==> c.maxDeliveries.value >= 1)
  }

  function RefillAt(c: Config): nat { Max(1, c.batchSize / 2) }

  /** A batchable delete awaiting its flush, with the event to emit once it lands. */
  datatype Pending = Pending(m: Msg, kind: Kind)

  /** Where a flush leads: back to the loop, to closing a stale writer, or out of the loop. */
  datatype After = ToTop | ToInvalidate | ToDown | ToDone

  /** Where a worker task is suspended. `answer` is set once the statement has run at the database. */
  datatype Pc =
    | Down
    | Top
    | Handling(m: Msg)
    | Writing(m: Msg, kind: Kind, answer: Option<bool>)
    | Flushing(after: After, deleted: Option<set<Lease>>)
    | Invalidating
    | Done

  datatype Worker = Worker(pc: Pc, buffer: seq<Pending>, generation: nat, checked: real)

  datatype FetchPc =
    | FDown
    | FTop
    | FFull
    | FLock(free: nat)
    | FFetching(free: nat, rows: Option<seq<Row>>)
    | FIdle
    | FDone

  datatype StopPc = Up | LockWait | Joining | Joined | Closing(clean: bool) | Stopped

  /** The last four fields only record: whether a NOTIFY came since the last fetch began, every row a fetch
      of this subscriber ever claimed, dispatches cancelled inside the handler, and the leases of rows a stale
      writer put back. */
  datatype Sub = Sub(
    queue: seq<Msg>,
    unfinished: int,
    workers: seq<Worker>,
    fetch: FetchPc,
    stop: StopPc,
    stopping: bool,
    running: bool,
    wake: bool,
    generation: nat,
    mono: real,
    events: seq<Event>,
    notified: bool,
    landed: seq<Row>,
    leaked: seq<Row>,
    returned: set<Lease>)

  function Idle(): Worker { Worker(Down, [], 0, 0.0) }

  function Initial(workers: nat): Sub {
    Sub([], 0, seq(workers, _ => Idle()), FDown, Up, false, true, false, 0, 0.0, [], false, [], [], {})
  }

  // ----- pieces shared by the steps -----

  function Emit(s: Sub, es: seq<Event>): Sub { s.(events := s.events + es) }

  /** n calls of task_done; the one that reaches zero wakes a joiner. */
  function TaskDone(s: Sub, n: nat): Sub {
    var left := s.unfinished - n;
    s.(unfinished := left, stop := if s.stop.Joining? && left == 0 then Joined else s.stop)
  }

  function Put(s: Sub, i: nat, w: Worker): Sub
    requires i < |s.workers|
  {
    s.(workers := s.workers[i := w])
  }

  /** Leaving the loop: completed rows still buffered get one bounded flush. */
  function Leave(w: Worker, target: After): Worker
    requires target.ToDown? || target.ToDone?
  {
    if w.buffer != [] then w.(pc := Flushing(target, None))
    else w.(pc := if target.ToDone? then Done else Down)
  }

  predicate FlushDue(c: Config, w: Worker, mono: real) {
    w.buffer != [] && (|w.buffer| >= c.flushBatch || mono - w.buffer[0].m.claimedAt >= c.ttl / 2.0)
  }

  /** The check after every dispatch. */
  function AfterDispatch(c: Config, w: Worker, mono: real): Worker {
    if FlushDue(c, w, mono) then w.(pc := Flushing(ToTop, None), checked := mono)
    else w.(pc := Top, checked := mono)
  }

  /** An inline row is finished: balance the queue and return to the loop. */
  function Settle(c: Config, s: Sub, i: nat, w: Worker, es: seq<Event>): (r: Sub)
    requires i < |s.workers|
    ensures |r.workers| == |s.workers|
  {
    Put(TaskDone(Emit(s, es), 1), i, AfterDispatch(c, w, s.mono))
  }

  predicate Batchable(c: Config, m: Msg) {
    c.flushBatch > 1 && !(m.outcome.Some? && m.outcome.value.Terminal? && c.dlq)
  }

  /** A terminal delete is buffered when it can be batched, else written inline. */
  function FlushOrBuffer(c: Config, w: Worker, mono: real, m: Msg, kind: Kind, mayBuffer: bool): Worker {
    if mayBuffer && Batchable(c, m) then AfterDispatch(c, w.(buffer := w.buffer + [Pending(m, kind)]), mono)
    else w.(pc := Writing(m, kind, None))
  }

  /** Dispatch on the recorded outcome: only terminal deletes are ever buffered. */
  function ByOutcome(c: Config, w: Worker, mono: real, m: Msg, mayBuffer: bool): Worker
    requires m.outcome.Some?
  {
    match m.outcome.value
    case Terminal(_) => FlushOrBuffer(c, w, mono, m, NackedTerminal, mayBuffer)
    case Retry(_) => w.(pc := Writing(m, NackedRetried, None))
    case Ack => FlushOrBuffer(c, w, mono, m, Acked, mayBuffer)
  }

  function WriteOutcome(c: Config, s: Sub, i: nat, w: Worker, m: Msg, now: real, v: Verdict, mayBuffer: bool): (r: Sub)
    requires i < |s.workers|
    ensures |r.workers| == |s.workers|
  {
    if m.outcome.None? && !s.running then Settle(c, s, i, w, Abandon(m))
    else Put(s, i, ByOutcome(c, w, s.mono, AssertStateSet(m, now, v), mayBuffer))
  }

  function Abandon(m: Msg): seq<Event> {
    if m.timed then [Outcome(DispatchAbandoned, m.row, true)] else []
  }

  function AbandonAll(ps: seq<Pending>): seq<Event> {
    if ps == [] then [] else Abandon(ps[0].m) + AbandonAll(ps[1..])
  }

  function LeaseHeld(m: Msg): Lease { LeaseOf(m.row) }

  /** The events of an inline write that got its answer. */
  function InlineEvents(c: Config, m: Msg, kind: Kind, ok: bool): seq<Event> {
    if !ok then [Outcome(LeaseLost, m.row, m.timed)]
    else (if kind.NackedTerminal? && c.dlq then [DlqWritten(m.row)] else []) + [Outcome(kind, m.row, m.timed)]
  }

  function FlushEvents(ps: seq<Pending>, deleted: set<Lease>): seq<Event> {
    if ps == [] then [] else
      [Outcome(if LeaseHeld(ps[0].m) in deleted then ps[0].kind else LeaseLost, ps[0].m.row, ps[0].m.timed)]
      + FlushEvents(ps[1..], deleted)
  }

  function Free(c: Config, s: Sub): int { c.batchSize - |s.queue| }

  function Arrived(rows: seq<Row>, mono: real): seq<Msg> {
    seq(|rows|, k requires 0 <= k < |rows| => Received(rows[k], mono))
  }

  // ----- the steps -----

  datatype Label =
    // worker i
    | Open(i: nat)
    | TakeRow(i: nat)
    | IdleFlush(i: nat)
    | LeaveLoop(i: nat)
    | Returned(i: nat, calls: seq<Call>, now: real, verdict: Verdict)
    | Misconfigured(i: nat, calls: seq<Call>, now: real, verdict: Verdict)
    | Escaped(i: nat)
    | WriteRuns(i: nat, ok: bool)
    | WriteReply(i: nat)
    | WriteFails(i: nat)
    | FlushRuns(i: nat, gone: set<Lease>)
    | FlushReply(i: nat)
    | FlushFails(i: nat)
    | Invalidated(i: nat)
    | Cancel(i: nat)
    // the fetch loop
    | FetchOpen
    | FetchTop
    | FetchWake
    | FetchLock
    | FetchRuns(rows: seq<Row>)
    | FetchReply
    | FetchFails
    | FetchCancel
    // everything else
    | Notify
    | StopCall
    | StopLock
    | StopJoined
    | StopTimeout
    | StopEnd
    | Start
    | Wait(elapsed: real)

  predicate IsWorkerStep(l: Label) {
    l.Open? || l.TakeRow? || l.IdleFlush? || l.LeaveLoop? || l.Returned? || l.Misconfigured? || l.Escaped?
    || l.WriteRuns? || l.WriteReply? || l.WriteFails? || l.FlushRuns? || l.FlushReply? || l.FlushFails?
    || l.Invalidated? || l.Cancel?
  }

  predicate WorkerEnabled(c: Config, s: Sub, l: Label)
    requires IsWorkerStep(l)
  {
    l.i < |s.workers| &&
    var w := s.workers[l.i];
    match l
    case Open(_) => w.pc.Down?
    case TakeRow(_) => w.pc.Top? && s.queue != []
    case IdleFlush(_) => w.pc.Top? && s.queue == [] && w.buffer != []
    case LeaveLoop(_) => w.pc.Top? && !s.running
    case Returned(_, calls, _, v) => w.pc.Handling? && HandlerWithin(c, w.pc.m, calls, v)
    case Misconfigured(_, calls, _, v) => w.pc.Handling? && HandlerWithin(c, w.pc.m, calls, v)
    case Escaped(_) => w.pc.Handling?
    case WriteRuns(_, _) => w.pc.Writing? && w.pc.answer.None?
    case WriteReply(_) => w.pc.Writing? && w.pc.answer.Some?
    case WriteFails(_) => w.pc.Writing?
    case FlushRuns(_, _) => w.pc.Flushing? && w.pc.deleted.None?
    case FlushReply(_) => w.pc.Flushing? && w.pc.deleted.Some?
    case FlushFails(_) => w.pc.Flushing?
    case Invalidated(_) => w.pc.Invalidating?
    case Cancel(_) => !w.pc.Done?
    case _ => false
  }

  /** The retry strategy answers within its attempt limit. */
  predicate HandlerWithin(c: Config, m: Msg, calls: seq<Call>, v: Verdict) {
    && (forall k :: k in calls ==> CallWithin(c.limit, m, k))
    && VerdictWithin(c.limit, m.row.attempts + 1, v)
  }

  predicate Stale(c: Config, s: Sub, i: nat)
    requires i < |s.workers|
  {
    c.pooled && s.generation != s.workers[i].generation
  }

  /** A worker whose writer predates a fetch error returns the row to the tail and goes to reconnect. */
  function PutBack(s: Sub, i: nat): (r: Sub)
    requires i < |s.workers| && s.queue != []
    ensures |r.workers| == |s.workers|
  {
    var m := s.queue[0];
    var t := s.(queue := s.queue[1..] + [m], unfinished := s.unfinished + 1, returned := s.returned + {LeaseHeld(m)});
    Put(TaskDone(t, 1), i,
        s.workers[i].(pc := if s.workers[i].buffer != [] then Flushing(ToInvalidate, None) else Invalidating))
  }

  /** The row leaves the queue; once enough slots are free the fetch loop is woken. */
  function Dequeued(c: Config, s: Sub): Sub
    requires s.queue != []
  {
    s.(queue := s.queue[1..], wake := s.wake || c.batchSize - (|s.queue| - 1) >= RefillAt(c))
  }

  function Take(c: Config, s: Sub, i: nat): (r: Sub)
    requires i < |s.workers| && s.queue != []
    ensures |r.workers| == |s.workers|
  {
    var w, m := s.workers[i], s.queue[0];
    if Stale(c, s, i) then PutBack(s, i)
    else if !Message.Allowed(m, c.maxDeliveries) then
      Put(Dequeued(c, s), i, FlushOrBuffer(c, w, s.mono, Block(m), NackedTerminal, true))
    else Put(Emit(Dequeued(c, s), [Dispatched(m.row)]), i, w.(pc := Handling(m)))
  }

  function FlushFailed(s: Sub, i: nat): (r: Sub)
    requires i < |s.workers| && s.workers[i].pc.Flushing?
    ensures |r.workers| == |s.workers|
  {
    var w := s.workers[i];
    Put(TaskDone(Emit(s, AbandonAll(w.buffer)), |w.buffer|), i,
        w.(pc := if w.pc.after.ToDone? then Done else Down, buffer := []))
  }

  function Onward(a: After): Pc {
    match a case ToTop => Top case ToInvalidate => Invalidating case ToDown => Down case ToDone => Done
  }

  function FlushAnswered(s: Sub, i: nat): (r: Sub)
    requires i < |s.workers| && s.workers[i].pc.Flushing? && s.workers[i].pc.deleted.Some?
    ensures |r.workers| == |s.workers|
  {
    var w := s.workers[i];
    Put(TaskDone(Emit(s, FlushEvents(w.buffer, w.pc.deleted.value)), |w.buffer|), i,
        w.(pc := Onward(w.pc.after), buffer := []))
  }

  function Cancelled(s: Sub, i: nat): (r: Sub)
    requires i < |s.workers|
    ensures |r.workers| == |s.workers|
  {
    var w := s.workers[i];
    match w.pc
    case Handling(m) => Put(TaskDone(s.(leaked := s.leaked + [m.row]), 1), i, Leave(w, ToDone))
    case Writing(m, _, _) => Put(TaskDone(Emit(s, Abandon(m)), 1), i, Leave(w, ToDone))
    case Flushing(_, _) => Put(TaskDone(Emit(s, AbandonAll(w.buffer)), |w.buffer|), i, w.(pc := Done, buffer := []))
    case Top => Put(s, i, Leave(w, ToDone))
    case _ => Put(s, i, w.(pc := Done))
  }

  function Timed(m: Msg): Msg { m.(timed := true) }

  function WorkerStep(c: Config, s: Sub, l: Label): (r: Sub)
    requires IsWorkerStep(l) && WorkerEnabled(c, s, l)
    ensures |r.workers| == |s.workers|
  {
    var w := s.workers[l.i];
    match l
    case Open(i) =>
      Put(s, i, if s.running then w.(pc := Top, generation := s.generation, checked := s.mono) else w.(pc := Done))
    case TakeRow(i) => Take(c, s, i)
    case IdleFlush(i) => Put(s, i, w.(pc := Flushing(ToTop, None)))
    case LeaveLoop(i) => Put(s, i, Leave(w, ToDone))
    case Returned(i, calls, now, v) => WriteOutcome(c, s, i, w, Timed(ApplyAll(w.pc.m, calls)), now, v, true)
    case Misconfigured(i, calls, now, v) => WriteOutcome(c, s, i, w, Timed(ApplyAll(w.pc.m, calls)), now, v, false)
    case Escaped(i) => Settle(c, s, i, w, Abandon(Timed(w.pc.m)))
    case WriteRuns(i, ok) => Put(s, i, w.(pc := w.pc.(answer := Some(ok))))
    case WriteReply(i) => Settle(c, s, i, w, InlineEvents(c, w.pc.m, w.pc.kind, w.pc.answer.value))
    case WriteFails(i) =>
      if c.pooled then Put(TaskDone(Emit(s, Abandon(w.pc.m)), 1), i, Leave(w, ToDown))
      else Settle(c, s, i, w, Abandon(w.pc.m))
    case FlushRuns(i, gone) => Put(s, i, w.(pc := w.pc.(deleted := Some(gone))))
    case FlushReply(i) => FlushAnswered(s, i)
    case FlushFails(i) => FlushFailed(s, i)
    case Invalidated(i) => Put(s, i, w.(pc := Down))
    case Cancel(i) => Cancelled(s, i)
  }

  predicate IsFetchStep(l: Label) {
    l.FetchOpen? || l.FetchTop? || l.FetchWake? || l.FetchLock? || l.FetchRuns? || l.FetchReply? || l.FetchFails?
    || l.FetchCancel?
  }

  predicate FetchEnabled(s: Sub, l: Label)
    requires IsFetchStep(l)
  {
    match l
    case FetchOpen => s.fetch.FDown?
    case FetchTop => s.fetch.FTop?
    case FetchWake => s.fetch.FFull? || s.fetch.FIdle?
    case FetchLock => s.fetch.FLock?
    case FetchRuns(rows) => s.fetch.FFetching? && s.fetch.rows.None? && |rows| <= s.fetch.free
    case FetchReply => s.fetch.FFetching? && s.fetch.rows.Some?
    case FetchFails => !s.fetch.FDone?
    case FetchCancel => !s.fetch.FDone?
    case _ => false
  }

  function FetchStep(c: Config, s: Sub, l: Label): Sub
    requires IsFetchStep(l) && FetchEnabled(s, l)
  {
    match l
    case FetchOpen => s.(fetch := if s.running && !s.stopping then FTop else FDone)
    case FetchTop =>
      if !s.running || s.stopping then s.(fetch := FDown)
      else if Free(c, s) < RefillAt(c) then s.(fetch := FFull)
      else s.(fetch := FLock(Free(c, s)), wake := false, notified := false)
    case FetchWake => s.(fetch := FTop, wake := false)
    case FetchLock => s.(fetch := if s.stopping then FDown else FFetching(s.fetch.free, None))
    case FetchRuns(rows) => s.(fetch := s.fetch.(rows := Some(rows)), landed := s.landed + rows)
    case FetchReply =>
      var rows := s.fetch.rows.value;
      s.(queue := s.queue + Arrived(rows, s.mono), unfinished := s.unfinished + |rows|,
         events := s.events + [Fetched(|rows|)], fetch := if rows == [] then FIdle else FTop)
    case FetchFails => s.(fetch := FDown, generation := s.generation + 1)
    case FetchCancel => s.(fetch := FDone)
  }

  ghost predicate AllDone(s: Sub) {
    s.fetch.FDone? && forall i :: 0 <= i < |s.workers| ==> s.workers[i].pc.Done?
  }

  ghost predicate OtherEnabled(s: Sub, l: Label)
    requires !IsWorkerStep(l) && !IsFetchStep(l)
  {
    match l
    case Notify => true
    case StopCall => s.stop.Up?
    case StopLock => s.stop.LockWait? && !s.fetch.FFetching?
    case StopJoined => s.stop.Joined?
    case StopTimeout => s.stop.LockWait? || s.stop.Joining? || s.stop.Joined?
    case StopEnd => s.stop.Closing? && AllDone(s)
    case Start => s.stop.Stopped?
    case Wait(elapsed) => elapsed >= 0.0
    case _ => false
  }

  ghost function OtherStep(s: Sub, l: Label): Sub
    requires !IsWorkerStep(l) && !IsFetchStep(l) && OtherEnabled(s, l)
  {
    match l
    case Notify => s.(wake := true, notified := true)
    case StopCall => s.(stopping := true, wake := true, stop := LockWait)
    case StopLock => s.(stop := if s.unfinished == 0 then Joined else Joining)
    case StopJoined => s.(stop := Closing(true), running := false)
    case StopTimeout => s.(stop := Closing(false), running := false, events := s.events + [DrainTimedOut])
    case StopEnd => s.(stop := Stopped, queue := [], unfinished := 0)
    case Start => s.(stop := Up, stopping := false, running := true, fetch := FDown,
                     workers := seq(|s.workers|, _ => Idle()))
    case Wait(elapsed) => s.(mono := s.mono + elapsed)
  }

  ghost predicate Enabled(c: Config, s: Sub, l: Label) {
    if IsWorkerStep(l) then WorkerEnabled(c, s, l)
    else if IsFetchStep(l) then FetchEnabled(s, l)
    else OtherEnabled(s, l)
  }

  ghost function Step(c: Config, s: Sub, l: Label): Sub
    requires Enabled(c, s, l)
  {
    if IsWorkerStep(l) then WorkerStep(c, s, l)
    else if IsFetchStep(l) then FetchStep(c, s, l)
    else OtherStep(s, l)
  }
}
