// Runs of one subscriber, whatever the database answers, and what every one of them keeps.

module SubscriberRuns {
  import opened Prelude
  import opened Rows
  import opened LeaseTable
  import opened Message
  import opened Metrics
  import opened Subscriber
  import opened SubscriberBalance
  import opened SubscriberShape

  // ----- every step keeps the invariant -----

  lemma FreshUntimed(s: Sub)
    requires forall m :: m in s.queue ==> IsFresh(m)
    ensures forall m :: m in s.queue ==> !m.timed
  {
  }

  lemma WorkerCountsDown(c: Config, s: Sub, l: Label)
    requires Inv(c, s) && IsWorkerStep(l) && WorkerEnabled(c, s, l)
    ensures Accounted(WorkerStep(c, s, l)) && WorkerStep(c, s, l).unfinished <= s.unfinished
  {
    FreshUntimed(s);
    WorkerMoves(c, s, l, Unit());
    LocalAccounts(s, WorkerStep(c, s, l), l.i);
  }

  lemma WorkerShapesKept(c: Config, s: Sub, l: Label)
    requires ValidConfig(c) && Inv(c, s) && IsWorkerStep(l) && WorkerEnabled(c, s, l)
    ensures Shaped(c, WorkerStep(c, s, l))
  {
    var s' := WorkerStep(c, s, l);
    FreshUntimed(s);
    WorkerMoves(c, s, l, Unit());
    WorkerFramed(c, s, l);
    WorkerShapeKept(c, s, l);
    forall j | 0 <= j < |s'.workers| ensures WorkerShape(c, s'.workers[j]) {
      if j != l.i { assert s'.workers[j] == s.workers[j]; }
    }
  }

  lemma WorkerKeeps(c: Config, s: Sub, l: Label)
    requires ValidConfig(c) && Inv(c, s) && IsWorkerStep(l) && WorkerEnabled(c, s, l)
    ensures Inv(c, WorkerStep(c, s, l))
  {
    WorkerFramed(c, s, l);
    WorkerCountsDown(c, s, l);
    WorkerShapesKept(c, s, l);
    FramedKeeps(c, s, WorkerStep(c, s, l));
    NotStopped(c, s, l);
  }

  lemma EnabledIsNotDone(c: Config, s: Sub, l: Label)
    requires IsWorkerStep(l) && WorkerEnabled(c, s, l)
    ensures !s.workers[l.i].pc.Done?
  {
  }

  lemma NotStopped(c: Config, s: Sub, l: Label)
    requires Draining(s) && IsWorkerStep(l) && WorkerEnabled(c, s, l)
    ensures !s.stop.Stopped?
  {
    EnabledIsNotDone(c, s, l);
  }

  /** Capacity, the wake event and the stop phases depend on a worker step only through its frame. */
  lemma FramedKeeps(c: Config, s: Sub, s': Sub)
    requires Inv(c, s) && Framed(c, s, s') && Accounted(s') && s'.unfinished <= s.unfinished
    ensures Roomy(c, s') && Wakeful(c, s') && (!s.stop.Stopped? ==> Draining(s'))
  {
  }

  lemma FetchKeeps(c: Config, s: Sub, l: Label)
    requires ValidConfig(c) && Inv(c, s) && IsFetchStep(l) && FetchEnabled(s, l)
    ensures Inv(c, FetchStep(c, s, l))
  {
    var s' := FetchStep(c, s, l);
    FetchAccounts(c, s, l);
    if l.FetchReply? {
      forall m | m in s'.queue ensures IsFresh(m) {
        if m !in s.queue { assert m in Arrived(s.fetch.rows.value, s.mono); }
      }
    }
  }

  lemma DoneRests(c: Config, s: Sub)
    requires Shaped(c, s) && AllDone(s)
    ensures forall w :: w in s.workers ==> Resting(w)
  {
    forall w | w in s.workers ensures Resting(w) {
      var i :| 0 <= i < |s.workers| && s.workers[i] == w;
      assert WorkerShape(c, s.workers[i]);
    }
  }

  lemma OtherKeeps(c: Config, s: Sub, l: Label)
    requires ValidConfig(c) && Inv(c, s) && !IsWorkerStep(l) && !IsFetchStep(l) && OtherEnabled(s, l)
    ensures Inv(c, OtherStep(s, l))
  {
    if l.StopEnd? || l.Start? { DoneRests(c, s); }
    OtherAccounts(s, l);
    var s' := OtherStep(s, l);
    forall j | 0 <= j < |s'.workers| ensures WorkerShape(c, s'.workers[j]) {
      if !l.Start? { assert s'.workers[j] == s.workers[j]; }
    }
  }

  lemma StepKeeps(c: Config, s: Sub, l: Label)
    requires ValidConfig(c) && Inv(c, s) && Enabled(c, s, l)
    ensures Inv(c, Step(c, s, l))
  {
    if IsWorkerStep(l) { WorkerKeeps(c, s, l); }
    else if IsFetchStep(l) { FetchKeeps(c, s, l); }
    else { OtherKeeps(c, s, l); }
  }

  lemma StepBalances(c: Config, s: Sub, l: Label, g: Weight)
    requires ValidConfig(c) && Inv(c, s) && Enabled(c, s, l) && Balanced(s, g)
    ensures Balanced(Step(c, s, l), g)
  {
    if IsWorkerStep(l) { WorkerBalances(c, s, l, g); }
    else if IsFetchStep(l) { FetchMoves(c, s, l, g); }
    else { OtherBalances(c, s, l, g); }
  }

  lemma WorkerBalances(c: Config, s: Sub, l: Label, g: Weight)
    requires (forall m :: m in s.queue ==> IsFresh(m)) && IsWorkerStep(l) && WorkerEnabled(c, s, l) && Balanced(s, g)
    ensures Balanced(WorkerStep(c, s, l), g)
  {
    FreshUntimed(s);
    WorkerMoves(c, s, l, g);
    LocalBalances(s, WorkerStep(c, s, l), l.i, g);
  }

  lemma OtherBalances(c: Config, s: Sub, l: Label, g: Weight)
    requires Inv(c, s) && !IsWorkerStep(l) && !IsFetchStep(l) && OtherEnabled(s, l) && Balanced(s, g)
    ensures Balanced(OtherStep(s, l), g)
  {
    if l.StopEnd? || l.Start? { DoneRests(c, s); }
    OtherMoves(s, l, g);
  }

  lemma InitialRests(n: nat)
    ensures forall w :: w in Initial(n).workers ==> w == Idle() && Resting(w)
  {
  }

  lemma NothingYet(g: Weight)
    ensures Opened([], g) == 0 && Closed([], g) == 0 && InOrder([], g)
    ensures Sum([], OnMsg(g)) == 0 && Sum([], g) == 0
  {
  }

  lemma InitialBalances(n: nat, g: Weight)
    ensures Balanced(Initial(n), g) && InOrder(Initial(n).events, g)
  {
    NothingYet(g);
    InitialRests(n);
    RestingHoldNothing(Initial(n).workers, g);
  }

  lemma InitialAccounts(n: nat)
    ensures Accounted(Initial(n))
  {
    NothingYet(Unit());
    InitialRests(n);
    RestingHoldNothing(Initial(n).workers, Unit());
  }

  lemma IdleShape(c: Config)
    ensures WorkerShape(c, Idle())
  {
  }

  lemma InitialInv(c: Config, n: nat)
    ensures Shaped(c, Initial(n)) && Roomy(c, Initial(n)) && Wakeful(c, Initial(n)) && Draining(Initial(n))
  {
    InitialRests(n);
    IdleShape(c);
  }

  lemma InitialHolds(c: Config, n: nat, g: Weight)
    ensures Inv(c, Initial(n)) && Balanced(Initial(n), g) && InOrder(Initial(n).events, g)
  {
    InitialInv(c, n);
    InitialAccounts(n);
    InitialBalances(n, g);
  }

  // ----- the event stream -----

  predicate NoDispatch(es: seq<Event>) { forall e :: e in es ==> !e.Dispatched? }

  lemma {:induction false} AbandonsNoDispatch(ps: seq<Pending>)
    ensures NoDispatch(AbandonAll(ps))
  {
    if ps != [] { AbandonsNoDispatch(ps[1..]); }
  }

  lemma {:induction false} FlushNoDispatch(ps: seq<Pending>, deleted: set<Lease>)
    ensures NoDispatch(FlushEvents(ps, deleted))
  {
    if ps != [] { FlushNoDispatch(ps[1..], deleted); }
  }

  /** The events a worker step emits. */
  function Emitted(c: Config, s: Sub, l: Label): seq<Event>
    requires IsWorkerStep(l) && WorkerEnabled(c, s, l)
  {
    var w := s.workers[l.i];
    match l
    case TakeRow(i) =>
      if !Stale(c, s, i) && Message.Allowed(s.queue[0], c.maxDeliveries) then [Dispatched(s.queue[0].row)] else []
    case Returned(_, calls, _, _) => HandlerEvents(s, Timed(ApplyAll(w.pc.m, calls)))
    case Misconfigured(_, calls, _, _) => HandlerEvents(s, Timed(ApplyAll(w.pc.m, calls)))
    case Escaped(_) => Abandon(Timed(w.pc.m))
    case WriteReply(_) => InlineEvents(c, w.pc.m, w.pc.kind, w.pc.answer.value)
    case WriteFails(_) => Abandon(w.pc.m)
    case FlushReply(_) => FlushEvents(w.buffer, w.pc.deleted.value)
    case FlushFails(_) => AbandonAll(w.buffer)
    case Cancel(_) =>
      if w.pc.Writing? then Abandon(w.pc.m) else if w.pc.Flushing? then AbandonAll(w.buffer) else []
    case _ => []
  }

  function HandlerEvents(s: Sub, m: Msg): seq<Event> {
    if m.outcome.None? && !s.running then Abandon(m) else []
  }

  lemma EmitsAre(c: Config, s: Sub, l: Label)
    requires IsWorkerStep(l) && WorkerEnabled(c, s, l)
    ensures WorkerStep(c, s, l).events == s.events + Emitted(c, s, l)
  {
    assert s.events + [] == s.events;
    if l.TakeRow? || l.Cancel? { MovesEmit(c, s, l); }
    else if l.Returned? || l.Misconfigured? || l.Escaped? { HandledEmit(c, s, l); }
    else { RestEmit(c, s, l); }
  }

  lemma MovesEmit(c: Config, s: Sub, l: Label)
    requires (l.TakeRow? || l.Cancel?) && WorkerEnabled(c, s, l)
    ensures WorkerStep(c, s, l).events == s.events + Emitted(c, s, l)
  {
    assert s.events + [] == s.events;
  }

  lemma HandledEmit(c: Config, s: Sub, l: Label)
    requires (l.Returned? || l.Misconfigured? || l.Escaped?) && WorkerEnabled(c, s, l)
    ensures WorkerStep(c, s, l).events == s.events + Emitted(c, s, l)
  {
    assert s.events + [] == s.events;
  }

  lemma RestEmit(c: Config, s: Sub, l: Label)
    requires IsWorkerStep(l) && WorkerEnabled(c, s, l)
    requires !(l.TakeRow? || l.Cancel? || l.Returned? || l.Misconfigured? || l.Escaped?)
    ensures WorkerStep(c, s, l).events == s.events + Emitted(c, s, l)
  {
    assert s.events + [] == s.events;
  }

  /** A step emits either one dispatch, of a row within its delivery limit, or no dispatch at all. */
  ghost predicate Emission(c: Config, es: seq<Event>) {
    NoDispatch(es) || (|es| == 1 && es[0].Dispatched? && WithinLimit(c, es[0].row))
  }

  predicate WithinLimit(c: Config, r: Row) {
    c.maxDeliveries.Some? ==> r.deliveries <= c.maxDeliveries.value
  }

  lemma WorkerEmission(c: Config, s: Sub, l: Label)
    requires IsWorkerStep(l) && WorkerEnabled(c, s, l)
    ensures Emission(c, Emitted(c, s, l))
  {
    var w := s.workers[l.i];
    AbandonsNoDispatch(w.buffer);
    if l.FlushReply? { FlushNoDispatch(w.buffer, w.pc.deleted.value); }
  }

  lemma StepEmits(c: Config, s: Sub, l: Label) returns (es: seq<Event>)
    requires Enabled(c, s, l)
    ensures Step(c, s, l).events == s.events + es && Emission(c, es)
  {
    es := [];
    assert s.events + [] == s.events;
    if IsWorkerStep(l) {
      EmitsAre(c, s, l);
      WorkerEmission(c, s, l);
      es := Emitted(c, s, l);
    } else if l.FetchReply? {
      es := [Fetched(|s.fetch.rows.value|)];
    } else if l.StopTimeout? {
      es := [DrainTimedOut];
    }
  }

  lemma {:induction false} NoDispatchOpensNothing(es: seq<Event>, g: Weight)
    requires NoDispatch(es)
    ensures Opened(es, g) == 0
  {
    SumZero(es, OpenWeight(g));
  }

  lemma OrderKept(c: Config, es: seq<Event>, more: seq<Event>, g: Weight)
    requires InOrder(es, g) && Emission(c, more)
    requires Closed(es + more, g) <= Opened(es + more, g)
    ensures InOrder(es + more, g)
  {
    var all := es + more;
    forall k | 0 <= k <= |all| ensures Closed(all[..k], g) <= Opened(all[..k], g) {
      if k <= |es| {
        assert all[..k] == es[..k];
      } else if k < |all| {
        assert NoDispatch(more);
        assert all == all[..k] + all[k..];
        EmitMany(all[..k], all[k..], g);
        NoDispatchOpensNothing(all[k..], g);
      } else {
        assert all[..k] == all;
      }
    }
  }

  // ----- runs -----

  ghost predicate StepAt(c: Config, ss: seq<Sub>, ls: seq<Label>, i: nat)
    requires i < |ls| && |ss| == |ls| + 1
  {
    Enabled(c, ss[i], ls[i]) && ss[i + 1] == Step(c, ss[i], ls[i])
  }

  ghost predicate Run(c: Config, ss: seq<Sub>, ls: seq<Label>) {
    && |ss| == |ls| + 1
    && (exists n: nat :: ss[0] == Initial(n))
    && forall i :: 0 <= i < |ls| ==> StepAt(c, ss, ls, i)
  }

  ghost predicate Reachable(c: Config, s: Sub) {
    exists ss, ls :: Run(c, ss, ls) && ss[|ls|] == s
  }

  lemma {:induction false} RunKeeps(c: Config, ss: seq<Sub>, ls: seq<Label>, i: nat, g: Weight)
    requires ValidConfig(c) && Run(c, ss, ls) && i <= |ls|
    ensures Inv(c, ss[i]) && Balanced(ss[i], g) && InOrder(ss[i].events, g)
  {
    if i == 0 {
      var n: nat :| ss[0] == Initial(n);
      InitialHolds(c, n, g);
    } else {
      RunKeeps(c, ss, ls, i - 1, g);
      assert StepAt(c, ss, ls, i - 1);
      StepKeeps(c, ss[i - 1], ls[i - 1]);
      StepBalances(c, ss[i - 1], ls[i - 1], g);
      var es := StepEmits(c, ss[i - 1], ls[i - 1]);
      OrderKept(c, ss[i - 1].events, es, g);
    }
  }

  lemma ReachableKeeps(c: Config, s: Sub, g: Weight)
    requires ValidConfig(c) && Reachable(c, s)
    ensures Inv(c, s) && Balanced(s, g) && InOrder(s.events, g)
  {
    var ss, ls :| Run(c, ss, ls) && ss[|ls|] == s;
    RunKeeps(c, ss, ls, |ls|, g);
  }

  lemma RunExtends(c: Config, ss: seq<Sub>, ls: seq<Label>, l: Label)
    requires Run(c, ss, ls) && Enabled(c, ss[|ls|], l)
    ensures Run(c, ss + [Step(c, ss[|ls|], l)], ls + [l])
  {
    var ss', ls' := ss + [Step(c, ss[|ls|], l)], ls + [l];
    forall i | 0 <= i < |ls'| ensures StepAt(c, ss', ls', i) {
      if i < |ls| { assert StepAt(c, ss, ls, i); }
    }
  }

  lemma ReachableNext(c: Config, s: Sub, l: Label)
    requires Reachable(c, s) && Enabled(c, s, l)
    ensures Reachable(c, Step(c, s, l))
  {
    var ss, ls :| Run(c, ss, ls) && ss[|ls|] == s;
    RunExtends(c, ss, ls, l);
    assert (ss + [Step(c, s, l)])[|ls + [l]|] == Step(c, s, l);
  }

  lemma ReachableFirst(c: Config, n: nat)
    ensures Reachable(c, Initial(n))
  {
    var ss: seq<Sub>, ls: seq<Label> := [Initial(n)], [];
    assert Run(c, ss, ls) && ss[|ls|] == Initial(n);
  }

  // ----- the queue and the drain barrier -----

  function LoadOf(w: Worker): nat { (if w.pc.Handling? || w.pc.Writing? then 1 else 0) + |w.buffer| }

  /** Claimed rows in memory: queued, in a worker's hand, in a worker's buffer. */
  ghost function InMemory(s: Sub): nat { |s.queue| + Sum(s.workers, LoadOf) }

  lemma {:induction false} LoadsAreHeld(ws: seq<Worker>)
    ensures Sum(ws, LoadOf) == Sum(ws, HeldWeight(Unit()))
  {
    if ws != [] {
      LoadsAreHeld(ws[1..]);
      SumLength(ws[0].buffer, OnPending(Unit()));
    }
  }

  /** In every reachable state the unfinished count is exactly the rows in memory, the queue is within its
      bound, and whatever an answered fetch brings still fits. */
  lemma UnfinishedIsInMemory(c: Config, s: Sub)
    requires ValidConfig(c) && Reachable(c, s)
    ensures s.unfinished == InMemory(s) && |s.queue| <= c.batchSize
    ensures s.fetch.FFetching? && s.fetch.rows.Some? ==> |s.queue| + |s.fetch.rows.value| <= c.batchSize
  {
    ReachableKeeps(c, s, Unit());
    SumLength(s.queue, OnMsg(Unit()));
    LoadsAreHeld(s.workers);
  }

  /** Once stop() has passed the claim lock and join() has returned, no claimed row is in memory and no
      fetch is running. */
  lemma JoinMeansEmpty(c: Config, s: Sub)
    requires ValidConfig(c) && Reachable(c, s) && (s.stop.Joined? || s.stop == Closing(true))
    ensures InMemory(s) == 0 && s.queue == [] && !s.fetch.FFetching?
    ensures forall i :: 0 <= i < |s.workers| ==>
              s.workers[i].buffer == [] && !s.workers[i].pc.Handling? && !s.workers[i].pc.Writing?
  {
    ReachableKeeps(c, s, Unit());
    UnfinishedIsInMemory(c, s);
    forall i | 0 <= i < |s.workers|
      ensures s.workers[i].buffer == [] && !s.workers[i].pc.Handling? && !s.workers[i].pc.Writing?
    {
      SumAtLeast(s.workers, i, LoadOf);
    }
  }

  ghost predicate Drained(s: Sub) { s.stopping && !s.fetch.FFetching? && InMemory(s) == 0 }

  /** And none can enter memory again before the subscriber is started anew. */
  lemma DrainedStays(c: Config, s: Sub, l: Label)
    requires ValidConfig(c) && Reachable(c, s) && Drained(s) && Enabled(c, s, l) && !l.Start?
    ensures Drained(Step(c, s, l))
  {
    ReachableKeeps(c, s, Unit());
    UnfinishedIsInMemory(c, s);
    StepKeeps(c, s, l);
    var s' := Step(c, s, l);
    SumLength(s'.queue, OnMsg(Unit()));
    LoadsAreHeld(s'.workers);
    if IsWorkerStep(l) {
      WorkerCountsDown(c, s, l);
      WorkerFramed(c, s, l);
    }
  }

  // ----- dispatches and their closing events -----

  /** Dispatches of one claim a worker still has open, or that were cancelled inside the handler. */
  ghost function Unclosed(s: Sub, g: Weight): nat { StillOpen(s, g) + Sum(s.leaked, g) }

  /** The in-process gauge is the number of open dispatches and is never negative, at every point of the
      event stream. */
  lemma GaugeIsOpenDispatches(c: Config, s: Sub, k: nat)
    requires ValidConfig(c) && Reachable(c, s) && k <= |s.events|
    ensures Gauge(s.events) == Unclosed(s, Unit()) && Gauge(s.events[..k]) >= 0
  {
    ReachableKeeps(c, s, Unit());
    GaugeIsDifference(s.events);
    GaugeIsDifference(s.events[..k]);
  }

  /** At most one dispatch, and it is closed, still open, or was cancelled inside the handler. */
  ghost predicate AccountedOnce(s: Sub, g: Weight) {
    Closed(s.events, g) + Unclosed(s, g) == Opened(s.events, g) <= 1
  }

  /** A claim this subscriber received at most once is dispatched at most once, and its dispatch is closed by
      exactly one event that carries a duration unless it is still open or was cancelled inside the handler. */
  lemma DispatchClosedOnce(c: Config, s: Sub, l: Lease)
    requires ValidConfig(c) && Reachable(c, s) && Sum(s.landed, OfLease(l)) <= 1
    ensures AccountedOnce(s, OfLease(l))
  {
    ReachableKeeps(c, s, OfLease(l));
  }

  /** A closing event never precedes its dispatch: at every point of the stream, of any rows, no more were
      closed than dispatched. */
  lemma ClosedAfterDispatch(c: Config, s: Sub, g: Weight, k: nat)
    requires ValidConfig(c) && Reachable(c, s) && k <= |s.events|
    ensures Closed(s.events[..k], g) <= Opened(s.events[..k], g)
  {
    ReachableKeeps(c, s, g);
  }

  /** A cancellation that arrives while the handler runs: only an Exception is caught there. */
  predicate CutsHandler(s: Sub, l: Label) {
    l.Cancel? && l.i < |s.workers| && s.workers[l.i].pc.Handling?
  }

  lemma CancelLeaks(s: Sub, i: nat)
    requires i < |s.workers|
    ensures Cancelled(s, i).leaked == s.leaked + if CutsHandler(s, Cancel(i)) then [s.workers[i].pc.m.row] else []
  {
    assert s.leaked + [] == s.leaked;
  }

  lemma HandledLeaks(c: Config, s: Sub, l: Label)
    requires (l.Returned? || l.Misconfigured?) && WorkerEnabled(c, s, l)
    ensures WorkerStep(c, s, l).leaked == s.leaked
  {
  }

  lemma TakeLeaks(c: Config, s: Sub, i: nat)
    requires i < |s.workers| && s.queue != []
    ensures Take(c, s, i).leaked == s.leaked
  {
  }

  lemma OthersLeakNothing(c: Config, s: Sub, l: Label)
    requires IsWorkerStep(l) && WorkerEnabled(c, s, l)
    requires !l.Cancel? && !l.Returned? && !l.Misconfigured? && !l.TakeRow?
    ensures WorkerStep(c, s, l).leaked == s.leaked
  {
  }

  lemma WorkerLeaks(c: Config, s: Sub, l: Label)
    requires IsWorkerStep(l) && WorkerEnabled(c, s, l)
    ensures WorkerStep(c, s, l).leaked == [] <==> s.leaked == [] && !CutsHandler(s, l)
  {
    if l.Cancel? { CancelLeaks(s, l.i); }
    else if l.Returned? || l.Misconfigured? { HandledLeaks(c, s, l); }
    else if l.TakeRow? { TakeLeaks(c, s, l.i); }
    else { OthersLeakNothing(c, s, l); }
  }

  lemma FetchLeaks(c: Config, s: Sub, l: Label)
    requires IsFetchStep(l) && FetchEnabled(s, l)
    ensures FetchStep(c, s, l).leaked == s.leaked
  {
  }

  lemma StepLeaks(c: Config, s: Sub, l: Label)
    requires Enabled(c, s, l)
    ensures Step(c, s, l).leaked == [] <==> s.leaked == [] && !CutsHandler(s, l)
  {
    if IsWorkerStep(l) { WorkerLeaks(c, s, l); } else if IsFetchStep(l) { FetchLeaks(c, s, l); }
  }

  lemma {:induction false} LeakedIff(c: Config, ss: seq<Sub>, ls: seq<Label>, i: nat)
    requires Run(c, ss, ls) && i <= |ls|
    ensures ss[i].leaked == [] <==> forall j :: 0 <= j < i ==> !CutsHandler(ss[j], ls[j])
  {
    if i > 0 {
      LeakedIff(c, ss, ls, i - 1);
      assert StepAt(c, ss, ls, i - 1);
      StepLeaks(c, ss[i - 1], ls[i - 1]);
    }
  }

  /** After any run that leaves no worker with an open dispatch, all dispatches are closed if and only if no
      step of the run was a cancellation inside the handler. */
  lemma AllClosedIff(c: Config, ss: seq<Sub>, ls: seq<Label>)
    requires ValidConfig(c) && Run(c, ss, ls) && StillOpen(ss[|ls|], Unit()) == 0
    ensures Opened(ss[|ls|].events, Unit()) == Closed(ss[|ls|].events, Unit())
       <==> forall j :: 0 <= j < |ls| ==> !CutsHandler(ss[j], ls[j])
  {
    RunKeeps(c, ss, ls, |ls|, Unit());
    SumLength(ss[|ls|].leaked, Unit());
    LeakedIff(c, ss, ls, |ls|);
  }

  ghost predicate DispatchesWithin(c: Config, es: seq<Event>) {
    forall e :: e in es && e.Dispatched? ==> WithinLimit(c, e.row)
  }

  lemma {:induction false} RunDispatchesWithin(c: Config, ss: seq<Sub>, ls: seq<Label>, i: nat)
    requires Run(c, ss, ls) && i <= |ls|
    ensures DispatchesWithin(c, ss[i].events)
  {
    if i > 0 {
      RunDispatchesWithin(c, ss, ls, i - 1);
      assert StepAt(c, ss, ls, i - 1);
      var es := StepEmits(c, ss[i - 1], ls[i - 1]);
    }
  }

  function OverLimit(c: Config): Weight { (r: Row) => if WithinLimit(c, r) then 0 else 1 }

  /** A row beyond its delivery limit is never dispatched and none of its events carries a duration. */
  lemma BlockedRowsOpenNothing(c: Config, s: Sub)
    requires ValidConfig(c) && Reachable(c, s)
    ensures forall e :: e in s.events && (e.Dispatched? || (e.Outcome? && e.timed)) ==> WithinLimit(c, e.row)
  {
    var g := OverLimit(c);
    var ss, ls :| Run(c, ss, ls) && ss[|ls|] == s;
    RunDispatchesWithin(c, ss, ls, |ls|);
    ReachableKeeps(c, s, g);
    SumZero(s.events, OpenWeight(g));
    forall e | e in s.events && e.Outcome? && e.timed ensures WithinLimit(c, e.row) {
      var i :| 0 <= i < |s.events| && s.events[i] == e;
      SumAtLeast(s.events, i, CloseWeight(g));
    }
  }

  // ----- waits and buffers -----

  /** No lost wake-up: not while half the slots, and at least one, are free, not after a NOTIFY the last fetch may
      have missed, and not once stop() has begun. */
  lemma NoLostWakeup(c: Config, s: Sub)
    requires ValidConfig(c) && Reachable(c, s)
    ensures s.fetch.FIdle? && s.notified ==> s.wake
    ensures var free := c.batchSize - |s.queue|;
            s.fetch.FFull? && free >= 1 && 2 * free >= c.batchSize - 1 ==> s.wake
    ensures (s.fetch.FIdle? || s.fetch.FFull?) && s.stopping ==> s.wake
  {
    ReachableKeeps(c, s, Unit());
  }

  /** At the top of the loop a buffer is below its batch size and its oldest row was claimed less than half a
      lease ago at the last check; what it holds are plain deletes only. */
  lemma BuffersAreBounded(c: Config, s: Sub, i: nat)
    requires ValidConfig(c) && Reachable(c, s) && i < |s.workers| && s.workers[i].pc.Top?
    ensures var w := s.workers[i];
            && |w.buffer| < c.flushBatch
            && (w.buffer != [] ==> w.checked - w.buffer[0].m.claimedAt < c.ttl / 2.0)
            && (forall p :: p in w.buffer ==> p.m.outcome.Some? && !p.m.outcome.value.Retry?
                                              && (c.dlq ==> !p.m.outcome.value.Terminal?))
  {
    ReachableKeeps(c, s, Unit());
    assert WorkerShape(c, s.workers[i]);
  }
}
