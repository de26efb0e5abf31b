// The claimed copy a handler works on: it records at most one outcome and at most one attempt.

module Message {
  import opened Prelude
  import opened Rows
  import opened RetryPolicy

  /** `row` is the copy the claim handed out; `raised` is whether a handler exception was captured;
      `timed` is whether a handler duration was recorded. */
  datatype Msg = Msg(
    row: Row,
    claimedAt: real,
    attempts: nat,
    firstAt: Option<real>,
    lastAt: Option<real>,
    outcome: Option<Outcome>,
    raised: bool,
    timed: bool)

  function Received(row: Row, mono: real): Msg {
    Msg(row, mono, row.attempts, row.firstAt, row.lastAt, None, false, false)
  }

  function RecordAttempt(m: Msg, now: real): Msg {
    m.(attempts := m.attempts + 1, lastAt := Some(now), firstAt := if m.firstAt.None? then Some(now) else m.firstAt)
  }

  /** What the retry strategy answered: there is none, it raised, or it gave a delay or a refusal. */
  datatype Verdict = NoStrategy | Raised | Gave(delay: Option<real>)

  function AfterNack(v: Verdict): Outcome {
    if v.Gave? && v.delay.Some? then Retry(v.delay.value) else Terminal(RetryTerminal)
  }

  datatype Call = CallAck(now: real) | CallNack(now: real, verdict: Verdict) | CallReject(now: real) | Capture

  /** One call on the message. Once an outcome is recorded, later calls change nothing but the captured exception. */
  function Apply(m: Msg, c: Call): Msg {
    if c.Capture? then m.(raised := true)
    else if m.outcome.Some? then m
    else match c
      case CallAck(now) => RecordAttempt(m, now).(outcome := Some(Ack))
      case CallNack(now, v) => RecordAttempt(m, now).(outcome := Some(AfterNack(v)))
      case CallReject(now) => RecordAttempt(m, now).(outcome := Some(Terminal(Rejected)))
      case Capture => m
  }

  function ApplyAll(m: Msg, cs: seq<Call>): Msg
    decreases |cs|
  {
    if cs == [] then m else ApplyAll(Apply(m, cs[0]), cs[1..])
  }

  /** The fallback when the pipeline returned without recording intent. */
  function AssertStateSet(m: Msg, now: real, v: Verdict): Msg {
    if m.outcome.Some? then m
    else if m.raised then Apply(m, CallNack(now, v))
    else Apply(m, CallReject(now))
  }

  predicate Allowed(m: Msg, maxDeliveries: Option<nat>) {
    maxDeliveries.Some? ==> m.row.deliveries <= maxDeliveries.value
  }

  function Block(m: Msg): Msg { m.(outcome := Some(Terminal(MaxDeliveries))) }

  ghost predicate DecidesAt(cs: seq<Call>, i: nat) {
    i < |cs| && !cs[i].Capture? && forall j :: 0 <= j < i ==> cs[j].Capture?
  }

  /** Whatever a handler and its middleware call, in any order and number, the first ack, nack or reject
      decides: the outcome and the attempt times are that call's, and exactly one attempt is recorded; with
      no such call nothing but the captured exception changes. */
  lemma {:induction false} FirstCallDecides(m: Msg, cs: seq<Call>) returns (i: nat)
    requires m.outcome.None?
    ensures DecidesAt(cs, i) || (forall j :: 0 <= j < |cs| ==> cs[j].Capture?)
    ensures DecidesAt(cs, i) ==> ApplyAll(m, cs) == Apply(m, cs[i]).(raised := ApplyAll(m, cs).raised)
    ensures !DecidesAt(cs, i) ==> ApplyAll(m, cs) == m.(raised := ApplyAll(m, cs).raised)
    ensures ApplyAll(m, cs).raised <==> m.raised || Capture in cs
    decreases |cs|
  {
    i := 0;
    if cs != [] {
      assert cs == [cs[0]] + cs[1..];
      if cs[0].Capture? {
        var k := FirstCallDecides(Apply(m, cs[0]), cs[1..]);
        i := k + 1;
        assert forall j :: 0 < j < |cs| ==> cs[j] == cs[1..][j - 1];
      } else {
        DecidedStays(Apply(m, cs[0]), cs[1..]);
      }
    }
  }

  lemma {:induction false} DecidedStays(m: Msg, cs: seq<Call>)
    requires m.outcome.Some?
    ensures ApplyAll(m, cs) == m.(raised := ApplyAll(m, cs).raised)
    ensures ApplyAll(m, cs).raised <==> m.raised || Capture in cs
    decreases |cs|
  {
    if cs != [] {
      assert cs == [cs[0]] + cs[1..];
      DecidedStays(Apply(m, cs[0]), cs[1..]);
    }
  }

  // ----- what the pipeline's outcome is -----

  /** A nack asks for the delay its verdict grants, and is terminal without one. */
  predicate Nacked(v: Verdict, o: Outcome) {
    match v
    case NoStrategy => o == Terminal(RetryTerminal)
    case Raised => o == Terminal(RetryTerminal)
    case Gave(delay) => o == if delay.Some? then Retry(delay.value) else Terminal(RetryTerminal)
  }

  predicate Says(c: Call, o: Outcome) {
    match c
    case CallAck(_) => o == Ack
    case CallNack(_, v) => Nacked(v, o)
    case CallReject(_) => o == Terminal(Rejected)
    case Capture => true
  }

  /** The first deciding call says it; if none decides, a captured exception counts as a nack, and a pipeline
      that neither decided nor raised is rejected. */
  ghost predicate Settles(cs: seq<Call>, v: Verdict, o: Outcome) {
    && (forall i: nat :: DecidesAt(cs, i) ==> Says(cs[i], o))
    && (!Decides(cs) ==> if Capture in cs then Nacked(v, o) else o == Terminal(Rejected))
  }

  ghost predicate Decides(cs: seq<Call>) { exists i :: 0 <= i < |cs| && !cs[i].Capture? }

  /** The attempt is recorded at the deciding call, or at the fallback. */
  ghost predicate DecidedAt(cs: seq<Call>, now: real, at: real) {
    && (forall i: nat :: DecidesAt(cs, i) ==> cs[i].now == at)
    && (!Decides(cs) ==> at == now)
  }

  lemma {:induction false} FirstDeciding(cs: seq<Call>) returns (i: nat)
    requires Decides(cs)
    ensures DecidesAt(cs, i)
    decreases |cs|
  {
    if cs[0].Capture? {
      var j :| 0 <= j < |cs| && !cs[j].Capture?;
      assert cs[1..][j - 1] == cs[j];
      var k := FirstDeciding(cs[1..]);
      i := k + 1;
      assert forall h :: 0 < h <= k ==> cs[h] == cs[1..][h - 1];
    } else {
      i := 0;
    }
  }

  /** Exactly one outcome settles any calls. */
  lemma SettlesOnce(cs: seq<Call>, v: Verdict, a: Outcome, b: Outcome)
    requires Settles(cs, v, a) && Settles(cs, v, b)
    ensures a == b
  {
    if Decides(cs) { var i := FirstDeciding(cs); }
  }

  /** Whatever the pipeline called, the outcome after the fallback is the one that settles it, with one attempt
      recorded at that time and an earlier first attempt kept. */
  lemma OutcomeSettles(m: Msg, cs: seq<Call>, now: real, v: Verdict)
    requires m.outcome.None? && !m.raised
    ensures var r := AssertStateSet(ApplyAll(m, cs), now, v);
            && r.outcome.Some? && Settles(cs, v, r.outcome.value)
            && r.attempts == m.attempts + 1 && r.row == m.row && r.claimedAt == m.claimedAt
            && r.lastAt.Some? && DecidedAt(cs, now, r.lastAt.value)
            && r.firstAt == if m.firstAt.Some? then m.firstAt else r.lastAt
  {
    var i := FirstCallDecides(m, cs);
    if Decides(cs) {
      var k := FirstDeciding(cs);
      DecidesOnce(cs, k);
      assert DecidesAt(cs, i) && i == k;
      DecidingCallSettles(m, cs[k], ApplyAll(m, cs).raised);
      assert AssertStateSet(ApplyAll(m, cs), now, v) == ApplyAll(m, cs);
      assert forall j: nat :: DecidesAt(cs, j) ==> Says(cs[j], ApplyAll(m, cs).outcome.value);
    } else {
      NeverDecides(cs);
      assert ApplyAll(m, cs) == m.(raised := Capture in cs);
    }
  }

  lemma DecidingCallSettles(m: Msg, c: Call, raised: bool)
    requires m.outcome.None? && !c.Capture?
    ensures var r := Apply(m, c).(raised := raised);
            && r.outcome.Some? && Says(c, r.outcome.value) && r.lastAt == Some(c.now)
            && r.attempts == m.attempts + 1 && r.firstAt == if m.firstAt.Some? then m.firstAt else r.lastAt
  {
  }

  lemma NeverDecides(cs: seq<Call>)
    requires !Decides(cs)
    ensures forall j :: 0 <= j < |cs| ==> cs[j].Capture?
    ensures forall j: nat :: !DecidesAt(cs, j)
  {
  }

  lemma DecidesOnce(cs: seq<Call>, k: nat)
    requires DecidesAt(cs, k)
    ensures forall j: nat :: DecidesAt(cs, j) ==> j == k
    ensures !forall j :: 0 <= j < |cs| ==> cs[j].Capture?
  {
    forall j: nat | DecidesAt(cs, j) ensures j == k {}
  }

  // ----- the attempt limit -----

  predicate VerdictWithin(limit: Option<nat>, attempts: nat, v: Verdict) {
    limit.Some? && v.Gave? && v.delay.Some? ==> attempts < limit.value
  }

  predicate CallWithin(limit: Option<nat>, m: Msg, c: Call) {
    c.CallNack? ==> VerdictWithin(limit, m.row.attempts + 1, c.verdict)
  }

  /** A message is sound when it has recorded exactly one attempt if a handler decided it, and none if nothing
      did or its delivery limit did; and any retry it asks for is within the attempt limit. A first attempt time
      once set stays. */
  predicate Sound(limit: Option<nat>, m: Msg) {
    var untried := m.outcome.None? || m.outcome == Some(Terminal(MaxDeliveries));
    && m.attempts == m.row.attempts + (if untried then 0 else 1)
    && m.firstAt == (if untried || m.row.firstAt.Some? then m.row.firstAt else m.lastAt)
    && (!untried ==> m.lastAt.Some?)
    && (m.outcome.Some? && m.outcome.value.Retry? && limit.Some? ==> m.attempts < limit.value)
  }

  lemma {:induction false} CallsKeepSound(limit: Option<nat>, m: Msg, cs: seq<Call>)
    requires Sound(limit, m) && forall c :: c in cs ==> CallWithin(limit, m, c)
    ensures Sound(limit, ApplyAll(m, cs)) && ApplyAll(m, cs).row == m.row && ApplyAll(m, cs).claimedAt == m.claimedAt
    ensures ApplyAll(m, cs).timed == m.timed
    decreases |cs|
  {
    if cs != [] {
      assert cs[0] in cs;
      forall c | c in cs[1..] ensures CallWithin(limit, Apply(m, cs[0]), c) { assert c in cs; }
      CallsKeepSound(limit, Apply(m, cs[0]), cs[1..]);
    }
  }

  /** What a built-in strategy answers to a nack of this message. */
  function StrategyVerdict(s: Strategy, m: Msg, now: real, draw: real): Verdict {
    var r := RecordAttempt(m, now);
    Gave(NextDelay(s, r.firstAt.value, now, r.attempts, draw))
  }

  /** Every built-in strategy with an attempt limit answers within it. */
  lemma StrategiesStayWithin(s: Strategy, m: Msg, now: real, draw: real, limit: nat)
    requires ValidStrategy(s) && ValidDraw(s, draw) && m.attempts == m.row.attempts
    requires s.NoRetry? || s.limits.maxAttempts == Some(limit)
    ensures CallWithin(Some(limit), m, CallNack(now, StrategyVerdict(s, m, now, draw)))
  {
    GrantedIff(s, RecordAttempt(m, now).firstAt.value, now, m.attempts + 1, draw);
  }

  /** A nack is granted a retry exactly when this attempt is below the attempt limit and its delay ends within
      the total budget, counted from the first attempt the row remembers. */
  lemma StrategyGrantsIff(s: Strategy, m: Msg, now: real, draw: real)
    requires ValidStrategy(s) && ValidDraw(s, draw) && !s.NoRetry?
    ensures var v, d := StrategyVerdict(s, m, now, draw), DelaySeconds(s, m.attempts + 1, draw);
            var since := if m.firstAt.Some? then now - m.firstAt.value else 0.0;
            && v.Gave? && (v.delay.Some? ==> v.delay.value == d)
            && (v.delay.Some? <==>
                  && (s.limits.maxAttempts.Some? ==> m.attempts + 1 < s.limits.maxAttempts.value)
                  && (s.limits.maxTotal.Some? ==> since + d <= s.limits.maxTotal.value))
  {
    GrantedIff(s, RecordAttempt(m, now).firstAt.value, now, m.attempts + 1, draw);
  }

  // ----- the object -----

  class OutboxInnerMessage {
    const row: Row
    const claimedAt: real
    var attempts: nat
    var firstAt: Option<real>
    var lastAt: Option<real>
    var outcome: Option<Outcome>
    var raised: bool
    var timed: bool

    ghost function View(): Msg
      reads this
    {
      Msg(row, claimedAt, attempts, firstAt, lastAt, outcome, raised, timed)
    }

    constructor (row: Row, mono: real)
      ensures View() == Received(row, mono)
    {
      this.row, claimedAt := row, mono;
      attempts, firstAt, lastAt, outcome := row.attempts, row.firstAt, row.lastAt, None;
      raised, timed := false, false;
    }

    method Record(now: real)
      modifies this
      ensures View() == RecordAttempt(old(View()), now)
    {
      attempts := attempts + 1;
      lastAt := Some(now);
      if firstAt.None? {
        firstAt := Some(now);
      }
    }

    method AckIt(now: real)
      modifies this
      ensures View() == Apply(old(View()), CallAck(now))
    {
      if outcome.Some? { return; }
      Record(now);
      outcome := Some(Ack);
    }

    method Nack(now: real, verdict: Verdict)
      modifies this
      ensures View() == Apply(old(View()), CallNack(now, verdict))
    {
      if outcome.Some? { return; }
      Record(now);
      var delay: Option<real> := None;
      match verdict {
        case NoStrategy =>
        case Raised =>
          outcome := Some(Terminal(RetryTerminal));
          return;
        case Gave(d) => delay := d;
      }
      if delay.None? {
        outcome := Some(Terminal(RetryTerminal));
      } else {
        outcome := Some(Retry(delay.value));
      }
    }

    method Reject(now: real)
      modifies this
      ensures View() == Apply(old(View()), CallReject(now))
    {
      if outcome.Some? { return; }
      Record(now);
      outcome := Some(Terminal(Rejected));
    }

    /** False, with the row marked terminal, exactly when it has been delivered too often. */
    method AllowDelivery(maxDeliveries: Option<nat>) returns (ok: bool)
      modifies this
      ensures ok == Allowed(old(View()), maxDeliveries)
      ensures View() == if ok then old(View()) else Block(old(View()))
    {
      if maxDeliveries.Some? && row.deliveries > maxDeliveries.value {
        outcome := Some(Terminal(MaxDeliveries));
        return false;
      }
      return true;
    }

    /** After the fallback an outcome is always set. */
    method EnsureOutcome(now: real, verdict: Verdict)
      modifies this
      ensures View() == AssertStateSet(old(View()), now, verdict) && outcome.Some?
    {
      if outcome.Some? { return; }
      if raised { Nack(now, verdict); } else { Reject(now); }
    }
  }
}
