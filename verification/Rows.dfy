// The outbox row, its archive copy, and the two pure scheduling rules.

module Rows {
  import opened Prelude

  type Headers = map<string, string>

  type Bytes = seq<bv8>

  /** A table row. `token` and `acquiredAt` are the lease columns. Times are reals on the database clock. */
  datatype Row = Row(
    id: nat,
    queue: string,
    payload: Bytes,
    headers: Option<Headers>,
    attempts: nat,
    deliveries: nat,
    createdAt: real,
    nextAt: real,
    firstAt: Option<real>,
    lastAt: Option<real>,
    acquiredAt: Option<real>,
    token: Option<nat>,
    timer: Option<string>)

  /** What a publish asks for; `at` is the deadline it resolved. */
  datatype Request = Request(queue: string, payload: Bytes, headers: Option<Headers>, at: real)

  datatype Reason = MaxDeliveries | RetryTerminal | Rejected

  datatype Outcome = Ack | Retry(delay: real) | Terminal(reason: Reason)

  /** The failure context that travels with an archiving delete. */
  datatype Failure = Failure(reason: Reason, exception: Option<string>)

  datatype DlqRow = DlqRow(
    originalId: nat,
    queue: string,
    payload: Bytes,
    headers: Option<Headers>,
    deliveries: nat,
    createdAt: real,
    timer: Option<string>,
    failedAt: real,
    reason: Reason,
    exception: Option<string>)

  function Archive(r: Row, f: Failure, now: real): DlqRow {
    DlqRow(r.id, r.queue, r.payload, r.headers, r.deliveries, r.createdAt, r.timer, now, f.reason, f.exception)
  }

  function IsFutureDated(activateIn: Option<real>, activateAt: Option<real>, now: real): bool {
    match activateIn
    case Some(d) => d > 0.0
    case None =>
      match activateAt
      case Some(at) => at > now
      case None => false
  }

  function ResolveNext(activateIn: Option<real>, activateAt: Option<real>, now: real): Option<real> {
    match activateIn
    case Some(d) => Some(now + d)
    case None => activateAt
  }

  function NextAttempt(activateIn: Option<real>, activateAt: Option<real>, now: real): real {
    match ResolveNext(activateIn, activateAt, now)
    case Some(at) => at
    case None => now
  }

  /** A relative activation counts from now and wins over an absolute one; without either the row is due now. */
  lemma DeadlineResolved(activateIn: Option<real>, activateAt: Option<real>, now: real)
    ensures activateIn.Some? ==> NextAttempt(activateIn, activateAt, now) - now == activateIn.value
    ensures activateIn.None? && activateAt.Some? ==> NextAttempt(activateIn, activateAt, now) == activateAt.value
    ensures activateIn.None? && activateAt.None? ==> NextAttempt(activateIn, activateAt, now) == now
  {
  }

  /** A publish skips its NOTIFY exactly when no fetch at the same instant could claim the new row. */
  lemma FutureDatedIffNotDue(activateIn: Option<real>, activateAt: Option<real>, now: real)
    ensures IsFutureDated(activateIn, activateAt, now) <==> NextAttempt(activateIn, activateAt, now) > now
  {
    match activateIn
    case Some(d) => assert now + d > now <==> d > 0.0;
    case None =>
  }
}
