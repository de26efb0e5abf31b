// The ghost history of a run: one entry per change that landed on a row. Legality says what may
// follow what on one row; the lease guarantees are consequences of legality alone.

module History {
  import opened Prelude
  import opened Rows

  /** Each entry carries what its statement was given. An `Extended` entry is an extend that moved the deadline. */
  datatype Entry =
    | Born(id: nat, request: Request, timer: Option<string>, at: real)
    | Claimed(id: nat, token: nat, at: real, ttl: real, copy: Row)
    | Extended(id: nat, request: Request)
    | Rescheduled(id: nat, token: nat, delay: real, first: real, last: real, at: real)
    | Removed(id: nat, token: nat, outcome: Outcome, row: Row, exception: Option<string>, at: real)
    | Cancelled(id: nat)

  predicate IsFree(e: Entry) { e.Born? || e.Extended? || e.Rescheduled? }

  predicate IsWrite(e: Entry) { e.Rescheduled? || e.Removed? }

  predicate IsEnd(e: Entry) { e.Removed? || e.Cancelled? }

  function Init(log: seq<Entry>): seq<Entry> requires log != [] { log[..|log| - 1] }

  function Final(log: seq<Entry>): Entry requires log != [] { log[|log| - 1] }

  /** The latest entry about a row. */
  ghost function Last(log: seq<Entry>, id: nat): Option<Entry> {
    if log == [] then None
    else if Final(log).id == id then Some(Final(log))
    else Last(Init(log), id)
  }

  ghost predicate NeverClaimed(log: seq<Entry>, id: nat, token: nat) {
    forall i :: 0 <= i < |log| ==> !(log[i].Claimed? && log[i].id == id && log[i].token == token)
  }

  /** What may follow `prev` on one row. A reclaim waits out the previous lease; a write presents
      the token of the claim it directly follows; an archived row is the very copy that claim handed out. */
  predicate Follows(prev: Option<Entry>, e: Entry) {
    match e
    case Born(_, _, _, _) => prev.None?
    case Claimed(_, _, at, ttl, _) =>
      prev.Some? && (IsFree(prev.value) || (prev.value.Claimed? && prev.value.at < at - ttl))
    case Extended(_, _) => prev.Some? && IsFree(prev.value)
    case Rescheduled(_, token, _, _, _, _) => prev.Some? && prev.value.Claimed? && prev.value.token == token
    case Removed(_, token, _, row, _, _) =>
      prev.Some? && prev.value.Claimed? && prev.value.token == token && prev.value.copy == row
    case Cancelled(_) => prev.Some? && IsFree(prev.value)
  }

  ghost predicate LegalNext(log: seq<Entry>, e: Entry) {
    Follows(Last(log, e.id), e) && (e.Claimed? ==> NeverClaimed(log, e.id, e.token))
  }

  ghost predicate Legal(log: seq<Entry>) {
    log == [] || (Legal(Init(log)) && LegalNext(Init(log), Final(log)))
  }

  lemma LastOfAppend(log: seq<Entry>, e: Entry, id: nat)
    ensures Last(log + [e], id) == if e.id == id then Some(e) else Last(log, id)
  {
    assert Init(log + [e]) == log;
  }

  lemma LegalAppend(log: seq<Entry>, e: Entry)
    requires Legal(log) && LegalNext(log, e)
    ensures Legal(log + [e])
  {
    assert Init(log + [e]) == log;
  }

  lemma {:induction false} LegalPrefix(log: seq<Entry>, k: nat)
    requires Legal(log) && k <= |log|
    ensures Legal(log[..k])
    decreases |log|
  {
    if k < |log| {
      LegalPrefix(Init(log), k);
      assert Init(log)[..k] == log[..k];
    } else {
      assert log[..k] == log;
    }
  }

  lemma LegalAt(log: seq<Entry>, k: nat)
    requires Legal(log) && k < |log|
    ensures LegalNext(log[..k], log[k])
  {
    LegalPrefix(log, k + 1);
    assert Init(log[..k + 1]) == log[..k] && Final(log[..k + 1]) == log[k];
  }

  ghost predicate NoneBetween(log: seq<Entry>, id: nat, lo: int, hi: int) {
    forall k :: lo < k < hi && 0 <= k < |log| ==> log[k].id != id
  }

  lemma NotBefore(log: seq<Entry>, c: nat, k: nat, i: nat)
    requires i < k <= |log| && NoneBetween(log, log[i].id, c, k)
    ensures i <= c
  {
  }

  /** Where the latest entry about a row is. */
  lemma {:induction false} LastIndex(log: seq<Entry>, id: nat) returns (i: nat)
    requires Last(log, id).Some?
    ensures i < |log| && log[i] == Last(log, id).value && log[i].id == id && NoneBetween(log, id, i, |log|)
    decreases |log|
  {
    if Final(log).id == id {
      i := |log| - 1;
    } else {
      i := LastIndex(Init(log), id);
      assert forall k :: 0 <= k < |Init(log)| ==> Init(log)[k] == log[k];
    }
  }

  lemma {:induction false} LastExists(log: seq<Entry>, i: nat)
    requires i < |log|
    ensures Last(log, log[i].id).Some?
    decreases |log|
  {
    if Final(log).id != log[i].id {
      assert Init(log)[i] == log[i];
      LastExists(Init(log), i);
    }
  }

  /** The entry just before position k on the same row, when there is one. */
  lemma Previous(log: seq<Entry>, k: nat) returns (i: nat)
    requires Legal(log) && k < |log| && !log[k].Born?
    ensures i < k && log[i].id == log[k].id && NoneBetween(log, log[k].id, i, k)
    ensures Follows(Some(log[i]), log[k])
  {
    LegalAt(log, k);
    i := LastIndex(log[..k], log[k].id);
    forall j | i < j < k ensures log[j].id != log[k].id { assert log[..k][j] == log[j]; }
  }

  /** A write lands only for the lease that is still current: the last thing that happened to the row
      is the claim that issued its token. No later claim, reschedule, extend or removal came between. */
  lemma WriteFollowsItsClaim(log: seq<Entry>, k: nat) returns (c: nat)
    requires Legal(log) && k < |log| && IsWrite(log[k])
    ensures c < k && log[c].Claimed? && log[c].id == log[k].id && log[c].token == log[k].token
    ensures NoneBetween(log, log[k].id, c, k)
    ensures log[k].Removed? ==> log[k].row == log[c].copy
  {
    c := Previous(log, k);
  }

  lemma ClaimsDiffer(log: seq<Entry>, i: nat, j: nat)
    requires Legal(log) && i < j < |log| && log[i].Claimed? && log[j].Claimed? && log[i].id == log[j].id
    ensures log[i].token != log[j].token
  {
    LegalAt(log, j);
    assert log[..j][i] == log[i];
  }

  /** At most one terminal or retry write ever lands per claim. */
  lemma OneWritePerClaim(log: seq<Entry>, i: nat, j: nat)
    requires Legal(log) && i < j < |log| && IsWrite(log[i]) && IsWrite(log[j]) && log[i].id == log[j].id
    ensures log[i].token != log[j].token
  {
    var a := WriteFollowsItsClaim(log, i);
    var b := WriteFollowsItsClaim(log, j);
    NotBefore(log, b, j, i);
    ClaimsDiffer(log, a, b);
  }

  /** Once a row has been claimed again, no write under the older token can land. */
  lemma LateWriterNeverLands(log: seq<Entry>, i: nat, j: nat, k: nat)
    requires Legal(log) && i < j < k < |log|
    requires log[i].Claimed? && log[j].Claimed? && IsWrite(log[k])
    requires log[i].id == log[j].id == log[k].id
    ensures log[k].token != log[i].token
  {
    var c := WriteFollowsItsClaim(log, k);
    NotBefore(log, c, k, j);
    ClaimsDiffer(log, i, c);
  }

  /** From a free entry that lies after a claim, going back meets a landed reschedule. */
  lemma {:induction false} RescheduleBetween(log: seq<Entry>, i: nat, p: nat) returns (r: nat)
    requires Legal(log) && i < p < |log| && log[i].id == log[p].id
    requires log[i].Claimed? && IsFree(log[p])
    ensures i < r <= p && log[r].Rescheduled? && log[r].id == log[i].id
    decreases p
  {
    if log[p].Rescheduled? {
      r := p;
    } else if log[p].Born? {
      LegalAt(log, p);
      LastExists(log[..p], i);
      r := p;
    } else {
      var q := Previous(log, p);
      NotBefore(log, q, p, i);
      r := RescheduleBetween(log, i, q);
    }
  }

  /** Mutual exclusion in time: two successive claims of a row have a landed reschedule between them,
      or lie more than the reclaiming fetch's lease apart. */
  lemma ClaimsExclude(log: seq<Entry>, i: nat, k: nat) returns (r: nat)
    requires Legal(log) && i < k < |log| && log[i].Claimed? && log[k].Claimed? && log[i].id == log[k].id
    requires forall j :: i < j < k && log[j].id == log[i].id ==> !log[j].Claimed?
    ensures log[k].at - log[i].at > log[k].ttl || (i < r < k && log[r].Rescheduled? && log[r].id == log[i].id)
  {
    r := 0;
    var p := Previous(log, k);
    NotBefore(log, p, k, i);
    if p > i {
      r := RescheduleBetween(log, i, p);
    }
  }

  ghost predicate NoReschedule(log: seq<Entry>, id: nat, lo: int, hi: int) {
    forall k :: lo < k < hi && 0 <= k < |log| ==> !(log[k].Rescheduled? && log[k].id == id)
  }

  /** Without a reschedule between two claims of a row, successive or not, the later one waited out its lease
      since the earlier. */
  lemma {:induction false} ReclaimsWaitOut(log: seq<Entry>, i: nat, k: nat)
    requires Legal(log) && i < k < |log| && log[i].Claimed? && log[k].Claimed? && log[i].id == log[k].id
    requires NoReschedule(log, log[i].id, i, k)
    requires forall j :: 0 <= j < |log| && log[j].Claimed? ==> log[j].ttl >= 0.0
    ensures log[k].at - log[i].at > log[k].ttl
    decreases k
  {
    var p := Previous(log, k);
    NotBefore(log, p, k, i);
    if p > i {
      if log[p].Claimed? {
        ReclaimsWaitOut(log, i, p);
      } else {
        var r := RescheduleBetween(log, i, p);
      }
    }
  }

  /** An id is inserted once. */
  lemma BornOnce(log: seq<Entry>, b: nat, i: nat)
    requires Legal(log) && b < i < |log| && log[b].id == log[i].id
    ensures !log[i].Born?
  {
    if log[i].Born? {
      LegalAt(log, i);
      LastExists(log[..i], b);
    }
  }

  /** A removed or cancelled row never comes back. */
  lemma {:induction false} EndIsFinal(log: seq<Entry>, i: nat, k: nat)
    requires Legal(log) && i < k < |log| && IsEnd(log[i])
    ensures log[k].id != log[i].id
    decreases k
  {
    if log[k].id == log[i].id {
      if log[k].Born? {
        LegalAt(log, k);
        LastExists(log[..k], i);
      } else {
        var p := Previous(log, k);
        NotBefore(log, p, k, i);
        if p > i {
          EndIsFinal(log, i, p);
        }
      }
    }
  }

  // ----- counts -----

  ghost function Claims(log: seq<Entry>, id: nat): nat {
    if log == [] then 0
    else Claims(Init(log), id) + if Final(log).Claimed? && Final(log).id == id then 1 else 0
  }

  /** Reschedules landed since the row was inserted or last had its retry history reset. */
  ghost function Retries(log: seq<Entry>, id: nat): nat {
    if log == [] then 0
    else if Final(log).id != id then Retries(Init(log), id)
    else match Final(log)
      case Rescheduled(_, _, _, _, _, _) => Retries(Init(log), id) + 1
      case Born(_, _, _, _) => 0
      case Extended(_, _) => 0
      case _ => Retries(Init(log), id)
  }

  datatype Fate = Acked | Failed | Withdrawn

  predicate HasFate(e: Entry, f: Fate) {
    match f
    case Acked => e.Removed? && !e.outcome.Terminal?
    case Failed => e.Removed? && e.outcome.Terminal?
    case Withdrawn => e.Cancelled?
  }

  ghost function Fates(log: seq<Entry>, id: nat, f: Fate): nat {
    if log == [] then 0
    else Fates(Init(log), id, f) + if Final(log).id == id && HasFate(Final(log), f) then 1 else 0
  }

  ghost function Ends(log: seq<Entry>, id: nat): nat {
    Fates(log, id, Acked) + Fates(log, id, Failed) + Fates(log, id, Withdrawn)
  }

  /** The archive a run must have produced: one copy per terminal failure, in order. */
  ghost function Archives(log: seq<Entry>): seq<DlqRow> {
    if log == [] then [] else
      var e := Final(log);
      Archives(Init(log)) +
      if e.Removed? && e.outcome.Terminal?
      then [Archive(e.row, Failure(e.outcome.reason, e.exception), e.at)] else []
  }

  lemma CountsOfAppend(log: seq<Entry>, e: Entry, id: nat)
    ensures Claims(log + [e], id) == Claims(log, id) + if e.Claimed? && e.id == id then 1 else 0
    ensures Ends(log + [e], id) == Ends(log, id) + if IsEnd(e) && e.id == id then 1 else 0
    ensures e.id != id ==> Retries(log + [e], id) == Retries(log, id)
    ensures e.id == id && (e.Born? || e.Extended?) ==> Retries(log + [e], id) == 0
    ensures e.id == id && e.Rescheduled? ==> Retries(log + [e], id) == Retries(log, id) + 1
    ensures e.id == id && (e.Claimed? || IsEnd(e)) ==> Retries(log + [e], id) == Retries(log, id)
  {
    assert Init(log + [e]) == log;
  }

  lemma ArchivesOfAppend(log: seq<Entry>, e: Entry)
    ensures Archives(log + [e]) == Archives(log) +
      if e.Removed? && e.outcome.Terminal?
      then [Archive(e.row, Failure(e.outcome.reason, e.exception), e.at)] else []
  {
    assert Init(log + [e]) == log;
  }

  /** Total weight of the copies a run's claims handed out. */
  ghost function ClaimSum(log: seq<Entry>, g: Row -> nat): nat {
    if log == [] then 0
    else ClaimSum(Init(log), g) + if Final(log).Claimed? then g(Final(log).copy) else 0
  }

  lemma ClaimSumOfAppend(log: seq<Entry>, e: Entry, g: Row -> nat)
    ensures ClaimSum(log + [e], g) == ClaimSum(log, g) + if e.Claimed? then g(e.copy) else 0
  {
    assert Init(log + [e]) == log;
  }

  // ----- what a row must hold -----

  /** The columns of a row that its history of requests and retry writes determines. */
  datatype Facts = Facts(
    queue: string,
    payload: Bytes,
    headers: Option<Headers>,
    timer: Option<string>,
    createdAt: real,
    dueAt: real,
    firstAt: Option<real>,
    lastAt: Option<real>)

  /** When a row inserted, extended or rescheduled by this entry falls due. */
  function Deadline(e: Entry): real
    requires IsFree(e)
  {
    match e
    case Born(_, q, _, _) => q.at
    case Extended(_, q) => q.at
    case Rescheduled(_, _, delay, _, _, at) => if delay > 0.0 then at + delay else at
  }

  function Tell(f: Facts, e: Entry): Facts {
    match e
    case Extended(_, q) =>
      f.(payload := q.payload, headers := q.headers, dueAt := q.at, firstAt := None, lastAt := None)
    case Rescheduled(_, _, _, first, last, _) =>
      f.(dueAt := Deadline(e), lastAt := Some(last), firstAt := if f.firstAt.Some? then f.firstAt else Some(first))
    case _ => f
  }

  function BornFacts(e: Entry): Facts
    requires e.Born?
  {
    Facts(e.request.queue, e.request.payload, e.request.headers, e.timer, e.at, e.request.at, None, None)
  }

  /** What the history says of a row: who asked for what, and which attempts were written back. */
  ghost function FactsOf(log: seq<Entry>, id: nat): Option<Facts> {
    if log == [] then None
    else
      var e, before := Final(log), FactsOf(Init(log), id);
      if e.id != id then before
      else if e.Born? then Some(BornFacts(e))
      else if before.Some? then Some(Tell(before.value, e))
      else None
  }

  function RowFacts(r: Row): Facts {
    Facts(r.queue, r.payload, r.headers, r.timer, r.createdAt, r.nextAt, r.firstAt, r.lastAt)
  }

  lemma FactsOfAppend(log: seq<Entry>, e: Entry, id: nat)
    ensures e.id != id ==> FactsOf(log + [e], id) == FactsOf(log, id)
    ensures e.id == id && e.Born? ==> FactsOf(log + [e], id) == Some(BornFacts(e))
    ensures e.id == id && !e.Born? && FactsOf(log, id).Some? ==>
              FactsOf(log + [e], id) == Some(Tell(FactsOf(log, id).value, e))
  {
    assert Init(log + [e]) == log;
  }

  ghost predicate NoneSince(log: seq<Entry>, j: nat, p: Entry -> bool)
    requires j < |log|
  {
    forall i :: j < i < |log| && log[i].id == log[j].id ==> !p(log[i])
  }

  lemma SinceInit(log: seq<Entry>, j: nat, p: Entry -> bool)
    requires j < |log| - 1 && NoneSince(log, j, p)
    ensures NoneSince(Init(log), j, p) && Init(log)[j] == log[j]
    ensures Final(log).id == log[j].id ==> !p(Final(log))
  {
    assert forall i :: 0 <= i < |Init(log)| ==> Init(log)[i] == log[i];
  }

  /** After an insert, an extend that moved it or a reschedule, and until the next of these, that entry's
      deadline is the row's. */
  lemma {:induction false} DueSinceFree(log: seq<Entry>, j: nat)
    requires j < |log| && IsFree(log[j]) && FactsOf(log, log[j].id).Some?
    requires NoneSince(log, j, (e: Entry) => IsFree(e))
    ensures FactsOf(log, log[j].id).value.dueAt == Deadline(log[j])
    decreases |log|
  {
    if j < |log| - 1 {
      SinceInit(log, j, (e: Entry) => IsFree(e));
      DueSinceFree(Init(log), j);
    }
  }

  /** The last attempt written back is the latest reschedule's; a request clears it. */
  lemma {:induction false} LastSinceFree(log: seq<Entry>, j: nat)
    requires j < |log| && IsFree(log[j]) && FactsOf(log, log[j].id).Some?
    requires NoneSince(log, j, (e: Entry) => IsFree(e))
    ensures FactsOf(log, log[j].id).value.lastAt == if log[j].Rescheduled? then Some(log[j].last) else None
    decreases |log|
  {
    if j < |log| - 1 {
      SinceInit(log, j, (e: Entry) => IsFree(e));
      LastSinceFree(Init(log), j);
    }
  }

  predicate IsRequest(e: Entry) { e.Born? || e.Extended? }

  /** Payload and headers are those of the insert or of the last extend that moved the deadline. */
  lemma {:induction false} PayloadSinceRequest(log: seq<Entry>, j: nat)
    requires j < |log| && IsRequest(log[j]) && FactsOf(log, log[j].id).Some?
    requires NoneSince(log, j, (e: Entry) => IsRequest(e))
    ensures FactsOf(log, log[j].id).value.payload == log[j].request.payload
    ensures FactsOf(log, log[j].id).value.headers == log[j].request.headers
    decreases |log|
  {
    if j < |log| - 1 {
      SinceInit(log, j, (e: Entry) => IsRequest(e));
      PayloadSinceRequest(Init(log), j);
    }
  }

  /** The first attempt written back since the last request stays. */
  lemma {:induction false} FirstSinceRequest(log: seq<Entry>, j: nat, r: nat)
    requires j < r < |log| && IsRequest(log[j]) && FactsOf(log, log[j].id).Some?
    requires NoneSince(log, j, (e: Entry) => IsRequest(e))
    requires log[r].Rescheduled? && log[r].id == log[j].id && NoReschedule(log, log[j].id, j, r)
    ensures FactsOf(log, log[j].id).value.firstAt == Some(log[r].first)
    decreases |log|
  {
    SinceInit(log, j, (e: Entry) => IsRequest(e));
    assert forall i :: 0 <= i < |Init(log)| ==> Init(log)[i] == log[i];
    if r < |log| - 1 {
      FirstSinceRequest(Init(log), j, r);
    } else {
      NoneYet(Init(log), j);
    }
  }

  lemma {:induction false} NoneYet(log: seq<Entry>, j: nat)
    requires j < |log| && IsRequest(log[j]) && FactsOf(log, log[j].id).Some?
    requires NoneSince(log, j, (e: Entry) => IsRequest(e)) && NoReschedule(log, log[j].id, j, |log|)
    ensures FactsOf(log, log[j].id).value.firstAt.None?
    decreases |log|
  {
    if j < |log| - 1 {
      SinceInit(log, j, (e: Entry) => IsRequest(e));
      assert forall i :: 0 <= i < |Init(log)| ==> Init(log)[i] == log[i];
      assert !(Final(log).Rescheduled? && Final(log).id == log[j].id) by { assert Final(log) == log[|log| - 1]; }
      NoneYet(Init(log), j);
    }
  }

  /** Queue, timer and creation time are those of the insert. */
  lemma {:induction false} IdentitySinceBirth(log: seq<Entry>, j: nat)
    requires j < |log| && log[j].Born? && FactsOf(log, log[j].id).Some?
    requires NoneSince(log, j, (e: Entry) => e.Born?)
    ensures FactsOf(log, log[j].id).value.queue == log[j].request.queue
    ensures FactsOf(log, log[j].id).value.timer == log[j].timer
    ensures FactsOf(log, log[j].id).value.createdAt == log[j].at
    decreases |log|
  {
    if j < |log| - 1 {
      SinceInit(log, j, (e: Entry) => e.Born?);
      IdentitySinceBirth(Init(log), j);
    }
  }

  /** Every claim's copy carries its own lease, the number of claims of its row so far, and what the history
      says of the row; and none is handed out before it is due. */
  ghost predicate Numbered(log: seq<Entry>) {
    log == [] || (Numbered(Init(log)) && (Final(log).Claimed? ==> NumberedEntry(log, Final(log))))
  }

  ghost predicate NumberedEntry(log: seq<Entry>, e: Entry)
    requires e.Claimed?
  {
    && e.copy.id == e.id && e.copy.token == Some(e.token) && e.copy.deliveries == Claims(log, e.id)
    && FactsOf(log, e.id) == Some(RowFacts(e.copy)) && e.copy.nextAt <= e.at
  }

  lemma NumberedAppend(log: seq<Entry>, e: Entry)
    requires Numbered(log) && (e.Claimed? ==> NumberedEntry(log + [e], e))
    ensures Numbered(log + [e])
  {
    assert Init(log + [e]) == log;
  }

  lemma {:induction false} NumberedAt(log: seq<Entry>, k: nat)
    requires Numbered(log) && k < |log| && log[k].Claimed?
    ensures NumberedEntry(log[..k + 1], log[k])
    decreases |log|
  {
    if k < |log| - 1 {
      NumberedAt(Init(log), k);
      assert Init(log)[..k + 1] == log[..k + 1] && Init(log)[k] == log[k];
    } else {
      assert log[..k + 1] == log;
    }
  }

  ghost function CopiesOf(dlq: seq<DlqRow>, id: nat): nat {
    Sum(dlq, (d: DlqRow) => if d.originalId == id then 1 else 0)
  }

  ghost predicate RowsNamed(log: seq<Entry>) {
    forall i :: 0 <= i < |log| && log[i].Removed? ==> log[i].row.id == log[i].id
  }

  /** Each terminally failed id has exactly as many archive rows as terminal failures. */
  lemma {:induction false} ArchiveCounts(log: seq<Entry>, id: nat)
    requires RowsNamed(log)
    ensures CopiesOf(Archives(log), id) == Fates(log, id, Failed)
    decreases |log|
  {
    if log != [] {
      var e, g := Final(log), (d: DlqRow) => if d.originalId == id then 1 else 0;
      assert RowsNamed(Init(log)) by { assert forall i :: 0 <= i < |Init(log)| ==> Init(log)[i] == log[i]; }
      assert e == log[|log| - 1];
      ArchiveCounts(Init(log), id);
      if e.Removed? && e.outcome.Terminal? {
        var d := Archive(e.row, Failure(e.outcome.reason, e.exception), e.at);
        SumAppend(Archives(Init(log)), [d], g);
        SumOne(d, g);
      } else {
        assert Archives(log) == Archives(Init(log));
      }
    }
  }

  /** Every archive row is the projection of a copy some claim handed out, taken when that claim's
      delete landed, with the reason recorded for that delivery. */
  lemma {:induction false} ArchiveOrigin(log: seq<Entry>, d: DlqRow) returns (c: nat, k: nat)
    requires Legal(log) && d in Archives(log)
    ensures c < k < |log| && log[k].Removed? && log[k].outcome.Terminal?
    ensures log[c].Claimed? && log[c].id == log[k].id && log[c].token == log[k].token
    ensures NoneBetween(log, log[k].id, c, k)
    ensures var r := log[c].copy;
            && d.originalId == r.id && d.queue == r.queue && d.payload == r.payload && d.headers == r.headers
            && d.deliveries == r.deliveries && d.createdAt == r.createdAt && d.timer == r.timer
    ensures d.failedAt == log[k].at && d.reason == log[k].outcome.reason && d.exception == log[k].exception
    decreases |log|
  {
    var e := Final(log);
    var here := if e.Removed? && e.outcome.Terminal?
                then [Archive(e.row, Failure(e.outcome.reason, e.exception), e.at)] else [];
    if d in here {
      k := |log| - 1;
      c := WriteFollowsItsClaim(log, k);
    } else {
      c, k := ArchiveOrigin(Init(log), d);
      assert forall i :: 0 <= i < |Init(log)| ==> Init(log)[i] == log[i];
    }
  }
}
