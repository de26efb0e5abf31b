// The NOTIFY memo of a publisher: which queues have been notified in which transaction, over nested
// transactions that commit, roll back or fail, against the plain rule of notifying for every landed row.

module NotifyMemo {
  import opened Prelude

  /** One open transaction or savepoint of the caller's session, with the notifications it has pending. */
  datatype Frame = Frame(txn: nat, sent: seq<string>, aborted: bool)

  /** A pg_notify call, by innermost transaction and queue. */
  datatype Call = Call(txn: nat, queue: string)

  /** `frames` is innermost last; with `autobegin` the first statement opens a transaction by itself. With
      `autocommit` every statement commits on its own although a transaction object is open. `delivered` holds
      one entry per commit; `calls` every notification issued inside a transaction. */
  datatype Conn = Conn(
    autobegin: bool,
    autocommit: bool,
    frames: seq<Frame>,
    nextTxn: nat,
    delivered: seq<seq<string>>,
    calls: seq<Call>)

  type Memo = map<nat, set<string>>

  datatype State = State(conn: Conn, memo: Memo)

  function NewConn(autobegin: bool, autocommit: bool): Conn { Conn(autobegin, autocommit, [], 0, [], []) }

  function Push(c: Conn): Conn {
    c.(frames := c.frames + [Frame(c.nextTxn, [], false)], nextTxn := c.nextTxn + 1)
  }

  function Top(c: Conn): Frame requires c.frames != [] { c.frames[|c.frames| - 1] }

  function Below(c: Conn): seq<Frame> requires c.frames != [] { c.frames[..|c.frames| - 1] }

  function Innermost(c: Conn): Option<nat> { if c.frames == [] then None else Some(Top(c).txn) }

  /** Running any statement. */
  function Begun(c: Conn): Conn { if c.frames == [] && c.autobegin then Push(c) else c }

  function Deliver(c: Conn, queues: seq<string>): Conn {
    c.(delivered := if queues == [] then c.delivered else c.delivered + [queues])
  }

  function Issue(c: Conn, queues: seq<string>): Conn
    requires c.frames != []
  {
    c.(calls := c.calls + seq(|queues|, i requires 0 <= i < |queues| => Call(Top(c).txn, queues[i])))
  }

  /** A statement that notifies `queues`; it is delivered with its commit. */
  function Sent(c: Conn, queues: seq<string>): Conn {
    if c.frames == [] then Deliver(c, queues)
    else if c.autocommit then Deliver(Issue(c, queues), queues)
    else Issue(c, queues).(frames := Below(c) + [Top(c).(sent := Top(c).sent + queues)])
  }

  /** A statement that raised leaves its transaction unusable until it is rolled back. */
  function Failed(c: Conn): Conn {
    if c.frames == [] || c.autocommit then c else c.(frames := Below(c) + [Top(c).(aborted := true)])
  }

  /** The end of the outermost transaction. */
  function Committed(c: Conn): Conn
    requires c.frames != []
  {
    c.(frames := [],
       delivered := if c.autocommit then c.delivered else c.delivered + [if Top(c).aborted then [] else Top(c).sent])
  }

  // ----- the memo -----

  function Remembered(memo: Memo, txn: nat): set<string> { if txn in memo then memo[txn] else {} }

  /** The memo entry of the innermost transaction, created on first use; none outside a transaction. */
  function Touched(s: State): State {
    match Innermost(s.conn)
    case None => s
    case Some(t) => s.(memo := s.memo[t := Remembered(s.memo, t)])
  }

  function Emitted(s: State): Option<set<string>> {
    match Innermost(s.conn) case None => None case Some(t) => Some(Remembered(s.memo, t))
  }

  predicate Unsent(s: State, queue: string) { Emitted(s).None? || queue !in Emitted(s).value }

  function Noted(s: State, queue: string): State {
    match Innermost(s.conn)
    case None => s
    case Some(t) => s.(memo := s.memo[t := Remembered(s.memo, t) + {queue}])
  }

  // ----- publishing -----

  /** One row. `lands` is whether the insert returned a row: a kept timer or a leased one returns none. The
      memo is read again afterwards, since the statement itself may have begun the transaction. */
  function PublishOne(s: State, queue: string, future: bool, lands: bool): State {
    var notify := !future && Unsent(s, queue);
    var s1 := Touched(s);
    var s2 := s1.(conn := Sent(Begun(s1.conn), if lands && notify then [queue] else []));
    if lands && notify then Noted(s2, queue) else s2
  }

  function NotifyStep(s: State, queue: string, ok: bool): State {
    if !Unsent(s, queue) then Touched(s)
    else
      var s1 := Noted(s, queue);
      s1.(conn := if ok then Sent(s1.conn, [queue]) else Failed(s1.conn))
  }

  /** Rows of one queue in one statement, then one notification. `ok` is whether that notification ran. */
  function PublishMany(s: State, queue: string, future: bool, ok: bool): State {
    var s1 := s.(conn := Begun(s.conn));
    if future then s1 else NotifyStep(s1, queue, ok)
  }

  /** The insert itself raised; the single-row form has looked its memo up by then. */
  function PublishRaised(s: State, batch: bool): State {
    (if batch then s else Touched(s)).(conn := Failed(Begun(s.conn)))
  }

  // ----- histories -----

  datatype Action =
    | Begin
    | Release
    | Rollback
    | Commit
    | Publish(queue: string, future: bool, lands: bool)
    | PublishFails(batch: bool)
    | PublishBatch(queue: string, future: bool, count: nat)
    | NotifyFails(queue: string)

  predicate Usable(c: Conn) { c.frames != [] ==> !Top(c).aborted }

  predicate Enabled(s: State, a: Action) {
    match a
    case Begin => Usable(s.conn) && (s.conn.autocommit ==> s.conn.frames == [])
    case Release => |s.conn.frames| >= 2 && Usable(s.conn)
    case Rollback => s.conn.frames != []
    case Commit => |s.conn.frames| == 1
    case Publish(_, _, _) => Usable(s.conn)
    case PublishFails(_) => Usable(s.conn)
    case PublishBatch(_, _, count) => Usable(s.conn) && count >= 1
    case NotifyFails(queue) => Usable(s.conn) && Unsent(s, queue)
  }

  function Dropped(s: State): Memo
    requires s.conn.frames != []
  {
    s.memo - {Top(s.conn).txn}
  }

  function Released(c: Conn): seq<Frame>
    requires |c.frames| >= 2
  {
    var outer := c.frames[|c.frames| - 2];
    c.frames[..|c.frames| - 2] + [outer.(sent := outer.sent + Top(c).sent)]
  }

  function Step(s: State, a: Action): State
    requires Enabled(s, a)
  {
    match a
    case Begin => s.(conn := Push(s.conn))
    case Release => State(s.conn.(frames := Released(s.conn)), Dropped(s))
    case Rollback => State(s.conn.(frames := Below(s.conn)), Dropped(s))
    case Commit => State(Committed(s.conn), Dropped(s))
    case Publish(queue, future, lands) => PublishOne(s, queue, future, lands)
    case PublishFails(batch) => PublishRaised(s, batch)
    case PublishBatch(queue, future, _) => PublishMany(s, queue, future, true)
    case NotifyFails(queue) => PublishMany(s, queue, false, false)
  }

  // ----- the plain rule: every landed row that is due is wanted -----

  /** The due rows of one open transaction or savepoint, by queue. */
  datatype Level = Level(due: set<string>, failed: bool)

  /** What publishers mean, without memo or calls: `delivered` is what each commit must bring. */
  datatype Plain = Plain(autobegin: bool, autocommit: bool, levels: seq<Level>, delivered: seq<set<string>>)

  function NewPlain(autobegin: bool, autocommit: bool): Plain { Plain(autobegin, autocommit, [], []) }

  function Enter(p: Plain): Plain { p.(levels := p.levels + [Level({}, false)]) }

  function Entered(p: Plain): Plain { if p.levels == [] && p.autobegin then Enter(p) else p }

  function Inner(p: Plain): Level requires p.levels != [] { p.levels[|p.levels| - 1] }

  function Want(p: Plain, queue: string): Plain {
    if p.levels == [] || p.autocommit then p.(delivered := p.delivered + [{queue}])
    else p.(levels := p.levels[|p.levels| - 1 := Inner(p).(due := Inner(p).due + {queue})])
  }

  function Spoil(p: Plain): Plain {
    if p.levels == [] || p.autocommit then p
    else p.(levels := p.levels[|p.levels| - 1 := Inner(p).(failed := true)])
  }

  function PlainStep(p: Plain, a: Action): Plain {
    var n := |p.levels|;
    match a
    case Begin => Enter(p)
    case Release =>
      if n < 2 then p
      else p.(levels := p.levels[..n - 2] + [p.levels[n - 2].(due := p.levels[n - 2].due + p.levels[n - 1].due)])
    case Rollback => if n == 0 then p else p.(levels := p.levels[..n - 1])
    case Commit =>
      if n == 0 then p
      else
        var brings := if Inner(p).failed then {} else Inner(p).due;
        p.(levels := [], delivered := if p.autocommit then p.delivered else p.delivered + [brings])
    case Publish(queue, future, lands) => if lands && !future then Want(Entered(p), queue) else Entered(p)
    case PublishBatch(queue, future, _) => if future then Entered(p) else Want(Entered(p), queue)
    case PublishFails(_) => Spoil(Entered(p))
    case NotifyFails(_) => Spoil(Entered(p))
  }

  // ----- the two agree -----

  ghost function Elems(s: seq<string>): set<string> { set q | q in s }

  ghost predicate SameFrame(f: Frame, l: Level) {
    f.aborted == l.failed && (!f.aborted ==> Elems(f.sent) == l.due)
  }

  ghost predicate SameFrames(fs: seq<Frame>, ls: seq<Level>) {
    |fs| == |ls| && forall i :: 0 <= i < |fs| ==> SameFrame(fs[i], ls[i])
  }

  ghost predicate SameDelivered(a: seq<seq<string>>, b: seq<set<string>>) {
    |a| == |b| && forall i :: 0 <= i < |a| ==> Elems(a[i]) == b[i]
  }

  ghost predicate Agree(s: State, p: Plain) {
    && s.conn.autobegin == p.autobegin && !s.conn.autocommit && !p.autocommit
    && SameFrames(s.conn.frames, p.levels) && SameDelivered(s.conn.delivered, p.delivered)
  }

  /** What a memo entry says was notified really is pending, in every usable transaction; and transactions
      are never confused. */
  ghost predicate MemoOk(s: State) {
    && (forall i :: 0 <= i < |s.conn.frames| ==> s.conn.frames[i].txn < s.conn.nextTxn)
    && (forall i, j :: 0 <= i < j < |s.conn.frames| ==> s.conn.frames[i].txn != s.conn.frames[j].txn)
    && (forall i :: 0 <= i < |s.conn.frames| && !s.conn.frames[i].aborted ==>
          Remembered(s.memo, s.conn.frames[i].txn) <= Elems(s.conn.frames[i].sent))
    && (forall t :: t in s.memo ==> t < s.conn.nextTxn)
  }

  ghost predicate IsOpen(c: Conn, txn: nat) { exists i :: 0 <= i < |c.frames| && c.frames[i].txn == txn }

  ghost predicate CallsOk(s: State) {
    && (forall i, j :: 0 <= i < j < |s.conn.calls| ==> s.conn.calls[i] != s.conn.calls[j])
    && (forall k :: k in s.conn.calls ==>
          k.txn < s.conn.nextTxn && (IsOpen(s.conn, k.txn) ==> k.queue in Remembered(s.memo, k.txn)))
  }

  ghost predicate Good(s: State, p: Plain) { Agree(s, p) && MemoOk(s) && CallsOk(s) }

  // ----- the pieces -----

  lemma ElemsAppend(a: seq<string>, b: seq<string>)
    ensures Elems(a + b) == Elems(a) + Elems(b)
  {
    assert forall q :: q in a + b <==> q in a || q in b;
  }

  lemma TopSame(fs: seq<Frame>, ls: seq<Level>, f: Frame, l: Level)
    requires SameFrames(fs, ls) && fs != [] && SameFrame(f, l)
    ensures SameFrames(fs[..|fs| - 1] + [f], ls[|ls| - 1 := l])
  {
  }

  lemma DeliveredSame(a: seq<seq<string>>, b: seq<set<string>>, x: seq<string>, y: set<string>)
    requires SameDelivered(a, b) && Elems(x) == y
    ensures SameDelivered(a + [x], b + [y])
  {
  }

  /** Sending a wanted queue, unless it is pending already, keeps the two in agreement. */
  lemma SentAgrees(s: State, p: Plain, xs: seq<string>, queue: string)
    requires Agree(s, p) && Usable(s.conn)
    requires if s.conn.frames == [] then xs == [queue]
             else Elems(Top(s.conn).sent) + Elems(xs) == Elems(Top(s.conn).sent) + {queue}
    ensures Agree(s.(conn := Sent(s.conn, xs)), Want(p, queue))
  {
    if s.conn.frames == [] {
      DeliveredSame(s.conn.delivered, p.delivered, xs, {queue});
    } else {
      var f, l := Top(s.conn), Inner(p);
      assert SameFrame(f, l);
      ElemsAppend(f.sent, xs);
      TopSame(s.conn.frames, p.levels, f.(sent := f.sent + xs), l.(due := l.due + {queue}));
    }
  }

  lemma BegunGood(s: State, p: Plain)
    requires Good(s, p)
    ensures Good(s.(conn := Begun(s.conn)), Entered(p))
    ensures Usable(s.conn) ==> Usable(Begun(s.conn))
    ensures forall queue :: Unsent(s, queue) ==> Unsent(s.(conn := Begun(s.conn)), queue)
  {
    if s.conn.frames == [] && s.conn.autobegin {
      PushGood(s, p);
      assert Begun(s.conn) == Push(s.conn) && Entered(p) == Enter(p);
      assert s.conn.nextTxn !in s.memo;
    }
  }

  lemma PushGood(s: State, p: Plain)
    requires Good(s, p)
    ensures Good(s.(conn := Push(s.conn)), Enter(p))
  {
    var s' := s.(conn := Push(s.conn));
    var fs' := s'.conn.frames;
    assert forall i :: 0 <= i < |s.conn.frames| ==> fs'[i] == s.conn.frames[i];
    assert s.conn.nextTxn !in s.memo;
    forall k | k in s'.conn.calls && IsOpen(s'.conn, k.txn) ensures k.queue in Remembered(s'.memo, k.txn) {
      var i :| 0 <= i < |fs'| && fs'[i].txn == k.txn;
      assert s.conn.frames[i].txn == k.txn;
    }
  }

  lemma TouchedSame(s: State)
    ensures Touched(s).conn == s.conn
    ensures forall t :: Remembered(Touched(s).memo, t) == Remembered(s.memo, t)
  {
  }

  lemma TouchedGood(s: State, p: Plain)
    requires Good(s, p)
    ensures Good(Touched(s), p)
  {
    TouchedSame(s);
  }

  lemma FailedGood(s: State, p: Plain)
    requires Good(s, p)
    ensures Good(s.(conn := Failed(s.conn)), Spoil(p))
  {
    if s.conn.frames != [] {
      var f, l, s' := Top(s.conn), Inner(p), s.(conn := Failed(s.conn));
      TopSame(s.conn.frames, p.levels, f.(aborted := true), l.(failed := true));
      SameTransactions(s.conn, s'.conn);
    }
  }

  lemma SameTransactions(c: Conn, c': Conn)
    requires |c.frames| == |c'.frames| && forall i :: 0 <= i < |c.frames| ==> c.frames[i].txn == c'.frames[i].txn
    ensures forall t :: IsOpen(c, t) <==> IsOpen(c', t)
  {
    forall t | IsOpen(c, t) ensures IsOpen(c', t) {
      var i :| 0 <= i < |c.frames| && c.frames[i].txn == t;
      assert c'.frames[i].txn == t;
    }
    forall t | IsOpen(c', t) ensures IsOpen(c, t) {
      var i :| 0 <= i < |c'.frames| && c'.frames[i].txn == t;
      assert c.frames[i].txn == t;
    }
  }

  lemma NothingSent(c: Conn)
    ensures Sent(c, []) == c
  {
    if c.frames != [] {
      assert Top(c).sent + [] == Top(c).sent;
      assert Below(c) + [Top(c)] == c.frames;
      assert c.calls + [] == c.calls;
    }
  }

  /** The memo says the queue was notified here: skipping loses nothing that is wanted. */
  lemma SkipGood(s: State, p: Plain, queue: string)
    requires Good(s, p) && Usable(s.conn) && !Unsent(s, queue)
    ensures Good(s, Want(p, queue))
  {
    NothingSent(s.conn);
    var f := s.conn.frames[|s.conn.frames| - 1];
    assert queue in Remembered(s.memo, f.txn);
    assert Elems(f.sent) + Elems([]) == Elems(f.sent) + {queue};
    SentAgrees(s, p, [], queue);
  }

  /** A first notification in this transaction is sent and remembered. */
  lemma SendGood(s: State, p: Plain, queue: string)
    requires Good(s, p) && Usable(s.conn) && Unsent(s, queue)
    ensures Good(Noted(s.(conn := Sent(s.conn, [queue])), queue), Want(p, queue))
    ensures Noted(s.(conn := Sent(s.conn, [queue])), queue) == Noted(s, queue).(conn := Sent(s.conn, [queue]))
  {
    assert Elems([queue]) == {queue};
    SentAgrees(s, p, [queue], queue);
    if s.conn.frames != [] {
      SendRemembers(s, queue);
    }
  }

  lemma SendRemembers(s: State, queue: string)
    requires MemoOk(s) && CallsOk(s) && s.conn.frames != [] && !s.conn.autocommit && Usable(s.conn) && Unsent(s, queue)
    ensures MemoOk(Noted(s, queue).(conn := Sent(s.conn, [queue])))
    ensures CallsOk(Noted(s, queue).(conn := Sent(s.conn, [queue])))
  {
    var s' := Noted(s, queue).(conn := Sent(s.conn, [queue]));
    var n, t := |s.conn.frames| - 1, Top(s.conn).txn;
    ElemsAppend(Top(s.conn).sent, [queue]);
    SameTransactions(s.conn, s'.conn);
    assert s'.conn.calls == s.conn.calls + [Call(t, queue)];
    assert s.conn.frames[n].txn == t;
    assert Call(t, queue) !in s.conn.calls;
  }

  lemma FailNotedGood(s: State, p: Plain, queue: string)
    requires Good(s, p)
    ensures Good(Noted(s, queue).(conn := Failed(s.conn)), Spoil(p))
  {
    FailedGood(s, p);
    if s.conn.frames != [] {
      var s' := Noted(s, queue).(conn := Failed(s.conn));
      var n := |s.conn.frames| - 1;
      forall i | 0 <= i < |s'.conn.frames| && !s'.conn.frames[i].aborted
        ensures Remembered(s'.memo, s'.conn.frames[i].txn) <= Elems(s'.conn.frames[i].sent)
      {
        assert s'.conn.frames[i] == s.conn.frames[i];
        assert s.conn.frames[i].txn != s.conn.frames[n].txn;
      }
    }
  }

  // ----- every action -----

  lemma PublishDueGood(s: State, p: Plain, queue: string)
    requires Good(s, p) && Usable(s.conn)
    ensures Good(PublishOne(s, queue, false, true), Want(Entered(p), queue))
  {
    var s1 := Touched(s);
    var s2, p2 := s1.(conn := Begun(s1.conn)), Entered(p);
    TouchedGood(s, p);
    TouchedSame(s);
    BegunGood(s1, p);
    assert Elems([queue]) == {queue};
    if Unsent(s, queue) {
      assert Unsent(s1, queue);
      SendGood(s2, p2, queue);
    } else {
      NothingSent(s2.conn);
      assert Begun(s1.conn) == s1.conn;
      SkipGood(s2, p2, queue);
    }
  }

  lemma PublishGood(s: State, p: Plain, a: Action)
    requires Good(s, p) && a.Publish? && Enabled(s, a)
    ensures Good(Step(s, a), PlainStep(p, a))
  {
    if a.lands && !a.future {
      PublishDueGood(s, p, a.queue);
    } else {
      var s1 := Touched(s);
      TouchedGood(s, p);
      BegunGood(s1, p);
      NothingSent(Begun(s1.conn));
    }
  }

  lemma PublishBatchGood(s: State, p: Plain, a: Action)
    requires Good(s, p) && a.PublishBatch? && Enabled(s, a)
    ensures Good(Step(s, a), PlainStep(p, a))
  {
    var s1, p1 := s.(conn := Begun(s.conn)), Entered(p);
    BegunGood(s, p);
    if !a.future {
      if Unsent(s1, a.queue) {
        SendGood(s1, p1, a.queue);
      } else {
        SkipGood(s1, p1, a.queue);
        TouchedGood(s1, Want(p1, a.queue));
      }
    }
  }

  lemma FailureGood(s: State, p: Plain, a: Action)
    requires Good(s, p) && (a.PublishFails? || a.NotifyFails?) && Enabled(s, a)
    ensures Good(Step(s, a), PlainStep(p, a))
  {
    if a.PublishFails? {
      var s1 := if a.batch then s else Touched(s);
      TouchedGood(s, p);
      BegunGood(s1, p);
      FailedGood(s1.(conn := Begun(s.conn)), Entered(p));
    } else {
      BegunGood(s, p);
      FailNotedGood(s.(conn := Begun(s.conn)), Entered(p), a.queue);
    }
  }

  lemma StillOpen(c: Conn, c': Conn, t: nat)
    requires c.frames != [] && IsOpen(c', t)
    requires forall i :: 0 <= i < |c'.frames| ==> i < |c.frames| - 1 && c'.frames[i].txn == c.frames[i].txn
    requires forall i, j :: 0 <= i < j < |c.frames| ==> c.frames[i].txn != c.frames[j].txn
    ensures IsOpen(c, t) && t != Top(c).txn
  {
    var i :| 0 <= i < |c'.frames| && c'.frames[i].txn == t;
    assert c.frames[i].txn == t;
  }

  /** Ending the innermost transaction forgets its memo entry and no other. */
  lemma DropGood(s: State, s': State)
    requires MemoOk(s) && CallsOk(s) && s.conn.frames != [] && s'.memo == Dropped(s)
    requires s'.conn.nextTxn == s.conn.nextTxn && s'.conn.calls == s.conn.calls
    requires |s'.conn.frames| < |s.conn.frames|
    requires forall i :: 0 <= i < |s'.conn.frames| ==>
               && s'.conn.frames[i].txn == s.conn.frames[i].txn && s'.conn.frames[i].aborted == s.conn.frames[i].aborted
               && Elems(s.conn.frames[i].sent) <= Elems(s'.conn.frames[i].sent)
    ensures MemoOk(s') && CallsOk(s')
  {
    var n := |s.conn.frames| - 1;
    assert Top(s.conn) == s.conn.frames[n];
    forall t | IsOpen(s'.conn, t) ensures IsOpen(s.conn, t) && t != Top(s.conn).txn { StillOpen(s.conn, s'.conn, t); }
  }

  lemma ReleaseGood(s: State, p: Plain)
    requires Good(s, p) && Enabled(s, Release)
    ensures Good(Step(s, Release), PlainStep(p, Release))
  {
    var n := |s.conn.frames|;
    var f := s.conn.frames[n - 2];
    assert SameFrame(f, p.levels[n - 2]) && SameFrame(s.conn.frames[n - 1], p.levels[n - 1]);
    ElemsAppend(f.sent, Top(s.conn).sent);
    DropGood(s, Step(s, Release));
  }

  lemma EndGood(s: State, p: Plain, a: Action)
    requires Good(s, p) && (a.Rollback? || a.Commit?) && Enabled(s, a)
    ensures Good(Step(s, a), PlainStep(p, a))
  {
    var n := |s.conn.frames|;
    assert SameFrame(s.conn.frames[n - 1], p.levels[n - 1]);
    if a.Commit? {
      DeliveredSame(s.conn.delivered, p.delivered, if Top(s.conn).aborted then [] else Top(s.conn).sent,
                    if Inner(p).failed then {} else Inner(p).due);
    }
    DropGood(s, Step(s, a));
  }

  lemma StepGood(s: State, p: Plain, a: Action)
    requires Good(s, p) && Enabled(s, a)
    ensures Good(Step(s, a), PlainStep(p, a))
  {
    match a
    case Begin => PushGood(s, p);
    case Release => ReleaseGood(s, p);
    case Rollback => EndGood(s, p, a);
    case Commit => EndGood(s, p, a);
    case Publish(_, _, _) => PublishGood(s, p, a);
    case PublishFails(_) => FailureGood(s, p, a);
    case PublishBatch(_, _, _) => PublishBatchGood(s, p, a);
    case NotifyFails(_) => FailureGood(s, p, a);
  }

  // ----- whole histories -----

  function New(autobegin: bool, autocommit: bool): State { State(NewConn(autobegin, autocommit), map[]) }

  predicate Legal(s: State, acts: seq<Action>)
    decreases |acts|
  {
    acts == [] || (Enabled(s, acts[0]) && Legal(Step(s, acts[0]), acts[1..]))
  }

  function After(s: State, acts: seq<Action>): State
    requires Legal(s, acts)
    decreases |acts|
  {
    if acts == [] then s else After(Step(s, acts[0]), acts[1..])
  }

  function PlainAfter(p: Plain, acts: seq<Action>): Plain
    decreases |acts|
  {
    if acts == [] then p else PlainAfter(PlainStep(p, acts[0]), acts[1..])
  }

  lemma {:induction false} HistoryGood(s: State, p: Plain, acts: seq<Action>)
    requires Good(s, p) && Legal(s, acts)
    ensures Good(After(s, acts), PlainAfter(p, acts))
    decreases |acts|
  {
    if acts != [] {
      StepGood(s, p, acts[0]);
      HistoryGood(Step(s, acts[0]), PlainStep(p, acts[0]), acts[1..]);
    }
  }

  /** For every history of transactions, savepoints, rollbacks, failures and publishes, each commit delivers
      exactly the queues that notifying for every landed due row would deliver. */
  lemma MemoKeepsMeaning(autobegin: bool, acts: seq<Action>)
    requires Legal(New(autobegin, false), acts)
    ensures SameDelivered(After(New(autobegin, false), acts).conn.delivered,
                          PlainAfter(NewPlain(autobegin, false), acts).delivered)
  {
    HistoryGood(New(autobegin, false), NewPlain(autobegin, false), acts);
  }

  /** And no queue is notified twice in one innermost transaction. */
  lemma NotifiedOncePerTransaction(autobegin: bool, acts: seq<Action>, i: nat, j: nat)
    requires Legal(New(autobegin, false), acts)
    requires i < j < |After(New(autobegin, false), acts).conn.calls|
    ensures After(New(autobegin, false), acts).conn.calls[i] != After(New(autobegin, false), acts).conn.calls[j]
  {
    HistoryGood(New(autobegin, false), NewPlain(autobegin, false), acts);
  }

  // ----- sessions that commit every statement on its own -----

  /** What a caller of such a session can keep track of: whether a transaction object is open, and the queues
      it has notified, or tried to, under it. */
  datatype Track = Track(open: bool, noted: set<string>)

  predicate DuePublish(a: Action) { (a.Publish? && !a.future && a.lands) || (a.PublishBatch? && !a.future) }

  function Follow(autobegin: bool, k: Track, a: Action): Track {
    if a.Begin? then Track(true, {})
    else if a.Commit? || a.Rollback? then Track(false, {})
    else
      var open := k.open || autobegin;
      Track(open, if open && (DuePublish(a) || a.NotifyFails?) then k.noted + {a.queue} else k.noted)
  }

  /** How often a due row is published to a queue already noted under the open transaction object. */
  function Repeats(autobegin: bool, k: Track, acts: seq<Action>): nat
    decreases |acts|
  {
    if acts == [] then 0
    else (if DuePublish(acts[0]) && acts[0].queue in k.noted then 1 else 0)
         + Repeats(autobegin, Follow(autobegin, k, acts[0]), acts[1..])
  }

  predicate OneFrame(c: Conn) { |c.frames| <= 1 && (c.frames != [] ==> !Top(c).aborted) }

  ghost predicate Tracked(s: State, p: Plain, k: Track) {
    && s.conn.autocommit && p.autocommit && s.conn.autobegin == p.autobegin
    && OneFrame(s.conn) && |p.levels| == |s.conn.frames|
    && (k.open <==> s.conn.frames != [])
    && k.noted == (if k.open then Remembered(s.memo, Top(s.conn).txn) else {})
    && (forall t :: t in s.memo ==> t < s.conn.nextTxn)
    && (k.open ==> Top(s.conn).txn < s.conn.nextTxn)
  }

  /** Tracking goes on; the plain rule delivers once more exactly when the memo skips, and otherwise the two
      deliver alike. */
  ghost predicate StaysTracked(s: State, p: Plain, k: Track, a: Action)
    requires Enabled(s, a)
  {
    var skipped := DuePublish(a) && a.queue in k.noted;
    var d, e := Step(s, a).conn.delivered, PlainStep(p, a).delivered;
    && Tracked(Step(s, a), PlainStep(p, a), Follow(s.conn.autobegin, k, a))
    && |e| - |p.delivered| == |d| - |s.conn.delivered| + (if skipped then 1 else 0)
    && (!skipped && SameDelivered(s.conn.delivered, p.delivered) ==> SameDelivered(d, e))
  }

  lemma EndsTrack(s: State, p: Plain, k: Track, a: Action)
    requires Tracked(s, p, k) && Enabled(s, a) && (a.Begin? || a.Commit? || a.Rollback?)
    ensures StaysTracked(s, p, k, a)
  {
  }

  lemma FailuresTrack(s: State, p: Plain, k: Track, a: Action)
    requires Tracked(s, p, k) && Enabled(s, a) && (a.PublishFails? || a.NotifyFails?)
    ensures StaysTracked(s, p, k, a)
  {
  }

  lemma QuietTracks(s: State, p: Plain, k: Track, a: Action)
    requires Tracked(s, p, k) && Enabled(s, a) && a.Publish? && !DuePublish(a)
    ensures StaysTracked(s, p, k, a)
  {
  }

  lemma SkipTracks(s: State, p: Plain, k: Track, a: Action)
    requires Tracked(s, p, k) && Enabled(s, a) && a.Publish? && DuePublish(a) && a.queue in k.noted
    ensures StaysTracked(s, p, k, a)
  {
  }

  lemma NotifyTracks(s: State, p: Plain, k: Track, a: Action)
    requires Tracked(s, p, k) && Enabled(s, a) && a.Publish? && DuePublish(a) && a.queue !in k.noted
    ensures StaysTracked(s, p, k, a)
  {
  }

  lemma BatchTracks(s: State, p: Plain, k: Track, a: Action)
    requires Tracked(s, p, k) && Enabled(s, a) && a.PublishBatch?
    ensures StaysTracked(s, p, k, a)
  {
  }

  lemma StepTracks(s: State, p: Plain, k: Track, a: Action)
    requires Tracked(s, p, k) && Enabled(s, a)
    ensures StaysTracked(s, p, k, a)
  {
    if a.Publish? {
      if !DuePublish(a) { QuietTracks(s, p, k, a); }
      else if a.queue in k.noted { SkipTracks(s, p, k, a); }
      else { NotifyTracks(s, p, k, a); }
    }
    else if a.PublishBatch? { BatchTracks(s, p, k, a); }
    else if a.PublishFails? || a.NotifyFails? { FailuresTrack(s, p, k, a); }
    else { EndsTrack(s, p, k, a); }
  }

  lemma {:induction false} TrackedHistory(s: State, p: Plain, k: Track, acts: seq<Action>)
    requires Tracked(s, p, k) && Legal(s, acts)
    ensures var d, e := After(s, acts).conn.delivered, PlainAfter(p, acts).delivered;
            && |e| - |p.delivered| == |d| - |s.conn.delivered| + Repeats(s.conn.autobegin, k, acts)
            && (Repeats(s.conn.autobegin, k, acts) == 0 && SameDelivered(s.conn.delivered, p.delivered) ==>
                  SameDelivered(d, e))
    decreases |acts|
  {
    if acts != [] {
      StepTracks(s, p, k, acts[0]);
      TrackedHistory(Step(s, acts[0]), PlainStep(p, acts[0]), Follow(s.conn.autobegin, k, acts[0]), acts[1..]);
    }
  }

  /** On a session that commits every statement on its own the memo outlives the commits, so the deliveries are
      those of the plain rule if and only if no due row is published to a queue already noted under the same
      transaction object. */
  lemma AutocommitKeepsMeaningIff(autobegin: bool, acts: seq<Action>)
    requires Legal(New(autobegin, true), acts)
    ensures SameDelivered(After(New(autobegin, true), acts).conn.delivered,
                          PlainAfter(NewPlain(autobegin, true), acts).delivered)
       <==> Repeats(autobegin, Track(false, {}), acts) == 0
  {
    TrackedHistory(New(autobegin, true), NewPlain(autobegin, true), Track(false, {}), acts);
  }

  lemma OneAction(s: State, a: Action, k: Track)
    requires Enabled(s, a)
    ensures Legal(s, [a]) && After(s, [a]) == Step(s, a)
    ensures Repeats(s.conn.autobegin, k, [a]) == if DuePublish(a) && a.queue in k.noted then 1 else 0
  {
    assert [a][1..] == [];
  }

  /** The smallest history that repeats: two due rows of one queue, one notification. */
  lemma AutocommitMisses(queue: string) returns (acts: seq<Action>)
    ensures Legal(New(true, true), acts) && |acts| == 2 && Repeats(true, Track(false, {}), acts) == 1
    ensures After(New(true, true), acts).conn.delivered == [[queue]]
  {
    var one := Publish(queue, false, true);
    acts := [one, one];
    var s := Step(New(true, true), one);
    assert acts[1..] == [one];
    OneAction(s, one, Follow(true, Track(false, {}), one));
  }

  // ----- the inserter -----

  /** The caller's session; `Execute` runs one statement on it. */
  class Session {
    var conn: Conn

    constructor (autobegin: bool, autocommit: bool)
      ensures conn == NewConn(autobegin, autocommit)
    {
      conn := NewConn(autobegin, autocommit);
    }

    method Execute(queues: seq<string>)
      modifies this
      ensures conn == Sent(Begun(old(conn)), queues)
    {
      conn := Sent(Begun(conn), queues);
    }

    method ExecuteFails()
      modifies this
      ensures conn == Failed(Begun(old(conn)))
    {
      conn := Failed(Begun(conn));
    }
  }

  datatype Answer = Raises | Skips | Lands

  class OutboxInserter {
    var notified: Memo

    constructor ()
      ensures notified == map[]
    {
      notified := map[];
    }

    method NotifiedQueues(session: Session) returns (emitted: Option<set<string>>)
      modifies this
      ensures State(session.conn, notified) == Touched(State(session.conn, old(notified)))
      ensures emitted == Emitted(State(session.conn, old(notified)))
    {
      match Innermost(session.conn) {
        case None => emitted := None;
        case Some(txn) =>
          if txn !in notified { notified := notified[txn := {}]; }
          assert notified == old(notified)[txn := Remembered(old(notified), txn)];
          emitted := Some(notified[txn]);
      }
    }

    method Remember(session: Session, queue: string)
      modifies this
      ensures State(session.conn, notified) == Noted(State(session.conn, old(notified)), queue)
    {
      var emitted := NotifiedQueues(session);
      if emitted.Some? {
        var txn := Innermost(session.conn).value;
        notified := notified[txn := emitted.value + {queue}];
        assert notified == old(notified)[txn := Remembered(old(notified), txn) + {queue}];
      }
    }

    /** One row; `answer` is what the statement's RETURNING reports, or that it raised. */
    method Insert(session: Session, queue: string, future: bool, answer: Answer) returns (ok: bool)
      modifies this, session
      ensures ok == !answer.Raises?
      ensures State(session.conn, notified) ==
        if ok then PublishOne(State(old(session.conn), old(notified)), queue, future, answer.Lands?)
        else PublishRaised(State(old(session.conn), old(notified)), false)
    {
      var emitted := NotifiedQueues(session);
      var notify := !future && (emitted.None? || queue !in emitted.value);
      if answer.Raises? {
        session.ExecuteFails();
        return false;
      }
      session.Execute(if answer.Lands? && notify then [queue] else []);
      if answer.Lands? && notify {
        Remember(session, queue);
      }
      return true;
    }

    method Notify(session: Session, queue: string, ok: bool)
      requires session.conn.frames == [] ==> !session.conn.autobegin
      modifies this, session
      ensures State(session.conn, notified) == NotifyStep(State(old(session.conn), old(notified)), queue, ok)
    {
      var emitted := NotifiedQueues(session);
      if emitted.Some? {
        if queue in emitted.value {
          return;
        }
        var txn := Innermost(session.conn).value;
        notified := notified[txn := emitted.value + {queue}];
        assert notified == old(notified)[txn := Remembered(old(notified), txn) + {queue}];
      }
      if ok { session.Execute([queue]); } else { session.ExecuteFails(); }
    }

    /** Two statements, either of which may raise. */
    method InsertBatch(session: Session, queue: string, future: bool, inserts: bool, notifies: bool)
      modifies this, session
      ensures State(session.conn, notified) ==
        if inserts then PublishMany(State(old(session.conn), old(notified)), queue, future, notifies)
        else PublishRaised(State(old(session.conn), old(notified)), true)
    {
      if !inserts {
        session.ExecuteFails();
        return;
      }
      session.Execute([]);
      NothingSent(Begun(old(session.conn)));
      if !future {
        Notify(session, queue, notifies);
      }
    }
  }
}
