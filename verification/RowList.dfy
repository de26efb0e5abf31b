// A list of rows in id order as the table it stands for, and scans of it.

module RowList {
  import opened Rows
  import opened Ordering
  import opened LeaseTable

  // ----- the list as a table -----

  ghost predicate Ascending(rows: seq<Row>) {
    forall i, j :: 0 <= i < j < |rows| ==> rows[i].id < rows[j].id
  }

  /** The first n rows, by id. */
  ghost function Prefix(rows: seq<Row>, n: nat): map<nat, Row>
    requires n <= |rows|
  {
    if n == 0 then map[] else Prefix(rows, n - 1)[rows[n - 1].id := rows[n - 1]]
  }

  ghost function Live(rows: seq<Row>): map<nat, Row> { Prefix(rows, |rows|) }

  lemma {:induction false} PrefixRow(rows: seq<Row>, n: nat, i: nat)
    requires Ascending(rows) && i < n <= |rows|
    ensures rows[i].id in Prefix(rows, n) && Prefix(rows, n)[rows[i].id] == rows[i]
    decreases n
  {
    if i < n - 1 { PrefixRow(rows, n - 1, i); }
  }

  lemma {:induction false} PrefixIndex(rows: seq<Row>, n: nat, id: nat) returns (i: nat)
    requires n <= |rows| && id in Prefix(rows, n)
    ensures i < n && rows[i].id == id && Prefix(rows, n)[id] == rows[i]
    decreases n
  {
    if rows[n - 1].id == id { i := n - 1; } else { i := PrefixIndex(rows, n - 1, id); }
  }

  lemma RowAt(rows: seq<Row>, i: nat)
    requires Ascending(rows) && i < |rows|
    ensures rows[i].id in Live(rows) && Live(rows)[rows[i].id] == rows[i]
  {
    PrefixRow(rows, |rows|, i);
  }

  lemma IndexOf(rows: seq<Row>, id: nat) returns (i: nat)
    requires id in Live(rows)
    ensures i < |rows| && rows[i].id == id && Live(rows)[id] == rows[i]
  {
    i := PrefixIndex(rows, |rows|, id);
  }

  lemma MapLaws(m: map<nat, Row>, k: nat, r: Row, x: nat, q: Row)
    ensures k !in m ==> m[k := r] - {k} == m
    ensures x != k ==> m[k := r] - {x} == (m - {x})[k := r]
    ensures x != k ==> m[k := r][x := q] == m[x := q][k := r]
    ensures m[k := r][k := q] == m[k := q]
  {
  }

  lemma {:induction false} SamePrefix(a: seq<Row>, b: seq<Row>, n: nat)
    requires n <= |a| && n <= |b| && forall i :: 0 <= i < n ==> a[i] == b[i]
    ensures Prefix(a, n) == Prefix(b, n)
    decreases n
  {
    if n > 0 { SamePrefix(a, b, n - 1); }
  }

  lemma AppendRow(rows: seq<Row>, r: Row)
    ensures Live(rows + [r]) == Live(rows)[r.id := r]
  {
    SamePrefix(rows, rows + [r], |rows|);
  }

  function Without(rows: seq<Row>, i: nat): seq<Row> requires i < |rows| { rows[..i] + rows[i + 1..] }

  lemma RemoveAscends(rows: seq<Row>, i: nat)
    requires Ascending(rows) && i < |rows|
    ensures Ascending(Without(rows, i))
  {
    var rest := Without(rows, i);
    assert forall j :: 0 <= j < |rest| ==> rest[j] == rows[if j < i then j else j + 1];
  }

  lemma {:induction false} RemovePrefix(rows: seq<Row>, rest: seq<Row>, i: nat, n: nat)
    requires Ascending(rows) && i <= n < |rows| && |rest| == |rows| - 1
    requires forall j :: 0 <= j < |rest| ==> rest[j] == rows[if j < i then j else j + 1]
    ensures Prefix(rest, n) == Prefix(rows, n + 1) - {rows[i].id}
    decreases n
  {
    if n == i {
      SamePrefix(rows, rest, n);
      if rows[i].id in Prefix(rows, i) { var _ := PrefixIndex(rows, i, rows[i].id); }
      MapLaws(Prefix(rows, i), rows[i].id, rows[i], 0, rows[i]);
    } else {
      RemovePrefix(rows, rest, i, n - 1);
      MapLaws(Prefix(rows, n), rows[n].id, rows[n], rows[i].id, rows[n]);
    }
  }

  lemma RemoveAt(rows: seq<Row>, i: nat)
    requires Ascending(rows) && i < |rows|
    ensures Live(Without(rows, i)) == Live(rows) - {rows[i].id}
  {
    RemovePrefix(rows, Without(rows, i), i, |rows| - 1);
  }

  lemma UpdateAscends(rows: seq<Row>, i: nat, r: Row)
    requires Ascending(rows) && i < |rows| && r.id == rows[i].id
    ensures Ascending(rows[i := r])
  {
    assert forall j :: 0 <= j < |rows| ==> rows[i := r][j].id == rows[j].id;
  }

  lemma {:induction false} UpdatePrefix(rows: seq<Row>, i: nat, r: Row, n: nat)
    requires Ascending(rows) && i < n <= |rows| && r.id == rows[i].id
    ensures Prefix(rows[i := r], n) == Prefix(rows, n)[r.id := r]
    decreases n
  {
    if n == i + 1 {
      SamePrefix(rows, rows[i := r], i);
      MapLaws(Prefix(rows, i), r.id, rows[i], 0, r);
    } else {
      UpdatePrefix(rows, i, r, n - 1);
      MapLaws(Prefix(rows, n - 1), rows[n - 1].id, rows[n - 1], r.id, r);
    }
  }

  lemma UpdateAt(rows: seq<Row>, i: nat, r: Row)
    requires Ascending(rows) && i < |rows| && r.id == rows[i].id
    ensures Live(rows[i := r]) == Live(rows)[r.id := r]
  {
    UpdatePrefix(rows, i, r, |rows|);
  }

  lemma PrefixShrinks(rows: seq<Row>, n: nat)
    requires Ascending(rows) && 0 < n <= |rows|
    ensures Prefix(rows, n - 1) == Prefix(rows, n) - {rows[n - 1].id}
  {
    if rows[n - 1].id in Prefix(rows, n - 1) { var _ := PrefixIndex(rows, n - 1, rows[n - 1].id); }
    MapLaws(Prefix(rows, n - 1), rows[n - 1].id, rows[n - 1], 0, rows[n - 1]);
  }

  lemma {:induction false} PrefixesAgree(a: seq<Row>, n: nat, b: seq<Row>, m: nat)
    requires Ascending(a) && Ascending(b) && n <= |a| && m <= |b| && Prefix(a, n) == Prefix(b, m)
    ensures n == m && forall i :: 0 <= i < n ==> a[i] == b[i]
    decreases n
  {
    if n > 0 { PrefixRow(a, n, n - 1); }
    if m > 0 { PrefixRow(b, m, m - 1); }
    if n > 0 && m > 0 {
      var i := PrefixIndex(b, m, a[n - 1].id);
      var j := PrefixIndex(a, n, b[m - 1].id);
      assert a[n - 1] == b[m - 1];
      PrefixShrinks(a, n);
      PrefixShrinks(b, m);
      PrefixesAgree(a, n - 1, b, m - 1);
    }
  }

  /** The list is determined by the table: what the methods promise about the table pins the list down. */
  lemma ListIsDetermined(a: seq<Row>, b: seq<Row>)
    requires Ascending(a) && Ascending(b) && Live(a) == Live(b)
    ensures a == b
  {
    PrefixesAgree(a, |a|, b, |b|);
  }

  // ----- scanning the list -----

  /** The keys of the rows a condition selects, in list order. */
  function Select(rows: seq<Row>, p: Row -> bool): seq<Key> {
    if rows == [] then [] else (if p(rows[0]) then [KeyOf(rows[0])] else []) + Select(rows[1..], p)
  }

  lemma {:induction false} SelectAppend(rows: seq<Row>, r: Row, p: Row -> bool)
    ensures Select(rows + [r], p) == Select(rows, p) + if p(r) then [KeyOf(r)] else []
  {
    if rows == [] {
      assert [r][1..] == [];
    } else {
      SelectAppend(rows[1..], r, p);
      assert (rows + [r])[1..] == rows[1..] + [r];
    }
  }

  ghost predicate NoRepeats(s: seq<Key>) {
    forall i, j :: 0 <= i < j < |s| ==> s[i] != s[j]
  }

  lemma {:induction false} SelectComesFrom(rows: seq<Row>, k: Key, p: Row -> bool) returns (i: nat)
    requires k in Select(rows, p)
    ensures i < |rows| && p(rows[i]) && KeyOf(rows[i]) == k
  {
    if p(rows[0]) && KeyOf(rows[0]) == k {
      i := 0;
    } else {
      var j := SelectComesFrom(rows[1..], k, p);
      i := j + 1;
    }
  }

  lemma {:induction false} SelectHas(rows: seq<Row>, i: nat, p: Row -> bool)
    requires i < |rows| && p(rows[i])
    ensures KeyOf(rows[i]) in Select(rows, p)
  {
    if i > 0 { SelectHas(rows[1..], i - 1, p); }
  }

  lemma NoRepeatsCons(k: Key, s: seq<Key>)
    ensures NoRepeats(s) && k !in s ==> NoRepeats([k] + s)
  {
  }

  lemma {:induction false} SelectDistinct(rows: seq<Row>, p: Row -> bool)
    requires Ascending(rows)
    ensures NoRepeats(Select(rows, p))
  {
    if rows != [] {
      var e := Select(rows[1..], p);
      SelectDistinct(rows[1..], p);
      forall k | k in e ensures k.id > rows[0].id {
        var i := SelectComesFrom(rows[1..], k, p);
        assert rows[0].id < rows[i + 1].id;
      }
      NoRepeatsCons(KeyOf(rows[0]), e);
    }
  }

  lemma {:induction false} MultisetOfSet(s: seq<Key>, all: set<Key>)
    requires NoRepeats(s) && forall k :: k in s <==> k in all
    ensures multiset(s) == multiset(all)
  {
    if s != [] {
      assert forall i :: 0 <= i < |s[1..]| ==> s[1..][i] == s[i + 1];
      assert s[0] !in s[1..];
      assert s == [s[0]] + s[1..];
      MultisetOfSet(s[1..], all - {s[0]});
      assert all == {s[0]} + (all - {s[0]});
      assert multiset(s) == multiset{s[0]} + multiset(s[1..]);
      assert multiset(all) == multiset{s[0]} + multiset(all - {s[0]});
    } else {
      assert all == {};
    }
  }

  /** A scan selects, as a bag, exactly the table's rows that satisfy the condition. */
  lemma SelectIsTable(t: Table, rows: seq<Row>, p: Row -> bool, ids: set<nat>)
    requires Ascending(rows) && t.rows == Live(rows) && ids <= t.rows.Keys
    requires forall id :: id in t.rows ==> (id in ids <==> p(t.rows[id]))
    ensures multiset(Select(rows, p)) == multiset(Keys(t, ids))
  {
    SelectDistinct(rows, p);
    forall k ensures k in Select(rows, p) <==> k in Keys(t, ids) {
      if k in Select(rows, p) {
        var i := SelectComesFrom(rows, k, p);
        RowAt(rows, i);
        assert rows[i].id in ids;
      }
      if k in Keys(t, ids) {
        var id :| id in ids && KeyOf(t.rows[id]) == k;
        var i := IndexOf(rows, id);
        SelectHas(rows, i, p);
      }
    }
    MultisetOfSet(Select(rows, p), Keys(t, ids));
  }

  function IsClaimable(queues: seq<string>, now: real, ttl: real, locked: set<nat>): Row -> bool {
    (r: Row) => Claimable(r, queues, now, ttl) && r.id !in locked
  }

  /** Sorting the scan and slicing it picks exactly the table's oldest claimable rows. */
  lemma ScanPicks(t: Table, rows: seq<Row>, queues: seq<string>, limit: nat, now: real, ttl: real, locked: set<nat>)
    requires Ascending(rows) && t.rows == Live(rows) && Valid(t)
    ensures Oldest(Select(rows, IsClaimable(queues, now, ttl, locked)), limit)
         == Picked(t, queues, limit, now, ttl, locked)
  {
    var p, ids := IsClaimable(queues, now, ttl, locked), ClaimableIds(t, queues, now, ttl, locked);
    forall id | id in t.rows ensures id in ids <==> p(t.rows[id]) { assert RowOk(t, id); }
    SelectIsTable(t, rows, p, ids);
    SortByContents(Select(rows, p), AsSeq(Keys(t, ids)));
  }
}
