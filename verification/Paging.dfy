/** Keyset paging: what a client collects by following cursors while rows are appended. */
module Paging {
  import opened Basics

  ghost predicate StrictOrder<K(!new)>(before: (K, K) -> bool) {
    && (forall a, b, c :: before(a, b) && before(b, c) ==> before(a, c))
    && (forall a :: !before(a, a))
  }

  ghost predicate Ascending<T, K>(rows: seq<T>, key: T -> K, before: (K, K) -> bool) {
    forall i, j :: 0 <= i < j < |rows| ==> before(key(rows[i]), key(rows[j]))
  }

  /** The rows strictly after a cursor, in order (`WHERE key > $cursor ORDER BY key`). */
  function Above<T, K>(rows: seq<T>, key: T -> K, before: (K, K) -> bool, after: Option<K>): seq<T> {
    if rows == [] then []
    else
      var rest := Above(rows[1..], key, before, after);
      if after.None? || before(after.value, key(rows[0])) then [rows[0]] + rest else rest
  }

  function Page<T, K>(rows: seq<T>, key: T -> K, before: (K, K) -> bool, after: Option<K>, limit: nat): seq<T> {
    var above := Above(rows, key, before, after);
    if |above| <= limit then above else above[..limit]
  }

  lemma {:induction false} AboveNothing<T, K>(rows: seq<T>, key: T -> K, before: (K, K) -> bool)
    ensures Above(rows, key, before, None) == rows
  {
    if rows != [] {
      AboveNothing(rows[1..], key, before);
    }
  }

  lemma {:induction false} AboveAll<T, K>(rows: seq<T>, key: T -> K, before: (K, K) -> bool, after: K)
    requires forall i :: 0 <= i < |rows| ==> before(after, key(rows[i]))
    ensures Above(rows, key, before, Some(after)) == rows
  {
    if rows != [] {
      forall i | 0 <= i < |rows[1..]|
        ensures before(after, key(rows[1..][i]))
      {
        assert rows[1..][i] == rows[i + 1];
      }
      AboveAll(rows[1..], key, before, after);
    }
  }

  /** After the cursor of row `j`, exactly the rows past `j` are left. */
  lemma {:induction false} AboveRow<T, K(!new)>(rows: seq<T>, key: T -> K, before: (K, K) -> bool, j: nat)
    requires StrictOrder(before) && Ascending(rows, key, before) && j < |rows|
    ensures Above(rows, key, before, Some(key(rows[j]))) == rows[j + 1..]
  {
    var k := key(rows[j]);
    forall i, m | 0 <= i < m < |rows[1..]|
      ensures before(key(rows[1..][i]), key(rows[1..][m]))
    {
      assert rows[1..][i] == rows[i + 1] && rows[1..][m] == rows[m + 1];
    }
    if j == 0 {
      forall i | 0 <= i < |rows[1..]|
        ensures before(k, key(rows[1..][i]))
      {
        assert rows[1..][i] == rows[i + 1];
      }
      AboveAll(rows[1..], key, before, k);
    } else {
      assert rows[1..][j - 1] == rows[j];
      AboveRow(rows[1..], key, before, j - 1);
      assert before(key(rows[0]), k);
      assert !before(k, key(rows[0]));
      assert rows[1..][j..] == rows[j + 1..];
    }
  }

  datatype Collected<T> = Collected(rows: seq<T>, complete: bool)

  /** A client that asks for a page per snapshot and stops at the empty cursor, which a
      page shorter than the limit carries. `wire` is what a cursor turns into on its way
      through the response and the next request. */
  function Follow<T, K>(snapshots: seq<seq<T>>, key: T -> K, before: (K, K) -> bool, wire: K -> Option<K>,
                        after: Option<K>, limit: nat): Collected<T>
    decreases |snapshots|
  {
    if snapshots == [] then Collected([], false)
    else
      var page := Page(snapshots[0], key, before, after, limit);
      if |page| < limit || page == [] then Collected(page, true)
      else
        var rest := Follow(snapshots[1..], key, before, wire, wire(key(page[|page| - 1])), limit);
        Collected(page + rest.rows, rest.complete)
  }

  ghost predicate Growing<T>(snapshots: seq<seq<T>>) {
    forall i, j :: 0 <= i <= j < |snapshots| ==> snapshots[i] <= snapshots[j]
  }

  /** The cursor after the first `seen` rows. */
  function CursorAt<T, K>(rows: seq<T>, key: T -> K, seen: nat): Option<K>
    requires seen <= |rows|
  {
    if seen == 0 then None else Some(key(rows[seen - 1]))
  }

  lemma PageAt<T, K(!new)>(rows: seq<T>, key: T -> K, before: (K, K) -> bool, seen: nat, limit: nat)
    requires StrictOrder(before) && Ascending(rows, key, before) && seen <= |rows|
    ensures Page(rows, key, before, CursorAt(rows, key, seen), limit)
         == if |rows| - seen <= limit then rows[seen..] else rows[seen..seen + limit]
  {
    if seen == 0 {
      AboveNothing(rows, key, before);
      assert rows[0..] == rows;
    } else {
      AboveRow(rows, key, before, seen - 1);
    }
  }

  /** Following cursors over an append-only list, a client that reaches the empty cursor
      has collected exactly one whole snapshot: every row it holds, once, in order. A
      client that has not yet reached it holds a prefix of the latest one. */
  lemma {:induction false} FollowCollectsSnapshot<T, K(!new)>(snapshots: seq<seq<T>>, key: T -> K,
                                                       before: (K, K) -> bool,
                                                              wire: K -> Option<K>, seen: nat, limit: nat) returns (k: nat)
    requires StrictOrder(before) && limit > 0 && snapshots != [] && Growing(snapshots) && seen <= |snapshots[0]|
    requires forall i :: 0 <= i < |snapshots| ==> Ascending(snapshots[i], key, before)
    requires forall i, j :: 0 <= i < |snapshots| && 0 <= j < |snapshots[i]| ==>
              wire(key(snapshots[i][j])) == Some(key(snapshots[i][j]))
    ensures k < |snapshots| && seen <= |snapshots[k]|
    ensures var got := Follow(snapshots, key, before, wire, CursorAt(snapshots[0], key, seen), limit);
            if got.complete then got.rows == snapshots[k][seen..] else k == |snapshots| - 1 && got.rows <= snapshots[k][seen..]
    decreases |snapshots|
  {
    hide Page, Ascending, StrictOrder;
    var rows := snapshots[0];
    PageAt(rows, key, before, seen, limit);
    var page := Page(rows, key, before, CursorAt(rows, key, seen), limit);
    if |page| < limit || page == [] {
      k := 0;
    } else {
      var now := seen + limit;
      assert page == rows[seen..now];
      assert page[|page| - 1] == rows[now - 1];
      var later := snapshots[1..];
      var rest := Follow(later, key, before, wire, wire(key(page[|page| - 1])), limit);
      if later == [] {
        k := 0;
        assert page + rest.rows == page;
        assert rows[seen..][..|page|] == page;
      } else {
        assert rows == snapshots[0] && later[0] == snapshots[1] && rows <= later[0];
        assert later[0][now - 1] == rows[now - 1];
        TailKeeps(snapshots, key, before, wire);
        k := FollowCollectsSnapshot(later, key, before, wire, now, limit);
        assert later[k] == snapshots[k + 1];
        PageJoins(rows, later[k], seen, now, rest.rows);
        k := k + 1;
      }
    }
  }

  /** A reader that has not reached the empty cursor has had a full page from every request. */
  lemma {:induction false} PagesAreFull<T, K>(snapshots: seq<seq<T>>, key: T -> K, before: (K, K) -> bool,
                                              wire: K -> Option<K>,
                                              after: Option<K>, limit: nat)
    ensures var got := Follow(snapshots, key, before, wire, after, limit);
            !got.complete ==> |got.rows| == |snapshots| * limit
    decreases |snapshots|
  {
    if snapshots != [] {
      var page := Page(snapshots[0], key, before, after, limit);
      if |page| >= limit && page != [] {
        PagesAreFull(snapshots[1..], key, before, wire, wire(key(page[|page| - 1])), limit);
        assert |snapshots| * limit == limit + (|snapshots| - 1) * limit;
      }
    }
  }

  lemma PageJoins<T>(rows: seq<T>, whole: seq<T>, seen: nat, now: nat, rest: seq<T>)
    requires seen <= now <= |rows| && rows <= whole
    ensures rest == whole[now..] ==> rows[seen..now] + rest == whole[seen..]
    ensures rest <= whole[now..] ==> rows[seen..now] + rest <= whole[seen..]
  {
    assert whole[..|rows|] == rows;
    assert rows[seen..now] == whole[seen..now];
    assert whole[seen..] == whole[seen..now] + whole[now..];
  }

  lemma TailKeeps<T, K(!new)>(snapshots: seq<seq<T>>, key: T -> K, before: (K, K) -> bool, wire: K -> Option<K>)
    requires Growing(snapshots) && snapshots != []
    requires forall i :: 0 <= i < |snapshots| ==> Ascending(snapshots[i], key, before)
    requires forall i, j :: 0 <= i < |snapshots| && 0 <= j < |snapshots[i]| ==>
              wire(key(snapshots[i][j])) == Some(key(snapshots[i][j]))
    ensures var later := snapshots[1..];
            && Growing(later) && (forall i :: 0 <= i < |later| ==> Ascending(later[i], key, before))
            && (forall i, j :: 0 <= i < |later| && 0 <= j < |later[i]| ==>
                  wire(key(later[i][j])) == Some(key(later[i][j])))
  {
    GrowingTail(snapshots);
    forall i | 0 <= i < |snapshots[1..]|
      ensures snapshots[1..][i] == snapshots[i + 1]
    {
    }
    hide Growing, Ascending;
  }

  lemma GrowingTail<T>(snapshots: seq<seq<T>>)
    requires Growing(snapshots) && snapshots != []
    ensures Growing(snapshots[1..])
  {
    forall i, j | 0 <= i <= j < |snapshots[1..]|
      ensures snapshots[1..][i] <= snapshots[1..][j]
    {
      assert snapshots[1..][i] == snapshots[i + 1] && snapshots[1..][j] == snapshots[j + 1];
    }
  }
}
