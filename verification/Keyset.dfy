/** Keyset pagination: `WHERE id > last ORDER BY id LIMIT n`, page after page. */
module Keyset {
  import opened Sql
  import opened Ranking

  predicate Ascends(ids: seq<nat>) {
    forall i, j :: 0 <= i < j < |ids| ==> ids[i] < ids[j]
  }

  /** The ids of a set in order. */
  ghost predicate Lists(ids: seq<nat>, s: set<nat>) {
    Ascends(ids) && forall x :: x in ids <==> x in s
  }

  /** id > last, once there is a last one. */
  predicate Past(x: nat, last: Option<nat>) {
    last.None? || x > last.value
  }

  /** `last` is the k-th id, or there was none yet. */
  ghost predicate AtPosition(ids: seq<nat>, last: Option<nat>, k: nat) {
    k <= |ids| && if last.None? then k == 0 else 0 < k && last.value == ids[k - 1]
  }

  ghost predicate OnOrAfter(page: seq<nat>, n: nat, x: nat) {
    x in page || (|page| == n && (n > 0 ==> page[n - 1] < x))
  }

  /** The first n of the ids past `last`, or all of them if there are fewer. */
  ghost predicate PageOf(s: set<nat>, last: Option<nat>, n: nat, page: seq<nat>) {
    && Ascends(page) && |page| <= n
    && (forall i :: 0 <= i < |page| ==> page[i] in s && Past(page[i], last))
    && (forall x :: x in s && Past(x, last) ==> OnOrAfter(page, n, x))
  }

  lemma PastMeansLater(ids: seq<nat>, last: Option<nat>, k: nat, i: nat)
    requires Ascends(ids) && AtPosition(ids, last, k) && i < |ids|
    ensures Past(ids[i], last) <==> i >= k
  {
  }

  lemma {:induction false} SliceAt(s: set<nat>, ids: seq<nat>, last: Option<nat>, k: nat, n: nat, page: seq<nat>,
                                   i: nat)
    requires Lists(ids, s) && AtPosition(ids, last, k) && PageOf(s, last, n, page) && i < |page|
    ensures k + i < |ids| && page[i] == ids[k + i]
    decreases i
  {
    if i > 0 { SliceAt(s, ids, last, k, n, page, i - 1); }
    assert page[i] in ids;
    var j :| 0 <= j < |ids| && ids[j] == page[i];
    PastMeansLater(ids, last, k, j);
    if j > k + i {
      var x := ids[k + i];
      PastMeansLater(ids, last, k, k + i);
      assert x in s && OnOrAfter(page, n, x);
      Skipped(page, n, i, x);
    }
  }

  /** An id below a member of the page and past the one before it cannot be missing. */
  lemma Skipped(page: seq<nat>, n: nat, i: nat, x: nat)
    requires Ascends(page) && |page| <= n && i < |page| && OnOrAfter(page, n, x) && x < page[i]
    ensures i > 0 && x <= page[i - 1]
  {
    var m :| 0 <= m < |page| && page[m] == x;
  }

  /** The next page is the next stretch of the ids, and it is empty only at their end. */
  lemma KeysetContinues(s: set<nat>, ids: seq<nat>, last: Option<nat>, k: nat, n: nat, page: seq<nat>)
    requires Lists(ids, s) && AtPosition(ids, last, k) && PageOf(s, last, n, page)
    ensures k + |page| <= |ids| && page == ids[k..k + |page|]
    ensures page == [] && n >= 1 ==> k == |ids|
    ensures page != [] ==> AtPosition(ids, Some(page[|page| - 1]), k + |page|)
  {
    forall i | 0 <= i < |page| ensures k + i < |ids| && page[i] == ids[k + i] {
      SliceAt(s, ids, last, k, n, page, i);
    }
    if page != [] { SliceAt(s, ids, last, k, n, page, |page| - 1); }
    if k < |ids| {
      PastMeansLater(ids, last, k, k);
      assert OnOrAfter(page, n, ids[k]);
    }
  }

  /** The page holds the ids past `last` and up to its end. */
  lemma InPage(s: set<nat>, last: Option<nat>, n: nat, page: seq<nat>, x: nat)
    requires PageOf(s, last, n, page) && page != [] && x in s
    ensures x in page <==> Past(x, last) && x <= page[|page| - 1]
  {
    if x in page {
      var i :| 0 <= i < |page| && page[i] == x;
    }
    if Past(x, last) {
      assert OnOrAfter(page, n, x);
    }
  }

  /** Only the ids past `last` matter. */
  lemma SamePage(s: set<nat>, t: set<nat>, last: Option<nat>, n: nat, page: seq<nat>)
    requires PageOf(s, last, n, page)
    requires forall x :: Past(x, last) ==> (x in s <==> x in t)
    ensures PageOf(t, last, n, page)
  {
  }

  lemma RankedLists(s: set<nat>)
    ensures Lists(Ranked(s, ById), s) && |Ranked(s, ById)| == |s|
  {
    var r := Ranked(s, ById);
    forall i, j | 0 <= i < j < |r| ensures r[i] < r[j] { assert Before(ById, r[i], r[j]); }
  }

  lemma AfterTheLimit(rest: seq<nat>, page: seq<nat>, n: nat, x: nat)
    requires Ascends(rest) && page == Limit(rest, n) && x in rest
    ensures OnOrAfter(page, n, x)
  {
    var i :| 0 <= i < |rest| && rest[i] == x;
    if i < |page| { assert page[i] == x; }
  }

  lemma LimitIsPage(s: set<nat>, last: Option<nat>, n: nat, rest: seq<nat>)
    requires Ascends(rest) && forall x :: x in rest <==> x in s && Past(x, last)
    ensures PageOf(s, last, n, Limit(rest, n))
  {
    var page := Limit(rest, n);
    forall i | 0 <= i < |page| ensures page[i] in s && Past(page[i], last) {
      assert page[i] == rest[i] && rest[i] in rest;
    }
    forall x | x in s && Past(x, last) ensures OnOrAfter(page, n, x) { AfterTheLimit(rest, page, n, x); }
  }

  /** WHERE id > last ORDER BY id LIMIT n */
  method FirstPage(s: set<nat>, last: Option<nat>, n: nat) returns (page: seq<nat>)
    ensures PageOf(s, last, n, page)
  {
    var past := set x | x in s && Past(x, last);
    var rest := OrderBy(past, ById);
    RankedLists(past);
    LimitIsPage(s, last, n, rest);
    page := Limit(rest, n);
  }
}
