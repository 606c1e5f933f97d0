/** `ORDER BY <score> DESC, id` over a finite set of ids. */
module Ranking {

  type Score = nat -> real

  predicate Before(score: Score, x: nat, y: nat) {
    score(x) > score(y) || (score(x) == score(y) && x < y)
  }

  /** ORDER BY id: every score is the same. */
  function ById(x: nat): real { 0.0 }

  predicate IsRanked(r: seq<nat>, score: Score) {
    forall i, j :: 0 <= i < j < |r| ==> Before(score, r[i], r[j])
  }

  ghost predicate IsFirst(s: set<nat>, score: Score, x: nat) {
    x in s && forall y :: y in s && y != x ==> Before(score, x, y)
  }

  lemma {:induction false} HasFirst(s: set<nat>, score: Score) returns (x: nat)
    requires s != {}
    ensures IsFirst(s, score, x)
    decreases s
  {
    var p :| p in s;
    if s == {p} {
      x := p;
    } else {
      var y := HasFirst(s - {p}, score);
      x := if Before(score, p, y) then p else y;
      forall z | z in s && z != x ensures Before(score, x, z) {
        assert z == p || z in s - {p};
      }
    }
  }

  /** The rows of a query in its ORDER BY order. */
  ghost function Ranked(s: set<nat>, score: Score): (r: seq<nat>)
    ensures IsRanked(r, score)
    ensures forall x :: x in r <==> x in s
    ensures |r| == |s|
    decreases s
  {
    if s == {} then []
    else
      HasFirstExists(s, score);
      var x :| IsFirst(s, score, x);
      var rest := Ranked(s - {x}, score);
      assert forall i :: 0 <= i < |rest| ==> rest[i] in s - {x};
      [x] + rest
  }

  lemma HasFirstExists(s: set<nat>, score: Score)
    requires s != {}
    ensures exists x :: IsFirst(s, score, x)
  {
    var x := HasFirst(s, score);
  }

  function Elements(r: seq<nat>): set<nat> {
    set x | x in r
  }

  lemma HeadIsFirst(r: seq<nat>, score: Score)
    requires IsRanked(r, score) && r != []
    ensures IsFirst(Elements(r), score, r[0])
  {
    forall y | y in Elements(r) && y != r[0] ensures Before(score, r[0], y) {
      var i :| 0 <= i < |r| && r[i] == y;
      assert Before(score, r[0], r[i]);
    }
  }

  /** Two ranked sequences with the same elements are the same sequence. */
  lemma {:induction false} RankedUnique(r: seq<nat>, q: seq<nat>, score: Score)
    requires IsRanked(r, score) && IsRanked(q, score) && forall x :: x in r <==> x in q
    ensures r == q
    decreases |r|
  {
    if r == [] {
      assert forall i :: 0 <= i < |q| ==> q[i] in r;
    } else {
      assert r[0] in q;
      HeadIsFirst(r, score);
      HeadIsFirst(q, score);
      assert Elements(r) == Elements(q);
      forall x ensures x in r[1..] <==> x in q[1..] {
        assert x in r[1..] <==> x in r && x != r[0] by { TailMembers(r, score, x); }
        assert x in q[1..] <==> x in q && x != q[0] by { TailMembers(q, score, x); }
      }
      assert IsRanked(r[1..], score) && IsRanked(q[1..], score);
      RankedUnique(r[1..], q[1..], score);
      assert r == [r[0]] + r[1..] && q == [q[0]] + q[1..];
    }
  }

  lemma TailMembers(r: seq<nat>, score: Score, x: nat)
    requires IsRanked(r, score) && r != []
    ensures x in r[1..] <==> x in r && x != r[0]
  {
    if x in r[1..] {
      var i :| 0 <= i < |r[1..]| && r[1..][i] == x;
      assert r[i + 1] == x && Before(score, r[0], r[i + 1]);
    }
    if x in r && x != r[0] {
      var i :| 0 <= i < |r| && r[i] == x;
      assert r[1..][i - 1] == x;
    }
  }

  lemma IsTheRanking(r: seq<nat>, s: set<nat>, score: Score)
    requires IsRanked(r, score) && forall x :: x in r <==> x in s
    ensures r == Ranked(s, score)
  {
    RankedUnique(r, Ranked(s, score), score);
  }

  /** LIMIT n */
  function Limit(r: seq<nat>, n: nat): seq<nat> {
    if |r| <= n then r else r[..n]
  }

  /** The ids of a ranked prefix, and of the next element, as sets. */
  lemma PrefixGrows(r: seq<nat>, score: Score, k: nat)
    requires IsRanked(r, score) && k < |r|
    ensures r[k] !in r[..k]
    ensures Elements(r[..k + 1]) == Elements(r[..k]) + {r[k]}
  {
    assert r[..k + 1] == r[..k] + [r[k]];
    forall i | 0 <= i < k ensures r[i] != r[k] { assert Before(score, r[i], r[k]); }
  }

  // ---------------------------------------------------------------- the query engine's side

  method FindFirst(s: set<nat>, score: Score) returns (x: nat)
    requires s != {}
    ensures IsFirst(s, score, x)
  {
    x :| x in s;
    var todo := s - {x};
    while todo != {}
      invariant x in s && x !in todo && todo <= s
      invariant forall y :: y in s && y !in todo && y != x ==> Before(score, x, y)
      decreases todo
    {
      var y :| y in todo;
      todo := todo - {y};
      if Before(score, y, x) {
        x := y;
      }
    }
  }

  /** SELECT id ... ORDER BY score DESC, id */
  method OrderBy(s: set<nat>, score: Score) returns (r: seq<nat>)
    ensures r == Ranked(s, score)
  {
    r := [];
    var todo := s;
    while todo != {}
      invariant todo <= s && IsRanked(r, score)
      invariant forall x :: x in s <==> x in r || x in todo
      invariant forall i, y :: 0 <= i < |r| && y in todo ==> Before(score, r[i], y)
      decreases todo
    {
      var x := FindFirst(todo, score);
      todo := todo - {x};
      r := r + [x];
    }
    IsTheRanking(r, s, score);
  }
}
