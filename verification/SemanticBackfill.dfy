/** `backfill_semantic_edges.py`: nearest neighbours of every memory of a context become edges. */
module SemanticBackfill {
  import opened Ranking

  /** Cosine similarity of two stored vectors. */
  type Similarity = (nat, nat) -> real

  function Towards(sim: Similarity, m: nat): Score {
    (x: nat) => sim(m, x)
  }

  /** The payload fields a search filters on; the context is fixed. */
  datatype Owner = Owner(user: string, workspace: nat)

  datatype Hit = Hit(id: nat, score: real)

  ghost function Hits(sim: Similarity, m: nat, ids: seq<nat>): (h: seq<Hit>)
    ensures |h| == |ids| && forall i :: 0 <= i < |ids| ==> h[i] == Hit(ids[i], sim(m, ids[i]))
  {
    if ids == [] then [] else Hits(sim, m, ids[..|ids| - 1]) + [Hit(ids[|ids| - 1], sim(m, ids[|ids| - 1]))]
  }

  // ---------------------------------------------------------------- query_neighbors

  /** The k best of the other points. */
  ghost function TopK(points: set<nat>, sim: Similarity, m: nat, k: nat): seq<nat> {
    Limit(Ranked(points - {m}, Towards(sim, m)), k)
  }

  /** What a search returns: with k == 0 the length is only looked at after a hit was appended. */
  ghost function Neighbours(points: set<nat>, sim: Similarity, m: nat, k: nat): seq<nat> {
    if k >= 1 then TopK(points, sim, m, k)
    else Others(Limit(Ranked(points, Towards(sim, m)), 1), m)
  }

  function Others(ids: seq<nat>, m: nat): seq<nat> {
    if ids == [] then []
    else
      var rest := Others(ids[..|ids| - 1], m);
      if ids[|ids| - 1] == m then rest else rest + [ids[|ids| - 1]]
  }

  lemma {:induction false} OthersAppend(a: seq<nat>, b: seq<nat>, m: nat)
    ensures Others(a + b, m) == Others(a, m) + Others(b, m)
    decreases |b|
  {
    if b == [] {
      assert a + b == a;
    } else {
      var n := |b| - 1;
      assert (a + b)[..|a + b| - 1] == a + b[..n];
      OthersAppend(a, b[..n], m);
    }
  }

  lemma {:induction false} OthersMembers(ids: seq<nat>, m: nat, x: nat)
    ensures x in Others(ids, m) <==> x in ids && x != m
    decreases |ids|
  {
    if ids != [] {
      var n := |ids| - 1;
      OthersMembers(ids[..n], m, x);
      assert ids == ids[..n] + [ids[n]];
    }
  }

  lemma {:induction false} OthersRanked(ids: seq<nat>, m: nat, score: Score)
    requires IsRanked(ids, score)
    ensures IsRanked(Others(ids, m), score)
    decreases |ids|
  {
    if ids != [] {
      var n := |ids| - 1;
      var prefix, rest := ids[..n], Others(ids[..n], m);
      OthersRanked(prefix, m, score);
      forall i | 0 <= i < |rest| ensures Before(score, rest[i], ids[n]) {
        OthersMembers(prefix, m, rest[i]);
        var j :| 0 <= j < n && prefix[j] == rest[i];
        assert Before(score, ids[j], ids[n]);
      }
    }
  }

  lemma {:induction false} OthersLength(ids: seq<nat>, m: nat, score: Score)
    requires IsRanked(ids, score)
    ensures m !in ids ==> |Others(ids, m)| == |ids|
    ensures |ids| - 1 <= |Others(ids, m)| <= |ids|
    decreases |ids|
  {
    if ids != [] {
      var n := |ids| - 1;
      OthersLength(ids[..n], m, score);
      PrefixGrows(ids, score, n);
    }
  }

  lemma OthersOfRanking(points: set<nat>, score: Score, m: nat)
    ensures Others(Ranked(points, score), m) == Ranked(points - {m}, score)
  {
    var r := Ranked(points, score);
    OthersRanked(r, m, score);
    forall x ensures x in Others(r, m) <==> x in points - {m} { OthersMembers(r, m, x); }
    IsTheRanking(Others(r, m), points - {m}, score);
  }

  lemma OneMoreIsEnough(r: seq<nat>, score: Score, m: nat, k: nat)
    requires IsRanked(r, score)
    ensures Limit(Others(Limit(r, k + 1), m), k) == Limit(Others(r, m), k)
  {
    if |r| > k + 1 {
      var a, b := r[..k + 1], r[k + 1..];
      assert r == a + b;
      OthersAppend(a, b, m);
      OthersLength(a, m, score);
    }
  }

  /** Fetching one more and dropping the self-hit is the top k of the ranking without self. */
  lemma OneMoreMinusSelf(points: set<nat>, sim: Similarity, m: nat, k: nat)
    ensures Limit(Others(Limit(Ranked(points, Towards(sim, m)), k + 1), m), k) == TopK(points, sim, m, k)
  {
    OthersOfRanking(points, Towards(sim, m), m);
    OneMoreIsEnough(Ranked(points, Towards(sim, m)), Towards(sim, m), m, k);
  }

  /** `query_neighbors`: search with limit k + 1, drop the self-hit, stop after k. */
  method QueryNeighbors(points: set<nat>, sim: Similarity, m: nat, stored: bool, k: nat) returns (out: seq<Hit>)
    ensures out == Hits(sim, m, if stored then Neighbours(points, sim, m, k) else [])
  {
    out := [];
    if !stored { return; }
    var ranked := OrderBy(points, Towards(sim, m));
    ghost var ids;
    out, ids := DropSelf(Limit(ranked, k + 1), sim, m, k);
    OneMoreMinusSelf(points, sim, m, k);
    OthersLength(Limit(ranked, k + 1), m, Towards(sim, m));
  }

  method DropSelf(results: seq<nat>, sim: Similarity, m: nat, k: nat) returns (out: seq<Hit>, ghost ids: seq<nat>)
    ensures ids == Limit(Others(results, m), if k == 0 then 1 else k)
    ensures out == Hits(sim, m, ids)
  {
    out, ids := [], [];
    var i := 0;
    while i < |results| && (out == [] || |out| < k)
      invariant 0 <= i <= |results|
      invariant ids == Others(results[..i], m)
      invariant out == Hits(sim, m, ids)
      invariant |ids| <= if k == 0 then 1 else k
    {
      assert results[..i + 1][..i] == results[..i];
      if results[i] != m {
        assert (ids + [results[i]])[..|ids|] == ids;
        out := out + [Hit(results[i], sim(m, results[i]))];
        ids := ids + [results[i]];
      }
      i := i + 1;
    }
    assert results == results[..i] + results[i..];
    OthersAppend(results[..i], results[i..], m);
  }

  lemma OthersOfOne(x: nat, m: nat)
    ensures Others([x], m) == if x == m then [] else [x]
  {
    assert [x][..0] == [];
  }

  lemma FirstIsHead(points: set<nat>, score: Score, m: nat)
    requires points != {}
    ensures Ranked(points, score) != []
    ensures Ranked(points, score)[0] == m <==> IsFirst(points, score, m)
  {
    var r := Ranked(points, score);
    assert |r| > 0;
    HeadIsFirst(r, score);
    assert Elements(r) == points;
  }

  /** What the search returns is the top k of the other points if and only if k >= 1, or nothing is ranked before
      the memory itself. */
  lemma NeighboursAreTopKIff(points: set<nat>, sim: Similarity, m: nat, k: nat)
    ensures Neighbours(points, sim, m, k) == TopK(points, sim, m, k)
            <==> k >= 1 || points == {} || IsFirst(points, Towards(sim, m), m)
  {
    if k == 0 {
      var r := Ranked(points, Towards(sim, m));
      assert TopK(points, sim, m, k) == [];
      if points == {} {
        assert r == [] && Limit(r, 1) == [];
      } else {
        FirstIsHead(points, Towards(sim, m), m);
        OthersOfOne(r[0], m);
        assert Limit(r, 1) == [r[0]];
      }
    }
  }

  /** With a budget of 0, two points of equal score and the memory the second of them, the search returns the first. */
  lemma ZeroBudgetReturnsAHit()
    ensures var sim: Similarity := (a: nat, b: nat) => 1.0;
            Neighbours({0, 1}, sim, 1, 0) == [0] && TopK({0, 1}, sim, 1, 0) == []
  {
    var sim: Similarity := (a: nat, b: nat) => 1.0;
    var points, score := {0, 1}, Towards(sim, 1);
    assert IsFirst(points, score, 0) by { assert Before(score, 0, 1); }
    FirstIsHead(points, score, 0);
    var r := Ranked(points, score);
    assert Limit(r, 1) == [0];
    OthersOfOne(0, 1);
  }

  lemma FirstIsNeighbour(points: set<nat>, sim: Similarity, m: nat, b: nat)
    ensures b in Neighbours(points, sim, m, 0) <==> b != m && IsFirst(points, Towards(sim, m), b)
  {
    var r := Ranked(points, Towards(sim, m));
    if points == {} {
      assert r == [] && Limit(r, 1) == [];
    } else {
      FirstIsHead(points, Towards(sim, m), b);
      OthersOfOne(r[0], m);
      assert Limit(r, 1) == [r[0]];
    }
  }

  // ---------------------------------------------------------------- backfill_context

  datatype Row = Row(id: nat, owner: Owner)
  datatype Key = Key(user: string, src: nat, dst: nat)

  /** The inputs of one run that do not change during it. `unreachable` are the memories whose search raises,
      `rejected` the pairs whose insert raises. */
  datatype Setting = Setting(points: map<nat, Owner>, sim: Similarity, threshold: real, k: nat,
                             unreachable: set<nat>, rejected: set<(nat, nat)>, dryRun: bool)

  function Visible(s: Setting, o: Owner): set<nat> {
    set x | x in s.points && s.points[x] == o
  }

  /** sorted([a, b]) */
  function Canonical(a: nat, b: nat): (nat, nat) {
    if a <= b then (a, b) else (b, a)
  }

  ghost function Found(s: Setting, row: Row): seq<nat> {
    if row.id in s.unreachable || row.id !in s.points then []
    else Neighbours(Visible(s, row.owner), s.sim, row.id, s.k)
  }

  /** The pairs of a memory with those of the given neighbours that reach the threshold. */
  ghost function PairsWith(s: Setting, m: nat, ids: seq<nat>): set<(nat, nat)> {
    set b | b in ids && s.sim(m, b) >= s.threshold :: Canonical(m, b)
  }

  ghost function PairsOf(s: Setting, row: Row): set<(nat, nat)> {
    PairsWith(s, row.id, Found(s, row))
  }

  /** The symmetric closure of the thresholded neighbour relation, over a set of memories. */
  ghost function PairsOver(s: Setting, rows: set<Row>): set<(nat, nat)> {
    set row, pair | row in rows && pair in PairsOf(s, row) :: pair
  }

  /** The pair of this key was tried and not rejected, and it is the owner's. */
  predicate Wanted(s: Setting, pairs: set<(nat, nat)>, key: Key) {
    && (key.src, key.dst) in pairs && (key.src, key.dst) !in s.rejected
    && key.src in s.points && key.user == s.points[key.src].user
  }

  /** A run that writes leaves the edges there were, and one of the right weight for every other wanted key. */
  ghost predicate Exact(s: Setting, before: map<Key, real>, pairs: set<(nat, nat)>, now: map<Key, real>) {
    s.dryRun
    || forall key :: && (key in now <==> key in before || Wanted(s, pairs, key))
                     && (key in now ==> now[key] == if key in before then before[key] else s.sim(key.src, key.dst))
  }

  lemma ExactIsUnique(s: Setting, before: map<Key, real>, pairs: set<(nat, nat)>, x: map<Key, real>, y: map<Key, real>)
    requires !s.dryRun && Exact(s, before, pairs, x) && Exact(s, before, pairs, y)
    ensures x == y
  {
    assert x.Keys == y.Keys;
  }

  predicate Symmetric(s: Setting) {
    forall a, b :: a in s.points && b in s.points ==> s.sim(a, b) == s.sim(b, a)
  }

  /** The stored point carries the owner the database has. */
  predicate SyncedRow(s: Setting, row: Row) {
    row.id in s.points ==> s.points[row.id] == row.owner
  }

  predicate Synced(s: Setting, rows: set<Row>) {
    forall row :: row in rows ==> SyncedRow(s, row)
  }

  datatype Counts = Counts(evaluated: nat, inserted: nat, failed: nat, wouldInsert: nat)

  /** `counts` says what happened to the pairs seen so far. */
  ghost predicate Tallies(s: Setting, counts: Counts, seen: set<(nat, nat)>, before: map<Key, real>, now: map<Key,
                          real>) {
    && counts.evaluated == |seen|
    && counts.wouldInsert == (if s.dryRun then |seen| else 0)
    && counts.failed == (if s.dryRun then 0 else |seen * s.rejected|)
    && |now| == |before| + counts.inserted
    && (s.dryRun ==> now == before)
    && (forall key :: key in before ==> key in now && now[key] == before[key])
  }

  lemma NeighboursAreOthers(s: Setting, row: Row, b: nat)
    requires b in Found(s, row)
    ensures b != row.id && b in s.points && s.points[b] == row.owner
  {
    var points, score := Visible(s, row.owner), Towards(s.sim, row.id);
    if s.k >= 1 {
      assert b in Ranked(points - {row.id}, score);
    } else {
      OthersMembers(Limit(Ranked(points, score), 1), row.id, b);
      assert b in Ranked(points, score);
    }
  }

  lemma SeenGrows(seen: set<(nat, nat)>, rejected: set<(nat, nat)>, pair: (nat, nat))
    requires pair !in seen
    ensures |seen + {pair}| == |seen| + 1
    ensures multiset(seen + {pair}) == multiset(seen) + multiset{pair}
    ensures |(seen + {pair}) * rejected| == |seen * rejected| + (if pair in rejected then 1 else 0)
  {
    if pair in rejected {
      assert (seen + {pair}) * rejected == seen * rejected + {pair};
    } else {
      assert (seen + {pair}) * rejected == seen * rejected;
    }
  }

  class Graph {
    var edges: map<Key, real>

    method CreateEdgeIfAbsent(key: Key, weight: real) returns (created: bool)
      modifies this
      ensures created <==> key !in old(edges)
      ensures edges == if created then old(edges)[key := weight] else old(edges)
    {
      created := key !in edges;
      if created { edges := edges[key := weight]; }
    }

    /** One hit. */
    method TryPair(s: Setting, user: string, pair: (nat, nat), score: real, seen: set<(nat, nat)>, counts: Counts,
                   ghost before: map<Key, real>, ghost tried: multiset<(nat, nat)>)
      returns (seenNow: set<(nat, nat)>, now: Counts, ghost triedNow: multiset<(nat, nat)>)
      requires Tallies(s, counts, seen, before, edges) && tried == multiset(seen)
      modifies this
      ensures forall p :: p in seenNow <==> p in seen || (score >= s.threshold && p == pair)
      ensures Tallies(s, now, seenNow, before, edges) && triedNow == multiset(seenNow)
      ensures FaithfulScore(s, user, pair, score) && Exact(s, before, seen, old(edges)) ==>
                Exact(s, before, seenNow, edges)
    {
      seenNow, now, triedNow := seen, counts, tried;
      if score < s.threshold || pair in seen { return; }
      seenNow := seen + {pair};
      SeenGrows(seen, s.rejected, pair);
      triedNow := tried + multiset{pair};
      now := counts.(evaluated := counts.evaluated + 1);
      if s.dryRun {
        now := now.(wouldInsert := counts.wouldInsert + 1);
      } else if pair in s.rejected {
        now := now.(failed := counts.failed + 1);
      } else {
        var created := CreateEdgeIfAbsent(Key(user, pair.0, pair.1), score);
        if created { now := now.(inserted := counts.inserted + 1); }
      }
    }

    /** The loop over the hits of one memory. */
    method ForHits(s: Setting, row: Row, hits: seq<Hit>, seen: set<(nat, nat)>, counts: Counts,
                   ghost ids: seq<nat>, ghost before: map<Key, real>, ghost tried: multiset<(nat, nat)>)
      returns (seenNow: set<(nat, nat)>, now: Counts, ghost triedNow: multiset<(nat, nat)>)
      requires Tallies(s, counts, seen, before, edges) && tried == multiset(seen) && hits == Hits(s.sim, row.id, ids)
      modifies this
      ensures forall p :: p in seenNow <==> p in seen || p in PairsWith(s, row.id, ids)
      ensures Tallies(s, now, seenNow, before, edges) && triedNow == multiset(seenNow)
      ensures FaithfulScores(s, row, ids) && Exact(s, before, seen, old(edges)) ==> Exact(s, before, seenNow, edges)
    {
      seenNow, now, triedNow := seen, counts, tried;
      var i := 0;
      while i < |hits|
        invariant 0 <= i <= |hits|
        invariant forall p :: p in seenNow <==> p in seen || p in PairsWith(s, row.id, ids[..i])
        invariant Tallies(s, now, seenNow, before, edges) && triedNow == multiset(seenNow)
        invariant FaithfulScores(s, row, ids) && Exact(s, before, seen, old(edges)) ==> Exact(s, before, seenNow, edges)
      {
        OneMoreNeighbour(s, row.id, ids, i);
        seenNow, now, triedNow := TryPair(s, row.owner.user, Canonical(row.id, hits[i].id), hits[i].score,
                                        seenNow, now, before, triedNow);
        i := i + 1;
      }
      assert ids[..i] == ids;
    }

    /** The body of the loop over the memories. */
    method ForMemory(s: Setting, row: Row, seen: set<(nat, nat)>, counts: Counts,
                     ghost before: map<Key, real>, ghost tried: multiset<(nat, nat)>)
      returns (seenNow: set<(nat, nat)>, now: Counts, ghost triedNow: multiset<(nat, nat)>)
      requires Tallies(s, counts, seen, before, edges) && tried == multiset(seen)
      modifies this
      ensures forall p :: p in seenNow <==> p in seen || p in PairsOf(s, row)
      ensures Tallies(s, now, seenNow, before, edges) && triedNow == multiset(seenNow)
      ensures Symmetric(s) && SyncedRow(s, row) && Exact(s, before, seen, old(edges)) ==>
                Exact(s, before, seenNow, edges)
    {
      seenNow, now, triedNow := seen, counts, tried;
      if row.id in s.unreachable { return; }
      var hits := QueryNeighbors(Visible(s, row.owner), s.sim, row.id, row.id in s.points, s.k);
      NeighbourScores(s, row);
      seenNow, now, triedNow := ForHits(s, row, hits, seen, counts, Found(s, row), before, tried);
    }

    /** `backfill_context`, for the memories of one context in whatever order the database returns them. */
    method BackfillContext(s: Setting, memories: seq<Row>, minMemories: int)
      returns (skipped: bool, counts: Counts, ghost tried: multiset<(nat, nat)>, ghost pairs: set<(nat, nat)>)
      modifies this
      ensures skipped <==> |memories| < minMemories
      ensures skipped ==> edges == old(edges)
      ensures !skipped ==> pairs == PairsOver(s, Rows(memories)) && tried == multiset(pairs)
      ensures !skipped ==> Tallies(s, counts, pairs, old(edges), edges)
      ensures !skipped && Symmetric(s) && Synced(s, Rows(memories)) ==> Exact(s, old(edges), pairs, edges)
    {
      counts, tried, pairs := Counts(0, 0, 0, 0), multiset{}, {};
      skipped := |memories| < minMemories;
      if skipped { return; }
      var seen: set<(nat, nat)> := {};
      var i := 0;
      NoPairs(s, edges);
      while i < |memories|
        invariant 0 <= i <= |memories|
        invariant forall p :: p in seen <==> p in PairsOver(s, Rows(memories[..i]))
        invariant Tallies(s, counts, seen, old(edges), edges) && tried == multiset(seen)
        invariant Symmetric(s) && Synced(s, Rows(memories)) ==> Exact(s, old(edges), seen, edges)
      {
        OneMoreRow(s, memories, i);
        seen, counts, tried := ForMemory(s, memories[i], seen, counts, old(edges), tried);
        i := i + 1;
      }
      assert memories[..i] == memories;
      pairs := seen;
    }
  }

  function Rows(memories: seq<Row>): set<Row> {
    set row | row in memories
  }

  ghost predicate FaithfulScore(s: Setting, user: string, pair: (nat, nat), score: real) {
    pair.0 in s.points && user == s.points[pair.0].user && score == s.sim(pair.0, pair.1)
  }

  lemma NoPairs(s: Setting, edges: map<Key, real>)
    ensures Exact(s, edges, {}, edges)
    ensures PairsOver(s, Rows([])) == {}
  {
  }

  lemma OneMoreNeighbour(s: Setting, m: nat, ids: seq<nat>, i: nat)
    requires i < |ids|
    ensures forall p :: p in PairsWith(s, m, ids[..i + 1])
              <==> p in PairsWith(s, m, ids[..i]) || (s.sim(m, ids[i]) >= s.threshold && p == Canonical(m, ids[i]))
  {
    var less, more := ids[..i], ids[..i + 1];
    assert more == less + [ids[i]];
    forall p | p in PairsWith(s, m, more)
      ensures p in PairsWith(s, m, less) || (s.sim(m, ids[i]) >= s.threshold && p == Canonical(m, ids[i]))
    {
      var b :| b in more && s.sim(m, b) >= s.threshold && p == Canonical(m, b);
      assert b in less || b == ids[i];
    }
    forall p | p in PairsWith(s, m, less) ensures p in PairsWith(s, m, more) {
      var b :| b in less && s.sim(m, b) >= s.threshold && p == Canonical(m, b);
      assert b in more;
    }
    assert ids[i] in more;
  }

  ghost predicate FaithfulScores(s: Setting, row: Row, ids: seq<nat>) {
    forall i :: 0 <= i < |ids| ==> FaithfulScore(s, row.owner.user, Canonical(row.id, ids[i]), s.sim(row.id, ids[i]))
  }

  lemma NeighbourScores(s: Setting, row: Row)
    ensures Symmetric(s) && SyncedRow(s, row) ==> FaithfulScores(s, row, Found(s, row))
  {
    forall i | 0 <= i < |Found(s, row)| { NeighboursAreOthers(s, row, Found(s, row)[i]); }
  }

  lemma OneMoreRow(s: Setting, memories: seq<Row>, i: nat)
    requires i < |memories|
    ensures forall p :: p in PairsOver(s, Rows(memories[..i + 1]))
              <==> p in PairsOver(s, Rows(memories[..i])) || p in PairsOf(s, memories[i])
    ensures memories[i] in Rows(memories)
  {
    assert memories[..i + 1] == memories[..i] + [memories[i]];
    assert Rows(memories[..i + 1]) == Rows(memories[..i]) + {memories[i]};
  }

  /** A pair is evaluated exactly when it is ordered, one end is a reachable stored memory of the run and the other is
      near it. */
  lemma EvaluatedIff(s: Setting, rows: set<Row>, a: nat, b: nat)
    ensures (a, b) in PairsOver(s, rows) <==> a < b && (HasNeighbour(s, rows, a, b) || HasNeighbour(s, rows, b, a))
  {
    if (a, b) in PairsOver(s, rows) {
      var row :| row in rows && (a, b) in PairsOf(s, row);
      PairHasNeighbour(s, rows, row, a, b);
    }
    if a < b && HasNeighbour(s, rows, a, b) {
      NeighbourIsPaired(s, rows, a, b);
    }
    if a < b && HasNeighbour(s, rows, b, a) {
      NeighbourIsPaired(s, rows, b, a);
    }
  }

  lemma PairHasNeighbour(s: Setting, rows: set<Row>, row: Row, a: nat, b: nat)
    requires row in rows && (a, b) in PairsOf(s, row)
    ensures a < b && (HasNeighbour(s, rows, a, b) || HasNeighbour(s, rows, b, a))
  {
    var n :| n in Found(s, row) && s.sim(row.id, n) >= s.threshold && Canonical(row.id, n) == (a, b);
    NeighboursAreOthers(s, row, n);
    if s.k == 0 { FirstIsNeighbour(Visible(s, row.owner), s.sim, row.id, n); }
    assert Near(s, row, n);
  }

  lemma NeighbourIsPaired(s: Setting, rows: set<Row>, a: nat, b: nat)
    requires HasNeighbour(s, rows, a, b)
    ensures Canonical(a, b) in PairsOver(s, rows)
  {
    var row :| row in rows && row.id == a && Near(s, row, b);
    if s.k == 0 { FirstIsNeighbour(Visible(s, row.owner), s.sim, a, b); }
    assert b in Found(s, row);
    assert Canonical(a, b) in PairsOf(s, row);
  }

  /** Among the k nearest others with a score at the threshold; with a k of 0, the nearest of all. */
  ghost predicate Near(s: Setting, row: Row, b: nat) {
    && row.id in s.points && row.id !in s.unreachable && s.sim(row.id, b) >= s.threshold
    && if s.k >= 1 then b in TopK(Visible(s, row.owner), s.sim, row.id, s.k)
       else b != row.id && IsFirst(Visible(s, row.owner), Towards(s.sim, row.id), b)
  }

  ghost predicate HasNeighbour(s: Setting, rows: set<Row>, a: nat, b: nat) {
    exists row :: row in rows && row.id == a && Near(s, row, b)
  }
}
