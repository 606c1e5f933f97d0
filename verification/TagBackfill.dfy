/** `backfill_tag_cooccurrence_edges.py`: memories of one user and context that share enough tags become edges. */
module TagEdges {
  import opened Sql
  import opened Ranking

  datatype Scope = Scope(workspace: nat, context: nat)
  datatype Memory = Memory(user: string, workspace: Option<nat>, context: Option<nat>, tags: Option<seq<string>>,
                           deleted: bool)
  datatype Key = Key(user: string, src: nat, dst: nat)
  datatype Edge = Edge(kind: string, weight: real, confidence: real, scope: Scope)
  type Edges = map<Key, Edge>

  /** What a run reads and never writes. The label of the seeded edges is a parameter. */
  datatype World = World(memories: map<nat, Memory>, hubs: map<Scope, set<string>>,
                         minShared: nat, maxMatches: nat, degreeCap: nat, kind: string)

  predicate Scoped(m: Memory) {
    m.tags.Some? && m.workspace.Some? && m.context.Some?
  }

  function ScopeOf(m: Memory): Scope
    requires Scoped(m)
  {
    Scope(m.workspace.value, m.context.value)
  }

  /** The cached hub tags; the empty set if they were never computed. */
  function HubTags(w: World, scope: Scope): set<string> {
    if scope in w.hubs then w.hubs[scope] else {}
  }

  function Without(tags: seq<string>, hub: set<string>): (r: seq<string>)
    ensures forall t :: t in r <==> t in tags && t !in hub
  {
    if tags == [] then []
    else
      var rest := Without(tags[..|tags| - 1], hub);
      var t := tags[|tags| - 1];
      assert tags == tags[..|tags| - 1] + [t];
      if t in hub then rest else rest + [t]
  }

  function QueryTags(w: World, m: Memory): seq<string>
    requires Scoped(m)
  {
    Without(m.tags.value, HubTags(w, ScopeOf(m)))
  }

  /** The distinct tags two rows have in common. */
  function Common(tags: seq<string>, query: seq<string>): set<string> {
    set t | t in tags && t in query
  }

  function SharedCount(w: World, query: seq<string>, x: nat): nat {
    if x in w.memories && w.memories[x].tags.Some? then |Common(w.memories[x].tags.value, query)| else 0
  }

  function ByShared(w: World, query: seq<string>): Score {
    (x: nat) => SharedCount(w, query, x) as real
  }

  /** The WHERE clauses of the candidate query. */
  predicate Qualifies(w: World, m: Memory, id: nat, query: seq<string>, x: nat) {
    && x in w.memories && x != id && !w.memories[x].deleted
    && w.memories[x].user == m.user && w.memories[x].workspace == m.workspace && w.memories[x].context == m.context
    && w.memories[x].tags.Some? && Common(w.memories[x].tags.value, query) != {}
    && SharedCount(w, query, x) >= w.minShared
  }

  function Candidates(w: World, m: Memory, id: nat, query: seq<string>): set<nat> {
    set x | x in w.memories && Qualifies(w, m, id, query, x)
  }

  ghost function Matches(w: World, id: nat): seq<nat>
    requires id in w.memories && Scoped(w.memories[id])
  {
    var m := w.memories[id];
    var query := QueryTags(w, m);
    Limit(Ranked(Candidates(w, m, id, query), ByShared(w, query)), w.maxMatches)
  }

  /** At least one edge of the label leaves the memory; edges of negative weight are not looked at. */
  predicate Seeded(w: World, edges: Edges, id: nat)
    requires id in w.memories && Scoped(w.memories[id])
  {
    exists key :: key in edges && IsSeed(w, w.memories[id], id, key, edges[key])
  }

  predicate IsSeed(w: World, m: Memory, id: nat, key: Key, edge: Edge)
    requires Scoped(m)
  {
    key.user == m.user && key.src == id && edge.kind == w.kind && edge.scope == ScopeOf(m) && edge.weight >= 0.0
  }

  function Min(a: real, b: real): real { if a <= b then a else b }

  function NewEdge(w: World, m: Memory, query: seq<string>, x: nat): Edge
    requires Scoped(m)
  {
    var n := SharedCount(w, query, x) as real;
    Edge(w.kind, Min(0.4, 0.15 + 0.10 * (n - 1.0)), Min(1.0, n / 4.0), ScopeOf(m))
  }

  /** The memory whose edges are written, and the edge it gets to each match. */
  datatype Seeder = Seeder(user: string, id: nat, edgeTo: nat -> Edge)

  function SeederOf(w: World, id: nat): Seeder
    requires id in w.memories && Scoped(w.memories[id])
  {
    var m := w.memories[id];
    var query := QueryTags(w, m);
    Seeder(m.user, id, (x: nat) => NewEdge(w, m, query, x))
  }

  /** The write loop: insert where no edge exists, until the degree cap. */
  function Write(edges: Edges, s: Seeder, matches: seq<nat>, room: nat): Edges
    decreases |matches|
  {
    if matches == [] || room == 0 then edges
    else
      var key := Key(s.user, s.id, matches[0]);
      if key in edges then Write(edges, s, matches[1..], room)
      else Write(edges[key := s.edgeTo(matches[0])], s, matches[1..], room - 1)
  }

  /** What one memory adds: nothing if it was seeded before, and the full query otherwise. */
  ghost function Process(w: World, edges: Edges, id: nat): Edges {
    if id !in w.memories || !Scoped(w.memories[id]) || Seeded(w, edges, id) then edges
    else Write(edges, SeederOf(w, id), Matches(w, id), w.degreeCap)
  }

  ghost function ProcessAll(w: World, edges: Edges, ids: seq<nat>): Edges {
    if ids == [] then edges else Process(w, ProcessAll(w, edges, ids[..|ids| - 1]), ids[|ids| - 1])
  }

  ghost predicate Extends(a: Edges, b: Edges) {
    forall key :: key in a ==> key in b && b[key] == a[key]
  }

  /** The outgoing edges of a memory are the same in both tables. */
  ghost predicate AgreeOn(a: Edges, b: Edges, id: nat) {
    forall key: Key :: key.src == id ==> (key in a <==> key in b) && (key in a ==> a[key] == b[key])
  }

  /** Every memory's outgoing edges are what the original table alone decides; nothing else changes. */
  ghost predicate OneShot(w: World, edges: Edges, ids: set<nat>, final: Edges) {
    && (forall id :: id in ids ==> AgreeOn(final, Process(w, edges, id), id))
    && (forall id :: id !in ids ==> AgreeOn(final, edges, id))
  }
}

module TagBackfill {
  import opened Ranking
  import opened TagEdges

  // ---------------------------------------------------------------- fast paths

  lemma {:induction false} DistinctAtMostLength(s: seq<string>, d: set<string>)
    requires forall t :: t in d ==> t in s
    ensures |d| <= |s|
    decreases |s|
  {
    if s == [] {
      assert d == {};
    } else {
      var n := |s| - 1;
      assert s == s[..n] + [s[n]];
      DistinctAtMostLength(s[..n], d - {s[n]});
      if s[n] in d {
        assert d == (d - {s[n]}) + {s[n]};
      } else {
        assert d == d - {s[n]};
      }
    }
  }

  /** Too few query tags (counted with repetitions) means the query would find nothing. */
  lemma TooFewTags(w: World, m: Memory, id: nat, query: seq<string>)
    requires |query| < w.minShared
    ensures Candidates(w, m, id, query) == {}
  {
    forall x | x in w.memories ensures !Qualifies(w, m, id, query, x) {
      if w.memories[x].tags.Some? {
        DistinctAtMostLength(query, Common(w.memories[x].tags.value, query));
      }
    }
  }

  lemma NoTagsNoCandidates(w: World, m: Memory, id: nat)
    ensures Candidates(w, m, id, []) == {}
  {
    forall x | x in w.memories ensures !Qualifies(w, m, id, [], x) {
      if w.memories[x].tags.Some? { assert Common(w.memories[x].tags.value, []) == {}; }
    }
  }

  lemma NoCandidatesNoMatches(w: World, id: nat)
    requires id in w.memories && Scoped(w.memories[id])
    requires Candidates(w, w.memories[id], id, QueryTags(w, w.memories[id])) == {}
    ensures Matches(w, id) == []
  {
  }

  // ---------------------------------------------------------------- one memory

  lemma {:induction false} WriteExtends(edges: Edges, s: Seeder, matches: seq<nat>, room: nat)
    ensures Extends(edges, Write(edges, s, matches, room))
    decreases |matches|
  {
    if matches != [] && room > 0 {
      var key := Key(s.user, s.id, matches[0]);
      if key in edges {
        WriteExtends(edges, s, matches[1..], room);
      } else {
        WriteExtends(edges[key := s.edgeTo(matches[0])], s, matches[1..], room - 1);
      }
    }
  }

  lemma {:induction false} WriteLocal(edges: Edges, s: Seeder, matches: seq<nat>, room: nat, other: nat)
    requires other != s.id
    ensures AgreeOn(Write(edges, s, matches, room), edges, other)
    decreases |matches|
  {
    if matches != [] && room > 0 {
      var key := Key(s.user, s.id, matches[0]);
      if key in edges {
        WriteLocal(edges, s, matches[1..], room, other);
      } else {
        WriteLocal(edges[key := s.edgeTo(matches[0])], s, matches[1..], room - 1, other);
      }
    }
  }

  lemma {:induction false} WriteDependsOnOwn(a: Edges, b: Edges, s: Seeder, matches: seq<nat>, room: nat)
    requires AgreeOn(a, b, s.id)
    ensures AgreeOn(Write(a, s, matches, room), Write(b, s, matches, room), s.id)
    decreases |matches|
  {
    if matches != [] && room > 0 {
      var key, edge := Key(s.user, s.id, matches[0]), s.edgeTo(matches[0]);
      if key in a {
        WriteDependsOnOwn(a, b, s, matches[1..], room);
      } else {
        WriteDependsOnOwn(a[key := edge], b[key := edge], s, matches[1..], room - 1);
      }
    }
  }

  /** A second look at the memory has nothing to add. */
  ghost predicate Done(w: World, edges: Edges, id: nat) {
    id !in w.memories || !Scoped(w.memories[id]) || Seeded(w, edges, id) || w.degreeCap == 0
    || AllPresent(edges, SeederOf(w, id), Matches(w, id))
  }

  ghost predicate AllPresent(edges: Edges, s: Seeder, matches: seq<nat>) {
    forall x :: x in matches ==> Key(s.user, s.id, x) in edges
  }

  lemma {:induction false} NothingToWrite(edges: Edges, s: Seeder, matches: seq<nat>, room: nat)
    requires room == 0 || AllPresent(edges, s, matches)
    ensures Write(edges, s, matches, room) == edges
    decreases |matches|
  {
    if matches != [] && room > 0 {
      NothingToWrite(edges, s, matches[1..], room);
    }
  }

  lemma DoneIsFixed(w: World, edges: Edges, id: nat)
    requires Done(w, edges, id)
    ensures Process(w, edges, id) == edges
  {
    if id in w.memories && Scoped(w.memories[id]) && !Seeded(w, edges, id) {
      NothingToWrite(edges, SeederOf(w, id), Matches(w, id), w.degreeCap);
    }
  }

  lemma MatchesShareTags(w: World, id: nat, x: nat)
    requires id in w.memories && Scoped(w.memories[id]) && x in Matches(w, id)
    ensures SharedCount(w, QueryTags(w, w.memories[id]), x) >= 1
  {
    var m := w.memories[id];
    var query := QueryTags(w, m);
    assert x in Ranked(Candidates(w, m, id, query), ByShared(w, query));
    assert x in Candidates(w, m, id, query);
  }

  lemma NewEdgeIsSeed(w: World, id: nat, x: nat)
    requires id in w.memories && Scoped(w.memories[id]) && SharedCount(w, QueryTags(w, w.memories[id]), x) >= 1
    ensures IsSeed(w, w.memories[id], id, Key(w.memories[id].user, id, x), SeederOf(w, id).edgeTo(x))
  {
  }

  /** Some match got its edge. */
  ghost predicate WroteOne(edges: Edges, s: Seeder, matches: seq<nat>) {
    exists x :: x in matches && Key(s.user, s.id, x) in edges && edges[Key(s.user, s.id, x)] == s.edgeTo(x)
  }

  /** Either the loop wrote an edge, or every match has one. */
  lemma {:induction false} WriteSettles(edges: Edges, s: Seeder, matches: seq<nat>, room: nat)
    requires room > 0
    ensures || WroteOne(Write(edges, s, matches, room), s, matches)
            || AllPresent(Write(edges, s, matches, room), s, matches)
    decreases |matches|
  {
    if matches != [] {
      var key := Key(s.user, s.id, matches[0]);
      if key in edges {
        WriteExtends(edges, s, matches[1..], room);
        WriteSettles(edges, s, matches[1..], room);
      } else {
        WriteExtends(edges[key := s.edgeTo(matches[0])], s, matches[1..], room - 1);
        assert matches[0] in matches;
      }
    }
  }

  lemma WroteOneIsSeeded(w: World, edges: Edges, id: nat)
    requires id in w.memories && Scoped(w.memories[id]) && WroteOne(edges, SeederOf(w, id), Matches(w, id))
    ensures Seeded(w, edges, id)
  {
    var s := SeederOf(w, id);
    var x :| x in Matches(w, id) && Key(s.user, s.id, x) in edges && edges[Key(s.user, s.id, x)] == s.edgeTo(x);
    MatchesShareTags(w, id, x);
    NewEdgeIsSeed(w, id, x);
  }

  lemma ProcessSettles(w: World, edges: Edges, id: nat)
    ensures Done(w, Process(w, edges, id), id)
    ensures Extends(edges, Process(w, edges, id))
  {
    if id in w.memories && Scoped(w.memories[id]) && !Seeded(w, edges, id) {
      var s, now := SeederOf(w, id), Process(w, edges, id);
      WriteExtends(edges, s, Matches(w, id), w.degreeCap);
      if w.degreeCap > 0 {
        WriteSettles(edges, s, Matches(w, id), w.degreeCap);
        if WroteOne(now, s, Matches(w, id)) { WroteOneIsSeeded(w, now, id); }
      }
    }
  }

  lemma DoneStays(w: World, a: Edges, b: Edges, id: nat)
    requires Done(w, a, id) && Extends(a, b)
    ensures Done(w, b, id)
  {
    if id in w.memories && Scoped(w.memories[id]) && Seeded(w, a, id) {
      var key :| key in a && IsSeed(w, w.memories[id], id, key, a[key]);
      assert key in b && IsSeed(w, w.memories[id], id, key, b[key]);
    }
  }

  lemma ProcessLocal(w: World, edges: Edges, id: nat, other: nat)
    requires other != id
    ensures AgreeOn(Process(w, edges, id), edges, other)
  {
    if id in w.memories && Scoped(w.memories[id]) && !Seeded(w, edges, id) {
      WriteLocal(edges, SeederOf(w, id), Matches(w, id), w.degreeCap, other);
    }
  }

  lemma SeededDependsOnOwn(w: World, a: Edges, b: Edges, id: nat)
    requires id in w.memories && Scoped(w.memories[id]) && AgreeOn(a, b, id) && Seeded(w, a, id)
    ensures Seeded(w, b, id)
  {
    var key :| key in a && IsSeed(w, w.memories[id], id, key, a[key]);
    assert key in b && IsSeed(w, w.memories[id], id, key, b[key]);
  }

  lemma ProcessDependsOnOwn(w: World, a: Edges, b: Edges, id: nat)
    requires AgreeOn(a, b, id)
    ensures AgreeOn(Process(w, a, id), Process(w, b, id), id)
  {
    if id in w.memories && Scoped(w.memories[id]) {
      if Seeded(w, a, id) {
        SeededDependsOnOwn(w, a, b, id);
      } else {
        if Seeded(w, b, id) { SeededDependsOnOwn(w, b, a, id); }
        WriteDependsOnOwn(a, b, SeederOf(w, id), Matches(w, id), w.degreeCap);
      }
    }
  }

  // ---------------------------------------------------------------- whole runs

  ghost predicate NoRepeats(ids: seq<nat>) {
    forall i, j :: 0 <= i < j < |ids| ==> ids[i] != ids[j]
  }

  lemma AgreeTransitive(a: Edges, b: Edges, c: Edges, id: nat)
    requires AgreeOn(a, b, id) && AgreeOn(b, c, id)
    ensures AgreeOn(a, c, id)
  {
  }

  lemma OneShotStep(w: World, edges: Edges, ids: set<nat>, before: Edges, last: nat)
    requires OneShot(w, edges, ids, before) && last !in ids
    ensures OneShot(w, edges, ids + {last}, Process(w, before, last))
  {
    var final := Process(w, before, last);
    forall id | id in ids + {last} ensures AgreeOn(final, Process(w, edges, id), id) {
      if id == last {
        ProcessDependsOnOwn(w, before, edges, last);
      } else {
        ProcessLocal(w, before, last, id);
        AgreeTransitive(final, before, Process(w, edges, id), id);
      }
    }
    forall id | id !in ids + {last} ensures AgreeOn(final, edges, id) {
      ProcessLocal(w, before, last, id);
      AgreeTransitive(final, before, edges, id);
    }
  }

  /** In whatever order distinct memories are processed, the result is the one-shot specification. */
  lemma {:induction false} ProcessAllIsOneShot(w: World, edges: Edges, ids: seq<nat>)
    requires NoRepeats(ids)
    ensures OneShot(w, edges, Elements(ids), ProcessAll(w, edges, ids))
    decreases |ids|
  {
    if ids == [] {
      NothingProcessed(w, edges);
    } else {
      var n := |ids| - 1;
      ProcessAllIsOneShot(w, edges, ids[..n]);
      LastIsNew(ids);
      OneShotStep(w, edges, Elements(ids[..n]), ProcessAll(w, edges, ids[..n]), ids[n]);
    }
  }

  lemma NothingProcessed(w: World, edges: Edges)
    ensures OneShot(w, edges, Elements([]), edges)
  {
  }

  lemma LastIsNew(ids: seq<nat>)
    requires NoRepeats(ids) && ids != []
    ensures NoRepeats(ids[..|ids| - 1]) && ids[|ids| - 1] !in Elements(ids[..|ids| - 1])
    ensures Elements(ids) == Elements(ids[..|ids| - 1]) + {ids[|ids| - 1]}
  {
    var n := |ids| - 1;
    assert ids == ids[..n] + [ids[n]];
  }

  lemma OneShotIsUnique(w: World, edges: Edges, ids: set<nat>, a: Edges, b: Edges)
    requires OneShot(w, edges, ids, a) && OneShot(w, edges, ids, b)
    ensures a == b
  {
    forall key: Key ensures (key in a <==> key in b) && (key in a ==> a[key] == b[key]) {
      if key.src in ids {
        assert AgreeOn(a, Process(w, edges, key.src), key.src) && AgreeOn(b, Process(w, edges, key.src), key.src);
      } else {
        assert AgreeOn(a, edges, key.src) && AgreeOn(b, edges, key.src);
      }
    }
    assert a.Keys == b.Keys;
  }

  lemma {:induction false} AllDone(w: World, edges: Edges, ids: seq<nat>, id: nat)
    requires id in ids
    ensures Done(w, ProcessAll(w, edges, ids), id)
    decreases |ids|
  {
    var n := |ids| - 1;
    var before := ProcessAll(w, edges, ids[..n]);
    ProcessSettles(w, before, ids[n]);
    if id != ids[n] {
      assert ids == ids[..n] + [ids[n]];
      AllDone(w, edges, ids[..n], id);
      DoneStays(w, before, Process(w, before, ids[n]), id);
    }
  }

  lemma {:induction false} DonePrefix(w: World, edges: Edges, ids: seq<nat>)
    requires forall id :: id in ids ==> Done(w, edges, id)
    ensures ProcessAll(w, edges, ids) == edges
    decreases |ids|
  {
    if ids != [] {
      DonePrefix(w, edges, ids[..|ids| - 1]);
      DoneIsFixed(w, edges, ids[|ids| - 1]);
    }
  }

  lemma ProcessLast(w: World, edges: Edges, ids: seq<nat>, front: seq<nat>, last: nat)
    requires ids == front + [last]
    ensures ProcessAll(w, edges, ids) == Process(w, ProcessAll(w, edges, front), last)
  {
    assert ids[..|ids| - 1] == front;
  }

  lemma {:induction false} ProcessAppend(w: World, edges: Edges, a: seq<nat>, b: seq<nat>)
    ensures ProcessAll(w, edges, a + b) == ProcessAll(w, ProcessAll(w, edges, a), b)
    decreases |b|
  {
    if b == [] {
      assert a + b == a;
    } else {
      var front, last := b[..|b| - 1], b[|b| - 1];
      ProcessAppend(w, edges, a, front);
      assert b == front + [last] && a + b == (a + front) + [last];
      ProcessLast(w, edges, a + b, a + front, last);
      ProcessLast(w, ProcessAll(w, edges, a), b, front, last);
    }
  }

  /** A run that got through a prefix changes nothing about what the next full run ends with. */
  lemma RestartIsEnough(w: World, edges: Edges, ids: seq<nat>, k: nat)
    requires k <= |ids|
    ensures ProcessAll(w, ProcessAll(w, edges, ids[..k]), ids) == ProcessAll(w, edges, ids)
  {
    var now := ProcessAll(w, edges, ids[..k]);
    forall id | id in ids[..k] ensures Done(w, now, id) { AllDone(w, edges, ids[..k], id); }
    DonePrefix(w, now, ids[..k]);
    assert ids == ids[..k] + ids[k..];
    ProcessAppend(w, now, ids[..k], ids[k..]);
    ProcessAppend(w, edges, ids[..k], ids[k..]);
  }

  /** The table after runs that stopped after the given numbers of memories. */
  ghost function AfterCrashes(w: World, edges: Edges, ids: seq<nat>, stops: seq<nat>): Edges {
    if stops == [] then edges
    else ProcessAll(w, AfterCrashes(w, edges, ids, stops[..|stops| - 1]), Limit(ids, stops[|stops| - 1]))
  }

  /** Any number of crashed runs followed by one that ends is one run; another one changes nothing. */
  lemma {:induction false} CrashesDoNotMatter(w: World, edges: Edges, ids: seq<nat>, stops: seq<nat>)
    ensures ProcessAll(w, AfterCrashes(w, edges, ids, stops), ids) == ProcessAll(w, edges, ids)
    decreases |stops|
  {
    if stops != [] {
      var n := |stops| - 1;
      var k := if stops[n] <= |ids| then stops[n] else |ids|;
      assert Limit(ids, stops[n]) == ids[..k];
      CrashesDoNotMatter(w, edges, ids, stops[..n]);
      RestartIsEnough(w, AfterCrashes(w, edges, ids, stops[..n]), ids, k);
    }
  }

  // ---------------------------------------------------------------- the dry run

  ghost function WouldCreate(w: World, edges: Edges, id: nat): nat {
    if id !in w.memories || !Scoped(w.memories[id]) || Seeded(w, edges, id) then 0 else |Matches(w, id)|
  }

  ghost function DryTotal(w: World, edges: Edges, ids: seq<nat>): nat {
    if ids == [] then 0 else DryTotal(w, edges, ids[..|ids| - 1]) + WouldCreate(w, edges, ids[|ids| - 1])
  }

  /** How many edges the write loop creates. */
  function Written(edges: Edges, s: Seeder, matches: seq<nat>, room: nat): nat
    decreases |matches|
  {
    if matches == [] || room == 0 then 0
    else
      var key := Key(s.user, s.id, matches[0]);
      if key in edges then Written(edges, s, matches[1..], room)
      else 1 + Written(edges[key := s.edgeTo(matches[0])], s, matches[1..], room - 1)
  }

  ghost function Created(w: World, edges: Edges, id: nat): nat {
    if id !in w.memories || !Scoped(w.memories[id]) || Seeded(w, edges, id) then 0
    else Written(edges, SeederOf(w, id), Matches(w, id), w.degreeCap)
  }

  ghost function Total(w: World, edges: Edges, ids: seq<nat>): nat {
    if ids == [] then 0
    else Total(w, edges, ids[..|ids| - 1]) + Created(w, ProcessAll(w, edges, ids[..|ids| - 1]), ids[|ids| - 1])
  }

  lemma OneEdgeMore(edges: Edges, key: Key, edge: Edge)
    requires key !in edges
    ensures |edges[key := edge]| == |edges| + 1
  {
  }

  lemma {:induction false} WriteCount(edges: Edges, s: Seeder, matches: seq<nat>, room: nat)
    ensures |Write(edges, s, matches, room)| == |edges| + Written(edges, s, matches, room)
    decreases |matches|
  {
    if matches != [] && room > 0 {
      var key := Key(s.user, s.id, matches[0]);
      if key in edges {
        WriteCount(edges, s, matches[1..], room);
      } else {
        OneEdgeMore(edges, key, s.edgeTo(matches[0]));
        WriteCount(edges[key := s.edgeTo(matches[0])], s, matches[1..], room - 1);
      }
    }
  }

  lemma {:induction false} WrittenAtMost(edges: Edges, s: Seeder, matches: seq<nat>, room: nat)
    ensures Written(edges, s, matches, room) <= |matches|
    decreases |matches|
  {
    if matches != [] && room > 0 {
      var key := Key(s.user, s.id, matches[0]);
      if key in edges {
        WrittenAtMost(edges, s, matches[1..], room);
      } else {
        WrittenAtMost(edges[key := s.edgeTo(matches[0])], s, matches[1..], room - 1);
      }
    }
  }

  /** The reported number of created edges is the growth of the table. */
  lemma {:induction false} TotalIsGrowth(w: World, edges: Edges, ids: seq<nat>)
    ensures |ProcessAll(w, edges, ids)| == |edges| + Total(w, edges, ids)
    decreases |ids|
  {
    if ids != [] {
      var n := |ids| - 1;
      TotalIsGrowth(w, edges, ids[..n]);
      if ids[n] in w.memories && Scoped(w.memories[ids[n]]) {
        WriteCount(ProcessAll(w, edges, ids[..n]), SeederOf(w, ids[n]), Matches(w, ids[n]), w.degreeCap);
      }
    }
  }

  /** What a dry run announces is never less than what the run then creates. */
  lemma {:induction false} DryRunIsUpperBound(w: World, edges: Edges, ids: seq<nat>)
    requires NoRepeats(ids)
    ensures Total(w, edges, ids) <= DryTotal(w, edges, ids)
    decreases |ids|
  {
    if ids != [] {
      var n := |ids| - 1;
      var before := ProcessAll(w, edges, ids[..n]);
      DryRunIsUpperBound(w, edges, ids[..n]);
      ProcessAllIsOneShot(w, edges, ids[..n]);
      assert ids[n] !in Elements(ids[..n]);
      var id := ids[n];
      if id in w.memories && Scoped(w.memories[id]) {
        if Seeded(w, edges, id) { SeededDependsOnOwn(w, edges, before, id); }
        WrittenAtMost(before, SeederOf(w, id), Matches(w, id), w.degreeCap);
      }
    }
  }
}

module TagBackfillScript {
  import opened Sql
  import opened Ranking
  import opened Keyset
  import opened TagEdges
  import opened TagBackfill

  /** The command line: an empty user counts as none. */
  datatype Filter = Filter(user: Option<string>, allUsers: bool, context: Option<nat>)

  predicate Eligible(m: Memory, f: Filter) {
    && !m.deleted && Scoped(m)
    && (f.user.Some? && f.user.value != "" && !f.allUsers ==> m.user == f.user.value)
    && (f.context.Some? ==> m.context == f.context)
  }

  function EligibleIds(w: World, f: Filter): set<nat> {
    set x | x in w.memories && Eligible(w.memories[x], f)
  }

  ghost function Order(w: World, f: Filter): seq<nat> {
    Ranked(EligibleIds(w, f), ById)
  }

  /** How a turn of the page loop ends: more pages may follow, the page was empty, or the process died. */
  datatype End = More | Done | Died

  datatype Status = NoTags | AlreadySeeded | NoCandidates | NewlySeeded
  datatype Counts = Counts(scanned: nat, noTags: nat, alreadySeeded: nat, noCandidates: nat, seeded: nat, created: nat)

  function Tally(c: Counts, status: Status, n: nat): Counts {
    var d := c.(scanned := c.scanned + 1, created := c.created + n);
    match status
    case NoTags => d.(noTags := c.noTags + 1)
    case AlreadySeeded => d.(alreadySeeded := c.alreadySeeded + 1)
    case NoCandidates => d.(noCandidates := c.noCandidates + 1)
    case NewlySeeded => d.(seeded := c.seeded + 1)
  }

  lemma WriteStep(edges: Edges, s: Seeder, rows: seq<nat>, i: nat, room: nat)
    requires i < |rows| && room > 0
    ensures var key := Key(s.user, s.id, rows[i]);
            var next := if key in edges then edges else edges[key := s.edgeTo(rows[i])];
            var left := if key in edges then room else room - 1;
            && Write(edges, s, rows[i..], room) == Write(next, s, rows[i + 1..], left)
            && Written(edges, s, rows[i..], room) == Written(next, s, rows[i + 1..], left) + (room - left)
  {
    assert rows[i..][1..] == rows[i + 1..];
  }

  class Session {
    var edges: Edges
    var committed: Edges

    method WriteMatches(s: Seeder, rows: seq<nat>, cap: nat) returns (written: nat)
      modifies this`edges
      ensures edges == Write(old(edges), s, rows, cap)
      ensures written == Written(old(edges), s, rows, cap)
    {
      var i := 0;
      written := 0;
      assert rows[0..] == rows;
      while i < |rows| && written < cap
        invariant 0 <= i <= |rows| && written <= cap
        invariant Write(edges, s, rows[i..], cap - written) == Write(old(edges), s, rows, cap)
        invariant written + Written(edges, s, rows[i..], cap - written) == Written(old(edges), s, rows, cap)
      {
        WriteStep(edges, s, rows, i, cap - written);
        var key := Key(s.user, s.id, rows[i]);
        if key !in edges {
          edges := edges[key := s.edgeTo(rows[i])];
          written := written + 1;
        }
        i := i + 1;
      }
    }

    /** `_backfill_one_memory`, with its three early exits. */
    method BackfillOne(w: World, id: nat, hubTags: set<string>, execute: bool) returns (n: nat, status: Status)
      requires id in w.memories
      requires Scoped(w.memories[id]) ==> hubTags == HubTags(w, ScopeOf(w.memories[id]))
      modifies this`edges
      ensures edges == if execute then Process(w, old(edges), id) else old(edges)
      ensures n == if execute then Created(w, old(edges), id) else WouldCreate(w, old(edges), id)
      ensures status == NewlySeeded <==> n > 0
    {
      var m := w.memories[id];
      if !Scoped(m) {
        return 0, NoTags;
      }
      if m.tags.value == [] {
        NoTagsNoCandidates(w, m, id);
        NoCandidatesNoMatches(w, id);
        return 0, NoTags;
      }
      if Seeded(w, edges, id) {
        return 0, AlreadySeeded;
      }
      var query := Without(m.tags.value, hubTags);
      if |query| < w.minShared {
        TooFewTags(w, m, id, query);
        NoCandidatesNoMatches(w, id);
        return 0, NoCandidates;
      }
      var ranked := OrderBy(Candidates(w, m, id, query), ByShared(w, query));
      var rows := Limit(ranked, w.maxMatches);
      if rows == [] {
        return 0, NoCandidates;
      }
      if !execute {
        return |rows|, NewlySeeded;
      }
      n := WriteMatches(SeederOf(w, id), rows, w.degreeCap);
      status := if n > 0 then NewlySeeded else NoCandidates;
    }

    /** One turn of the page loop: read, handle, commit. If the process dies, what was not committed is lost. */
    method Turn(w: World, f: Filter, execute: bool, batchSize: nat, dies: Option<nat>, place: Option<nat>,
                cache: map<Scope, set<string>>, counts: Counts, handled: nat, ghost ids: seq<nat>, ghost start: Edges)
      returns (end: End, last: Option<nat>, hubCache: map<Scope, set<string>>, now: Counts, k: nat)
      requires Lists(ids, EligibleIds(w, f)) && AtPosition(ids, place, handled) && Memo(w, cache)
      requires edges == committed == Expected(w, start, ids, handled, execute)
      requires Accounts(w, start, ids, handled, execute, counts)
      modifies this
      ensures AtPosition(ids, last, k) && Memo(w, hubCache)
      ensures edges == committed == Expected(w, start, ids, k, execute)
      ensures !end.Died? ==> Accounts(w, start, ids, k, execute, now)
      ensures end.Died? ==> dies.Some? && k == handled
      ensures end.Done? ==> k == handled && (handled == |ids| || batchSize == 0)
      ensures end.More? ==> k > handled && batchSize > 0
    {
      last, hubCache, now, k := place, cache, counts, handled;
      var page := NextPage(w, f, place, batchSize, ids, handled);
      if page == [] { return Done, last, hubCache, now, k; }
      var survived, reached, memo, sum := HandlePage(w, execute, page, dies, cache, handled, counts, ids, start);
      if !survived {
        edges := committed;
        return Died, last, hubCache, now, k;
      }
      committed := edges;
      return More, reached, memo, sum, handled + |page|;
    }

    /** The page loop over the eligible ids. */
    method Loop(w: World, f: Filter, execute: bool, batchSize: nat, dies: Option<nat>, ghost ids: seq<nat>)
      returns (finished: bool, counts: Counts, k: nat)
      requires edges == committed && Lists(ids, EligibleIds(w, f))
      modifies this
      ensures edges == committed && k <= |ids| && committed == Expected(w, old(committed), ids, k, execute)
      ensures dies.None? ==> finished
      ensures finished ==> k == if batchSize >= 1 then |ids| else 0
      ensures finished ==> Accounts(w, old(committed), ids, k, execute, counts)
    {
      ghost var start := committed;
      var last: Option<nat> := None;
      var hubCache: map<Scope, set<string>> := map[];
      var end := More;
      counts, k := Counts(0, 0, 0, 0, 0, 0), 0;
      while end.More?
        invariant AtPosition(ids, last, k) && Memo(w, hubCache) && (batchSize == 0 ==> k == 0)
        invariant edges == committed == Expected(w, start, ids, k, execute)
        invariant !end.Died? ==> Accounts(w, start, ids, k, execute, counts)
        invariant end.Died? ==> dies.Some?
        invariant end.Done? ==> k == |ids| || batchSize == 0
        decreases |ids| - k, end.More?
      {
        end, last, hubCache, counts, k := Turn(w, f, execute, batchSize, dies, last, hubCache, counts, k, ids, start);
      }
      finished := end.Done?;
    }

    /** `backfill`. The process may die after `dies` memories. */
    method Backfill(w: World, f: Filter, execute: bool, batchSize: nat, dies: Option<nat>)
      returns (finished: bool, counts: Counts, k: nat)
      requires edges == committed
      modifies this
      ensures edges == committed && k <= |Order(w, f)|
      ensures committed == Expected(w, old(committed), Order(w, f), k, execute)
      ensures dies.None? ==> finished
      ensures finished ==> k == if batchSize >= 1 then |Order(w, f)| else 0
      ensures finished ==> Accounts(w, old(committed), Order(w, f), k, execute, counts)
    {
      RankedLists(EligibleIds(w, f));
      finished, counts, k := Loop(w, f, execute, batchSize, dies, Order(w, f));
    }

    method HandlePage(w: World, execute: bool, page: seq<nat>, dies: Option<nat>, cache: map<Scope, set<string>>,
                      handled: nat, counts: Counts, ghost ids: seq<nat>, ghost start: Edges)
      returns (survived: bool, last: Option<nat>, hubCache: map<Scope, set<string>>, now: Counts)
      requires page != [] && IsPage(w, ids, handled, page)
      requires edges == Expected(w, start, ids, handled, execute)
      requires Accounts(w, start, ids, handled, execute, counts)
      requires Memo(w, cache)
      modifies this`edges
      ensures dies.None? ==> survived
      ensures survived ==> AtPosition(ids, last, handled + |page|)
      ensures survived ==> edges == Expected(w, start, ids, handled + |page|, execute)
      ensures survived ==> Accounts(w, start, ids, handled + |page|, execute, now)
      ensures survived ==> Memo(w, hubCache)
    {
      survived, last, hubCache, now := true, None, cache, counts;
      var j := 0;
      while j < |page|
        invariant 0 <= j <= |page|
        invariant j > 0 ==> AtPosition(ids, last, handled + j)
        invariant edges == Expected(w, start, ids, handled + j, execute)
        invariant Accounts(w, start, ids, handled + j, execute, now)
        invariant Memo(w, hubCache)
      {
        if dies == Some(handled + j) {
          survived := false;
          return;
        }
        hubCache, now := HandleMemory(w, execute, page[j], hubCache, now, ids, handled + j, start);
        last := Some(page[j]);
        j := j + 1;
      }
    }

    method HandleMemory(w: World, execute: bool, id: nat, cache: map<Scope, set<string>>, counts: Counts,
                        ghost ids: seq<nat>, ghost k: nat, ghost start: Edges)
      returns (hubCache: map<Scope, set<string>>, now: Counts)
      requires k < |ids| && id == ids[k] && id in w.memories && Scoped(w.memories[id])
      requires edges == Expected(w, start, ids, k, execute) && Accounts(w, start, ids, k, execute, counts)
      requires Memo(w, cache)
      modifies this`edges
      ensures edges == Expected(w, start, ids, k + 1, execute)
      ensures Accounts(w, start, ids, k + 1, execute, now) && Memo(w, hubCache)
    {
      hubCache := cache;
      var scope := ScopeOf(w.memories[id]);
      if scope !in hubCache {
        hubCache := hubCache[scope := HubTags(w, scope)];
      }
      var n, status := BackfillOne(w, id, hubCache[scope], execute);
      ExpectedStep(w, start, ids, k, execute, old(edges));
      AccountsStep(w, start, ids, k, execute, old(edges), counts, n, status);
      now := Tally(counts, status, n);
    }
  }

  /** The table after the first k memories. */
  ghost function Expected(w: World, start: Edges, ids: seq<nat>, k: nat, execute: bool): Edges
    requires k <= |ids|
  {
    if execute then ProcessAll(w, start, ids[..k]) else start
  }

  ghost predicate Accounts(w: World, start: Edges, ids: seq<nat>, k: nat, execute: bool, c: Counts)
    requires k <= |ids|
  {
    && c.scanned == k && c.scanned == c.noTags + c.alreadySeeded + c.noCandidates + c.seeded
    && c.created == if execute then Total(w, start, ids[..k]) else DryTotal(w, start, ids[..k])
  }

  lemma ExpectedStep(w: World, start: Edges, ids: seq<nat>, k: nat, execute: bool, before: Edges)
    requires k < |ids| && before == Expected(w, start, ids, k, execute)
    ensures Expected(w, start, ids, k + 1, execute) == if execute then Process(w, before, ids[k]) else before
  {
    assert ids[..k + 1][..k] == ids[..k];
  }

  lemma AccountsStep(w: World, start: Edges, ids: seq<nat>, k: nat, execute: bool, before: Edges,
                     c: Counts, n: nat, status: Status)
    requires k < |ids| && before == Expected(w, start, ids, k, execute)
    requires Accounts(w, start, ids, k, execute, c)
    requires n == if execute then Created(w, before, ids[k]) else WouldCreate(w, before, ids[k])
    ensures Accounts(w, start, ids, k + 1, execute, Tally(c, status, n))
  {
    assert ids[..k + 1][..k] == ids[..k];
  }

  /** The memo holds what a fresh read of the hub table would return. */
  ghost predicate Memo(w: World, cache: map<Scope, set<string>>) {
    forall scope :: scope in cache ==> cache[scope] == HubTags(w, scope)
  }

  ghost predicate IsPage(w: World, ids: seq<nat>, k: nat, page: seq<nat>) {
    && k + |page| <= |ids|
    && forall i :: 0 <= i < |page| ==> page[i] == ids[k + i] && page[i] in w.memories && Scoped(w.memories[page[i]])
  }

  /** The page query. */
  method NextPage(w: World, f: Filter, last: Option<nat>, batchSize: nat, ghost ids: seq<nat>, ghost handled: nat)
    returns (page: seq<nat>)
    requires Lists(ids, EligibleIds(w, f)) && AtPosition(ids, last, handled)
    ensures IsPage(w, ids, handled, page)
    ensures page == [] <==> handled == |ids| || batchSize == 0
  {
    page := FirstPage(EligibleIds(w, f), last, batchSize);
    KeysetContinues(EligibleIds(w, f), ids, last, handled, batchSize, page);
  }

  /** Every run that ends, with whatever batch size of at least 1 and after whatever crashed runs with theirs, leaves
      the one-shot specification. */
  lemma EveryRunIsOneShot(w: World, f: Filter, edges: Edges, stops: seq<nat>)
    ensures OneShot(w, edges, EligibleIds(w, f), ProcessAll(w, AfterCrashes(w, edges, Order(w, f), stops), Order(w, f)))
  {
    var ids := Order(w, f);
    CrashesDoNotMatter(w, edges, ids, stops);
    RankedLists(EligibleIds(w, f));
    ProcessAllIsOneShot(w, edges, ids);
    assert Elements(ids) == EligibleIds(w, f);
  }
}
