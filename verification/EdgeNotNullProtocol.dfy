/**
  `b03_396_edges_ws_ctx_not_null` as an online protocol: its statements, its two commit points,
  sessions that write edges in between, crashes, re-runs and downgrades.
*/
module EdgeNotNullProtocol {
  import opened EdgeTables

  datatype Check = Absent | NotValid | Validated

  /** Where the current attempt stands; the transaction that commits at `Committed` spans the points before it. */
  datatype Point = Idle | Begun | Filled | Counted(orphans: bool) | Dropped | Altered | Committed | Proved

  /**
    `edges`, `check` and `notNull` are what other sessions see. `fills` and `drops` are the attempt's
    uncommitted row changes; those rows are locked. `guarded` tells whether the CHECK was already
    committed when the attempt began. The counters are history.
  */
  datatype State = State(memories: Memories, edges: Edges, check: Check, notNull: bool,
                         point: Point, fills: Edges, drops: set<EdgeId>, guarded: bool,
                         validateFailures: nat, setFailures: nat, downgrades: nat)

  datatype Event =
    | Write(i: EdgeId, e: Edge)
    | Remove(i: EdgeId)
    | ChangeMemories(memories: Memories)
    | Begin | Fill | Count | Drop | Alter | Commit | Validate | SetNotNull
    | Crash
    | Downgrade

  /** The table as the migration's own transaction sees it. */
  function Mine(s: State): Edges {
    map i | i in s.edges && i !in s.drops :: if i in s.fills then s.fills[i] else s.edges[i]
  }

  predicate NoNulls(edges: Edges) {
    forall i :: i in edges ==> !HasNull(edges[i])
  }

  function Nulls(edges: Edges): set<EdgeId> {
    set i | i in edges && HasNull(edges[i])
  }

  predicate Locked(s: State, i: EdgeId) {
    s.point == Altered || i in s.fills || i in s.drops
  }

  /** What the session that issues the event is allowed to do; a blocked statement is not enabled. */
  predicate Enabled(s: State, e: Event) {
    match e
    case Write(i, row) => !Locked(s, i) && (s.check != Absent || s.notNull ==> !HasNull(row))
    case Remove(i) => !Locked(s, i)
    case ChangeMemories(_) => true
    case Begin => s.point == Idle
    case Fill => s.point == Begun
    case Count => s.point == Filled
    case Drop => s.point.Counted?
    case Alter => s.point == Dropped
    case Commit => s.point == Altered
    case Validate => s.point == Committed
    case SetNotNull => s.point == Proved
    case Crash => true
    case Downgrade => s.point == Idle
  }

  function Apply(s: State, e: Event): State {
    match e
    case Write(i, row) => s.(edges := s.edges[i := row])
    case Remove(i) => s.(edges := s.edges - {i})
    case ChangeMemories(m) => s.(memories := m)
    case Begin => s.(point := Begun, guarded := s.check != Absent)
    case Fill =>
      s.(point := Filled,
         fills := map i | i in s.edges && Fillable(s.memories, s.edges[i]) :: FillEdge(s.memories, s.edges[i]))
    case Count => s.(point := Counted(Nulls(Mine(s)) != {}))
    case Drop => s.(point := Dropped, drops := if s.point == Counted(true) then Nulls(Mine(s)) else s.drops)
    case Alter => s.(point := Altered)
    case Commit => s.(point := Committed, edges := Mine(s), fills := map[], drops := {}, check := NotValid)
    case Validate =>
      if NoNulls(s.edges) then s.(point := Proved, check := Validated)
      else s.(point := Idle, validateFailures := s.validateFailures + 1)
    case SetNotNull =>
      if NoNulls(s.edges) then s.(point := Idle, notNull := true)
      else s.(point := Idle, setFailures := s.setFailures + 1)
    case Crash => s.(point := Idle, fills := map[], drops := {})
    case Downgrade => s.(check := Absent, notNull := false, downgrades := s.downgrades + 1)
  }

  predicate Init(s: State) {
    && s.check == Absent && !s.notNull && s.point == Idle && s.fills == map[] && s.drops == {}
    && s.validateFailures == 0 && s.setFailures == 0 && s.downgrades == 0
  }

  predicate Run(states: seq<State>, events: seq<Event>) {
    && |states| == |events| + 1 && Init(states[0])
    && forall i :: 0 <= i < |events| ==> Enabled(states[i], events[i]) && states[i + 1] == Apply(states[i], events[i])
  }

  // ---------------------------------------------------------------- the invariant

  predicate InTransaction(p: Point) {
    p == Begun || p == Filled || p.Counted? || p == Dropped || p == Altered
  }

  /** From the count on, a guarded attempt sees no NULL it is not about to drop. */
  predicate Cleared(p: Point) {
    p == Counted(false) || p == Dropped || p == Altered
  }

  predicate Inv(s: State) {
    && (s.check == Validated || s.notNull ==> NoNulls(s.edges))
    && NoNulls(s.fills)
    && (s.point == Idle || s.point == Begun || s.point == Committed || s.point == Proved ==> s.fills == map[])
    && (!(s.point == Dropped || s.point == Altered) ==> s.drops == {})
    && (InTransaction(s.point) ==> (s.guarded <==> s.check != Absent))
    && (s.guarded && Cleared(s.point) ==> NoNulls(Mine(s)))
    && (s.point == Committed ==> s.check != Absent && (s.guarded ==> NoNulls(s.edges)))
    && (s.point == Proved ==> s.check == Validated)
    && s.setFailures == 0
    && s.validateFailures <= s.downgrades + (if s.check == Absent || (s.point == Committed && !s.guarded) then 0 else 1)
  }

  lemma FillsHaveNoNulls(s: State)
    requires s.point == Begun
    ensures NoNulls(Apply(s, Fill).fills)
  {
  }

  lemma WriteKeepsInv(s: State, i: EdgeId, row: Edge)
    requires Inv(s) && Enabled(s, Write(i, row))
    ensures Inv(Apply(s, Write(i, row)))
  {
    var s' := Apply(s, Write(i, row));
    if s.guarded && Cleared(s.point) {
      forall j | j in Mine(s') ensures !HasNull(Mine(s')[j]) {
        assert j != i ==> j in Mine(s) && Mine(s')[j] == Mine(s)[j];
      }
    }
  }

  lemma RemoveKeepsInv(s: State, i: EdgeId)
    requires Inv(s) && Enabled(s, Remove(i))
    ensures Inv(Apply(s, Remove(i)))
  {
    var s' := Apply(s, Remove(i));
    forall j | j in Mine(s') ensures j in Mine(s) && Mine(s')[j] == Mine(s)[j] {}
  }

  lemma DropKeepsInv(s: State)
    requires Inv(s) && Enabled(s, Drop)
    ensures Inv(Apply(s, Drop))
  {
    var s' := Apply(s, Drop);
    forall j | j in Mine(s') && s.guarded ensures !HasNull(Mine(s')[j]) {
      assert j in Mine(s) && Mine(s')[j] == Mine(s)[j];
      assert s.point == Counted(true) ==> j !in Nulls(Mine(s));
    }
  }

  lemma CommitKeepsInv(s: State)
    requires Inv(s) && Enabled(s, Commit)
    ensures Inv(Apply(s, Commit))
  {
    forall j | j in Mine(s) && HasNull(Mine(s)[j]) ensures j in s.edges && HasNull(s.edges[j]) {}
  }

  lemma StepKeepsInv(s: State, e: Event)
    requires Inv(s) && Enabled(s, e)
    ensures Inv(Apply(s, e))
  {
    match e
    case Write(i, row) => WriteKeepsInv(s, i, row);
    case Remove(i) => RemoveKeepsInv(s, i);
    case Fill => FillsHaveNoNulls(s);
    case Count => assert Nulls(Mine(s)) == {} ==> forall i :: i in Mine(s) ==> i !in Nulls(Mine(s));
    case Drop => DropKeepsInv(s);
    case Commit => CommitKeepsInv(s);
    case _ =>
  }

  /** Theorem: over every run, VALIDATE fails at most once more often than the migration is downgraded,
      SET NOT NULL never fails, and a validated CHECK or a NOT NULL column holds for every row. */
  lemma {:induction false} RunInvariant(states: seq<State>, events: seq<Event>, i: nat)
    requires Run(states, events) && i < |states|
    ensures Inv(states[i])
    ensures states[i].validateFailures <= states[i].downgrades + 1
    ensures states[i].setFailures == 0
    ensures states[i].check == Validated || states[i].notNull ==> NoNulls(states[i].edges)
  {
    if i > 0 {
      RunInvariant(states, events, i - 1);
      StepKeepsInv(states[i - 1], events[i - 1]);
    }
  }

  lemma StepFrame(s: State, e: Event)
    ensures e != Downgrade && s.check != Absent ==> Apply(s, e).check != Absent
    ensures e != Begin ==> Apply(s, e).guarded == s.guarded
  {
  }

  lemma StepOf(states: seq<State>, events: seq<Event>, i: nat)
    requires Run(states, events) && i < |events|
    ensures Enabled(states[i], events[i]) && states[i + 1] == Apply(states[i], events[i])
  {
  }

  predicate KeepsCheck(s: State, s': State) {
    s.check != Absent ==> s'.check != Absent
  }

  lemma {:induction false} CheckChain(states: seq<State>, i: nat, j: nat)
    requires i <= j < |states| && states[i].check != Absent
    requires forall k :: i <= k < j ==> KeepsCheck(states[k], states[k + 1])
    ensures states[j].check != Absent
  {
    if i < j {
      CheckChain(states, i, j - 1);
      assert KeepsCheck(states[j - 1], states[j - 1 + 1]);
    }
  }

  /** Once committed, the CHECK stays, in one form or another, until a downgrade. */
  lemma CheckStays(states: seq<State>, events: seq<Event>, i: nat, j: nat)
    requires Run(states, events) && i <= j < |states|
    requires states[i].check != Absent
    requires forall k :: i <= k < j ==> events[k] != Downgrade
    ensures states[j].check != Absent
  {
    forall k | i <= k < j ensures KeepsCheck(states[k], states[k + 1]) {
      StepOf(states, events, k);
      StepFrame(states[k], events[k]);
    }
    CheckChain(states, i, j);
  }

  predicate KeepsGuard(s: State, s': State) {
    s'.guarded == s.guarded
  }

  lemma {:induction false} GuardChain(states: seq<State>, i: nat, j: nat)
    requires i <= j < |states|
    requires forall k :: i <= k < j ==> KeepsGuard(states[k], states[k + 1])
    ensures states[j].guarded == states[i].guarded
  {
    if i < j {
      GuardChain(states, i, j - 1);
      assert KeepsGuard(states[j - 1], states[j - 1 + 1]);
    }
  }

  lemma GuardStays(states: seq<State>, events: seq<Event>, i: nat, j: nat)
    requires Run(states, events) && i <= j < |states|
    requires forall k :: i <= k < j ==> events[k] != Begin
    ensures states[j].guarded == states[i].guarded
  {
    forall k | i <= k < j ensures KeepsGuard(states[k], states[k + 1]) {
      StepOf(states, events, k);
      StepFrame(states[k], events[k]);
    }
    GuardChain(states, i, j);
  }

  /** Theorem: once some attempt has committed its CHECK (`c`), every later attempt (begun at `b`) that
      reaches VALIDATE (`v`) has it succeed, whatever other sessions, crashes and re-runs happened. */
  lemma LaterAttemptSucceeds(states: seq<State>, events: seq<Event>, c: nat, b: nat, v: nat)
    requires Run(states, events) && c < b < v < |events|
    requires events[c] == Commit && events[b] == Begin && events[v] == Validate
    requires forall k :: c <= k < b ==> events[k] != Downgrade
    requires forall k :: b < k < v ==> events[k] != Begin
    ensures states[v + 1].check == Validated && states[v + 1].point == Proved
    ensures states[v + 1].validateFailures == states[v].validateFailures
  {
    CheckStays(states, events, c + 1, b);
    GuardStays(states, events, b + 1, v);
    RunInvariant(states, events, v);
  }

  /** Theorem: SET NOT NULL succeeds whenever it is reached. */
  lemma SetNotNullSucceeds(states: seq<State>, events: seq<Event>, i: nat)
    requires Run(states, events) && i < |events| && events[i] == SetNotNull
    ensures states[i + 1].notNull && states[i + 1].point == Idle
  {
    RunInvariant(states, events, i);
  }

  // ---------------------------------------------------------------- quiet attempts, and the one failure

  /** Without other sessions, the statements up to the first commit compute exactly the data repair. */
  lemma QuietAttempt(s: State)
    requires s.point == Idle && s.fills == map[] && s.drops == {}
    ensures var s' := Apply(Apply(Apply(Apply(Apply(Apply(s, Begin), Fill), Count), Drop), Alter), Commit);
            s'.edges == B03Data(s.memories, s.edges) && s'.check == NotValid && s'.point == Committed
  {
    var s1 := Apply(Apply(s, Begin), Fill);
    assert Mine(s1) == Backfill(s.memories, s.edges);
    var s2 := Apply(s1, Count);
    assert Mine(s2) == Mine(s1);
    var s3 := Apply(s2, Drop);
    if s2.point == Counted(true) {
      assert s3.drops == Nulls(Mine(s1));
    } else {
      assert forall i :: i in Mine(s1) ==> i !in Nulls(Mine(s1));
    }
    assert Mine(s3) == B03Data(s.memories, s.edges);
    assert Mine(Apply(s3, Alter)) == Mine(s3);
  }

  /** The bound is sharp: an edge with a NULL context written between the DELETE and the ALTER of a
      first attempt makes its VALIDATE fail. */
  lemma OneFailureIsPossible(s: State, e: Edge)
    requires Init(s) && s.edges == map[] && HasNull(e)
    ensures var s1 := Apply(Apply(Apply(Apply(s, Begin), Fill), Count), Drop);
            && Enabled(s1, Write(0, e))
            && var s2 := Apply(Apply(Apply(s1, Write(0, e)), Alter), Commit);
            Enabled(s2, Validate) && Apply(s2, Validate).validateFailures == 1
  {
    QuietStart(s);
    var s1 := Apply(Apply(Apply(Apply(s, Begin), Fill), Count), Drop);
    var s2 := Apply(Apply(s1, Write(0, e)), Alter);
    assert Mine(s2)[0] == e;
    assert Apply(s2, Commit).edges[0] == e;
  }

  lemma QuietStart(s: State)
    requires Init(s) && s.edges == map[]
    ensures var s1 := Apply(Apply(Apply(Apply(s, Begin), Fill), Count), Drop);
            s1 == s.(point := Dropped, guarded := false)
  {
    var s1 := Apply(Apply(s, Begin), Fill);
    assert s1.fills == map[] && Mine(s1) == map[];
    assert Nulls(Mine(s1)) == {};
  }
}
