/**
  The check before a hard delete is exact: it passes if and only if, whoever wrote the rows, tenancy holds at every
  moment of every history after the delete.
*/
module ResourceHardDelete {
  import opened Sql
  import opened ResourceTables
  import opened ResourceRekeying
  import opened ResourceHistory

  /** The same columns; the writers, which no column records, may be others. */
  predicate SameColumns(before: Rows, after: Rows) {
    after.Keys == before.Keys && forall k :: k in before ==> after[k].(writer := before[k].writer) == before[k]
  }

  predicate Indistinguishable(t: Tables, u: Tables) {
    && u.contexts == t.contexts && u.resources == t.resources
    && SameColumns(t.events, u.events) && SameColumns(t.schemas, u.schemas)
    && SameColumns(t.indexer, u.indexer) && SameColumns(t.tokens, u.tokens)
  }

  predicate Continues(s: State, states: seq<State>, events: seq<Event>) {
    && |states| == |events| + 1 && states[0] == s
    && forall i :: 0 <= i < |events| ==> Step(events[i], states[i], states[i + 1])
  }

  function Deleted(u: Tables, phase: Phase, w: WorkspaceId): State {
    State(WithoutWorkspace(u, w), phase)
  }

  /** Whoever wrote the rows, no later moment has a key outside its writer's workspace. */
  ghost predicate SafeToDelete(s: State, w: WorkspaceId) {
    forall u: Tables, states: seq<State>, events: seq<Event> ::
      Indistinguishable(s.tables, u) && Inv(State(u, s.phase)) && Continues(Deleted(u, s.phase, w), states, events) ==>
        Correct(states[|events|].tables)
  }

  // ---------------------------------------------------------------- the check is enough

  lemma {:induction false} ContinuesKeepsInv(s: State, states: seq<State>, events: seq<Event>, i: nat)
    requires Inv(s) && Continues(s, states, events) && i <= |events|
    ensures Inv(states[i])
  {
    if i > 0 {
      ContinuesKeepsInv(s, states, events, i - 1);
      StepKeepsInv(events[i - 1], states[i - 1], states[i]);
    }
  }

  lemma CheckIsEnough(s: State, w: WorkspaceId)
    requires NothingStranded(s.tables, w)
    ensures SafeToDelete(s, w)
  {
    forall u: Tables, states: seq<State>, events: seq<Event> |
      Indistinguishable(s.tables, u) && Inv(State(u, s.phase)) && Continues(Deleted(u, s.phase, w), states, events)
      ensures Correct(states[|events|].tables)
    {
      assert NothingStranded(u, w);
      HardDeleteKeepsInv(State(u, s.phase), Deleted(u, s.phase, w), w);
      ContinuesKeepsInv(Deleted(u, s.phase, w), states, events, |events|);
    }
  }

  // ---------------------------------------------------------------- the check is needed

  /** A row without keys of a workspace without contexts. */
  predicate Homeless(t: Tables, w: WorkspaceId, table: Table, k: RowId) {
    && table != Indexer && k in RowsOf(t, table) && RowsOf(t, table)[k].writer == w
    && RowsOf(t, table)[k].pk.None? && RowsOf(t, table)[k].workspace.None? && RowsOf(t, table)[k].context.None?
    && forall c :: c in t.contexts ==> t.contexts[c].workspace != w
  }

  /** And at most one other workspace has its slug. */
  predicate Exposed(s: State, w: WorkspaceId, table: Table, k: RowId) {
    && Homeless(s.tables, w, table, k) && !Contested(s.tables.contexts, RowsOf(s.tables, table)[k].slug)
    && (s.phase == Legacy ==> s.tables.resources == map[])
  }

  /** The exposed row is all that is left beside the contexts. */
  predicate Alone(t: Tables, table: Table, k: RowId) {
    t.resources == map[] && forall other, j :: j in RowsOf(t, other) ==> other == table && j == k
  }

  /** All contexts with the slug, and an active one among them, belong to the workspace. */
  predicate TakenOver(contexts: map<ContextId, Context>, slug: Slug, w: WorkspaceId) {
    && (exists c :: c in contexts && contexts[c] == Context(w, Some(slug), false))
    && forall c :: c in contexts && contexts[c].slug == Some(slug) ==> contexts[c].workspace == w
  }

  lemma Prepend(e: Event, s: State, s': State, states: seq<State>, events: seq<Event>)
    requires Step(e, s, s') && Continues(s', states, events)
    ensures Continues(s, [s] + states, [e] + events)
    ensures ([s] + states)[|[e] + events|] == states[|events|]
  {
    var ss, es := [s] + states, [e] + events;
    forall i | 0 <= i < |es| ensures Step(es[i], ss[i], ss[i + 1]) {
      if i > 0 { assert Step(events[i - 1], states[i - 1], states[i]); }
    }
  }

  /** Any set of pairs can be seeded. */
  lemma {:induction false} Seeds(pairs: set<Resource>) returns (resources: map<ResourceId, Resource>)
    ensures Pairs(resources) == pairs && Unique(resources)
    ensures forall r :: r in resources ==> r < |pairs|
    decreases pairs
  {
    if pairs == {} {
      resources := map[];
    } else {
      var pair :| pair in pairs;
      var fewer := Seeds(pairs - {pair});
      resources := fewer[|pairs - {pair}| := pair];
      PairInserted(fewer, resources, |pairs - {pair}|, pair);
      StillUnique(fewer, |pairs - {pair}|, pair);
    }
  }

  lemma StillUnique(before: map<ResourceId, Resource>, r: ResourceId, pair: Resource)
    requires Unique(before) && pair !in Pairs(before)
    ensures Unique(before[r := pair])
  {
    forall q | q in before ensures before[q] != pair { assert before[q] in Pairs(before); }
  }

  lemma {:induction false} FreshId(ids: set<nat>) returns (n: nat)
    ensures forall i :: i in ids ==> i < n
    decreases ids
  {
    n := 0;
    if ids != {} {
      var i :| i in ids;
      var m := FreshId(ids - {i});
      n := if m > i then m else i + 1;
      assert forall j :: j in ids ==> j == i || j in ids - {i};
    }
  }

  /** A slug in one hand is no ambiguous slug. */
  lemma OneHolder(contexts: map<ContextId, Context>, activeOnly: bool, resources: map<ResourceId, Resource>, slug: Slug,
                  w: WorkspaceId)
    requires TakenOver(contexts, slug, w) && Unique(resources) && Pairs(resources) == Wanted(contexts, activeOnly)
    ensures forall r :: r in resources && resources[r].slug == slug ==> resources[r].workspace == w
    ensures !AmbiguousSlug(resources, slug)
    ensures exists r :: r in resources && resources[r] == Resource(w, slug)
  {
    forall r | r in resources && resources[r].slug == slug ensures resources[r] == Resource(w, slug) {
      assert resources[r] in Pairs(resources);
      var c :| c in contexts && contexts[c].slug.Some?
               && resources[r] == Resource(contexts[c].workspace, contexts[c].slug.value);
    }
    var c :| c in contexts && contexts[c] == Context(w, Some(slug), false);
    assert contexts[c].slug.Some? && Resource(w, slug) in Wanted(contexts, activeOnly);
    var r := PairsHas(resources, Resource(w, slug));
  }

  /** What the next upgrade makes of the row. */
  function Rehomed(table: Table, row: Satellite, r: ResourceId, w: WorkspaceId): Satellite {
    if table == Tokens then row.(pk := Some(r), workspace := Some(w)) else row.(pk := Some(r))
  }

  function Emptied(contexts: map<ContextId, Context>, resources: map<ResourceId, Resource>): Tables {
    Tables(contexts, resources, map[], map[], map[], map[])
  }

  lemma AloneIs(t: Tables, table: Table, k: RowId)
    requires Alone(t, table, k) && k in RowsOf(t, table)
    ensures t == WithRows(Emptied(t.contexts, map[]), table, map[k := RowsOf(t, table)[k]])
  {
    assert RowsOf(t, table) == map[k := RowsOf(t, table)[k]];
    assert forall other, j :: other != table ==> j !in RowsOf(t, other);
    assert forall other :: other != table ==> RowsOf(t, other) == map[];
    assert t.events == RowsOf(t, Events) && t.schemas == RowsOf(t, Schemas);
    assert t.indexer == RowsOf(t, Indexer) && t.tokens == RowsOf(t, Tokens);
  }

  lemma RehomedIsFilled(s: Tables, table: Table, k: RowId, row: Satellite, r: ResourceId)
    requires r in s.resources && s.resources[r].slug == row.slug && row.pk.None? && row.workspace.None?
    ensures var before, after := map[k := row], map[k := Rehomed(table, row, r, s.resources[r].workspace)];
            FilledBySlug(s, table, before, after)
  {
    assert r in Candidates(s, row, BySlug) && r in Candidates(s, row, ByWorkspaceOrSlug);
  }

  /** What the next upgrade can leave: the row with the slug's new owner. */
  lemma NextTables(t: Tables, w: WorkspaceId, owner: WorkspaceId, table: Table, k: RowId, activeOnly: bool)
    returns (t': Tables)
    requires Homeless(t, w, table, k) && TakenOver(t.contexts, RowsOf(t, table)[k].slug, owner) && owner != w
    ensures t' == WithRows(Emptied(t.contexts, t'.resources), table, RowsOf(t', table))
    ensures Seeded(t.contexts, activeOnly, map[], t'.resources)
    ensures !AmbiguousSlug(t'.resources, RowsOf(t, table)[k].slug)
    ensures FilledBySlug(Reseeded(t, t'.resources), table, map[k := RowsOf(t, table)[k]], RowsOf(t', table))
    ensures forall j :: j in RowsOf(t', table) ==> RowsOf(t', table)[j].pk.Some?
    ensures !Correct(t')
  {
    var row := RowsOf(t, table)[k];
    var resources := Seeds(Wanted(t.contexts, activeOnly));
    OneHolder(t.contexts, activeOnly, resources, row.slug, owner);
    var r :| r in resources && resources[r] == Resource(owner, row.slug);
    t' := WithRows(Emptied(t.contexts, resources), table, map[k := Rehomed(table, row, r, owner)]);
    RehomedIsFilled(Reseeded(t, resources), table, k, row, r);
    assert Pairs(map[]) == {};
    assert k in RowsOf(t', table) && !RowCorrect(resources, RowsOf(t', table)[k]);
  }

  predicate FilledBySlug(s: Tables, table: Table, before: Rows, after: Rows) {
    if table == Tokens then TokensFilled(s, before, after) else Filled(s, before, after, BySlug)
  }

  /** The upgrade that is next runs to its end and gives the row to the slug's new owner. */
  lemma NextUpgrade(s: State, w: WorkspaceId, owner: WorkspaceId, table: Table, k: RowId)
    returns (e: Event, s': State)
    requires Exposed(s, w, table, k) && Alone(s.tables, table, k) && owner != w
    requires TakenOver(s.tables.contexts, RowsOf(s.tables, table)[k].slug, owner)
    ensures Step(e, s, s') && !Correct(s'.tables)
  {
    var t' := NextTables(s.tables, w, owner, table, k, s.phase == Legacy);
    if s.phase == Legacy {
      AloneA97(s.tables, t', table, k);
      e, s' := RunA97, State(t', Shadow);
    } else {
      AloneB01(s.tables, t', table, k);
      e, s' := RunB01, State(t', Keyed);
    }
  }

  lemma AloneB01(t: Tables, t': Tables, table: Table, k: RowId)
    requires table != Indexer && Alone(t, table, k) && k in RowsOf(t, table)
    requires t' == WithRows(Emptied(t.contexts, t'.resources), table, RowsOf(t', table))
    requires Seeded(t.contexts, false, map[], t'.resources)
    requires !AmbiguousSlug(t'.resources, RowsOf(t, table)[k].slug)
    requires FilledBySlug(Reseeded(t, t'.resources), table, map[k := RowsOf(t, table)[k]], RowsOf(t', table))
    ensures B01(t, t')
  {
    AloneIs(t, table, k);
  }

  lemma AloneA97(t: Tables, t': Tables, table: Table, k: RowId)
    requires table != Indexer && Alone(t, table, k) && k in RowsOf(t, table)
    requires t' == WithRows(Emptied(t.contexts, t'.resources), table, RowsOf(t', table))
    requires Seeded(t.contexts, true, map[], t'.resources)
    requires OneOwner(t.contexts, RowsOf(t, table)[k].slug)
    requires FilledBySlug(Reseeded(t, t'.resources), table, map[k := RowsOf(t, table)[k]], RowsOf(t', table))
    requires forall j :: j in RowsOf(t', table) ==> RowsOf(t', table)[j].pk.Some?
    ensures A97(t, t')
  {
    AloneIs(t, table, k);
  }

  /** If nobody else has a context with the slug, somebody creates one; a deleted one is restored. No second active
      context gets the slug. */
  lemma TakeOver(s: State, w: WorkspaceId, table: Table, k: RowId)
    returns (states: seq<State>, events: seq<Event>)
    requires Exposed(s, w, table, k) && Alone(s.tables, table, k)
    ensures Continues(s, states, events) && !Correct(states[|events|].tables)
  {
    var contexts, slug := s.tables.contexts, RowsOf(s.tables, table)[k].slug;
    if c :| c in contexts && contexts[c].slug == Some(slug) && !contexts[c].deleted {
      assert contexts[c] == Context(contexts[c].workspace, Some(slug), false);
      var e, s' := NextUpgrade(s, w, contexts[c].workspace, table, k);
      states, events := [s, s'], [e];
    } else {
      var e, s', owner := Activate(s, w, slug);
      assert forall other :: RowsOf(s'.tables, other) == RowsOf(s.tables, other);
      var next, last := NextUpgrade(s', w, owner, table, k);
      states, events := [s, s', last], [e, next];
    }
  }

  lemma Activate(s: State, w: WorkspaceId, slug: Slug) returns (e: Event, s': State, owner: WorkspaceId)
    requires forall c :: c in s.tables.contexts ==> s.tables.contexts[c].workspace != w
    requires !Contested(s.tables.contexts, slug)
    ensures Step(e, s, s') && s' == s.(tables := s.tables.(contexts := s'.tables.contexts))
    ensures owner != w && TakenOver(s'.tables.contexts, slug, owner) && !Contested(s'.tables.contexts, slug)
    ensures forall c :: c in s'.tables.contexts ==> s'.tables.contexts[c].workspace != w
  {
    var contexts := s.tables.contexts;
    var c: ContextId, context;
    if d :| d in contexts && contexts[d].slug == Some(slug) {
      c, context := d, contexts[d].(deleted := false);
      e := Restore(c);
    } else {
      c := FreshId(contexts.Keys);
      context := Context(w + 1, Some(slug), false);
      e := CreateContext(c, context);
    }
    owner, s' := context.workspace, s.(tables := s.tables.(contexts := contexts[c := context]));
    assert s'.tables.contexts[c] == Context(owner, Some(slug), false);
  }

  function RowCount(t: Tables): nat {
    |t.events| + |t.schemas| + |t.indexer| + |t.tokens|
  }

  lemma FewerRows(t: Tables, table: Table, j: RowId)
    requires j in RowsOf(t, table)
    ensures RowCount(WithRows(t, table, RowsOf(t, table) - {j})) < RowCount(t)
  {
    var rows := RowsOf(t, table);
    assert rows.Keys == (rows - {j}).Keys + {j};
    assert |rows - {j}| == |(rows - {j}).Keys| && |rows| == |rows.Keys|;
  }

  /** Other rows and resources may go, one by one, until the next upgrade finds nothing to stop at. */
  lemma {:induction false} Doomed(s: State, w: WorkspaceId, table: Table, k: RowId)
    returns (states: seq<State>, events: seq<Event>)
    requires Exposed(s, w, table, k)
    ensures Continues(s, states, events) && !Correct(states[|events|].tables)
    decreases |s.tables.resources|, RowCount(s.tables)
  {
    var t := s.tables;
    if Alone(t, table, k) {
      states, events := TakeOver(s, w, table, k);
    } else {
      var e, s' := OneLess(s, w, table, k);
      states, events := Doomed(s', w, table, k);
      Prepend(e, s, s', states, events);
      states, events := [s] + states, [e] + events;
    }
  }

  lemma OneLess(s: State, w: WorkspaceId, table: Table, k: RowId) returns (e: Event, s': State)
    requires Exposed(s, w, table, k) && !Alone(s.tables, table, k)
    ensures Step(e, s, s') && Exposed(s', w, table, k)
    ensures |s'.tables.resources| <= |s.tables.resources|
    ensures |s'.tables.resources| == |s.tables.resources| ==> RowCount(s'.tables) < RowCount(s.tables)
  {
    var t := s.tables;
    if t.resources != map[] {
      var r :| r in t.resources;
      e, s' := DropResource(r), WithoutResource(s, r);
      OneLessResource(s, w, table, k, r);
    } else {
      var other, j :| j in RowsOf(t, other) && (other != table || j != k);
      e, s' := DeleteRow(other, j), WithoutRow(s, other, j);
      OneLessRow(s, w, table, k, other, j);
    }
  }

  lemma OneLessResource(s: State, w: WorkspaceId, table: Table, k: RowId, r: ResourceId)
    requires Exposed(s, w, table, k) && r in s.tables.resources
    ensures Step(DropResource(r), s, WithoutResource(s, r)) && Exposed(WithoutResource(s, r), w, table, k)
    ensures |WithoutResource(s, r).tables.resources| < |s.tables.resources|
  {
    FewerResources(s.tables.resources, r);
    assert RowsOf(WithoutResource(s, r).tables, table) == Cascade(RowsOf(s.tables, table), r);
    StillExposed(s, WithoutResource(s, r), w, table, k);
  }

  lemma OneLessRow(s: State, w: WorkspaceId, table: Table, k: RowId, other: Table, j: RowId)
    requires Exposed(s, w, table, k) && j in RowsOf(s.tables, other) && (other != table || j != k)
    ensures Step(DeleteRow(other, j), s, WithoutRow(s, other, j)) && Exposed(WithoutRow(s, other, j), w, table, k)
    ensures RowCount(WithoutRow(s, other, j).tables) < RowCount(s.tables)
    ensures WithoutRow(s, other, j).tables.resources == s.tables.resources
  {
    FewerRows(s.tables, other, j);
    StillExposed(s, WithoutRow(s, other, j), w, table, k);
  }

  lemma StillExposed(s: State, s': State, w: WorkspaceId, table: Table, k: RowId)
    requires Exposed(s, w, table, k) && s'.tables.contexts == s.tables.contexts && s'.phase == s.phase
    requires k in RowsOf(s'.tables, table) && RowsOf(s'.tables, table)[k] == RowsOf(s.tables, table)[k]
    requires s.tables.resources == map[] ==> s'.tables.resources == map[]
    ensures Exposed(s', w, table, k)
  {
  }

  function WithoutResource(s: State, r: ResourceId): State {
    var t := s.tables;
    s.(tables := t.(resources := t.resources - {r},
                    events := Cascade(t.events, r), schemas := Cascade(t.schemas, r),
                    indexer := Cascade(t.indexer, r), tokens := Cascade(t.tokens, r)))
  }

  function WithoutRow(s: State, table: Table, j: RowId): State {
    s.(tables := WithRows(s.tables, table, RowsOf(s.tables, table) - {j}))
  }

  lemma FewerResources(resources: map<ResourceId, Resource>, r: ResourceId)
    requires r in resources
    ensures |resources - {r}| < |resources|
  {
    assert resources.Keys == (resources - {r}).Keys + {r};
    assert |resources - {r}| == |(resources - {r}).Keys| && |resources| == |resources.Keys|;
  }

  function WrittenBy(t: Tables, table: Table, k: RowId, w: WorkspaceId): Tables
    requires k in RowsOf(t, table)
  {
    WithRows(t, table, RowsOf(t, table)[k := RowsOf(t, table)[k].(writer := w)])
  }

  /** If the check fails at a row, the workspace itself may have written it. */
  lemma MayBeItsOwn(s: State, w: WorkspaceId, table: Table, k: RowId)
    requires Inv(s) && table != Indexer && k in RowsOf(s.tables, table)
    requires RowsOf(s.tables, table)[k].pk.None? && RowsOf(s.tables, table)[k].workspace.None?
    requires Resource(w, RowsOf(s.tables, table)[k].slug) in Wanted(s.tables.contexts, false)
    ensures Indistinguishable(s.tables, WrittenBy(s.tables, table, k, w))
    ensures Inv(State(WrittenBy(s.tables, table, k, w), s.phase))
  {
    var t := s.tables;
    var row, rows := RowsOf(t, table)[k], RowsOf(t, table)[k := RowsOf(t, table)[k].(writer := w)];
    SettledAs(t.contexts, table, row, w);
    OneTableInv(s, table, rows);
    OneTableColumns(t, table, rows);
  }

  lemma OneTableColumns(t: Tables, table: Table, rows: Rows)
    requires SameColumns(RowsOf(t, table), rows)
    ensures Indistinguishable(t, WithRows(t, table, rows))
  {
  }

  lemma OneTableInv(s: State, table: Table, rows: Rows)
    requires Inv(s) && RowsCorrect(s.tables.resources, rows) && RowsSettled(s.tables.contexts, table, rows)
    requires RowsBare(RowsOf(s.tables, table)) ==> RowsBare(rows)
    ensures Inv(State(WithRows(s.tables, table, rows), s.phase))
  {
  }

  lemma SettledAs(contexts: map<ContextId, Context>, table: Table, row: Satellite, w: WorkspaceId)
    requires Settled(contexts, table, row) && table != Indexer && row.workspace.None?
    requires Resource(w, row.slug) in Wanted(contexts, false)
    ensures Settled(contexts, table, row.(writer := w))
  {
  }

  lemma CheckIsNeeded(s: State, w: WorkspaceId, table: Table)
    requires Inv(s) && table != Indexer && !NoneStranded(s.tables.contexts, RowsOf(s.tables, table), w)
    ensures !SafeToDelete(s, w)
  {
    var t, rows := s.tables, RowsOf(s.tables, table);
    var k :| k in rows && rows[k].pk.None? && rows[k].workspace.None?
             && Resource(w, rows[k].slug) in Wanted(t.contexts, false)
             && !Contested(Others(t.contexts, w), rows[k].slug);
    var u := WrittenBy(t, table, k, w);
    MayBeItsOwn(s, w, table, k);
    assert Settled(t.contexts, table, rows[k]);
    assert RowsOf(WithoutWorkspace(u, w), table)[k] == rows[k].(writer := w);
    var states, events := Doomed(Deleted(u, s.phase, w), w, table, k);
  }

  /** Theorem: the columns rule out a key outside its writer's workspace, now and later, exactly if the check passes. */
  lemma CheckIsExact(s: State, w: WorkspaceId)
    requires Inv(s)
    ensures NothingStranded(s.tables, w) <==> SafeToDelete(s, w)
  {
    if NothingStranded(s.tables, w) {
      CheckIsEnough(s, w);
    } else if !NoneStranded(s.tables.contexts, s.tables.events, w) {
      CheckIsNeeded(s, w, Events);
    } else if !NoneStranded(s.tables.contexts, s.tables.schemas, w) {
      CheckIsNeeded(s, w, Schemas);
    } else {
      CheckIsNeeded(s, w, Tokens);
    }
  }
}
