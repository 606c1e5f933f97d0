/**
  Histories: contexts are created, soft-deleted and restored, slugs pass from one workspace to
  another, old and new writers add satellite rows, and the two upgrades run somewhere in between.
*/
module ResourceHistory {
  import opened Sql
  import opened ResourceTables
  import opened ResourceRekeying

  /** Before `a97`, between `a97` and `b01`, after `b01`. */
  datatype Phase = Legacy | Shadow | Keyed

  datatype State = State(tables: Tables, phase: Phase)

  datatype Table = Events | Schemas | Indexer | Tokens

  datatype Event =
    | CreateContext(c: ContextId, context: Context)
    | SoftDelete(c: ContextId)
    | Restore(c: ContextId)
    | WriteRow(table: Table, k: RowId, row: Satellite)
    | DeleteRow(table: Table, k: RowId)
    | AddResource(r: ResourceId, pair: Resource)
    | DropResource(r: ResourceId)
    | HardDelete(w: WorkspaceId)
    | RunA97
    | RunB01
    | UpgradeAborted

  function RowsOf(t: Tables, table: Table): Rows {
    match table
    case Events => t.events
    case Schemas => t.schemas
    case Indexer => t.indexer
    case Tokens => t.tokens
  }

  function WithRows(t: Tables, table: Table, rows: Rows): Tables {
    match table
    case Events => t.(events := rows)
    case Schemas => t.(schemas := rows)
    case Indexer => t.(indexer := rows)
    case Tokens => t.(tokens := rows)
  }

  /** The writer's workspace has, or once had, a context with the row's slug. */
  predicate Rooted(contexts: map<ContextId, Context>, table: Table, row: Satellite) {
    && Resource(row.writer, row.slug) in Wanted(contexts, false)
    && (if table == Indexer
        then row.context.Some? && row.context.value in contexts
             && contexts[row.context.value].workspace == row.writer
             && contexts[row.context.value].slug == Some(row.slug)
        else row.context.None?)
    && (table != Tokens ==> row.workspace.None?)
  }

  /** Old writers leave the shadow columns NULL; new ones may set them, to their own workspace. */
  predicate MayWrite(s: State, table: Table, row: Satellite) {
    && Rooted(s.tables.contexts, table, row)
    && (row.pk.Some? ==> s.phase != Legacy && row.pk.value in s.tables.resources
                         && s.tables.resources[row.pk.value] == Resource(row.writer, row.slug))
    && (row.workspace.Some? ==> s.phase != Legacy && row.workspace.value == row.writer)
  }

  /** ON DELETE CASCADE from `resources`. */
  function Cascade(rows: Rows, r: ResourceId): Rows {
    map k | k in rows && rows[k].pk != Some(r) :: rows[k]
  }

  /** Hard-deleting a workspace: its contexts and resources go, and with them what references them. */
  function WithoutWorkspace(t: Tables, w: WorkspaceId): Tables {
    var contexts := Others(t.contexts, w);
    var resources := map r | r in t.resources && t.resources[r].workspace != w :: t.resources[r];
    Tables(contexts, resources,
           Referencing(t.events, contexts, resources, w), Referencing(t.schemas, contexts, resources, w),
           Referencing(t.indexer, contexts, resources, w), Referencing(t.tokens, contexts, resources, w))
  }

  function Referencing(rows: Rows, contexts: map<ContextId, Context>, resources: map<ResourceId, Resource>,
                       w: WorkspaceId): Rows {
    map k | k in rows && (rows[k].pk.Some? ==> rows[k].pk.value in resources)
            && (rows[k].context.Some? ==> rows[k].context.value in contexts) && rows[k].workspace != Some(w)
      :: rows[k]
  }

  /** What the operator can check before a hard delete: whenever an event, schema or token that has neither key nor
      workspace carries a slug of one of the workspace's contexts, deleted or not, two other workspaces have contexts
      with that slug. */
  predicate NothingStranded(t: Tables, w: WorkspaceId) {
    && NoneStranded(t.contexts, t.events, w) && NoneStranded(t.contexts, t.schemas, w)
    && NoneStranded(t.contexts, t.tokens, w)
  }

  predicate NoneStranded(contexts: map<ContextId, Context>, rows: Rows, w: WorkspaceId) {
    forall k :: k in rows && rows[k].pk.None? && rows[k].workspace.None? ==>
      Resource(w, rows[k].slug) in Wanted(contexts, false) ==> Contested(Others(contexts, w), rows[k].slug)
  }

  /** The contexts that stay when a workspace goes. */
  function Others(contexts: map<ContextId, Context>, w: WorkspaceId): map<ContextId, Context> {
    map c | c in contexts && contexts[c].workspace != w :: contexts[c]
  }

  /** Two workspaces have contexts with the slug. */
  predicate Contested(contexts: map<ContextId, Context>, slug: Slug) {
    !OneOwner(contexts, slug)
  }

  predicate Step(e: Event, s: State, s': State) {
    var t := s.tables;
    match e
    case CreateContext(c, context) =>
      c !in t.contexts && s' == s.(tables := t.(contexts := t.contexts[c := context]))
    case SoftDelete(c) =>
      c in t.contexts && s' == s.(tables := t.(contexts := t.contexts[c := t.contexts[c].(deleted := true)]))
    case Restore(c) =>
      c in t.contexts && s' == s.(tables := t.(contexts := t.contexts[c := t.contexts[c].(deleted := false)]))
    case WriteRow(table, k, row) =>
      k !in RowsOf(t, table) && MayWrite(s, table, row)
      && s' == s.(tables := WithRows(t, table, RowsOf(t, table)[k := row]))
    case DeleteRow(table, k) =>
      s' == s.(tables := WithRows(t, table, RowsOf(t, table) - {k}))
    case AddResource(r, pair) =>
      s.phase != Legacy && r !in t.resources && pair !in Pairs(t.resources)
      && s' == s.(tables := t.(resources := t.resources[r := pair]))
    case DropResource(r) =>
      s' == s.(tables := t.(resources := t.resources - {r},
                            events := Cascade(t.events, r), schemas := Cascade(t.schemas, r),
                            indexer := Cascade(t.indexer, r), tokens := Cascade(t.tokens, r)))
    case HardDelete(w) => NothingStranded(t, w) && s' == s.(tables := WithoutWorkspace(t, w))
    case RunA97 => s.phase == Legacy && s'.phase == Shadow && A97(t, s'.tables)
    case RunB01 => s.phase != Legacy && s'.phase == Keyed && B01(t, s'.tables)
    case UpgradeAborted => s' == s
  }

  predicate RowsRooted(contexts: map<ContextId, Context>, table: Table, rows: Rows) {
    forall k :: k in rows ==> Rooted(contexts, table, rows[k])
  }

  predicate RowsBare(rows: Rows) {
    forall k :: k in rows ==> rows[k].pk.None? && rows[k].workspace.None?
  }

  /** Without `a97` there is no `resources` table and no shadow column. */
  predicate NoKeys(t: Tables) {
    t.resources == map[] && RowsBare(t.events) && RowsBare(t.schemas) && RowsBare(t.indexer) && RowsBare(t.tokens)
  }

  predicate AllRooted(t: Tables) {
    && RowsRooted(t.contexts, Events, t.events) && RowsRooted(t.contexts, Schemas, t.schemas)
    && RowsRooted(t.contexts, Indexer, t.indexer) && RowsRooted(t.contexts, Tokens, t.tokens)
  }

  /** The row's writer has, or had, a context with its slug, or the row waits in a dispute that no upgrade decides. */
  predicate Settled(contexts: map<ContextId, Context>, table: Table, row: Satellite) {
    || Rooted(contexts, table, row)
    || (table != Indexer && row.context.None? && row.workspace.None? && row.pk.None? && Contested(contexts, row.slug))
  }

  predicate RowsSettled(contexts: map<ContextId, Context>, table: Table, rows: Rows) {
    forall k :: k in rows ==> Settled(contexts, table, rows[k])
  }

  predicate AllSettled(t: Tables) {
    && RowsSettled(t.contexts, Events, t.events) && RowsSettled(t.contexts, Schemas, t.schemas)
    && RowsSettled(t.contexts, Indexer, t.indexer) && RowsSettled(t.contexts, Tokens, t.tokens)
  }

  predicate Init(s: State) {
    s.phase == Legacy && AllRooted(s.tables) && NoKeys(s.tables)
  }

  predicate Inv(s: State) {
    && Unique(s.tables.resources) && Correct(s.tables) && AllSettled(s.tables)
    && (s.phase == Legacy ==> NoKeys(s.tables))
  }

  predicate Run(states: seq<State>, events: seq<Event>) {
    && |states| == |events| + 1 && Init(states[0])
    && forall i :: 0 <= i < |events| ==> Step(events[i], states[i], states[i + 1])
  }

  // ---------------------------------------------------------------- preservation, step by step

  lemma RootedIsSafe(t: Tables)
    requires AllRooted(t)
    ensures Shaped(t) && Safe(t)
  {
  }

  /** No context gets another workspace or slug. */
  predicate Grown(before: map<ContextId, Context>, after: map<ContextId, Context>) {
    forall c :: c in before ==>
      c in after && after[c].workspace == before[c].workspace && after[c].slug == before[c].slug
  }

  lemma SettledGrows(t: Tables, contexts: map<ContextId, Context>)
    requires AllSettled(t) && Grown(t.contexts, contexts)
    ensures AllSettled(t.(contexts := contexts))
  {
    forall pair | pair in Wanted(t.contexts, false) ensures pair in Wanted(contexts, false) {
      var c :| c in t.contexts && t.contexts[c].slug.Some?
               && pair == Resource(t.contexts[c].workspace, t.contexts[c].slug.value);
      assert contexts[c].slug.Some? && pair == Resource(contexts[c].workspace, contexts[c].slug.value);
    }
    forall slug | Contested(t.contexts, slug) ensures Contested(contexts, slug) {
      ContestedGrows(t.contexts, contexts, slug);
    }
  }

  lemma ContestedGrows(before: map<ContextId, Context>, after: map<ContextId, Context>, slug: Slug)
    requires Contested(before, slug) && Grown(before, after)
    ensures Contested(after, slug)
  {
    var c, d :| c in before && d in before && before[c].slug == Some(slug) && before[d].slug == Some(slug)
                && before[c].workspace != before[d].workspace;
    assert after[c].slug == Some(slug) && after[d].slug == Some(slug);
  }

  /** Filling keys and workspaces moves no row to another writer, slug or context. */
  predicate SameRoots(before: Rows, after: Rows) {
    && after.Keys == before.Keys
    && forall k :: k in before ==> after[k] == before[k].(pk := after[k].pk, workspace := after[k].workspace)
  }

  lemma UpgradeKeepsRoots(t: Tables, t': Tables)
    requires AllRooted(t) && t'.contexts == t.contexts
    requires SameRoots(t.events, t'.events) && SameRoots(t.schemas, t'.schemas)
    requires SameRoots(t.indexer, t'.indexer) && SameRoots(t.tokens, t'.tokens)
    requires forall k :: k in t'.events ==> t'.events[k].workspace == t.events[k].workspace
    requires forall k :: k in t'.schemas ==> t'.schemas[k].workspace == t.schemas[k].workspace
    requires forall k :: k in t'.indexer ==> t'.indexer[k].workspace == t.indexer[k].workspace
    ensures AllRooted(t')
  {
  }

  /** With one owner per satellite slug, a join by slug alone finds the writer's resource. */
  lemma SlugJoinIsTenantSafe(t: Tables, s: Tables, table: Table, k: RowId, r: ResourceId)
    requires k in RowsOf(t, table) && RowsRooted(t.contexts, table, RowsOf(t, table))
    requires OneOwnerPerSlug(t.contexts, RowsOf(t, table))
    requires Seeded(t.contexts, true, map[], s.resources)
    requires r in s.resources && s.resources[r].slug == RowsOf(t, table)[k].slug
    ensures s.resources[r].workspace == RowsOf(t, table)[k].writer
  {
    var row := RowsOf(t, table)[k];
    assert Rooted(t.contexts, table, row);
    assert s.resources[r] in Pairs(s.resources);
    var c :| c in t.contexts && t.contexts[c].slug.Some?
             && s.resources[r] == Resource(t.contexts[c].workspace, t.contexts[c].slug.value);
    var d :| d in t.contexts && t.contexts[d].slug.Some?
             && Resource(row.writer, row.slug) == Resource(t.contexts[d].workspace, t.contexts[d].slug.value);
  }

  lemma FilledKeepsRoots(s: Tables, before: Rows, after: Rows, join: Join)
    requires Filled(s, before, after, join)
    ensures SameRoots(before, after)
    ensures forall k :: k in after ==> after[k].workspace == before[k].workspace
  {
  }

  lemma TokensKeepRoots(s: Tables, before: Rows, after: Rows)
    requires TokensFilled(s, before, after)
    ensures SameRoots(before, after)
  {
  }

  lemma SlugFillCorrect(t: Tables, s: Tables, table: Table, after: Rows)
    requires RowsRooted(t.contexts, table, RowsOf(t, table)) && OneOwnerPerSlug(t.contexts, RowsOf(t, table))
    requires RowsBare(RowsOf(t, table))
    requires s == Reseeded(t, s.resources) && Seeded(t.contexts, true, map[], s.resources)
    requires if table == Tokens then TokensFilled(s, RowsOf(t, table), after)
             else Filled(s, RowsOf(t, table), after, BySlug)
    ensures RowsCorrect(s.resources, after)
  {
    forall k | k in after ensures RowCorrect(s.resources, after[k]) {
      if after[k].pk.Some? {
        KeyFromSlug(s, RowsOf(t, table)[k], after[k], table == Tokens);
        SlugJoinIsTenantSafe(t, s, table, k, after[k].pk.value);
      }
    }
  }

  /** A new key is that of a resource with the row's slug, and a new workspace is the resource's. */
  lemma KeyFromSlug(s: Tables, before: Satellite, after: Satellite, token: bool)
    requires before.pk.None? && before.workspace.None? && after.pk.Some?
    requires if token then RowFilled(before, before.(pk := after.pk), Candidates(s, before, ByWorkspaceOrSlug))
                           && after == WithWorkspace(s.resources, before.(pk := after.pk))
             else RowFilled(before, after, Candidates(s, before, BySlug))
    ensures after.pk.value in s.resources && s.resources[after.pk.value].slug == before.slug
    ensures after.writer == before.writer
    ensures after.workspace.Some? ==> after.workspace.value == s.resources[after.pk.value].workspace
  {
  }

  lemma A97EventsCorrect(t: Tables, t': Tables)
    requires AllRooted(t) && NoKeys(t) && A97(t, t')
    ensures RowsCorrect(t'.resources, t'.events)
  {
    SlugFillCorrect(t, Reseeded(t, t'.resources), Events, t'.events);
  }

  lemma A97SchemasCorrect(t: Tables, t': Tables)
    requires AllRooted(t) && NoKeys(t) && A97(t, t')
    ensures RowsCorrect(t'.resources, t'.schemas)
  {
    SlugFillCorrect(t, Reseeded(t, t'.resources), Schemas, t'.schemas);
  }

  lemma A97IndexerCorrect(t: Tables, t': Tables)
    requires AllRooted(t) && NoKeys(t) && A97(t, t')
    ensures RowsCorrect(t'.resources, t'.indexer)
  {
    SlugFillCorrect(t, Reseeded(t, t'.resources), Indexer, t'.indexer);
  }

  lemma A97TokensCorrect(t: Tables, t': Tables)
    requires AllRooted(t) && NoKeys(t) && A97(t, t')
    ensures RowsCorrect(t'.resources, t'.tokens)
  {
    SlugFillCorrect(t, Reseeded(t, t'.resources), Tokens, t'.tokens);
  }

  lemma A97Correct(t: Tables, t': Tables)
    requires AllRooted(t) && NoKeys(t) && A97(t, t')
    ensures Unique(t'.resources) && Correct(t')
  {
    A97EventsCorrect(t, t');
    A97SchemasCorrect(t, t');
    A97IndexerCorrect(t, t');
    A97TokensCorrect(t, t');
  }

  lemma A97Rooted(t: Tables, t': Tables)
    requires AllRooted(t) && A97(t, t')
    ensures AllRooted(t')
  {
    var s := Reseeded(t, t'.resources);
    FilledKeepsRoots(s, t.events, t'.events, BySlug);
    FilledKeepsRoots(s, t.schemas, t'.schemas, BySlug);
    FilledKeepsRoots(s, t.indexer, t'.indexer, BySlug);
    TokensKeepRoots(s, t.tokens, t'.tokens);
    UpgradeKeepsRoots(t, t');
  }

  lemma B01Correct(t: Tables, t': Tables)
    requires Unique(t.resources) && Correct(t) && AllRooted(t) && B01(t, t')
    ensures Unique(t'.resources) && Correct(t')
  {
    RootedIsSafe(t);
    B01KeepsTenancyIff(t, t');
  }

  lemma B01Rooted(t: Tables, t': Tables)
    requires AllRooted(t) && B01(t, t')
    ensures AllRooted(t')
  {
    var s := Reseeded(t, t'.resources);
    FilledKeepsRoots(s, t.events, t'.events, BySlug);
    FilledKeepsRoots(s, t.schemas, t'.schemas, BySlug);
    FilledKeepsRoots(s, t.indexer, t'.indexer, ByContext);
    TokensKeepRoots(s, t.tokens, t'.tokens);
    UpgradeKeepsRoots(t, t');
  }

  lemma WriteKeepsInv(s: State, table: Table, k: RowId, row: Satellite)
    requires Inv(s) && MayWrite(s, table, row)
    ensures Inv(s.(tables := WithRows(s.tables, table, RowsOf(s.tables, table)[k := row])))
  {
  }

  /** Rows went, and no remaining key lost its resource. */
  predicate Shrunk(before: Rows, after: Rows, resources: map<ResourceId, Resource>) {
    forall k :: k in after ==>
      k in before && after[k] == before[k] && (after[k].pk.Some? ==> after[k].pk.value in resources)
  }

  lemma ShrinkKeepsInv(s: State, s': State)
    requires Inv(s) && s'.phase == s.phase && s'.tables.contexts == s.tables.contexts
    requires forall r :: r in s'.tables.resources ==>
              r in s.tables.resources && s'.tables.resources[r] == s.tables.resources[r]
    requires Shrunk(s.tables.events, s'.tables.events, s'.tables.resources)
    requires Shrunk(s.tables.schemas, s'.tables.schemas, s'.tables.resources)
    requires Shrunk(s.tables.indexer, s'.tables.indexer, s'.tables.resources)
    requires Shrunk(s.tables.tokens, s'.tables.tokens, s'.tables.resources)
    ensures Inv(s')
  {
  }

  lemma DeleteRowKeepsInv(s: State, s': State, table: Table, k: RowId)
    requires Inv(s) && Step(DeleteRow(table, k), s, s')
    ensures Inv(s')
  {
    ShrinkKeepsInv(s, s');
  }

  lemma DropResourceKeepsInv(s: State, s': State, r: ResourceId)
    requires Inv(s) && Step(DropResource(r), s, s')
    ensures Inv(s')
  {
    assert forall rows :: RowsCorrect(s.tables.resources, rows) ==> Shrunk(rows, Cascade(rows, r), s'.tables.resources);
    ShrinkKeepsInv(s, s');
  }

  lemma ContextStepKeepsInv(e: Event, s: State, s': State)
    requires Inv(s) && Step(e, s, s') && (e.CreateContext? || e.SoftDelete? || e.Restore?)
    ensures Inv(s')
  {
    SettledGrows(s.tables, s'.tables.contexts);
  }

  lemma AddResourceKeepsInv(s: State, s': State, r: ResourceId, pair: Resource)
    requires Inv(s) && Step(AddResource(r, pair), s, s')
    ensures Inv(s')
  {
    forall q | q in s.tables.resources ensures s.tables.resources[q] != pair {
      assert s.tables.resources[q] in Pairs(s.tables.resources);
    }
  }

  /** `a97` stops at a slug with two owners. */
  lemma A97FindsNoDispute(t: Tables, t': Tables)
    requires AllSettled(t) && A97(t, t')
    ensures AllRooted(t)
  {
  }

  /** `b01` stops at a row without key and workspace whose slug two workspaces hold. */
  lemma B01FindsNoDispute(t: Tables, t': Tables)
    requires AllSettled(t) && B01(t, t')
    ensures AllRooted(t)
  {
    forall slug | Contested(t.contexts, slug) ensures AmbiguousSlug(t'.resources, slug) {
      ContestedIsAmbiguous(t.contexts, t.resources, t'.resources, slug);
    }
  }

  lemma ContestedIsAmbiguous(contexts: map<ContextId, Context>, before: map<ResourceId, Resource>,
                             after: map<ResourceId, Resource>, slug: Slug)
    requires Contested(contexts, slug) && Seeded(contexts, false, before, after)
    ensures AmbiguousSlug(after, slug)
  {
    var c, d :| c in contexts && d in contexts && contexts[c].slug == Some(slug) && contexts[d].slug == Some(slug)
                && contexts[c].workspace != contexts[d].workspace;
    assert Resource(contexts[c].workspace, slug) in Wanted(contexts, false);
    assert Resource(contexts[d].workspace, slug) in Wanted(contexts, false);
    var r := PairsHas(after, Resource(contexts[c].workspace, slug));
    var q := PairsHas(after, Resource(contexts[d].workspace, slug));
  }

  lemma UpgradeKeepsInv(e: Event, s: State, s': State)
    requires Inv(s) && Step(e, s, s') && (e.RunA97? || e.RunB01?)
    ensures Inv(s')
  {
    if e.RunA97? {
      A97FindsNoDispute(s.tables, s'.tables);
      A97Correct(s.tables, s'.tables);
      A97Rooted(s.tables, s'.tables);
    } else {
      B01FindsNoDispute(s.tables, s'.tables);
      B01Correct(s.tables, s'.tables);
      B01Rooted(s.tables, s'.tables);
    }
  }

  lemma OthersWanted(contexts: map<ContextId, Context>, w: WorkspaceId, pair: Resource)
    requires pair in Wanted(contexts, false) && pair.workspace != w
    ensures pair in Wanted(Others(contexts, w), false)
  {
    var c :| c in contexts && contexts[c].slug.Some?
             && pair == Resource(contexts[c].workspace, contexts[c].slug.value);
    assert Others(contexts, w)[c].slug.Some?;
    assert pair == Resource(Others(contexts, w)[c].workspace, Others(contexts, w)[c].slug.value);
  }

  /** A dispute survives the workspace unless it had a part in it. */
  lemma OthersContested(contexts: map<ContextId, Context>, w: WorkspaceId, slug: Slug)
    requires Contested(contexts, slug) && Resource(w, slug) !in Wanted(contexts, false)
    ensures Contested(Others(contexts, w), slug)
  {
    var c, d :| c in contexts && d in contexts && contexts[c].slug == Some(slug) && contexts[d].slug == Some(slug)
                && contexts[c].workspace != contexts[d].workspace;
    assert c in Others(contexts, w) && d in Others(contexts, w);
  }

  lemma SettledWithout(t: Tables, w: WorkspaceId, table: Table, k: RowId)
    requires AllSettled(t) && Correct(t) && NothingStranded(t, w) && k in RowsOf(WithoutWorkspace(t, w), table)
    ensures Settled(Others(t.contexts, w), table, RowsOf(t, table)[k])
  {
    var row := RowsOf(t, table)[k];
    assert Settled(t.contexts, table, row) && RowCorrect(t.resources, row);
    if row.pk.None? && row.workspace.None? && table != Indexer {
      if Resource(w, row.slug) in Wanted(t.contexts, false) {
        assert Contested(Others(t.contexts, w), row.slug);
      } else if Rooted(t.contexts, table, row) {
        OthersWanted(t.contexts, w, Resource(row.writer, row.slug));
      } else {
        OthersContested(t.contexts, w, row.slug);
      }
    } else {
      OthersWanted(t.contexts, w, Resource(row.writer, row.slug));
    }
  }

  lemma RowsSettledWithout(t: Tables, w: WorkspaceId, table: Table)
    requires AllSettled(t) && Correct(t) && NothingStranded(t, w)
    ensures RowsSettled(Others(t.contexts, w), table, RowsOf(WithoutWorkspace(t, w), table))
  {
    var rows := RowsOf(WithoutWorkspace(t, w), table);
    forall k | k in rows ensures Settled(Others(t.contexts, w), table, rows[k]) {
      SettledWithout(t, w, table, k);
    }
  }

  lemma HardDeleteKeepsInv(s: State, s': State, w: WorkspaceId)
    requires Inv(s) && Step(HardDelete(w), s, s')
    ensures Inv(s')
  {
    RowsSettledWithout(s.tables, w, Events);
    RowsSettledWithout(s.tables, w, Schemas);
    RowsSettledWithout(s.tables, w, Indexer);
    RowsSettledWithout(s.tables, w, Tokens);
  }

  lemma StepKeepsInv(e: Event, s: State, s': State)
    requires Inv(s) && Step(e, s, s')
    ensures Inv(s')
  {
    match e
    case CreateContext(_, _) => ContextStepKeepsInv(e, s, s');
    case SoftDelete(_) => ContextStepKeepsInv(e, s, s');
    case Restore(_) => ContextStepKeepsInv(e, s, s');
    case WriteRow(table, k, row) => WriteKeepsInv(s, table, k, row);
    case DeleteRow(table, k) => DeleteRowKeepsInv(s, s', table, k);
    case AddResource(r, pair) => AddResourceKeepsInv(s, s', r, pair);
    case DropResource(r) => DropResourceKeepsInv(s, s', r);
    case HardDelete(w) => HardDeleteKeepsInv(s, s', w);
    case RunA97 => UpgradeKeepsInv(e, s, s');
    case RunB01 => UpgradeKeepsInv(e, s, s');
    case UpgradeAborted =>
  }

  /** Theorem: at every moment of every history, a non-NULL key points to a resource of the
      workspace the row was written for. */
  lemma {:induction false} HistoryKeepsTenancy(states: seq<State>, events: seq<Event>, i: nat)
    requires Run(states, events) && i < |states|
    ensures Inv(states[i]) && Correct(states[i].tables)
  {
    if i == 0 {
      var t := states[0].tables;
      assert RowsBare(t.events) && RowsBare(t.schemas) && RowsBare(t.indexer) && RowsBare(t.tokens);
    } else {
      HistoryKeepsTenancy(states, events, i - 1);
      StepKeepsInv(events[i - 1], states[i - 1], states[i]);
    }
  }

  // ---------------------------------------------------------------- the second remedy of the abort message

  const KB_EVENT: Satellite := Satellite("kb", None, None, None, 1)

  /** Workspace 1 owned the slug, wrote an event and deleted its context; workspace 2 took the slug over. */
  const DISPUTED: Tables :=
    Tables(map[0 := Context(1, Some("kb"), true), 1 := Context(2, Some("kb"), false)], map[],
           map[0 := KB_EVENT], map[], map[], map[])

  const REHOMED: Tables :=
    Tables(map[1 := Context(2, Some("kb"), false)], map[7 := Resource(2, "kb")],
           map[0 := Satellite("kb", None, None, Some(7), 1)], map[], map[], map[])

  const EMPTY: Tables := Tables(map[], map[], map[], map[], map[], map[])

  const WRITTEN: Tables :=
    Tables(map[0 := Context(1, Some("kb"), false)], map[], map[0 := KB_EVENT], map[], map[], map[])

  /** A history that ends there: a97 on empty tables, then workspace 1 creates, writes and deletes, then workspace 2
      takes the slug. */
  lemma DisputedIsReachable() returns (states: seq<State>, events: seq<Event>)
    ensures Run(states, events) && states[|events|] == State(DISPUTED, Shadow)
  {
    var created := WRITTEN.(events := map[]);
    var dropped := WRITTEN.(contexts := map[0 := Context(1, Some("kb"), true)]);
    states := [State(EMPTY, Legacy), State(EMPTY, Shadow), State(created, Shadow), State(WRITTEN, Shadow),
               State(dropped, Shadow), State(DISPUTED, Shadow)];
    events := [RunA97, CreateContext(0, Context(1, Some("kb"), false)), WriteRow(Events, 0, KB_EVENT), SoftDelete(0),
               CreateContext(1, Context(2, Some("kb"), false))];
    EmptyA97(EMPTY);
    EventIsWritten();
    assert Step(events[0], states[0], states[1]);
    assert Step(events[1], states[1], states[2]);
    assert Step(events[3], states[3], states[4]);
    assert Step(events[4], states[4], states[5]);
  }

  lemma EventIsWritten()
    ensures Step(WriteRow(Events, 0, KB_EVENT), State(WRITTEN.(events := map[]), Shadow), State(WRITTEN, Shadow))
  {
    assert WRITTEN.contexts[0].slug.Some? && Resource(1, "kb") in Wanted(WRITTEN.contexts, false);
    assert Rooted(WRITTEN.contexts, Events, KB_EVENT);
  }

  lemma EmptyA97(empty: Tables)
    requires empty == Tables(map[], map[], map[], map[], map[], map[])
    ensures A97(empty, empty) && Init(State(empty, Legacy))
  {
    assert Wanted(empty.contexts, true) == {};
    assert Pairs(empty.resources) == {};
  }

  /** The audit stops `b01` on the disputed slug. */
  lemma DisputedAborts(u: Tables)
    ensures !B01(DISPUTED, u)
  {
    var contexts := DISPUTED.contexts;
    if Seeded(contexts, false, DISPUTED.resources, u.resources) {
      assert contexts[0].slug.Some? && Resource(1, "kb") in Wanted(contexts, false);
      assert contexts[1].slug.Some? && Resource(2, "kb") in Wanted(contexts, false);
      var r := PairsHas(u.resources, Resource(1, "kb"));
      var q := PairsHas(u.resources, Resource(2, "kb"));
      assert AmbiguousSlug(u.resources, "kb");
      assert 0 in Reseeded(DISPUTED, u.resources).events;
    }
  }

  const SHRUNK: Tables :=
    Tables(map[1 := Context(2, Some("kb"), false)], map[], map[0 := KB_EVENT], map[], map[], map[])

  /** After the hard delete its message suggests, `b01` runs to the end and gives workspace 1's
      event to workspace 2. */
  lemma HardDeleteRehomes()
    ensures B01(WithoutWorkspace(DISPUTED, 1), REHOMED)
    ensures !Correct(REHOMED) && !Safe(WithoutWorkspace(DISPUTED, 1))
    ensures !NothingStranded(DISPUTED, 1)
  {
    ShrunkIs();
    RehomedRun();
    assert !RowCorrect(REHOMED.resources, REHOMED.events[0]);
    B01KeepsTenancyIff(SHRUNK, REHOMED);
    EventIsStranded();
  }

  lemma ShrunkIs()
    ensures WithoutWorkspace(DISPUTED, 1) == SHRUNK
  {
    assert Others(DISPUTED.contexts, 1) == SHRUNK.contexts;
  }

  lemma EventIsStranded()
    ensures !NothingStranded(DISPUTED, 1)
  {
    assert DISPUTED.contexts[0].slug.Some? && Resource(1, "kb") in Wanted(DISPUTED.contexts, false);
    assert DISPUTED.events[0].slug == "kb";
  }

  lemma RehomedRun()
    ensures B01(SHRUNK, REHOMED)
  {
    RehomedSeed(SHRUNK);
    assert Candidates(Reseeded(SHRUNK, REHOMED.resources), KB_EVENT, BySlug) == {7};
    assert Filled(Reseeded(SHRUNK, REHOMED.resources), SHRUNK.events, REHOMED.events, BySlug);
  }

  lemma RehomedSeed(t: Tables)
    requires t.contexts == REHOMED.contexts && t.resources == map[]
    ensures Seeded(t.contexts, false, t.resources, REHOMED.resources)
  {
    assert t.contexts[1].slug.Some?;
    assert Wanted(t.contexts, false) == {Resource(2, "kb")};
    assert REHOMED.resources[7] == Resource(2, "kb");
    assert Pairs(REHOMED.resources) == {Resource(2, "kb")};
  }
}
