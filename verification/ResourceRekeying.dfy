/**
  Tenant-safe re-keying of the resource satellites: the `a97_resources_entity` and
  `b01_resource_pk_ph2` migrations over the tables they read and write.

  A statement `UPDATE ... FROM` with several matching rows may use any of them, so the
  statements are relations between the table contents before and after.
*/
module ResourceTables {
  import opened Sql

  type WorkspaceId = nat
  type ContextId = nat
  type ResourceId = nat
  type RowId = nat
  type Slug = string

  datatype Context = Context(workspace: WorkspaceId, slug: Option<Slug>, deleted: bool)

  /** A `resources` row without its id: the pair its unique constraint is about. */
  datatype Resource = Resource(workspace: WorkspaceId, slug: Slug)

  /**
    A row of one of the four satellite tables. `context` is a column of `indexer_state` only and
    `workspace` one of `resource_tokens` only. `writer` is not a column: it records on whose
    behalf the row was written, and no statement below reads or changes it.
  */
  datatype Satellite = Satellite(slug: Slug, context: Option<ContextId>, workspace: Option<WorkspaceId>,
                                 pk: Option<ResourceId>, writer: WorkspaceId)

  type Rows = map<RowId, Satellite>

  datatype Tables = Tables(contexts: map<ContextId, Context>, resources: map<ResourceId, Resource>,
                           events: Rows, schemas: Rows, indexer: Rows, tokens: Rows)

  // ---------------------------------------------------------------- seeding `resources`

  /** `uq_resources_workspace_resource_id` */
  predicate Unique(resources: map<ResourceId, Resource>) {
    forall r, q :: r in resources && q in resources && resources[r] == resources[q] ==> r == q
  }

  function Pairs(resources: map<ResourceId, Resource>): set<Resource> {
    set r | r in resources :: resources[r]
  }

  /** The (workspace, slug) pairs of the contexts, of the active ones only when `activeOnly`. */
  function Wanted(contexts: map<ContextId, Context>, activeOnly: bool): set<Resource> {
    set c | c in contexts && contexts[c].slug.Some? && !(activeOnly && contexts[c].deleted)
      :: Resource(contexts[c].workspace, contexts[c].slug.value)
  }

  /** INSERT ... SELECT DISTINCT ... WHERE NOT EXISTS: existing rows stay, missing pairs appear once. */
  predicate Seeded(contexts: map<ContextId, Context>, activeOnly: bool,
                   before: map<ResourceId, Resource>, after: map<ResourceId, Resource>) {
    && (forall r :: r in before ==> r in after && after[r] == before[r])
    && Pairs(after) == Pairs(before) + Wanted(contexts, activeOnly)
    && (Unique(before) ==> Unique(after))
  }

  // ---------------------------------------------------------------- the backfill joins

  datatype Join = BySlug | ByContext | ByWorkspaceOrSlug

  /** The `resources` rows a satellite row joins to. */
  function Candidates(t: Tables, row: Satellite, join: Join): set<ResourceId> {
    match join
    case BySlug =>
      set r | r in t.resources && t.resources[r].slug == row.slug
    case ByContext =>
      set r | r in t.resources && row.context.Some? && row.context.value in t.contexts
              && Eq(Some(t.resources[r].slug), t.contexts[row.context.value].slug) == True
              && t.resources[r].workspace == t.contexts[row.context.value].workspace
    case ByWorkspaceOrSlug =>
      set r | r in t.resources && t.resources[r].slug == row.slug
              && (row.workspace.None? || t.resources[r].workspace == row.workspace.value)
  }

  /** SET resource_pk = r.id FROM ... WHERE resource_pk IS NULL, for one row. */
  predicate RowFilled(before: Satellite, after: Satellite, candidates: set<ResourceId>) {
    if before.pk.Some? || candidates == {} then after == before
    else after.pk.Some? && after.pk.value in candidates && after == before.(pk := after.pk)
  }

  predicate Filled(t: Tables, before: Rows, after: Rows, join: Join) {
    && after.Keys == before.Keys
    && forall k :: k in before ==> RowFilled(before[k], after[k], Candidates(t, before[k], join))
  }

  /** SET workspace_id = r.workspace_id FROM resources r WHERE workspace_id IS NULL AND resource_pk = r.id */
  function WithWorkspace(resources: map<ResourceId, Resource>, row: Satellite): Satellite {
    if row.workspace.None? && row.pk.Some? && row.pk.value in resources
    then row.(workspace := Some(resources[row.pk.value].workspace))
    else row
  }

  /** The two `resource_tokens` passes followed by the workspace backfill. */
  predicate TokensFilled(t: Tables, before: Rows, after: Rows) {
    && after.Keys == before.Keys
    && forall k :: k in before ==>
         var keyed := before[k].(pk := after[k].pk);
         && RowFilled(before[k], keyed, Candidates(t, before[k], ByWorkspaceOrSlug))
         && after[k] == WithWorkspace(t.resources, keyed)
  }

  // ---------------------------------------------------------------- audits

  /** GROUP BY resource_id HAVING COUNT(*) > 1 over `resources`. */
  predicate AmbiguousSlug(resources: map<ResourceId, Resource>, slug: Slug) {
    exists r, q :: r in resources && q in resources && r != q && resources[r].slug == slug && resources[q].slug == slug
  }

  predicate AuditPasses(t: Tables) {
    && (forall k :: k in t.events && t.events[k].pk.None? ==> !AmbiguousSlug(t.resources, t.events[k].slug))
    && (forall k :: k in t.schemas && t.schemas[k].pk.None? ==> !AmbiguousSlug(t.resources, t.schemas[k].slug))
    && (forall k :: k in t.tokens && t.tokens[k].pk.None? && t.tokens[k].workspace.None? ==>
          !AmbiguousSlug(t.resources, t.tokens[k].slug))
  }

  /** Not more than one workspace among the contexts, deleted or not, that carry the slug. */
  predicate OneOwner(contexts: map<ContextId, Context>, slug: Slug) {
    forall c, d :: c in contexts && d in contexts && contexts[c].slug == Some(slug) && contexts[d].slug == Some(slug)
                   ==> contexts[c].workspace == contexts[d].workspace
  }

  /** a97 step 3a, for one satellite table. */
  predicate OneOwnerPerSlug(contexts: map<ContextId, Context>, rows: Rows) {
    forall k :: k in rows ==> OneOwner(contexts, rows[k].slug)
  }

  // ---------------------------------------------------------------- the two upgrades

  function Reseeded(t: Tables, resources: map<ResourceId, Resource>): Tables {
    t.(resources := resources)
  }

  /** A run of the `b01` upgrade that does not abort. */
  predicate B01(t: Tables, t': Tables) {
    var s := Reseeded(t, t'.resources);
    && Seeded(t.contexts, false, t.resources, t'.resources)
    && AuditPasses(s)
    && t'.contexts == t.contexts
    && Filled(s, t.indexer, t'.indexer, ByContext)
    && TokensFilled(s, t.tokens, t'.tokens)
    && Filled(s, t.events, t'.events, BySlug)
    && Filled(s, t.schemas, t'.schemas, BySlug)
  }

  /** A run of the `a97` upgrade that does not abort: seed from active contexts, two audits, join by slug. */
  predicate A97(t: Tables, t': Tables) {
    var s := Reseeded(t, t'.resources);
    && Seeded(t.contexts, true, map[], t'.resources)
    && OneOwnerPerSlug(t.contexts, t.events) && OneOwnerPerSlug(t.contexts, t.schemas)
    && OneOwnerPerSlug(t.contexts, t.indexer) && OneOwnerPerSlug(t.contexts, t.tokens)
    && t'.contexts == t.contexts
    && Filled(s, t.events, t'.events, BySlug)
    && Filled(s, t.schemas, t'.schemas, BySlug)
    && Filled(s, t.indexer, t'.indexer, BySlug)
    && TokensFilled(s, t.tokens, t'.tokens)
    && (forall k :: k in t'.events ==> t'.events[k].pk.Some?)
    && (forall k :: k in t'.schemas ==> t'.schemas[k].pk.Some?)
    && (forall k :: k in t'.indexer ==> t'.indexer[k].pk.Some?)
    && (forall k :: k in t'.tokens ==> t'.tokens[k].pk.Some?)
  }

  // ---------------------------------------------------------------- what must hold

  predicate RowCorrect(resources: map<ResourceId, Resource>, row: Satellite) {
    && (row.pk.Some? ==> row.pk.value in resources && resources[row.pk.value].workspace == row.writer)
    && (row.workspace.Some? ==> row.workspace.value == row.writer)
  }

  predicate RowsCorrect(resources: map<ResourceId, Resource>, rows: Rows) {
    forall k :: k in rows ==> RowCorrect(resources, rows[k])
  }

  /** Every key points to a resource of the workspace the row was written for. */
  predicate Correct(t: Tables) {
    && RowsCorrect(t.resources, t.events) && RowsCorrect(t.resources, t.schemas)
    && RowsCorrect(t.resources, t.indexer) && RowsCorrect(t.resources, t.tokens)
  }

  /** The pair (workspace, slug) is on a context, deleted or not, or on a `resources` row. */
  predicate Held(t: Tables, pair: Resource) {
    pair in Pairs(t.resources) + Wanted(t.contexts, false)
  }

  /** Whoever holds the row's slug, its writer is one of the holders. */
  ghost predicate SlugSafe(t: Tables, row: Satellite) {
    (exists w :: Held(t, Resource(w, row.slug))) ==> Held(t, Resource(row.writer, row.slug))
  }

  ghost predicate SlugsSafe(t: Tables, rows: Rows) {
    forall k :: k in rows && rows[k].pk.None? && rows[k].workspace.None? ==> SlugSafe(t, rows[k])
  }

  predicate ContextsSafe(t: Tables, rows: Rows) {
    forall k :: k in rows && rows[k].pk.None? && rows[k].context.Some? && rows[k].context.value in t.contexts
                && t.contexts[rows[k].context.value].slug.Some?
                ==> t.contexts[rows[k].context.value].workspace == rows[k].writer
  }

  /** The exact condition. It speaks about the writers, which no column records; `ResourceHistory` gives the check an
      operator can make on the columns. */
  ghost predicate Safe(t: Tables) {
    SlugsSafe(t, t.events) && SlugsSafe(t, t.schemas) && SlugsSafe(t, t.tokens) && ContextsSafe(t, t.indexer)
  }

  /** The columns each table has. */
  predicate Shaped(t: Tables) {
    && (forall k :: k in t.events ==> t.events[k].context.None? && t.events[k].workspace.None?)
    && (forall k :: k in t.schemas ==> t.schemas[k].context.None? && t.schemas[k].workspace.None?)
    && (forall k :: k in t.indexer ==> t.indexer[k].context.Some? && t.indexer[k].workspace.None?)
    && (forall k :: k in t.tokens ==> t.tokens[k].context.None?)
  }
}

/** The theorems about one run of each upgrade. */
module ResourceRekeying {
  import opened ResourceTables

  // ---------------------------------------------------------------- exactly when b01 keeps tenancy

  lemma PairsHas(resources: map<ResourceId, Resource>, pair: Resource) returns (r: ResourceId)
    requires pair in Pairs(resources)
    ensures r in resources && resources[r] == pair
  {
    r :| r in resources && resources[r] == pair;
  }

  lemma PairInserted(before: map<ResourceId, Resource>, after: map<ResourceId, Resource>, r: ResourceId, pair: Resource)
    requires r !in before && after == before[r := pair]
    ensures Pairs(after) == Pairs(before) + {pair}
  {
    assert after[r] == pair;
    forall p | p in Pairs(before) ensures p in Pairs(after) {
      var q := PairsHas(before, p);
      assert after[q] == p;
    }
  }

  /** For a table filled by slug after the audit, tenancy holds exactly when the slugs are safe. */
  lemma SlugFillIff(t: Tables, s: Tables, before: Rows, after: Rows)
    requires s == Reseeded(t, s.resources) && Seeded(t.contexts, false, t.resources, s.resources)
    requires RowsCorrect(t.resources, before)
    requires forall k :: k in before && before[k].pk.None? ==>
               !AmbiguousSlug(s.resources, before[k].slug) && before[k].workspace.None?
    requires Filled(s, before, after, BySlug)
    ensures RowsCorrect(s.resources, after) <==> SlugsSafe(t, before)
  {
    forall k | k in before
      ensures RowCorrect(s.resources, after[k]) <==> (before[k].pk.None? ==> SlugSafe(t, before[k]))
    {
      if before[k].pk.None? {
        SlugRowIff(t, s, before[k], after[k]);
      }
    }
  }

  lemma SlugRowIff(t: Tables, s: Tables, before: Satellite, after: Satellite)
    requires s == Reseeded(t, s.resources) && Seeded(t.contexts, false, t.resources, s.resources)
    requires before.pk.None? && before.workspace.None?
    requires !AmbiguousSlug(s.resources, before.slug)
    requires RowFilled(before, after, Candidates(s, before, BySlug))
    ensures RowCorrect(s.resources, after) <==> SlugSafe(t, before)
  {
    var candidates := Candidates(s, before, BySlug);
    if candidates == {} {
      forall r | r in s.resources ensures s.resources[r].slug != before.slug {
        assert r !in candidates;
      }
      assert forall pair :: pair in Pairs(s.resources) ==> pair.slug != before.slug;
    } else {
      var r := after.pk.value;
      assert s.resources[r] in Pairs(s.resources);
      assert Held(t, Resource(s.resources[r].workspace, before.slug));
      if Held(t, Resource(before.writer, before.slug)) {
        var q := PairsHas(s.resources, Resource(before.writer, before.slug));
        assert q == r;
      }
    }
  }

  lemma ContextFillIff(t: Tables, s: Tables, before: Rows, after: Rows)
    requires s == Reseeded(t, s.resources) && Seeded(t.contexts, false, t.resources, s.resources)
    requires RowsCorrect(t.resources, before)
    requires Filled(s, before, after, ByContext)
    ensures RowsCorrect(s.resources, after) <==> ContextsSafe(t, before)
  {
    forall k | k in before && before[k].pk.None? && before[k].context.Some? && before[k].context.value in t.contexts
                           && t.contexts[before[k].context.value].slug.Some?
      ensures RowCorrect(s.resources, after[k]) <==> t.contexts[before[k].context.value].workspace == before[k].writer
    {
      var c := t.contexts[before[k].context.value];
      assert Resource(c.workspace, c.slug.value) in Wanted(t.contexts, false);
      var r := PairsHas(s.resources, Resource(c.workspace, c.slug.value));
      assert r in Candidates(s, before[k], ByContext);
    }
  }

  lemma TokenFillIff(t: Tables, s: Tables, before: Rows, after: Rows)
    requires s == Reseeded(t, s.resources) && Seeded(t.contexts, false, t.resources, s.resources)
    requires RowsCorrect(t.resources, before)
    requires forall k :: k in before && before[k].pk.None? && before[k].workspace.None? ==>
               !AmbiguousSlug(s.resources, before[k].slug)
    requires TokensFilled(s, before, after)
    ensures RowsCorrect(s.resources, after) <==> SlugsSafe(t, before)
  {
    forall k | k in before
      ensures RowCorrect(s.resources, after[k]) <==>
              (before[k].pk.None? && before[k].workspace.None? ==> SlugSafe(t, before[k]))
    {
      var keyed := before[k].(pk := after[k].pk);
      if before[k].pk.None? && before[k].workspace.None? {
        assert Candidates(s, before[k], ByWorkspaceOrSlug) == Candidates(s, before[k], BySlug);
        SlugRowIff(t, s, before[k], keyed);
      }
    }
  }

  /** Theorem: a b01 run that does not abort keeps every key in its writer's workspace if and only if
      the tables it started from were safe. */
  lemma B01KeepsTenancyIff(t: Tables, t': Tables)
    requires Shaped(t) && Correct(t) && B01(t, t')
    ensures Correct(t') <==> Safe(t)
  {
    var s := Reseeded(t, t'.resources);
    SlugFillIff(t, s, t.events, t'.events);
    SlugFillIff(t, s, t.schemas, t'.schemas);
    ContextFillIff(t, s, t.indexer, t'.indexer);
    TokenFillIff(t, s, t.tokens, t'.tokens);
  }

  // ---------------------------------------------------------------- determinism, completeness, re-running

  lemma OneCandidate(s: Tables, row: Satellite, join: Join, r: ResourceId, q: ResourceId)
    requires Unique(s.resources)
    requires r in Candidates(s, row, join) && q in Candidates(s, row, join)
    requires join == BySlug || (join == ByWorkspaceOrSlug && row.workspace.None?) ==>
              !AmbiguousSlug(s.resources, row.slug)
    ensures r == q
  {
  }

  /** Two fills of one table agree if no row has a choice. */
  lemma FilledSame(s: Tables, before: Rows, a: Rows, b: Rows, join: Join)
    requires Unique(s.resources) && Filled(s, before, a, join) && Filled(s, before, b, join)
    requires join == ByContext || join == BySlug
    requires join == BySlug ==>
               forall k :: k in before && before[k].pk.None? ==> !AmbiguousSlug(s.resources, before[k].slug)
    ensures a == b
  {
    forall k | k in before ensures a[k] == b[k] {
      if before[k].pk.None? && Candidates(s, before[k], join) != {} {
        OneCandidate(s, before[k], join, a[k].pk.value, b[k].pk.value);
      }
    }
  }

  lemma TokensSame(s: Tables, before: Rows, a: Rows, b: Rows)
    requires Unique(s.resources) && TokensFilled(s, before, a) && TokensFilled(s, before, b)
    requires forall k :: k in before && before[k].pk.None? && before[k].workspace.None? ==>
               !AmbiguousSlug(s.resources, before[k].slug)
    ensures a == b
  {
    forall k | k in before ensures a[k] == b[k] {
      if before[k].pk.None? && Candidates(s, before[k], ByWorkspaceOrSlug) != {} {
        OneCandidate(s, before[k], ByWorkspaceOrSlug, a[k].pk.value, b[k].pk.value);
      }
    }
  }

  /** Theorem: once the audit has passed, the outcome does not depend on which matching row each
      `UPDATE ... FROM` picks. */
  lemma B01Deterministic(t: Tables, t1: Tables, t2: Tables)
    requires Unique(t.resources) && B01(t, t1) && B01(t, t2) && t1.resources == t2.resources
    ensures t1 == t2
  {
    var s := Reseeded(t, t1.resources);
    FilledSame(s, t.events, t1.events, t2.events, BySlug);
    FilledSame(s, t.schemas, t1.schemas, t2.schemas, BySlug);
    FilledSame(s, t.indexer, t1.indexer, t2.indexer, ByContext);
    TokensSame(s, t.tokens, t1.tokens, t2.tokens);
  }

  /** The foreign key from `resource_pk` to `resources`. */
  predicate KeysResolve(resources: map<ResourceId, Resource>, rows: Rows) {
    forall k :: k in rows && rows[k].pk.Some? ==> rows[k].pk.value in resources
  }

  /** Theorem: after b01 a token with a key has a workspace. */
  lemma B01TokensScoped(t: Tables, t': Tables, k: RowId)
    requires KeysResolve(t.resources, t.tokens) && B01(t, t') && k in t'.tokens && t'.tokens[k].pk.Some?
    ensures t'.tokens[k].workspace.Some?
  {
    var before, after := t.tokens[k], t'.tokens[k];
    assert before.pk.Some? ==> before.pk.value in t'.resources;
  }

  lemma SeedAgain(contexts: map<ContextId, Context>, before: map<ResourceId, Resource>, after: map<ResourceId,
                  Resource>)
    requires Pairs(before) >= Wanted(contexts, false) && Unique(before)
    requires Seeded(contexts, false, before, after)
    ensures after == before
  {
    forall r | r in after ensures r in before {
      assert after[r] in Pairs(after);
      var q := PairsHas(before, after[r]);
      assert after[q] == after[r];
    }
  }

  lemma FilledTwice(s: Tables, before: Rows, after: Rows, join: Join)
    requires Filled(s, before, after, join)
    ensures Filled(s, after, after, join)
  {
    forall k | k in after ensures RowFilled(after[k], after[k], Candidates(s, after[k], join)) {
      assert Candidates(s, after[k], join) == Candidates(s, before[k], join);
    }
  }

  lemma TokensFilledTwice(s: Tables, before: Rows, after: Rows)
    requires KeysResolve(s.resources, before)
    requires TokensFilled(s, before, after)
    ensures TokensFilled(s, after, after)
  {
    forall k | k in after
      ensures RowFilled(after[k], after[k], Candidates(s, after[k], ByWorkspaceOrSlug))
      ensures after[k] == WithWorkspace(s.resources, after[k])
    {
      if after[k].pk.None? {
        assert Candidates(s, after[k], ByWorkspaceOrSlug) == Candidates(s, before[k], ByWorkspaceOrSlug);
      }
      assert after[k].(pk := after[k].pk) == after[k];
    }
  }

  /** A row that is still without a key has no candidate. */
  lemma NoCandidate(s: Tables, row: Satellite)
    requires row.pk.None? && RowFilled(row, row, Candidates(s, row, BySlug))
    ensures !AmbiguousSlug(s.resources, row.slug)
  {
    forall r | r in s.resources ensures s.resources[r].slug != row.slug {
      assert r !in Candidates(s, row, BySlug);
    }
  }

  lemma AuditAgain(s: Tables, rows: Rows)
    requires Filled(s, rows, rows, BySlug)
    ensures forall k :: k in rows && rows[k].pk.None? ==> !AmbiguousSlug(s.resources, rows[k].slug)
  {
    forall k | k in rows && rows[k].pk.None? ensures !AmbiguousSlug(s.resources, rows[k].slug) {
      NoCandidate(s, rows[k]);
    }
  }

  lemma AuditTokensAgain(s: Tables, rows: Rows)
    requires TokensFilled(s, rows, rows)
    ensures forall k :: k in rows && rows[k].pk.None? && rows[k].workspace.None? ==>
              !AmbiguousSlug(s.resources, rows[k].slug)
  {
    forall k | k in rows && rows[k].pk.None? && rows[k].workspace.None?
      ensures !AmbiguousSlug(s.resources, rows[k].slug)
    {
      assert rows[k].(pk := rows[k].pk) == rows[k];
      assert Candidates(s, rows[k], ByWorkspaceOrSlug) == Candidates(s, rows[k], BySlug);
      NoCandidate(s, rows[k]);
    }
  }

  /** The joins read contexts and resources only. */
  lemma FilledElsewhere(s: Tables, u: Tables, before: Rows, after: Rows, join: Join)
    requires u.contexts == s.contexts && u.resources == s.resources && Filled(s, before, after, join)
    ensures Filled(u, before, after, join)
  {
    forall k | k in before ensures Candidates(u, before[k], join) == Candidates(s, before[k], join) { }
  }

  lemma TokensFilledElsewhere(s: Tables, u: Tables, before: Rows, after: Rows)
    requires u.contexts == s.contexts && u.resources == s.resources && TokensFilled(s, before, after)
    ensures TokensFilled(u, before, after)
  {
    forall k | k in before
      ensures Candidates(u, before[k], ByWorkspaceOrSlug) == Candidates(s, before[k], ByWorkspaceOrSlug)
    {
    }
  }

  /** Theorem: running b01 again neither aborts nor changes any row. */
  lemma B01Rerun(t: Tables, t': Tables, t'': Tables)
    requires Unique(t.resources) && KeysResolve(t.resources, t.tokens) && B01(t, t')
    ensures B01(t', t')
    ensures B01(t', t'') ==> t'' == t'
  {
    B01FixedPoint(t, t');
    if B01(t', t'') {
      SeedAgain(t'.contexts, t'.resources, t''.resources);
      B01Deterministic(t', t', t'');
    }
  }

  lemma B01FixedPoint(t: Tables, t': Tables)
    requires Unique(t.resources) && KeysResolve(t.resources, t.tokens) && B01(t, t')
    ensures B01(t', t')
  {
    var s := Reseeded(t, t'.resources);
    FilledTwice(s, t.indexer, t'.indexer, ByContext);
    FilledElsewhere(s, t', t'.indexer, t'.indexer, ByContext);
    FilledTwice(s, t.events, t'.events, BySlug);
    FilledElsewhere(s, t', t'.events, t'.events, BySlug);
    FilledTwice(s, t.schemas, t'.schemas, BySlug);
    FilledElsewhere(s, t', t'.schemas, t'.schemas, BySlug);
    TokensFilledTwice(s, t.tokens, t'.tokens);
    TokensFilledElsewhere(s, t', t'.tokens, t'.tokens);
    AuditAgain(t', t'.events);
    AuditAgain(t', t'.schemas);
    AuditTokensAgain(t', t'.tokens);
    assert Reseeded(t', t'.resources) == t';
  }
}
