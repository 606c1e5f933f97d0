/** The two upgrades as they run: statement after statement on one database. */
module ResourceMigration {
  import opened Sql
  import opened ResourceTables
  import opened ResourceRekeying

  /** One `UPDATE <satellite> SET resource_pk = r.id FROM ...`: the row picked among the matches is arbitrary. */
  method Fill(t: Tables, rows: Rows, join: Join) returns (out: Rows)
    ensures Filled(t, rows, out, join)
  {
    out := rows;
    var todo := rows.Keys;
    while todo != {}
      invariant todo <= rows.Keys && out.Keys == rows.Keys
      invariant forall k :: k in todo ==> out[k] == rows[k]
      invariant forall k :: k in rows && k !in todo ==> RowFilled(rows[k], out[k], Candidates(t, rows[k], join))
      decreases todo
    {
      var k :| k in todo;
      todo := todo - {k};
      var candidates := Candidates(t, rows[k], join);
      if rows[k].pk.None? && candidates != {} {
        var r :| r in candidates;
        out := out[k := rows[k].(pk := Some(r))];
      }
    }
  }

  ghost predicate UnkeyedSlug(rows: Rows, slug: Slug) {
    exists k :: k in rows && rows[k].pk.None? && rows[k].slug == slug
  }

  lemma FoundNothing(resources: map<ResourceId, Resource>, rows: Rows, slugs: set<Slug>)
    requires forall slug :: slug in slugs <==> AmbiguousSlug(resources, slug) && UnkeyedSlug(rows, slug)
    ensures slugs == {} <==> forall k :: k in rows && rows[k].pk.None? ==> !AmbiguousSlug(resources, rows[k].slug)
  {
    if k :| k in rows && rows[k].pk.None? && AmbiguousSlug(resources, rows[k].slug) {
      assert UnkeyedSlug(rows, rows[k].slug);
      assert rows[k].slug in slugs;
    }
  }

  class ResourceDatabase {
    var contexts: map<ContextId, Context>
    var resources: map<ResourceId, Resource>
    var events: Rows
    var schemas: Rows
    var indexer: Rows
    var tokens: Rows
    var nextId: ResourceId

    function View(): Tables
      reads this
    {
      Tables(contexts, resources, events, schemas, indexer, tokens)
    }

    ghost predicate Valid()
      reads this
    {
      Unique(resources) && forall r :: r in resources ==> r < nextId
    }

    /** `_seed_missing_resources_from_all_contexts`, and a97's seed from the active contexts. */
    method SeedMissing(activeOnly: bool)
      requires Valid()
      modifies `resources, `nextId
      ensures Valid() && Seeded(contexts, activeOnly, old(resources), resources)
    {
      var todo := Wanted(contexts, activeOnly);
      while todo != {}
        invariant Valid() && todo <= Wanted(contexts, activeOnly)
        invariant forall r :: r in old(resources) ==> r in resources && resources[r] == old(resources)[r]
        invariant Pairs(resources) <= Pairs(old(resources)) + Wanted(contexts, activeOnly)
        invariant Pairs(old(resources)) + (Wanted(contexts, activeOnly) - todo) <= Pairs(resources)
        decreases todo
      {
        var pair :| pair in todo;
        todo := todo - {pair};
        if pair !in Pairs(resources) {
          ghost var before := resources;
          resources, nextId := resources[nextId := pair], nextId + 1;
          PairInserted(before, resources, nextId - 1, pair);
        }
      }
    }

    /** The audit query for one table: the ambiguous slugs of its rows without a key. */
    method AmbiguousSlugs(rows: Rows) returns (slugs: set<Slug>)
      ensures forall slug :: slug in slugs <==> AmbiguousSlug(resources, slug) && UnkeyedSlug(rows, slug)
    {
      slugs := {};
      var todo := rows.Keys;
      while todo != {}
        invariant todo <= rows.Keys
        invariant forall slug :: slug in slugs ==> AmbiguousSlug(resources, slug) && UnkeyedSlug(rows, slug)
        invariant forall k :: k in rows && k !in todo && rows[k].pk.None? && AmbiguousSlug(resources, rows[k].slug) ==>
                    rows[k].slug in slugs
        decreases todo
      {
        var k :| k in todo;
        todo := todo - {k};
        if rows[k].pk.None? && AmbiguousSlug(resources, rows[k].slug) {
          slugs := slugs + {rows[k].slug};
        }
      }
    }

    /** `_audit_cross_workspace_ambiguity`: three queries, and an abort if one of them found a slug. */
    method Audit() returns (ok: bool)
      ensures ok <==> AuditPasses(View())
    {
      var inEvents := AmbiguousSlugs(events);
      var inSchemas := AmbiguousSlugs(schemas);
      var unscoped := map k | k in tokens && tokens[k].workspace.None? :: tokens[k];
      var inTokens := AmbiguousSlugs(unscoped);
      ok := inEvents == {} && inSchemas == {} && inTokens == {};
      FoundNothing(resources, events, inEvents);
      FoundNothing(resources, schemas, inSchemas);
      FoundNothing(resources, unscoped, inTokens);
      assert forall k :: k in unscoped ==> unscoped[k] == tokens[k];
    }

    /** `_backfill_resource_tokens_workspace_id` */
    method FillTokenWorkspaces()
      modifies `tokens
      ensures tokens == map k | k in old(tokens) :: WithWorkspace(resources, old(tokens)[k])
    {
      tokens := map k | k in tokens :: WithWorkspace(resources, tokens[k]);
    }

    /** `_backfill_resource_tokens`: the workspace-scoped pass, then the slug-only one. */
    method FillTokens()
      modifies `tokens
      ensures Filled(old(View()), old(tokens), tokens, ByWorkspaceOrSlug)
    {
      var scoped := map k | k in tokens && tokens[k].workspace.Some? :: tokens[k];
      var unscoped := map k | k in tokens && tokens[k].workspace.None? :: tokens[k];
      var first := Fill(View(), scoped, ByWorkspaceOrSlug);
      var second := Fill(View(), unscoped, BySlug);
      assert forall k :: k in unscoped ==>
        Candidates(View(), unscoped[k], BySlug) == Candidates(View(), unscoped[k], ByWorkspaceOrSlug);
      tokens := first + second;
    }

    /** a97 step 3b for one table: true when every row's slug has a `resources` row. */
    predicate NoOrphans(rows: Rows)
      reads this
    {
      forall k :: k in rows ==> Candidates(View(), rows[k], BySlug) != {}
    }

    /** a97 steps 3a and 3b for one table, row by row. */
    method AuditTable(rows: Rows) returns (ok: bool)
      ensures ok <==> OneOwnerPerSlug(contexts, rows) && NoOrphans(rows)
    {
      ok := true;
      var todo := rows.Keys;
      while todo != {}
        invariant todo <= rows.Keys
        invariant ok <==> forall k :: k in rows && k !in todo ==>
                    OneOwner(contexts, rows[k].slug) && Candidates(View(), rows[k], BySlug) != {}
        decreases todo
      {
        var k :| k in todo;
        todo := todo - {k};
        if !OneOwner(contexts, rows[k].slug) || Candidates(View(), rows[k], BySlug) == {} {
          ok := false;
        }
      }
    }

    /** a97 steps 3a and 3b. */
    method AuditA97() returns (ok: bool)
      ensures ok <==> && OneOwnerPerSlug(contexts, events) && OneOwnerPerSlug(contexts, schemas)
                      && OneOwnerPerSlug(contexts, indexer) && OneOwnerPerSlug(contexts, tokens)
                      && NoOrphans(events) && NoOrphans(schemas) && NoOrphans(indexer) && NoOrphans(tokens)
    {
      var inEvents := AuditTable(events);
      var inSchemas := AuditTable(schemas);
      var inIndexer := AuditTable(indexer);
      var inTokens := AuditTable(tokens);
      ok := inEvents && inSchemas && inIndexer && inTokens;
    }

    /** The shadow column of a table and its backfill. */
    method FillSlugs(rows: Rows) returns (out: Rows)
      requires NoOrphans(rows) && forall k :: k in rows ==> rows[k].pk.None?
      ensures Filled(View(), rows, out, BySlug) && forall k :: k in out ==> out[k].pk.Some?
    {
      out := Fill(View(), rows, BySlug);
    }

    /** a97 steps 7 to 9 for `resource_tokens`. */
    method FillNewTokens()
      requires NoOrphans(tokens) && forall k :: k in tokens ==> tokens[k].pk.None? && tokens[k].workspace.None?
      modifies `tokens
      ensures TokensFilled(old(View()), old(tokens), tokens) && forall k :: k in tokens ==> tokens[k].pk.Some?
    {
      assert forall k :: k in tokens ==>
        Candidates(View(), tokens[k], BySlug) == Candidates(View(), tokens[k], ByWorkspaceOrSlug);
      tokens := FillSlugs(tokens);
      FillTokenWorkspaces();
    }

    /** a97 on a database whose shadow columns and `resources` table were just created. */
    method UpgradeA97() returns (aborted: bool)
      requires Valid() && resources == map[]
      requires forall k :: k in events ==> events[k].pk.None? && events[k].workspace.None?
      requires forall k :: k in schemas ==> schemas[k].pk.None? && schemas[k].workspace.None?
      requires forall k :: k in indexer ==> indexer[k].pk.None? && indexer[k].workspace.None?
      requires forall k :: k in tokens ==> tokens[k].pk.None? && tokens[k].workspace.None?
      modifies this
      ensures Valid()
      ensures aborted ==> View() == old(View())
      ensures !aborted ==> A97(old(View()), View())
      ensures aborted ==> forall u: Tables :: !A97(old(View()), u)
    {
      var savedId := nextId;
      SeedMissing(true);
      var ok := AuditA97();
      aborted := !ok;
      if aborted {
        A97AbortIsForced(old(View()), resources);
        resources, nextId := map[], savedId;
        return;
      }
      ghost var s := View();
      var filledEvents := FillSlugs(events);
      var filledSchemas := FillSlugs(schemas);
      var filledIndexer := FillSlugs(indexer);
      FillNewTokens();
      events, schemas, indexer := filledEvents, filledSchemas, filledIndexer;
      assert s == Reseeded(old(View()), resources);
    }

    /** The five backfills of b01. */
    method Backfill()
      modifies `events, `schemas, `indexer, `tokens
      ensures Filled(old(View()), old(indexer), indexer, ByContext)
      ensures TokensFilled(old(View()), old(tokens), tokens)
      ensures Filled(old(View()), old(events), events, BySlug) && Filled(old(View()), old(schemas), schemas, BySlug)
    {
      var s := View();
      indexer := Fill(s, indexer, ByContext);
      ghost var t := View();
      FillTokens();
      FilledElsewhere(t, s, s.tokens, tokens, ByWorkspaceOrSlug);
      ghost var keyed := tokens;
      events := Fill(s, events, BySlug);
      schemas := Fill(s, schemas, BySlug);
      FillTokenWorkspaces();
      ThenWorkspaces(s, s.tokens, keyed, tokens);
    }

    /** The whole upgrade in its transaction; an abort rolls everything back. */
    method UpgradeB01() returns (aborted: bool)
      requires Valid()
      modifies this
      ensures Valid()
      ensures aborted ==> View() == old(View())
      ensures !aborted ==> B01(old(View()), View())
      ensures aborted ==> forall u: Tables :: !B01(old(View()), u)
    {
      var saved, savedId := resources, nextId;
      SeedMissing(false);
      var ok := Audit();
      if !ok {
        AbortIsForced(old(View()), resources);
        resources, nextId := saved, savedId;
        return true;
      }
      Backfill();
      return false;
    }
  }

  lemma ThenWorkspaces(s: Tables, before: Rows, keyed: Rows, after: Rows)
    requires Filled(s, before, keyed, ByWorkspaceOrSlug)
    requires after == map k | k in keyed :: WithWorkspace(s.resources, keyed[k])
    ensures TokensFilled(s, before, after)
  {
    forall k | k in before ensures keyed[k] == before[k].(pk := after[k].pk) {
      assert RowFilled(before[k], keyed[k], Candidates(s, before[k], ByWorkspaceOrSlug));
    }
  }

  /** Whichever ids the seed mints, the audit sees the same slugs. */
  lemma AbortIsForced(t: Tables, resources: map<ResourceId, Resource>)
    requires Unique(t.resources) && Seeded(t.contexts, false, t.resources, resources)
    requires !AuditPasses(Reseeded(t, resources))
    ensures forall u: Tables :: !B01(t, u)
  {
    forall u: Tables | Seeded(t.contexts, false, t.resources, u.resources)
      ensures !AuditPasses(Reseeded(t, u.resources))
    {
      forall slug | AmbiguousSlug(resources, slug) ensures AmbiguousSlug(u.resources, slug) {
        var r, q :| && r in resources && q in resources && r != q
                    && resources[r].slug == slug && resources[q].slug == slug;
        assert resources[r] in Pairs(resources) && resources[q] in Pairs(resources);
        var r' := PairsHas(u.resources, resources[r]);
        var q' := PairsHas(u.resources, resources[q]);
      }
    }
  }

  /** Some row's slug has no `resources` row. */
  predicate HasOrphan(s: Tables, rows: Rows) {
    exists k :: k in rows && Candidates(s, rows[k], BySlug) == {}
  }

  /** Whichever ids the seed mints, a row without a match stays without one. */
  lemma OrphanStays(t: Tables, resources: map<ResourceId, Resource>, u: Tables, rows: Rows, k: RowId)
    requires Seeded(t.contexts, true, map[], resources) && Seeded(t.contexts, true, map[], u.resources)
    requires k in rows && Candidates(Reseeded(t, resources), rows[k], BySlug) == {}
    ensures Candidates(Reseeded(t, u.resources), rows[k], BySlug) == {}
  {
    forall r | r in u.resources ensures u.resources[r].slug != rows[k].slug {
      assert u.resources[r] in Pairs(u.resources);
      var q := PairsHas(resources, u.resources[r]);
      assert q !in Candidates(Reseeded(t, resources), rows[k], BySlug);
    }
  }

  /** a97 aborts only if no run of it could have completed. */
  lemma A97AbortIsForced(t: Tables, resources: map<ResourceId, Resource>)
    requires Seeded(t.contexts, true, map[], resources)
    requires forall k :: k in t.events ==> t.events[k].pk.None?
    requires forall k :: k in t.schemas ==> t.schemas[k].pk.None?
    requires forall k :: k in t.indexer ==> t.indexer[k].pk.None?
    requires forall k :: k in t.tokens ==> t.tokens[k].pk.None? && t.tokens[k].workspace.None?
    requires var s := Reseeded(t, resources);
             || !OneOwnerPerSlug(t.contexts, t.events) || !OneOwnerPerSlug(t.contexts, t.schemas)
             || !OneOwnerPerSlug(t.contexts, t.indexer) || !OneOwnerPerSlug(t.contexts, t.tokens)
             || HasOrphan(s, t.events) || HasOrphan(s, t.schemas) || HasOrphan(s, t.indexer) || HasOrphan(s, t.tokens)
    ensures forall u: Tables :: !A97(t, u)
  {
    var s := Reseeded(t, resources);
    forall u: Tables | A97(t, u) ensures false {
      OrphanBlocks(t, resources, u, t.events, u.events);
      OrphanBlocks(t, resources, u, t.schemas, u.schemas);
      OrphanBlocks(t, resources, u, t.indexer, u.indexer);
      OrphanTokenBlocks(t, resources, u);
    }
  }

  lemma OrphanBlocks(t: Tables, resources: map<ResourceId, Resource>, u: Tables, before: Rows, after: Rows)
    requires Seeded(t.contexts, true, map[], resources) && Seeded(t.contexts, true, map[], u.resources)
    requires Filled(Reseeded(t, u.resources), before, after, BySlug)
    requires forall k :: k in before ==> before[k].pk.None? && after[k].pk.Some?
    ensures !HasOrphan(Reseeded(t, resources), before)
  {
    forall k | k in before ensures Candidates(Reseeded(t, resources), before[k], BySlug) != {} {
      if Candidates(Reseeded(t, resources), before[k], BySlug) == {} { OrphanStays(t, resources, u, before, k); }
    }
  }

  lemma OrphanTokenBlocks(t: Tables, resources: map<ResourceId, Resource>, u: Tables)
    requires Seeded(t.contexts, true, map[], resources) && Seeded(t.contexts, true, map[], u.resources)
    requires TokensFilled(Reseeded(t, u.resources), t.tokens, u.tokens)
    requires forall k :: k in t.tokens ==> t.tokens[k].pk.None? && t.tokens[k].workspace.None? && u.tokens[k].pk.Some?
    ensures !HasOrphan(Reseeded(t, resources), t.tokens)
  {
    forall k | k in t.tokens ensures Candidates(Reseeded(t, resources), t.tokens[k], BySlug) != {} {
      assert Candidates(Reseeded(t, u.resources), t.tokens[k], ByWorkspaceOrSlug)
          == Candidates(Reseeded(t, u.resources), t.tokens[k], BySlug);
      if Candidates(Reseeded(t, resources), t.tokens[k], BySlug) == {} { OrphanStays(t, resources, u, t.tokens, k); }
    }
  }
}
