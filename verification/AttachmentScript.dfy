/** `repair_context_bindings` and `purge_orphans`, statement by statement, with other processes in between. */
module AttachmentScript {
  import opened Sql
  import opened Ranking
  import opened Keyset
  import opened AttachmentTables
  import opened AttachmentPage
  import opened AttachmentHistory
  import opened AttachmentQuiet
  import opened AttachmentPurge
  import opened LockOrder

  // ---------------------------------------------------------------- the locks of a page

  /** KEY SHARE locks on contexts in id order. */
  predicate ContextLocks(plan: seq<Request>) {
    && (forall i :: 0 <= i < |plan| ==> plan[i].resource.Context? && plan[i].mode == Shared)
    && (forall i, j :: 0 <= i < j < |plan| ==> plan[i].resource.id < plan[j].resource.id)
  }

  /** The locks requested so far follow the discipline, and the next file comes after them. */
  ghost predicate PlanAt(keyOf: Keys, plan: seq<Request>, targets: seq<Target>, i: nat) {
    && Disciplined(keyOf, plan)
    && forall j :: 0 <= j < |plan| && plan[j].resource.File? && i < |targets| ==> plan[j].resource.id < targets[i].file
  }

  function RowLock(keyOf: Keys, file: nat, updated: bool): seq<Request> {
    [Request(File(file), Exclusive)] + if updated then [Request(Key(keyOf(file)), Exclusive)] else []
  }

  lemma PlanStarts(keyOf: Keys, plan: seq<Request>, targets: seq<Target>)
    requires ContextLocks(plan)
    ensures PlanAt(keyOf, plan, targets, 0)
  {
  }

  lemma PlanSkips(keyOf: Keys, plan: seq<Request>, targets: seq<Target>, i: nat)
    requires PlanAt(keyOf, plan, targets, i) && Ascend(targets) && i < |targets|
    ensures PlanAt(keyOf, plan, targets, i + 1)
  {
  }

  lemma FileNext(keyOf: Keys, plan: seq<Request>, file: nat)
    requires Disciplined(keyOf, plan)
    requires forall j :: 0 <= j < |plan| && plan[j].resource.File? ==> plan[j].resource.id < file
    ensures Disciplined(keyOf, plan + [Request(File(file), Exclusive)])
  {
    var more := plan + [Request(File(file), Exclusive)];
    forall i | 0 <= i < |more| && more[i].resource.Key? ensures FollowsItsFile(keyOf, more, i) {
      assert FollowsItsFile(keyOf, plan, i);
    }
  }

  lemma KeyNext(keyOf: Keys, plan: seq<Request>)
    requires Disciplined(keyOf, plan) && plan != [] && plan[|plan| - 1].resource.File?
    ensures Disciplined(keyOf, plan + [Request(Key(keyOf(plan[|plan| - 1].resource.id)), Exclusive)])
  {
    var more := plan + [Request(Key(keyOf(plan[|plan| - 1].resource.id)), Exclusive)];
    forall i | 0 <= i < |more| && more[i].resource.Key? ensures FollowsItsFile(keyOf, more, i) {
      if i < |plan| { assert FollowsItsFile(keyOf, plan, i); }
    }
  }

  lemma PlanGrows(keyOf: Keys, plan: seq<Request>, targets: seq<Target>, i: nat, updated: bool)
    requires PlanAt(keyOf, plan, targets, i) && Ascend(targets) && i < |targets|
    ensures PlanAt(keyOf, plan + RowLock(keyOf, targets[i].file, updated), targets, i + 1)
  {
    var file := targets[i].file;
    FileNext(keyOf, plan, file);
    var locked := plan + [Request(File(file), Exclusive)];
    if updated {
      KeyNext(keyOf, locked);
      assert plan + RowLock(keyOf, file, updated) == locked + [Request(Key(keyOf(file)), Exclusive)];
    } else {
      assert plan + RowLock(keyOf, file, updated) == locked;
    }
  }

  // ---------------------------------------------------------------- the database

  class Store {
    var db: Db
    var time: nat
    ghost var log: Log

    method Interfere(env: Environment, contexts: set<nat>, files: set<nat>)
      requires Honest(log, db)
      modifies this
      ensures Honest(log, db) && Grows(old(log), log) && Touched(log.changes) == Touched(old(log).changes)
      ensures Allowed(old(db), db, contexts, files)
      ensures Quiet(env) ==> db == old(db)
    {
      HonestNow(log, db);
      var next := env(time, db);
      time := time + 1;
      if Allowed(db, next, contexts, files) {
        HonestMore(log, Change(db, next, None));
        log := Append(log, Change(db, next, None));
        db := next;
      }
    }

    /** UPDATE file_objects SET context_id WHERE id = :file AND context_id IS NULL */
    method GuardedUpdate(t: Target, ghost page: nat, ghost parents: nat) returns (updated: bool)
      requires Honest(log, db) && t.context in db.contexts && Sourced(log, t, page, parents)
      modifies this
      ensures updated <==> t.file in old(db).files && old(db).files[t.file].context.None?
      ensures db == if updated then Bound(old(db), t) else old(db)
      ensures Honest(log, db) && Grows(old(log), log)
      ensures Touched(log.changes) == Touched(old(log).changes) + if updated then 1 else 0
    {
      updated := t.file in db.files && db.files[t.file].context.None?;
      if updated {
        HonestNow(log, db);
        var c := Change(db, Bound(db, t), Some(Binding(t, page, parents)));
        HonestMore(log, c);
        log := Append(log, c);
        db := Bound(db, t);
      }
    }

    /** KEY SHARE on the given contexts in id order. */
    method LockContexts(targets: seq<Target>) returns (live: set<nat>, ghost locks: seq<Request>)
      ensures forall c :: c in live <==> c in db.contexts && exists i :: 0 <= i < |targets| && targets[i].context == c
      ensures ContextLocks(locks) && forall c :: c in live <==> Request(Context(c), Shared) in locks
    {
      live := set t | t in targets && t.context in db.contexts :: t.context;
      var ids := OrderBy(live, ById);
      locks := seq(|ids|, i requires 0 <= i < |ids| => Request(Context(ids[i]), Shared));
      forall i, j | 0 <= i < j < |locks| ensures locks[i].resource.id < locks[j].resource.id {
        assert Before(ById, ids[i], ids[j]);
      }
      forall c | c in live ensures Request(Context(c), Shared) in locks {
        var i :| 0 <= i < |ids| && ids[i] == c;
        assert locks[i] == Request(Context(c), Shared);
      }
    }

    /** One target: skipped if its context was gone at the lock. */
    method BindOne(env: Environment, t: Target, live: set<nat>, touched: set<nat>, dryRun: bool,
                   ghost page: nat, ghost parents: nat)
      returns (counted: bool)
      requires Honest(log, db) && live <= db.contexts.Keys && Sourced(log, t, page, parents)
      modifies this
      ensures Honest(log, db) && live <= db.contexts.Keys && Grows(old(log), log)
      ensures Touched(log.changes) == Touched(old(log).changes) + if counted && !dryRun then 1 else 0
      ensures t.context !in live ==> !counted
      ensures t.context in live && dryRun ==> counted
      ensures Quiet(env) && (dryRun || !counted) ==> db == old(db)
      ensures Quiet(env) && t.context in live && t.file in old(db).files && old(db).files[t.file].context.None? ==>
                counted && db == if dryRun then old(db) else Bound(old(db), t)
    {
      counted := false;
      Interfere(env, live, touched);
      SourcedStays(old(log), log, t, page, parents);
      if t.context in live {
        counted := true;
        if !dryRun { counted := GuardedUpdate(t, page, parents); }
      }
    }

    /** One turn of the last loop of a page. */
    method BindNext(env: Environment, targets: seq<Target>, i: nat, live: set<nat>, touched: set<nat>, dryRun: bool,
                    counts: (nat, nat, nat), ghost from: Db, ghost keyOf: Keys, ghost plan: seq<Request>,
                    ghost page: nat, ghost parents: nat)
      returns (next: (nat, nat, nat), locked: set<nat>, ghost requests: seq<Request>)
      requires Honest(log, db) && Ascend(targets) && live <= db.contexts.Keys && i < |targets|
      requires Sourced(log, targets[i], page, parents) && PlanAt(keyOf, plan, targets, i)
      modifies this
      ensures Honest(log, db) && live <= db.contexts.Keys && Grows(old(log), log)
      ensures Touched(log.changes) == Touched(old(log).changes) + if dryRun then 0 else next.0 - counts.0
      ensures PlanAt(keyOf, requests, targets, i + 1)
      ensures Quiet(env) && AllLive(from, targets, live) && Calm(from, targets, i, dryRun, old(db), counts) ==>
                Calm(from, targets, i + 1, dryRun, db, next)
    {
      var t := targets[i];
      if AllLive(from, targets, live) && Calm(from, targets, i, dryRun, db, counts) {
        StaysCalm(from, targets, i, dryRun, db, counts);
      }
      var counted := BindOne(env, t, live, touched, dryRun, page, parents);
      next, locked, requests := counts, touched, plan;
      if t.context !in live {
        PlanSkips(keyOf, plan, targets, i);
        next := (counts.0, counts.1 + 1, counts.2);
        return;
      }
      if dryRun {
        PlanSkips(keyOf, plan, targets, i);
      } else {
        PlanGrows(keyOf, plan, targets, i, counted);
        requests := plan + RowLock(keyOf, t.file, counted);
      }
      if counted {
        if !dryRun { locked := touched + {t.file}; }
        next := (counts.0 + 1, counts.1, counts.2 + if t.deleted then 1 else 0);
      }
    }

    /** The last loop of a page: guarded updates in file order, with the contexts locked. The counts are bound, orphan
        and context_deleted. */
    method BindTargets(env: Environment, targets: seq<Target>, live: set<nat>, dryRun: bool, ghost keyOf: Keys,
                       ghost contextLocks: seq<Request>, ghost page: nat, ghost parents: nat)
      returns (counts: (nat, nat, nat), ghost plan: seq<Request>)
      requires Honest(log, db) && Ascend(targets) && live <= db.contexts.Keys && ContextLocks(contextLocks)
      requires AllSourced(log, targets, page, parents)
      modifies this
      ensures Honest(log, db) && Grows(old(log), log)
      ensures Touched(log.changes) == Touched(old(log).changes) + if dryRun then 0 else counts.0
      ensures Disciplined(keyOf, plan)
      ensures Quiet(env) && AllLive(old(db), targets, live) ==> Calm(old(db), targets, |targets|, dryRun, db, counts)
    {
      counts, plan := (0, 0, 0), contextLocks;
      ghost var from, first := db, log;
      var touched: set<nat> := {};
      var i := 0;
      PlanStarts(keyOf, plan, targets);
      while i < |targets|
        invariant 0 <= i <= |targets|
        invariant Honest(log, db) && live <= db.contexts.Keys && Grows(first, log)
        invariant Touched(log.changes) == Touched(first.changes) + if dryRun then 0 else counts.0
        invariant PlanAt(keyOf, plan, targets, i)
        invariant Quiet(env) && AllLive(from, targets, live) ==> Calm(from, targets, i, dryRun, db, counts)
      {
        SourcedStays(first, log, targets[i], page, parents);
        counts, touched, plan :=
          BindNext(env, targets, i, live, touched, dryRun, counts, from, keyOf, plan, page, parents);
        i := i + 1;
      }
    }

    /** Contexts first, then the files: one transaction's locks in the global order. */
    method LockAndBind(env: Environment, targets: seq<Target>, dryRun: bool, ghost keyOf: Keys,
                       ghost page: nat, ghost parents: nat)
      returns (counts: (nat, nat, nat), ghost plan: seq<Request>)
      requires Honest(log, db) && Ascend(targets) && AllSourced(log, targets, page, parents)
      modifies this
      ensures Honest(log, db) && Grows(old(log), log)
      ensures Touched(log.changes) == Touched(old(log).changes) + if dryRun then 0 else counts.0
      ensures Disciplined(keyOf, plan)
      ensures Quiet(env) && Bindable(old(db), targets) ==> Calm(old(db), targets, |targets|, dryRun, db, counts)
    {
      Interfere(env, {}, {});
      AllSourcedStay(old(log), log, targets, page, parents);
      var live, contextLocks := LockContexts(targets);
      counts, plan := BindTargets(env, targets, live, dryRun, keyOf, contextLocks, page, parents);
    }

    /** One page after its read: parents, locks, updates. */
    method HandlePage(env: Environment, rows: seq<Row>, dryRun: bool, ghost keyOf: Keys, ghost page: nat)
      returns (c: Counts, ghost plan: seq<Request>)
      requires Honest(log, db) && Ascending(rows) && ReadAt(log, page, rows)
      modifies this
      ensures Honest(log, db) && Grows(old(log), log)
      ensures Touched(log.changes) == Touched(old(log).changes) + if dryRun then 0 else c.bound
      ensures Disciplined(keyOf, plan)
      ensures Quiet(env) && Unbound(old(db), rows) ==> RowsDone(old(db), rows, dryRun, db, c)
    {
      Interfere(env, {}, {});
      ReadAtStays(old(log), log, page, rows);
      TargetsAreSourced(log, page, rows, db);
      CountsAreTargets(db, rows);
      TargetsAscend(db, rows);
      var targets, orphan, shared, unparsable := SortPage(rows, db);
      var counts;
      counts, plan := LockAndBind(env, targets, dryRun, keyOf, page, |log.changes|);
      c := Counts(counts.0, shared, orphan + counts.1, counts.2, unparsable);
      assert targets[..|targets|] == targets;
    }

    /** The page query of the repair. */
    method ReadPage(env: Environment, last: Option<nat>, n: nat) returns (page: seq<nat>, rows: seq<Row>)
      requires Honest(log, db)
      modifies this
      ensures Honest(log, db) && Grows(old(log), log) && Touched(log.changes) == Touched(old(log).changes)
      ensures Quiet(env) ==> db == old(db)
      ensures PageOf(EligibleIds(db), last, n, page) && rows == RowsOf(db, page)
      ensures Ascending(rows) && ReadAt(log, |log.changes|, rows) && Unbound(db, rows)
      ensures page != [] ==> page[|page| - 1] < UUID_COUNT
    {
      Interfere(env, {}, {});
      HonestNow(log, db);
      page := FirstPage(EligibleIds(db), last, n);
      rows := RowsOf(db, page);
    }

    /** Read a page and handle it. */
    method RepairPage(env: Environment, dryRun: bool, n: nat, last: Option<nat>, ghost keyOf: Keys)
      returns (page: seq<nat>, c: Counts)
      requires Honest(log, db)
      modifies this
      ensures Honest(log, db) && Grows(old(log), log)
      ensures Touched(log.changes) == Touched(old(log).changes) + if dryRun then 0 else c.bound
      ensures page != [] ==> page[|page| - 1] < UUID_COUNT && Past(page[|page| - 1], last)
      ensures |page| <= n
      ensures Quiet(env) ==> PageOf(EligibleIds(old(db)), last, n, page) && PageDone(old(db), page, dryRun, db, c)
    {
      var rows;
      page, rows := ReadPage(env, last, n);
      c := Counts(0, 0, 0, 0, 0);
      if page == [] { return; }
      ghost var plan;
      c, plan := HandlePage(env, rows, dryRun, keyOf, |log.changes|);
    }

    /** One turn of the page loop. */
    method RepairTurn(env: Environment, dryRun: bool, n: nat, last: Option<nat>, counts: Counts,
                      ghost keyOf: Keys, ghost ids: seq<nat>, ghost k: nat)
      returns (done: bool, next: Option<nat>, now: Counts, ghost position: nat)
      requires Honest(log, db)
      requires Quiet(env) ==> OnTrack(log.start, ids, last, k, dryRun, db, counts)
      modifies this
      ensures Honest(log, db) && Grows(old(log), log)
      ensures Touched(log.changes) == Touched(old(log).changes) + if dryRun then 0 else now.bound - counts.bound
      ensures Quiet(env) ==> OnTrack(log.start, ids, next, position, dryRun, db, now)
      ensures Quiet(env) && done ==> db == old(db) && PageOf(EligibleIds(db), next, n, [])
      ensures done ==> next == last
      ensures !done ==> n >= 1 && next.Some? && next.value < UUID_COUNT && Past(next.value, last)
    {
      ghost var before := db;
      var page, c := RepairPage(env, dryRun, n, last, keyOf);
      done, now, position := page == [], Plus(counts, c), k + |page|;
      next := if done then last else Some(page[|page| - 1]);
      QuietPage(Quiet(env), log.start, ids, last, k, dryRun, before, counts, n, page, db, c, next, position, now);
    }

    /** `repair_context_bindings`: pages of a query whose rows the loop itself removes from it. */
    method RepairContextBindings(env: Environment, dryRun: bool, batchSize: nat, ghost keyOf: Keys)
      returns (counts: Counts)
      requires Fits(db) && log == Log(db, [])
      modifies this
      ensures Honest(log, db) && log.start == old(db)
      ensures Touched(log.changes) == if dryRun then 0 else counts.bound
      ensures Quiet(env) && batchSize >= 1 ==> counts == CountsOf(old(db), AllRows(old(db)))
      ensures Quiet(env) ==> db == if dryRun || batchSize == 0 then old(db) else Repaired(old(db))
    {
      counts := Counts(0, 0, 0, 0, 0);
      ghost var start, k: nat := db, 0;
      ghost var ids := Ranked(EligibleIds(db), ById);
      var last: Option<nat>, done := None, false;
      StartsOnTrack(db, dryRun);
      while !done
        invariant Honest(log, db) && log.start == start
        invariant Touched(log.changes) == if dryRun then 0 else counts.bound
        invariant Quiet(env) ==> OnTrack(start, ids, last, k, dryRun, db, counts)
        invariant Quiet(env) && batchSize == 0 ==> db == start
        invariant Quiet(env) && done ==> PageOf(EligibleIds(db), last, batchSize, [])
        invariant last.Some? ==> last.value < UUID_COUNT
        decreases UUID_COUNT - (if last.Some? then last.value + 1 else 0), !done
      {
        done, last, counts, k := RepairTurn(env, dryRun, batchSize, last, counts, keyOf, ids, k);
      }
      if Quiet(env) && batchSize >= 1 { EndsOnTrack(start, last, k, dryRun, db, counts, batchSize); }
    }

    // ------------------------------------------------------------ the purge

    /** SELECT erase_migrated_attachment_files(:ids), with the rows locked since the page read. */
    method Erase(ids: seq<nat>, ghost page: nat)
      requires Honest(log, db) && GuardedErase(log, ids, page, db, Erased(db, ids))
      modifies this
      ensures Honest(log, db) && Grows(old(log), log) && db == Erased(old(db), ids)
      ensures Touched(log.changes) == Touched(old(log).changes) + |ids|
    {
      HonestNow(log, db);
      var c := Change(db, Erased(db, ids), Some(Erasing(ids, page)));
      HonestMore(log, c);
      log := Append(log, c);
      db := Erased(db, ids);
    }

    /** The page query FOR UPDATE, whatever others do to other rows, and the erasure. */
    method PurgePage(env: Environment, dryRun: bool, n: nat, last: Option<nat>) returns (page: seq<nat>)
      requires Honest(log, db)
      modifies this
      ensures Honest(log, db) && Grows(old(log), log)
      ensures Touched(log.changes) == Touched(old(log).changes) + if dryRun then 0 else |page|
      ensures page != [] ==> page[|page| - 1] < UUID_COUNT && Past(page[|page| - 1], last)
      ensures Quiet(env) ==> PageOf(PurgeSet(old(db)), last, n, page)
      ensures Quiet(env) ==> db == if dryRun || page == [] then old(db) else Erased(old(db), page)
    {
      Interfere(env, {}, {});
      HonestNow(log, db);
      page := FirstPage(PurgeSet(db), last, n);
      if dryRun || page == [] { return; }
      ghost var read, seen := log, db;
      Interfere(env, {}, set x | x in page);
      StillCondemned(read, log, seen, db, page);
      Erase(page, |read.changes|);
    }

    /** One turn of the purge loop. */
    method PurgeTurn(env: Environment, dryRun: bool, n: nat, last: Option<nat>, count: nat, ghost ids: seq<nat>)
      returns (done: bool, next: Option<nat>, now: nat)
      requires Honest(log, db)
      requires Quiet(env) ==> PurgeAt(log.start, ids, last, count, dryRun, db)
      modifies this
      ensures Honest(log, db) && Grows(old(log), log)
      ensures Touched(log.changes) == Touched(old(log).changes) + if dryRun then 0 else now - count
      ensures Quiet(env) ==> PurgeAt(log.start, ids, next, now, dryRun, db)
      ensures Quiet(env) && done ==> PageOf(PurgeSet(db), next, n, [])
      ensures done ==> next == last
      ensures !done ==> next.Some? && next.value < UUID_COUNT && Past(next.value, last)
    {
      ghost var before := db;
      var page := PurgePage(env, dryRun, n, last);
      done, now := page == [], count + |page|;
      next := if done then last else Some(page[|page| - 1]);
      if Quiet(env) { PurgeTurned(log.start, ids, last, count, dryRun, before, n, page, db, next, now); }
    }

    /** `purge_orphans`; None is the ValueError for a batch size below 1. */
    method PurgeOrphans(env: Environment, dryRun: bool, batchSize: int) returns (orphans: Option<nat>)
      requires Fits(db) && log == Log(db, [])
      modifies this
      ensures Honest(log, db) && log.start == old(db)
      ensures orphans.None? <==> batchSize < 1
      ensures orphans.None? ==> db == old(db)
      ensures orphans.Some? ==> Touched(log.changes) == if dryRun then 0 else orphans.value
      ensures Quiet(env) && batchSize >= 1 ==> orphans == Some(|PurgeSet(old(db))|)
      ensures Quiet(env) && batchSize >= 1 ==> db == if dryRun then old(db) else Purged(old(db))
    {
      if batchSize < 1 { return None; }
      ghost var start, ids := db, Ranked(PurgeSet(db), ById);
      var last: Option<nat>, count: nat, done := None, 0, false;
      PurgeStarts(db, dryRun);
      while !done
        invariant Honest(log, db) && log.start == start
        invariant Touched(log.changes) == if dryRun then 0 else count
        invariant Quiet(env) ==> PurgeAt(start, ids, last, count, dryRun, db)
        invariant Quiet(env) && done ==> PageOf(PurgeSet(db), last, batchSize, [])
        invariant last.Some? ==> last.value < UUID_COUNT
        decreases UUID_COUNT - (if last.Some? then last.value + 1 else 0), !done
      {
        done, last, count := PurgeTurn(env, dryRun, batchSize, last, count, ids);
      }
      if Quiet(env) { PurgeEnds(start, last, count, dryRun, db, batchSize); }
      orphans := Some(count);
    }
  }

  /** The rows of the page are locked, so what the page read found still holds when they are erased. */
  lemma StillCondemned(read: Log, log: Log, seen: Db, now: Db, page: seq<nat>)
    requires Honest(read, seen) && Grows(read, log)
    requires forall i :: 0 <= i < |page| ==> page[i] in PurgeSet(seen)
    requires Ascends(page)
    requires Allowed(seen, now, {}, set x | x in page)
    ensures GuardedErase(log, page, |read.changes|, now, Erased(now, page))
  {
    HonestNow(read, seen);
    assert StateAt(log, |read.changes|) == seen;
    forall i | 0 <= i < |page| ensures Condemned(log, page[i], |read.changes|, now) {
      assert page[i] in page;
    }
  }
}
