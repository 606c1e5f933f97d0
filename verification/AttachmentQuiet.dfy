/** The repair and its counts on a database nobody else writes to: pages of the one-shot repair. */
module AttachmentQuiet {
  import opened Sql
  import opened Ranking
  import opened Keyset
  import opened AttachmentTables
  import opened AttachmentPage

  ghost predicate Ascend(targets: seq<Target>) {
    forall i, j :: 0 <= i < j < |targets| ==> targets[i].file < targets[j].file
  }

  predicate IsBound(before: Db, t: Target, after: Db) {
    && t.file in before.files && t.file in after.files
    && after.files[t.file] == before.files[t.file].(context := Some(t.context))
  }

  /** Exactly the targets got their context. */
  ghost predicate BoundBy(before: Db, targets: seq<Target>, after: Db) {
    && SameParents(before, after) && after.files.Keys == before.files.Keys
    && (forall k :: 0 <= k < |targets| ==> IsBound(before, targets[k], after))
    && (forall x :: x in before.files && x !in Files(targets) ==> after.files[x] == before.files[x])
  }

  /** The targets are unbound files and their contexts exist. */
  ghost predicate Bindable(db: Db, targets: seq<Target>) {
    forall k :: 0 <= k < |targets| ==>
      targets[k].file in db.files && db.files[targets[k].file].context.None? && targets[k].context in db.contexts
  }

  /** The same, and every context was found by the lock. */
  ghost predicate AllLive(db: Db, targets: seq<Target>, live: set<nat>) {
    Bindable(db, targets) && forall k :: 0 <= k < |targets| ==> targets[k].context in live
  }

  /** On a quiet database: i targets are done, all of them counted as bound. The counts are bound, orphan and
      context_deleted. */
  ghost predicate Calm(before: Db, targets: seq<Target>, i: nat, dryRun: bool, now: Db, counts: (nat, nat, nat))
    requires i <= |targets|
  {
    && counts == (i, 0, DeletedAmong(targets[..i]))
    && if dryRun then now == before else BoundBy(before, targets[..i], now)
  }

  lemma StaysCalm(before: Db, targets: seq<Target>, i: nat, dryRun: bool, now: Db, counts: (nat, nat, nat))
    requires Ascend(targets) && Bindable(before, targets) && i < |targets|
    requires Calm(before, targets, i, dryRun, now, counts)
    ensures targets[i].file in now.files && now.files[targets[i].file].context.None?
    ensures Calm(before, targets, i + 1, dryRun, if dryRun then now else Bound(now, targets[i]),
                 (counts.0 + 1, counts.1, counts.2 + if targets[i].deleted then 1 else 0))
  {
    assert targets[..i + 1][..i] == targets[..i];
    if !dryRun { BindOneMore(before, targets, i, now); }
  }

  lemma BindOneMore(before: Db, targets: seq<Target>, i: nat, now: Db)
    requires Ascend(targets) && Bindable(before, targets) && i < |targets| && BoundBy(before, targets[..i], now)
    ensures targets[i].file in now.files && now.files[targets[i].file].context.None?
    ensures BoundBy(before, targets[..i + 1], Bound(now, targets[i]))
  {
    var t := targets[i];
    assert t.file !in Files(targets[..i]);
    var after := Bound(now, t);
    assert targets[..i + 1] == targets[..i] + [t];
    forall x | x in before.files && x !in Files(targets[..i + 1]) ensures after.files[x] == before.files[x] {
      assert Files(targets[..i + 1])[i] == t.file;
      assert forall k :: 0 <= k < i ==> Files(targets[..i + 1])[k] == Files(targets[..i])[k];
    }
  }

  /** The rows of the page are there and have no binding. */
  ghost predicate Unbound(db: Db, rows: seq<Row>) {
    forall i :: 0 <= i < |rows| ==>
      rows[i].id in db.files && db.files[rows[i].id].context.None? && db.files[rows[i].id].marker == rows[i].marker
  }

  lemma TargetsAscend(db: Db, rows: seq<Row>)
    requires Ascending(rows)
    ensures Ascend(Bindings(db, rows))
    ensures Unbound(db, rows) ==> Bindable(db, Bindings(db, rows))
  {
    BindingsAscend(db, rows);
    var b := Bindings(db, rows);
    if Unbound(db, rows) {
      forall k | 0 <= k < |b|
        ensures b[k].file in db.files && db.files[b[k].file].context.None? && b[k].context in db.contexts
      {
        assert b[k] in b;
        var i :| 0 <= i < |rows| && IsTarget(db, rows[i], b[k]);
      }
    }
  }

  // ---------------------------------------------------------------- a quiet database

  /** The eligible rows in id order. */
  ghost function AllRows(db: Db): (all: seq<Row>)
    ensures |all| == |EligibleIds(db)|
  {
    RowsOf(db, Ranked(EligibleIds(db), ById))
  }

  ghost function DbAt(start: Db, last: Option<nat>, dryRun: bool): Db {
    if dryRun then start else RepairedUpTo(start, last)
  }

  /** The report on the first k of the ids. */
  ghost function CountsAt(start: Db, ids: seq<nat>, k: nat): Counts
    requires k <= |ids|
  {
    CountsOf(start, RowsOf(start, ids[..k]))
  }

  /** After k of the eligible ids: those are done, the others are as they were. */
  ghost predicate OnTrack(start: Db, ids: seq<nat>, last: Option<nat>, k: nat, dryRun: bool, now: Db, counts: Counts) {
    && Lists(ids, EligibleIds(start)) && AtPosition(ids, last, k)
    && now == DbAt(start, last, dryRun) && counts == CountsAt(start, ids, k)
  }

  lemma StartsOnTrack(db: Db, dryRun: bool)
    ensures OnTrack(db, Ranked(EligibleIds(db), ById), None, 0, dryRun, db, Counts(0, 0, 0, 0, 0))
  {
    RankedLists(EligibleIds(db));
    assert RepairedUpTo(db, None).files == db.files;
  }

  /** Rows at or before the last id do not matter for the next page; markers and parents stay anyway. */
  lemma SameRest(start: Db, last: Option<nat>, dryRun: bool, now: Db)
    requires now == DbAt(start, last, dryRun)
    ensures forall x :: Past(x, last) ==> (x in EligibleIds(now) <==> x in EligibleIds(start))
    ensures forall x :: MarkerOf(now, x) == MarkerOf(start, x)
    ensures SameParents(start, now)
  {
  }

  lemma SameRows(a: Db, b: Db, ids: seq<nat>)
    requires forall x :: MarkerOf(a, x) == MarkerOf(b, x)
    ensures RowsOf(a, ids) == RowsOf(b, ids)
  {
  }

  lemma RowsAppend(db: Db, a: seq<nat>, b: seq<nat>, ab: seq<nat>)
    requires ab == a + b
    ensures RowsOf(db, ab) == RowsOf(db, a) + RowsOf(db, b)
  {
  }

  /** What handling a page leaves and reports on a quiet database. */
  ghost predicate RowsDone(before: Db, rows: seq<Row>, dryRun: bool, after: Db, c: Counts) {
    && c == CountsOf(before, rows)
    && if dryRun then after == before else BoundBy(before, Bindings(before, rows), after)
  }

  ghost predicate PageDone(before: Db, page: seq<nat>, dryRun: bool, after: Db, c: Counts) {
    RowsDone(before, RowsOf(before, page), dryRun, after, c)
  }

  // ---------------------------------------------------------------- what a page does to the rows

  lemma TargetHasRow(db: Db, rows: seq<Row>, t: Target) returns (i: nat)
    requires Ascending(rows) && t in Bindings(db, rows)
    ensures i < |rows| && IsTarget(db, rows[i], t)
  {
    BindingsAscend(db, rows);
    i :| 0 <= i < |rows| && IsTarget(db, rows[i], t);
  }

  lemma TargetInFiles(db: Db, rows: seq<Row>, i: nat)
    requires i < |rows| && OutcomeOf(db, rows[i].marker).Bind?
    ensures rows[i].id in Files(Bindings(db, rows))
  {
    TargetIsListed(db, rows, i);
    var b := Bindings(db, rows);
    var j :| 0 <= j < |b| && b[j].file == rows[i].id;
    assert Files(b)[j] == rows[i].id;
  }

  lemma RowsAscend(db: Db, ids: seq<nat>)
    requires Ascends(ids)
    ensures Ascending(RowsOf(db, ids))
  {
  }

  /** A target of the page is an eligible row on it, and binding it is its repair. */
  lemma TargetAt(db: Db, page: seq<nat>, t: Target)
    requires Ascends(page) && (forall i :: 0 <= i < |page| ==> page[i] in EligibleIds(db))
    requires t in Bindings(db, RowsOf(db, page))
    ensures t.file in page && t.file in EligibleIds(db)
    ensures RepairedRow(db, db.files[t.file]) == db.files[t.file].(context := Some(t.context))
  {
    RowsAscend(db, page);
    var i := TargetHasRow(db, RowsOf(db, page), t);
    assert page[i] in EligibleIds(db) && page[i] in page;
  }

  /** A file on the page that is no target needs no repair. */
  lemma NonTarget(db: Db, page: seq<nat>, x: nat)
    requires x in db.files && x in page && x !in Files(Bindings(db, RowsOf(db, page)))
    ensures RepairedRow(db, db.files[x]) == db.files[x]
  {
    var i :| 0 <= i < |page| && page[i] == x;
    if OutcomeOf(db, db.files[x].marker).Bind? { TargetInFiles(db, RowsOf(db, page), i); }
  }

  /** Binding the targets of a page, row by row: the repair up to the end of the page. */
  lemma AfterPageAt(start: Db, last: Option<nat>, n: nat, page: seq<nat>, after: Db, x: nat)
    requires PageOf(EligibleIds(start), last, n, page) && page != [] && x in start.files
    requires BoundBy(RepairedUpTo(start, last), Bindings(start, RowsOf(start, page)), after)
    ensures after.files[x] == RepairedUpTo(start, Some(page[|page| - 1])).files[x]
  {
    var t, before := Bindings(start, RowsOf(start, page)), RepairedUpTo(start, last);
    if x in Files(t) {
      var j :| 0 <= j < |t| && Files(t)[j] == x;
      TargetAt(start, page, t[j]);
      assert x in EligibleIds(start);
      InPage(EligibleIds(start), last, n, page, x);
      assert IsBound(before, t[j], after);
    } else {
      if x in page { NonTarget(start, page, x); }
      if x in EligibleIds(start) { InPage(EligibleIds(start), last, n, page, x); }
      EndIsLater(EligibleIds(start), last, n, page);
    }
  }

  lemma EndIsLater(s: set<nat>, last: Option<nat>, n: nat, page: seq<nat>)
    requires PageOf(s, last, n, page) && page != []
    ensures Past(page[|page| - 1], last)
  {
  }

  lemma AfterPage(start: Db, last: Option<nat>, n: nat, page: seq<nat>, after: Db)
    requires PageOf(EligibleIds(start), last, n, page) && page != []
    requires BoundBy(RepairedUpTo(start, last), Bindings(start, RowsOf(start, page)), after)
    ensures after == RepairedUpTo(start, Some(page[|page| - 1]))
  {
    var goal := RepairedUpTo(start, Some(page[|page| - 1]));
    forall x | x in start.files ensures after.files[x] == goal.files[x] { AfterPageAt(start, last, n, page, after, x); }
    assert after.files == goal.files;
  }

  // ---------------------------------------------------------------- a turn of the page loop

  lemma DbTurn(start: Db, last: Option<nat>, dryRun: bool, before: Db, n: nat, page: seq<nat>, after: Db,
               next: Option<nat>)
    requires before == DbAt(start, last, dryRun) && PageOf(EligibleIds(before), last, n, page) && page != []
    requires if dryRun then after == before else BoundBy(before, Bindings(before, RowsOf(before, page)), after)
    requires next == Some(page[|page| - 1])
    ensures after == DbAt(start, next, dryRun)
  {
    if !dryRun {
      SameRest(start, last, dryRun, before);
      SamePage(EligibleIds(before), EligibleIds(start), last, n, page);
      SameRows(before, start, page);
      SameOutcomes(start, before, RowsOf(start, page));
      AfterPage(start, last, n, page, after);
    }
  }

  lemma CountsTurn(start: Db, ids: seq<nat>, k: nat, page: seq<nat>, before: Db, c: Counts, position: nat)
    requires position == k + |page| <= |ids| && page == ids[k..position]
    requires SameParents(start, before) && forall x :: MarkerOf(before, x) == MarkerOf(start, x)
    requires c == CountsOf(before, RowsOf(before, page))
    ensures CountsAt(start, ids, position) == Plus(CountsAt(start, ids, k), c)
  {
    SameRows(before, start, page);
    SameOutcomes(start, before, RowsOf(start, page));
    RowsAppend(start, ids[..k], page, ids[..position]);
    CountsAppend(start, RowsOf(start, ids[..k]), RowsOf(start, page));
  }

  /** Where the loop stands after a page. */
  predicate Advanced(last: Option<nat>, k: nat, was: Counts, page: seq<nat>, c: Counts,
                     next: Option<nat>, position: nat, now: Counts) {
    && next == (if page == [] then last else Some(page[|page| - 1]))
    && position == k + |page| && now == Plus(was, c)
  }

  lemma StaysOnTrack(start: Db, ids: seq<nat>, last: Option<nat>, k: nat, dryRun: bool, before: Db, was: Counts, n: nat,
                     page: seq<nat>, after: Db, c: Counts, next: Option<nat>, position: nat, now: Counts)
    requires OnTrack(start, ids, last, k, dryRun, before, was) && PageOf(EligibleIds(before), last, n, page)
    requires page != [] && PageDone(before, page, dryRun, after, c)
    requires Advanced(last, k, was, page, c, next, position, now)
    ensures OnTrack(start, ids, next, position, dryRun, after, now)
  {
    NextSlice(start, ids, last, k, dryRun, before, n, page, next, position);
    DbTurn(start, last, dryRun, before, n, page, after, next);
    CountsMove(start, ids, last, k, dryRun, before, was, n, page, c, position, now);
  }

  lemma NextSlice(start: Db, ids: seq<nat>, last: Option<nat>, k: nat, dryRun: bool, before: Db, n: nat, page: seq<nat>,
                  next: Option<nat>, position: nat)
    requires Lists(ids, EligibleIds(start)) && AtPosition(ids, last, k) && before == DbAt(start, last, dryRun)
    requires PageOf(EligibleIds(before), last, n, page) && page != []
    requires next == Some(page[|page| - 1]) && position == k + |page|
    ensures position <= |ids| && page == ids[k..position] && AtPosition(ids, next, position)
  {
    SameRest(start, last, dryRun, before);
    SamePage(EligibleIds(before), EligibleIds(start), last, n, page);
    KeysetContinues(EligibleIds(start), ids, last, k, n, page);
  }

  lemma CountsMove(start: Db, ids: seq<nat>, last: Option<nat>, k: nat, dryRun: bool, before: Db, was: Counts, n: nat,
                   page: seq<nat>, c: Counts, position: nat, now: Counts)
    requires position == k + |page| <= |ids| && page == ids[k..position] && before == DbAt(start, last, dryRun)
    requires was == CountsAt(start, ids, k) && c == CountsOf(before, RowsOf(before, page)) && now == Plus(was, c)
    ensures now == CountsAt(start, ids, position)
  {
    SameRest(start, last, dryRun, before);
    CountsTurn(start, ids, k, page, before, c, position);
  }

  /** A turn of the page loop, as an implication: nothing is known of a database others write to. */
  lemma QuietPage(quiet: bool, start: Db, ids: seq<nat>, last: Option<nat>, k: nat, dryRun: bool, before: Db,
                  was: Counts, n: nat, page: seq<nat>, after: Db, c: Counts, next: Option<nat>, position: nat,
                  now: Counts)
    requires quiet ==> OnTrack(start, ids, last, k, dryRun, before, was) && PageOf(EligibleIds(before), last, n, page)
    requires quiet ==> PageDone(before, page, dryRun, after, c)
    requires Advanced(last, k, was, page, c, next, position, now)
    ensures quiet ==> OnTrack(start, ids, next, position, dryRun, after, now)
    ensures quiet && page == [] ==> after == before
  {
    if quiet {
      if page == [] {
        assert RowsOf(before, page) == [];
        NoTargets(before, dryRun, after);
      } else {
        StaysOnTrack(start, ids, last, k, dryRun, before, was, n, page, after, c, next, position, now);
      }
    }
  }

  lemma NoTargets(before: Db, dryRun: bool, after: Db)
    requires if dryRun then after == before else BoundBy(before, [], after)
    ensures after == before
  {
    if !dryRun { assert after.files == before.files; }
  }

  /** An empty page of a positive size: the whole one-shot repair and its report. */
  lemma EndsOnTrack(start: Db, last: Option<nat>, k: nat, dryRun: bool, now: Db, counts: Counts, n: nat)
    requires OnTrack(start, Ranked(EligibleIds(start), ById), last, k, dryRun, now, counts)
    requires PageOf(EligibleIds(now), last, n, []) && n >= 1
    ensures counts == CountsOf(start, AllRows(start))
    ensures now == if dryRun then start else Repaired(start)
  {
    var ids := Ranked(EligibleIds(start), ById);
    SameRest(start, last, dryRun, now);
    SamePage(EligibleIds(now), EligibleIds(start), last, n, []);
    KeysetContinues(EligibleIds(start), ids, last, k, n, []);
    assert ids[..k] == ids;
    NothingLeft(start, last, n);
  }

  lemma NothingLeft(db: Db, last: Option<nat>, n: nat)
    requires PageOf(EligibleIds(db), last, n, []) && n >= 1
    ensures RepairedUpTo(db, last) == Repaired(db)
  {
    forall x | x in EligibleIds(db) ensures !Past(x, last) {
      assert !OnOrAfter([], n, x);
    }
    forall x | x in db.files && Past(x, last) ensures RepairedRow(db, db.files[x]) == db.files[x] {
      assert x !in EligibleIds(db);
    }
    assert RepairedUpTo(db, last).files == Repaired(db).files;
  }
}
