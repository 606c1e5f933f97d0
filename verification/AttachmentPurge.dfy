/** The purge, and the two commands together. */
module AttachmentPurge {
  import opened Sql
  import opened Ranking
  import opened Keyset
  import opened AttachmentTables
  import opened AttachmentQuiet

  function Purged(db: Db): Db {
    db.(files := map x | x in db.files && x !in PurgeSet(db) :: db.files[x])
  }

  function PurgedUpTo(db: Db, last: Option<nat>): Db {
    db.(files := map x | x in db.files && !(x in PurgeSet(db) && last.Some? && x <= last.value) :: db.files[x])
  }

  ghost function PurgeDbAt(start: Db, last: Option<nat>, dryRun: bool): Db {
    if dryRun then start else PurgedUpTo(start, last)
  }

  /** After k of the purgeable ids on a quiet database. */
  ghost predicate PurgeAt(start: Db, ids: seq<nat>, last: Option<nat>, k: nat, dryRun: bool, now: Db) {
    Lists(ids, PurgeSet(start)) && AtPosition(ids, last, k) && now == PurgeDbAt(start, last, dryRun)
  }

  lemma PurgeStarts(db: Db, dryRun: bool)
    ensures PurgeAt(db, Ranked(PurgeSet(db), ById), None, 0, dryRun, db)
  {
    RankedLists(PurgeSet(db));
    assert PurgedUpTo(db, None).files == db.files;
  }

  lemma SamePurgeRest(start: Db, last: Option<nat>, dryRun: bool, now: Db)
    requires now == PurgeDbAt(start, last, dryRun)
    ensures forall x :: Past(x, last) ==> (x in PurgeSet(now) <==> x in PurgeSet(start))
  {
    forall x | x in start.files && Past(x, last) ensures x in PurgeSet(now) <==> x in PurgeSet(start) {
      assert x in now.files && now.files[x] == start.files[x];
    }
  }

  /** Erasing a page is the one-shot purge up to its end. */
  lemma ErasedPage(db: Db, last: Option<nat>, n: nat, page: seq<nat>)
    requires PageOf(PurgeSet(db), last, n, page) && page != []
    ensures Erased(PurgedUpTo(db, last), page) == PurgedUpTo(db, Some(page[|page| - 1]))
  {
    var now, goal := Erased(PurgedUpTo(db, last), page), PurgedUpTo(db, Some(page[|page| - 1]));
    EndIsLater(PurgeSet(db), last, n, page);
    assert forall x :: x in page ==> x in PurgeSet(db);
    forall x ensures x in now.files <==> x in goal.files {
      if x in PurgeSet(db) { InPage(PurgeSet(db), last, n, page, x); }
    }
    assert now.files == goal.files;
  }

  lemma PurgeTurned(start: Db, ids: seq<nat>, last: Option<nat>, k: nat, dryRun: bool, before: Db, n: nat,
                    page: seq<nat>, after: Db, next: Option<nat>, position: nat)
    requires PurgeAt(start, ids, last, k, dryRun, before) && PageOf(PurgeSet(before), last, n, page)
    requires after == if dryRun || page == [] then before else Erased(before, page)
    requires next == (if page == [] then last else Some(page[|page| - 1])) && position == k + |page|
    ensures PurgeAt(start, ids, next, position, dryRun, after)
  {
    if page != [] {
      SamePurgeRest(start, last, dryRun, before);
      SamePage(PurgeSet(before), PurgeSet(start), last, n, page);
      KeysetContinues(PurgeSet(start), ids, last, k, n, page);
      if !dryRun { ErasedPage(start, last, n, page); }
    }
  }

  /** An empty page of a positive size: the whole one-shot purge, and its count. */
  lemma PurgeEnds(start: Db, last: Option<nat>, k: nat, dryRun: bool, now: Db, n: nat)
    requires PurgeAt(start, Ranked(PurgeSet(start), ById), last, k, dryRun, now)
    requires PageOf(PurgeSet(now), last, n, []) && n >= 1
    ensures k == |PurgeSet(start)| && now == if dryRun then start else Purged(start)
  {
    SamePurgeRest(start, last, dryRun, now);
    SamePage(PurgeSet(now), PurgeSet(start), last, n, []);
    KeysetContinues(PurgeSet(start), Ranked(PurgeSet(start), ById), last, k, n, []);
    AllPurged(start, last, n);
  }

  lemma AllPurged(db: Db, last: Option<nat>, n: nat)
    requires PageOf(PurgeSet(db), last, n, []) && n >= 1
    ensures PurgedUpTo(db, last) == Purged(db)
  {
    forall x | x in PurgeSet(db) ensures !Past(x, last) {
      assert !OnOrAfter([], n, x);
    }
    assert PurgedUpTo(db, last).files == Purged(db).files;
  }

  // ---------------------------------------------------------------- repair and purge

  /** bound + shared + orphan + unparsable is the number of eligible rows. */
  lemma CountsPartition(db: Db)
    ensures var c := CountsOf(db, AllRows(db));
            c.bound + c.shared + c.orphan + c.unparsable == |EligibleIds(db)| && c.contextDeleted <= c.bound
  {
    CountsAddUp(db, AllRows(db));
  }

  lemma {:induction false} NothingBinds(db: Db, rows: seq<Row>)
    requires forall i :: 0 <= i < |rows| ==> !OutcomeOf(db, rows[i].marker).Bind?
    ensures CountsOf(db, rows).bound == 0
    decreases |rows|
  {
    if rows != [] { NothingBinds(db, rows[..|rows| - 1]); }
  }

  lemma RepairedOutcome(db: Db, x: nat)
    requires x in db.files
    ensures var now := Repaired(db);
            && now.files[x] == RepairedRow(db, db.files[x])
            && OutcomeOf(now, now.files[x].marker) == OutcomeOf(db, db.files[x].marker)
  {
  }

  /** A second repair changes nothing. */
  lemma SecondRepair(db: Db)
    ensures Repaired(Repaired(db)) == Repaired(db)
  {
    var now := Repaired(db);
    forall x | x in now.files ensures RepairedRow(now, now.files[x]) == now.files[x] { RepairedOutcome(db, x); }
    assert Repaired(now).files == now.files;
  }

  /** A second repair counts nothing as bound. */
  lemma SecondRepairBindsNothing(db: Db)
    ensures CountsOf(Repaired(db), AllRows(Repaired(db))).bound == 0
  {
    var now := Repaired(db);
    var ids := Ranked(EligibleIds(now), ById);
    forall i | 0 <= i < |ids| ensures !OutcomeOf(now, RowsOf(now, ids)[i].marker).Bind? {
      assert ids[i] in ids;
      RepairedOutcome(db, ids[i]);
    }
    NothingBinds(now, RowsOf(now, ids));
  }

  /** For an unbound row with a canonical marker: the repair counts it as orphan exactly when the purge deletes it. */
  lemma OrphanIffPurged(db: Db, x: nat)
    requires x in db.files && Eligible(db.files[x]) && db.files[x].marker.Canonical?
    ensures OutcomeOf(db, db.files[x].marker) == Orphan <==> x !in Purged(Repaired(db)).files
  {
    var now := Repaired(db);
    assert now.files[x] == RepairedRow(db, db.files[x]);
    assert x in PurgeSet(now) <==> SourceGone(db, db.files[x].marker.attachment);
  }

  /** After repair then purge, such a row is gone, or bound to its memory's context, or its memory has none. */
  lemma AfterRepairAndPurge(db: Db, x: nat)
    requires x in db.files && Eligible(db.files[x]) && db.files[x].marker.Canonical?
    ensures var final, a := Purged(Repaired(db)), db.files[x].marker.attachment;
            x in final.files ==>
              && a in db.attachments && db.attachments[a] in db.memories
              && final.files[x] == db.files[x].(context := db.memories[db.attachments[a]])
  {
    var now := Repaired(db);
    OrphanIffPurged(db, x);
    assert now.files[x] == RepairedRow(db, db.files[x]);
  }

  /** A row that only the lenient parser understands and whose source is gone is an orphan nobody purges. */
  lemma LenientOrphanStays(db: Db, x: nat)
    requires x in db.files && db.files[x].marker.Lenient? && Eligible(db.files[x])
    requires OutcomeOf(db, db.files[x].marker) == Orphan
    ensures x in Purged(Repaired(db)).files && Purged(Repaired(db)).files[x] == db.files[x]
  {
    assert Repaired(db).files[x] == RepairedRow(db, db.files[x]);
  }
}
