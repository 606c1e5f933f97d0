/** What the repair and the purge do beside other processes: a log of every change, and what the scripts' own changes
    rest on. */
module AttachmentHistory {
  import opened Sql
  import opened AttachmentTables
  import opened AttachmentPage

  /** A change by a script: a file bound after the page read and the parent read at the given places of the log, or
      files erased after the page read at the given place. */
  datatype Deed = Binding(target: Target, page: nat, parents: nat) | Erasing(ids: seq<nat>, page: nat)

  /** One change of the database, by a script or by somebody else. */
  datatype Change = Change(before: Db, after: Db, mine: Option<Deed>)

  datatype Log = Log(start: Db, changes: seq<Change>)

  const UUID_COUNT := 0x1_0000_0000_0000_0000_0000_0000_0000_0000

  /** File ids are 128-bit values. */
  predicate Fits(db: Db) {
    forall x :: x in db.files ==> x < UUID_COUNT
  }

  /** The database after the first n changes. */
  function StateAt(log: Log, n: nat): Db
    requires n <= |log.changes|
  {
    if n == 0 then log.start else log.changes[n - 1].after
  }

  /** The page read found the file unbound, and the parent read then said to bind its marker to this context. */
  ghost predicate Sourced(log: Log, t: Target, page: nat, parents: nat) {
    && page <= parents <= |log.changes|
    && t.file in StateAt(log, page).files && Eligible(StateAt(log, page).files[t.file])
    && OutcomeOf(StateAt(log, parents), StateAt(log, page).files[t.file].marker) == Bind(t.context, t.deleted)
  }

  /** The row has no binding and the context exists; nothing else changes. */
  ghost predicate GuardedBind(before: Db, t: Target, after: Db) {
    && t.file in before.files && before.files[t.file].context.None? && t.context in before.contexts
    && after == Bound(before, t)
  }

  /** The page read found the file purgeable, and the row is still the same. */
  ghost predicate Condemned(log: Log, x: nat, page: nat, before: Db) {
    && page <= |log.changes| && x in StateAt(log, page).files
    && Purgeable(StateAt(log, page), StateAt(log, page).files[x])
    && x in before.files && before.files[x] == StateAt(log, page).files[x]
  }

  /** Exactly these files go, each of them once. */
  ghost predicate GuardedErase(log: Log, ids: seq<nat>, page: nat, before: Db, after: Db) {
    && (forall i :: 0 <= i < |ids| ==> Condemned(log, ids[i], page, before))
    && (forall i, j :: 0 <= i < j < |ids| ==> ids[i] != ids[j])
    && after == Erased(before, ids)
  }

  ghost predicate Justified(log: Log, c: Change) {
    match c.mine
    case None => true
    case Some(Binding(t, page, parents)) => Sourced(log, t, page, parents) && GuardedBind(c.before, t, c.after)
    case Some(Erasing(ids, page)) => GuardedErase(log, ids, page, c.before, c.after)
  }

  /** The log leads to `now` without gaps, and every change by a script is justified by what came before. */
  ghost predicate Honest(log: Log, now: Db)
    decreases |log.changes|
  {
    if log.changes == [] then log.start == now && Fits(now)
    else
      var n := |log.changes| - 1;
      var c, earlier := log.changes[n], log.(changes := log.changes[..n]);
      c.after == now && Fits(now) && Justified(earlier, c) && Honest(earlier, c.before)
  }

  function Weight(c: Change): nat {
    match c.mine
    case None => 0
    case Some(Binding(_, _, _)) => 1
    case Some(Erasing(ids, _)) => |ids|
  }

  /** How many rows the scripts changed. */
  ghost function Touched(changes: seq<Change>): nat {
    if changes == [] then 0 else Touched(changes[..|changes| - 1]) + Weight(changes[|changes| - 1])
  }

  function Append(log: Log, c: Change): Log {
    log.(changes := log.changes + [c])
  }

  /** The later log continues the earlier one. */
  predicate Grows(a: Log, b: Log) {
    a.start == b.start && a.changes <= b.changes
  }

  lemma HonestMore(log: Log, c: Change)
    requires Honest(log, c.before) && Justified(log, c) && Fits(c.after)
    ensures Honest(Append(log, c), c.after) && Grows(log, Append(log, c))
    ensures Touched(Append(log, c).changes) == Touched(log.changes) + Weight(c)
  {
    assert (log.changes + [c])[..|log.changes|] == log.changes;
  }

  lemma HonestNow(log: Log, now: Db)
    requires Honest(log, now)
    ensures Fits(now) && StateAt(log, |log.changes|) == now
  {
  }

  lemma SourcedStays(a: Log, b: Log, t: Target, page: nat, parents: nat)
    requires Sourced(a, t, page, parents) && Grows(a, b)
    ensures Sourced(b, t, page, parents)
  {
    assert StateAt(b, page) == StateAt(a, page) && StateAt(b, parents) == StateAt(a, parents);
  }

  /** Theorem: every change by a script, wherever it stands in the log, is justified by the log before it. */
  lemma {:induction false} HonestEverywhere(log: Log, now: Db, i: nat)
    requires Honest(log, now) && i < |log.changes|
    ensures Justified(log.(changes := log.changes[..i]), log.changes[i])
    ensures log.changes[i].before == StateAt(log, i)
    decreases |log.changes|
  {
    var n := |log.changes| - 1;
    var earlier := log.(changes := log.changes[..n]);
    if i < n {
      HonestEverywhere(earlier, log.changes[n].before, i);
      assert earlier.changes[..i] == log.changes[..i];
    } else {
      HonestNow(earlier, log.changes[n].before);
    }
  }

  // ---------------------------------------------------------------- other processes

  /** What somebody else does to the database at a given moment, if the locks allow it. */
  type Environment = (nat, Db) -> Db

  ghost predicate Quiet(env: Environment) {
    forall time, db :: env(time, db) == db
  }

  /** A context under KEY SHARE stays; a file row under its row lock does not change. */
  predicate Allowed(before: Db, after: Db, contexts: set<nat>, files: set<nat>) {
    && Fits(after)
    && (forall c :: c in contexts && c in before.contexts ==> c in after.contexts)
    && (forall x :: x in files && x in before.files ==> x in after.files && after.files[x] == before.files[x])
  }

  // ---------------------------------------------------------------- pages and their targets

  /** The rows are those of a page read at this place of the log. */
  ghost predicate ReadAt(log: Log, page: nat, rows: seq<Row>) {
    page <= |log.changes| && forall i :: 0 <= i < |rows| ==> IsEligibleRow(StateAt(log, page), rows[i])
  }

  predicate IsEligibleRow(db: Db, row: Row) {
    row.id in db.files && Eligible(db.files[row.id]) && row.marker == db.files[row.id].marker
  }

  ghost predicate AllSourced(log: Log, targets: seq<Target>, page: nat, parents: nat) {
    forall k :: 0 <= k < |targets| ==> Sourced(log, targets[k], page, parents)
  }

  lemma AllSourcedStay(a: Log, b: Log, targets: seq<Target>, page: nat, parents: nat)
    requires AllSourced(a, targets, page, parents) && Grows(a, b)
    ensures AllSourced(b, targets, page, parents)
  {
    forall k | 0 <= k < |targets| ensures Sourced(b, targets[k], page, parents) {
      SourcedStays(a, b, targets[k], page, parents);
    }
  }

  lemma ReadAtStays(a: Log, b: Log, page: nat, rows: seq<Row>)
    requires ReadAt(a, page, rows) && Grows(a, b)
    ensures ReadAt(b, page, rows)
  {
    assert StateAt(b, page) == StateAt(a, page);
  }

  /** The targets of a page, computed from a later parent read, are sourced. */
  lemma TargetsAreSourced(log: Log, page: nat, rows: seq<Row>, now: Db)
    requires Honest(log, now) && ReadAt(log, page, rows) && Ascending(rows)
    ensures AllSourced(log, Bindings(now, rows), page, |log.changes|)
  {
    HonestNow(log, now);
    BindingsAscend(now, rows);
    var targets := Bindings(now, rows);
    forall k | 0 <= k < |targets| ensures Sourced(log, targets[k], page, |log.changes|) {
      assert targets[k] in targets;
      var i :| 0 <= i < |rows| && IsTarget(now, rows[i], targets[k]);
      assert IsEligibleRow(StateAt(log, page), rows[i]);
    }
  }
}
