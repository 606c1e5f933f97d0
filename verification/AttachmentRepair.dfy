/** The tables `migrate_attachments_to_r2.py --repair-context` and `--purge-orphans` work on. */
module AttachmentTables {
  import opened Sql

  /** What `created_by` says: not a migrated copy; the canonical text form of an attachment id, which the purge's
      regular expression accepts; a spelling only the lenient UUID parser of the repair accepts; or garbage. */
  datatype Marker = Unrelated | Canonical(attachment: nat) | Lenient(attachment: nat) | Garbage

  datatype FileRow = FileRow(marker: Marker, context: Option<nat>)

  /** Attachments point to memories, memories to a context or none; a context row says whether it is soft-deleted. */
  datatype Db = Db(files: map<nat, FileRow>, attachments: map<nat, nat>, memories: map<nat, Option<nat>>,
                   contexts: map<nat, bool>)

  datatype Outcome = Bind(context: nat, deleted: bool) | WorkspaceWide | Orphan | Unparsable

  datatype Kind = KBind | KWorkspaceWide | KOrphan | KUnparsable

  function KindOf(o: Outcome): Kind {
    match o
    case Bind(_, _) => KBind
    case WorkspaceWide => KWorkspaceWide
    case Orphan => KOrphan
    case Unparsable => KUnparsable
  }

  /** What the owner of an attachment says about its copies. */
  function ParentOutcome(db: Db, a: nat): Outcome {
    if a !in db.attachments || db.attachments[a] !in db.memories then Orphan
    else match db.memories[db.attachments[a]]
      case None => WorkspaceWide
      case Some(c) => if c in db.contexts then Bind(c, db.contexts[c]) else Orphan
  }

  function OutcomeOf(db: Db, m: Marker): Outcome {
    match m
    case Canonical(a) => ParentOutcome(db, a)
    case Lenient(a) => ParentOutcome(db, a)
    case _ => Unparsable
  }

  predicate Eligible(f: FileRow) {
    f.marker != Unrelated && f.context.None?
  }

  function EligibleIds(db: Db): set<nat> {
    set x | x in db.files && Eligible(db.files[x])
  }

  /** The one-shot repair, up to and including a file id. */
  function RepairedRow(db: Db, f: FileRow): FileRow {
    if Eligible(f) && OutcomeOf(db, f.marker).Bind? then f.(context := Some(OutcomeOf(db, f.marker).context)) else f
  }

  function RepairedUpTo(db: Db, last: Option<nat>): Db {
    db.(files := map x | x in db.files ::
                   if last.Some? && x <= last.value then RepairedRow(db, db.files[x]) else db.files[x])
  }

  function Repaired(db: Db): Db {
    db.(files := map x | x in db.files :: RepairedRow(db, db.files[x]))
  }

  // ---------------------------------------------------------------- the purge

  /** No attachment of this id whose memory has no context or an existing one. */
  predicate SourceGone(db: Db, a: nat) {
    !(&& a in db.attachments && db.attachments[a] in db.memories
      && var c := db.memories[db.attachments[a]]; (c.None? || c.value in db.contexts))
  }

  predicate Purgeable(db: Db, f: FileRow) {
    f.marker.Canonical? && SourceGone(db, f.marker.attachment)
  }

  function PurgeSet(db: Db): set<nat> {
    set x | x in db.files && Purgeable(db, db.files[x])
  }

  /** DELETE of the page's rows; only migrated copies are touched. */
  function Erased(db: Db, ids: seq<nat>): Db {
    db.(files := map x | x in db.files && (x !in ids || db.files[x].marker == Unrelated) :: db.files[x])
  }

  // ---------------------------------------------------------------- pages

  /** A row of a page: the file's id and its marker. */
  datatype Row = Row(id: nat, marker: Marker)

  function MarkerOf(db: Db, x: nat): Marker {
    if x in db.files then db.files[x].marker else Unrelated
  }

  function RowsOf(db: Db, ids: seq<nat>): (rows: seq<Row>)
    ensures |rows| == |ids| && forall i :: 0 <= i < |ids| ==> rows[i] == Row(ids[i], MarkerOf(db, ids[i]))
  {
    seq(|ids|, i requires 0 <= i < |ids| => Row(ids[i], MarkerOf(db, ids[i])))
  }

  function Tally(db: Db, rows: seq<Row>, kind: Kind): nat {
    if rows == [] then 0
    else
      var n := |rows| - 1;
      Tally(db, rows[..n], kind) + if KindOf(OutcomeOf(db, rows[n].marker)) == kind then 1 else 0
  }

  datatype Target = Target(file: nat, context: nat, deleted: bool)

  datatype Counts = Counts(bound: nat, shared: nat, orphan: nat, contextDeleted: nat, unparsable: nat)

  function Plus(a: Counts, b: Counts): Counts {
    Counts(a.bound + b.bound, a.shared + b.shared, a.orphan + b.orphan, a.contextDeleted + b.contextDeleted,
           a.unparsable + b.unparsable)
  }

  function Bound(db: Db, t: Target): Db
    requires t.file in db.files
  {
    db.(files := db.files[t.file := db.files[t.file].(context := Some(t.context))])
  }

  /** What one row adds to the report. */
  function CountOf(o: Outcome): Counts {
    match o
    case Bind(_, deleted) => Counts(1, 0, 0, if deleted then 1 else 0, 0)
    case WorkspaceWide => Counts(0, 1, 0, 0, 0)
    case Orphan => Counts(0, 0, 1, 0, 0)
    case Unparsable => Counts(0, 0, 0, 0, 1)
  }

  /** The report for a list of rows. */
  function CountsOf(db: Db, rows: seq<Row>): Counts {
    if rows == [] then Counts(0, 0, 0, 0, 0)
    else Plus(CountsOf(db, rows[..|rows| - 1]), CountOf(OutcomeOf(db, rows[|rows| - 1].marker)))
  }

  /** The rows to bind, in the order of the page. */
  function Bindings(db: Db, rows: seq<Row>): seq<Target> {
    if rows == [] then []
    else
      var n := |rows| - 1;
      var rest := Bindings(db, rows[..n]);
      match OutcomeOf(db, rows[n].marker)
      case Bind(c, deleted) => rest + [Target(rows[n].id, c, deleted)]
      case _ => rest
  }

  function DeletedAmong(targets: seq<Target>): nat {
    if targets == [] then 0
    else DeletedAmong(targets[..|targets| - 1]) + if targets[|targets| - 1].deleted then 1 else 0
  }

  function Field(c: Counts, kind: Kind): nat {
    match kind
    case KBind => c.bound
    case KWorkspaceWide => c.shared
    case KOrphan => c.orphan
    case KUnparsable => c.unparsable
  }

  lemma FieldOfPlus(a: Counts, o: Outcome, kind: Kind)
    ensures Field(Plus(a, CountOf(o)), kind) == Field(a, kind) + if KindOf(o) == kind then 1 else 0
  {
  }

  /** A field of the report is the tally of its kind. */
  lemma {:induction false} FieldIsTally(db: Db, rows: seq<Row>, kind: Kind)
    ensures Field(CountsOf(db, rows), kind) == Tally(db, rows, kind)
    decreases |rows|
  {
    if rows != [] {
      var n := |rows| - 1;
      FieldIsTally(db, rows[..n], kind);
      FieldOfPlus(CountsOf(db, rows[..n]), OutcomeOf(db, rows[n].marker), kind);
    }
  }

  lemma {:induction false} CountsAreTargets(db: Db, rows: seq<Row>)
    ensures var c := CountsOf(db, rows);
            c.bound == |Bindings(db, rows)| && c.contextDeleted == DeletedAmong(Bindings(db, rows))
    decreases |rows|
  {
    if rows != [] {
      var n := |rows| - 1;
      CountsAreTargets(db, rows[..n]);
      var rest := Bindings(db, rows[..n]);
      match OutcomeOf(db, rows[n].marker)
      case Bind(c, deleted) =>
        var t := Target(rows[n].id, c, deleted);
        assert (rest + [t])[..|rest|] == rest;
      case _ =>
    }
  }

  /** Every row is counted exactly once. */
  lemma {:induction false} CountsAddUp(db: Db, rows: seq<Row>)
    ensures var c := CountsOf(db, rows);
            c.bound + c.shared + c.orphan + c.unparsable == |rows| && c.contextDeleted <= c.bound
    decreases |rows|
  {
    if rows != [] { CountsAddUp(db, rows[..|rows| - 1]); }
  }

  lemma {:induction false} CountsAppend(db: Db, a: seq<Row>, b: seq<Row>)
    ensures CountsOf(db, a + b) == Plus(CountsOf(db, a), CountsOf(db, b))
    decreases |b|
  {
    if b == [] {
      assert a + b == a;
    } else {
      assert (a + b)[..|a + b| - 1] == a + b[..|b| - 1];
      CountsAppend(db, a, b[..|b| - 1]);
    }
  }

  /** Outcomes only depend on the parents, which binding files leaves alone. */
  predicate SameParents(a: Db, b: Db) {
    a.attachments == b.attachments && a.memories == b.memories && a.contexts == b.contexts
  }

  lemma {:induction false} SameOutcomes(a: Db, b: Db, rows: seq<Row>)
    requires SameParents(a, b)
    ensures CountsOf(a, rows) == CountsOf(b, rows)
    ensures Bindings(a, rows) == Bindings(b, rows)
    decreases |rows|
  {
    if rows != [] { SameOutcomes(a, b, rows[..|rows| - 1]); }
  }
}

/** Lemmas and pure loops of one page. */
module AttachmentPage {
  import opened Sql
  import opened Ranking
  import opened AttachmentTables

  function AttachmentOf(m: Marker): Option<nat> {
    match m
    case Canonical(a) => Some(a)
    case Lenient(a) => Some(a)
    case _ => None
  }

  /** The files of one attachment, in page order. */
  function Group(rows: seq<Row>, a: nat): seq<nat> {
    if rows == [] then []
    else
      var n := |rows| - 1;
      var rest := Group(rows[..n], a);
      if AttachmentOf(rows[n].marker) == Some(a) then rest + [rows[n].id] else rest
  }

  /** The rows of a kind whose attachment is among the given ones. */
  function TallyIn(db: Db, rows: seq<Row>, attachments: set<nat>, kind: Kind): nat {
    if rows == [] then 0
    else
      var n := |rows| - 1;
      var a := AttachmentOf(rows[n].marker);
      TallyIn(db, rows[..n], attachments, kind)
      + if a.Some? && a.value in attachments && KindOf(ParentOutcome(db, a.value)) == kind then 1 else 0
  }

  lemma {:induction false} TallyGrows(db: Db, rows: seq<Row>, attachments: set<nat>, a: nat, kind: Kind)
    requires a !in attachments
    ensures TallyIn(db, rows, attachments + {a}, kind)
         == TallyIn(db, rows, attachments, kind) + if KindOf(ParentOutcome(db, a)) == kind then |Group(rows, a)| else 0
    decreases |rows|
  {
    if rows != [] { TallyGrows(db, rows[..|rows| - 1], attachments, a, kind); }
  }

  lemma {:induction false} TallyNone(db: Db, rows: seq<Row>, kind: Kind)
    ensures TallyIn(db, rows, {}, kind) == 0
    decreases |rows|
  {
    if rows != [] { TallyNone(db, rows[..|rows| - 1], kind); }
  }

  lemma {:induction false} TallyAll(db: Db, rows: seq<Row>, attachments: set<nat>, kind: Kind)
    requires kind != KUnparsable
    requires forall i :: 0 <= i < |rows| && AttachmentOf(rows[i].marker).Some? ==>
              AttachmentOf(rows[i].marker).value in attachments
    ensures TallyIn(db, rows, attachments, kind) == Tally(db, rows, kind)
    decreases |rows|
  {
    if rows != [] { TallyAll(db, rows[..|rows| - 1], attachments, kind); }
  }

  lemma {:induction false} GroupMembers(rows: seq<Row>, a: nat, x: nat)
    ensures x in Group(rows, a)
       <==> exists i :: 0 <= i < |rows| && rows[i].id == x && AttachmentOf(rows[i].marker) == Some(a)
    decreases |rows|
  {
    if rows != [] {
      var n := |rows| - 1;
      GroupMembers(rows[..n], a, x);
      if i :| 0 <= i < |rows| && rows[i].id == x && AttachmentOf(rows[i].marker) == Some(a) {
        assert i < n ==> rows[..n][i] == rows[i];
      }
    }
  }

  ghost predicate Ascending(rows: seq<Row>) {
    forall i, j :: 0 <= i < j < |rows| ==> rows[i].id < rows[j].id
  }

  lemma {:induction false} BindingsAscend(db: Db, rows: seq<Row>)
    requires Ascending(rows)
    ensures forall i, j :: 0 <= i < j < |Bindings(db, rows)| ==> Bindings(db, rows)[i].file < Bindings(db, rows)[j].file
    ensures forall t :: t in Bindings(db, rows) ==> exists i :: 0 <= i < |rows| && IsTarget(db, rows[i], t)
    decreases |rows|
  {
    if rows != [] {
      var n := |rows| - 1;
      BindingsAscend(db, rows[..n]);
      forall t | t in Bindings(db, rows) ensures exists i :: 0 <= i < |rows| && IsTarget(db, rows[i], t) {
        if t in Bindings(db, rows[..n]) {
          var i :| 0 <= i < |rows[..n]| && IsTarget(db, rows[..n][i], t);
          assert IsTarget(db, rows[i], t);
        } else {
          assert IsTarget(db, rows[n], t);
        }
      }
      forall t | t in Bindings(db, rows[..n]) ensures t.file < rows[n].id {
        var i :| 0 <= i < |rows[..n]| && IsTarget(db, rows[..n][i], t);
      }
    }
  }

  predicate IsTarget(db: Db, row: Row, t: Target) {
    t.file == row.id && OutcomeOf(db, row.marker) == Bind(t.context, t.deleted)
  }

  lemma {:induction false} TargetIsListed(db: Db, rows: seq<Row>, i: nat)
    requires i < |rows| && OutcomeOf(db, rows[i].marker).Bind?
    ensures var o := OutcomeOf(db, rows[i].marker); Target(rows[i].id, o.context, o.deleted) in Bindings(db, rows)
    decreases |rows|
  {
    if i < |rows| - 1 {
      assert rows[..|rows| - 1][i] == rows[i];
      TargetIsListed(db, rows[..|rows| - 1], i);
    }
  }

  /** The first loop of a page: parse the markers and group the files by attachment. */
  method GroupFiles(rows: seq<Row>, ghost db: Db) returns (groups: map<nat, seq<nat>>, order: seq<nat>, unparsable: nat)
    ensures unparsable == Tally(db, rows, KUnparsable)
    ensures forall a :: a in groups <==> a in order
    ensures forall i, j :: 0 <= i < j < |order| ==> order[i] != order[j]
    ensures forall a :: a in groups ==> groups[a] == Group(rows, a)
    ensures forall i :: 0 <= i < |rows| && AttachmentOf(rows[i].marker).Some? ==>
              AttachmentOf(rows[i].marker).value in groups
  {
    groups, order, unparsable := map[], [], 0;
    var i := 0;
    while i < |rows|
      invariant 0 <= i <= |rows|
      invariant unparsable == Tally(db, rows[..i], KUnparsable)
      invariant forall a :: a in groups <==> a in order
      invariant forall i, j :: 0 <= i < j < |order| ==> order[i] != order[j]
      invariant forall a :: Group(rows[..i], a) == if a in groups then groups[a] else []
      invariant forall j :: 0 <= j < i && AttachmentOf(rows[j].marker).Some? ==>
                AttachmentOf(rows[j].marker).value in groups
    {
      assert rows[..i + 1][..i] == rows[..i];
      match AttachmentOf(rows[i].marker) {
        case None =>
          unparsable := unparsable + 1;
        case Some(a) =>
          ParsedIsNotUnparsable(db, rows[i].marker);
          if a !in groups {
            groups, order := groups[a := []], order + [a];
          }
          groups := groups[a := groups[a] + [rows[i].id]];
      }
      i := i + 1;
    }
    assert rows[..i] == rows;
  }

  lemma ParsedIsNotUnparsable(db: Db, m: Marker)
    ensures AttachmentOf(m).Some? <==> KindOf(OutcomeOf(db, m)) != KUnparsable
    ensures AttachmentOf(m).Some? ==> OutcomeOf(db, m) == ParentOutcome(db, AttachmentOf(m).value)
  {
  }

  /** One row of the parent query: the memory's context, and that context's row if there is one. */
  datatype Parent = Parent(context: Option<nat>, found: Option<bool>)

  function ReadParents(db: Db, attachments: set<nat>): map<nat, Parent> {
    map a | a in attachments && a in db.attachments && db.attachments[a] in db.memories
      :: var c := db.memories[db.attachments[a]];
         Parent(c, if c.Some? && c.value in db.contexts then Some(db.contexts[c.value]) else None)
  }

  /** Every target comes from a row whose attachment was handled, and every such row that binds has one. */
  ghost predicate Collected(db: Db, rows: seq<Row>, handled: set<nat>, toBind: map<nat, Target>) {
    && (forall x :: x in toBind ==> exists i :: 0 <= i < |rows| && rows[i].id == x && IsTarget(db, rows[i], toBind[x]))
    && (forall i :: 0 <= i < |rows| && Handled(db, rows[i], handled) ==> rows[i].id in toBind)
  }

  predicate Handled(db: Db, row: Row, handled: set<nat>) {
    AttachmentOf(row.marker).Some? && AttachmentOf(row.marker).value in handled && OutcomeOf(db, row.marker).Bind?
  }

  method AddTargets(toBind: map<nat, Target>, files: seq<nat>, context: nat, deleted: bool)
    returns (r: map<nat, Target>)
    ensures forall x :: x in r <==> x in toBind || x in files
    ensures forall x :: x in r ==> r[x] == if x in files then Target(x, context, deleted) else toBind[x]
  {
    r := toBind;
    var i := 0;
    while i < |files|
      invariant 0 <= i <= |files|
      invariant forall x :: x in r <==> x in toBind || x in files[..i]
      invariant forall x :: x in r ==> r[x] == if x in files[..i] then Target(x, context, deleted) else toBind[x]
    {
      assert files[..i + 1] == files[..i] + [files[i]];
      r := r[files[i] := Target(files[i], context, deleted)];
      i := i + 1;
    }
    assert files[..i] == files;
  }

  lemma CollectedGrows(db: Db, rows: seq<Row>, handled: set<nat>, a: nat, before: map<nat, Target>,
                       now: map<nat, Target>)
    requires Collected(db, rows, handled, before) && ParentOutcome(db, a).Bind?
    requires forall x :: x in now <==> x in before || x in Group(rows, a)
    requires forall x :: x in now ==>
      now[x] == if x in Group(rows, a) then Target(x, ParentOutcome(db, a).context, ParentOutcome(db, a).deleted)
                else before[x]
    ensures Collected(db, rows, handled + {a}, now)
  {
    forall x | x in now ensures exists i :: 0 <= i < |rows| && rows[i].id == x && IsTarget(db, rows[i], now[x]) {
      if x in Group(rows, a) {
        GroupMembers(rows, a, x);
        var i :| 0 <= i < |rows| && rows[i].id == x && AttachmentOf(rows[i].marker) == Some(a);
        assert IsTarget(db, rows[i], now[x]);
      }
    }
    forall i | 0 <= i < |rows| && Handled(db, rows[i], handled + {a}) ensures rows[i].id in now {
      if AttachmentOf(rows[i].marker) == Some(a) { GroupMembers(rows, a, rows[i].id); }
    }
  }

  lemma CollectedStays(db: Db, rows: seq<Row>, handled: set<nat>, a: nat, toBind: map<nat, Target>)
    requires Collected(db, rows, handled, toBind) && !ParentOutcome(db, a).Bind?
    ensures Collected(db, rows, handled + {a}, toBind)
  {
    forall i | 0 <= i < |rows| && Handled(db, rows[i], handled + {a}) ensures Handled(db, rows[i], handled) {
      ParsedIsNotUnparsable(db, rows[i].marker);
    }
  }

  /** The second loop of a page, over the groups. */
  method Classify(rows: seq<Row>, groups: map<nat, seq<nat>>, order: seq<nat>, parents: map<nat, Parent>, ghost db: Db)
    returns (toBind: map<nat, Target>, orphan: nat, shared: nat)
    requires parents == ReadParents(db, groups.Keys)
    requires forall a :: a in groups <==> a in order
    requires forall i, j :: 0 <= i < j < |order| ==> order[i] != order[j]
    requires forall a :: a in groups ==> groups[a] == Group(rows, a)
    ensures Collected(db, rows, groups.Keys, toBind)
    ensures orphan == TallyIn(db, rows, groups.Keys, KOrphan)
    ensures shared == TallyIn(db, rows, groups.Keys, KWorkspaceWide)
  {
    toBind, orphan, shared := map[], 0, 0;
    ghost var handled: set<nat> := {};
    TallyNone(db, rows, KOrphan);
    TallyNone(db, rows, KWorkspaceWide);
    var i := 0;
    while i < |order|
      invariant 0 <= i <= |order|
      invariant forall a :: a in handled <==> a in order[..i]
      invariant Collected(db, rows, handled, toBind)
      invariant orphan == TallyIn(db, rows, handled, KOrphan)
      invariant shared == TallyIn(db, rows, handled, KWorkspaceWide)
    {
      var a := order[i];
      assert a in groups && order[..i + 1] == order[..i] + [a];
      TallyGrows(db, rows, handled, a, KOrphan);
      TallyGrows(db, rows, handled, a, KWorkspaceWide);
      var files := groups[a];
      if a !in parents || (parents[a].context.Some? && parents[a].found.None?) {
        orphan := orphan + |files|;
        CollectedStays(db, rows, handled, a, toBind);
      } else if parents[a].context.None? {
        shared := shared + |files|;
        CollectedStays(db, rows, handled, a, toBind);
      } else {
        var more := AddTargets(toBind, files, parents[a].context.value, parents[a].found.value);
        CollectedGrows(db, rows, handled, a, toBind, more);
        toBind := more;
      }
      handled := handled + {a};
      i := i + 1;
    }
    assert order[..i] == order;
    assert handled == groups.Keys;
  }

  function Files(targets: seq<Target>): (r: seq<nat>)
    ensures |r| == |targets| && forall i :: 0 <= i < |r| ==> r[i] == targets[i].file
  {
    seq(|targets|, i requires 0 <= i < |targets| => targets[i].file)
  }

  lemma TargetsAgree(db: Db, rows: seq<Row>, i: nat, j: nat, s: Target, t: Target)
    requires Ascending(rows) && i < |rows| && j < |rows|
    requires IsTarget(db, rows[i], s) && IsTarget(db, rows[j], t) && s.file == t.file
    ensures s == t
  {
    assert i == j;
  }

  /** The collected targets are those of the page. */
  lemma CollectedAreBindings(db: Db, rows: seq<Row>, handled: set<nat>, toBind: map<nat, Target>)
    requires Ascending(rows) && Collected(db, rows, handled, toBind)
    requires forall i :: 0 <= i < |rows| && AttachmentOf(rows[i].marker).Some? ==>
              AttachmentOf(rows[i].marker).value in handled
    ensures forall x :: x in toBind <==> x in Files(Bindings(db, rows))
    ensures forall t :: t in Bindings(db, rows) ==> t.file in toBind && toBind[t.file] == t
  {
    BindingsAscend(db, rows);
    var b := Bindings(db, rows);
    forall t | t in b ensures t.file in toBind && toBind[t.file] == t {
      var i :| 0 <= i < |rows| && IsTarget(db, rows[i], t);
      ParsedIsNotUnparsable(db, rows[i].marker);
      assert Handled(db, rows[i], handled);
      var j :| 0 <= j < |rows| && rows[j].id == t.file && IsTarget(db, rows[j], toBind[t.file]);
      TargetsAgree(db, rows, i, j, t, toBind[t.file]);
    }
    forall x | x in toBind ensures x in Files(b) {
      var i :| 0 <= i < |rows| && rows[i].id == x && IsTarget(db, rows[i], toBind[x]);
      TargetIsListed(db, rows, i);
      var k :| 0 <= k < |b| && b[k].file == x;
      assert Files(b)[k] == x;
    }
    forall x | x in Files(b) ensures x in toBind {
      var k :| 0 <= k < |b| && Files(b)[k] == x;
      assert b[k] in b;
    }
  }

  lemma FilesInOrder(files: set<nat>, b: seq<Target>)
    requires forall i, j :: 0 <= i < j < |b| ==> b[i].file < b[j].file
    requires forall x :: x in files <==> x in Files(b)
    ensures Ranked(files, ById) == Files(b)
  {
    IsTheRanking(Files(b), files, ById);
  }

  /** sorted(to_bind) */
  method SortTargets(toBind: map<nat, Target>, ghost b: seq<Target>) returns (targets: seq<Target>)
    requires forall i, j :: 0 <= i < j < |b| ==> b[i].file < b[j].file
    requires forall x :: x in toBind <==> x in Files(b)
    requires forall t :: t in b ==> t.file in toBind && toBind[t.file] == t
    ensures targets == b
  {
    var ids := OrderBy(toBind.Keys, ById);
    FilesInOrder(toBind.Keys, b);
    assert forall i :: 0 <= i < |ids| ==> b[i] in b && ids[i] == b[i].file;
    targets := seq(|ids|, i requires 0 <= i < |ids| && ids[i] in toBind => toBind[ids[i]]);
  }

  /** Parse, group, classify and sort: what the dictionaries compute is a filter of the page. */
  method SortPage(rows: seq<Row>, db: Db) returns (targets: seq<Target>, orphan: nat, shared: nat, unparsable: nat)
    requires Ascending(rows)
    ensures targets == Bindings(db, rows)
    ensures orphan == CountsOf(db, rows).orphan
    ensures shared == CountsOf(db, rows).shared
    ensures unparsable == CountsOf(db, rows).unparsable
  {
    var groups, order;
    groups, order, unparsable := GroupFiles(rows, db);
    var toBind;
    toBind, orphan, shared := Classify(rows, groups, order, ReadParents(db, groups.Keys), db);
    TallyAll(db, rows, groups.Keys, KOrphan);
    TallyAll(db, rows, groups.Keys, KWorkspaceWide);
    FieldIsTally(db, rows, KOrphan);
    FieldIsTally(db, rows, KWorkspaceWide);
    FieldIsTally(db, rows, KUnparsable);
    CollectedAreBindings(db, rows, groups.Keys, toBind);
    BindingsAscend(db, rows);
    targets := SortTargets(toBind, Bindings(db, rows));
  }
}
