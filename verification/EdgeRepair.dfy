/**
  The two repairs of `neural_memory_edges`: `audit_edge_context_invariant.py --fix` for edges whose
  scope is set, and the data steps of `b03_396_edges_ws_ctx_not_null` for edges with a NULL scope.
*/
module EdgeTables {
  import opened Sql

  type MemoryId = nat
  type EdgeId = nat
  type WorkspaceId = nat
  type ContextId = nat

  datatype Memory = Memory(ws: Option<WorkspaceId>, ctx: Option<ContextId>)
  datatype Edge = Edge(src: MemoryId, dst: MemoryId, ws: Option<WorkspaceId>, ctx: Option<ContextId>)

  type Memories = map<MemoryId, Memory>
  type Edges = map<EdgeId, Edge>

  /** A row of an outer join: `id` and every other column are NULL when no memory matched. */
  datatype Joined = Joined(id: Option<MemoryId>, ws: Option<WorkspaceId>, ctx: Option<ContextId>)

  function OuterJoin(memories: Memories, m: MemoryId): Joined {
    if m in memories then Joined(Some(m), memories[m].ws, memories[m].ctx) else Joined(None, None, None)
  }

  predicate HasNull(e: Edge) {
    Or(IsNull(e.ws), IsNull(e.ctx)) == True
  }

  // ---------------------------------------------------------------- the audit's expressions

  /** `violation_predicate` over the edge and its two outer-joined endpoints. */
  predicate Violates(memories: Memories, e: Edge) {
    var s, d := OuterJoin(memories, e.src), OuterJoin(memories, e.dst);
    And(And(IsNotNull(e.ws), IsNotNull(e.ctx)),
        Or(Or(IsNull(s.id), IsNull(d.id)),
           Or(Or(Distinct(s.ws, e.ws), Distinct(s.ctx, e.ctx)),
              Or(Distinct(d.ws, e.ws), Distinct(d.ctx, e.ctx))))) == True
  }

  datatype Category = MissingEndpoint | WorkspaceMismatch | ContextMismatch

  /** `category_expr` */
  function CategoryOf(memories: Memories, e: Edge): Category {
    var s, d := OuterJoin(memories, e.src), OuterJoin(memories, e.dst);
    if Or(IsNull(s.id), IsNull(d.id)) == True then MissingEndpoint
    else if Or(Distinct(s.ws, e.ws), Distinct(d.ws, e.ws)) == True then WorkspaceMismatch
    else ContextMismatch
  }

  function Violating(memories: Memories, edges: Edges): set<EdgeId> {
    set i | i in edges && Violates(memories, edges[i])
  }

  function InCategory(memories: Memories, edges: Edges, c: Category): set<EdgeId> {
    set i | i in edges && Violates(memories, edges[i]) && CategoryOf(memories, edges[i]) == c
  }

  function WithNull(edges: Edges): set<EdgeId> {
    set i | i in edges && HasNull(edges[i])
  }

  /** DELETE ... WHERE id IN (SELECT ... WHERE <violation_predicate>) */
  function AuditFix(memories: Memories, edges: Edges): Edges {
    map i | i in edges && !Violates(memories, edges[i]) :: edges[i]
  }

  // ---------------------------------------------------------------- b03 steps 1 and 2

  /** The WHERE clause of the backfill, on memories that both exist. */
  predicate Fillable(memories: Memories, e: Edge) {
    && e.src in memories && e.dst in memories
    && var ms, md := memories[e.src], memories[e.dst];
       And(And(Or(IsNull(e.ws), IsNull(e.ctx)),
               And(IsNotNull(ms.ws), IsNotNull(ms.ctx))),
           And(And(Eq(ms.ws, md.ws), Eq(ms.ctx, md.ctx)),
               And(Or(IsNull(e.ws), Eq(e.ws, ms.ws)), Or(IsNull(e.ctx), Eq(e.ctx, ms.ctx))))) == True
  }

  function FillEdge(memories: Memories, e: Edge): Edge {
    if Fillable(memories, e)
    then e.(ws := Coalesce(e.ws, memories[e.src].ws), ctx := Coalesce(e.ctx, memories[e.src].ctx))
    else e
  }

  function Backfill(memories: Memories, edges: Edges): Edges {
    map i | i in edges :: FillEdge(memories, edges[i])
  }

  function DropOrphans(edges: Edges): Edges {
    map i | i in edges && !HasNull(edges[i]) :: edges[i]
  }

  /** The data steps of `b03`. */
  function B03Data(memories: Memories, edges: Edges): Edges {
    DropOrphans(Backfill(memories, edges))
  }

  // ---------------------------------------------------------------- the invariant

  /** edge.workspace_id == src.workspace_id == dst.workspace_id, and the same for the context. */
  predicate Agrees(memories: Memories, e: Edge, ws: WorkspaceId, ctx: ContextId) {
    && e.src in memories && memories[e.src] == Memory(Some(ws), Some(ctx))
    && e.dst in memories && memories[e.dst] == Memory(Some(ws), Some(ctx))
    && e.ws == Some(ws) && e.ctx == Some(ctx)
  }

  ghost predicate Consistent(memories: Memories, e: Edge) {
    exists ws, ctx :: Agrees(memories, e, ws, ctx)
  }

  /** The NULL columns of `e`, and only those, are replaced by the given values. */
  function Completed(e: Edge, ws: WorkspaceId, ctx: ContextId): Edge {
    e.(ws := Coalesce(e.ws, Some(ws)), ctx := Coalesce(e.ctx, Some(ctx)))
  }

  /** Some way to fill the NULL columns makes the edge agree with both endpoints. */
  ghost predicate Recoverable(memories: Memories, e: Edge) {
    exists ws, ctx :: Agrees(memories, Completed(e, ws, ctx), ws, ctx)
  }
}

module EdgeRepair {
  import opened EdgeTables

  function Repair(memories: Memories, edges: Edges): Edges {
    B03Data(memories, AuditFix(memories, edges))
  }

  /** A full-scope edge is kept by the audit exactly when it satisfies the invariant. */
  lemma ScopedKeptIff(memories: Memories, e: Edge)
    requires !HasNull(e)
    ensures !Violates(memories, e) <==> Consistent(memories, e)
    ensures Recoverable(memories, e) <==> Consistent(memories, e)
  {
    assert !Violates(memories, e) ==> Agrees(memories, e, e.ws.value, e.ctx.value);
    if Recoverable(memories, e) {
      var ws, ctx :| Agrees(memories, Completed(e, ws, ctx), ws, ctx);
      assert Agrees(memories, e, ws, ctx);
    }
    if Consistent(memories, e) {
      var ws, ctx :| Agrees(memories, e, ws, ctx);
      assert Agrees(memories, Completed(e, ws, ctx), ws, ctx);
    }
  }

  /** An edge with a NULL is kept by b03 exactly when it can be recovered, and then it agrees. */
  lemma NullKeptIff(memories: Memories, e: Edge)
    requires HasNull(e)
    ensures !HasNull(FillEdge(memories, e)) <==> Recoverable(memories, e)
    ensures Recoverable(memories, e) ==> Consistent(memories, FillEdge(memories, e))
  {
    if Fillable(memories, e) {
      var ws, ctx := memories[e.src].ws.value, memories[e.src].ctx.value;
      assert Agrees(memories, Completed(e, ws, ctx), ws, ctx);
      assert FillEdge(memories, e) == Completed(e, ws, ctx);
    } else {
      forall ws, ctx ensures !Agrees(memories, Completed(e, ws, ctx), ws, ctx) {}
    }
  }

  /** Theorem: the audit fix followed by b03 keeps an edge if and only if its NULL columns can be filled
      so that it agrees with both endpoints; a kept edge satisfies the invariant and keeps its endpoints
      and its set columns. */
  lemma RepairKeepsExactlyRecoverable(memories: Memories, edges: Edges, i: EdgeId)
    requires i in edges
    ensures i in Repair(memories, edges) <==> Recoverable(memories, edges[i])
    ensures i in Repair(memories, edges) ==> Consistent(memories, Repair(memories, edges)[i])
    ensures i in Repair(memories, edges) ==>
              var e := Repair(memories, edges)[i];
              exists ws, ctx :: e == Completed(edges[i], ws, ctx)
  {
    var e := edges[i];
    if HasNull(e) {
      NullKeptIff(memories, e);
    } else {
      ScopedKeptIff(memories, e);
      assert e == Completed(e, 0, 0);
    }
    if Fillable(memories, e) {
      assert FillEdge(memories, e) == Completed(e, memories[e.src].ws.value, memories[e.src].ctx.value);
    }
  }

  /** A filled edge never violates: the backfill cannot turn a NULL edge into a mismatch. */
  lemma FilledNeverViolates(memories: Memories, e: Edge)
    ensures HasNull(e) ==> !Violates(memories, FillEdge(memories, e)) && !Violates(memories, e)
    ensures !HasNull(e) ==> FillEdge(memories, e) == e
  {
  }

  /** Theorem: the two repairs commute. */
  lemma RepairsCommute(memories: Memories, edges: Edges)
    ensures AuditFix(memories, B03Data(memories, edges)) == Repair(memories, edges)
  {
    forall i | i in edges { FilledNeverViolates(memories, edges[i]); }
  }

  lemma AuditTwice(memories: Memories, edges: Edges)
    ensures AuditFix(memories, AuditFix(memories, edges)) == AuditFix(memories, edges)
  {
  }

  lemma B03Twice(memories: Memories, edges: Edges)
    ensures B03Data(memories, B03Data(memories, edges)) == B03Data(memories, edges)
  {
    forall i | i in edges { FilledNeverViolates(memories, edges[i]); }
  }

  /** Theorem: each repair, and their composition, is idempotent. */
  lemma RepairsIdempotent(memories: Memories, edges: Edges)
    ensures AuditFix(memories, AuditFix(memories, edges)) == AuditFix(memories, edges)
    ensures B03Data(memories, B03Data(memories, edges)) == B03Data(memories, edges)
    ensures Repair(memories, Repair(memories, edges)) == Repair(memories, edges)
  {
    var audited := AuditFix(memories, edges);
    AuditTwice(memories, edges);
    B03Twice(memories, edges);
    B03Twice(memories, audited);
    RepairsCommute(memories, audited);
    assert Repair(memories, edges) == B03Data(memories, audited);
    assert AuditFix(memories, B03Data(memories, audited)) == B03Data(memories, AuditFix(memories, audited));
  }

  /** b03 alone leaves an inconsistent edge exactly when that edge was fully scoped and violating:
      its CHECK concerns NULLs only and never rejects those rows. */
  lemma B03AloneLeaves(memories: Memories, edges: Edges, i: EdgeId)
    requires i in edges
    ensures i in B03Data(memories, edges) && !Consistent(memories, B03Data(memories, edges)[i])
       <==> Violates(memories, edges[i])
  {
    FilledNeverViolates(memories, edges[i]);
    if HasNull(edges[i]) { NullKeptIff(memories, edges[i]); } else { ScopedKeptIff(memories, edges[i]); }
  }

  // ---------------------------------------------------------------- the script's report and the statements

  datatype Report = Report(total: nat, scanned: nat, nullSkipped: nat, violations: nat, deleted: nat,
                           byCategory: Counts)

  datatype Counts = Counts(missing: nat, workspace: nat, context: nat)

  lemma CategoriesPartition(memories: Memories, edges: Edges)
    ensures |InCategory(memories, edges, MissingEndpoint)| + |InCategory(memories, edges, WorkspaceMismatch)|
            + |InCategory(memories, edges, ContextMismatch)| == |Violating(memories, edges)|
  {
    var a, b, c := InCategory(memories, edges, MissingEndpoint), InCategory(memories, edges, WorkspaceMismatch),
                   InCategory(memories, edges, ContextMismatch);
    assert Violating(memories, edges) == a + b + c;
    assert a !! b && (a + b) !! c;
  }

  function Classified(memories: Memories, edges: Edges): map<EdgeId, Category> {
    map i | i in edges && Violates(memories, edges[i]) :: CategoryOf(memories, edges[i])
  }

  function WithClass(classes: map<EdgeId, Category>, c: Category): set<EdgeId> {
    set i | i in classes && classes[i] == c
  }

  /** GROUP BY category, into a dictionary that starts with three zeros. */
  method CountByCategory(classes: map<EdgeId, Category>) returns (counts: Counts)
    ensures counts.missing == |WithClass(classes, MissingEndpoint)|
    ensures counts.workspace == |WithClass(classes, WorkspaceMismatch)|
    ensures counts.context == |WithClass(classes, ContextMismatch)|
  {
    counts := Counts(0, 0, 0);
    var todo := classes.Keys;
    ghost var a, b := WithClass(classes, MissingEndpoint), WithClass(classes, WorkspaceMismatch);
    ghost var c := WithClass(classes, ContextMismatch);
    while todo != {}
      invariant todo <= classes.Keys
      invariant forall j :: j in a <==> j in todo && classes[j] == MissingEndpoint
      invariant forall j :: j in b <==> j in todo && classes[j] == WorkspaceMismatch
      invariant forall j :: j in c <==> j in todo && classes[j] == ContextMismatch
      invariant counts.missing + |a| == |WithClass(classes, MissingEndpoint)|
      invariant counts.workspace + |b| == |WithClass(classes, WorkspaceMismatch)|
      invariant counts.context + |c| == |WithClass(classes, ContextMismatch)|
      decreases todo
    {
      var i :| i in todo;
      todo := todo - {i};
      match classes[i] {
        case MissingEndpoint => counts, a := counts.(missing := counts.missing + 1), a - {i};
        case WorkspaceMismatch => counts, b := counts.(workspace := counts.workspace + 1), b - {i};
        case ContextMismatch => counts, c := counts.(context := counts.context + 1), c - {i};
      }
    }
    assert a == {} && b == {} && c == {};
  }

  class EdgeStore {
    var memories: Memories
    var edges: Edges

    /** `audit_invariant(fix)` */
    method AuditInvariant(fix: bool) returns (report: Report)
      modifies `edges
      ensures edges == if fix then AuditFix(memories, old(edges)) else old(edges)
      ensures report.total == |old(edges)| == report.scanned + report.nullSkipped
      ensures report.nullSkipped == |WithNull(old(edges))|
      ensures report.violations == |Violating(memories, old(edges))| <= report.scanned
      ensures report.byCategory == Counts(|InCategory(memories, old(edges), MissingEndpoint)|,
                                          |InCategory(memories, old(edges), WorkspaceMismatch)|,
                                          |InCategory(memories, old(edges), ContextMismatch)|)
      ensures report.deleted == (if fix then report.violations else 0) == |old(edges)| - |edges|
    {
      var nulls := WithNull(edges);
      var counts := CountByCategory(Classified(memories, edges));
      ClassesAreCategories(memories, edges, MissingEndpoint);
      ClassesAreCategories(memories, edges, WorkspaceMismatch);
      ClassesAreCategories(memories, edges, ContextMismatch);
      CategoriesPartition(memories, edges);
      NullsNeverViolate(memories, edges);
      AuditDeletes(memories, edges);
      var violations := counts.missing + counts.workspace + counts.context;
      report := Report(|edges|, |edges| - |nulls|, |nulls|, violations, 0, counts);
      if fix && violations > 0 {
        var kept := AuditFix(memories, edges);
        report := report.(deleted := |edges| - |kept|);
        edges := kept;
      }
    }

    /** b03 steps 1 and 2; the DELETE is skipped when the count finds no orphan. */
    method B03DataSteps() returns (backfilled: nat, deleted: nat)
      modifies `edges
      ensures edges == B03Data(memories, old(edges))
      ensures backfilled == |set i | i in old(edges) && Fillable(memories, old(edges)[i])|
      ensures deleted == |old(edges)| - |edges|
    {
      backfilled := |set i | i in edges && Fillable(memories, edges[i])|;
      edges := Backfill(memories, edges);
      assert edges.Keys == old(edges).Keys;
      var orphans := WithNull(edges);
      deleted := 0;
      if |orphans| > 0 {
        assert DropOrphans(edges).Keys == edges.Keys - orphans;
        edges := DropOrphans(edges);
        deleted := |orphans|;
      } else {
        forall i | i in edges ensures !HasNull(edges[i]) {
          assert i !in orphans;
        }
        assert DropOrphans(edges) == edges;
      }
    }
  }

  lemma AuditDeletes(memories: Memories, edges: Edges)
    ensures |AuditFix(memories, edges)| == |edges| - |Violating(memories, edges)|
    ensures Violating(memories, edges) == {} ==> AuditFix(memories, edges) == edges
  {
    DeleteSizes(edges, AuditFix(memories, edges), Violating(memories, edges));
  }

  lemma DeleteSizes(edges: Edges, kept: Edges, gone: set<EdgeId>)
    requires gone <= edges.Keys
    requires kept == map i | i in edges && i !in gone :: edges[i]
    ensures |kept| == |edges| - |gone|
    ensures gone == {} ==> kept == edges
  {
    assert kept.Keys == edges.Keys - gone;
  }

  lemma ClassesAreCategories(memories: Memories, edges: Edges, c: Category)
    ensures WithClass(Classified(memories, edges), c) == InCategory(memories, edges, c)
  {
  }

  lemma NullsNeverViolate(memories: Memories, edges: Edges)
    ensures |WithNull(edges)| + |Violating(memories, edges)| <= |edges|
  {
    forall i | i in edges { FilledNeverViolates(memories, edges[i]); }
    SubsetSizes(edges.Keys, WithNull(edges), Violating(memories, edges));
  }

  lemma SubsetSizes(all: set<EdgeId>, nulls: set<EdgeId>, violating: set<EdgeId>)
    requires nulls <= all && violating <= all && nulls !! violating
    ensures |nulls| + |violating| <= |all|
  {
    assert |all - nulls| == |all| - |nulls|;
    assert violating <= all - nulls;
    var rest := (all - nulls) - violating;
    assert all - nulls == violating + rest;
  }
}
