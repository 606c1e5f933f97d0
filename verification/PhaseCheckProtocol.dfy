/**
  `d07_495_cluster_label_phase`: swapping the CHECK on `sleep_report_llm_usage.phase` while the cost
  ledger is written to, with crashes at the commit point, re-runs and conditional downgrades.
*/
module PhaseCheckProtocol {

  type RowId = nat

  const CLUSTER_LABELING := "cluster_labeling"
  const OLD_PHASES: set<string> := {"edge_discovery", "dedup_merge", "importance_reeval", "consolidation", "reindex"}
  const NEW_PHASES: set<string> := OLD_PHASES + {CLUSTER_LABELING}

  datatype Rule = Old | New

  function Accepted(rule: Rule): set<string> {
    match rule
    case Old => OLD_PHASES
    case New => NEW_PHASES
  }

  /** The CHECK in the catalog: which list it has, and whether it is `convalidated`. */
  datatype Constraint = Constraint(rule: Rule, validated: bool)

  /** `*Altered` and `Probed` hold the ALTER's ACCESS EXCLUSIVE lock. */
  datatype Point = Idle | UpAltered | UpCommitted | DownAltered | Probed(leftover: bool) | DownCommitted

  datatype State = State(rows: map<RowId, string>, check: Constraint, point: Point, failures: nat)

  datatype Event =
    | Put(k: RowId, phase: string)
    | Remove(k: RowId)
    | UpAlter | UpCommit | UpValidate
    | DownAlter | DownProbe | DownCommit | DownValidate
    | Crash

  predicate TableLocked(p: Point) {
    p == UpAltered || p == DownAltered || p.Probed?
  }

  predicate Satisfies(rows: map<RowId, string>, rule: Rule) {
    forall k :: k in rows ==> rows[k] in Accepted(rule)
  }

  predicate HasClusterRow(rows: map<RowId, string>) {
    exists k :: k in rows && rows[k] == CLUSTER_LABELING
  }

  predicate Enabled(s: State, e: Event) {
    match e
    case Put(_, phase) => !TableLocked(s.point) && phase in Accepted(s.check.rule)
    case Remove(_) => !TableLocked(s.point)
    case UpAlter => s.point == Idle
    case UpCommit => s.point == UpAltered
    case UpValidate => s.point == UpCommitted
    case DownAlter => s.point == Idle
    case DownProbe => s.point == DownAltered
    case DownCommit => s.point.Probed?
    case DownValidate => s.point == DownCommitted
    case Crash => true
  }

  function Validate(s: State): State {
    if Satisfies(s.rows, s.check.rule) then s.(point := Idle, check := s.check.(validated := true))
    else s.(point := Idle, failures := s.failures + 1)
  }

  function Apply(s: State, e: Event): State {
    match e
    case Put(k, phase) => s.(rows := s.rows[k := phase])
    case Remove(k) => s.(rows := s.rows - {k})
    case UpAlter => s.(point := UpAltered)
    case UpCommit => s.(point := UpCommitted, check := Constraint(New, false))
    case UpValidate => Validate(s)
    case DownAlter => s.(point := DownAltered)
    case DownProbe => s.(point := Probed(HasClusterRow(s.rows)))
    case DownCommit =>
      s.(point := if s.point == Probed(true) then Idle else DownCommitted, check := Constraint(Old, false))
    case DownValidate => Validate(s)
    case Crash => s.(point := Idle)
  }

  predicate ByMigration(e: Event) {
    !e.Put? && !e.Remove?
  }

  predicate Init(s: State) {
    s.point == Idle && s.failures == 0 && s.check == Constraint(Old, true) && Satisfies(s.rows, Old)
  }

  predicate Run(states: seq<State>, events: seq<Event>) {
    && |states| == |events| + 1 && Init(states[0])
    && forall i :: 0 <= i < |events| ==> Enabled(states[i], events[i]) && states[i + 1] == Apply(states[i], events[i])
  }

  predicate Inv(s: State) {
    && s.failures == 0
    && Satisfies(s.rows, New)
    && (s.check.validated ==> Satisfies(s.rows, s.check.rule))
    && (s.point == UpCommitted ==> s.check.rule == New)
    && (s.point == Probed(false) ==> Satisfies(s.rows, Old))
    && (s.point == DownCommitted ==> s.check.rule == Old && Satisfies(s.rows, Old))
  }

  lemma StepKeepsInv(s: State, e: Event)
    requires Inv(s) && Enabled(s, e)
    ensures Inv(Apply(s, e))
    ensures ByMigration(e) ==> Apply(s, e).rows == s.rows
  {
  }

  /** Theorem: over every run, no migration statement removes or changes a ledger row, a validated CHECK
      holds for every row, and VALIDATE never fails. */
  lemma {:induction false} RunInvariant(states: seq<State>, events: seq<Event>, i: nat)
    requires Run(states, events) && i < |states|
    ensures Inv(states[i]) && states[i].failures == 0
    ensures states[i].check.validated ==> Satisfies(states[i].rows, states[i].check.rule)
    ensures i < |events| && ByMigration(events[i]) ==> states[i + 1].rows == states[i].rows
  {
    if i > 0 {
      RunInvariant(states, events, i - 1);
      StepKeepsInv(states[i - 1], events[i - 1]);
    }
    if i < |events| {
      StepKeepsInv(states[i], events[i]);
    }
  }

  /** Theorem: an upgrade that reaches VALIDATE ends validated, also after a downgrade that had to stay NOT VALID. */
  lemma UpgradeValidates(states: seq<State>, events: seq<Event>, i: nat)
    requires Run(states, events) && i < |events| && events[i] == UpValidate
    ensures states[i + 1].check == Constraint(New, true)
  {
    RunInvariant(states, events, i);
  }

  /** Theorem: a downgrade restores the old CHECK, and leaves it unvalidated exactly when its probe, under the
      ALTER's lock, found a row of the new phase. */
  lemma DowngradeOutcome(states: seq<State>, events: seq<Event>, i: nat)
    requires Run(states, events) && i < |events| && events[i] == DownCommit
    ensures states[i + 1].check == Constraint(Old, false)
    ensures states[i + 1].point == DownCommitted <==> !HasClusterRow(states[i].rows)
    ensures states[i + 1].point == DownCommitted ==> Apply(states[i + 1], DownValidate).check == Constraint(Old, true)
  {
    ProbeIsCurrent(states, events, i);
    RunInvariant(states, events, i + 1);
  }

  /** The table is locked from the ALTER to the commit, so the probe's answer is still right there. */
  lemma {:induction false} ProbeIsCurrent(states: seq<State>, events: seq<Event>, i: nat)
    requires Run(states, events) && i < |states| && states[i].point.Probed?
    ensures states[i].point.leftover == HasClusterRow(states[i].rows)
  {
    assert i > 0;
    assert Enabled(states[i - 1], events[i - 1]) && states[i] == Apply(states[i - 1], events[i - 1]);
  }
}
