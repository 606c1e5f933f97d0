/**
  Row locks taken in one global order: contexts by id, then files by id, and after each file the advisory lock on its
  storage key, which the trigger of `f18_2395_file_cleanup` takes.
*/
module LockOrder {

  datatype Resource = Context(id: nat) | File(id: nat) | Key(name: nat)

  /** KEY SHARE locks are compatible with each other and with nothing else here. */
  datatype Mode = Shared | Exclusive

  datatype Request = Request(resource: Resource, mode: Mode)

  /** The storage key of each file. */
  type Keys = nat -> nat

  /** What a transaction requests: contexts in id order, then files in id order, a key only right after its file. */
  predicate Disciplined(keyOf: Keys, plan: seq<Request>) {
    && (forall i, j :: 0 <= i < j < |plan| ==> InOrder(plan[i].resource, plan[j].resource))
    && (forall i :: 0 <= i < |plan| && plan[i].resource.Key? ==> FollowsItsFile(keyOf, plan, i))
  }

  predicate InOrder(a: Resource, b: Resource) {
    match (a, b)
    case (Context(i), Context(j)) => i < j
    case (_, Context(_)) => false
    case (File(i), File(j)) => i < j
    case (_, _) => true
  }

  predicate FollowsItsFile(keyOf: Keys, plan: seq<Request>, i: nat)
    requires i < |plan| && plan[i].resource.Key?
  {
    i > 0 && plan[i - 1].resource.File? && keyOf(plan[i - 1].resource.id) == plan[i].resource.name
  }

  /** No two files have the same storage key. */
  ghost predicate Injective(keyOf: Keys) {
    forall f, g :: keyOf(f) == keyOf(g) ==> f == g
  }

  // ---------------------------------------------------------------- transactions

  predicate Conflicts(a: Request, b: Request) {
    a.resource == b.resource && !(a.mode == Shared && b.mode == Shared)
  }

  /** A transaction that has taken the first `held` locks of its plan. */
  datatype Transaction = Transaction(plan: seq<Request>, held: nat)

  /** The open transactions. */
  type State = map<nat, Transaction>

  predicate Waiting(s: State, t: nat) {
    t in s && s[t].held < |s[t].plan|
  }

  function Next(s: State, t: nat): Request
    requires Waiting(s, t)
  {
    s[t].plan[s[t].held]
  }

  ghost predicate Holds(s: State, u: nat, r: Request) {
    u in s && exists i :: 0 <= i < s[u].held <= |s[u].plan| && s[u].plan[i] == r
  }

  /** Some other transaction holds a lock the next request conflicts with. */
  ghost predicate Blocked(s: State, t: nat)
    requires Waiting(s, t)
  {
    exists u, r :: u != t && Holds(s, u, r) && Conflicts(r, Next(s, t))
  }

  datatype Step = Begin(t: nat, plan: seq<Request>) | Acquire(t: nat) | Commit(t: nat) | Abort(t: nat)

  ghost predicate Enabled(keyOf: Keys, s: State, step: Step) {
    match step
    case Begin(t, plan) => t !in s && Disciplined(keyOf, plan)
    case Acquire(t) => Waiting(s, t) && !Blocked(s, t)
    case Commit(t) => t in s && s[t].held == |s[t].plan|
    case Abort(t) => t in s
  }

  ghost function Apply(keyOf: Keys, s: State, step: Step): State
    requires Enabled(keyOf, s, step)
  {
    match step
    case Begin(t, plan) => s[t := Transaction(plan, 0)]
    case Acquire(t) => s[t := s[t].(held := s[t].held + 1)]
    case Commit(t) => s - {t}
    case Abort(t) => s - {t}
  }

  /** The states a run passes through. */
  ghost predicate Run(keyOf: Keys, states: seq<State>, steps: seq<Step>) {
    && |states| == |steps| + 1
    && forall i :: 0 <= i < |steps| ==>
         Enabled(keyOf, states[i], steps[i]) && states[i + 1] == Apply(keyOf, states[i], steps[i])
  }

  // ---------------------------------------------------------------- the order behind the discipline

  /** The file a key belongs to. */
  type Owner = nat -> nat

  ghost predicate Owns(owner: Owner, keyOf: Keys) {
    forall f :: owner(keyOf(f)) == f
  }

  predicate Below(owner: Owner, a: Resource, b: Resource) {
    match (a, b)
    case (Context(i), Context(j)) => i < j
    case (Context(_), _) => true
    case (_, Context(_)) => false
    case (File(i), File(j)) => i < j
    case (File(i), Key(k)) => i <= owner(k)
    case (Key(k), File(j)) => owner(k) < j
    case (Key(k), Key(l)) => owner(k) < owner(l)
  }

  predicate Increasing(owner: Owner, plan: seq<Request>) {
    forall i, j :: 0 <= i < j < |plan| ==> Below(owner, plan[i].resource, plan[j].resource)
  }

  /** The file of a request: itself, or the one right before a key. */
  function FileBefore(keyOf: Keys, plan: seq<Request>, i: nat): nat
    requires i < |plan| && Disciplined(keyOf, plan) && !plan[i].resource.Context?
  {
    if plan[i].resource.File? then i else assert FollowsItsFile(keyOf, plan, i); i - 1
  }

  lemma DisciplinedIsIncreasing(keyOf: Keys, owner: Owner, plan: seq<Request>)
    requires Owns(owner, keyOf) && Disciplined(keyOf, plan)
    ensures Increasing(owner, plan)
  {
    forall i, j | 0 <= i < j < |plan| ensures Below(owner, plan[i].resource, plan[j].resource) {
      assert InOrder(plan[i].resource, plan[j].resource);
      if !plan[i].resource.Context? && !plan[j].resource.Context? {
        var p, q := FileBefore(keyOf, plan, i), FileBefore(keyOf, plan, j);
        assert p < q ==> InOrder(plan[p].resource, plan[q].resource);
        assert plan[i].resource.Key? ==> owner(keyOf(plan[p].resource.id)) == plan[p].resource.id;
        assert plan[j].resource.Key? ==> owner(keyOf(plan[q].resource.id)) == plan[q].resource.id;
      }
    }
  }

  ghost predicate Ordered(owner: Owner, s: State) {
    forall t :: t in s ==> s[t].held <= |s[t].plan| && Increasing(owner, s[t].plan)
  }

  /** No two transactions hold conflicting locks. */
  ghost predicate Exclusion(s: State) {
    forall t, u, q, r :: t != u && Holds(s, t, q) && Holds(s, u, r) ==> !Conflicts(q, r)
  }

  ghost predicate Inv(owner: Owner, s: State) {
    Ordered(owner, s) && Exclusion(s)
  }

  lemma HoldsAfterAcquire(s: State, t: nat, u: nat, r: Request)
    requires Waiting(s, t) && Holds(s[t := s[t].(held := s[t].held + 1)], u, r)
    ensures Holds(s, u, r) || (u == t && r == Next(s, t))
  {
    var s' := s[t := s[t].(held := s[t].held + 1)];
    var i :| 0 <= i < s'[u].held <= |s'[u].plan| && s'[u].plan[i] == r;
    assert s[u].plan[i] == r;
  }

  lemma StepKeepsExclusion(keyOf: Keys, s: State, step: Step)
    requires Exclusion(s) && Enabled(keyOf, s, step)
    ensures Exclusion(Apply(keyOf, s, step))
  {
    var s' := Apply(keyOf, s, step);
    forall t, u, q, r | t != u && Holds(s', t, q) && Holds(s', u, r) ensures !Conflicts(q, r) {
      if step.Acquire? {
        HoldsAfterAcquire(s, step.t, t, q);
        HoldsAfterAcquire(s, step.t, u, r);
        assert Conflicts(q, r) <==> Conflicts(r, q);
      } else {
        assert Holds(s, t, q) && Holds(s, u, r);
      }
    }
  }

  lemma StepKeepsInv(keyOf: Keys, owner: Owner, s: State, step: Step)
    requires Owns(owner, keyOf) && Inv(owner, s) && Enabled(keyOf, s, step)
    ensures Inv(owner, Apply(keyOf, s, step))
  {
    StepKeepsExclusion(keyOf, s, step);
    if step.Begin? { DisciplinedIsIncreasing(keyOf, owner, step.plan); }
  }

  /** Over every run no two transactions hold conflicting locks, whatever the keys are. */
  lemma {:induction false} RunKeepsExclusion(keyOf: Keys, states: seq<State>, steps: seq<Step>, k: nat)
    requires Run(keyOf, states, steps) && states[0] == map[] && k < |states|
    ensures Exclusion(states[k])
    decreases k
  {
    if k > 0 {
      RunKeepsExclusion(keyOf, states, steps, k - 1);
      StepKeepsExclusion(keyOf, states[k - 1], steps[k - 1]);
    }
  }

  lemma {:induction false} RunKeepsInv(keyOf: Keys, owner: Owner, states: seq<State>, steps: seq<Step>, k: nat)
    requires Owns(owner, keyOf) && Run(keyOf, states, steps) && states[0] == map[] && k < |states|
    ensures Inv(owner, states[k])
    decreases k
  {
    if k > 0 {
      RunKeepsInv(keyOf, owner, states, steps, k - 1);
      StepKeepsInv(keyOf, owner, states[k - 1], steps[k - 1]);
    }
  }

  // ---------------------------------------------------------------- no deadlock

  lemma {:induction false} HighestWaiter(owner: Owner, s: State, ts: set<nat>) returns (t: nat)
    requires ts != {} && forall u :: u in ts ==> Waiting(s, u)
    ensures t in ts && forall u :: u in ts ==> !Below(owner, Next(s, t).resource, Next(s, u).resource)
    decreases ts
  {
    t :| t in ts;
    if ts != {t} {
      var v := HighestWaiter(owner, s, ts - {t});
      forall u | u in ts && u != t ensures !Below(owner, Next(s, v).resource, Next(s, u).resource) {
        assert u in ts - {t};
      }
      if Below(owner, Next(s, t).resource, Next(s, v).resource) {
        t := v;
      }
    }
  }

  /** If every open transaction waits, the one whose next lock is highest is not blocked. */
  lemma HighestIsFree(owner: Owner, s: State, t: nat)
    requires Ordered(owner, s) && t in s && forall u :: u in s ==> Waiting(s, u)
    requires forall u :: u in s ==> !Below(owner, Next(s, t).resource, Next(s, u).resource)
    ensures !Blocked(s, t)
  {
    forall u, r | u != t && Holds(s, u, r) ensures !Conflicts(r, Next(s, t)) {
      var i :| 0 <= i < s[u].held <= |s[u].plan| && s[u].plan[i] == r;
      assert Below(owner, s[u].plan[i].resource, Next(s, u).resource);
    }
  }

  /** In an ordered state with open transactions, one of them can take its next lock or commit. */
  lemma SomeoneCanMove(keyOf: Keys, owner: Owner, s: State) returns (step: Step)
    requires Ordered(owner, s) && s != map[]
    ensures (step.Acquire? || step.Commit?) && Enabled(keyOf, s, step)
  {
    if t :| t in s && s[t].held == |s[t].plan| {
      step := Commit(t);
    } else {
      assert s.Keys != {};
      var t := HighestWaiter(owner, s, s.Keys);
      HighestIsFree(owner, s, t);
      step := Acquire(t);
    }
  }

  /** All open transactions wait for each other. */
  ghost predicate Deadlocked(s: State) {
    s != map[] && forall t :: t in s ==> Waiting(s, t) && Blocked(s, t)
  }

  /** Over every run: with a key per file, transactions that follow the discipline never all wait for each other. */
  lemma NeverDeadlocked(keyOf: Keys, states: seq<State>, steps: seq<Step>)
    requires Injective(keyOf) && Run(keyOf, states, steps) && states[0] == map[]
    ensures !Deadlocked(states[|steps|])
  {
    var owner := OwnerOf(keyOf);
    RunKeepsInv(keyOf, owner, states, steps, |steps|);
    var s := states[|steps|];
    if s != map[] {
      var step := SomeoneCanMove(keyOf, owner, s);
      assert step.t in s;
    }
  }

  lemma OwnerOf(keyOf: Keys) returns (owner: Owner)
    requires Injective(keyOf)
    ensures Owns(owner, keyOf)
  {
    owner := k => if Owned(keyOf, k) then FileOf(keyOf, k) else 0;
    forall f ensures owner(keyOf(f)) == f {
      assert keyOf(f) == keyOf(f);
    }
  }

  ghost predicate Owned(keyOf: Keys, k: nat) {
    exists f :: keyOf(f) == k
  }

  ghost function FileOf(keyOf: Keys, k: nat): (f: nat)
    requires Owned(keyOf, k)
    ensures keyOf(f) == k
  {
    var f :| keyOf(f) == k; f
  }

  /** Two transactions somewhere in their plans. */
  function Pair(both: seq<Request>, i: nat, one: seq<Request>, j: nat): State {
    map[0 := Transaction(both, i), 1 := Transaction(one, j)]
  }

  ghost predicate Moves(keyOf: Keys, s: State, step: Step, s': State) {
    Enabled(keyOf, s, step) && s' == Apply(keyOf, s, step)
  }

  /** Two files with one key: a transaction that locks both and one that locks the second can block each other, though
      both follow the discipline. */
  lemma SharedKeyDeadlocks(keyOf: Keys, f: nat, g: nat) returns (states: seq<State>, steps: seq<Step>)
    requires f < g && keyOf(f) == keyOf(g)
    ensures Run(keyOf, states, steps) && states[0] == map[] && Deadlocked(states[|steps|])
  {
    var first, second := Request(File(f), Exclusive), Request(File(g), Exclusive);
    var key := Request(Key(keyOf(f)), Exclusive);
    var both, one := [first, key, second], [second, key];
    Begins(keyOf, both, one);
    FirstMoves(keyOf, both, 0, one);
    FirstMoves(keyOf, both, 1, one);
    SecondMoves(keyOf, both, one);
    states, steps := [map[]], [];
    states, steps := OneMore(keyOf, states, steps, Begin(0, both), map[0 := Transaction(both, 0)]);
    states, steps := OneMore(keyOf, states, steps, Begin(1, one), Pair(both, 0, one, 0));
    states, steps := OneMore(keyOf, states, steps, Acquire(0), Pair(both, 1, one, 0));
    states, steps := OneMore(keyOf, states, steps, Acquire(0), Pair(both, 2, one, 0));
    states, steps := OneMore(keyOf, states, steps, Acquire(1), Pair(both, 2, one, 1));
    BothWait(Pair(both, 2, one, 1), first, key, second);
  }

  lemma OneMore(keyOf: Keys, before: seq<State>, taken: seq<Step>, step: Step, s: State)
    returns (states: seq<State>, steps: seq<Step>)
    requires Run(keyOf, before, taken) && Moves(keyOf, before[|taken|], step, s)
    ensures Run(keyOf, states, steps) && states[0] == before[0] && states[|steps|] == s
  {
    states, steps := before + [s], taken + [step];
    forall i | 0 <= i < |steps| ensures Moves(keyOf, states[i], steps[i], states[i + 1]) { }
  }

  lemma Begins(keyOf: Keys, both: seq<Request>, one: seq<Request>)
    requires Disciplined(keyOf, both) && Disciplined(keyOf, one)
    ensures Moves(keyOf, map[], Begin(0, both), map[0 := Transaction(both, 0)])
    ensures Moves(keyOf, map[0 := Transaction(both, 0)], Begin(1, one), Pair(both, 0, one, 0))
  {
  }

  lemma FirstMoves(keyOf: Keys, both: seq<Request>, i: nat, one: seq<Request>)
    requires i < |both|
    ensures Moves(keyOf, Pair(both, i, one, 0), Acquire(0), Pair(both, i + 1, one, 0))
  {
  }

  lemma SecondMoves(keyOf: Keys, both: seq<Request>, one: seq<Request>)
    requires |both| == 3 && |one| == 2 && one[0].resource != both[0].resource && one[0].resource != both[1].resource
    ensures Moves(keyOf, Pair(both, 2, one, 0), Acquire(1), Pair(both, 2, one, 1))
  {
    var s := Pair(both, 2, one, 0);
    forall r | Holds(s, 0, r) ensures !Conflicts(r, one[0]) {
      var i :| 0 <= i < 2 && both[i] == r;
    }
  }

  lemma BothWait(s: State, first: Request, key: Request, second: Request)
    requires s.Keys == {0, 1} && key.mode == Exclusive && second.mode == Exclusive
    requires s[0] == Transaction([first, key, second], 2) && s[1] == Transaction([second, key], 1)
    ensures Deadlocked(s)
  {
    assert s[0].plan[1] == key && s[1].plan[0] == second;
    assert Holds(s, 0, key) && Holds(s, 1, second);
    assert Conflicts(key, Next(s, 1)) && Conflicts(second, Next(s, 0));
  }

  /** Without the order, two files taken in opposite orders are enough. */
  lemma OppositeOrdersDeadlock()
    ensures var a, b := Request(File(1), Exclusive), Request(File(2), Exclusive);
            Deadlocked(map[0 := Transaction([a, b], 1), 1 := Transaction([b, a], 1)])
  {
    var a, b := Request(File(1), Exclusive), Request(File(2), Exclusive);
    var s: State := map[0 := Transaction([a, b], 1), 1 := Transaction([b, a], 1)];
    assert s[0].plan[0] == a && s[1].plan[0] == b;
    assert Holds(s, 0, a) && Holds(s, 1, b);
    assert Conflicts(b, Next(s, 0)) && Conflicts(a, Next(s, 1));
  }

  ghost predicate CanDeadlock(keyOf: Keys) {
    exists states, steps :: Run(keyOf, states, steps) && states[0] == map[] && Deadlocked(states[|steps|])
  }

  /** Theorem: the discipline rules out deadlock if and only if no two files share a storage key. */
  lemma DeadlockFreeIff(keyOf: Keys)
    ensures !CanDeadlock(keyOf) <==> Injective(keyOf)
  {
    if Injective(keyOf) {
      forall states, steps | Run(keyOf, states, steps) && states[0] == map[] ensures !Deadlocked(states[|steps|]) {
        NeverDeadlocked(keyOf, states, steps);
      }
    } else {
      var f: nat, g: nat :| keyOf(f) == keyOf(g) && f != g;
      var states, steps := SharedKeyDeadlocks(keyOf, if f < g then f else g, if f < g then g else f);
      assert CanDeadlock(keyOf);
    }
  }

  // ---------------------------------------------------------------- every transaction can finish

  ghost function Left(tx: Transaction): nat {
    if tx.held <= |tx.plan| then 1 + |tx.plan| - tx.held else 0
  }

  ghost function Work(s: State): nat
    decreases s.Keys
  {
    if s == map[] then 0
    else
      assert s.Keys != {};
      var t :| t in s;
      Left(s[t]) + Work(s - {t})
  }

  lemma {:induction false} WorkWithout(s: State, t: nat)
    requires t in s
    ensures Work(s) == Left(s[t]) + Work(s - {t})
    decreases s.Keys
  {
    var u: nat :| u in s && Work(s) == Left(s[u]) + Work(s - {u});
    if u != t {
      WorkWithout(s - {u}, t);
      WorkWithout(s - {t}, u);
      assert s - {u} - {t} == s - {t} - {u};
    }
  }

  lemma MoveShrinksWork(keyOf: Keys, owner: Owner, s: State, step: Step)
    requires Ordered(owner, s) && (step.Acquire? || step.Commit?) && Enabled(keyOf, s, step)
    ensures Work(Apply(keyOf, s, step)) < Work(s)
  {
    var s' := Apply(keyOf, s, step);
    WorkWithout(s, step.t);
    if step.Acquire? {
      WorkWithout(s', step.t);
      assert s' - {step.t} == s - {step.t};
    }
  }

  /** Without any abort, every open transaction can be carried to its commit. */
  lemma {:induction false} CanDrain(keyOf: Keys, owner: Owner, s: State) returns (states: seq<State>, steps: seq<Step>)
    requires Owns(owner, keyOf) && Inv(owner, s)
    ensures Run(keyOf, states, steps) && states[0] == s && states[|steps|] == map[]
    ensures forall i :: 0 <= i < |steps| ==> steps[i].Acquire? || steps[i].Commit?
    decreases Work(s)
  {
    if s == map[] {
      states, steps := [s], [];
    } else {
      var step := SomeoneCanMove(keyOf, owner, s);
      MoveShrinksWork(keyOf, owner, s, step);
      StepKeepsInv(keyOf, owner, s, step);
      var states', steps' := CanDrain(keyOf, owner, Apply(keyOf, s, step));
      states, steps := [s] + states', [step] + steps';
    }
  }
}
