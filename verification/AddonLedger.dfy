/**
  Reconciling the add-on caches with the `workspace_addons` ledger: `e22_665_backfill_admin_grants`
  followed by `e23_799_normalize_addon_caches`.
*/
module AddonLedger {
  import opened Sql

  type WorkspaceId = nat
  type Time = int

  /** The nine add-on types, each with its own cache column on `workspaces`. */
  datatype Addon =
    Memory | McpQuota | RestQuota | PublicQuota | Members | Contexts | AnalysisRuns | Storage | SleepContexts

  const ADDONS: seq<Addon> :=
    [Memory, McpQuota, RestQuota, PublicQuota, Members, Contexts, AnalysisRuns, Storage, SleepContexts]

  function Unit(a: Addon): (u: nat)
    ensures u > 0
  {
    match a
    case Memory => 10000
    case McpQuota => 5000
    case RestQuota => 1000
    case PublicQuota => 500
    case Members => 5
    case Contexts => 5
    case AnalysisRuns => 1
    case Storage => 100
    case SleepContexts => 1
  }

  const ADMIN := "admin_grant"

  /** The rest of the unique key (workspace_id, addon_type, source) once the type is fixed. */
  datatype Slot = Slot(ws: WorkspaceId, source: string)
  datatype Grant = Grant(quantity: nat, activeFrom: Time, activeUntil: Option<Time>)
  type Rows = map<Slot, Grant>

  datatype Workspace = Workspace(deleted: bool, cache: map<Addon, int>)

  /** `addons[a]` holds the `workspace_addons` rows of type `a`. */
  datatype Ledger = Ledger(workspaces: map<WorkspaceId, Workspace>, addons: map<Addon, Rows>)

  function RowsIn(addons: map<Addon, Rows>, a: Addon): Rows {
    if a in addons then addons[a] else map[]
  }

  function RowsOf(l: Ledger, a: Addon): Rows {
    RowsIn(l.addons, a)
  }

  /** The cache columns are NOT NULL DEFAULT 0. */
  function Cache(w: Workspace, a: Addon): int {
    if a in w.cache then w.cache[a] else 0
  }

  predicate Active(g: Grant, now: Time) {
    g.activeFrom <= now && (g.activeUntil.None? || g.activeUntil.value > now)
  }

  function ActiveSlots(rows: Rows, w: WorkspaceId, now: Time): set<Slot> {
    set s | s in rows && s.ws == w && Active(rows[s], now)
  }

  function NonAdminSlots(rows: Rows, w: WorkspaceId, now: Time): set<Slot> {
    set s | s in rows && s.ws == w && s.source != ADMIN && Active(rows[s], now)
  }

  // ---------------------------------------------------------------- SUM(quantity)

  ghost function Total(rows: Rows, slots: set<Slot>): nat
    requires slots <= rows.Keys
    decreases slots
  {
    if slots == {} then 0 else var s :| s in slots; rows[s].quantity + Total(rows, slots - {s})
  }

  lemma {:induction false} TotalRemove(rows: Rows, slots: set<Slot>, s: Slot)
    requires slots <= rows.Keys && s in slots
    ensures Total(rows, slots) == rows[s].quantity + Total(rows, slots - {s})
    decreases slots
  {
    var t :| t in slots && Total(rows, slots) == rows[t].quantity + Total(rows, slots - {t});
    if t != s {
      TotalRemove(rows, slots - {t}, s);
      TotalRemove(rows, slots - {s}, t);
      assert slots - {t} - {s} == slots - {s} - {t};
    }
  }

  lemma {:induction false} TotalSame(rows: Rows, rows': Rows, slots: set<Slot>)
    requires slots <= rows.Keys && slots <= rows'.Keys
    requires forall s :: s in slots ==> rows'[s].quantity == rows[s].quantity
    ensures Total(rows, slots) == Total(rows', slots)
    decreases slots
  {
    if slots != {} {
      var s :| s in slots;
      TotalRemove(rows, slots, s);
      TotalRemove(rows', slots, s);
      TotalSame(rows, rows', slots - {s});
    }
  }

  method SumQuantities(rows: Rows, slots: set<Slot>) returns (n: nat)
    requires slots <= rows.Keys
    ensures n == Total(rows, slots)
  {
    n := 0;
    var todo := slots;
    while todo != {}
      invariant todo <= slots && n + Total(rows, todo) == Total(rows, slots)
      decreases todo
    {
      var s :| s in todo;
      TotalRemove(rows, todo, s);
      n, todo := n + rows[s].quantity, todo - {s};
    }
  }

  ghost function NonAdmin(rows: Rows, w: WorkspaceId, now: Time): nat {
    Total(rows, NonAdminSlots(rows, w, now))
  }

  ghost function AllActive(rows: Rows, w: WorkspaceId, now: Time): nat {
    Total(rows, ActiveSlots(rows, w, now))
  }

  // ---------------------------------------------------------------- the two upgrades, one column each

  function Max(x: int, y: int): int {
    if x < y then y else x
  }

  /** The quantity e22 grants for cache `c` beside `n` active non-admin units of size `u`, if its WHERE
      clause lets the row through. */
  function Missing(c: int, n: nat, u: nat): Option<nat>
    requires u > 0
  {
    if c - n * u >= u then Some(Max(0, c - n * u) / u) else None
  }

  /** How e22 decides on a workspace with a given number of active non-admin units. */
  type Policy = (Workspace, nat) -> Option<nat>

  function MissingIn(a: Addon): Policy {
    (w: Workspace, n: nat) => if w.deleted then None else Missing(Cache(w, a), n, Unit(a))
  }

  /** The rows of e22's SELECT. */
  ghost function Due(workspaces: map<WorkspaceId, Workspace>, rows: Rows, policy: Policy, now: Time)
    : map<WorkspaceId, nat>
  {
    map w | w in workspaces && policy(workspaces[w], NonAdmin(rows, w, now)).Some?
      :: policy(workspaces[w], NonAdmin(rows, w, now)).value
  }

  function AdminSlots(ws: set<WorkspaceId>): set<Slot> {
    set w | w in ws :: Slot(w, ADMIN)
  }

  /** INSERT of the selected rows as admin grants, ON CONFLICT DO NOTHING. */
  function Granted(rows: Rows, due: map<WorkspaceId, nat>, now: Time): Rows {
    (map s | s in AdminSlots(due.Keys) :: Grant(due[s.ws], now, None)) + rows
  }

  ghost function GrantRows(workspaces: map<WorkspaceId, Workspace>, rows: Rows, policy: Policy, now: Time): Rows {
    Granted(rows, Due(workspaces, rows, policy, now), now)
  }

  ghost function E22(l: Ledger, now: Time): Ledger {
    l.(addons := map a | a in ADDONS :: GrantRows(l.workspaces, RowsOf(l, a), MissingIn(a), now))
  }

  function Bonus(n: nat, a: Addon): int {
    n * Unit(a)
  }

  ghost function Caches(addons: map<Addon, Rows>, now: Time, w: WorkspaceId): map<Addon, int> {
    map a | a in ADDONS :: Bonus(AllActive(RowsIn(addons, a), w, now), a)
  }

  function WithCaches(w: Workspace, caches: map<Addon, int>): Workspace {
    if w.deleted then w else w.(cache := w.cache + caches)
  }

  ghost function E23(l: Ledger, now: Time): Ledger {
    l.(workspaces := map w | w in l.workspaces :: WithCaches(l.workspaces[w], Caches(l.addons, now, w)))
  }

  lemma EveryAddon(a: Addon)
    ensures a in ADDONS
  {
    assert ADDONS[0] == Memory && ADDONS[1] == McpQuota && ADDONS[2] == RestQuota && ADDONS[3] == PublicQuota;
    assert ADDONS[4] == Members && ADDONS[5] == Contexts && ADDONS[6] == AnalysisRuns && ADDONS[7] == Storage;
    assert ADDONS[8] == SleepContexts;
  }

  // ---------------------------------------------------------------- arithmetic of whole units

  lemma {:induction false} MulAtLeast(k: nat, u: nat)
    requires k >= 1
    ensures k * u >= u
  {
    if k > 1 { MulAtLeast(k - 1, u); }
  }

  lemma MulSub(p: int, q: int, u: int)
    ensures (p - q) * u == p * u - q * u
  {
  }

  lemma DivUnique(x: int, q: int, r: int, u: nat)
    requires u > 0 && x == q * u + r && 0 <= r < u
    ensures x / u == q
  {
    var p, m := x / u, x % u;
    assert x == p * u + m;
    if p > q {
      MulAtLeast(p - q, u);
      MulSub(p, q, u);
    } else if p < q {
      MulAtLeast(q - p, u);
      MulSub(q, p, u);
    }
  }

  /** The grant covers exactly the missing whole units, and never zero of them. */
  lemma MissingUnits(c: int, n: nat, u: nat)
    requires u > 0
    ensures Missing(c, n, u) == if c / u > n then Some(c / u - n) else None
  {
    var q, r := c / u, c % u;
    assert c == q * u + r;
    MulSub(q, n, u);
    DivUnique(c - n * u, q - n, r, u);
    if q > n {
      MulAtLeast(q - n, u);
    } else if q < n {
      MulAtLeast(n - q, u);
      MulSub(n, q, u);
    }
  }

  // ---------------------------------------------------------------- the closed form

  /** After the insert the active rows sum to the active rows before plus the new grant, if there is one. */
  lemma ActiveAfterGrant(rows: Rows, due: map<WorkspaceId, nat>, t1: Time, t2: Time, w: WorkspaceId)
    requires t1 <= t2
    ensures AllActive(Granted(rows, due, t1), w, t2) ==
              AllActive(rows, w, t2) + (if w in due && Slot(w, ADMIN) !in rows then due[w] else 0)
  {
    var rows', s := Granted(rows, due, t1), Slot(w, ADMIN);
    var before, after := ActiveSlots(rows, w, t2), ActiveSlots(rows', w, t2);
    if w in due && s !in rows {
      assert s in AdminSlots(due.Keys);
      assert after == before + {s};
      TotalRemove(rows', after, s);
      assert after - {s} == before;
    } else {
      assert after == before;
    }
    TotalSame(rows, rows', before);
  }

  lemma NoAdminRow(rows: Rows, w: WorkspaceId, now: Time)
    requires Slot(w, ADMIN) !in rows
    ensures AllActive(rows, w, now) == NonAdmin(rows, w, now)
  {
    forall s | s in ActiveSlots(rows, w, now) ensures s.source != ADMIN {
      assert s == Slot(s.ws, s.source);
    }
    assert ActiveSlots(rows, w, now) == NonAdminSlots(rows, w, now);
  }

  lemma DueIsPositive(workspaces: map<WorkspaceId, Workspace>, rows: Rows, a: Addon, now: Time, w: WorkspaceId)
    requires w in Due(workspaces, rows, MissingIn(a), now)
    ensures Due(workspaces, rows, MissingIn(a), now)[w] >= 1
  {
    MissingUnits(Cache(workspaces[w], a), NonAdmin(rows, w, now), Unit(a));
  }

  ghost function CacheAfter(l: Ledger, t1: Time, t2: Time, w: WorkspaceId, a: Addon): int
    requires w in l.workspaces
  {
    Cache(E23(E22(l, t1), t2).workspaces[w], a)
  }

  lemma CacheAfterIs(l: Ledger, t1: Time, t2: Time, w: WorkspaceId, a: Addon)
    requires w in l.workspaces && !l.workspaces[w].deleted
    ensures CacheAfter(l, t1, t2, w, a)
         == Bonus(AllActive(GrantRows(l.workspaces, RowsOf(l, a), MissingIn(a), t1), w, t2), a)
  {
    EveryAddon(a);
    assert RowsOf(E22(l, t1), a) == GrantRows(l.workspaces, RowsOf(l, a), MissingIn(a), t1);
  }

  /** The active non-admin units then, and the whole units of the cache that were missing before. */
  ghost function UnitsThen(l: Ledger, t1: Time, t2: Time, w: WorkspaceId, a: Addon): nat
    requires w in l.workspaces
  {
    NonAdmin(RowsOf(l, a), w, t2) + Max(0, Cache(l.workspaces[w], a) / Unit(a) - NonAdmin(RowsOf(l, a), w, t1))
  }

  /** Theorem: e22 at `t1`, then e23 at `t2`, for a live workspace without an admin row. */
  lemma ClosedForm(l: Ledger, t1: Time, t2: Time, w: WorkspaceId, a: Addon)
    requires w in l.workspaces && !l.workspaces[w].deleted && t1 <= t2
    requires Slot(w, ADMIN) !in RowsOf(l, a)
    ensures CacheAfter(l, t1, t2, w, a) == Bonus(UnitsThen(l, t1, t2, w, a), a)
  {
    CacheAfterIs(l, t1, t2, w, a);
    UnitsAfter(l, t1, t2, w, a);
  }

  lemma UnitsAfter(l: Ledger, t1: Time, t2: Time, w: WorkspaceId, a: Addon)
    requires w in l.workspaces && !l.workspaces[w].deleted && t1 <= t2
    requires Slot(w, ADMIN) !in RowsOf(l, a)
    ensures AllActive(GrantRows(l.workspaces, RowsOf(l, a), MissingIn(a), t1), w, t2) == UnitsThen(l, t1, t2, w, a)
  {
    var rows := RowsOf(l, a);
    ActiveAfterGrant(rows, Due(l.workspaces, rows, MissingIn(a), t1), t1, t2, w);
    NoAdminRow(rows, w, t2);
    MissingUnits(Cache(l.workspaces[w], a), NonAdmin(rows, w, t1), Unit(a));
  }

  /** Theorem: an admin row that is already there is left alone, whatever it grants. */
  lemma ExistingGrantWins(l: Ledger, t1: Time, t2: Time, w: WorkspaceId, a: Addon)
    requires w in l.workspaces && !l.workspaces[w].deleted && t1 <= t2
    requires Slot(w, ADMIN) in RowsOf(l, a)
    ensures CacheAfter(l, t1, t2, w, a) == AllActive(RowsOf(l, a), w, t2) * Unit(a)
    ensures RowsOf(E22(l, t1), a)[Slot(w, ADMIN)] == RowsOf(l, a)[Slot(w, ADMIN)]
  {
    EveryAddon(a);
    CacheAfterIs(l, t1, t2, w, a);
    ActiveAfterGrant(RowsOf(l, a), Due(l.workspaces, RowsOf(l, a), MissingIn(a), t1), t1, t2, w);
  }

  /** The larger of the active non-admin units and the whole units of the cache. */
  function Rounded(c: int, n: nat, u: nat): int
    requires u > 0
  {
    Max(n * u, (c / u) * u)
  }

  lemma RoundedIs(c: int, n: nat, u: nat)
    requires u > 0
    ensures (n + Max(0, c / u - n)) * u == Rounded(c, n, u)
  {
    var q := c / u;
    if q > n {
      MulAtLeast(q - n, u);
      MulSub(q, n, u);
    } else if q < n {
      MulAtLeast(n - q, u);
      MulSub(n, q, u);
    }
  }

  /** Theorem: rounding loses less than one unit, keeps a multiple that is not below N * u, and never exceeds the larger
      of c and N * u. */
  lemma RoundingLoss(c: int, n: nat, u: nat)
    requires u > 0
    ensures c - Rounded(c, n, u) < u
    ensures c % u == 0 && c >= n * u ==> Rounded(c, n, u) == c
    ensures Rounded(c, n, u) <= Max(c, n * u)
  {
    var q, r := c / u, c % u;
    assert c == q * u + r;
  }

  lemma BonusIsRounded(c: int, n: nat, a: Addon)
    ensures Bonus(n + Max(0, c / Unit(a) - n), a) == Rounded(c, n, Unit(a))
  {
    RoundedIs(c, n, Unit(a));
  }

  /** Theorem: at one clock the cache becomes max(N * u, floor(c / u) * u). */
  lemma SameClockClosedForm(l: Ledger, now: Time, w: WorkspaceId, a: Addon)
    requires w in l.workspaces && !l.workspaces[w].deleted
    requires Slot(w, ADMIN) !in RowsOf(l, a)
    ensures CacheAfter(l, now, now, w, a) == Rounded(Cache(l.workspaces[w], a), NonAdmin(RowsOf(l, a), w, now), Unit(a))
  {
    ClosedForm(l, now, now, w, a);
    UnitsRounded(l, now, w, a);
  }

  lemma UnitsRounded(l: Ledger, now: Time, w: WorkspaceId, a: Addon)
    requires w in l.workspaces
    ensures Bonus(UnitsThen(l, now, now, w, a), a)
         == Rounded(Cache(l.workspaces[w], a), NonAdmin(RowsOf(l, a), w, now), Unit(a))
  {
    BonusIsRounded(Cache(l.workspaces[w], a), NonAdmin(RowsOf(l, a), w, now), a);
  }

  /** Every row e22 adds is an admin grant with a positive quantity, active from then on. */
  lemma NoZeroQuantity(l: Ledger, now: Time, a: Addon, s: Slot)
    requires s in RowsOf(E22(l, now), a) && s !in RowsOf(l, a)
    ensures var g := RowsOf(E22(l, now), a)[s]; s.source == ADMIN && g.quantity >= 1 && Active(g, now)
  {
    EveryAddon(a);
    DueIsPositive(l.workspaces, RowsOf(l, a), a, now, s.ws);
  }

  // ---------------------------------------------------------------- repeating the migrations

  lemma NonAdminUntouched(rows: Rows, due: map<WorkspaceId, nat>, t: Time, w: WorkspaceId, now: Time)
    ensures NonAdmin(Granted(rows, due, t), w, now) == NonAdmin(rows, w, now)
  {
    var rows' := Granted(rows, due, t);
    assert NonAdminSlots(rows', w, now) == NonAdminSlots(rows, w, now);
    TotalSame(rows, rows', NonAdminSlots(rows, w, now));
  }

  lemma GrantedAgain(rows: Rows, due: map<WorkspaceId, nat>, now: Time)
    ensures Granted(Granted(rows, due, now), due, now) == Granted(rows, due, now)
  {
  }

  lemma GrantRowsAgain(workspaces: map<WorkspaceId, Workspace>, rows: Rows, policy: Policy, now: Time)
    ensures GrantRows(workspaces, GrantRows(workspaces, rows, policy, now), policy, now)
         == GrantRows(workspaces, rows, policy, now)
  {
    var due, rows' := Due(workspaces, rows, policy, now), GrantRows(workspaces, rows, policy, now);
    forall w | w in workspaces ensures NonAdmin(rows', w, now) == NonAdmin(rows, w, now) {
      NonAdminUntouched(rows, due, now, w, now);
    }
    assert Due(workspaces, rows', policy, now) == due;
    GrantedAgain(rows, due, now);
  }

  /** Theorem: repeating e22, e23, or both at one clock changes nothing. */
  lemma RepeatE22(l: Ledger, now: Time)
    ensures E22(E22(l, now), now) == E22(l, now)
  {
    forall a | a in ADDONS
      ensures GrantRows(l.workspaces, RowsOf(E22(l, now), a), MissingIn(a), now) == RowsOf(E22(l, now), a)
    {
      GrantRowsAgain(l.workspaces, RowsOf(l, a), MissingIn(a), now);
    }
  }

  lemma WithCachesTwice(w: Workspace, caches: map<Addon, int>)
    ensures WithCaches(WithCaches(w, caches), caches) == WithCaches(w, caches)
  {
    assert (w.cache + caches) + caches == w.cache + caches;
  }

  lemma RepeatE23(l: Ledger, now: Time)
    ensures E23(E23(l, now), now) == E23(l, now)
  {
    var l' := E23(l, now);
    forall w | w in l.workspaces
      ensures WithCaches(l'.workspaces[w], Caches(l.addons, now, w)) == l'.workspaces[w]
    {
      WithCachesTwice(l.workspaces[w], Caches(l.addons, now, w));
    }
  }

  /** After both, e22 finds no missing unit where it has not granted one already. */
  lemma NothingDue(l: Ledger, now: Time, a: Addon, w: WorkspaceId)
    requires w in l.workspaces && !l.workspaces[w].deleted
    requires Slot(w, ADMIN) !in GrantRows(l.workspaces, RowsOf(l, a), MissingIn(a), now)
    ensures w !in Due(E23(E22(l, now), now).workspaces, GrantRows(l.workspaces, RowsOf(l, a), MissingIn(a), now),
                      MissingIn(a), now)
  {
    var rows := GrantRows(l.workspaces, RowsOf(l, a), MissingIn(a), now);
    CacheAfterIs(l, now, now, w, a);
    NoAdminRow(rows, w, now);
    NoneMissing(NonAdmin(rows, w, now), a);
  }

  lemma NoneMissing(n: nat, a: Addon)
    ensures Missing(Bonus(n, a), n, Unit(a)) == None
  {
    var u := Unit(a);
    DivUnique(n * u, n, 0, u);
    MissingUnits(n * u, n, u);
  }

  lemma NoNewGrants(rows: Rows, due: map<WorkspaceId, nat>, now: Time)
    requires forall x :: x in due ==> Slot(x, ADMIN) in rows
    ensures Granted(rows, due, now) == rows
  {
  }

  lemma RepeatBoth(l: Ledger, now: Time)
    ensures var done := E23(E22(l, now), now); E22(done, now) == done && E23(E22(done, now), now) == done
  {
    var granted := E22(l, now);
    var done := E23(granted, now);
    forall a | a in ADDONS
      ensures GrantRows(done.workspaces, RowsOf(granted, a), MissingIn(a), now) == RowsOf(granted, a)
    {
      var rows := RowsOf(granted, a);
      var due := Due(done.workspaces, rows, MissingIn(a), now);
      forall w | w in due ensures Slot(w, ADMIN) in rows {
        if Slot(w, ADMIN) !in rows {
          NothingDue(l, now, a, w);
        }
      }
      NoNewGrants(rows, due, now);
    }
    assert E22(done, now).addons == granted.addons;
    RepeatE23(granted, now);
  }

  // ---------------------------------------------------------------- the loops

  class Database {
    var workspaces: map<WorkspaceId, Workspace>
    var addons: map<Addon, Rows>

    function View(): Ledger
      reads this
    {
      Ledger(workspaces, addons)
    }

    method SelectDue(rows: Rows, policy: Policy, now: Time) returns (due: map<WorkspaceId, nat>)
      ensures due == Due(workspaces, rows, policy, now)
    {
      due := map[];
      var todo := workspaces.Keys;
      while todo != {}
        invariant todo <= workspaces.Keys
        invariant due == map w | w in workspaces && w !in todo && policy(workspaces[w], NonAdmin(rows, w, now)).Some?
                           :: policy(workspaces[w], NonAdmin(rows, w, now)).value
        decreases todo
      {
        var w :| w in todo;
        todo := todo - {w};
        var sum := SumQuantities(rows, NonAdminSlots(rows, w, now));
        var missing := policy(workspaces[w], sum);
        if missing.Some? {
          due := due[w := missing.value];
        }
      }
    }

    /** INSERT ... SELECT ... ON CONFLICT DO NOTHING for one cache column. */
    method InsertGrants(a: Addon, now: Time)
      modifies `addons
      ensures addons == old(addons)[a := Inserts(old(View()), now)(a)]
    {
      var rows := RowsIn(addons, a);
      var due := SelectDue(rows, MissingIn(a), now);
      addons := addons[a := Granted(rows, due, now)];
    }

    /** One more column of the upgrade. */
    method InsertNext(ghost before: Ledger, ghost columns: seq<Addon>, a: Addon, now: Time)
      requires View() == Ledger(before.workspaces, Inserted(before.addons, Inserts(before, now), columns))
      requires a !in columns
      modifies `addons
      ensures addons == Inserted(before.addons, Inserts(before, now), columns + [a])
    {
      InsertGrants(a, now);
      OneMoreInsert(before, columns, a, now);
    }

    /** `e22.upgrade`: one INSERT ... SELECT per cache column. */
    method UpgradeE22(now: Time)
      modifies `addons
      ensures View() == E22(old(View()), now)
    {
      ghost var before, inserts := View(), Inserts(View(), now);
      NoInserts(addons, inserts);
      for i := 0 to |ADDONS|
        invariant workspaces == old(workspaces) && addons == Inserted(before.addons, inserts, ADDONS[..i])
      {
        DistinctAddons(i);
        InsertNext(before, ADDONS[..i], ADDONS[i], now);
      }
      assert ADDONS[..|ADDONS|] == ADDONS;
      AllInserts(before, now);
    }

    /** COALESCE((SELECT SUM(quantity) ...), 0) * unit */
    method SumColumn(a: Addon, w: WorkspaceId, now: Time) returns (sum: int)
      ensures sum == Sums(addons, now)(w, a)
    {
      var n := SumQuantities(RowsIn(addons, a), ActiveSlots(RowsIn(addons, a), w, now));
      sum := Bonus(n, a);
    }

    /** UPDATE workspaces SET <column> = ... WHERE deleted_at IS NULL */
    method UpdateColumn(a: Addon, now: Time)
      modifies `workspaces
      ensures workspaces == SetColumn(old(workspaces), Sums(addons, now), a)
    {
      var done: map<WorkspaceId, Workspace> := map[];
      var todo := workspaces.Keys;
      while todo != {}
        invariant todo <= workspaces.Keys && unchanged(this) && done.Keys == workspaces.Keys - todo
        invariant forall w :: w in done ==> done[w] == WithColumn(workspaces[w], a, Sums(addons, now)(w, a))
        decreases todo
      {
        var w :| w in todo;
        todo := todo - {w};
        var sum := SumColumn(a, w, now);
        done := done[w := WithColumn(workspaces[w], a, sum)];
      }
      workspaces := done;
    }

    /** `e23.upgrade`: one UPDATE per cache column. */
    method UpgradeE23(now: Time)
      modifies `workspaces
      ensures View() == E23(old(View()), now)
    {
      ghost var before, sums := workspaces, Sums(addons, now);
      NoColumns(workspaces, sums);
      for i := 0 to |ADDONS|
        invariant addons == old(addons) && workspaces == Updated(before, sums, ADDONS[..i])
      {
        DistinctAddons(i);
        UpdateColumn(ADDONS[i], now);
        OneMoreColumn(before, sums, ADDONS[..i], ADDONS[i]);
      }
      assert ADDONS[..|ADDONS|] == ADDONS;
      AllColumns(before, addons, now);
    }
  }

  /** What the rows of each type become. */
  type TypeRows = Addon -> Rows

  ghost function Inserts(l: Ledger, now: Time): TypeRows {
    (a: Addon) => GrantRows(l.workspaces, RowsOf(l, a), MissingIn(a), now)
  }

  /** The rows after the inserts for some columns. */
  function Inserted(addons: map<Addon, Rows>, inserts: TypeRows, columns: seq<Addon>): map<Addon, Rows> {
    addons + map a | a in columns :: inserts(a)
  }

  lemma NoInserts(addons: map<Addon, Rows>, inserts: TypeRows)
    ensures Inserted(addons, inserts, ADDONS[..0]) == addons
  {
  }

  lemma InsertedMore(addons: map<Addon, Rows>, inserts: TypeRows, columns: seq<Addon>, a: Addon)
    ensures Inserted(addons, inserts, columns + [a]) == Inserted(addons, inserts, columns)[a := inserts(a)]
  {
  }

  /** An insert reads the rows of its own type only, which are still those before the upgrade. */
  lemma OneMoreInsert(before: Ledger, columns: seq<Addon>, a: Addon, now: Time)
    requires a !in columns
    ensures var done := Inserted(before.addons, Inserts(before, now), columns);
            done[a := Inserts(Ledger(before.workspaces, done), now)(a)]
            == Inserted(before.addons, Inserts(before, now), columns + [a])
  {
    var done := Inserted(before.addons, Inserts(before, now), columns);
    assert RowsIn(done, a) == RowsOf(before, a);
    InsertedMore(before.addons, Inserts(before, now), columns, a);
  }

  lemma AllInserts(l: Ledger, now: Time)
    ensures Inserted(l.addons, Inserts(l, now), ADDONS) == E22(l, now).addons
  {
    EveryInsert(l.addons, Inserts(l, now), E22(l, now).addons);
  }

  lemma EveryInsert(addons: map<Addon, Rows>, inserts: TypeRows, all: map<Addon, Rows>)
    requires forall a :: a in all <==> a in ADDONS
    requires forall a :: a in ADDONS ==> all[a] == inserts(a)
    ensures Inserted(addons, inserts, ADDONS) == all
  {
    forall a | a in addons ensures a in ADDONS { EveryAddon(a); }
  }

  /** What each column of each workspace is set to. */
  type ColumnSums = (WorkspaceId, Addon) -> int

  ghost function Sums(addons: map<Addon, Rows>, now: Time): ColumnSums {
    (w: WorkspaceId, a: Addon) => Bonus(AllActive(RowsIn(addons, a), w, now), a)
  }

  function WithColumn(w: Workspace, a: Addon, sum: int): Workspace {
    if w.deleted then w else w.(cache := w.cache[a := sum])
  }

  function SetColumn(workspaces: map<WorkspaceId, Workspace>, sums: ColumnSums, a: Addon): map<WorkspaceId, Workspace> {
    map w | w in workspaces :: WithColumn(workspaces[w], a, sums(w, a))
  }

  function Columns(sums: ColumnSums, w: WorkspaceId, columns: seq<Addon>): map<Addon, int> {
    map a | a in columns :: sums(w, a)
  }

  /** The workspaces after the updates of some columns. */
  function Updated(workspaces: map<WorkspaceId, Workspace>, sums: ColumnSums, columns: seq<Addon>)
    : map<WorkspaceId, Workspace>
  {
    map w | w in workspaces :: WithCaches(workspaces[w], Columns(sums, w, columns))
  }

  lemma NoColumns(workspaces: map<WorkspaceId, Workspace>, sums: ColumnSums)
    ensures Updated(workspaces, sums, ADDONS[..0]) == workspaces
  {
    forall w | w in workspaces ensures WithCaches(workspaces[w], Columns(sums, w, ADDONS[..0])) == workspaces[w] {
      assert workspaces[w].cache + Columns(sums, w, ADDONS[..0]) == workspaces[w].cache;
    }
  }

  lemma ColumnAdded(w: Workspace, caches: map<Addon, int>, a: Addon, sum: int)
    ensures WithColumn(WithCaches(w, caches), a, sum) == WithCaches(w, caches[a := sum])
  {
    assert (w.cache + caches)[a := sum] == w.cache + caches[a := sum];
  }

  lemma ColumnsAdded(sums: ColumnSums, w: WorkspaceId, columns: seq<Addon>, a: Addon)
    ensures Columns(sums, w, columns + [a]) == Columns(sums, w, columns)[a := sums(w, a)]
  {
  }

  lemma OneMoreColumnAt(x: Workspace, sums: ColumnSums, w: WorkspaceId, columns: seq<Addon>, a: Addon)
    ensures WithColumn(WithCaches(x, Columns(sums, w, columns)), a, sums(w, a))
         == WithCaches(x, Columns(sums, w, columns + [a]))
  {
    ColumnAdded(x, Columns(sums, w, columns), a, sums(w, a));
    ColumnsAdded(sums, w, columns, a);
  }

  lemma OneMoreColumn(workspaces: map<WorkspaceId, Workspace>, sums: ColumnSums, columns: seq<Addon>, a: Addon)
    ensures SetColumn(Updated(workspaces, sums, columns), sums, a) == Updated(workspaces, sums, columns + [a])
  {
    var x, y := SetColumn(Updated(workspaces, sums, columns), sums, a), Updated(workspaces, sums, columns + [a]);
    assert x.Keys == y.Keys == workspaces.Keys;
    forall w | w in workspaces ensures x[w] == y[w] { OneMoreColumnAt(workspaces[w], sums, w, columns, a); }
  }

  lemma AllColumns(workspaces: map<WorkspaceId, Workspace>, addons: map<Addon, Rows>, now: Time)
    ensures Updated(workspaces, Sums(addons, now), ADDONS) == E23(Ledger(workspaces, addons), now).workspaces
  {
    forall w | w in workspaces ensures Columns(Sums(addons, now), w, ADDONS) == Caches(addons, now, w) { }
  }

  lemma DistinctAddons(i: nat)
    requires i < |ADDONS|
    ensures ADDONS[i] !in ADDONS[..i] && ADDONS[i] !in ADDONS[i + 1..]
    ensures ADDONS[..i + 1] == ADDONS[..i] + [ADDONS[i]] && ADDONS[i..] == [ADDONS[i]] + ADDONS[i + 1..]
  {
  }
}
