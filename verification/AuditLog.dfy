/**
  `secret_access_log`: the hash-chained, append-only log of `e50_1128_secret_store`, the erasure carve-out
  of `e72_1365_secret_log_carveout`, concurrent appenders, and the verifier that walks a chain.
*/
module AuditLog {
  import opened Sql

  type WorkspaceId = nat
  /** A 64-digit hexadecimal hash, read as a number. */
  type Hash = nat

  const GENESIS: Hash := 0

  /** The two columns the carve-out lets an erasure rewrite. */
  datatype Identity = Identity(actor: string, recipient: Option<string>)

  /** The remaining hashed columns. */
  datatype Body = Body(secret: Option<nat>, version: Option<nat>, action: string, result: string, meta: string,
                       created: int)

  datatype Entry = Entry(id: nat, ws: WorkspaceId, identity: Identity, body: Body, prev: Hash, hash: Hash)

  /** HMAC over the canonical payload, as an arbitrary function. */
  type Mac = (Hash, WorkspaceId, Identity, Body) -> Hash

  predicate Recomputes(mac: Mac, e: Entry) {
    mac(e.prev, e.ws, e.identity, e.body) == e.hash
  }

  // ---------------------------------------------------------------- chains

  /** The head after the first `n` entries. */
  function HeadAt(chain: seq<Entry>, n: nat): Hash
    requires n <= |chain|
  {
    if n == 0 then GENESIS else chain[n - 1].hash
  }

  predicate Linked(chain: seq<Entry>) {
    forall i {:trigger HeadAt(chain, i)} :: 0 <= i < |chain| ==> chain[i].prev == HeadAt(chain, i)
  }

  predicate ForkFree(chain: seq<Entry>) {
    forall i, j :: 0 <= i < j < |chain| ==> chain[i].prev != chain[j].prev
  }

  predicate IdsIncrease(chain: seq<Entry>) {
    forall i, j :: 0 <= i < j < |chain| ==> chain[i].id < chain[j].id
  }

  /** SELECT entry_hash ... ORDER BY id DESC LIMIT 1, or the genesis hash. */
  method ReadHead(chain: seq<Entry>) returns (head: Hash)
    requires IdsIncrease(chain)
    ensures head == HeadAt(chain, |chain|)
  {
    head := GENESIS;
    var best := 0;
    for i := 0 to |chain|
      invariant i > 0 ==> best == chain[i - 1].id && head == chain[i - 1].hash
      invariant i == 0 ==> head == GENESIS
    {
      if i == 0 || chain[i].id > best {
        best, head := chain[i].id, chain[i].hash;
      }
    }
  }

  // ---------------------------------------------------------------- the state machine

  /** An appender has read a head, or has inserted a row it has not committed yet. `seen` is the number of
      entries that were committed when it read. */
  datatype Appender = Reading(ws: WorkspaceId, head: Hash, seen: nat) | Writing(entry: Entry, seen: nat)

  /** Which body `secret_access_log_no_mutate` has. */
  datatype Guard = Blanket | CarveOut

  /** `chains[w]` holds the committed rows of workspace `w` in commit order. `touched` is history: the ids
      changed through the carve-out. */
  datatype State = State(chains: map<WorkspaceId, seq<Entry>>, nextId: nat, appenders: map<nat, Appender>,
                         guard: Guard, touched: set<nat>)

  datatype Event =
    | ReadBy(p: nat, ws: WorkspaceId)
    | Insert(p: nat, identity: Identity, body: Body)
    | UniqueViolation(p: nat)
    | Commit(p: nat)
    | Abort(p: nat)
    | Update(ws: WorkspaceId, i: nat, row: Entry)
    | Delete(ws: WorkspaceId, i: nat)
    | Truncate
    | InstallCarveOut
    | RemoveCarveOut

  function Chain(s: State, w: WorkspaceId): seq<Entry> {
    if w in s.chains then s.chains[w] else []
  }

  /** `uq_secret_access_log_ws_prev` among the committed rows. */
  predicate Taken(s: State, w: WorkspaceId, prev: Hash) {
    exists i :: 0 <= i < |Chain(s, w)| && Chain(s, w)[i].prev == prev
  }

  /** Another session holds an uncommitted row with the same key: the insert would wait. */
  predicate Blocked(s: State, w: WorkspaceId, prev: Hash) {
    exists p :: p in s.appenders && s.appenders[p].Writing?
                && s.appenders[p].entry.ws == w && s.appenders[p].entry.prev == prev
  }

  predicate Enabled(s: State, e: Event) {
    match e
    case ReadBy(p, _) => p !in s.appenders
    case Insert(p, _, _) =>
      p in s.appenders && s.appenders[p].Reading?
      && !Taken(s, s.appenders[p].ws, s.appenders[p].head) && !Blocked(s, s.appenders[p].ws, s.appenders[p].head)
    case UniqueViolation(p) =>
      p in s.appenders && s.appenders[p].Reading? && Taken(s, s.appenders[p].ws, s.appenders[p].head)
    case Commit(p) => p in s.appenders && s.appenders[p].Writing?
    case Abort(p) => p in s.appenders
    case Update(w, i, _) => i < |Chain(s, w)|
    case Delete(w, i) => i < |Chain(s, w)|
    case _ => true
  }

  /** The trigger: what an UPDATE may do under each guard. DELETE and TRUNCATE always raise. */
  predicate Permitted(guard: Guard, before: Entry, after: Entry) {
    guard == CarveOut && after.(identity := before.identity) == before
  }

  function Apply(mac: Mac, s: State, e: Event): State
    requires Enabled(s, e)
  {
    match e
    case ReadBy(p, w) =>
      s.(appenders := s.appenders[p := Reading(w, HeadAt(Chain(s, w), |Chain(s, w)|), |Chain(s, w)|)])
    case Insert(p, identity, body) =>
      var a := s.appenders[p];
      var row := Entry(s.nextId, a.ws, identity, body, a.head, mac(a.head, a.ws, identity, body));
      s.(appenders := s.appenders[p := Writing(row, a.seen)], nextId := s.nextId + 1)
    case UniqueViolation(p) => s.(appenders := s.appenders - {p})
    case Commit(p) =>
      var row := s.appenders[p].entry;
      s.(appenders := s.appenders - {p}, chains := s.chains[row.ws := Chain(s, row.ws) + [row]])
    case Abort(p) => s.(appenders := s.appenders - {p})
    case Update(w, i, row) =>
      if Permitted(s.guard, Chain(s, w)[i], row)
      then s.(chains := s.chains[w := Chain(s, w)[i := row]], touched := s.touched + {row.id})
      else s
    case Delete(_, _) => s
    case Truncate => s
    case InstallCarveOut => s.(guard := CarveOut)
    case RemoveCarveOut => s.(guard := Blanket)
  }

  predicate Init(s: State) {
    s.chains == map[] && s.appenders == map[] && s.touched == {}
  }

  predicate Run(mac: Mac, states: seq<State>, events: seq<Event>) {
    && |states| == |events| + 1 && Init(states[0])
    && forall i :: 0 <= i < |events| ==>
         Enabled(states[i], events[i]) && states[i + 1] == Apply(mac, states[i], events[i])
  }

  // ---------------------------------------------------------------- invariant

  predicate RowsOk(mac: Mac, chain: seq<Entry>, w: WorkspaceId, nextId: nat, touched: set<nat>) {
    forall i :: 0 <= i < |chain| ==>
      chain[i].ws == w && chain[i].id < nextId && (Recomputes(mac, chain[i]) || chain[i].id in touched)
  }

  predicate ChainOk(mac: Mac, s: State, w: WorkspaceId) {
    && Linked(Chain(s, w)) && ForkFree(Chain(s, w)) && IdsIncrease(Chain(s, w))
    && RowsOk(mac, Chain(s, w), w, s.nextId, s.touched)
  }

  predicate AllBelow(chain: seq<Entry>, id: nat) {
    forall i :: 0 <= i < |chain| ==> chain[i].id < id
  }

  predicate AppenderOk(mac: Mac, s: State, p: nat)
    requires p in s.appenders
  {
    match s.appenders[p]
    case Reading(w, head, seen) => seen <= |Chain(s, w)| && head == HeadAt(Chain(s, w), seen)
    case Writing(e, seen) =>
      && seen == |Chain(s, e.ws)| && e.prev == HeadAt(Chain(s, e.ws), seen)
      && !Taken(s, e.ws, e.prev) && Recomputes(mac, e) && e.id < s.nextId
      && AllBelow(Chain(s, e.ws), e.id)
  }

  predicate OneWriter(s: State) {
    forall p, q :: p in s.appenders && q in s.appenders && p != q && s.appenders[p].Writing? && s.appenders[q].Writing?
                   ==> s.appenders[p].entry.ws != s.appenders[q].entry.ws
  }

  ghost predicate Inv(mac: Mac, s: State) {
    && (forall w :: ChainOk(mac, s, w))
    && (forall p :: p in s.appenders ==> AppenderOk(mac, s, p))
    && OneWriter(s)
  }

  /** An insert that gets past the unique key was made against the current head. */
  lemma InsertSawTheHead(mac: Mac, s: State, p: nat)
    requires Inv(mac, s) && p in s.appenders && s.appenders[p].Reading?
    requires !Taken(s, s.appenders[p].ws, s.appenders[p].head)
    ensures s.appenders[p].seen == |Chain(s, s.appenders[p].ws)|
  {
    var a := s.appenders[p];
    var c := Chain(s, a.ws);
    assert AppenderOk(mac, s, p) && ChainOk(mac, s, a.ws);
    forall i | 0 <= i < |c| ensures HeadAt(c, i) != a.head {
      assert c[i].prev == HeadAt(c, i);
    }
  }

  lemma InsertKeepsInv(mac: Mac, s: State, p: nat, identity: Identity, body: Body)
    requires Inv(mac, s) && Enabled(s, Insert(p, identity, body))
    ensures Inv(mac, Apply(mac, s, Insert(p, identity, body)))
  {
    var s' := Apply(mac, s, Insert(p, identity, body));
    var a := s.appenders[p];
    InsertSawTheHead(mac, s, p);
    assert ChainOk(mac, s, a.ws) && AppenderOk(mac, s, p);
    forall w ensures ChainOk(mac, s', w) { assert ChainOk(mac, s, w) && Chain(s', w) == Chain(s, w); }
    forall q | q in s'.appenders ensures AppenderOk(mac, s', q) {
      assert q != p ==> AppenderOk(mac, s, q);
    }
    forall q | q in s.appenders && q != p && s.appenders[q].Writing? ensures s.appenders[q].entry.ws != a.ws {
      assert AppenderOk(mac, s, q);
      assert !Blocked(s, a.ws, a.head);
    }
  }

  lemma AppendedChain(mac: Mac, c: seq<Entry>, row: Entry, nextId: nat, touched: set<nat>)
    requires Linked(c) && ForkFree(c) && IdsIncrease(c) && RowsOk(mac, c, row.ws, nextId, touched)
    requires row.prev == HeadAt(c, |c|) && AllBelow(c, row.id) && row.id < nextId && Recomputes(mac, row)
    requires forall i :: 0 <= i < |c| ==> c[i].prev != row.prev
    ensures var c' := c + [row];
            Linked(c') && ForkFree(c') && IdsIncrease(c') && RowsOk(mac, c', row.ws, nextId, touched)
  {
    var c' := c + [row];
    assert forall n :: 0 <= n <= |c| ==> HeadAt(c', n) == HeadAt(c, n);
  }

  lemma CommitKeepsInv(mac: Mac, s: State, p: nat)
    requires Inv(mac, s) && Enabled(s, Commit(p))
    ensures Inv(mac, Apply(mac, s, Commit(p)))
  {
    var s' := Apply(mac, s, Commit(p));
    var row := s.appenders[p].entry;
    var c, c' := Chain(s, row.ws), Chain(s', row.ws);
    assert AppenderOk(mac, s, p) && ChainOk(mac, s, row.ws);
    AppendedChain(mac, c, row, s.nextId, s.touched);
    forall w ensures ChainOk(mac, s', w) {
      if w != row.ws { assert ChainOk(mac, s, w) && Chain(s', w) == Chain(s, w); }
    }
    forall q | q in s'.appenders ensures AppenderOk(mac, s', q) {
      CommitKeepsAppender(mac, s, p, q);
    }
  }

  lemma CommitKeepsAppender(mac: Mac, s: State, p: nat, q: nat)
    requires Inv(mac, s) && Enabled(s, Commit(p)) && q in s.appenders && q != p
    ensures AppenderOk(mac, Apply(mac, s, Commit(p)), q)
  {
    var s' := Apply(mac, s, Commit(p));
    var row := s.appenders[p].entry;
    assert AppenderOk(mac, s, q);
    assert forall n :: 0 <= n <= |Chain(s, row.ws)| ==> HeadAt(Chain(s', row.ws), n) == HeadAt(Chain(s, row.ws), n);
    if s.appenders[q].Writing? {
      assert Chain(s', s.appenders[q].entry.ws) == Chain(s, s.appenders[q].entry.ws);
    }
  }

  lemma UpdateKeepsInv(mac: Mac, s: State, w: WorkspaceId, i: nat, row: Entry)
    requires Inv(mac, s) && Enabled(s, Update(w, i, row))
    ensures Inv(mac, Apply(mac, s, Update(w, i, row)))
  {
    var s' := Apply(mac, s, Update(w, i, row));
    var c, c' := Chain(s, w), Chain(s', w);
    assert ChainOk(mac, s, w);
    if Permitted(s.guard, c[i], row) {
      assert |c'| == |c|;
      assert forall j :: 0 <= j < |c| ==> c'[j].prev == c[j].prev && c'[j].hash == c[j].hash && c'[j].id == c[j].id;
      assert forall n :: 0 <= n <= |c| ==> HeadAt(c', n) == HeadAt(c, n);
      assert ChainOk(mac, s', w);
      forall x | x != w ensures ChainOk(mac, s', x) { assert ChainOk(mac, s, x) && Chain(s', x) == Chain(s, x); }
      forall q | q in s'.appenders ensures AppenderOk(mac, s', q) {
        assert AppenderOk(mac, s, q);
      }
    }
  }

  lemma OtherKeepsInv(mac: Mac, s: State, e: Event)
    requires Inv(mac, s) && Enabled(s, e) && !e.Insert? && !e.Commit? && !e.Update?
    ensures Inv(mac, Apply(mac, s, e))
  {
    var s' := Apply(mac, s, e);
    forall w ensures ChainOk(mac, s', w) { assert ChainOk(mac, s, w) && Chain(s', w) == Chain(s, w); }
    forall q | q in s'.appenders ensures AppenderOk(mac, s', q) {
      assert q in s.appenders ==> AppenderOk(mac, s, q);
    }
  }

  lemma StepKeepsInv(mac: Mac, s: State, e: Event)
    requires Inv(mac, s) && Enabled(s, e)
    ensures Inv(mac, Apply(mac, s, e))
  {
    match e
    case Insert(p, identity, body) => InsertKeepsInv(mac, s, p, identity, body);
    case Commit(p) => CommitKeepsInv(mac, s, p);
    case Update(w, i, row) => UpdateKeepsInv(mac, s, w, i, row);
    case _ => OtherKeepsInv(mac, s, e);
  }

  /** Theorem: in every reachable state each workspace's log is one path from the genesis hash without
      forks, in id order, and a row whose hash does not recompute was changed through the carve-out. */
  lemma {:induction false} RunKeepsChains(mac: Mac, states: seq<State>, events: seq<Event>, i: nat, w: WorkspaceId)
    requires Run(mac, states, events) && i < |states|
    ensures Inv(mac, states[i])
    ensures var c := Chain(states[i], w);
            && Linked(c) && ForkFree(c) && IdsIncrease(c)
            && forall k :: 0 <= k < |c| && !Recomputes(mac, c[k]) ==> c[k].id in states[i].touched
  {
    if i > 0 {
      RunKeepsChains(mac, states, events, i - 1, w);
      StepKeepsInv(mac, states[i - 1], events[i - 1]);
    }
    assert ChainOk(mac, states[i], w);
  }

  /** The later chain starts with the earlier one, up to the carve-out columns of touched rows. */
  predicate Extends(earlier: seq<Entry>, later: seq<Entry>, touched: set<nat>) {
    && |earlier| <= |later|
    && forall k :: 0 <= k < |earlier| ==>
         && later[k] == earlier[k].(identity := later[k].identity)
         && (later[k] != earlier[k] ==> later[k].id in touched)
  }

  /** Theorem: no row ever vanishes or changes outside the carve-out, whatever is attempted. */
  lemma {:induction false} RowsStay(mac: Mac, states: seq<State>, events: seq<Event>, i: nat, j: nat, w: WorkspaceId)
    requires Run(mac, states, events) && i <= j < |states|
    ensures states[i].touched <= states[j].touched
    ensures Extends(Chain(states[i], w), Chain(states[j], w), states[j].touched)
  {
    if i < j {
      RowsStay(mac, states, events, i, j - 1, w);
      var s, e := states[j - 1], events[j - 1];
      assert Enabled(s, e) && states[j] == Apply(mac, s, e);
    }
  }

  // ---------------------------------------------------------------- verify_audit_chain

  predicate IsHex(c: char) {
    '0' <= c <= '9' || 'a' <= c <= 'f' || 'A' <= c <= 'F'
  }

  /** `re.match(r"^[0-9a-fA-F]{64}$")`, whose `$` also matches before a final newline. */
  predicate Pseudonym(s: string) {
    && (|s| == 64 || (|s| == 65 && s[64] == '\n'))
    && forall i :: 0 <= i < 64 ==> IsHex(s[i])
  }

  predicate ErasureShaped(e: Entry) {
    Pseudonym(e.identity.actor) || Pseudonym(if e.identity.recipient.Some? then e.identity.recipient.value else "")
  }

  datatype Verdict = Valid(entries: nat, head: Hash, scars: seq<nat>) | PrevMismatch(at: nat) | HashMismatch(at: nat)

  /** The ids of the first `n` entries whose hash does not recompute. */
  function Scars(mac: Mac, chain: seq<Entry>, n: nat): seq<nat>
    requires n <= |chain|
  {
    if n == 0 then []
    else Scars(mac, chain, n - 1) + (if Recomputes(mac, chain[n - 1]) then [] else [chain[n - 1].id])
  }

  /** What the first `n` entries must satisfy to be accepted. */
  predicate AcceptableTo(mac: Mac, chain: seq<Entry>, n: nat)
    requires n <= |chain|
  {
    forall i {:trigger HeadAt(chain, i)} :: 0 <= i < n ==>
      chain[i].prev == HeadAt(chain, i) && (Recomputes(mac, chain[i]) || ErasureShaped(chain[i]))
  }

  predicate Acceptable(mac: Mac, chain: seq<Entry>) {
    AcceptableTo(mac, chain, |chain|)
  }

  lemma AcceptableMore(mac: Mac, chain: seq<Entry>, n: nat)
    requires n < |chain| && AcceptableTo(mac, chain, n)
    requires chain[n].prev == HeadAt(chain, n) && (Recomputes(mac, chain[n]) || ErasureShaped(chain[n]))
    ensures AcceptableTo(mac, chain, n + 1)
  {
  }

  lemma NotAcceptable(mac: Mac, chain: seq<Entry>, n: nat)
    requires n < |chain|
    requires chain[n].prev != HeadAt(chain, n) || !(Recomputes(mac, chain[n]) || ErasureShaped(chain[n]))
    ensures !Acceptable(mac, chain)
  {
    var h := HeadAt(chain, n);
  }

  /** `verify_audit_chain` on the rows of one workspace in id order; a failure names the first bad entry. */
  method VerifyAuditChain(mac: Mac, chain: seq<Entry>) returns (v: Verdict)
    ensures v.Valid? <==> Acceptable(mac, chain)
    ensures v.Valid? ==> v == Valid(|chain|, HeadAt(chain, |chain|), Scars(mac, chain, |chain|))
    ensures !v.Valid? ==> exists k ::
              && 0 <= k < |chain| && chain[k].id == v.at && AcceptableTo(mac, chain, k)
              && (v.PrevMismatch? <==> chain[k].prev != HeadAt(chain, k))
  {
    var expected, scars := GENESIS, [];
    for k := 0 to |chain|
      invariant expected == HeadAt(chain, k) && scars == Scars(mac, chain, k) && AcceptableTo(mac, chain, k)
    {
      var e := chain[k];
      if e.prev != expected {
        NotAcceptable(mac, chain, k);
        return PrevMismatch(e.id);
      }
      if !Recomputes(mac, e) {
        if !ErasureShaped(e) {
          NotAcceptable(mac, chain, k);
          return HashMismatch(e.id);
        }
        scars := scars + [e.id];
      }
      AcceptableMore(mac, chain, k);
      expected := e.hash;
    }
    v := Valid(|chain|, expected, scars);
  }

  /** The event is an update that gets past the trigger. */
  predicate Updates(s: State, e: Event) {
    e.Update? && e.i < |Chain(s, e.ws)| && Permitted(s.guard, Chain(s, e.ws)[e.i], e.row)
  }

  /** Every update the trigger lets through writes a pseudonym, as the erasure sweep does. */
  predicate OnlyErasures(states: seq<State>, events: seq<Event>)
    requires |states| == |events| + 1
  {
    forall i :: 0 <= i < |events| && Updates(states[i], events[i]) ==> ErasureShaped(events[i].row)
  }

  predicate ShapedOrSound(mac: Mac, chain: seq<Entry>) {
    forall i :: 0 <= i < |chain| ==> Recomputes(mac, chain[i]) || ErasureShaped(chain[i])
  }

  lemma StepKeepsShapes(mac: Mac, s: State, e: Event, w: WorkspaceId)
    requires Inv(mac, s) && Enabled(s, e) && (Updates(s, e) ==> ErasureShaped(e.row))
    requires ShapedOrSound(mac, Chain(s, w))
    ensures ShapedOrSound(mac, Chain(Apply(mac, s, e), w))
  {
    if e.Commit? {
      assert AppenderOk(mac, s, e.p);
    }
  }

  lemma ShapedChainIsAcceptable(mac: Mac, chain: seq<Entry>)
    requires Linked(chain) && ShapedOrSound(mac, chain)
    ensures Acceptable(mac, chain)
  {
  }

  lemma {:induction false} ShapesStay(mac: Mac, states: seq<State>, events: seq<Event>, i: nat, w: WorkspaceId)
    requires Run(mac, states, events) && i < |states| && OnlyErasures(states, events)
    ensures ShapedOrSound(mac, Chain(states[i], w))
  {
    if i > 0 {
      ShapesStay(mac, states, events, i - 1, w);
      RunKeepsChains(mac, states, events, i - 1, w);
      StepKeepsShapes(mac, states[i - 1], events[i - 1], w);
    }
  }

  /** Theorem: if the carve-out is only used for erasures, the verifier accepts every chain of every reachable
      state; by RunKeepsChains its scar list then names only rows changed through the carve-out. */
  lemma ErasuresKeepVerifying(mac: Mac, states: seq<State>, events: seq<Event>, i: nat, w: WorkspaceId)
    requires Run(mac, states, events) && i < |states| && OnlyErasures(states, events)
    ensures ShapedOrSound(mac, Chain(states[i], w)) && Acceptable(mac, Chain(states[i], w))
  {
    RunKeepsChains(mac, states, events, i, w);
    ShapesStay(mac, states, events, i, w);
    ShapedChainIsAcceptable(mac, Chain(states[i], w));
  }
}
