/** `verify_remote_oauth.py`: the steps of a run, what is recorded of them, and the verdict. */
module OAuthSteps {

  /** The step ids, numbered by their place in a full run. */
  newtype Id = n: int | 0 <= n < 44

  const D1: Id := 0
  const D2: Id := 1
  const D3: Id := 2
  const D4: Id := 3
  const D5: Id := 4
  const R1: Id := 5
  const R2: Id := 6
  const A0: Id := 7
  const A1a: Id := 8
  const A1b: Id := 9
  const A1c: Id := 10
  const A2: Id := 11
  const T1: Id := 12
  const T2: Id := 13
  const T3: Id := 14
  const T4: Id := 15
  const T5: Id := 16
  const S1: Id := 17
  const M1: Id := 18
  const M2: Id := 19
  const M3: Id := 20
  const M4: Id := 21
  const M5: Id := 22
  const M6: Id := 23
  const M7: Id := 24
  const M8: Id := 25
  const S2: Id := 26
  const F1: Id := 27
  const F2: Id := 28
  const F3: Id := 29
  const F4: Id := 30
  const S3: Id := 31
  const S4: Id := 32
  const V1: Id := 33
  const V2: Id := 34
  const V3: Id := 35
  const V4: Id := 36
  const V5: Id := 37
  const X1: Id := 38
  const X2: Id := 39
  const X3: Id := 40
  const X4: Id := 41
  const C1: Id := 42
  const C2: Id := 43

  function Position(id: Id): nat {
    id as nat
  }

  /** The steps before cleanup. */
  const PLANNED := 42

  predicate Required(id: Id) {
    id !in [D4, A1a, A1b, A1c, S1, M6, M8, F3, S3, V3, X1, X2, X3, X4, C1, C2]
  }

  /** Optional steps with a required one still to come. */
  predicate BlindSpot(id: Id) {
    !Required(id) && Position(id) < Position(V5)
  }

  datatype Status = Passed | Failed | Skipped | Observed

  datatype Record = Record(id: Id, status: Status)

  /** How the body of a step ends: it returns, skips, raises, or the operator interrupts it. */
  datatype Ending = Returned | SkipRaised | ErrorRaised | Interrupted

  type Abrupt = e: Ending | e != Returned witness ErrorRaised

  datatype Body = Body(ending: Ending, checks: seq<bool>, observationOnly: bool)

  /** The status `step` gives to a body. */
  function StatusOf(b: Body): Status {
    match b.ending
    case SkipRaised => Skipped
    case ErrorRaised => Failed
    case Interrupted => Failed
    case Returned =>
      if exists i :: 0 <= i < |b.checks| && !b.checks[i] then Failed
      else if b.observationOnly then Observed
      else Passed
  }

  /** The records are those of the first k steps of the plan, in order, each once. */
  ghost predicate FirstSteps(steps: seq<Record>, k: nat)
    decreases k
  {
    && |steps| == k <= PLANNED
    && (k > 0 ==> Position(steps[k - 1].id) == k - 1 && FirstSteps(steps[..k - 1], k - 1))
  }

  lemma {:induction false} FirstStepsAt(steps: seq<Record>, k: nat, i: nat)
    requires FirstSteps(steps, k) && i < k
    ensures Position(steps[i].id) == i && FirstSteps(steps[..i], i)
    decreases k
  {
    if i < k - 1 {
      FirstStepsAt(steps[..k - 1], k - 1, i);
      assert steps[..k - 1][..i] == steps[..i];
    }
  }

  predicate PassedAt(steps: seq<Record>, id: Id) {
    Position(id) < |steps| && steps[Position(id)].status == Passed
  }

  /** What the report's verdict looks at: the recorded steps. */
  predicate Verdict(steps: seq<Record>) {
    forall i :: 0 <= i < |steps| && Required(steps[i].id) ==> steps[i].status == Passed
  }

  ghost predicate Recorded(steps: seq<Record>, id: Id, i: nat) {
    i < |steps| && steps[i].id == id
  }

  /** The step is on record exactly once, as passed. */
  ghost predicate PassedOnce(steps: seq<Record>, id: Id) {
    exists i: nat :: && Recorded(steps, id, i) && steps[i].status == Passed
                     && forall j: nat :: Recorded(steps, id, j) ==> j == i
  }

  predicate InMode(id: Id, discoveryOnly: bool) {
    !discoveryOnly || Position(id) <= Position(D5)
  }

  /** What a passing report is taken to mean. */
  ghost predicate AllRequiredPassed(steps: seq<Record>, discoveryOnly: bool) {
    forall id: Id :: Required(id) && InMode(id, discoveryOnly) ==> PassedOnce(steps, id)
  }

  /** The records of a run with a report: the first k planned steps, then cleanup unless discovery only. */
  ghost predicate RunShape(steps: seq<Record>, k: nat, discoveryOnly: bool) {
    && k <= |steps| && FirstSteps(steps[..k], k)
    && if discoveryOnly then |steps| == k <= 5
       else |steps| == k + 2 && steps[k].id == C1 && steps[k + 1].id == C2
  }

  /** Where a step is recorded, if it is. */
  lemma RecordedWhere(steps: seq<Record>, k: nat, discoveryOnly: bool, id: Id, i: nat)
    requires RunShape(steps, k, discoveryOnly) && Required(id) && Recorded(steps, id, i)
    ensures i == Position(id) < k
  {
    if i < k {
      FirstStepsAt(steps[..k], k, i);
    }
  }

  lemma PassedOnceWhen(steps: seq<Record>, k: nat, discoveryOnly: bool, id: Id)
    requires RunShape(steps, k, discoveryOnly) && Required(id) && Verdict(steps)
    ensures PassedOnce(steps, id) <==> Position(id) < k
  {
    if Position(id) < k {
      var i := Position(id);
      FirstStepsAt(steps[..k], k, i);
      assert Recorded(steps, id, i);
      forall j: nat | Recorded(steps, id, j) ensures j == i { RecordedWhere(steps, k, discoveryOnly, id, j); }
    }
    if PassedOnce(steps, id) {
      var i: nat :| Recorded(steps, id, i);
      RecordedWhere(steps, k, discoveryOnly, id, i);
    }
  }

  /** How far the plan was recorded decides what a passing verdict is worth. */
  lemma VerdictMeaning(steps: seq<Record>, k: nat, discoveryOnly: bool)
    requires RunShape(steps, k, discoveryOnly) && Verdict(steps)
    ensures AllRequiredPassed(steps, discoveryOnly) <==> k > Position(if discoveryOnly then D5 else V5)
  {
    forall id: Id | Required(id) ensures PassedOnce(steps, id) <==> Position(id) < k {
      PassedOnceWhen(steps, k, discoveryOnly, id);
    }
    if k > Position(if discoveryOnly then D5 else V5) {
      forall id: Id | Required(id) && InMode(id, discoveryOnly) ensures PassedOnce(steps, id) {
        LastRequired(id);
      }
    } else {
      assert Required(D5) && Required(V5);
    }
  }

  lemma LastRequired(id: Id)
    requires Required(id)
    ensures Position(id) <= Position(V5)
  {
  }
}

/** Token answers, revocations and what the run keeps of them. */
module OAuthTokens {
  import opened Sql
  import opened OAuthSteps

  /** A member of a JSON answer. `Number` also stands for `true`; `Composite` is a list or an object. */
  datatype Member = Missing | Text(s: string) | Number(n: int) | Composite(size: nat, content: nat)

  predicate Truthy(m: Member) {
    match m
    case Missing => false
    case Text(s) => s != ""
    case Number(n) => n != 0
    case Composite(size, _) => size > 0
  }

  /** `register` takes the length of the value, and uses it as a key if it has at least eight elements. */
  predicate Raises(m: Member) {
    Truthy(m) && (m.Number? || (m.Composite? && m.size >= 8))
  }

  /** A token-endpoint answer. */
  datatype TokenAnswer = TokenAnswer(status: int, access: Member, refresh: Member)

  /** `token_evidence` gets through. */
  predicate Describable(a: TokenAnswer) {
    !Raises(a.access) && !Raises(a.refresh)
  }

  /** `keep_tokens` keeps it. */
  predicate Successful(a: TokenAnswer) {
    a.status == 200 && Truthy(a.access)
  }

  /** The token is the access token of the answer, or its refresh token. */
  predicate Carries(a: TokenAnswer, t: Member) {
    t == a.access || (Truthy(a.refresh) && t == a.refresh)
  }

  /** What a token request meets: no answer, an interrupt, or an answer, possibly cut before it was kept. */
  datatype TokenReply = NoReply | Cut | Answered(answer: TokenAnswer, cut: bool)

  datatype RevokeReply = NoRevokeReply | RevokeCut | RevokeStatus(status: int)

  datatype Pair = Pair(access: Member, refresh: Member, revoked: bool)

  /** A successful answer as it came in, and the place of the pair that was kept of it. */
  datatype Received = Received(answer: TokenAnswer, cut: bool, kept: Option<nat>)

  /** The answer was described and handed to `keep_tokens`: it is describable and no interrupt came between. */
  predicate Whole(r: Received) {
    Describable(r.answer) && !r.cut
  }

  predicate Linked(r: Received, tokens: seq<Pair>) {
    r.kept.Some? ==>
      && r.kept.value < |tokens|
      && tokens[r.kept.value].access == r.answer.access && tokens[r.kept.value].refresh == r.answer.refresh
  }

  predicate AllLinked(received: seq<Received>, tokens: seq<Pair>) {
    forall i :: 0 <= i < |received| ==> Linked(received[i], tokens)
  }

  /** Every pair was kept of a whole answer. */
  predicate HasOrigin(i: nat, origin: nat, received: seq<Received>) {
    origin < |received| && received[origin].kept == Some(i) && Whole(received[origin])
  }

  predicate AllOriginate(tokens: seq<Pair>, origins: seq<nat>, received: seq<Received>) {
    |origins| == |tokens| && forall i :: 0 <= i < |tokens| ==> HasOrigin(i, origins[i], received)
  }

  /** Whole answers were kept. */
  predicate NoneDropped(received: seq<Received>) {
    forall i :: 0 <= i < |received| ==> (Whole(received[i]) ==> received[i].kept.Some?)
  }

  predicate Gone(p: Pair, revoked: set<Member>) {
    p.access in revoked && (Truthy(p.refresh) ==> p.refresh in revoked)
  }

  predicate FlagsAreTrue(tokens: seq<Pair>, revoked: set<Member>) {
    forall i :: 0 <= i < |tokens| && tokens[i].revoked ==> Gone(tokens[i], revoked)
  }

  predicate NoFlags(tokens: seq<Pair>) {
    forall i :: 0 <= i < |tokens| ==> !tokens[i].revoked
  }

  predicate AllGone(tokens: seq<Pair>, revoked: set<Member>) {
    forall i :: 0 <= i < |tokens| ==> Gone(tokens[i], revoked)
  }

  predicate PairHas(p: Pair, t: Member) {
    p.access == t || (Truthy(p.refresh) && p.refresh == t)
  }

  /** The token belongs to a kept pair. */
  predicate IsKept(t: Member, tokens: seq<Pair>) {
    exists i :: 0 <= i < |tokens| && PairHas(tokens[i], t)
  }

  predicate OnlyKept(revoked: set<Member>, tokens: seq<Pair>) {
    forall t :: t in revoked ==> IsKept(t, tokens)
  }

  /** Same pairs in the same places, apart from the flags. */
  predicate SamePairs(a: seq<Pair>, b: seq<Pair>) {
    |a| <= |b| && forall i :: 0 <= i < |a| ==> a[i].access == b[i].access && a[i].refresh == b[i].refresh
  }

  lemma PairsStay(received: seq<Received>, revoked: set<Member>, a: seq<Pair>, b: seq<Pair>)
    requires AllLinked(received, a) && OnlyKept(revoked, a) && SamePairs(a, b)
    ensures AllLinked(received, b) && OnlyKept(revoked, b)
  {
    forall i | 0 <= i < |received| ensures Linked(received[i], b) { assert Linked(received[i], a); }
    forall t | t in revoked ensures IsKept(t, b) {
      var i :| 0 <= i < |a| && PairHas(a[i], t);
      assert PairHas(b[i], t);
    }
  }

  lemma MoreReceived(tokens: seq<Pair>, origins: seq<nat>, received: seq<Received>, r: Received)
    requires AllOriginate(tokens, origins, received)
    ensures AllOriginate(tokens, origins, received + [r])
  {
    forall i | 0 <= i < |tokens| ensures HasOrigin(i, origins[i], received + [r]) {
      assert HasOrigin(i, origins[i], received);
    }
  }

  /** Some whole answer of the run carried the token. */
  ghost predicate CarriedWhole(t: Member, received: seq<Received>) {
    exists i :: 0 <= i < |received| && Whole(received[i]) && Carries(received[i].answer, t)
  }

  /** The tokens whose revocation was answered with 200 are exactly those that whole answers carried. */
  ghost predicate CleanedUp(received: seq<Received>, revoked: set<Member>) {
    forall t :: t in revoked <==> CarriedWhole(t, received)
  }

  /** Some whole answer carried a token that is not revoked. */
  ghost predicate Leaves(received: seq<Received>, revoked: set<Member>) {
    exists t :: CarriedWhole(t, received) && t !in revoked
  }

  lemma KeptIsCarried(received: seq<Received>, tokens: seq<Pair>, origins: seq<nat>, i: nat, t: Member)
    requires AllLinked(received, tokens) && AllOriginate(tokens, origins, received)
    requires i < |tokens| && PairHas(tokens[i], t)
    ensures CarriedWhole(t, received) && CarriedAt(received, origins[i], t)
    ensures received[origins[i]].kept == Some(i)
  {
    assert HasOrigin(i, origins[i], received) && Linked(received[origins[i]], tokens);
    assert Carries(received[origins[i]].answer, t);
  }

  lemma KeptAndRevoked(received: seq<Received>, tokens: seq<Pair>, origins: seq<nat>, revoked: set<Member>)
    requires AllLinked(received, tokens) && NoneDropped(received) && AllOriginate(tokens, origins, received)
    requires OnlyKept(revoked, tokens) && AllGone(tokens, revoked)
    ensures CleanedUp(received, revoked)
  {
    forall t | t in revoked ensures CarriedWhole(t, received) {
      assert IsKept(t, tokens);
      var i :| 0 <= i < |tokens| && PairHas(tokens[i], t);
      KeptIsCarried(received, tokens, origins, i, t);
    }
    forall t | CarriedWhole(t, received) ensures t in revoked {
      var i :| 0 <= i < |received| && Whole(received[i]) && Carries(received[i].answer, t);
      assert Linked(received[i], tokens) && Gone(tokens[received[i].kept.value], revoked);
    }
  }

  // ---------------------------------------------------------------- what is left unrevoked

  predicate CarriedAt(received: seq<Received>, i: int, t: Member) {
    0 <= i < |received| && Carries(received[i].answer, t)
  }

  /** The server issues every token once. */
  ghost predicate FreshTokens(received: seq<Received>) {
    && (forall i, j, t :: CarriedAt(received, i, t) && CarriedAt(received, j, t) ==> i == j)
    && (forall i :: 0 <= i < |received| && Truthy(received[i].answer.refresh) ==>
          received[i].answer.access != received[i].answer.refresh)
  }

  lemma FreshBefore(received: seq<Received>, more: seq<Received>)
    requires FreshTokens(received + more)
    ensures FreshTokens(received)
  {
    forall i, j, t | CarriedAt(received, i, t) && CarriedAt(received, j, t) ensures i == j {
      assert CarriedAt(received + more, i, t) && CarriedAt(received + more, j, t);
    }
    forall i | 0 <= i < |received| && Truthy(received[i].answer.refresh)
      ensures received[i].answer.access != received[i].answer.refresh
    {
      assert (received + more)[i] == received[i];
    }
  }

  lemma OneMoreReceived(received: seq<Received>, r: Received)
    ensures NoneDropped(received + [r]) <==> NoneDropped(received) && (Whole(r) ==> r.kept.Some?)
    ensures FreshTokens(received + [r]) ==> FreshTokens(received)
  {
    if NoneDropped(received + [r]) {
      assert (received + [r])[|received|] == r;
      forall i | 0 <= i < |received| ensures Whole(received[i]) ==> received[i].kept.Some? {
        assert (received + [r])[i] == received[i];
      }
    }
    if FreshTokens(received + [r]) { FreshBefore(received, [r]); }
  }

  lemma OneMorePair(tokens: seq<Pair>, p: Pair, revoked: set<Member>)
    requires !p.revoked
    ensures FlagsAreTrue(tokens + [p], revoked) <==> FlagsAreTrue(tokens, revoked)
  {
    if FlagsAreTrue(tokens + [p], revoked) {
      forall i | 0 <= i < |tokens| && tokens[i].revoked ensures Gone(tokens[i], revoked) {
        assert (tokens + [p])[i] == tokens[i];
      }
    }
  }

  /** No two pairs share a token. */
  ghost predicate Apart(tokens: seq<Pair>) {
    forall i, j, t ::
      0 <= i < |tokens| && 0 <= j < |tokens| && PairHas(tokens[i], t) && PairHas(tokens[j], t) ==> i == j
  }

  lemma FreshPairsAreApart(received: seq<Received>, tokens: seq<Pair>, origins: seq<nat>)
    requires AllLinked(received, tokens) && AllOriginate(tokens, origins, received) && FreshTokens(received)
    ensures Apart(tokens)
    ensures forall i :: 0 <= i < |tokens| && Truthy(tokens[i].refresh) ==> tokens[i].access != tokens[i].refresh
  {
    forall i, j, t | 0 <= i < |tokens| && 0 <= j < |tokens| && PairHas(tokens[i], t) && PairHas(tokens[j], t)
      ensures i == j
    {
      KeptIsCarried(received, tokens, origins, i, t);
      KeptIsCarried(received, tokens, origins, j, t);
    }
    forall i | 0 <= i < |tokens| && Truthy(tokens[i].refresh) ensures tokens[i].access != tokens[i].refresh {
      assert HasOrigin(i, origins[i], received) && Linked(received[origins[i]], tokens);
    }
  }

  lemma UnrevokedIsLeft(received: seq<Received>, tokens: seq<Pair>, origins: seq<nat>, revoked: set<Member>)
    requires AllLinked(received, tokens) && AllOriginate(tokens, origins, received)
    requires !AllGone(tokens, revoked)
    ensures Leaves(received, revoked)
  {
    var i :| 0 <= i < |tokens| && !Gone(tokens[i], revoked);
    var t := if tokens[i].access !in revoked then tokens[i].access else tokens[i].refresh;
    KeptIsCarried(received, tokens, origins, i, t);
  }

  lemma DroppedIsLeft(received: seq<Received>, tokens: seq<Pair>, origins: seq<nat>, revoked: set<Member>)
    requires AllLinked(received, tokens) && AllOriginate(tokens, origins, received) && OnlyKept(revoked, tokens)
    requires FreshTokens(received) && !NoneDropped(received)
    ensures Leaves(received, revoked)
  {
    var i :| 0 <= i < |received| && Whole(received[i]) && received[i].kept.None?;
    var t := received[i].answer.access;
    assert CarriedAt(received, i, t) && CarriedWhole(t, received);
    if t in revoked {
      assert IsKept(t, tokens);
      var j :| 0 <= j < |tokens| && PairHas(tokens[j], t);
      KeptIsCarried(received, tokens, origins, j, t);
    }
  }

  /** The server, the network and the operator: arbitrary, fixed before the run. */
  datatype World = World(
    discoveryOnly: bool, extended: bool,
    endpoints: bool,                        // authorization, token and registration endpoint are in the metadata
    revocationEndpoint: bool,
    registrations: bool,
    early: (Id, nat) -> Option<Abrupt>,     // the body is cut off before its n-th token request
    refused: Id -> bool,                    // the authorization request of X2-X4 is answered by an error
    reply: (Id, nat) -> TokenReply,
    revokeReply: (Id, nat) -> RevokeReply,
    body: Id -> Body,                       // the rest of the body, with its checks
    code: Option<string>)                   // the code in the redirect, if it carries one
}
