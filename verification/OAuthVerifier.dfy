/** The run itself: sections with their early returns, cleanup, and the report. */
module OAuthVerifier {
  import opened Sql
  import opened OAuthSteps
  import opened OAuthTokens

  function Rest(early: Option<Abrupt>, checks: seq<bool>, rest: Body): Body {
    if early.Some? then Body(early.value, [], false)
    else Body(rest.ending, checks + rest.checks, rest.observationOnly)
  }

  /** How an exchange ends a step's body before its checks, if it does. */
  function Interruption(early: Option<Abrupt>, reply: TokenReply): Option<Abrupt> {
    if early.Some? then early
    else match reply
      case NoReply => Some(ErrorRaised)
      case Cut => Some(Interrupted)
      case Answered(a, cut) => if cut then Some(Interrupted) else if !Describable(a) then Some(ErrorRaised) else None
  }

  predicate Succeeds(reply: TokenReply) {
    reply.Answered? && Successful(reply.answer)
  }

  function PairOf(a: TokenAnswer): Pair {
    Pair(a.access, a.refresh, false)
  }

  predicate Is4xx(status: int) {
    400 <= status < 500
  }

  /** The operator interrupted the last recorded step. */
  ghost predicate StoppedAt(steps: seq<Record>, interrupted: Option<Id>) {
    && interrupted.Some? && FirstSteps(steps, Position(interrupted.value) + 1)
    && steps[Position(interrupted.value)] == Record(interrupted.value, Failed)
  }

  /** A body that does not skip. */
  function WithoutSkip(b: Body): Body {
    if b.ending == SkipRaised then b.(ending := ErrorRaised) else b
  }

  /** What V2 makes of its two answers: the revocation and the refused refresh. */
  predicate Flagged(early: Option<Abrupt>, ok: bool, status: int) {
    early.None? && ok && Is4xx(status)
  }

  predicate BothRevoked(steps: seq<Record>) {
    PassedAt(steps, V1) && PassedAt(steps, V2)
  }

  /** V2 got past its first line: the pair has a refresh token, and the server a revocation endpoint. */
  predicate Tried(steps: seq<Record>) {
    Position(V2) < |steps| && steps[Position(V2)].status != Skipped
  }

  /** V2 flags the pair: its refresh token is revoked and then refused. */
  predicate FlagsPair(w: World) {
    && w.revokeReply(V2, 0) == RevokeStatus(200)
    && Interruption(w.early(V2, 1), w.reply(V2, 1)) == None && Is4xx(w.reply(V2, 1).answer.status)
  }

  /** V1 does not get the access token revoked, and V2 flags the pair all the same. */
  predicate LosesAccess(w: World) {
    w.revokeReply(V1, 0) != RevokeStatus(200) && FlagsPair(w)
  }

  /** The refresh of V2 is answered with new tokens, which are not kept. */
  predicate LosesPair(w: World) {
    && w.revokeReply(V2, 0).RevokeStatus?
    && Interruption(w.early(V2, 1), w.reply(V2, 1)) == None && Successful(w.reply(V2, 1).answer)
  }

  /** The two ways for a run to lose a token that it could have kept. */
  predicate Loses(w: World, steps: seq<Record>) {
    Tried(steps) && (LosesAccess(w) || LosesPair(w))
  }

  /** No pair is flagged and no whole answer was dropped. */
  predicate Untouched(tokens: seq<Pair>, received: seq<Received>) {
    NoFlags(tokens) && NoneDropped(received)
  }

  /** Flags tell the truth and no whole answer is dropped, unless V2 was tried and a token lost there. */
  ghost predicate Sure(w: World, steps: seq<Record>, tokens: seq<Pair>, revoked: set<Member>, received: seq<Received>) {
    && (NoneDropped(received) <==> !(Tried(steps) && LosesPair(w)))
    && (!(Tried(steps) && LosesAccess(w)) ==> FlagsAreTrue(tokens, revoked))
    && (Tried(steps) && LosesAccess(w) && FreshTokens(received) ==> !FlagsAreTrue(tokens, revoked))
    && (BothRevoked(steps) ==> !Loses(w, steps))
  }

  // ---------------------------------------------------------------- three runs that lose a token

  const LOST := TokenAnswer(200, Text("lost"), Number(1))
  const ISSUED := TokenAnswer(200, Text("access"), Text("refresh"))
  const UNEXPECTED := TokenAnswer(200, Text("access2"), Text("refresh2"))
  const REFUSED := TokenAnswer(400, Missing, Missing)

  function LossyReply(id: Id, refresh: TokenAnswer): TokenReply {
    if id == T1 then Answered(LOST, false)
    else if id == T4 then Answered(ISSUED, false)
    else if id == V2 then Answered(refresh, false)
    else NoReply
  }

  /** T1 is answered with a good access token beside a refresh token that is no string, T4 with a good pair, the refresh
      of V2 by a refusal or a second pair, and other token requests not at all; revocations other than V1's are answered
      with 200 and nothing is interrupted. */
  ghost predicate Lossy(w: World) {
    && !w.discoveryOnly && !w.extended && w.endpoints && w.revocationEndpoint && w.code == Some("code")
    && w.reply(V2, 1) in {Answered(REFUSED, false), Answered(UNEXPECTED, false)}
    && (forall id, n :: w.early(id, n) == None)
    && (forall id :: w.body(id) == Body(Returned, [], false))
    && (forall id, n :: w.reply(id, n) == LossyReply(id, w.reply(V2, 1).answer))
    && (forall id, n :: id != V1 ==> w.revokeReply(id, n) == RevokeStatus(200))
    && w.revokeReply(V1, 0).RevokeStatus?
  }

  /** What such a run holds after T4. */
  ghost predicate HoldsIssued(tokens: seq<Pair>, received: seq<Received>, current: Option<nat>) {
    && tokens == [Pair(ISSUED.access, ISSUED.refresh, false)] && current == Some(0)
    && received == [Received(LOST, false, None), Received(ISSUED, false, Some(0))]
  }

  /** What it has received and recorded before cleanup. */
  ghost predicate HoldsAll(w: World, steps: seq<Record>, tokens: seq<Pair>, received: seq<Received>) {
    && Tried(steps) && tokens != []
    && (w.revokeReply(V1, 0) == RevokeStatus(200) ==> PassedAt(steps, V1))
    && (FlagsPair(w) ==> PassedAt(steps, V2))
    && received == [Received(LOST, false, None), Received(ISSUED, false, Some(0))]
                   + if LosesPair(w) then [Received(UNEXPECTED, false, None)] else []
  }

  /** D1-D3 pass and the operator interrupts D4. */
  predicate CutInD4(w: World) {
    && StatusOf(w.body(D1)) == StatusOf(w.body(D2)) == StatusOf(w.body(D3)) == Passed
    && w.body(D4).ending.Interrupted?
  }

  /** The plan was recorded to its end, or a required step is on record as not passed, or the operator interrupted
      the last recorded step. */
  ghost predicate Accounted(steps: seq<Record>, interrupted: Option<Id>) {
    if interrupted.Some? then StoppedAt(steps, interrupted)
    else FirstSteps(steps, |steps|) && (|steps| == PLANNED || !Verdict(steps))
  }

  /** How the part before cleanup ends. */
  ghost predicate MainEnds(main: seq<Record>, discoveryOnly: bool, interrupted: Option<Id>) {
    && FirstSteps(main, |main|)
    && if discoveryOnly then |main| <= 5 && (if interrupted.Some? then StoppedAt(main, interrupted) else |main| == 5)
       else Accounted(main, interrupted)
  }

  lemma ShapeOfRun(main: seq<Record>, steps: seq<Record>, discoveryOnly: bool, interrupted: Option<Id>)
    requires MainEnds(main, discoveryOnly, interrupted) && main <= steps
    requires if discoveryOnly then steps == main
             else |steps| == |main| + 2 && steps[|main|].id == C1 && steps[|main| + 1].id == C2
    ensures RunShape(steps, |main|, discoveryOnly) && steps[..|main|] == main
    ensures Verdict(steps) ==>
              (AllRequiredPassed(steps, discoveryOnly) <==> !(interrupted.Some? && BlindSpot(interrupted.value)))
  {
    assert steps[..|main|] == main;
    if Verdict(steps) { WhatPassIsWorth(steps, |main|, discoveryOnly, interrupted); }
  }

  /** Cleanup cannot spoil a verdict. */
  lemma CleanupIsOptional(main: seq<Record>, steps: seq<Record>)
    requires main <= steps && Verdict(main)
    requires |steps| == |main| + 2 && steps[|main|].id == C1 && steps[|main| + 1].id == C2
    ensures Verdict(steps)
  {
    forall i | 0 <= i < |steps| && Required(steps[i].id) ensures steps[i].status == Passed {
      assert i < |main| ==> steps[i] == main[i];
    }
  }

  lemma StoppedWhere(steps: seq<Record>, interrupted: Option<Id>)
    requires StoppedAt(steps, interrupted) && Verdict(steps)
    ensures !Required(interrupted.value)
    ensures Position(interrupted.value) < Position(V5) <==> BlindSpot(interrupted.value)
  {
    assert steps[Position(interrupted.value)].status == Failed;
  }

  /** A passing report is worth what it says, unless the operator interrupted an optional step with a required one
      still to come. */
  lemma WhatPassIsWorth(steps: seq<Record>, k: nat, discoveryOnly: bool, interrupted: Option<Id>)
    requires RunShape(steps, k, discoveryOnly) && Verdict(steps)
    requires MainEnds(steps[..k], discoveryOnly, interrupted)
    ensures AllRequiredPassed(steps, discoveryOnly) <==> !(interrupted.Some? && BlindSpot(interrupted.value))
  {
    VerdictMeaning(steps, k, discoveryOnly);
    assert Verdict(steps[..k]);
    if interrupted.Some? {
      StoppedWhere(steps[..k], interrupted);
      assert Required(D5);
    }
  }

  lemma FlagIsTrue(w: World, before: seq<Pair>, i: nat, after: seq<Pair>, revoked: set<Member>)
    requires NoFlags(before) && i < |before|
    requires after == if FlagsPair(w) then before[i := before[i].(revoked := true)] else before
    requires w.revokeReply(V1, 0) == RevokeStatus(200) ==> before[i].access in revoked
    requires FlagsPair(w) ==> before[i].refresh in revoked
    ensures !LosesAccess(w) ==> FlagsAreTrue(after, revoked)
  {
  }

  lemma Hidden(tokens: seq<Pair>, revoked: set<Member>) returns (i: nat, t: Member)
    requires !FlagsAreTrue(tokens, revoked)
    ensures i < |tokens| && tokens[i].revoked && PairHas(tokens[i], t) && t !in revoked
  {
    i :| 0 <= i < |tokens| && tokens[i].revoked && !Gone(tokens[i], revoked);
    t := if tokens[i].access !in revoked then tokens[i].access else tokens[i].refresh;
  }

  lemma FlagIsFalse(before: seq<Pair>, i: nat, revoked: set<Member>)
    requires i < |before| && before[i].access !in revoked
    ensures !FlagsAreTrue(before[i := before[i].(revoked := true)], revoked)
  {
    assert before[i := before[i].(revoked := true)][i].revoked;
  }

  class Verifier {
    const world: World
    var steps: seq<Record>
    var interrupted: Option<Id>
    var code: Option<string>
    var tokens: seq<Pair>
    var current: Option<nat>
    var narrowed: Option<nat>
    ghost var received: seq<Received>
    ghost var origins: seq<nat>
    ghost var revoked: set<Member>

    constructor (world: World)
      ensures this.world == world && steps == [] && interrupted == None && code == None
      ensures tokens == [] && current == None && narrowed == None && received == [] && origins == [] && revoked == {}
    {
      this.world := world;
      steps, interrupted, code, tokens, current, narrowed := [], None, None, [], None, None;
      received, origins, revoked := [], [], {};
    }

    ghost predicate Valid()
      reads this
    {
      && AllLinked(received, tokens) && OnlyKept(revoked, tokens) && AllOriginate(tokens, origins, received)
      && (current.Some? ==> current.value < |tokens|)
      && (narrowed.Some? ==> narrowed.value < |tokens|)
    }

    // ------------------------------------------------------------ recording

    /** `step`: one record, whatever happened in the body. */
    method Finish(id: Id, b: Body) returns (go: bool)
      modifies this`steps, this`interrupted
      ensures steps == old(steps) + [Record(id, StatusOf(b))]
      ensures go <==> !b.ending.Interrupted?
      ensures interrupted == if go then old(interrupted) else Some(id)
      ensures FirstSteps(old(steps), Position(id)) && Position(id) < PLANNED ==>
                FirstSteps(steps, Position(id) + 1) && (!go ==> StoppedAt(steps, interrupted))
    {
      assert (steps + [Record(id, StatusOf(b))])[..|steps|] == steps;
      steps := steps + [Record(id, StatusOf(b))];
      go := !b.ending.Interrupted?;
      if !go { interrupted := Some(id); }
    }

    /** `skipped` */
    method Skip(id: Id)
      requires FirstSteps(steps, Position(id)) && Position(id) < PLANNED
      modifies this`steps
      ensures FirstSteps(steps, Position(id) + 1) && steps == old(steps) + [Record(id, Skipped)]
    {
      assert (steps + [Record(id, Skipped)])[..|steps|] == steps;
      steps := steps + [Record(id, Skipped)];
    }

    // ------------------------------------------------------------ tokens

    /** `keep_tokens` on a whole successful answer. */
    method KeepTokens(a: TokenAnswer) returns (kept: Option<nat>)
      requires Valid() && Successful(a) && Describable(a)
      modifies this`tokens, this`received, this`origins
      ensures Valid() && kept == Some(|old(tokens)|)
      ensures tokens == old(tokens) + [PairOf(a)]
      ensures received == old(received) + [Received(a, false, kept)]
    {
      kept := Some(|tokens|);
      ghost var r, before := Received(a, false, kept), tokens;
      tokens := tokens + [PairOf(a)];
      PairsStay(received, revoked, before, tokens);
      MoreReceived(before, origins, received, r);
      received, origins := received + [r], origins + [|received|];
    }

    /** An answer that never reaches `keep_tokens`, or is not successful. */
    method Drop(a: TokenAnswer, cut: bool)
      requires Valid()
      modifies this`received
      ensures Valid() && received == old(received) + if Successful(a) then [Received(a, cut, None)] else []
    {
      if Successful(a) {
        MoreReceived(tokens, origins, received, Received(a, cut, None));
        received := received + [Received(a, cut, None)];
      }
    }

    /** A token request, the description of its answer, and `keep_tokens` unless the caller decides later. */
    method Exchange(id: Id, n: nat, keep: bool) returns (early: Option<Abrupt>, status: int, kept: Option<nat>)
      requires Valid()
      modifies this`tokens, this`received, this`origins
      ensures Valid()
      ensures early == Interruption(world.early(id, n), world.reply(id, n))
      ensures early.None? ==> world.reply(id, n).Answered? && status == world.reply(id, n).answer.status
      ensures kept == if keep && early.None? && Successful(world.reply(id, n).answer) then Some(|old(tokens)|) else None
      ensures tokens == if kept.None? then old(tokens) else old(tokens) + [PairOf(world.reply(id, n).answer)]
      ensures received == if world.early(id, n).None? && Succeeds(world.reply(id, n))
                          then old(received) + [Received(world.reply(id, n).answer, world.reply(id, n).cut, kept)]
                          else old(received)
    {
      early, status, kept := world.early(id, n), 0, None;
      if early.Some? { return; }
      match world.reply(id, n) {
        case NoReply => early := Some(ErrorRaised);
        case Cut => early := Some(Interrupted);
        case Answered(a, cut) =>
          status := a.status;
          if cut {
            early := Some(Interrupted);
          } else if !Describable(a) {
            early := Some(ErrorRaised);
          } else if keep && Successful(a) {
            kept := KeepTokens(a);
            return;
          }
          Drop(a, cut);
      }
    }

    /** What an exchange keeps of the invariants of a run. */
    method Ask(id: Id, n: nat) returns (early: Option<Abrupt>, status: int, kept: Option<nat>)
      requires Valid()
      modifies this`tokens, this`received, this`origins
      ensures Valid() && |old(tokens)| <= |tokens| && (kept.None? ==> tokens == old(tokens))
      ensures kept.Some? ==>
                kept.value == |old(tokens)| && |tokens| == |old(tokens)| + 1 && early.None? && status == 200
      ensures NoFlags(old(tokens)) ==> NoFlags(tokens)
      ensures FlagsAreTrue(old(tokens), revoked) <==> FlagsAreTrue(tokens, revoked)
      ensures NoneDropped(old(received)) <==> NoneDropped(received)
      ensures FreshTokens(received) ==> FreshTokens(old(received))
      ensures Lossy(world) && id != T1 && id != T4 && id != V2 ==>
                early == Some(ErrorRaised) && kept == None && received == old(received)
      ensures Lossy(world) && id == T1 ==>
                early == Some(ErrorRaised) && kept == None && received == old(received) + [Received(LOST, false, None)]
      ensures Lossy(world) && id == T4 ==>
                && early == None && status == 200 && kept == Some(|old(tokens)|)
                && tokens == old(tokens) + [Pair(ISSUED.access, ISSUED.refresh, false)]
                && received == old(received) + [Received(ISSUED, false, kept)]
    {
      ghost var before, wasReceived := tokens, received;
      early, status, kept := Exchange(id, n, true);
      if kept.Some? { OneMorePair(before, tokens[|before|], revoked); }
      if received != wasReceived { OneMoreReceived(wasReceived, received[|wasReceived|]); }
    }

    /** `revoke`: an answer of 200 is remembered. */
    method Revoke(id: Id, n: nat, token: Member) returns (early: Option<Abrupt>, ok: bool)
      requires Valid() && IsKept(token, tokens)
      modifies this`revoked
      ensures Valid() && revoked == old(revoked) + if ok then {token} else {}
      ensures ok <==> world.revokeReply(id, n) == RevokeStatus(200)
      ensures early.None? <==> world.revokeReply(id, n).RevokeStatus?
    {
      early, ok := None, false;
      match world.revokeReply(id, n) {
        case NoRevokeReply => early := Some(ErrorRaised);
        case RevokeCut => early := Some(Interrupted);
        case RevokeStatus(status) => ok := status == 200;
      }
      if ok { revoked := revoked + {token}; }
    }

    // ------------------------------------------------------------ sections

    method Discovery() returns (go: bool)
      requires steps == [] && interrupted == None
      modifies this`steps, this`interrupted
      ensures if go then FirstSteps(steps, 5) && interrupted == None else StoppedAt(steps, interrupted)
      ensures !go ==> |steps| <= 5
      ensures CutInD4(world) ==> !go && interrupted == Some(D4) && Verdict(steps)
      ensures Lossy(world) ==> go
    {
      go := Finish(D1, world.body(D1));
      if !go { return; }
      go := Finish(D2, world.body(D2));
      if !go { return; }
      go := Finish(D3, world.body(D3));
      if !go { return; }
      go := Finish(D4, world.body(D4));
      if !go { return; }
      go := Finish(D5, world.body(D5));
    }

    method Registration() returns (go: bool)
      requires FirstSteps(steps, 5) && interrupted == None
      modifies this`steps, this`interrupted
      ensures if go then FirstSteps(steps, 7) && interrupted == None else StoppedAt(steps, interrupted)
      ensures |steps| <= 7
      ensures Lossy(world) ==> go && PassedAt(steps, R1)
    {
      go := Finish(R1, world.body(R1));
      if !go { return; }
      go := Finish(R2, world.body(R2));
    }

    method Authorization() returns (go: bool)
      requires FirstSteps(steps, 7) && interrupted == None && code == None
      modifies this`steps, this`interrupted, this`code
      ensures if go then FirstSteps(steps, 12) && interrupted == None else StoppedAt(steps, interrupted)
      ensures |steps| <= 12
      ensures code == None && go ==> !PassedAt(steps, A2)
      ensures Lossy(world) ==> go && code == Some("code")
    {
      go := Finish(A0, world.body(A0));
      if !go { return; }
      go := Finish(A1a, world.body(A1a));
      if !go { return; }
      go := Finish(A1b, world.body(A1b));
      if !go { return; }
      go := Finish(A1c, world.body(A1c));
      if !go { return; }
      var early := world.early(A2, 0);
      if early.None? { code := world.code; }
      var b := Rest(early, [code.Some? && code.value != ""], world.body(A2));
      PassNeeds(early, code.Some? && code.value != "", world.body(A2));
      go := Finish(A2, b);
    }

    /** A negative: the request must be refused and no token issued. */
    method RefusedExchange(id: Id, adopt: bool) returns (go: bool, kept: Option<nat>)
      requires Valid() && FirstSteps(steps, Position(id)) && Position(id) < PLANNED && interrupted == None
      requires Untouched(tokens, received)
      modifies this`steps, this`interrupted, this`tokens, this`received, this`origins, this`current
      ensures Valid() && Untouched(tokens, received) && |old(tokens)| <= |tokens|
      ensures FirstSteps(steps, Position(id) + 1) && old(steps) <= steps
      ensures if go then interrupted == None else StoppedAt(steps, interrupted)
      ensures current == if adopt && kept.Some? then kept else old(current)
      ensures kept.Some? ==> kept.value < |tokens|
      ensures PassedAt(steps, id) ==> kept.None? && tokens == old(tokens)
      ensures Lossy(world) && id != T4 && id != V2 ==> go && tokens == old(tokens) && current == old(current)
      ensures Lossy(world) && id != T1 && id != T4 && id != V2 ==> received == old(received)
      ensures Lossy(world) && id == T1 ==> received == old(received) + [Received(LOST, false, None)]
    {
      var early, status;
      early, status, kept := Ask(id, 0);
      if adopt && kept.Some? { current := kept; }
      PassNeedsBoth(early, Is4xx(status), kept.None?, world.body(id));
      go := Finish(id, Rest(early, [Is4xx(status), kept.None?], world.body(id)));
    }

    /** T1-T3: passed only if no token was issued. */
    method Negatives() returns (go: bool)
      requires Valid() && FirstSteps(steps, 12) && interrupted == None && tokens == [] && received == []
      modifies this`steps, this`interrupted, this`tokens, this`received, this`origins, this`current
      ensures Valid() && Untouched(tokens, received) && current == old(current) && |steps| <= 15
      ensures if go then FirstSteps(steps, 15) && interrupted == None else StoppedAt(steps, interrupted)
      ensures go && PassedAt(steps, T1) && PassedAt(steps, T2) && PassedAt(steps, T3) ==> tokens == []
      ensures Lossy(world) ==> go && tokens == [] && received == [Received(LOST, false, None)]
    {
      var kept;
      go, kept := RefusedExchange(T1, false);
      if !go { return; }
      go, kept := RefusedExchange(T2, false);
      if !go { return; }
      go, kept := RefusedExchange(T3, false);
    }

    method TokenExchange() returns (go: bool)
      requires Valid() && FirstSteps(steps, 12) && interrupted == None && current == None
      requires tokens == [] && received == []
      modifies this`steps, this`interrupted, this`tokens, this`received, this`origins, this`current
      ensures Valid() && Untouched(tokens, received) && |steps| <= 17
      ensures if go then FirstSteps(steps, 17) && interrupted == None else StoppedAt(steps, interrupted)
      ensures go && current == None ==> !PassedAt(steps, T4)
      ensures go && PassedAt(steps, T1) && PassedAt(steps, T2) && PassedAt(steps, T3) && PassedAt(steps, T5) ==>
                |tokens| <= 1
      ensures Lossy(world) ==> go && HoldsIssued(tokens, received, current)
    {
      go := Negatives();
      if !go { return; }
      var early, status, kept := Ask(T4, 0);
      current := kept;
      PassNeedsBoth(early, status == 200, current.Some?, world.body(T4));
      go := Finish(T4, Rest(early, [status == 200, current.Some?], world.body(T4)));
      if !go { return; }
      if current == None {
        go := Finish(T5, Body(SkipRaised, [], false));
      } else {
        go, kept := RefusedExchange(T5, false);
      }
    }

    method McpSession() returns (go: bool)
      requires FirstSteps(steps, 18) && interrupted == None
      modifies this`steps, this`interrupted
      ensures if go then FirstSteps(steps, 26) && interrupted == None else StoppedAt(steps, interrupted)
      ensures |steps| <= 26
      ensures Lossy(world) ==> go
    {
      go := Finish(M1, world.body(M1));
      if !go { return; }
      if !PassedAt(steps, M1) {
        SkipSession();
        return;
      }
      go := Finish(M2, world.body(M2));
      if !go { return; }
      go := Finish(M3, world.body(M3));
      if !go { return; }
      go := Finish(M4, world.body(M4));
      if !go { return; }
      go := Finish(M5, world.body(M5));
      if !go { return; }
      go := Finish(M6, world.body(M6));
      if !go { return; }
      go := Finish(M7, world.body(M7));
      if !go { return; }
      go := Finish(M8, world.body(M8));
    }

    method SkipSession()
      requires FirstSteps(steps, 19)
      modifies this`steps
      ensures FirstSteps(steps, 26)
    {
      Skip(M2);
      Skip(M3);
      Skip(M4);
      Skip(M5);
      Skip(M6);
      Skip(M7);
      Skip(M8);
    }

    method RefreshAndScope() returns (go: bool)
      requires Valid() && FirstSteps(steps, 26) && interrupted == None && current.Some? && Untouched(tokens, received)
      modifies this`steps, this`interrupted, this`tokens, this`received, this`origins, this`current, this`narrowed
      ensures Valid() && Untouched(tokens, received) && current.Some? && |steps| <= 33
      ensures if go then FirstSteps(steps, 33) && interrupted == None else StoppedAt(steps, interrupted)
      ensures Lossy(world) && HoldsIssued(old(tokens), old(received), old(current)) ==>
                go && HoldsIssued(tokens, received, current)
    {
      go := true;
      if !Truthy(tokens[current.value].refresh) {
        Skip(S2);
        Skip(F1);
        SkipAfterF1();
        return;
      }
      var kept;
      go, kept := RefusedExchange(S2, true);
      if !go { return; }
      var a := current.value;
      var early, status;
      early, status, kept := Ask(F1, 0);
      if kept.Some? { current := kept; }
      go := Finish(F1, Rest(early, [status == 200, kept.Some? && tokens[kept.value].access != tokens[a].access],
                            world.body(F1)));
      if !go { return; }
      if current == Some(a) {
        SkipAfterF1();
        return;
      }
      go := AfterF1();
    }

    method AfterF1() returns (go: bool)
      requires Valid() && FirstSteps(steps, 28) && interrupted == None && current.Some? && Untouched(tokens, received)
      modifies this`steps, this`interrupted, this`tokens, this`received, this`origins, this`current, this`narrowed
      ensures Valid() && Untouched(tokens, received) && current.Some? && |steps| <= 33
      ensures if go then FirstSteps(steps, 33) && interrupted == None else StoppedAt(steps, interrupted)
    {
      var early, status, kept := Ask(F2, 0);
      if kept.Some? { current := kept; }
      go := Finish(F2, Rest(early, [Is4xx(status)], world.body(F2)));
      if !go { return; }
      go := Finish(F3, world.body(F3));
      if !go { return; }
      go := Finish(F4, world.body(F4));
      if !go { return; }
      go := NarrowedScope();
    }

    method NarrowedScope() returns (go: bool)
      requires Valid() && FirstSteps(steps, 31) && interrupted == None && current.Some? && Untouched(tokens, received)
      modifies this`steps, this`interrupted, this`tokens, this`received, this`origins, this`current, this`narrowed
      ensures Valid() && Untouched(tokens, received) && current.Some? && |steps| <= 33
      ensures if go then FirstSteps(steps, 33) && interrupted == None else StoppedAt(steps, interrupted)
    {
      var early, status, kept := Ask(S3, 0);
      if kept.Some? { current, narrowed := kept, kept; }
      var rest := if early.None? && kept.None? then Body(ErrorRaised, [], false) else Rest(early, [], world.body(S3));
      go := Finish(S3, rest);
      if !go { return; }
      go := Finish(S4, if narrowed.None? then Body(SkipRaised, [], false) else world.body(S4));
    }

    method SkipAfterF1()
      requires FirstSteps(steps, 28)
      modifies this`steps
      ensures FirstSteps(steps, 33)
    {
      Skip(F2);
      Skip(F3);
      Skip(F4);
      Skip(S3);
      Skip(S4);
    }

    /** V1: revoke the access token of the current pair. */
    method RevokeAccess() returns (go: bool, ok: bool)
      requires Valid() && FirstSteps(steps, 33) && interrupted == None && current.Some?
      modifies this`steps, this`interrupted, this`revoked
      ensures Valid() && FirstSteps(steps, 34)
      ensures if go then interrupted == None else StoppedAt(steps, interrupted)
      ensures ok <==> world.revokeReply(V1, 0) == RevokeStatus(200)
      ensures revoked == old(revoked) + if ok then {tokens[current.value].access} else {}
      ensures PassedAt(steps, V1) ==> ok
      ensures Lossy(world) ==> go && (ok ==> PassedAt(steps, V1))
    {
      assert PairHas(tokens[current.value], tokens[current.value].access);
      var early;
      early, ok := Revoke(V1, 0, tokens[current.value].access);
      go := Finish(V1, Rest(early, [ok], world.body(V1)));
      PassNeeds(early, ok, world.body(V1));
    }

    /** The requests of V2; the pair is flagged if its refresh token was revoked and then refused. */
    method TryRefresh() returns (early: Option<Abrupt>, ok: bool, status: int)
      requires Valid() && current.Some? && Truthy(tokens[current.value].refresh) && Untouched(tokens, received)
      modifies this`tokens, this`received, this`origins, this`revoked
      ensures Valid()
      ensures tokens == if Flagged(early, ok, status)
                        then old(tokens)[current.value := old(tokens)[current.value].(revoked := true)] else old(tokens)
      ensures revoked == old(revoked) + if ok then {tokens[current.value].refresh} else {}
      ensures Flagged(early, ok, status) <==> FlagsPair(world)
      ensures NoneDropped(received) <==> !LosesPair(world)
      ensures FreshTokens(received) ==> FreshTokens(old(received))
      ensures Lossy(world) ==> early == None && ok
      ensures Lossy(world) ==>
                received == old(received) + if LosesPair(world) then [Received(UNEXPECTED, false, None)] else []
    {
      assert PairHas(tokens[current.value], tokens[current.value].refresh);
      early, ok := Revoke(V2, 0, tokens[current.value].refresh);
      status := 0;
      if early.None? {
        ghost var before := received;
        var kept;
        early, status, kept := Exchange(V2, 1, false);
        if received != before { OneMoreReceived(before, received[|before|]); }
      }
      if Flagged(early, ok, status) { SetFlag(current.value); }
    }

    /** V2: revoke the refresh token and try it. Nothing after its first line skips. */
    method RevokeRefresh() returns (go: bool, flagged: bool)
      requires Valid() && FirstSteps(steps, 34) && interrupted == None && current.Some?
      requires Truthy(tokens[current.value].refresh) && Untouched(tokens, received)
      modifies this`steps, this`interrupted, this`tokens, this`received, this`origins, this`revoked
      ensures Valid() && FirstSteps(steps, 35) && old(steps) <= steps && Tried(steps)
      ensures if go then interrupted == None else StoppedAt(steps, interrupted)
      ensures flagged <==> FlagsPair(world)
      ensures tokens == if flagged then old(tokens)[current.value := old(tokens)[current.value].(revoked := true)]
                        else old(tokens)
      ensures old(revoked) <= revoked <= old(revoked) + {tokens[current.value].refresh}
      ensures flagged ==> tokens[current.value].refresh in revoked
      ensures NoneDropped(received) <==> !LosesPair(world)
      ensures FreshTokens(received) ==> FreshTokens(old(received))
      ensures PassedAt(steps, V2) ==> flagged && !LosesPair(world)
      ensures Lossy(world) ==> go && (flagged ==> PassedAt(steps, V2))
      ensures Lossy(world) ==>
                received == old(received) + if LosesPair(world) then [Received(UNEXPECTED, false, None)] else []
    {
      var early, ok, status := TryRefresh();
      flagged := Flagged(early, ok, status);
      PassNeedsBoth(early, ok, Is4xx(status), world.body(V2));
      go := Finish(V2, WithoutSkip(Rest(early, [ok, Is4xx(status)], world.body(V2))));
    }

    /** V1 and V2: what they revoke, flag and lose. */
    method RevokeCurrent() returns (go: bool)
      requires Valid() && FirstSteps(steps, 33) && interrupted == None && current.Some? && Untouched(tokens, received)
      requires revoked == {}
      modifies this`steps, this`interrupted, this`tokens, this`received, this`origins, this`revoked
      ensures Valid() && Sure(world, steps, tokens, revoked, received)
      ensures if go then FirstSteps(steps, 35) && interrupted == None else StoppedAt(steps, interrupted)
      ensures Lossy(world) && HoldsIssued(old(tokens), old(received), current) ==>
                go && HoldsAll(world, steps, tokens, received)
    {
      ghost var before := tokens;
      if FreshTokens(received) { FreshPairsAreApart(received, tokens, origins); }
      var revokedAccess;
      go, revokedAccess := RevokeAccess();
      if !go { return; }
      if !Truthy(tokens[current.value].refresh) {
        go := Finish(V2, Body(SkipRaised, [], false));
        return;
      }
      var flagged;
      go, flagged := RevokeRefresh();
      FlagIsTrue(world, before, current.value, tokens, revoked);
      if FreshTokens(received) && LosesAccess(world) { FlagIsFalse(before, current.value, revoked); }
    }

    method Revocation() returns (go: bool)
      requires Valid() && FirstSteps(steps, 33) && interrupted == None && current.Some? && Untouched(tokens, received)
      requires revoked == {}
      modifies this`steps, this`interrupted, this`tokens, this`received, this`origins, this`revoked
      ensures Valid() && Sure(world, steps, tokens, revoked, received)
      ensures if go then FirstSteps(steps, 38) && interrupted == None else StoppedAt(steps, interrupted)
      ensures Lossy(world) && HoldsIssued(old(tokens), old(received), current) ==>
                go && HoldsAll(world, steps, tokens, received)
    {
      if !world.revocationEndpoint {
        Skip(V1);
        Skip(V2);
        Skip(V3);
        go := true;
      } else {
        go := RevokeCurrent();
        if !go { return; }
        go := Finish(V3, world.body(V3));
        if !go { return; }
      }
      go := Challenges();
    }

    /** V4 and V5: no token is requested or revoked. */
    method Challenges() returns (go: bool)
      requires Valid() && FirstSteps(steps, 36) && interrupted == None && Sure(world, steps, tokens, revoked, received)
      modifies this`steps, this`interrupted
      ensures Sure(world, steps, tokens, revoked, received) && old(steps) <= steps
      ensures if go then FirstSteps(steps, 38) && interrupted == None else StoppedAt(steps, interrupted)
      ensures Lossy(world) ==> go
    {
      go := Finish(V4, world.body(V4));
      if !go { return; }
      go := Finish(V5, world.body(V5));
    }

    /** X2 and X3: up to two token requests with a code that must be of no use. */
    method UnusableCode(id: Id) returns (go: bool)
      requires Valid() && FirstSteps(steps, Position(id)) && Position(V5) < Position(id) < PLANNED
      requires interrupted == None
      requires Sure(world, steps, tokens, revoked, received)
      modifies this`steps, this`interrupted, this`tokens, this`received, this`origins
      ensures Valid() && FirstSteps(steps, Position(id) + 1) && Sure(world, steps, tokens, revoked, received)
      ensures if go then interrupted == None else StoppedAt(steps, interrupted)
    {
      if world.refused(id) {
        go := Finish(id, Body(Returned, [], false));
        return;
      }
      var early, status, kept := Ask(id, 0);
      var issued := kept.Some?;
      if early.None? {
        early, status, kept := Ask(id, 1);
        issued := issued || kept.Some?;
      }
      go := Finish(id, Rest(early, [!issued], world.body(id)));
    }

    method ExtendedChecks() returns (go: bool)
      requires Valid() && FirstSteps(steps, 38) && interrupted == None && Sure(world, steps, tokens, revoked, received)
      modifies this`steps, this`interrupted, this`tokens, this`received, this`origins
      ensures Valid() && Sure(world, steps, tokens, revoked, received)
      ensures if go then FirstSteps(steps, PLANNED) && interrupted == None else StoppedAt(steps, interrupted)
    {
      go := Finish(X1, world.body(X1));
      if !go { return; }
      go := UnusableCode(X2);
      if !go { return; }
      go := UnusableCode(X3);
      if !go { return; }
      go := UndefinedScope();
    }

    /** X4: a code for an undefined scope, if one is issued. */
    method UndefinedScope() returns (go: bool)
      requires Valid() && FirstSteps(steps, 41) && interrupted == None && Sure(world, steps, tokens, revoked, received)
      modifies this`steps, this`interrupted, this`tokens, this`received, this`origins
      ensures Valid() && FirstSteps(steps, PLANNED) && Sure(world, steps, tokens, revoked, received)
      ensures if go then interrupted == None else StoppedAt(steps, interrupted)
    {
      if world.refused(X4) {
        go := Finish(X4, Body(Returned, [], false));
        return;
      }
      var early, status, kept := Ask(X4, 0);
      go := Finish(X4, Rest(early, [], world.body(X4)));
    }

    /** Revoke the tokens of one pair and flag it. */
    method RevokePair(i: nat, n: nat) returns (early: Option<Abrupt>, ok: bool, next: nat)
      requires Valid() && i < |tokens|
      modifies this`tokens, this`revoked
      ensures Valid() && old(revoked) <= revoked && |tokens| == |old(tokens)|
      ensures forall j :: 0 <= j < |tokens| && j != i ==> tokens[j] == old(tokens)[j]
      ensures early.None? && ok ==> Gone(tokens[i], revoked)
      ensures SamePairs(old(tokens), tokens)
      ensures forall t :: t in revoked ==> t in old(revoked) || PairHas(old(tokens)[i], t)
      ensures Lossy(world) ==> early == None && ok
    {
      var pair := tokens[i];
      next := n;
      assert PairHas(pair, pair.access);
      early, ok := Revoke(C1, next, pair.access);
      if early.Some? { return; }
      next := next + 1;
      if Truthy(pair.refresh) {
        assert PairHas(pair, pair.refresh);
        var second;
        early, second := Revoke(C1, next, pair.refresh);
        if early.Some? { return; }
        ok, next := ok && second, next + 1;
      }
      SetFlag(i);
    }

    /** The loop of C1: every pair whose flag is not set, and its flag is set afterwards. What a set flag hides stays
        unrevoked. */
    method RevokeAll() returns (early: Option<Abrupt>, allOk: bool)
      requires Valid()
      modifies this`tokens, this`revoked
      ensures Valid() && |tokens| == |old(tokens)|
      ensures early.None? && allOk && FlagsAreTrue(old(tokens), old(revoked)) ==> AllGone(tokens, revoked)
      ensures Apart(old(tokens)) && !FlagsAreTrue(old(tokens), old(revoked)) ==> !AllGone(tokens, revoked)
      ensures Lossy(world) ==> early == None && allOk
    {
      early, allOk := None, true;
      ghost var hides := Apart(tokens) && !FlagsAreTrue(tokens, revoked);
      ghost var p: nat, t := 0, Missing;
      if hides { p, t := Hidden(tokens, revoked); }
      var i, n: nat := 0, 0;
      while i < |tokens|
        invariant 0 <= i <= |tokens| == |old(tokens)| && Valid()
        invariant early.None? && old(revoked) <= revoked && SamePairs(old(tokens), tokens)
        invariant forall j :: i <= j < |tokens| ==> tokens[j] == old(tokens)[j]
        invariant allOk && FlagsAreTrue(old(tokens), old(revoked)) ==>
                    forall j :: 0 <= j < i ==> Gone(tokens[j], revoked)
        invariant hides ==> t !in revoked
        invariant Lossy(world) ==> allOk
      {
        if !tokens[i].revoked {
          var ok;
          early, ok, n := RevokePair(i, n);
          if early.Some? { return; }
          allOk := allOk && ok;
        }
        i := i + 1;
      }
    }

    method SetFlag(i: nat)
      requires Valid() && i < |tokens|
      modifies this`tokens
      ensures Valid() && tokens == old(tokens)[i := old(tokens)[i].(revoked := true)]
    {
      tokens := tokens[i := tokens[i].(revoked := true)];
      PairsStay(received, revoked, old(tokens), tokens);
    }

    /** The body of C1. */
    method RevokeIssued() returns (early: Option<Abrupt>, allOk: bool)
      requires Valid() && Sure(world, steps, tokens, revoked, received)
      modifies this`tokens, this`revoked
      ensures Valid() && |tokens| == |old(tokens)|
      ensures early.None? && allOk && !Loses(world, steps) ==> CleanedUp(received, revoked)
      ensures Loses(world, steps) && FreshTokens(received) ==> Leaves(received, revoked)
      ensures old(tokens) == [] ==> early == Some(SkipRaised)
      ensures Lossy(world) && old(tokens) != [] ==> early == None && allOk
    {
      early, allOk := Some(SkipRaised), true;
      ghost var before := tokens;
      if FreshTokens(received) { FreshPairsAreApart(received, tokens, origins); }
      if tokens != [] && world.revocationEndpoint {
        early, allOk := RevokeAll();
      }
      if !AllGone(tokens, revoked) {
        UnrevokedIsLeft(received, tokens, origins, revoked);
      } else if NoneDropped(received) {
        KeptAndRevoked(received, tokens, origins, revoked);
      } else if FreshTokens(received) {
        DroppedIsLeft(received, tokens, origins, revoked);
      }
    }

    /** C1 and C2; an interrupt here ends the run without a report. */
    method Cleanup() returns (ok: bool)
      requires Valid() && Sure(world, steps, tokens, revoked, received)
      modifies this
      ensures Valid() && received == old(received) && |tokens| == |old(tokens)|
      ensures ok ==> |steps| == |old(steps)| + 2 && old(steps) <= steps
                     && steps[|old(steps)|].id == C1 && steps[|old(steps)| + 1].id == C2
                     && interrupted == old(interrupted)
      ensures ok && !Loses(world, old(steps)) && steps[|old(steps)|].status == Passed ==> CleanedUp(received, revoked)
      ensures Loses(world, old(steps)) && FreshTokens(received) ==> Leaves(received, revoked)
      ensures old(tokens) == [] && !world.body(C2).ending.Interrupted? ==> ok
      ensures Lossy(world) && old(tokens) != [] ==> ok && steps[|old(steps)|].status == Passed
    {
      var early, allOk := RevokeIssued();
      PassNeeds(early, allOk, world.body(C1));
      ok := Finish(C1, Rest(early, [allOk], world.body(C1)));
      if !ok { return; }
      ok := Finish(C2, if world.registrations then world.body(C2) else Body(SkipRaised, [], false));
    }

    // ------------------------------------------------------------ the run

    /** Registration and consent. `crashed`: an assertion outside any step failed. */
    method UpToConsent() returns (go: bool, crashed: bool)
      requires FirstSteps(steps, 5) && interrupted == None && code == None
      modifies this`steps, this`interrupted, this`code
      ensures go ==> FirstSteps(steps, 12) && interrupted == None
      ensures !go && !crashed ==> Accounted(steps, interrupted)
      ensures go ==> code.Some? && !crashed
      ensures |steps| <= 12
      ensures Lossy(world) ==> go
    {
      go, crashed := false, false;
      if !world.endpoints {
        Skip(R1);
        return;
      }
      go := Registration();
      if !go { return; }
      if !PassedAt(steps, R1) {
        go := false;
        return;
      }
      go := Authorization();
      if !go { return; }
      go := code.Some? && code.value != "";
      crashed := code.Some? && code.value == "";
    }

    /** `main_flow` */
    method MainFlow() returns (crashed: bool)
      requires Valid() && FirstSteps(steps, 5) && interrupted == None && tokens == [] && received == []
      requires current == None && code == None
      modifies this
      ensures Valid() && Sure(world, steps, tokens, revoked, received)
      ensures !crashed ==> Accounted(steps, interrupted)
      ensures Lossy(world) ==> !crashed && HoldsAll(world, steps, tokens, received)
    {
      var go;
      go, crashed := UpToConsent();
      if !go { return; }
      go := TokenExchange();
      if go && current.Some? {
        AfterTokens();
      }
    }

    /** Sections that need a token. */
    method AfterTokens()
      requires Valid() && FirstSteps(steps, 17) && interrupted == None && current.Some? && Untouched(tokens, received)
      requires revoked == {}
      modifies this
      ensures Valid() && Sure(world, steps, tokens, revoked, received) && Accounted(steps, interrupted)
      ensures Lossy(world) && HoldsIssued(old(tokens), old(received), old(current)) ==>
                HoldsAll(world, steps, tokens, received)
    {
      var go := Finish(S1, world.body(S1));
      if !go { return; }
      go := McpSession();
      if !go { return; }
      go := RefreshAndScope();
      if !go { return; }
      RevokeAndExtend();
    }

    method RevokeAndExtend()
      requires Valid() && FirstSteps(steps, 33) && interrupted == None && current.Some? && Untouched(tokens, received)
      requires revoked == {}
      modifies this`steps, this`interrupted, this`tokens, this`received, this`origins, this`revoked
      ensures Valid() && Sure(world, steps, tokens, revoked, received) && Accounted(steps, interrupted)
      ensures Lossy(world) && HoldsIssued(old(tokens), old(received), current) ==>
                HoldsAll(world, steps, tokens, received)
    {
      var go := Revocation();
      if !go { return; }
      if world.extended {
        go := ExtendedChecks();
      } else {
        Skip(X1);
        Skip(X2);
        Skip(X3);
        Skip(X4);
      }
    }

    /** The part of `run` an interrupt leads out of. */
    method BeforeCleanup() returns (crashed: bool)
      requires Valid() && steps == [] && interrupted == None && tokens == [] && received == []
      requires current == None && code == None
      modifies this
      ensures Valid() && Sure(world, steps, tokens, revoked, received)
      ensures !crashed ==> MainEnds(steps, world.discoveryOnly, interrupted)
      ensures CutInD4(world) ==> !crashed && Verdict(steps) && interrupted == Some(D4) && tokens == []
      ensures Lossy(world) ==> !crashed && HoldsAll(world, steps, tokens, received)
    {
      crashed := false;
      var go := Discovery();
      if go && !world.discoveryOnly {
        crashed := MainFlow();
      }
    }

    /** `run`: the verdict of the report, if there is one; k is the number of steps recorded before cleanup. */
    method Run() returns (report: Option<bool>, ghost k: nat)
      requires Valid() && steps == [] && interrupted == None && tokens == [] && received == []
      requires current == None && code == None
      modifies this
      ensures report.Some? ==> report.value == Verdict(steps) && RunShape(steps, k, world.discoveryOnly)
      // what a PASS is worth
      ensures report == Some(true) ==>
                (AllRequiredPassed(steps, world.discoveryOnly)
                 <==> !(interrupted.Some? && BlindSpot(interrupted.value)))
      // cleanup: with C1 passed, nothing is left if no token was lost in V2, and only then if tokens are fresh
      ensures report.Some? && !world.discoveryOnly && steps[k].status == Passed && !Loses(world, steps[..k]) ==>
                CleanedUp(received, revoked)
      ensures report.Some? && !world.discoveryOnly && FreshTokens(received) && Loses(world, steps[..k]) ==>
                Leaves(received, revoked)
      ensures report.Some? && BothRevoked(steps[..k]) ==> !Loses(world, steps[..k])
      // the counterexamples below
      ensures CutInD4(world) && (world.discoveryOnly || !world.body(C2).ending.Interrupted?) ==>
                report == Some(true) && interrupted == Some(D4)
      ensures Lossy(world) ==>
                report.Some? && HoldsAll(world, steps[..k], tokens, received) && steps[k].status == Passed
    {
      report := None;
      var crashed := BeforeCleanup();
      k := |steps|;
      ghost var main := steps;
      var clean := true;
      if !world.discoveryOnly {
        clean := Cleanup();
      }
      if !crashed && clean {
        ShapeOfRun(main, steps, world.discoveryOnly, interrupted);
        if Verdict(main) && !world.discoveryOnly { CleanupIsOptional(main, steps); }
        report := Some(Verdict(steps));
      }
    }
  }

  /** A body passes only if it was not cut off and its first checks held. */
  lemma PassNeeds(early: Option<Abrupt>, a: bool, rest: Body)
    ensures StatusOf(Rest(early, [a], rest)) == Passed ==> early.None? && a
  {
    if early.None? { assert ([a] + rest.checks)[0] == a; }
  }

  lemma PassNeedsBoth(early: Option<Abrupt>, a: bool, b: bool, rest: Body)
    ensures StatusOf(Rest(early, [a, b], rest)) == Passed ==> early.None? && a && b
  {
    if early.None? { assert ([a, b] + rest.checks)[0] == a && ([a, b] + rest.checks)[1] == b; }
  }

  /** A full run whose operator interrupts D4 reports PASS without having registered a client or seen a token. */
  method InterruptedRunPasses() returns (report: Option<bool>, v: Verifier)
    ensures report == Some(true) && !v.world.discoveryOnly && !AllRequiredPassed(v.steps, false)
  {
    var fine, stop := Body(Returned, [], false), Body(Interrupted, [], false);
    v := new Verifier(World(false, false, true, true, false, (id, n) => None, id => false, (id, n) => NoReply,
                            (id, n) => NoRevokeReply, id => if id == D4 then stop else fine, None));
    ghost var k;
    report, k := v.Run();
  }

  /** Three full runs that receive LOST in T1, ISSUED in T4 and perhaps UNEXPECTED in V2. */
  function LossyWorld(revocation: int, refresh: TokenAnswer): World {
    World(false, false, true, true, false, (id, n) => None, id => false, (id, n) => LossyReply(id, refresh),
          (id, n) => RevokeStatus(if id == V1 then revocation else 200), id => Body(Returned, [], false), Some("code"))
  }

  lemma LossyTokensAreFresh(received: seq<Received>)
    requires received <= [Received(LOST, false, None), Received(ISSUED, false, Some(0)),
                          Received(UNEXPECTED, false, None)]
    ensures FreshTokens(received)
  {
  }

  lemma LossyWorldLoses(revocation: int, refresh: TokenAnswer)
    requires refresh in {REFUSED, UNEXPECTED}
    ensures var w := LossyWorld(revocation, refresh);
            && Lossy(w) && (FlagsPair(w) <==> refresh == REFUSED) && (LosesPair(w) <==> refresh == UNEXPECTED)
            && (w.revokeReply(V1, 0) == RevokeStatus(200) <==> revocation == 200)
  {
  }

  method LossyRun(revocation: int, refresh: TokenAnswer) returns (report: Option<bool>, v: Verifier, ghost k: nat)
    requires refresh in {REFUSED, UNEXPECTED}
    ensures v.world == LossyWorld(revocation, refresh)
    ensures report.Some? && RunShape(v.steps, k, false) && v.steps[k].status == Passed
    ensures revocation == 200 ==> PassedAt(v.steps[..k], V1)
    ensures refresh == REFUSED ==> PassedAt(v.steps[..k], V2)
    ensures |v.received| > 0 && v.received[0] == Received(LOST, false, None)
    ensures if revocation == 200 && refresh == REFUSED then CleanedUp(v.received, v.revoked)
            else Leaves(v.received, v.revoked)
    ensures forall i :: 0 < i < |v.received| ==> v.received[i].answer in {ISSUED, UNEXPECTED}
  {
    LossyWorldLoses(revocation, refresh);
    ghost var w := LossyWorld(revocation, refresh);
    v := new Verifier(LossyWorld(revocation, refresh));
    report, k := v.Run();
    assert Lossy(w) && v.world == w;
    assert HoldsAll(w, v.steps[..k], v.tokens, v.received);
    LossyTokensAreFresh(v.received);
  }

  /** In a run with V1, V2 and C1 passed, the access token of an answer that could not be described was received and is
      never revoked. */
  method LostTokenIsNotRevoked() returns (report: Option<bool>, v: Verifier, ghost k: nat)
    ensures report.Some? && !v.world.discoveryOnly && RunShape(v.steps, k, false)
    ensures BothRevoked(v.steps[..k]) && v.steps[k].status == Passed
    ensures exists i :: 0 <= i < |v.received| && Successful(v.received[i].answer)
                        && v.received[i].answer.access !in v.revoked
  {
    report, v, k := LossyRun(200, REFUSED);
    assert !CarriedWhole(LOST.access, v.received);
    assert v.received[0].answer.access !in v.revoked;
  }

  /** V1's revocation is answered with 500, V2 and C1 pass, and a token of a whole answer is never revoked. */
  method FlaggedTokenIsNotRevoked() returns (report: Option<bool>, v: Verifier, ghost k: nat)
    ensures report.Some? && !v.world.discoveryOnly && RunShape(v.steps, k, false)
    ensures v.world.revokeReply(V1, 0) == RevokeStatus(500)
    ensures PassedAt(v.steps[..k], V2) && v.steps[k].status == Passed && Leaves(v.received, v.revoked)
  {
    report, v, k := LossyRun(500, REFUSED);
  }

  /** V1 passes, the refresh of V2 is answered with a second pair, C1 passes, and a token of a whole answer is never
      revoked. */
  method UnexpectedPairIsNotRevoked() returns (report: Option<bool>, v: Verifier, ghost k: nat)
    ensures report.Some? && !v.world.discoveryOnly && RunShape(v.steps, k, false)
    ensures v.world.reply(V2, 1) == Answered(UNEXPECTED, false)
    ensures PassedAt(v.steps[..k], V1) && v.steps[k].status == Passed && Leaves(v.received, v.revoked)
  {
    report, v, k := LossyRun(200, UNEXPECTED);
  }
}
