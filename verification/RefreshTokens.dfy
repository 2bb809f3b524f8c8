/** Single-use refresh tokens on the server (refresh-token.service.ts) under every
    interleaving: a rotation reads the token, revokes it conditionally, and creates
    its successor, in three database calls. */
module RefreshTokens {
  import opened Common
  import opened Runs

  const TTL_MS := 2592000000

  /** A presented token: the id of its row and the secret whose hash the row keeps. */
  datatype Raw = Raw(id: nat, secret: nat)

  /** `family` and `parent` are history, not columns: the sign-in a token descends
      from, and the token it replaced. */
  datatype Token = Token(
    user: nat, secret: nat, expiresAt: int, revoked: bool, family: nat, parent: Option<nat>)

  /** The server answers all of these alike; the reason is history. */
  datatype Reason = Unknown | AlreadyRevoked | Expired | WrongSecret | LostRace

  datatype Rotation =
    | Presented(raw: Raw)
    | Verified(id: nat, read: Token)
    | Generating(id: nat, read: Token)
    | Issued(raw: Raw)
    | Refused(reason: Reason)

  datatype World = World(tokens: seq<Token>, rotations: seq<Rotation>)

  datatype Event =
    | SignIn(user: nat, secret: nat, now: int)
    | Present(raw: Raw)
    | Verify(u: nat, now: int)
    | RevokeRead(u: nat)
    | Generate(u: nat, secret: nat, now: int)
    | Revoke(id: nat)
    | RevokeUser(user: nat)

  const START := World([], [])

  /** Why `verify` refuses, if it does. */
  function Verdict(tokens: seq<Token>, raw: Raw, now: int): Option<Reason> {
    if |tokens| <= raw.id then Some(Unknown)
    else
      var token := tokens[raw.id];
      if token.revoked then Some(AlreadyRevoked)
      else if token.expiresAt <= now then Some(Expired)
      else if token.secret != raw.secret then Some(WrongSecret)
      else None
  }

  function RevokedAll(tokens: seq<Token>, user: nat): (r: seq<Token>)
    ensures |r| == |tokens|
    ensures forall i :: 0 <= i < |tokens| ==>
                          r[i] == if tokens[i].user == user then tokens[i].(revoked := true) else tokens[i]
  {
    seq(|tokens|, i requires 0 <= i < |tokens| =>
      if tokens[i].user == user then tokens[i].(revoked := true) else tokens[i])
  }

  /** The next call of rotation u; a call that is not due changes nothing. */
  function RotationStep(w: World, e: Event, u: nat): World
    requires u < |w.rotations|
  {
    var rotation := w.rotations[u];
    match e
    case Verify(_, now) =>
      if rotation.Presented? then
        var verdict := Verdict(w.tokens, rotation.raw, now);
        w.(rotations := w.rotations[u := if verdict.Some? then Refused(verdict.value)
                                         else if rotation.raw.id < |w.tokens|
                                         then Verified(rotation.raw.id, w.tokens[rotation.raw.id])
                                         else Refused(Unknown)])
      else w
    case RevokeRead(_) =>
      if rotation.Verified? && rotation.id < |w.tokens| then
        if w.tokens[rotation.id].revoked then w.(rotations := w.rotations[u := Refused(LostRace)])
        else World(w.tokens[rotation.id := w.tokens[rotation.id].(revoked := true)],
                   w.rotations[u := Generating(rotation.id, rotation.read)])
      else w
    case Generate(_, secret, now) =>
      if rotation.Generating? then
        World(w.tokens + [Token(rotation.read.user, secret, now + TTL_MS, false, rotation.read.family, Some(rotation.id))],
              w.rotations[u := Issued(Raw(|w.tokens|, secret))])
      else w
    case _ => w
  }

  function Step(w: World, e: Event): World {
    match e
    case SignIn(user, secret, now) =>
      w.(tokens := w.tokens + [Token(user, secret, now + TTL_MS, false, |w.tokens|, None)])
    case Present(raw) => w.(rotations := w.rotations + [Presented(raw)])
    case Revoke(id) =>
      if id < |w.tokens| then w.(tokens := w.tokens[id := w.tokens[id].(revoked := true)]) else w
    case RevokeUser(user) => w.(tokens := RevokedAll(w.tokens, user))
    case _ => if e.u < |w.rotations| then RotationStep(w, e, e.u) else w
  }

  function Run(w: World, events: seq<Event>): World {
    RunFrom(Step, w, events)
  }

  // ---- Weights ----

  function LiveIn(family: nat): Token -> int {
    (token: Token) => if token.family == family && !token.revoked then 1 else 0
  }

  function GeneratingIn(family: nat): Rotation -> int {
    (rotation: Rotation) => if rotation.Generating? && rotation.read.family == family then 1 else 0
  }

  /** The live tokens of a family, and those about to be created. */
  function Current(w: World, family: nat): int {
    Sum(w.tokens, LiveIn(family)) + Sum(w.rotations, GeneratingIn(family))
  }

  function ReplacementOf(id: nat): Token -> int {
    (token: Token) => if token.parent == Some(id) then 1 else 0
  }

  function Replacing(id: nat): Rotation -> int {
    (rotation: Rotation) => if rotation.Generating? && rotation.id == id then 1 else 0
  }

  /** How often a token has been exchanged, or is being. */
  function Exchanges(w: World, id: nat): int {
    Sum(w.tokens, ReplacementOf(id)) + Sum(w.rotations, Replacing(id))
  }

  // ---- Invariants ----

  /** Rotations refer to rows that exist and read what those rows still say. */
  ghost predicate ReadsAgree(w: World) {
    forall u :: 0 <= u < |w.rotations| && (w.rotations[u].Verified? || w.rotations[u].Generating?) ==>
      && w.rotations[u].id < |w.tokens|
      && w.rotations[u].read.user == w.tokens[w.rotations[u].id].user
      && w.rotations[u].read.family == w.tokens[w.rotations[u].id].family
      && (w.rotations[u].Generating? ==> w.tokens[w.rotations[u].id].revoked)
  }

  /** A token starts its family, or descends from a revoked token of the same user
      and family. */
  predicate TokenDescends(tokens: seq<Token>, i: nat)
    requires i < |tokens|
  {
    var token := tokens[i];
    && token.family <= i
    && match token.parent
       case None => token.family == i
       case Some(p) =>
         p < i && tokens[p].revoked && tokens[p].user == token.user && tokens[p].family == token.family
  }

  ghost predicate Descends(w: World) {
    forall i :: 0 <= i < |w.tokens| ==> TokenDescends(w.tokens, i)
  }

  ghost predicate SingleUse(w: World) {
    forall id: nat :: Exchanges(w, id) <= if id < |w.tokens| && w.tokens[id].revoked then 1 else 0
  }

  ghost predicate OneCurrent(w: World) {
    forall family: nat :: Current(w, family) <= if family < |w.tokens| then 1 else 0
  }

  ghost predicate Inv(w: World) {
    ReadsAgree(w) && Descends(w) && SingleUse(w) && OneCurrent(w)
  }

  // ---- What one step does to the sums ----

  lemma RevokingLowers(tokens: seq<Token>, id: nat, family: nat, parent: nat)
    requires id < |tokens|
    ensures var tokens' := tokens[id := tokens[id].(revoked := true)];
            && Sum(tokens', LiveIn(family)) == Sum(tokens, LiveIn(family)) - LiveIn(family)(tokens[id])
            && Sum(tokens', ReplacementOf(parent)) == Sum(tokens, ReplacementOf(parent))
  {
    SumUpdate(tokens, id, tokens[id].(revoked := true), LiveIn(family));
    SumUpdate(tokens, id, tokens[id].(revoked := true), ReplacementOf(parent));
  }

  lemma RevokingAllLowers(tokens: seq<Token>, user: nat, family: nat, parent: nat)
    ensures Sum(RevokedAll(tokens, user), LiveIn(family)) <= Sum(tokens, LiveIn(family))
    ensures Sum(RevokedAll(tokens, user), ReplacementOf(parent)) == Sum(tokens, ReplacementOf(parent))
  {
    SumGrowsPointwise(RevokedAll(tokens, user), tokens, LiveIn(family));
    SumPointwise(RevokedAll(tokens, user), tokens, ReplacementOf(parent), ReplacementOf(parent));
  }

  /** A rotation's step replaces it, and appends or revokes at most one token. */
  lemma RotationStepEffect(w: World, e: Event, u: nat)
    requires u < |w.rotations| && ReadsAgree(w)
    ensures var w' := RotationStep(w, e, u);
            && |w'.rotations| == |w.rotations| && w'.rotations == w.rotations[u := w'.rotations[u]]
            && (w'.tokens != w.tokens ==>
                  (e.RevokeRead? && w.rotations[u].Verified?) || (e.Generate? && w.rotations[u].Generating?))
  {
  }

  lemma RotationStepCurrent(w: World, e: Event, u: nat, family: nat)
    requires u < |w.rotations| && ReadsAgree(w)
    ensures Current(RotationStep(w, e, u), family) == Current(w, family)
  {
    var w' := RotationStep(w, e, u);
    RotationStepEffect(w, e, u);
    SumUpdate(w.rotations, u, w'.rotations[u], GeneratingIn(family));
    if w'.tokens != w.tokens {
      if e.RevokeRead? {
        RevokingLowers(w.tokens, w.rotations[u].id, family, 0);
      } else {
        SumAppend(w.tokens, w'.tokens[|w.tokens|], LiveIn(family));
      }
    }
  }

  lemma RotationStepExchanges(w: World, e: Event, u: nat, id: nat)
    requires u < |w.rotations| && ReadsAgree(w)
    ensures var w' := RotationStep(w, e, u);
            Exchanges(w', id) == Exchanges(w, id)
              + if e.RevokeRead? && w.rotations[u].Verified? && w.rotations[u].id == id && !w.tokens[id].revoked
                then 1 else 0
  {
    var w' := RotationStep(w, e, u);
    RotationStepEffect(w, e, u);
    SumUpdate(w.rotations, u, w'.rotations[u], Replacing(id));
    if w'.tokens != w.tokens {
      if e.RevokeRead? {
        RevokingLowers(w.tokens, w.rotations[u].id, 0, id);
      } else {
        SumAppend(w.tokens, w'.tokens[|w.tokens|], ReplacementOf(id));
      }
    }
  }

  /** Steps of the environment never add to a family that exists, nor exchange. */
  lemma OtherStepSums(w: World, e: Event, family: nat, id: nat)
    requires e.SignIn? || e.Present? || e.Revoke? || e.RevokeUser?
    ensures var w' := Step(w, e);
            && Exchanges(w', id) == Exchanges(w, id)
            && Current(w', family) <= Current(w, family) + (if e.SignIn? && family == |w.tokens| then 1 else 0)
  {
    var w' := Step(w, e);
    if e.SignIn? {
      SumAppend(w.tokens, w'.tokens[|w.tokens|], LiveIn(family));
      SumAppend(w.tokens, w'.tokens[|w.tokens|], ReplacementOf(id));
    } else if e.Present? {
      SumAppend(w.rotations, Presented(e.raw), GeneratingIn(family));
      SumAppend(w.rotations, Presented(e.raw), Replacing(id));
    } else if e.RevokeUser? {
      RevokingAllLowers(w.tokens, e.user, family, id);
    } else if e.id < |w.tokens| {
      RevokingLowers(w.tokens, e.id, family, id);
    }
  }

  /** Tokens are only appended, and a revoked token stays revoked. */
  lemma StepOnlyRevokes(w: World, e: Event)
    ensures var w' := Step(w, e);
            && |w.tokens| <= |w'.tokens|
            && forall i :: 0 <= i < |w.tokens| ==>
                 w'.tokens[i] == w.tokens[i] || w'.tokens[i] == w.tokens[i].(revoked := true)
  {
  }

  // ---- Each invariant is kept ----

  lemma StepKeepsReads(w: World, e: Event)
    requires ReadsAgree(w)
    ensures ReadsAgree(Step(w, e))
  {
    StepOnlyRevokes(w, e);
  }

  lemma StepKeepsDescends(w: World, e: Event)
    requires ReadsAgree(w) && Descends(w)
    ensures Descends(Step(w, e))
  {
    var w' := Step(w, e);
    StepOnlyRevokes(w, e);
    forall i | 0 <= i < |w'.tokens| ensures TokenDescends(w'.tokens, i) {
      if i < |w.tokens| {
        assert TokenDescends(w.tokens, i);
      } else if e.Generate? {
        assert TokenDescends(w.tokens, w.rotations[e.u].id);
      }
    }
  }

  lemma StepKeepsSingleUse(w: World, e: Event)
    requires ReadsAgree(w) && SingleUse(w)
    ensures SingleUse(Step(w, e))
  {
    var w' := Step(w, e);
    StepOnlyRevokes(w, e);
    forall id: nat ensures Exchanges(w', id) <= if id < |w'.tokens| && w'.tokens[id].revoked then 1 else 0 {
      assert Exchanges(w, id) <= if id < |w.tokens| && w.tokens[id].revoked then 1 else 0;
      if e.SignIn? || e.Present? || e.Revoke? || e.RevokeUser? {
        OtherStepSums(w, e, 0, id);
      } else if e.u < |w.rotations| {
        RotationStepExchanges(w, e, e.u, id);
      }
    }
  }

  lemma StepKeepsOneCurrent(w: World, e: Event)
    requires ReadsAgree(w) && OneCurrent(w)
    ensures OneCurrent(Step(w, e))
  {
    var w' := Step(w, e);
    StepOnlyRevokes(w, e);
    forall family: nat ensures Current(w', family) <= if family < |w'.tokens| then 1 else 0 {
      assert Current(w, family) <= if family < |w.tokens| then 1 else 0;
      if e.SignIn? || e.Present? || e.Revoke? || e.RevokeUser? {
        OtherStepSums(w, e, family, 0);
      } else if e.u < |w.rotations| {
        RotationStepCurrent(w, e, e.u, family);
      }
    }
  }

  lemma StepKeepsInv(w: World, e: Event)
    requires Inv(w)
    ensures Inv(Step(w, e))
  {
    StepKeepsReads(w, e);
    StepKeepsDescends(w, e);
    StepKeepsSingleUse(w, e);
    StepKeepsOneCurrent(w, e);
  }

  lemma {:induction false} RunKeepsInv(w: World, events: seq<Event>)
    requires Inv(w)
    ensures Inv(Run(w, events))
    decreases |events|
  {
    if events != [] {
      StepKeepsInv(w, events[0]);
      RunKeepsInv(Step(w, events[0]), events[1..]);
    }
  }

  // ---- Main results ----

  /** However rotations, sign-ins and revocations interleave, each token is exchanged
      at most once: no two tokens replace the same one. */
  lemma EachTokenExchangedOnce(events: seq<Event>, w: World, i: nat, j: nat)
    requires w == Run(START, events) && i < j < |w.tokens|
    requires w.tokens[i].parent.Some?
    ensures w.tokens[i].parent != w.tokens[j].parent
  {
    RunKeepsInv(START, events);
    var id := w.tokens[i].parent.value;
    assert Exchanges(w, id) <= 1;
    SumNonNegative(w.rotations, Replacing(id));
    if w.tokens[j].parent == Some(id) {
      SumCoversTwoRows(w.tokens, i, j, ReplacementOf(id));
    }
  }

  /** ... and a sign-in has at most one live token, and none while a rotation is about
      to create one. */
  lemma OneLiveTokenPerSignIn(events: seq<Event>, w: World, i: nat, j: nat)
    requires w == Run(START, events) && i < j < |w.tokens|
    requires w.tokens[i].family == w.tokens[j].family
    ensures w.tokens[i].revoked || w.tokens[j].revoked
    ensures (exists u :: 0 <= u < |w.rotations| && GeneratingIn(w.tokens[i].family)(w.rotations[u]) == 1) ==>
              w.tokens[i].revoked && w.tokens[j].revoked
  {
    RunKeepsInv(START, events);
    var family := w.tokens[i].family;
    assert Current(w, family) <= 1;
    SumNonNegative(w.rotations, GeneratingIn(family));
    SumCoversTwoRows(w.tokens, i, j, LiveIn(family));
    forall u | 0 <= u < |w.rotations| && GeneratingIn(family)(w.rotations[u]) == 1
      ensures w.tokens[i].revoked && w.tokens[j].revoked
    {
      SumCoversRow(w.rotations, u, GeneratingIn(family));
    }
  }

  /** Every token of a family belongs to the user who signed in. */
  lemma {:induction false} FamilyHasOneUser(w: World, i: nat)
    requires Descends(w) && i < |w.tokens|
    ensures w.tokens[i].family <= i && w.tokens[w.tokens[i].family].user == w.tokens[i].user
    decreases i
  {
    assert TokenDescends(w.tokens, i);
    if w.tokens[i].parent.Some? {
      FamilyHasOneUser(w, w.tokens[i].parent.value);
    }
  }

  /** A family without a live token and without a rotation about to create one. */
  predicate Ended(w: World, family: nat) {
    family < |w.tokens| && Current(w, family) == 0
  }

  /** A sign-in that has ended never comes back. */
  lemma {:induction false} EndedIsFinal(w: World, events: seq<Event>, family: nat)
    requires Inv(w) && Ended(w, family)
    ensures Ended(Run(w, events), family)
    ensures forall i :: 0 <= i < |Run(w, events).tokens| && Run(w, events).tokens[i].family == family ==>
              Run(w, events).tokens[i].revoked
    decreases |events|
  {
    if events == [] {
      SumNonNegative(w.rotations, GeneratingIn(family));
      forall i | 0 <= i < |w.tokens| && w.tokens[i].family == family ensures w.tokens[i].revoked {
        SumCoversRow(w.tokens, i, LiveIn(family));
      }
    } else {
      var e := events[0];
      var w1 := Step(w, e);
      StepKeepsInv(w, e);
      StepOnlyRevokes(w, e);
      SumNonNegative(w1.tokens, LiveIn(family));
      SumNonNegative(w1.rotations, GeneratingIn(family));
      if e.SignIn? || e.Present? || e.Revoke? || e.RevokeUser? {
        OtherStepSums(w, e, family, 0);
      } else if e.u < |w.rotations| {
        RotationStepCurrent(w, e, e.u, family);
      }
      EndedIsFinal(w1, events[1..], family);
    }
  }

  lemma RevokeUserEffect(w: World, family: nat)
    requires Descends(w) && family < |w.tokens|
    ensures var w' := Step(w, RevokeUser(w.tokens[family].user));
            Sum(w'.tokens, LiveIn(family)) == 0 && w'.rotations == w.rotations && |w'.tokens| == |w.tokens|
  {
    var w' := Step(w, RevokeUser(w.tokens[family].user));
    forall i | 0 <= i < |w'.tokens| ensures LiveIn(family)(w'.tokens[i]) == 0 {
      FamilyHasOneUser(w, i);
    }
    SumOfZeros(w'.tokens, LiveIn(family));
  }

  /** Revoking all of a user's tokens ends a sign-in of that user exactly when no
      rotation of it stands between revoking and creating. */
  lemma RevokeUserEndsIff(w: World, family: nat)
    requires Descends(w) && family < |w.tokens|
    ensures Ended(Step(w, RevokeUser(w.tokens[family].user)), family) <==>
            forall u :: 0 <= u < |w.rotations| && w.rotations[u].Generating? ==> w.rotations[u].read.family != family
  {
    RevokeUserEffect(w, family);
    if forall u :: 0 <= u < |w.rotations| && w.rotations[u].Generating? ==> w.rotations[u].read.family != family {
      SumOfZeros(w.rotations, GeneratingIn(family));
    } else {
      var u :| 0 <= u < |w.rotations| && w.rotations[u].Generating? && w.rotations[u].read.family == family;
      SumCoversRow(w.rotations, u, GeneratingIn(family));
    }
  }

  lemma RotationUnderWay(user: nat)
    ensures Run(START, [SignIn(user, 7, 0), Present(Raw(0, 7)), Verify(0, 1), RevokeRead(0)]) ==
            World([Token(user, 7, TTL_MS, true, 0, None)], [Generating(0, Token(user, 7, TTL_MS, false, 0, None))])
  {
    RunFour(Step, START, SignIn(user, 7, 0), Present(Raw(0, 7)), Verify(0, 1), RevokeRead(0));
  }

  /** Blocking a user in that moment leaves a live token of the user behind. */
  lemma BlockedUserKeepsToken(user: nat) returns (events: seq<Event>)
    ensures RevokeUser(user) in events
    ensures var w := Run(START, events);
            |w.tokens| == 2 && w.tokens[1].user == user && !w.tokens[1].revoked && w.rotations == [Issued(Raw(1, 8))]
  {
    var first := [SignIn(user, 7, 0), Present(Raw(0, 7)), Verify(0, 1), RevokeRead(0)];
    var rest := [RevokeUser(user), Generate(0, 8, 1)];
    RotationUnderWay(user);
    RunConcat(Step, START, first, rest);
    RunTwo(Step, Run(START, first), RevokeUser(user), Generate(0, 8, 1));
    events := first + rest;
    assert rest[0] in rest;
  }

  // ---- What a token proves ----

  /** Exactly which presented tokens are accepted, and why the others are not. */
  lemma VerdictIff(tokens: seq<Token>, raw: Raw, now: int)
    ensures Verdict(tokens, raw, now) == None <==>
            && raw.id < |tokens| && !tokens[raw.id].revoked && now < tokens[raw.id].expiresAt
            && tokens[raw.id].secret == raw.secret
    ensures Verdict(tokens, raw, now) == Some(AlreadyRevoked) <==> raw.id < |tokens| && tokens[raw.id].revoked
    ensures Verdict(tokens, raw, now) == Some(Expired) <==>
            raw.id < |tokens| && !tokens[raw.id].revoked && tokens[raw.id].expiresAt <= now
    ensures Verdict(tokens, raw, now) == Some(WrongSecret) <==>
            && raw.id < |tokens| && !tokens[raw.id].revoked && now < tokens[raw.id].expiresAt
            && tokens[raw.id].secret != raw.secret
  {
  }

  /** The tokens presented in a run, in the order of the rotations they start. */
  function Presents(events: seq<Event>): seq<Raw> {
    if events == [] then []
    else (if events[0].Present? then [events[0].raw] else []) + Presents(events[1..])
  }

  /** A rotation that has got past the verification was presented the secret of the very
      row it exchanges. */
  predicate Proven(tokens: seq<Token>, rotation: Rotation, raw: Raw) {
    match rotation
    case Presented(presented) => presented == raw
    case Refused(_) => true
    case Issued(issued) =>
      && issued.id < |tokens| && tokens[issued.id].parent == Some(raw.id)
      && raw.id < |tokens| && tokens[raw.id].secret == raw.secret
    case _ => rotation.id == raw.id && raw.id < |tokens| && tokens[raw.id].secret == raw.secret
  }

  ghost predicate AllProven(w: World, raws: seq<Raw>) {
    |raws| == |w.rotations| && forall u :: 0 <= u < |raws| ==> Proven(w.tokens, w.rotations[u], raws[u])
  }

  lemma {:induction false} RunKeepsProven(w: World, raws: seq<Raw>, events: seq<Event>)
    requires AllProven(w, raws)
    ensures AllProven(Run(w, events), raws + Presents(events))
    decreases |events|
  {
    if events == [] {
      assert raws + [] == raws;
    } else {
      var more := if events[0].Present? then [events[0].raw] else [];
      StepKeepsProven(w, raws, events[0]);
      RunKeepsProven(Step(w, events[0]), raws + more, events[1..]);
      assert raws + more + Presents(events[1..]) == raws + (more + Presents(events[1..]));
    }
  }

  lemma StepKeepsProven(w: World, raws: seq<Raw>, e: Event)
    requires AllProven(w, raws)
    ensures AllProven(Step(w, e), raws + if e.Present? then [e.raw] else [])
  {
    StepOnlyRevokes(w, e);
    var w' := Step(w, e);
    forall u | 0 <= u < |raws| ensures Proven(w'.tokens, w'.rotations[u], raws[u]) {
      assert Proven(w.tokens, w.rotations[u], raws[u]);
      if u < |w.rotations| && e.Verify? && e.u == u && w.rotations[u].Presented? {
        VerdictIff(w.tokens, raws[u], e.now);
      }
    }
  }

  /** In every run: no rotation gets past the verification, let alone to a new token,
      without having been presented the secret of the token it replaces. */
  lemma OnlyTheSecretRotates(events: seq<Event>, u: nat)
    requires var w := Run(START, events);
             u < |w.rotations| && !w.rotations[u].Presented? && !w.rotations[u].Refused?
    ensures var w := Run(START, events);
            && u < |Presents(events)|
            && var raw := Presents(events)[u];
               && raw.id < |w.tokens| && w.tokens[raw.id].secret == raw.secret
               && (w.rotations[u].Issued? ==> w.rotations[u].raw.id < |w.tokens|
                                              && w.tokens[w.rotations[u].raw.id].parent == Some(raw.id))
               && (!w.rotations[u].Issued? ==> w.rotations[u].id == raw.id)
  {
    RunKeepsProven(START, [], events);
    assert [] + Presents(events) == Presents(events);
  }

  /** A token that has been revoked is refused for good, whatever is presented with it. */
  lemma RevokedForGood(w: World, events: seq<Event>, raw: Raw, now: int)
    requires raw.id < |w.tokens|
    ensures Verdict(Run(Step(w, Revoke(raw.id)), events).tokens, raw, now) == Some(AlreadyRevoked)
  {
    StaysRevoked(Step(w, Revoke(raw.id)), events, raw.id);
    VerdictIff(Run(Step(w, Revoke(raw.id)), events).tokens, raw, now);
  }

  lemma {:induction false} StaysRevoked(w: World, events: seq<Event>, id: nat)
    requires id < |w.tokens| && w.tokens[id].revoked
    ensures id < |Run(w, events).tokens| && Run(w, events).tokens[id].revoked
    decreases |events|
  {
    if events != [] {
      StepOnlyRevokes(w, events[0]);
      StaysRevoked(Step(w, events[0]), events[1..], id);
    }
  }
}
