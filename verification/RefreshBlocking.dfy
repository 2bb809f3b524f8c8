/** Blocking a user (admin-user.controller.ts) against the user's sign-ins: a sign-in
    reads whether the user is blocked in one call and creates its token in another
    (auth.service.ts). */
module RefreshBlocking {
  import opened Common
  import opened Runs
  import T = RefreshTokens

  /** `admitted` are the sign-ins that found their user not blocked and have not
      created their token yet. */
  datatype Gate = Gate(server: T.World, blocked: set<nat>, admitted: multiset<nat>)

  datatype Event =
    | Admit(user: nat)
    | Create(user: nat, secret: nat, now: int)
    | Block(user: nat)
    | Unblock(user: nat)
    | Server(e: T.Event)

  const START := Gate(T.START, {}, multiset{})

  /** The server's own events are those of rotations and single revocations. */
  predicate OfRotations(e: T.Event) {
    !e.SignIn? && !e.RevokeUser?
  }

  function Step(g: Gate, e: Event): Gate {
    match e
    case Admit(user) => if user in g.blocked then g else g.(admitted := g.admitted + multiset{user})
    case Create(user, secret, now) =>
      if user in g.admitted then
        Gate(T.Step(g.server, T.SignIn(user, secret, now)), g.blocked, g.admitted - multiset{user})
      else g
    case Block(user) => Gate(T.Step(g.server, T.RevokeUser(user)), g.blocked + {user}, g.admitted)
    case Unblock(user) => g.(blocked := g.blocked - {user})
    case Server(e) => if OfRotations(e) then g.(server := T.Step(g.server, e)) else g
  }

  function Run(g: Gate, events: seq<Event>): Gate {
    RunFrom(Step, g, events)
  }

  /** Exactly which events block a user and let the user's sign-ins in: blocking holds
      until it is lifted, and a sign-in that was let in creates one token. */
  lemma GateChangesBy(g: Gate, e: Event, user: nat)
    ensures var g' := Step(g, e);
            var creates := e.Create? && e.user == user && user in g.admitted;
            && (user in g'.blocked <==> e == Block(user) || (user in g.blocked && e != Unblock(user)))
            && g'.admitted[user] == g.admitted[user] + (if e == Admit(user) && user !in g.blocked then 1 else 0)
                                    - (if creates then 1 else 0)
            && (creates ==> |g'.server.tokens| == |g.server.tokens| + 1
                            && g'.server.tokens[|g.server.tokens|].user == user
                            && !g'.server.tokens[|g.server.tokens|].revoked)
  {
  }

  predicate HasLiveToken(g: Gate, user: nat) {
    exists i :: 0 <= i < |g.server.tokens| && g.server.tokens[i].user == user && !g.server.tokens[i].revoked
  }

  /** The user has no live token until somebody unblocks the user, whatever happens. */
  ghost predicate StaysOut(g: Gate, user: nat) {
    forall events: seq<Event> :: Unblock(user) !in events ==> !HasLiveToken(Run(g, events), user)
  }

  /** A call of the user that still creates a token: a sign-in, or a rotation. */
  predicate StillCreates(g: Gate, user: nat) {
    || user in g.admitted
    || exists u :: 0 <= u < |g.server.rotations| && CreatesFor(g.server.rotations[u], user)
  }

  predicate CreatesFor(rotation: T.Rotation, user: nat) {
    rotation.Generating? && rotation.read.user == user
  }

  ghost predicate Out(g: Gate, user: nat) {
    T.ReadsAgree(g.server) && user in g.blocked && !StillCreates(g, user) && !HasLiveToken(g, user)
  }

  lemma StepKeepsReads(g: Gate, e: Event)
    requires T.ReadsAgree(g.server)
    ensures T.ReadsAgree(Step(g, e).server)
  {
    match e
    case Create(user, secret, now) => T.StepKeepsReads(g.server, T.SignIn(user, secret, now));
    case Block(user) => T.StepKeepsReads(g.server, T.RevokeUser(user));
    case Server(e) => T.StepKeepsReads(g.server, e);
    case _ =>
  }

  lemma StepKeepsOut(g: Gate, e: Event, user: nat)
    requires Out(g, user) && e != Unblock(user)
    ensures Out(Step(g, e), user)
  {
    StepKeepsReads(g, e);
  }

  lemma {:induction false} OutIsFinal(g: Gate, events: seq<Event>, user: nat)
    requires Out(g, user) && Unblock(user) !in events
    ensures !HasLiveToken(Run(g, events), user)
    decreases |events|
  {
    if events != [] {
      StepKeepsOut(g, events[0], user);
      OutIsFinal(Step(g, events[0]), events[1..], user);
    }
  }

  lemma {:induction false} RunKeepsReads(g: Gate, events: seq<Event>)
    requires T.ReadsAgree(g.server)
    ensures T.ReadsAgree(Run(g, events).server)
    decreases |events|
  {
    if events != [] {
      StepKeepsReads(g, events[0]);
      RunKeepsReads(Step(g, events[0]), events[1..]);
    }
  }

  lemma SignInCreates(g: Gate, user: nat)
    requires user in g.admitted
    ensures HasLiveToken(Run(g, [Create(user, 0, 0)]), user)
  {
    RunOne(Step, g, Create(user, 0, 0), []);
    var g' := Step(g, Create(user, 0, 0));
    assert g'.server.tokens[|g.server.tokens|].user == user;
  }

  lemma RotationCreates(g: Gate, user: nat, u: nat)
    requires u < |g.server.rotations| && CreatesFor(g.server.rotations[u], user)
    ensures HasLiveToken(Run(g, [Server(T.Generate(u, 0, 0))]), user)
  {
    var e := Server(T.Generate(u, 0, 0));
    RunOne(Step, g, e, []);
    assert Step(g, e).server.tokens[|g.server.tokens|].user == user;
  }

  /** After any history: blocking a user keeps the user out until unblocked exactly when
      at that moment no sign-in of the user has been let in and no rotation of the
      user's stands between revoking and creating. */
  lemma BlockingKeepsOutIff(history: seq<Event>, user: nat)
    ensures var g := Run(START, history);
            StaysOut(Step(g, Block(user)), user) <==> !StillCreates(g, user)
  {
    var g := Run(START, history);
    var g' := Step(g, Block(user));
    RunKeepsReads(START, history);
    StepKeepsReads(g, Block(user));
    if user in g.admitted {
      SignInCreates(g', user);
    } else if u: nat :| u < |g.server.rotations| && CreatesFor(g.server.rotations[u], user) {
      RotationCreates(g', user, u);
    } else {
      forall events: seq<Event> | Unblock(user) !in events ensures !HasLiveToken(Run(g', events), user) {
        OutIsFinal(g', events, user);
      }
    }
  }

  /** A sign-in that found its user not blocked survives the block. */
  lemma LateSignInSurvivesTheBlock(user: nat)
    ensures var g := Run(START, [Admit(user), Block(user), Create(user, 7, 0)]);
            user in g.blocked && HasLiveToken(g, user)
  {
    RunThree(Step, START, Admit(user), Block(user), Create(user, 7, 0));
    var g := Step(Step(Step(START, Admit(user)), Block(user)), Create(user, 7, 0));
    assert g.server.tokens[0].user == user && !g.server.tokens[0].revoked;
  }
}
