/** The pool of airline sessions (muadi-session-pool.service.ts) under every
    interleaving of its users.  Counting free sessions, picking one and locking
    it are three separate database calls; a failed release is two. */
module SessionPool {
  import opened Common

  /** A row of the table.  `name` is its unique label; a login of the row's account is
      stored under the label `account`, which need not be that of the row itself. */
  datatype Session = Session(
    name: nat, account: nat,
    active: bool, busy: bool, lastUsedAt: Option<int>, failureCount: nat, updatedAt: int)

  datatype Config = Config(reserved: nat, maxFailures: nat, cooldownMs: nat)

  // ---- Single database calls ----

  predicate Free(s: Session) {
    s.active && !s.busy
  }

  function FreeWeight(): Session -> int {
    (s: Session) => if Free(s) then 1 else 0
  }

  function FreeCount(sessions: seq<Session>): int {
    Sum(sessions, FreeWeight())
  }

  /** Ascending `lastUsedAt`; the database puts sessions never used last. */
  predicate UsedBefore(a: Option<int>, b: Option<int>) {
    a.Some? && (b.None? || a.value < b.value)
  }

  /** A session that `findFirst` may return: free, and no free one was used before it. */
  predicate IsLeastRecentlyUsed(sessions: seq<Session>, s: nat) {
    && s < |sessions| && Free(sessions[s])
    && forall t :: 0 <= t < |sessions| && Free(sessions[t]) ==> !UsedBefore(sessions[t].lastUsedAt, sessions[s].lastUsedAt)
  }

  function Locked(sessions: seq<Session>, s: nat, now: int): seq<Session>
    requires s < |sessions|
  {
    sessions[s := sessions[s].(busy := true, lastUsedAt := Some(now), updatedAt := now)]
  }

  function ReleasedOk(sessions: seq<Session>, s: nat, now: int): seq<Session>
    requires s < |sessions|
  {
    sessions[s := sessions[s].(busy := false, failureCount := 0, updatedAt := now)]
  }

  function ReleasedFailed(sessions: seq<Session>, s: nat, now: int): seq<Session>
    requires s < |sessions|
  {
    sessions[s := sessions[s].(busy := false, failureCount := sessions[s].failureCount + 1, updatedAt := now)]
  }

  function Tripped(sessions: seq<Session>, s: nat, now: int): seq<Session>
    requires s < |sessions|
  {
    sessions[s := sessions[s].(active := false, updatedAt := now)]
  }

  /** The API client notes the server's clock, or new tokens, after a request. */
  function Touched(sessions: seq<Session>, s: nat, now: int): seq<Session>
    requires s < |sessions|
  {
    sessions[s := sessions[s].(lastUsedAt := Some(now), updatedAt := now)]
  }

  /** The API client could not renew the session's tokens. */
  function RefreshFailedOn(sessions: seq<Session>, s: nat, now: int): seq<Session>
    requires s < |sessions|
  {
    sessions[s := sessions[s].(failureCount := sessions[s].failureCount + 1, updatedAt := now)]
  }

  function FindName(sessions: seq<Session>, name: nat): (r: Option<nat>)
    ensures r.Some? ==> r.value < |sessions| && sessions[r.value].name == name
    ensures r.None? ==> forall t :: 0 <= t < |sessions| ==> sessions[t].name != name
  {
    if sessions == [] then None
    else if sessions[|sessions| - 1].name == name then Some(|sessions| - 1)
    else FindName(sessions[..|sessions| - 1], name)
  }

  /** A login is stored in the row with the account's name, whichever session it was
      for; without such a row it adds one. */
  function LoggedIn(sessions: seq<Session>, account: nat, now: int): (r: seq<Session>)
    ensures |sessions| <= |r|
    ensures forall t :: 0 <= t < |r| ==> r[t].busy == (t < |sessions| && sessions[t].busy)
    ensures forall t :: 0 <= t < |r| ==> r[t].name == if t < |sessions| then sessions[t].name else account
  {
    match FindName(sessions, account)
    case Some(t) =>
      sessions[t := sessions[t].(account := account, active := true, failureCount := 0,
                                 lastUsedAt := Some(now), updatedAt := now)]
    case None => sessions + [Session(account, account, true, false, Some(now), 0, now)]
  }

  predicate Stale(s: Session, cutoff: int) {
    !s.active && s.updatedAt <= cutoff
  }

  function Reactivated(sessions: seq<Session>, cutoff: int, now: int): (r: seq<Session>)
    ensures |r| == |sessions|
    ensures forall s :: 0 <= s < |sessions| ==>
                          r[s] == if Stale(sessions[s], cutoff)
                                  then sessions[s].(active := true, failureCount := 0, updatedAt := now) else sessions[s]
  {
    seq(|sessions|, s requires 0 <= s < |sessions| =>
      if Stale(sessions[s], cutoff)
      then sessions[s].(active := true, failureCount := 0, updatedAt := now) else sessions[s])
  }

  // ---- Users ----

  /** Where a request stands between two database calls.  `logins` are the accounts the
      holder is logging in, each read from its session. */
  datatype User =
    | RealtimeArrived
    | RealtimePicked(s: nat)
    | HunterArrived
    | HunterCounted
    | HunterPicked(s: nat)
    | Holding(s: nat, logins: multiset<nat>)
    | Tripping(s: nat)
    | Done

  datatype Pool = Pool(sessions: seq<Session>, users: seq<User>)

  /** `Touch`, `RefreshFailed` and the logins are what the API client does for a holder. */
  datatype Event =
    | Arrive(hunter: bool)
    | Count(u: nat)
    | Pick(u: nat, choice: Option<nat>)
    | Lock(u: nat, now: int)
    | ReleaseSuccess(u: nat, now: int)
    | ReleaseFailure(u: nat, now: int)
    | Trip(u: nat, now: int)
    | Touch(u: nat, now: int)
    | RefreshFailed(u: nat, now: int)
    | BeginLogin(u: nat)
    | FinishLogin(u: nat, account: nat, now: int)
    | Reactivate(now: int)

  predicate ValidChoice(sessions: seq<Session>, choice: Option<nat>) {
    match choice
    case Some(s) => IsLeastRecentlyUsed(sessions, s)
    case None => forall t :: 0 <= t < |sessions| ==> !Free(sessions[t])
  }

  function Picked(user: User, s: nat): User {
    if user == RealtimeArrived then RealtimePicked(s) else HunterPicked(s)
  }

  predicate RefersTo(user: User, n: nat) {
    (user.RealtimePicked? || user.HunterPicked? || user.Holding? || user.Tripping?) ==> user.s < n
  }

  /** The step of user u, whose turn it is; a call that is not due changes nothing. */
  function UserStep(p: Pool, cfg: Config, e: Event, u: nat): (p': Pool)
    requires u < |p.users| && RefersTo(p.users[u], |p.sessions|)
    ensures |p.sessions| <= |p'.sessions| && |p'.users| == |p.users|
    ensures RefersTo(p'.users[u], |p'.sessions|)
    ensures forall v :: 0 <= v < |p.users| && v != u ==> p'.users[v] == p.users[v]
  {
    var user := p.users[u];
    match e
    case Count(_) =>
      if user == HunterArrived then
        p.(users := p.users[u := if FreeCount(p.sessions) <= cfg.reserved then Done else HunterCounted])
      else p
    case Pick(_, choice) =>
      if (user == RealtimeArrived || user == HunterCounted) && ValidChoice(p.sessions, choice) then
        p.(users := p.users[u := if choice.Some? then Picked(user, choice.value) else Done])
      else p
    case Lock(_, now) =>
      if user.RealtimePicked? || user.HunterPicked? then
        if Free(p.sessions[user.s]) then
          Pool(Locked(p.sessions, user.s, now), p.users[u := Holding(user.s, multiset{})])
        else p.(users := p.users[u := Done])
      else p
    case ReleaseSuccess(_, now) =>
      if user.Holding? then Pool(ReleasedOk(p.sessions, user.s, now), p.users[u := Done]) else p
    case ReleaseFailure(_, now) =>
      if user.Holding? then
        var sessions := ReleasedFailed(p.sessions, user.s, now);
        Pool(sessions,
             p.users[u := if cfg.maxFailures <= sessions[user.s].failureCount then Tripping(user.s) else Done])
      else p
    case Trip(_, now) =>
      if user.Tripping? then Pool(Tripped(p.sessions, user.s, now), p.users[u := Done]) else p
    case Touch(_, now) => if user.Holding? then p.(sessions := Touched(p.sessions, user.s, now)) else p
    case RefreshFailed(_, now) =>
      if user.Holding? then p.(sessions := RefreshFailedOn(p.sessions, user.s, now)) else p
    case BeginLogin(_) =>
      if user.Holding? then
        p.(users := p.users[u := user.(logins := user.logins + multiset{p.sessions[user.s].account})])
      else p
    case FinishLogin(_, account, now) =>
      if user.Holding? && account in user.logins then
        Pool(LoggedIn(p.sessions, account, now), p.users[u := user.(logins := user.logins - multiset{account})])
      else p
    case _ => p
  }

  predicate WellFormed(p: Pool) {
    forall u :: 0 <= u < |p.users| ==> RefersTo(p.users[u], |p.sessions|)
  }

  function Step(p: Pool, cfg: Config, e: Event): (p': Pool)
    requires WellFormed(p)
    ensures WellFormed(p') && |p.sessions| <= |p'.sessions|
  {
    match e
    case Arrive(hunter) => p.(users := p.users + [if hunter then HunterArrived else RealtimeArrived])
    case Reactivate(now) => p.(sessions := Reactivated(p.sessions, now - cfg.cooldownMs, now))
    case _ => if e.u < |p.users| then UserStep(p, cfg, e, e.u) else p
  }

  function Run(p: Pool, cfg: Config, events: seq<Event>): (p': Pool)
    requires WellFormed(p)
    ensures WellFormed(p') && |p.sessions| <= |p'.sessions|
    decreases |events|
  {
    if events == [] then p else Run(Step(p, cfg, events[0]), cfg, events[1..])
  }

  lemma {:induction false} RunConcat(p: Pool, cfg: Config, a: seq<Event>, b: seq<Event>)
    requires WellFormed(p)
    ensures Run(p, cfg, a + b) == Run(Run(p, cfg, a), cfg, b)
    decreases |a|
  {
    if a == [] {
      assert a + b == b;
    } else {
      assert (a + b)[1..] == a[1..] + b;
      RunConcat(Step(p, cfg, a[0]), cfg, a[1..], b);
    }
  }

  lemma RunThree(p: Pool, cfg: Config, a: Event, b: Event, c: Event)
    requires WellFormed(p)
    ensures Run(p, cfg, [a, b, c]) == Step(Step(Step(p, cfg, a), cfg, b), cfg, c)
  {
    assert [a, b, c][1..] == [b, c] && [b, c][1..] == [c] && [c][1..] == [];
    var p1 := Step(p, cfg, a);
    assert Run(p1, cfg, [b, c]) == Run(Step(p1, cfg, b), cfg, [c]);
  }

  predicate AtRest(p: Pool) {
    p.users == [] && forall s :: 0 <= s < |p.sessions| ==> !p.sessions[s].busy
  }

  // ---- Mutual exclusion ----

  predicate HoldsSession(user: User, s: nat) {
    user.Holding? && user.s == s
  }

  function Holds(s: nat): User -> int {
    (user: User) => if HoldsSession(user, s) then 1 else 0
  }

  /** `busy` is set exactly for the sessions that somebody holds, one holder each. */
  ghost predicate Exclusive(p: Pool) {
    forall s :: 0 <= s < |p.sessions| ==>
      Sum(p.users, Holds(s)) == if p.sessions[s].busy then 1 else 0
  }

  lemma UserStepKeepsExclusive(p: Pool, cfg: Config, e: Event, u: nat, s: nat)
    requires WellFormed(p) && Exclusive(p)
    requires u < |p.users| && s < |UserStep(p, cfg, e, u).sessions|
    ensures var p' := UserStep(p, cfg, e, u);
            Sum(p'.users, Holds(s)) == if p'.sessions[s].busy then 1 else 0
  {
    var p' := UserStep(p, cfg, e, u);
    NoHolderBeyond(p, s);
    SumUpdate(p.users, u, p'.users[u], Holds(s));
    assert p.users[u := p'.users[u]] == p'.users;
    SumCoversRow(p.users, u, Holds(s));
  }

  lemma NoHolderBeyond(p: Pool, s: nat)
    requires WellFormed(p) && Exclusive(p)
    ensures Sum(p.users, Holds(s)) == if s < |p.sessions| && p.sessions[s].busy then 1 else 0
  {
    if |p.sessions| <= s {
      SumOfZeros(p.users, Holds(s));
    }
  }

  lemma StepKeepsExclusive(p: Pool, cfg: Config, e: Event)
    requires WellFormed(p) && Exclusive(p)
    ensures Exclusive(Step(p, cfg, e))
  {
    var p' := Step(p, cfg, e);
    forall s | 0 <= s < |p'.sessions|
      ensures Sum(p'.users, Holds(s)) == if p'.sessions[s].busy then 1 else 0
    {
      NoHolderBeyond(p, s);
      match e
      case Arrive(hunter) => SumAppend(p.users, p'.users[|p.users|], Holds(s));
      case Reactivate(_) =>
      case _ =>
        if e.u < |p.users| {
          UserStepKeepsExclusive(p, cfg, e, e.u, s);
        }
    }
  }

  lemma {:induction false} RunKeepsExclusive(p: Pool, cfg: Config, events: seq<Event>)
    requires WellFormed(p) && Exclusive(p)
    ensures Exclusive(Run(p, cfg, events))
    decreases |events|
  {
    if events != [] {
      StepKeepsExclusive(p, cfg, events[0]);
      RunKeepsExclusive(Step(p, cfg, events[0]), cfg, events[1..]);
    }
  }

  /** From a pool at rest, whatever happens: no session has two holders, and a
      session is busy exactly when it has one. */
  lemma NoSessionHeldTwice(start: Pool, cfg: Config, events: seq<Event>, s: nat)
    requires AtRest(start) && s < |Run(start, cfg, events).sessions|
    ensures var p := Run(start, cfg, events);
            && (forall u, v :: 0 <= u < v < |p.users| ==> !(HoldsSession(p.users[u], s) && HoldsSession(p.users[v], s)))
            && (p.sessions[s].busy <==> exists u :: 0 <= u < |p.users| && HoldsSession(p.users[u], s))
  {
    RunKeepsExclusive(start, cfg, events);
    var p := Run(start, cfg, events);
    assert Sum(p.users, Holds(s)) == if p.sessions[s].busy then 1 else 0;
    forall u, v | 0 <= u < v < |p.users| ensures !(HoldsSession(p.users[u], s) && HoldsSession(p.users[v], s)) {
      SumCoversTwoRows(p.users, u, v, Holds(s));
    }
    if p.sessions[s].busy {
      var u := SumHasRow(p.users, Holds(s));
      assert HoldsSession(p.users[u], s);
    }
    forall u | 0 <= u < |p.users| && HoldsSession(p.users[u], s) ensures p.sessions[s].busy {
      SumCoversRow(p.users, u, Holds(s));
    }
  }

  /** The pool's only session, active and free. */
  function OneSession(lastUsedAt: Option<int>, failures: nat, updatedAt: int): seq<Session> {
    [Session(0, 0, true, false, lastUsedAt, failures, updatedAt)]
  }

  /** A user takes the only session and fails on it: it is free and still active, and
      that user is about to trip it. */
  lemma FailsOnIt(cfg: Config, p: Pool, lastUsedAt: Option<int>, failures: nat, updatedAt: int, now: int)
    requires p == Pool(OneSession(lastUsedAt, failures, updatedAt), p.users) && WellFormed(p)
    requires cfg.maxFailures <= failures + 1
    ensures var u := |p.users|;
            Run(p, cfg, [Arrive(false), Pick(u, Some(0)), Lock(u, now), ReleaseFailure(u, now)]) ==
            Pool(OneSession(Some(now), failures + 1, now), p.users + [Tripping(0)])
  {
    var u := |p.users|;
    RunFour(p, cfg, [Arrive(false), Pick(u, Some(0)), Lock(u, now), ReleaseFailure(u, now)]);
    var p1 := Step(p, cfg, Arrive(false));
    assert IsLeastRecentlyUsed(p1.sessions, 0);
    var p2 := Step(p1, cfg, Pick(u, Some(0)));
    assert p2.users == p.users + [RealtimePicked(0)];
    var p3 := Step(p2, cfg, Lock(u, now));
    assert p3.users == p.users + [Holding(0, multiset{})];
  }

  /** The breaker can trip a session that somebody else already holds: the failed
      release frees the session one call before it deactivates it. */
  lemma TrippedWhileHeld(cfg: Config, now: int)
    requires 1 <= cfg.maxFailures
    ensures var start := Pool(OneSession(None, cfg.maxFailures - 1, 0), []);
            var p := Run(start, cfg, [Arrive(false), Pick(0, Some(0)), Lock(0, now), ReleaseFailure(0, now)]
                                     + [Arrive(false), Pick(1, Some(0)), Lock(1, now), Trip(0, now)]);
            p.users == [Done, Holding(0, multiset{})] && p.sessions[0].busy && !p.sessions[0].active
  {
    var start := Pool(OneSession(None, cfg.maxFailures - 1, 0), []);
    var first := [Arrive(false), Pick(0, Some(0)), Lock(0, now), ReleaseFailure(0, now)];
    var second := [Arrive(false), Pick(1, Some(0)), Lock(1, now), Trip(0, now)];
    FailsOnIt(cfg, start, None, cfg.maxFailures - 1, 0, now);
    var mid := Pool(OneSession(Some(now), cfg.maxFailures, now), [Tripping(0)]);
    assert start.users + [Tripping(0)] == mid.users;
    RunFour(mid, cfg, second);
    var m1 := Step(mid, cfg, Arrive(false));
    assert m1.users == [Tripping(0), RealtimeArrived] && IsLeastRecentlyUsed(m1.sessions, 0);
    var m2 := Step(m1, cfg, Pick(1, Some(0)));
    assert m2 == Pool(mid.sessions, [Tripping(0), RealtimePicked(0)]);
    var m3 := Step(m2, cfg, Lock(1, now));
    assert m3.users == [Tripping(0), Holding(0, multiset{})];
    RunConcat(start, cfg, first, second);
  }

  /** Nobody works with a session that is out. */
  ghost predicate InactiveAreFree(p: Pool) {
    forall s :: 0 <= s < |p.sessions| && !p.sessions[s].active ==> !p.sessions[s].busy
  }

  /** Exactly which steps break that: the second update of a failed release, on a
      session somebody has locked in between. */
  lemma InactiveAreFreeUntil(p: Pool, cfg: Config, e: Event)
    requires WellFormed(p) && InactiveAreFree(p)
    ensures !InactiveAreFree(Step(p, cfg, e)) <==>
            e.Trip? && e.u < |p.users| && p.users[e.u].Tripping? && p.sessions[p.users[e.u].s].busy
  {
    if e.Trip? && e.u < |p.users| && p.users[e.u].Tripping? && p.sessions[p.users[e.u].s].busy {
      assert !Step(p, cfg, e).sessions[p.users[e.u].s].active;
    }
  }

  // ---- The row of a session that is out ----

  /** Steps that stamp the rows they write to. */
  predicate HasClock(e: Event) {
    !e.Arrive? && !e.Count? && !e.Pick? && !e.BeginLogin?
  }

  /** Exactly which steps, at a clock reading later than the row's, write to the row
      of an inactive session: its reactivation, a trip by a user that failed on it,
      any write or release by a user that still holds it, and a login, for whatever
      session, that is stored under its name. */
  lemma InactiveRowChangesIff(p: Pool, cfg: Config, e: Event, s: nat)
    requires WellFormed(p) && s < |p.sessions| && !p.sessions[s].active
    requires HasClock(e) ==> p.sessions[s].updatedAt < e.now
    ensures Step(p, cfg, e).sessions[s] != p.sessions[s] <==>
            || (e.Reactivate? && Stale(p.sessions[s], e.now - cfg.cooldownMs))
            || (e.Trip? && e.u < |p.users| && p.users[e.u] == Tripping(s))
            || ((e.Touch? || e.RefreshFailed? || e.ReleaseSuccess? || e.ReleaseFailure?)
                && e.u < |p.users| && HoldsSession(p.users[e.u], s))
            || (e.FinishLogin? && e.u < |p.users| && p.users[e.u].Holding? && e.account in p.users[e.u].logins
                && FindName(p.sessions, e.account) == Some(s))
  {
  }

  function TwoFailures(now: int): seq<Event> {
    [Arrive(false), Pick(0, Some(0)), Lock(0, now), ReleaseFailure(0, now)]
    + [Arrive(false), Pick(1, Some(0)), Lock(1, now), ReleaseFailure(1, now)]
  }

  lemma BothFail(cfg: Config, now: int)
    requires 1 <= cfg.maxFailures
    ensures Run(Pool(OneSession(None, cfg.maxFailures - 1, 0), []), cfg, TwoFailures(now)) ==
            Pool(OneSession(Some(now), cfg.maxFailures + 1, now), [Tripping(0), Tripping(0)])
  {
    var start := Pool(OneSession(None, cfg.maxFailures - 1, 0), []);
    var mid := Pool(OneSession(Some(now), cfg.maxFailures, now), [Tripping(0)]);
    FailsOnIt(cfg, start, None, cfg.maxFailures - 1, 0, now);
    assert start.users + [Tripping(0)] == mid.users;
    FailsOnIt(cfg, mid, Some(now), cfg.maxFailures, now, now);
    assert mid.users + [Tripping(0)] == [Tripping(0), Tripping(0)];
    RunConcat(start, cfg, [Arrive(false), Pick(0, Some(0)), Lock(0, now), ReleaseFailure(0, now)],
              [Arrive(false), Pick(1, Some(0)), Lock(1, now), ReleaseFailure(1, now)]);
  }

  /** Two users can fail on one session before either trips it; the second trip then
      moves the stamp of a session that is out and that nobody holds. */
  lemma TrippedTwice(cfg: Config, now: int, later: int)
    requires 1 <= cfg.maxFailures && now < later
    ensures var start := Pool(OneSession(None, cfg.maxFailures - 1, 0), []);
            var p := Run(start, cfg, TwoFailures(now) + [Trip(0, now)]);
            && p == Pool([Session(0, 0, false, false, Some(now), cfg.maxFailures + 1, now)], [Done, Tripping(0)])
            && Step(p, cfg, Trip(1, later)).sessions[0].updatedAt == later
  {
    var both := Pool(OneSession(Some(now), cfg.maxFailures + 1, now), [Tripping(0), Tripping(0)]);
    BothFail(cfg, now);
    assert [Trip(0, now)][1..] == [];
    assert Run(both, cfg, [Trip(0, now)]) == Step(both, cfg, Trip(0, now));
    RunConcat(Pool(OneSession(None, cfg.maxFailures - 1, 0), []), cfg, TwoFailures(now), [Trip(0, now)]);
  }

  lemma RunFour(p: Pool, cfg: Config, events: seq<Event>)
    requires WellFormed(p) && |events| == 4
    ensures Run(p, cfg, events) ==
            Step(Step(Step(Step(p, cfg, events[0]), cfg, events[1]), cfg, events[2]), cfg, events[3])
  {
    var p1 := Step(p, cfg, events[0]);
    var p2 := Step(p1, cfg, events[1]);
    var p3 := Step(p2, cfg, events[2]);
    assert events[1..][1..] == events[2..] && events[2..][1..] == events[3..];
    assert Run(p3, cfg, events[3..]) == Step(p3, cfg, events[3]);
    assert Run(p, cfg, events) == Run(p1, cfg, events[1..]) == Run(p2, cfg, events[2..]) == Run(p3, cfg, events[3..]);
  }
}
