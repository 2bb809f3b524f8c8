/** What `reactivateStale` relies on: that nothing else writes to the row of a session
    that is out, so that the row's stamp is the time it was taken out. */
module SessionStandstill {
  import opened Common
  import opened SessionPool

  // ---- Names ----

  /** The label column is unique. */
  ghost predicate DistinctNames(sessions: seq<Session>) {
    forall i, j :: 0 <= i < j < |sessions| ==> sessions[i].name != sessions[j].name
  }

  lemma StepKeepsNames(p: Pool, cfg: Config, e: Event)
    requires WellFormed(p) && DistinctNames(p.sessions)
    ensures DistinctNames(Step(p, cfg, e).sessions)
    ensures forall t :: 0 <= t < |p.sessions| ==> Step(p, cfg, e).sessions[t].name == p.sessions[t].name
  {
    if e.FinishLogin? {
      var found := FindName(p.sessions, e.account);
    }
  }

  /** Every state of every run from a pool at rest whose rows have different labels. */
  lemma {:induction false} RunKeepsNames(p: Pool, cfg: Config, events: seq<Event>)
    requires WellFormed(p) && DistinctNames(p.sessions) && Exclusive(p)
    ensures DistinctNames(Run(p, cfg, events).sessions) && Exclusive(Run(p, cfg, events))
    decreases |events|
  {
    if events != [] {
      StepKeepsNames(p, cfg, events[0]);
      StepKeepsExclusive(p, cfg, events[0]);
      RunKeepsNames(Step(p, cfg, events[0]), cfg, events[1..]);
    }
  }

  // ---- Runs in which the row should stand still ----

  /** The clock is not behind any stamp. */
  predicate Timely(p: Pool, e: Event) {
    HasClock(e) ==> forall t :: 0 <= t < |p.sessions| ==> p.sessions[t].updatedAt <= e.now
  }

  /** A timely step that is not the reactivation of session s. */
  predicate Spares(p: Pool, cfg: Config, e: Event, s: nat)
    requires s < |p.sessions|
  {
    Timely(p, e) && (e.Reactivate? ==> !Stale(p.sessions[s], e.now - cfg.cooldownMs))
  }

  predicate SparingRun(p: Pool, cfg: Config, events: seq<Event>, s: nat)
    requires WellFormed(p) && s < |p.sessions|
  {
    OtherSteps(p, cfg, events, s) == 0
  }

  /** The steps that do not spare the row. */
  function OtherSteps(p: Pool, cfg: Config, events: seq<Event>, s: nat): nat
    requires WellFormed(p) && s < |p.sessions|
    decreases |events|
  {
    if events == [] then 0
    else (if Spares(p, cfg, events[0], s) then 0 else 1) + OtherSteps(Step(p, cfg, events[0]), cfg, events[1..], s)
  }

  /** Nothing but its own reactivation ever writes to the row of session s. */
  ghost predicate StandsStill(p: Pool, cfg: Config, s: nat)
    requires WellFormed(p) && s < |p.sessions|
  {
    forall events: seq<Event> :: SparingRun(p, cfg, events, s) ==> Run(p, cfg, events).sessions[s] == p.sessions[s]
  }

  // ---- Who can write to it ----

  /** A user with a write to session s ahead of it: its own, or a login under s's label. */
  predicate WritesTo(user: User, s: nat, name: nat) {
    HoldsSession(user, s) || user == Tripping(s) || (user.Holding? && name in user.logins)
  }

  /** Session t is out as well, since earlier than session s, and can still come back before it. */
  predicate BackBefore(p: Pool, cfg: Config, t: nat, s: nat)
    requires s < |p.sessions| && t < |p.sessions|
  {
    && p.sessions[t].updatedAt < p.sessions[s].updatedAt
    && forall r :: 0 <= r < |p.sessions| ==> p.sessions[r].updatedAt < p.sessions[s].updatedAt + cfg.cooldownMs
  }

  /** Session t is of the account under whose label s is stored, and somebody works
      with it or can come to do so before s is reactivated. */
  predicate LogsInFor(p: Pool, cfg: Config, t: nat, s: nat)
    requires s < |p.sessions| && t < |p.sessions|
  {
    && t != s && p.sessions[t].account == p.sessions[s].name
    && (p.sessions[t].active || p.sessions[t].busy || BackBefore(p, cfg, t, s))
  }

  predicate Undisturbed(p: Pool, cfg: Config, s: nat)
    requires s < |p.sessions|
  {
    && (forall u :: 0 <= u < |p.users| ==> !WritesTo(p.users[u], s, p.sessions[s].name))
    && (forall t :: 0 <= t < |p.sessions| ==> !LogsInFor(p, cfg, t, s))
  }

  // ---- Undisturbed, it stands still ----

  lemma HeldIsBusy(p: Pool, u: nat)
    requires WellFormed(p) && Exclusive(p) && u < |p.users| && p.users[u].Holding?
    ensures p.sessions[p.users[u].s].busy
  {
    var s := p.users[u].s;
    SumCoversRow(p.users, u, Holds(s));
  }

  lemma UndisturbedRowStays(p: Pool, cfg: Config, e: Event, s: nat)
    requires WellFormed(p) && DistinctNames(p.sessions)
    requires s < |p.sessions| && !p.sessions[s].active && Undisturbed(p, cfg, s) && Spares(p, cfg, e, s)
    ensures Step(p, cfg, e).sessions[s] == p.sessions[s]
  {
    if !e.Arrive? && !e.Reactivate? && e.u < |p.users| {
      assert !WritesTo(p.users[e.u], s, p.sessions[s].name);
    }
  }

  /** No step makes a user a writer to the row. */
  lemma NoNewWriter(p: Pool, cfg: Config, e: Event, s: nat, v: nat)
    requires WellFormed(p) && Exclusive(p)
    requires s < |p.sessions| && !p.sessions[s].active && Undisturbed(p, cfg, s)
    requires v < |Step(p, cfg, e).users|
    ensures !WritesTo(Step(p, cfg, e).users[v], s, p.sessions[s].name)
  {
    if v < |p.users| {
      assert !WritesTo(p.users[v], s, p.sessions[s].name);
      if e.BeginLogin? && p.users[v].Holding? {
        HeldIsBusy(p, v);
        assert !LogsInFor(p, cfg, p.users[v].s, s);
      }
    }
  }

  lemma NotBackBefore(p: Pool, cfg: Config, e: Event, t: nat, s: nat)
    requires WellFormed(p) && Timely(p, e) && t < |p.sessions| && s < |p.sessions|
    requires Step(p, cfg, e).sessions[s] == p.sessions[s] && !BackBefore(p, cfg, t, s)
    ensures !BackBefore(Step(p, cfg, e), cfg, t, s)
  {
    var p' := Step(p, cfg, e);
    if p.sessions[t].updatedAt < p.sessions[s].updatedAt {
      var r :| 0 <= r < |p.sessions| && p.sessions[s].updatedAt + cfg.cooldownMs <= p.sessions[r].updatedAt;
      assert p'.sessions[r].updatedAt >= p'.sessions[s].updatedAt + cfg.cooldownMs;
    }
  }

  /** A session only comes to have the account by having had it. */
  lemma AccountsOnlyLeave(p: Pool, cfg: Config, e: Event, s: nat, t: nat)
    requires WellFormed(p) && DistinctNames(p.sessions)
    requires s < |p.sessions| && t != s && t < |Step(p, cfg, e).sessions|
    requires Step(p, cfg, e).sessions[t].account == p.sessions[s].name
    ensures t < |p.sessions| && p.sessions[t].account == p.sessions[s].name
    ensures !p.sessions[t].active && !p.sessions[t].busy ==>
              || (e.Reactivate? && Stale(p.sessions[t], e.now - cfg.cooldownMs))
              || (!Step(p, cfg, e).sessions[t].active && !Step(p, cfg, e).sessions[t].busy)
  {
    if e.FinishLogin? {
      var found := FindName(p.sessions, e.account);
    }
  }

  /** Nor does it make a session one through which the account is logged in. */
  lemma NoNewLogin(p: Pool, cfg: Config, e: Event, s: nat, t: nat)
    requires WellFormed(p) && DistinctNames(p.sessions)
    requires s < |p.sessions| && !p.sessions[s].active && Undisturbed(p, cfg, s) && Spares(p, cfg, e, s)
    requires t < |Step(p, cfg, e).sessions|
    ensures !LogsInFor(Step(p, cfg, e), cfg, t, s)
  {
    var p' := Step(p, cfg, e);
    UndisturbedRowStays(p, cfg, e, s);
    if t != s && p'.sessions[t].account == p.sessions[s].name {
      AccountsOnlyLeave(p, cfg, e, s, t);
      assert !LogsInFor(p, cfg, t, s);
      NotBackBefore(p, cfg, e, t, s);
    }
  }

  lemma {:induction false} UndisturbedStands(p: Pool, cfg: Config, events: seq<Event>, s: nat)
    requires WellFormed(p) && Exclusive(p) && DistinctNames(p.sessions)
    requires s < |p.sessions| && !p.sessions[s].active && Undisturbed(p, cfg, s) && SparingRun(p, cfg, events, s)
    ensures Run(p, cfg, events).sessions[s] == p.sessions[s]
    decreases |events|
  {
    if events != [] {
      var e := events[0];
      var p' := Step(p, cfg, e);
      UndisturbedRowStays(p, cfg, e, s);
      forall v | 0 <= v < |p'.users| ensures !WritesTo(p'.users[v], s, p.sessions[s].name) {
        NoNewWriter(p, cfg, e, s, v);
      }
      forall t | 0 <= t < |p'.sessions| ensures !LogsInFor(p', cfg, t, s) {
        NoNewLogin(p, cfg, e, s, t);
      }
      StepKeepsNames(p, cfg, e);
      StepKeepsExclusive(p, cfg, e);
      UndisturbedStands(p', cfg, events[1..], s);
    }
  }

  // ---- Disturbed, some run writes to it ----

  function Latest(sessions: seq<Session>): (r: int)
    requires sessions != []
    ensures forall t :: 0 <= t < |sessions| ==> sessions[t].updatedAt <= r
    ensures exists t :: 0 <= t < |sessions| && sessions[t].updatedAt == r
  {
    var n := |sessions| - 1;
    if n == 0 then sessions[0].updatedAt
    else
      var rest := Latest(sessions[..n]);
      if sessions[n].updatedAt <= rest then
        assert exists t :: 0 <= t < n && sessions[..n][t].updatedAt == rest;
        rest
      else sessions[n].updatedAt
  }

  /** Some run without its reactivation writes to the row of session s. */
  ghost predicate CanMove(p: Pool, cfg: Config, s: nat)
    requires WellFormed(p) && s < |p.sessions|
  {
    exists events: seq<Event> :: SparingRun(p, cfg, events, s) && Run(p, cfg, events).sessions[s] != p.sessions[s]
  }

  lemma MovesNow(p: Pool, cfg: Config, e: Event, s: nat)
    requires WellFormed(p) && s < |p.sessions| && Spares(p, cfg, e, s)
    requires Step(p, cfg, e).sessions[s] != p.sessions[s]
    ensures CanMove(p, cfg, s)
  {
    assert [e][1..] == [];
    assert Run(p, cfg, [e]) == Step(p, cfg, e);
    assert SparingRun(p, cfg, [e], s);
  }

  lemma MovesLater(p: Pool, cfg: Config, e: Event, s: nat)
    requires WellFormed(p) && s < |p.sessions| && Spares(p, cfg, e, s)
    requires Step(p, cfg, e).sessions[s] == p.sessions[s] && CanMove(Step(p, cfg, e), cfg, s)
    ensures CanMove(p, cfg, s)
  {
    var p1 := Step(p, cfg, e);
    var events: seq<Event> :| SparingRun(p1, cfg, events, s) && Run(p1, cfg, events).sessions[s] != p1.sessions[s];
    assert ([e] + events)[1..] == events;
    assert SparingRun(p, cfg, [e] + events, s);
  }

  /** Its holder, a user about to trip it, or a login that ends under its label. */
  lemma WriterMoves(p: Pool, cfg: Config, s: nat, u: nat)
    requires WellFormed(p) && DistinctNames(p.sessions)
    requires s < |p.sessions| && !p.sessions[s].active
    requires u < |p.users| && WritesTo(p.users[u], s, p.sessions[s].name)
    ensures CanMove(p, cfg, s)
  {
    var now := Latest(p.sessions) + 1;
    var e;
    if p.users[u] == Tripping(s) {
      e := Trip(u, now);
    } else if HoldsSession(p.users[u], s) {
      e := Touch(u, now);
    } else {
      e := FinishLogin(u, p.sessions[s].name, now);
      var found := FindName(p.sessions, p.sessions[s].name);
    }
    assert Step(p, cfg, e).sessions[s].updatedAt == now;
    MovesNow(p, cfg, e, s);
  }

  /** The holder of another session of the account logs it in. */
  lemma HolderMoves(p: Pool, cfg: Config, s: nat, u: nat)
    requires WellFormed(p) && DistinctNames(p.sessions)
    requires s < |p.sessions| && !p.sessions[s].active
    requires u < |p.users| && p.users[u].Holding? && p.sessions[p.users[u].s].account == p.sessions[s].name
    ensures CanMove(p, cfg, s)
  {
    WriterMoves(Step(p, cfg, BeginLogin(u)), cfg, s, u);
    MovesLater(p, cfg, BeginLogin(u), s);
  }

  /** A user arrives and takes session c, the least recently used one. */
  function Taken(p: Pool, c: nat, now: int): (p': Pool)
    requires WellFormed(p) && c < |p.sessions|
    ensures WellFormed(p')
  {
    Pool(Locked(p.sessions, c, now), p.users + [Holding(c, multiset{})])
  }

  lemma TakingMoves(p: Pool, cfg: Config, s: nat, c: nat, now: int)
    requires WellFormed(p) && s < |p.sessions| && !p.sessions[s].active && IsLeastRecentlyUsed(p.sessions, c)
    requires forall t :: 0 <= t < |p.sessions| ==> p.sessions[t].updatedAt <= now
    requires CanMove(Taken(p, c, now), cfg, s)
    ensures CanMove(p, cfg, s)
  {
    var u := |p.users|;
    var p1 := Step(p, cfg, Arrive(false));
    var p2 := Step(p1, cfg, Pick(u, Some(c)));
    assert p2 == Pool(p.sessions, p.users + [RealtimePicked(c)]);
    assert Step(p2, cfg, Lock(u, now)) == Taken(p, c, now);
    MovesLater(p2, cfg, Lock(u, now), s);
    MovesLater(p1, cfg, Pick(u, Some(c)), s);
    MovesLater(p, cfg, Arrive(false), s);
  }

  /** A free session of the account can be reached by taking the free ones that were
      used before it, and its holder can log it in. */
  lemma {:induction false} FreeMoves(p: Pool, cfg: Config, s: nat, t: nat)
    requires WellFormed(p) && DistinctNames(p.sessions)
    requires s < |p.sessions| && !p.sessions[s].active
    requires t < |p.sessions| && Free(p.sessions[t]) && p.sessions[t].account == p.sessions[s].name
    ensures CanMove(p, cfg, s)
    decreases FreeCount(p.sessions)
  {
    var c := LeastRecentlyUsed(p.sessions, t);
    var now := Latest(p.sessions);
    var taken := Taken(p, c, now);
    if c == t {
      HolderMoves(taken, cfg, s, |p.users|);
    } else {
      SumNonNegative(p.sessions, FreeWeight());
      SumNonNegative(taken.sessions, FreeWeight());
      SumUpdate(p.sessions, c, taken.sessions[c], FreeWeight());
      FreeMoves(taken, cfg, s, t);
    }
    TakingMoves(p, cfg, s, c, now);
  }

  lemma {:induction false} LeastRecentlyUsed(sessions: seq<Session>, t: nat) returns (c: nat)
    requires t < |sessions| && Free(sessions[t])
    ensures IsLeastRecentlyUsed(sessions, c)
  {
    var n := |sessions| - 1;
    if exists r :: 0 <= r < n && Free(sessions[r]) {
      var r :| 0 <= r < n && Free(sessions[r]);
      c := LeastRecentlyUsed(sessions[..n], r);
      assert forall t :: 0 <= t < n ==> sessions[..n][t] == sessions[t];
      if Free(sessions[n]) && UsedBefore(sessions[n].lastUsedAt, sessions[c].lastUsedAt) {
        c := n;
      }
    } else {
      c := t;
    }
  }

  lemma BackBeforeMoves(p: Pool, cfg: Config, s: nat, t: nat)
    requires WellFormed(p) && DistinctNames(p.sessions)
    requires s < |p.sessions| && !p.sessions[s].active
    requires t < |p.sessions| && !p.sessions[t].active && !p.sessions[t].busy
    requires p.sessions[t].account == p.sessions[s].name && BackBefore(p, cfg, t, s)
    ensures CanMove(p, cfg, s)
  {
    var latest := Latest(p.sessions);
    var due := p.sessions[t].updatedAt + cfg.cooldownMs;
    var e := Reactivate(if latest <= due then due else latest);
    FreeMoves(Step(p, cfg, e), cfg, s, t);
    MovesLater(p, cfg, e, s);
  }

  lemma DisturbedMoves(p: Pool, cfg: Config, s: nat)
    requires WellFormed(p) && Exclusive(p) && DistinctNames(p.sessions)
    requires s < |p.sessions| && !p.sessions[s].active && !Undisturbed(p, cfg, s)
    ensures CanMove(p, cfg, s)
  {
    if u: nat :| u < |p.users| && WritesTo(p.users[u], s, p.sessions[s].name) {
      WriterMoves(p, cfg, s, u);
    } else {
      var t: nat :| t < |p.sessions| && LogsInFor(p, cfg, t, s);
      if p.sessions[t].busy {
        assert Sum(p.users, Holds(t)) == 1;
        var u := SumHasRow(p.users, Holds(t));
        HolderMoves(p, cfg, s, u);
      } else if p.sessions[t].active {
        FreeMoves(p, cfg, s, t);
      } else {
        BackBeforeMoves(p, cfg, s, t);
      }
    }
  }

  /** In every state of every run from a pool at rest with different labels: the row of
      a session that is out stands still until its reactivation exactly when nobody
      holds it, trips it or is logging in under its label, and no other session of
      that account is active, held, or back before it. */
  lemma StandsStillIff(start: Pool, cfg: Config, before: seq<Event>, s: nat)
    requires AtRest(start) && DistinctNames(start.sessions)
    requires var p := Run(start, cfg, before); s < |p.sessions| && !p.sessions[s].active
    ensures var p := Run(start, cfg, before); StandsStill(p, cfg, s) <==> Undisturbed(p, cfg, s)
  {
    RunKeepsNames(start, cfg, before);
    var p := Run(start, cfg, before);
    if Undisturbed(p, cfg, s) {
      forall events: seq<Event> | SparingRun(p, cfg, events, s)
        ensures Run(p, cfg, events).sessions[s] == p.sessions[s]
      {
        UndisturbedStands(p, cfg, events, s);
      }
    } else {
      DisturbedMoves(p, cfg, s);
    }
  }

  /** Two sessions of account 1: the free one stored under label 0, and one that is out,
      stored under label 1 as logins of that account are. */
  function TwoOfAnAccount(cfg: Config): Pool {
    Pool([Session(0, 1, true, false, None, 0, 0), Session(1, 1, false, false, None, cfg.maxFailures, 0)], [])
  }

  lemma TakesTheFreeOne(cfg: Config, now: nat)
    ensures Run(TwoOfAnAccount(cfg), cfg, [Arrive(false), Pick(0, Some(0)), Lock(0, now), BeginLogin(0)]) ==
            Pool([Session(0, 1, true, true, Some(now), 0, now), TwoOfAnAccount(cfg).sessions[1]], [Holding(0, multiset{1})])
  {
    var start := TwoOfAnAccount(cfg);
    RunFour(start, cfg, [Arrive(false), Pick(0, Some(0)), Lock(0, now), BeginLogin(0)]);
    var p1 := Step(start, cfg, Arrive(false));
    assert IsLeastRecentlyUsed(p1.sessions, 0);
    var p2 := Step(p1, cfg, Pick(0, Some(0)));
    assert p2.users == [RealtimePicked(0)];
    var p3 := Step(p2, cfg, Lock(0, now));
    assert p3.users == [Holding(0, multiset{})];
    assert multiset{} + multiset{1} == multiset{1};
  }

  /** A user takes the free session and has to log its account in: the session that is
      out is active again, without any reactivation and with nobody having touched it. */
  lemma LoggedInWhileOut(cfg: Config, now: nat)
    ensures var events := [Arrive(false), Pick(0, Some(0)), Lock(0, now), BeginLogin(0)] + [FinishLogin(0, 1, now)];
            var p := Run(TwoOfAnAccount(cfg), cfg, events);
            AtRest(TwoOfAnAccount(cfg)) && p.sessions[1] == Session(1, 1, true, false, Some(now), 0, now)
  {
    var last := FinishLogin(0, 1, now);
    TakesTheFreeOne(cfg, now);
    var p := Run(TwoOfAnAccount(cfg), cfg, [Arrive(false), Pick(0, Some(0)), Lock(0, now), BeginLogin(0)]);
    RunConcat(TwoOfAnAccount(cfg), cfg, [Arrive(false), Pick(0, Some(0)), Lock(0, now), BeginLogin(0)], [last]);
    assert [last][1..] == [];
    assert Run(p, cfg, [last]) == Step(p, cfg, last);
    assert FindName(p.sessions, 1) == Some(1);
  }
}
