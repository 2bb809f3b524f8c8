/** The promise of `acquireForHunter` with everybody at work: what a hunter leaves
    free for real-time users at the moment it locks its session, in runs with any
    number of hunters, real-time users, releases, breaker trips and reactivations. */
module SessionPromise {
  import opened Common
  import opened SessionPool
  import opened SessionReserve

  /** A step that takes a free session away: a successful lock, by anybody, or the
      breaker taking out a session that nobody holds. */
  function Takes(p: Pool, e: Event): int
    requires WellFormed(p)
  {
    if (e.Lock? || e.Trip?) && e.u < |p.users| then
      var user := p.users[e.u];
      if ((e.Lock? && (user.RealtimePicked? || user.HunterPicked?)) || (e.Trip? && user.Tripping?))
         && Free(p.sessions[user.s]) then 1 else 0
    else 0
  }

  function Takings(p: Pool, cfg: Config, events: seq<Event>): int
    requires WellFormed(p)
    decreases |events|
  {
    if events == [] then 0 else Takes(p, events[0]) + Takings(Step(p, cfg, events[0]), cfg, events[1..])
  }

  lemma StepFree(p: Pool, cfg: Config, e: Event)
    requires WellFormed(p)
    ensures FreeCount(p.sessions) - Takes(p, e) <= FreeCount(Step(p, cfg, e).sessions)
  {
    var sessions := Step(p, cfg, e).sessions;
    if e.Reactivate? {
      SumGrowsPointwise(p.sessions, sessions, FreeWeight());
    } else if e.FinishLogin? {
      LoginKeepsFree(p.sessions, e.account, e.now);
    } else if !e.Arrive? && e.u < |p.users| && sessions != p.sessions {
      var s := p.users[e.u].s;
      SumUpdate(p.sessions, s, sessions[s], FreeWeight());
      assert p.sessions[s := sessions[s]] == sessions;
    }
  }

  lemma {:induction false} RunFree(p: Pool, cfg: Config, events: seq<Event>)
    requires WellFormed(p)
    ensures FreeCount(p.sessions) - Takings(p, cfg, events) <= FreeCount(Run(p, cfg, events).sessions)
    decreases |events|
  {
    if events != [] {
      StepFree(p, cfg, events[0]);
      RunFree(Step(p, cfg, events[0]), cfg, events[1..]);
    }
  }

  lemma {:induction false} DoneStays(p: Pool, cfg: Config, events: seq<Event>, u: nat)
    requires WellFormed(p) && u < |p.users| && p.users[u] == Done
    ensures u < |Run(p, cfg, events).users| && Run(p, cfg, events).users[u] == Done
    decreases |events|
  {
    if events != [] {
      DoneStays(Step(p, cfg, events[0]), cfg, events[1..], u);
    }
  }

  // ---- The promise ----

  /** User u is a hunter whose lock is about to succeed. */
  predicate LocksNext(p: Pool, u: nat)
    requires WellFormed(p)
  {
    u < |p.users| && p.users[u].HunterPicked? && Free(p.sessions[p.users[u].s])
  }

  /** Hunter u counts in state p, everybody does anything, hunter u locks: it leaves
      the reserve less what was taken in between. */
  lemma HunterLeaves(p: Pool, cfg: Config, u: nat, between: seq<Event>, now: int)
    requires WellFormed(p) && u < |p.users| && p.users[u] == HunterArrived
    requires LocksNext(Run(Step(p, cfg, Event.Count(u)), cfg, between), u)
    ensures var p1 := Step(p, cfg, Event.Count(u));
            cfg.reserved - Takings(p1, cfg, between) <=
            FreeCount(Step(Run(p1, cfg, between), cfg, Lock(u, now)).sessions)
  {
    var p1 := Step(p, cfg, Event.Count(u));
    if p1.users[u] == Done {
      DoneStays(p1, cfg, between, u);
    } else {
      RunFree(p1, cfg, between);
      StepFree(Run(p1, cfg, between), cfg, Lock(u, now));
    }
  }

  /** Hunter u's acquisition within a run from a pool at rest, with at most k sessions
      taken between its count and its lock. */
  ghost predicate Acquires(start: Pool, cfg: Config, before: seq<Event>, u: nat, between: seq<Event>, k: nat) {
    && AtRest(start)
    && var p := Run(start, cfg, before);
       && u < |p.users| && p.users[u] == HunterArrived
       && LocksNext(Run(Step(p, cfg, Event.Count(u)), cfg, between), u)
       && Takings(Step(p, cfg, Event.Count(u)), cfg, between) <= k
  }

  ghost function LeftFree(start: Pool, cfg: Config, before: seq<Event>, u: nat, between: seq<Event>, now: int): int
    requires WellFormed(start)
  {
    FreeCount(Step(Run(Step(Run(start, cfg, before), cfg, Event.Count(u)), cfg, between), cfg, Lock(u, now)).sessions)
  }

  ghost predicate ReserveLeft(cfg: Config, k: nat) {
    forall start: Pool, before: seq<Event>, u: nat, between: seq<Event>, now: int ::
      Acquires(start, cfg, before, u, between, k) ==> cfg.reserved <= LeftFree(start, cfg, before, u, between, now)
  }

  // ---- The bound is attained by one hunter among real-time users ----

  /** One hunter that has counted, and m real-time users holding the first m sessions. */
  function Crowd(n: nat, m: nat): (p: Pool)
    requires m <= n
    ensures WellFormed(p)
  {
    Pool(Sessions(n, m), [HunterCounted] + seq(m, i requires 0 <= i < m => Holding(i, multiset{})))
  }

  function Rush(m: nat): seq<Event> {
    if m == 0 then [] else Rush(m - 1) + [Arrive(false), Pick(m, Some(m - 1)), Lock(m, T0)]
  }

  lemma {:induction false} TakingsConcat(p: Pool, cfg: Config, a: seq<Event>, b: seq<Event>)
    requires WellFormed(p)
    ensures Takings(p, cfg, a + b) == Takings(p, cfg, a) + Takings(Run(p, cfg, a), cfg, b)
    decreases |a|
  {
    if a == [] {
      assert a + b == b;
    } else {
      assert (a + b)[1..] == a[1..] + b;
      TakingsConcat(Step(p, cfg, a[0]), cfg, a[1..], b);
    }
  }

  lemma TakingsThree(p: Pool, cfg: Config, a: Event, b: Event, c: Event)
    requires WellFormed(p)
    ensures Takings(p, cfg, [a, b, c]) ==
            Takes(p, a) + Takes(Step(p, cfg, a), b) + Takes(Step(Step(p, cfg, a), cfg, b), c)
  {
    assert [a, b, c][1..] == [b, c] && [b, c][1..] == [c] && [c][1..] == [];
    var p1 := Step(p, cfg, a);
    assert Takings(p1, cfg, [b, c]) == Takes(p1, b) + Takings(Step(p1, cfg, b), cfg, [c]);
  }

  lemma RealtimeUserTakes(n: nat, m: nat, cfg: Config)
    requires m < n
    ensures var p := Crowd(n, m);
            var events := [Arrive(false), Pick(m + 1, Some(m)), Lock(m + 1, T0)];
            Run(p, cfg, events) == Crowd(n, m + 1) && Takings(p, cfg, events) == 1
  {
    var p := Crowd(n, m);
    var arrive, pick, lock := Arrive(false), Pick(m + 1, Some(m)), Lock(m + 1, T0);
    RunThree(p, cfg, arrive, pick, lock);
    TakingsThree(p, cfg, arrive, pick, lock);
    var p1 := Step(p, cfg, arrive);
    assert IsLeastRecentlyUsed(p1.sessions, m);
    var p2 := Step(p1, cfg, pick);
    assert p2.users == p1.users[m + 1 := RealtimePicked(m)];
    assert Step(p2, cfg, lock).sessions == Sessions(n, m + 1);
    assert Step(p2, cfg, lock).users == Crowd(n, m + 1).users;
  }

  lemma {:induction false} RushTakes(n: nat, m: nat, cfg: Config)
    requires m <= n
    ensures Run(Crowd(n, 0), cfg, Rush(m)) == Crowd(n, m) && Takings(Crowd(n, 0), cfg, Rush(m)) == m
  {
    if m != 0 {
      var one := [Arrive(false), Pick(m, Some(m - 1)), Lock(m, T0)];
      RushTakes(n, m - 1, cfg);
      RealtimeUserTakes(n, m - 1, cfg);
      RunConcat(Crowd(n, 0), cfg, Rush(m - 1), one);
      TakingsConcat(Crowd(n, 0), cfg, Rush(m - 1), one);
    }
  }

  lemma HunterCountsFirst(n: nat, cfg: Config)
    requires cfg.reserved < n
    ensures var start := Pool(Sessions(n, 0), []);
            AtRest(start) && Run(start, cfg, [Arrive(true)]) == Pool(Sessions(n, 0), [HunterArrived])
    ensures Step(Pool(Sessions(n, 0), [HunterArrived]), cfg, Event.Count(0)) == Crowd(n, 0)
  {
    var start := Pool(Sessions(n, 0), []);
    assert [Arrive(true)][1..] == [];
    assert Run(start, cfg, [Arrive(true)]) == Step(start, cfg, Arrive(true));
    FreeInScene(n, 0);
    assert Crowd(n, 0).users == [HunterCounted];
  }

  lemma HunterPicksLast(n: nat, k: nat, cfg: Config, now: int)
    requires k < n
    ensures var p := Run(Crowd(n, k), cfg, [Pick(0, Some(k))]);
            && LocksNext(p, 0) && Takings(Crowd(n, k), cfg, [Pick(0, Some(k))]) == 0
            && FreeCount(Step(p, cfg, Lock(0, now)).sessions) == n - k - 1
  {
    var p := Crowd(n, k);
    assert IsLeastRecentlyUsed(p.sessions, k);
    assert [Pick(0, Some(k))][1..] == [];
    var p1 := Step(p, cfg, Pick(0, Some(k)));
    assert Run(p, cfg, [Pick(0, Some(k))]) == p1;
    FreeInScene(n, k);
    SumUpdate(p1.sessions, k, Step(p1, cfg, Lock(0, now)).sessions[k], FreeWeight());
  }

  /** One hunter, k real-time users: it leaves exactly k fewer than the reserve. */
  lemma HunterLeavesAttained(cfg: Config, k: nat, now: int)
    returns (start: Pool, before: seq<Event>, between: seq<Event>)
    requires k <= cfg.reserved
    ensures Acquires(start, cfg, before, 0, between, k)
    ensures LeftFree(start, cfg, before, 0, between, now) == cfg.reserved - k
  {
    var n := cfg.reserved + 1;
    start, before, between := Pool(Sessions(n, 0), []), [Arrive(true)], Rush(k) + [Pick(0, Some(k))];
    HunterCountsFirst(n, cfg);
    RushTakes(n, k, cfg);
    HunterPicksLast(n, k, cfg, now);
    RunConcat(Crowd(n, 0), cfg, Rush(k), [Pick(0, Some(k))]);
    TakingsConcat(Crowd(n, 0), cfg, Rush(k), [Pick(0, Some(k))]);
  }

  /** Hunters always leave the reserve free exactly when nobody takes a session
      between a hunter's count and its lock, or nothing is reserved. */
  lemma ReserveLeftIff(cfg: Config, k: nat)
    ensures ReserveLeft(cfg, k) <==> k == 0 || cfg.reserved == 0
  {
    if k == 0 || cfg.reserved == 0 {
      forall start: Pool, before: seq<Event>, u: nat, between: seq<Event>, now: int
        | Acquires(start, cfg, before, u, between, k)
        ensures cfg.reserved <= LeftFree(start, cfg, before, u, between, now)
      {
        var p := Run(start, cfg, before);
        if k == 0 {
          HunterLeaves(p, cfg, u, between, now);
        } else {
          SumNonNegative(Step(Run(Step(p, cfg, Event.Count(u)), cfg, between), cfg, Lock(u, now)).sessions, FreeWeight());
        }
      }
    } else {
      var start, before, between := HunterLeavesAttained(cfg, 1, T0);
      assert Acquires(start, cfg, before, 0, between, k);
    }
  }
}
