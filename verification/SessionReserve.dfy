/** How far background hunters can eat into the sessions reserved for real-time
    users, when several of them stand between counting and locking. */
module SessionReserve {
  import opened Common
  import opened SessionPool

  function WindowWeight(): User -> int {
    (user: User) => if user == HunterCounted || user.HunterPicked? then 1 else 0
  }

  /** Hunters that have counted and have not yet locked. */
  function InWindow(p: Pool): int {
    Sum(p.users, WindowWeight())
  }

  /** A step of hunters alone: no real-time lock, no breaker trip, and at most k
      hunters in the window afterwards. */
  predicate QuietStep(p: Pool, cfg: Config, e: Event, k: nat)
    requires WellFormed(p)
  {
    && (e.Lock? && e.u < |p.users| ==> !p.users[e.u].RealtimePicked?)
    && !e.Trip?
    && InWindow(Step(p, cfg, e)) <= k
  }

  /** The steps of a run that are not such steps. */
  function Disturbances(p: Pool, cfg: Config, events: seq<Event>, k: nat): nat
    requires WellFormed(p)
    decreases |events|
  {
    if events == [] then 0
    else (if QuietStep(p, cfg, events[0], k) then 0 else 1) + Disturbances(Step(p, cfg, events[0]), cfg, events[1..], k)
  }

  predicate QuietRun(p: Pool, cfg: Config, events: seq<Event>, k: nat)
    requires WellFormed(p)
  {
    Disturbances(p, cfg, events, k) == 0
  }

  /** A login takes no free session away, whichever row it is stored in. */
  lemma LoginKeepsFree(sessions: seq<Session>, account: nat, now: int)
    ensures FreeCount(sessions) <= FreeCount(LoggedIn(sessions, account, now))
  {
    var after := LoggedIn(sessions, account, now);
    match FindName(sessions, account)
    case Some(t) => SumUpdate(sessions, t, after[t], FreeWeight());
    case None => SumAppend(sessions, after[|sessions|], FreeWeight());
  }

  /** Free sessions less hunters in the window never drop below `floor`. */
  lemma UserStepKeepsFloor(p: Pool, cfg: Config, e: Event, u: nat, k: nat, floor: int)
    requires WellFormed(p) && u < |p.users| && !e.Arrive? && !e.Reactivate? && e.u == u
    requires QuietStep(p, cfg, e, k)
    requires floor <= cfg.reserved + 1 - k
    requires floor <= FreeCount(p.sessions) - InWindow(p)
    ensures floor <= FreeCount(Step(p, cfg, e).sessions) - InWindow(Step(p, cfg, e))
  {
    var user := p.users[u];
    var p' := Step(p, cfg, e);
    SumUpdate(p.users, u, p'.users[u], WindowWeight());
    assert p.users[u := p'.users[u]] == p'.users;
    if e.FinishLogin? {
      LoginKeepsFree(p.sessions, e.account, e.now);
    } else if user.RealtimePicked? || user.HunterPicked? || user.Holding? || user.Tripping? {
      SumUpdate(p.sessions, user.s, p'.sessions[user.s], FreeWeight());
      assert p.sessions[user.s := p'.sessions[user.s]] == p'.sessions;
    }
  }

  lemma QuietStepKeepsFloor(p: Pool, cfg: Config, e: Event, k: nat, floor: int)
    requires WellFormed(p) && QuietStep(p, cfg, e, k)
    requires floor <= cfg.reserved + 1 - k
    requires floor <= FreeCount(p.sessions) - InWindow(p)
    ensures floor <= FreeCount(Step(p, cfg, e).sessions) - InWindow(Step(p, cfg, e))
  {
    var p' := Step(p, cfg, e);
    if e.Arrive? {
      SumAppend(p.users, p'.users[|p.users|], WindowWeight());
    } else if e.Reactivate? {
      SumGrowsPointwise(p.sessions, p'.sessions, FreeWeight());
    } else if e.u < |p.users| {
      UserStepKeepsFloor(p, cfg, e, e.u, k, floor);
    }
  }

  lemma {:induction false} QuietRunKeepsFloor(p: Pool, cfg: Config, events: seq<Event>, k: nat, floor: int)
    requires WellFormed(p) && QuietRun(p, cfg, events, k)
    requires floor <= cfg.reserved + 1 - k
    requires floor <= FreeCount(p.sessions) - InWindow(p)
    ensures floor <= FreeCount(Run(p, cfg, events).sessions) - InWindow(Run(p, cfg, events))
    decreases |events|
  {
    if events != [] {
      QuietStepKeepsFloor(p, cfg, events[0], k, floor);
      QuietRunKeepsFloor(Step(p, cfg, events[0]), cfg, events[1..], k, floor);
    }
  }

  /** With at most k hunters in the window, free sessions never drop below
      reserved + 1 - k, or below what was free to begin with if that is less. */
  lemma ReserveBound(p: Pool, cfg: Config, events: seq<Event>, k: nat)
    requires AtRest(p) && QuietRun(p, cfg, events, k)
    ensures Min(FreeCount(p.sessions), cfg.reserved + 1 - k) <= FreeCount(Run(p, cfg, events).sessions)
  {
    var floor := Min(FreeCount(p.sessions), cfg.reserved + 1 - k);
    QuietRunKeepsFloor(p, cfg, events, k, floor);
    SumNonNegative(Run(p, cfg, events).users, WindowWeight());
  }

  // ---- The bound is attained ----

  const T0 := 1_000

  /** Session i, last used at time i, free or locked at T0. */
  function SessionAt(i: nat, locked: bool): Session {
    Session(i, i, true, locked, Some(if locked then T0 else i), 0, if locked then T0 else i)
  }

  /** n sessions, the first m of them locked by the first m users. */
  function Sessions(n: nat, m: nat): (r: seq<Session>)
    ensures |r| == n && forall i :: 0 <= i < n ==> r[i] == SessionAt(i, i < m)
  {
    seq(n, i requires 0 <= i < n => SessionAt(i, i < m))
  }

  /** k users: the first m hold a session, the next have counted, from c on they
      have only arrived. */
  function Users(k: nat, m: nat, c: nat): (r: seq<User>)
    ensures |r| == k
    ensures forall u :: 0 <= u < k ==>
                          r[u] == if u < m then Holding(u, multiset{}) else if u < c then HunterCounted else HunterArrived
  {
    seq(k, u requires 0 <= u < k => if u < m then Holding(u, multiset{}) else if u < c then HunterCounted else HunterArrived)
  }

  function Scene(n: nat, k: nat, m: nat, c: nat): (p: Pool)
    requires m <= n
    ensures WellFormed(p)
  {
    Pool(Sessions(n, m), Users(k, m, c))
  }

  lemma {:induction false} SceneCounts(n: nat, k: nat, m: nat, c: nat)
    requires m <= c <= k && m <= n
    ensures FreeCount(Scene(n, k, m, c).sessions) == n - m
    ensures InWindow(Scene(n, k, m, c)) == c - m
  {
    FreeInScene(n, m);
    WindowInScene(k, m, c);
  }

  lemma {:induction false} FreeInScene(n: nat, m: nat)
    ensures FreeCount(Sessions(n, m)) == if m <= n then n - m else 0
  {
    if n != 0 {
      FreeInScene(n - 1, m);
      assert Sessions(n, m)[..n - 1] == Sessions(n - 1, m);
    }
  }

  lemma {:induction false} WindowInScene(k: nat, m: nat, c: nat)
    requires m <= c
    ensures Sum(Users(k, m, c), WindowWeight()) == if c <= k then c - m else if m <= k then k - m else 0
  {
    if k != 0 {
      WindowInScene(k - 1, m, c);
      assert Users(k, m, c)[..k - 1] == Users(k - 1, m, c);
    }
  }

  function Arrivals(k: nat): seq<Event> {
    if k == 0 then [] else Arrivals(k - 1) + [Arrive(true)]
  }

  function Counts(c: nat): seq<Event> {
    if c == 0 then [] else Counts(c - 1) + [Event.Count(c - 1)]
  }

  function Locks(m: nat): seq<Event> {
    if m == 0 then [] else Locks(m - 1) + [Pick(m - 1, Some(m - 1)), Lock(m - 1, T0)]
  }

  lemma {:induction false} DisturbancesConcat(p: Pool, cfg: Config, a: seq<Event>, b: seq<Event>, k: nat)
    requires WellFormed(p)
    ensures Disturbances(p, cfg, a + b, k) == Disturbances(p, cfg, a, k) + Disturbances(Run(p, cfg, a), cfg, b, k)
    decreases |a|
  {
    if a == [] {
      assert a + b == b;
    } else {
      assert (a + b)[1..] == a[1..] + b;
      DisturbancesConcat(Step(p, cfg, a[0]), cfg, a[1..], b, k);
    }
  }

  lemma QuietConcat(p: Pool, cfg: Config, a: seq<Event>, b: seq<Event>, k: nat)
    requires WellFormed(p)
    requires QuietRun(p, cfg, a, k) && QuietRun(Run(p, cfg, a), cfg, b, k)
    ensures QuietRun(p, cfg, a + b, k) && Run(p, cfg, a + b) == Run(Run(p, cfg, a), cfg, b)
  {
    DisturbancesConcat(p, cfg, a, b, k);
    RunConcat(p, cfg, a, b);
  }

  lemma ArrivalReaches(n: nat, k: nat, cfg: Config, limit: nat)
    ensures QuietRun(Scene(n, k, 0, 0), cfg, [Arrive(true)], limit)
    ensures Run(Scene(n, k, 0, 0), cfg, [Arrive(true)]) == Scene(n, k + 1, 0, 0)
  {
    var p := Scene(n, k, 0, 0);
    assert p.users + [HunterArrived] == Users(k + 1, 0, 0);
    WindowInScene(k + 1, 0, 0);
  }

  lemma {:induction false} ArrivalsReach(n: nat, k: nat, cfg: Config, limit: nat)
    ensures QuietRun(Scene(n, 0, 0, 0), cfg, Arrivals(k), limit)
    ensures Run(Scene(n, 0, 0, 0), cfg, Arrivals(k)) == Scene(n, k, 0, 0)
  {
    if k != 0 {
      ArrivalsReach(n, k - 1, cfg, limit);
      ArrivalReaches(n, k - 1, cfg, limit);
      QuietConcat(Scene(n, 0, 0, 0), cfg, Arrivals(k - 1), [Arrive(true)], limit);
    }
  }

  lemma CountReaches(n: nat, k: nat, c: nat, cfg: Config)
    requires c < k && cfg.reserved < n
    ensures QuietRun(Scene(n, k, 0, c), cfg, [Event.Count(c)], k)
    ensures Run(Scene(n, k, 0, c), cfg, [Event.Count(c)]) == Scene(n, k, 0, c + 1)
  {
    var p := Scene(n, k, 0, c);
    SceneCounts(n, k, 0, c);
    SceneCounts(n, k, 0, c + 1);
    assert Step(p, cfg, Event.Count(c)).users == Users(k, 0, c + 1);
  }

  lemma {:induction false} CountsReach(n: nat, k: nat, c: nat, cfg: Config)
    requires c <= k && cfg.reserved < n
    ensures QuietRun(Scene(n, k, 0, 0), cfg, Counts(c), k)
    ensures Run(Scene(n, k, 0, 0), cfg, Counts(c)) == Scene(n, k, 0, c)
  {
    if c != 0 {
      CountsReach(n, k, c - 1, cfg);
      CountReaches(n, k, c - 1, cfg);
      var p, q, r := Scene(n, k, 0, 0), Scene(n, k, 0, c - 1), Scene(n, k, 0, c);
      var last := [Event.Count(c - 1)];
      assert Counts(c) == Counts(c - 1) + last;
      assert QuietRun(q, cfg, last, k) && Run(q, cfg, last) == r;
      QuietConcat(p, cfg, Counts(c - 1), last, k);
    }
  }

  function PickedScene(n: nat, k: nat, m: nat): Pool
    requires m < k
  {
    Pool(Sessions(n, m), Users(k, m, k)[m := HunterPicked(m)])
  }

  lemma PickReaches(n: nat, k: nat, m: nat, cfg: Config)
    requires m < k && m < n
    ensures QuietRun(Scene(n, k, m, k), cfg, [Pick(m, Some(m))], k)
    ensures Run(Scene(n, k, m, k), cfg, [Pick(m, Some(m))]) == PickedScene(n, k, m)
  {
    var p := Scene(n, k, m, k);
    assert IsLeastRecentlyUsed(p.sessions, m);
    SumUpdate(p.users, m, HunterPicked(m), WindowWeight());
    SceneCounts(n, k, m, k);
  }

  lemma LockOneReaches(n: nat, k: nat, m: nat, cfg: Config)
    requires m < k && m < n
    ensures QuietRun(PickedScene(n, k, m), cfg, [Lock(m, T0)], k)
    ensures Run(PickedScene(n, k, m), cfg, [Lock(m, T0)]) == Scene(n, k, m + 1, k)
  {
    var p := PickedScene(n, k, m);
    SceneCounts(n, k, m + 1, k);
    assert Step(p, cfg, Lock(m, T0)).sessions == Sessions(n, m + 1);
    assert Step(p, cfg, Lock(m, T0)).users == Users(k, m + 1, k);
  }

  lemma LockReaches(n: nat, k: nat, m: nat, cfg: Config)
    requires 0 < m <= k && m <= n
    ensures var p := Scene(n, k, m - 1, k);
            var events := [Pick(m - 1, Some(m - 1)), Lock(m - 1, T0)];
            QuietRun(p, cfg, events, k) && Run(p, cfg, events) == Scene(n, k, m, k)
  {
    var pick, lock := Pick(m - 1, Some(m - 1)), Lock(m - 1, T0);
    PickReaches(n, k, m - 1, cfg);
    LockOneReaches(n, k, m - 1, cfg);
    QuietConcat(Scene(n, k, m - 1, k), cfg, [pick], [lock], k);
    assert [pick] + [lock] == [pick, lock];
  }

  lemma {:induction false} LocksReach(n: nat, k: nat, m: nat, cfg: Config)
    requires m <= k && m <= n
    ensures QuietRun(Scene(n, k, 0, k), cfg, Locks(m), k)
    ensures Run(Scene(n, k, 0, k), cfg, Locks(m)) == Scene(n, k, m, k)
  {
    if m != 0 {
      LocksReach(n, k, m - 1, cfg);
      LockReaches(n, k, m, cfg);
      QuietConcat(Scene(n, k, 0, k), cfg, Locks(m - 1), [Pick(m - 1, Some(m - 1)), Lock(m - 1, T0)], k);
    }
  }

  /** k hunters that count before any of them locks take reserved + 1 free
      sessions down to exactly reserved + 1 - k. */
  lemma ReserveBoundAttained(cfg: Config, k: nat) returns (p: Pool, events: seq<Event>)
    requires k <= cfg.reserved + 1
    ensures AtRest(p) && QuietRun(p, cfg, events, k)
    ensures FreeCount(p.sessions) == cfg.reserved + 1
    ensures FreeCount(Run(p, cfg, events).sessions) == cfg.reserved + 1 - k
  {
    var n := cfg.reserved + 1;
    p := Scene(n, 0, 0, 0);
    events := Arrivals(k) + Counts(k) + Locks(k);
    ArrivalsReach(n, k, cfg, k);
    CountsReach(n, k, k, cfg);
    LocksReach(n, k, k, cfg);
    QuietConcat(p, cfg, Arrivals(k), Counts(k), k);
    QuietConcat(p, cfg, Arrivals(k) + Counts(k), Locks(k), k);
    SceneCounts(n, 0, 0, 0);
    SceneCounts(n, k, k, k);
  }

  /** What the pool promises: hunters always leave `reserved` sessions free,
      unless fewer were free to begin with. */
  ghost predicate PromiseKept(cfg: Config, k: nat) {
    forall p: Pool, events: seq<Event> :: AtRest(p) && QuietRun(p, cfg, events, k) ==>
      Min(FreeCount(p.sessions), cfg.reserved) <= FreeCount(Run(p, cfg, events).sessions)
  }

  /** The promise is kept exactly when at most one hunter at a time stands between
      counting and locking, or nothing is reserved. */
  lemma PromiseKeptIff(cfg: Config, k: nat)
    ensures PromiseKept(cfg, k) <==> k <= 1 || cfg.reserved == 0
  {
    if k <= 1 || cfg.reserved == 0 {
      forall p: Pool, events: seq<Event> | AtRest(p) && QuietRun(p, cfg, events, k)
        ensures Min(FreeCount(p.sessions), cfg.reserved) <= FreeCount(Run(p, cfg, events).sessions)
      {
        if k <= 1 {
          ReserveBound(p, cfg, events, k);
        } else {
          SumNonNegative(Run(p, cfg, events).sessions, FreeWeight());
        }
      }
    } else {
      var p, events := ReserveBoundAttained(cfg, 2);
      QuietRunWeaken(p, cfg, events, 2, k);
    }
  }

  lemma {:induction false} QuietRunWeaken(p: Pool, cfg: Config, events: seq<Event>, k: nat, l: nat)
    requires WellFormed(p) && k <= l && QuietRun(p, cfg, events, k)
    ensures QuietRun(p, cfg, events, l)
    decreases |events|
  {
    if events != [] {
      QuietRunWeaken(Step(p, cfg, events[0]), cfg, events[1..], k, l);
    }
  }
}
