/** The pool service over its table of sessions, one call after the other with
    nothing in between, and those calls' place among the runs of the interleaved
    model. */
module SessionPoolService {
  import opened Common
  import opened SessionPool

  datatype AcquireError = NoneFree | JustTaken

  /** A release: a failed one trips the breaker at the threshold. */
  function Released(sessions: seq<Session>, cfg: Config, s: nat, success: bool, now: int): seq<Session>
    requires s < |sessions|
  {
    if success then ReleasedOk(sessions, s, now)
    else if sessions[s].failureCount + 1 < cfg.maxFailures then ReleasedFailed(sessions, s, now)
    else Tripped(ReleasedFailed(sessions, s, now), s, now)
  }

  /** What a release leaves: the session is free, its failures are forgotten or one more,
      and it is out exactly when it was or has now failed often enough. */
  lemma ReleasedIff(sessions: seq<Session>, cfg: Config, s: nat, success: bool, now: int)
    requires s < |sessions|
    ensures var was, row := sessions[s], Released(sessions, cfg, s, success, now)[s];
            && !row.busy && row.updatedAt == now && row.lastUsedAt == was.lastUsedAt
            && row.name == was.name && row.account == was.account
            && row.failureCount == (if success then 0 else was.failureCount + 1)
            && (row.active <==> was.active && (success || was.failureCount + 1 < cfg.maxFailures))
    ensures forall t :: 0 <= t < |sessions| && t != s ==> Released(sessions, cfg, s, success, now)[t] == sessions[t]
    ensures |Released(sessions, cfg, s, success, now)| == |sessions|
  {
  }

  class MuadiSessionPoolService {
    var sessions: seq<Session>
    const cfg: Config

    constructor (sessions: seq<Session>, cfg: Config)
      ensures this.sessions == sessions && this.cfg == cfg
    {
      this.sessions, this.cfg := sessions, cfg;
    }

    /** `findFirst` over the free sessions by ascending `lastUsedAt`. */
    method FindFreeSession() returns (choice: Option<nat>)
      ensures ValidChoice(sessions, choice)
    {
      choice := None;
      var s := 0;
      while s < |sessions|
        invariant 0 <= s <= |sessions|
        invariant choice.None? ==> forall t :: 0 <= t < s ==> !Free(sessions[t])
        invariant choice.Some? ==> choice.value < s && Free(sessions[choice.value])
        invariant choice.Some? ==> forall t :: 0 <= t < s && Free(sessions[t]) ==>
                    !UsedBefore(sessions[t].lastUsedAt, sessions[choice.value].lastUsedAt)
      {
        if Free(sessions[s])
           && (choice.None? || UsedBefore(sessions[s].lastUsedAt, sessions[choice.value].lastUsedAt)) {
          choice := Some(s);
        }
        s := s + 1;
      }
    }

    /** Conditional update; true when the one row was free. */
    method Lock(s: nat, now: int) returns (locked: bool)
      requires s < |sessions|
      modifies this`sessions
      ensures locked == old(Free(sessions[s]))
      ensures sessions == if locked then Locked(old(sessions), s, now) else old(sessions)
    {
      if !Free(sessions[s]) {
        return false;
      }
      sessions := sessions[s := sessions[s].(busy := true, lastUsedAt := Some(now), updatedAt := now)];
      locked := true;
    }

    /** Real-time users take even the last free session. */
    method AcquireForRealtime(now: int) returns (r: Result<nat, AcquireError>)
      modifies this`sessions
      ensures r.Ok? <==> 0 < FreeCount(old(sessions))
      ensures r.Ok? ==> IsLeastRecentlyUsed(old(sessions), r.value) && sessions == Locked(old(sessions), r.value, now)
      ensures r.Err? ==> r.error == NoneFree && sessions == old(sessions)
    {
      var choice := FindFreeSession();
      FreeCountPositive(sessions, choice);
      if choice.None? {
        return Err(NoneFree);
      }
      var locked := Lock(choice.value, now);
      if !locked {
        return Err(JustTaken);
      }
      r := Ok(choice.value);
    }

    /** A hunter that nobody interrupts leaves at least the reserved sessions free. */
    method AcquireForHunter(now: int) returns (choice: Option<nat>)
      modifies this`sessions
      ensures choice.Some? <==> cfg.reserved < FreeCount(old(sessions))
      ensures choice.Some? ==>
                IsLeastRecentlyUsed(old(sessions), choice.value) && sessions == Locked(old(sessions), choice.value, now)
      ensures choice.Some? ==> cfg.reserved <= FreeCount(sessions)
      ensures choice.None? ==> sessions == old(sessions)
    {
      var free := FreeCount(sessions);
      if free <= cfg.reserved {
        return None;
      }
      choice := FindFreeSession();
      FreeCountPositive(sessions, choice);
      if choice.None? {
        return None;
      }
      ghost var before := sessions;
      var locked := Lock(choice.value, now);
      if !locked {
        return None;
      }
      SumUpdate(before, choice.value, sessions[choice.value], FreeWeight());
    }

    method Release(s: nat, success: bool, now: int)
      requires s < |sessions|
      modifies this`sessions
      ensures sessions == Released(old(sessions), cfg, s, success, now)
    {
      if success {
        sessions := sessions[s := sessions[s].(busy := false, failureCount := 0, updatedAt := now)];
        return;
      }
      var failures := sessions[s].failureCount + 1;
      sessions := sessions[s := sessions[s].(busy := false, failureCount := failures, updatedAt := now)];
      if failures >= cfg.maxFailures {
        sessions := sessions[s := sessions[s].(active := false, updatedAt := now)];
      }
    }

    /** Reactivates exactly the sessions whose breaker tripped long enough ago. */
    method ReactivateStale(now: int) returns (count: nat)
      modifies this`sessions
      ensures sessions == Reactivated(old(sessions), now - cfg.cooldownMs, now)
      ensures count == Sum(old(sessions), StaleWeight(now - cfg.cooldownMs))
    {
      var cutoff := now - cfg.cooldownMs;
      ghost var before := sessions;
      count := 0;
      var s := 0;
      while s < |sessions|
        invariant 0 <= s <= |sessions| == |before|
        invariant forall t :: 0 <= t < s ==>
                    sessions[t] == if Stale(before[t], cutoff)
                                   then before[t].(active := true, failureCount := 0, updatedAt := now) else before[t]
        invariant forall t :: s <= t < |sessions| ==> sessions[t] == before[t]
        invariant count == Sum(before[..s], StaleWeight(cutoff))
      {
        assert before[..s + 1] == before[..s] + [before[s]];
        SumAppend(before[..s], before[s], StaleWeight(cutoff));
        if Stale(sessions[s], cutoff) {
          sessions := sessions[s := sessions[s].(active := true, failureCount := 0, updatedAt := now)];
          count := count + 1;
        }
        s := s + 1;
      }
      assert before[..s] == before;
      assert sessions == Reactivated(before, cutoff, now);
    }
  }

  function StaleWeight(cutoff: int): Session -> int {
    (s: Session) => if Stale(s, cutoff) then 1 else 0
  }

  lemma FreeCountPositive(sessions: seq<Session>, choice: Option<nat>)
    requires ValidChoice(sessions, choice)
    ensures choice.Some? <==> 0 < FreeCount(sessions)
  {
    if choice.Some? {
      SumCoversRow(sessions, choice.value, FreeWeight());
    } else {
      SumOfZeros(sessions, FreeWeight());
    }
  }

  /** A hunter nobody interrupts runs as `AcquireForHunter` does. */
  lemma HunterAcquiresAsARun(p: Pool, cfg: Config, u: nat, choice: Option<nat>, now: int)
    requires WellFormed(p) && u < |p.users| && p.users[u] == HunterArrived && ValidChoice(p.sessions, choice)
    ensures Run(p, cfg, [Count(u), Pick(u, choice), Lock(u, now)]) ==
            if cfg.reserved < FreeCount(p.sessions) && choice.Some?
            then Pool(Locked(p.sessions, choice.value, now), p.users[u := Holding(choice.value, multiset{})])
            else Pool(p.sessions, p.users[u := Done])
  {
    RunThree(p, cfg, Count(u), Pick(u, choice), Lock(u, now));
    var p1 := Step(p, cfg, Count(u));
    var p2 := Step(p1, cfg, Pick(u, choice));
    if cfg.reserved < FreeCount(p.sessions) {
      assert p1 == Pool(p.sessions, p.users[u := HunterCounted]);
      if choice.Some? {
        assert p2 == Pool(p.sessions, p.users[u := HunterPicked(choice.value)]);
      }
    }
  }

  /** So does a real-time user, who does not count first. */
  lemma RealtimeAcquiresAsARun(p: Pool, cfg: Config, u: nat, choice: Option<nat>, now: int)
    requires WellFormed(p) && u < |p.users| && p.users[u] == RealtimeArrived && ValidChoice(p.sessions, choice)
    ensures Run(p, cfg, [Pick(u, choice), Lock(u, now)]) ==
            if choice.Some? then Pool(Locked(p.sessions, choice.value, now), p.users[u := Holding(choice.value, multiset{})])
            else Pool(p.sessions, p.users[u := Done])
  {
    var p1 := Step(p, cfg, Pick(u, choice));
    assert [Pick(u, choice), Lock(u, now)][1..] == [Lock(u, now)] && [Lock(u, now)][1..] == [];
    assert Run(p1, cfg, [Lock(u, now)]) == Step(p1, cfg, Lock(u, now));
    if choice.Some? {
      assert p1 == Pool(p.sessions, p.users[u := RealtimePicked(choice.value)]);
    }
  }

  /** A failed release that nobody interrupts runs as `Release` does. */
  lemma FailedReleaseAsARun(p: Pool, cfg: Config, u: nat, now: int)
    requires WellFormed(p) && u < |p.users| && p.users[u].Holding?
    ensures var s := p.users[u].s;
            Run(p, cfg, [ReleaseFailure(u, now), Trip(u, now)]) ==
            Pool(Released(p.sessions, cfg, s, false, now), p.users[u := Done])
  {
    var p1 := Step(p, cfg, ReleaseFailure(u, now));
    assert [ReleaseFailure(u, now), Trip(u, now)][1..] == [Trip(u, now)] && [Trip(u, now)][1..] == [];
    assert Run(p1, cfg, [Trip(u, now)]) == Step(p1, cfg, Trip(u, now));
    assert p1.users[u := Done] == p.users[u := Done];
  }

  // ---- A whole request ----

  /** A write of the API client while it works with a session: the server's clock or
      new tokens, a failed renewal of the tokens, or a login of the session's account. */
  datatype ClientWrite = Stamp(now: int) | RenewalFailed(now: int) | AccountLogin(now: int)

  function AfterWrite(sessions: seq<Session>, s: nat, write: ClientWrite): seq<Session>
    requires s < |sessions|
  {
    match write
    case Stamp(now) => Touched(sessions, s, now)
    case RenewalFailed(now) => RefreshFailedOn(sessions, s, now)
    case AccountLogin(now) => LoggedIn(sessions, sessions[s].account, now)
  }

  /** What work with session s may do to the table: it writes to that row and to the
      one under the account's label, adding the latter if it is missing. */
  predicate WorkedWith(before: seq<Session>, after: seq<Session>, s: nat)
    requires s < |before|
  {
    var account := before[s].account;
    && (|after| == |before| || (|after| == |before| + 1 && !after[|before|].busy && after[|before|].name == account
                                && forall t :: 0 <= t < |before| ==> before[t].name != account))
    && after[s].account == account
    && forall t :: 0 <= t < |before| ==>
         && after[t].busy == before[t].busy && after[t].name == before[t].name
         && (t != s && before[t].name != account ==> after[t] == before[t])
  }

  function AfterWrites(sessions: seq<Session>, s: nat, writes: seq<ClientWrite>): (r: seq<Session>)
    requires s < |sessions|
    ensures WorkedWith(sessions, r, s)
    decreases |writes|
  {
    if writes == [] then sessions
    else
      var next := AfterWrite(sessions, s, writes[0]);
      assert WorkedWith(sessions, next, s);
      AfterWrites(next, s, writes[1..])
  }

  /** Locked, worked with and released, a free session is free again. */
  lemma ReleaseIsWork(before: seq<Session>, worked: seq<Session>, cfg: Config, s: nat, now: int, success: bool, later: int)
    requires s < |before| && Free(before[s]) && WorkedWith(Locked(before, s, now), worked, s)
    ensures WorkedWith(before, Released(worked, cfg, s, success, later), s)
  {
    assert forall t :: 0 <= t < |before| ==> Locked(before, s, now)[t].name == before[t].name;
  }

  /** What a request does with a session: acquire it, work with it, and release it
      whether or not the work succeeded (real-muadi.provider.ts). */
  method SearchWithSession(pool: MuadiSessionPoolService, hunter: bool, writes: seq<ClientWrite>, workSucceeds: bool,
                           now: int, later: int)
    returns (acquired: Option<nat>)
    modifies pool`sessions
    ensures acquired.Some? <==> (if hunter then pool.cfg.reserved else 0) < FreeCount(old(pool.sessions))
    ensures acquired.None? ==> pool.sessions == old(pool.sessions)
    ensures acquired.Some? ==>
              (var s := acquired.value;
               && IsLeastRecentlyUsed(old(pool.sessions), s)
               && pool.sessions == Released(AfterWrites(Locked(old(pool.sessions), s, now), s, writes),
                                            pool.cfg, s, workSucceeds, later)
               && WorkedWith(old(pool.sessions), pool.sessions, s))
  {
    ghost var before := pool.sessions;
    var s: nat;
    if hunter {
      var choice := pool.AcquireForHunter(now);
      if choice.None? {
        return None;
      }
      s := choice.value;
    } else {
      var r := pool.AcquireForRealtime(now);
      if r.Err? {
        return None;
      }
      s := r.value;
    }
    var k := 0;
    ghost var locked := pool.sessions;
    while k < |writes|
      invariant 0 <= k <= |writes|
      invariant s < |pool.sessions|
      invariant AfterWrites(pool.sessions, s, writes[k..]) == AfterWrites(locked, s, writes)
    {
      assert writes[k..][1..] == writes[k + 1..];
      pool.sessions := AfterWrite(pool.sessions, s, writes[k]);
      k := k + 1;
    }
    assert writes[k..] == [];
    assert WorkedWith(locked, pool.sessions, s);
    ReleaseIsWork(before, pool.sessions, pool.cfg, s, now, workSucceeds, later);
    pool.Release(s, workSucceeds, later);
    acquired := Some(s);
  }
}
