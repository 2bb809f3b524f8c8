/** What the steps of the pool make of a session's row, column by column
    (muadi-session-pool.service.ts, muadi-client.service.ts). */
module SessionRows {
  import opened Common
  import opened SessionPool
  import opened SessionStandstill

  /** The user whose call is due in this step. */
  function Acting(p: Pool, e: Event): User {
    if e.Arrive? || e.Reactivate? || |p.users| <= e.u then Done else p.users[e.u]
  }

  predicate Locks(p: Pool, e: Event, s: nat)
    requires s < |p.sessions|
  {
    && e.Lock? && (Acting(p, e) == RealtimePicked(s) || Acting(p, e) == HunterPicked(s))
    && p.sessions[s].active && !p.sessions[s].busy
  }

  predicate ByHolder(p: Pool, e: Event, s: nat) {
    Acting(p, e).Holding? && Acting(p, e).s == s
  }

  predicate Trips(p: Pool, e: Event, s: nat) {
    e.Trip? && Acting(p, e) == Tripping(s)
  }

  /** Out for the cooldown, when stale sessions are brought back. */
  predicate Reactivates(p: Pool, cfg: Config, e: Event, s: nat)
    requires s < |p.sessions|
  {
    e.Reactivate? && !p.sessions[s].active && p.sessions[s].updatedAt + cfg.cooldownMs <= e.now
  }

  /** A login that is stored in this row: it has the account's label. */
  predicate LogsInto(p: Pool, e: Event, s: nat)
    requires s < |p.sessions|
  {
    && e.FinishLogin? && Acting(p, e).Holding? && e.account in Acting(p, e).logins
    && p.sessions[s].name == e.account
  }

  lemma RowOfName(sessions: seq<Session>, s: nat)
    requires DistinctNames(sessions) && s < |sessions|
    ensures FindName(sessions, sessions[s].name) == Some(s)
  {
    var t := FindName(sessions, sessions[s].name).value;
    assert !(s < t) && !(t < s);
  }

  /** Exactly which steps take a session, give it back, take it out and bring it back. */
  lemma StateChangesBy(p: Pool, cfg: Config, e: Event, s: nat)
    requires WellFormed(p) && DistinctNames(p.sessions) && s < |p.sessions|
    ensures var was, row := p.sessions[s], Step(p, cfg, e).sessions[s];
            && row.name == was.name
            && row.busy == (if Locks(p, e, s) then true
                            else if (e.ReleaseSuccess? || e.ReleaseFailure?) && ByHolder(p, e, s) then false else was.busy)
            && row.active == (if Trips(p, e, s) then false
                              else if Reactivates(p, cfg, e, s) || LogsInto(p, e, s) then true else was.active)
            && row.account == (if LogsInto(p, e, s) then e.account else was.account)
  {
    RowOfName(p.sessions, s);
  }

  /** Exactly which steps count a failure of a session or forget them, and which stamp it. */
  lemma CountersChangeBy(p: Pool, cfg: Config, e: Event, s: nat)
    requires WellFormed(p) && DistinctNames(p.sessions) && s < |p.sessions|
    ensures var was, row := p.sessions[s], Step(p, cfg, e).sessions[s];
            var fails := (e.ReleaseFailure? || e.RefreshFailed?) && ByHolder(p, e, s);
            var clears := (e.ReleaseSuccess? && ByHolder(p, e, s)) || Reactivates(p, cfg, e, s) || LogsInto(p, e, s);
            var uses := Locks(p, e, s) || (e.Touch? && ByHolder(p, e, s)) || LogsInto(p, e, s);
            && row.failureCount == (if fails then was.failureCount + 1 else if clears then 0 else was.failureCount)
            && row.lastUsedAt == (if uses then Some(e.now) else was.lastUsedAt)
            && row.updatedAt == (if fails || clears || uses || Trips(p, e, s) then e.now else was.updatedAt)
  {
    RowOfName(p.sessions, s);
  }

  /** The only step that adds a row is a login of an account that has none; the new
      session is free and has no failures. */
  lemma RowsAreAddedBy(p: Pool, cfg: Config, e: Event)
    requires WellFormed(p)
    ensures var sessions := Step(p, cfg, e).sessions;
            if e.FinishLogin? && Acting(p, e).Holding? && e.account in Acting(p, e).logins
               && forall s :: 0 <= s < |p.sessions| ==> p.sessions[s].name != e.account
            then && |sessions| == |p.sessions| + 1
                 && var row := sessions[|p.sessions|];
                    && row.name == e.account && row.account == e.account && row.active && !row.busy
                    && row.failureCount == 0 && row.lastUsedAt == Some(e.now) && row.updatedAt == e.now
            else |sessions| == |p.sessions|
  {
  }

  /** The logins a holder has under way: one more, of the account its session has by then,
      with every login it begins, and one less with every one it finishes. */
  lemma LoginsChangeBy(p: Pool, cfg: Config, e: Event, u: nat)
    requires WellFormed(p) && u < |p.users| && p.users[u].Holding?
    requires Step(p, cfg, e).users[u].Holding?
    ensures var was, user := p.users[u], Step(p, cfg, e).users[u];
            && user.s == was.s
            && user.logins == (if e == BeginLogin(u) then was.logins + multiset{p.sessions[was.s].account}
                               else if e.FinishLogin? && e.u == u && e.account in was.logins
                               then was.logins - multiset{e.account} else was.logins)
  {
  }

  /** How a user gets to a session: a hunter counts first and goes on only if more than
      the reserve is free; whoever picks one holds it if it is still free at the lock. */
  lemma AcquirerGoesOn(p: Pool, cfg: Config, e: Event, u: nat)
    requires WellFormed(p) && u < |p.users|
    requires !p.users[u].Holding? && !p.users[u].Tripping? && !p.users[u].Done?
    ensures var was, next := p.users[u], Step(p, cfg, e).users[u];
            var counts := e.Count? && e.u == u && was == HunterArrived;
            var picks := && e.Pick? && e.u == u && (was == RealtimeArrived || was == HunterCounted)
                         && ValidChoice(p.sessions, e.choice);
            var locks := e.Lock? && e.u == u && (was.RealtimePicked? || was.HunterPicked?);
            && (!counts && !picks && !locks ==> next == was)
            && (counts ==> next == if cfg.reserved < |FreeSessions(p.sessions)| then HunterCounted else Done)
            && (picks && e.choice.None? ==> next == Done)
            && (picks && e.choice.Some? ==>
                  next == if was == RealtimeArrived then RealtimePicked(e.choice.value) else HunterPicked(e.choice.value))
            && (locks ==> next == if Locks(p, e, was.s) then Holding(was.s, multiset{}) else Done)
  {
    FreeSessionsCount(p.sessions);
  }

  ghost function FreeSessions(sessions: seq<Session>): set<int> {
    set s | 0 <= s < |sessions| && sessions[s].active && !sessions[s].busy
  }

  lemma FreeSessionsCount(sessions: seq<Session>)
    ensures FreeCount(sessions) == |FreeSessions(sessions)|
  {
    SumCounts(sessions, FreeWeight());
    assert Counted(sessions, FreeWeight()) == FreeSessions(sessions);
  }

  /** How a holder leaves: the breaker comes after a failed release exactly when the
      session has then failed often enough. */
  lemma HolderGoesOn(p: Pool, cfg: Config, e: Event, u: nat)
    requires WellFormed(p) && u < |p.users| && (p.users[u].Holding? || p.users[u].Tripping?)
    ensures var was, next := p.users[u], Step(p, cfg, e).users[u];
            && (was.Holding? ==>
                  && (next.Tripping? <==> e.ReleaseFailure? && e.u == u
                                          && cfg.maxFailures <= p.sessions[was.s].failureCount + 1)
                  && (next.Done? <==> || (e.ReleaseSuccess? && e.u == u)
                                      || (e.ReleaseFailure? && e.u == u
                                          && p.sessions[was.s].failureCount + 1 < cfg.maxFailures))
                  && (next.Tripping? ==> next.s == was.s)
                  && (next.Tripping? || next.Done? || next.Holding?))
            && (was.Tripping? ==> next == if e.Trip? && e.u == u then Done else was)
  {
  }

  /** Exactly which sessions may be picked: the free ones that have waited longest, where
      one that was never used comes after all others; none only if none is free. */
  lemma ChoiceIff(sessions: seq<Session>, choice: Option<nat>)
    ensures ValidChoice(sessions, choice) <==>
            match choice
            case None => forall t :: 0 <= t < |sessions| ==> !sessions[t].active || sessions[t].busy
            case Some(s) =>
              && s < |sessions| && sessions[s].active && !sessions[s].busy
              && forall t :: 0 <= t < |sessions| && sessions[t].active && !sessions[t].busy ==>
                   match sessions[t].lastUsedAt
                   case None => true
                   case Some(other) => sessions[s].lastUsedAt.Some? && sessions[s].lastUsedAt.value <= other
  {
    if choice.Some? && choice.value < |sessions| {
      assert forall t :: 0 <= t < |sessions| ==>
               (Free(sessions[t]) <==> sessions[t].active && !sessions[t].busy);
    }
  }
}
