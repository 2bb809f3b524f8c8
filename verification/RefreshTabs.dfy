/** What each event makes of the stored token and of a tab, column by column (client.ts,
    stores/auth.ts). */
module RefreshTabs {
  import opened Common
  import opened RefreshClient
  import T = RefreshTokens

  /** The refresh that the tab waits for has come back with new tokens. */
  predicate Renews(d: Device, e: Event, t: nat)
    requires t < |d.tabs|
  {
    && e == Reply(t) && d.tabs[t].flight.Some? && d.tabs[t].flight.value < |d.server.rotations|
    && d.server.rotations[d.tabs[t].flight.value].Issued?
  }

  /** ... or refused, or with an error. */
  predicate TurnsDown(d: Device, e: Event, t: nat)
    requires t < |d.tabs|
  {
    && d.tabs[t].flight.Some?
    && (e == ErrorReply(t)
        || (e == Reply(t) && d.tabs[t].flight.value < |d.server.rotations|
            && d.server.rotations[d.tabs[t].flight.value].Refused?))
  }

  predicate Loses(d: Device, e: Event, t: nat)
    requires t < |d.tabs|
  {
    e == LoseReply(t) && d.tabs[t].flight.Some?
  }

  /** A call of the tab, or that of its page load, got its first 401. */
  predicate Asks(d: Device, e: Event, t: nat)
    requires t < |d.tabs|
  {
    e == Unauthorized(t) || (e == MeUnauthorized(t) && d.tabs[t].load == Loading)
  }

  predicate CanJoin(d: Device, t: nat)
    requires t < |d.tabs|
  {
    d.tabs[t].flight.Some? || d.stored.Some?
  }

  /** The page load's call is answered. */
  predicate EndsLoad(d: Device, e: Event, t: nat)
    requires t < |d.tabs|
  {
    (e == MeSucceeds(t) || e == MeFails(t)) && (d.tabs[t].load == Loading || d.tabs[t].load == Retrying)
  }

  /** Exactly which events change the stored token: the user's own, new tokens, a refresh
      turned down, and a page load that fails, for want of a reply to its refresh too. */
  lemma StoredChangesBy(d: Device, e: Event, t: nat)
    requires t < |d.tabs|
    requires !e.SignIn? && !e.SignOut? && !e.Server? ==> e.t == t
    ensures var fails := || TurnsDown(d, e, t) || (Loses(d, e, t) && d.tabs[t].load == Awaiting)
                         || (e == MeFails(t) && EndsLoad(d, e, t));
            Step(d, e).stored ==
            if e.SignIn? then Some(T.Raw(|d.server.tokens|, e.secret))
            else if e.SignOut? || fails then None
            else if Renews(d, e, t) then Some(d.server.rotations[d.tabs[t].flight.value].raw)
            else d.stored
  {
  }

  /** What becomes of the tab's calls with a 401: they wait while there is a refresh to
      wait for, are all sent again after it brought new tokens, and are all given up
      otherwise. */
  lemma CallsChangeBy(d: Device, e: Event, t: nat)
    requires t < |d.tabs|
    ensures var tab, tab' := d.tabs[t], Step(d, e).tabs[t];
            var ends := Renews(d, e, t) || TurnsDown(d, e, t) || Loses(d, e, t) || e == Load(t);
            && |Step(d, e).tabs| == |d.tabs|
            && tab'.waiting == (if ends then 0
                                else if e == Unauthorized(t) && CanJoin(d, t) then tab.waiting + 1 else tab.waiting)
            && tab'.retried == (if Renews(d, e, t) then tab.retried + tab.waiting else tab.retried)
            && tab'.failed == (if ends && !Renews(d, e, t) then tab.failed + tab.waiting
                               else if e == Unauthorized(t) && !CanJoin(d, t) then tab.failed + 1 else tab.failed)
  {
  }

  /** Exactly when a tab starts a refresh and when that is over. */
  lemma FlightChangesBy(d: Device, e: Event, t: nat)
    requires t < |d.tabs|
    ensures var ends := Renews(d, e, t) || TurnsDown(d, e, t) || Loses(d, e, t) || e == Load(t);
            var starts := Asks(d, e, t) && d.tabs[t].flight == None && d.stored.Some?;
            && Step(d, e).tabs[t].flight == (if ends then None
                                             else if starts then Some(|d.server.rotations|) else d.tabs[t].flight)
            && (starts ==> Step(d, e).server == T.Step(d.server, T.Present(d.stored.value))
                           && Step(d, e).sent == d.sent + [|d.server.rotations|])
  {
  }

  /** The course of a page load: its call is sent if a token is stored, waits for a
      refresh after a 401, is sent again with new tokens, and is over when answered or
      given up. */
  lemma LoadChangesBy(d: Device, e: Event, t: nat)
    requires t < |d.tabs|
    ensures var load := d.tabs[t].load;
            Step(d, e).tabs[t].load ==
            if e == Load(t) then (if d.stored.Some? then Loading else NoLoad)
            else if e == MeUnauthorized(t) && load == Loading then (if CanJoin(d, t) then Awaiting else NoLoad)
            else if load == Awaiting && Renews(d, e, t) then Retrying
            else if load == Awaiting && (TurnsDown(d, e, t) || Loses(d, e, t)) then NoLoad
            else if EndsLoad(d, e, t) then NoLoad
            else load
  {
  }

  /** A tab reaches the server with the refreshes it starts and in no other way. */
  lemma NothingElseReachesTheServer(d: Device, e: Event)
    ensures var starts := !e.SignIn? && !e.SignOut? && !e.Server? && e.t < |d.tabs|
                          && Asks(d, e, e.t) && d.tabs[e.t].flight == None && d.stored.Some?;
            && (!starts ==> Step(d, e).sent == d.sent)
            && (!starts && !e.SignIn? && !e.Server? ==> Step(d, e).server == d.server)
  {
  }
}
