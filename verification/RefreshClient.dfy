/** The web client's single-flight refresh (client.ts) against the refresh-token
    server: browser tabs that share one stored token, any number of calls failing
    with 401 at any time. */
module RefreshClient {
  import opened Common
  import opened Runs
  import T = RefreshTokens

  /** The `/me` call of a page load (auth.ts): sent, waiting for a refresh after a 401,
      or sent again. */
  datatype PageLoad = NoLoad | Loading | Awaiting | Retrying

  /** `flight` is the rotation whose reply the tab awaits; the counters are its calls
      that got a 401: still waiting, sent again, or given up. */
  datatype Tab = Tab(flight: Option<nat>, waiting: nat, retried: nat, failed: nat, load: PageLoad)

  /** `sent` lists, in order, the rotations the tabs have asked for. */
  datatype Device = Device(server: T.World, stored: Option<T.Raw>, tabs: seq<Tab>, sent: seq<nat>)

  /** `Load` is a page load; the `Me` events are the answers to its call. */
  datatype Event =
    | SignIn(user: nat, secret: nat, now: int)
    | SignOut
    | Unauthorized(t: nat)
    | Reply(t: nat)
    | LoseReply(t: nat)
    | ErrorReply(t: nat)
    | Load(t: nat)
    | MeUnauthorized(t: nat)
    | MeSucceeds(t: nat)
    | MeFails(t: nat)
    | Server(e: T.Event)

  const IDLE := Tab(None, 0, 0, 0, NoLoad)

  function Start(tabs: nat): (d: Device)
    ensures |d.tabs| == tabs && forall t :: 0 <= t < tabs ==> d.tabs[t] == IDLE
    ensures d.server == T.START && d.stored == None && d.sent == []
  {
    Device(T.START, None, seq(tabs, t => IDLE), [])
  }

  /** A call of tab t got its first 401: it joins the refresh in flight or starts one,
      or gives up for want of a token. */
  function OnUnauthorized(d: Device, t: nat, joined: Tab, gaveUp: Tab): Device
    requires t < |d.tabs|
  {
    if d.tabs[t].flight.Some? then d.(tabs := d.tabs[t := joined])
    else if d.stored == None then d.(tabs := d.tabs[t := gaveUp])
    else
      var u := |d.server.rotations|;
      Device(T.Step(d.server, T.Present(d.stored.value)), d.stored,
             d.tabs[t := joined.(flight := Some(u))], d.sent + [u])
  }

  /** Everyone waiting shares the result of the refresh. */
  function Settled(tab: Tab, ok: bool): Tab {
    if ok then
      Tab(None, 0, tab.retried + tab.waiting, tab.failed, if tab.load.Awaiting? then Retrying else tab.load)
    else
      Tab(None, 0, tab.retried, tab.failed + tab.waiting, if tab.load.Awaiting? then NoLoad else tab.load)
  }

  /** The refresh came back. */
  function OnReply(d: Device, t: nat): Device
    requires t < |d.tabs|
  {
    var tab := d.tabs[t];
    if tab.flight == None || |d.server.rotations| <= tab.flight.value then d
    else
      var rotation := d.server.rotations[tab.flight.value];
      if rotation.Issued? then d.(stored := Some(rotation.raw), tabs := d.tabs[t := Settled(tab, true)])
      else if rotation.Refused? then d.(stored := None, tabs := d.tabs[t := Settled(tab, false)])
      else d
  }

  /** The next step of tab t; an answer that is not due changes nothing.  A page load
      that fails, for whatever reason, clears the session. */
  function TabStep(d: Device, e: Event, t: nat): Device
    requires t < |d.tabs|
  {
    var tab := d.tabs[t];
    match e
    case Unauthorized(_) =>
      OnUnauthorized(d, t, tab.(waiting := tab.waiting + 1), tab.(failed := tab.failed + 1))
    case Reply(_) => OnReply(d, t)
    case LoseReply(_) =>
      if tab.flight.Some? then
        d.(stored := if tab.load.Awaiting? then None else d.stored, tabs := d.tabs[t := Settled(tab, false)])
      else d
    case ErrorReply(_) =>
      if tab.flight.Some? then d.(stored := None, tabs := d.tabs[t := Settled(tab, false)]) else d
    case Load(_) =>
      d.(tabs := d.tabs[t := Settled(tab, false).(load := if d.stored.Some? then Loading else NoLoad)])
    case MeUnauthorized(_) =>
      if tab.load.Loading? then OnUnauthorized(d, t, tab.(load := Awaiting), tab.(load := NoLoad)) else d
    case MeSucceeds(_) =>
      if tab.load.Loading? || tab.load.Retrying? then d.(tabs := d.tabs[t := tab.(load := NoLoad)]) else d
    case MeFails(_) =>
      if tab.load.Loading? || tab.load.Retrying? then d.(stored := None, tabs := d.tabs[t := tab.(load := NoLoad)]) else d
    case _ => d
  }

  function Step(d: Device, e: Event): Device {
    match e
    case SignIn(user, secret, now) =>
      d.(server := T.Step(d.server, T.SignIn(user, secret, now)), stored := Some(T.Raw(|d.server.tokens|, secret)))
    case SignOut => d.(stored := None)
    case Server(e) => d.(server := T.Step(d.server, e))
    case _ => if e.t < |d.tabs| then TabStep(d, e, e.t) else d
  }

  function Run(d: Device, events: seq<Event>): Device {
    RunFrom(Step, d, events)
  }

  // ---- What the properties assume of a run ----

  predicate Idle(d: Device) {
    forall t :: 0 <= t < |d.tabs| ==> d.tabs[t].flight == None && d.tabs[t].load == NoLoad
  }

  /** A row the device holds the token of, has sent it, or is about to receive it. */
  predicate Ours(d: Device, id: nat) {
    || (d.stored.Some? && d.stored.value.id == id)
    || exists t :: 0 <= t < |d.tabs| && ComingTo(d, t, id)
  }

  predicate ComingTo(d: Device, t: nat, id: nat)
    requires t < |d.tabs|
  {
    && d.tabs[t].flight.Some? && d.tabs[t].flight.value < |d.server.rotations|
    && match d.server.rotations[d.tabs[t].flight.value]
       case Presented(raw) => raw.id == id
       case Verified(read, _) => read == id
       case Issued(raw) => raw.id == id
       case _ => false
  }

  /** What may go wrong: the reply to a refresh may be lost, on its way or because the
      page is loaded anew meanwhile; it may be an error that says nothing about the
      token, such as too many requests or a server failure; and the page load's own
      call may fail, offline or with any such status. */
  datatype Faults = Faults(lossy: bool, errors: bool, page: bool)

  const NO_FAULTS := Faults(false, false, false)
  const LOSSY := Faults(true, false, false)

  /** The user signs in and out between refreshes and page loads only, and nobody else
      presents or revokes the device's token. */
  predicate Fair(d: Device, e: Event, faults: Faults) {
    match e
    case SignIn(_, _, _) => Idle(d)
    case SignOut => Idle(d)
    case LoseReply(_) => faults.lossy
    case ErrorReply(_) => faults.errors
    case Load(t) => t < |d.tabs| && d.tabs[t].flight.Some? ==> faults.lossy
    case MeFails(_) => faults.page
    case Server(e) =>
      (match e
       case Present(raw) => raw.id < |d.server.tokens| && !Ours(d, raw.id)
       case Revoke(id) => !Ours(d, id)
       case RevokeUser(user) => forall i :: 0 <= i < |d.server.tokens| && Ours(d, i) ==> d.server.tokens[i].user != user
       case _ => true)
    case _ => true
  }

  predicate FairRun(d: Device, events: seq<Event>, faults: Faults) {
    UnfairSteps(d, events, faults) == 0
  }

  /** The steps that are not events of the device under `faults`. */
  function UnfairSteps(d: Device, events: seq<Event>, faults: Faults): nat
    decreases |events|
  {
    if events == [] then 0
    else (if Fair(d, events[0], faults) then 0 else 1) + UnfairSteps(Step(d, events[0]), events[1..], faults)
  }

  // ---- One tab ----

  predicate Matches(tokens: seq<T.Token>, raw: T.Raw) {
    raw.id < |tokens| && tokens[raw.id].secret == raw.secret
  }

  predicate Live(tokens: seq<T.Token>, raw: T.Raw) {
    Matches(tokens, raw) && !tokens[raw.id].revoked
  }

  /** The refresh in flight presents the stored token, unless that has been dropped
      meanwhile, and it stays live until that very rotation revokes it; its reply
      carries a live token or an expiry. */
  predicate FlightOk(d: Device, u: nat) {
    && u < |d.server.rotations|
    && match d.server.rotations[u]
       case Presented(raw) => Live(d.server.tokens, raw) && (d.stored.Some? ==> raw == d.stored.value)
       case Verified(id, _) =>
         id < |d.server.tokens| && !d.server.tokens[id].revoked && (d.stored.Some? ==> id == d.stored.value.id)
       case Generating(id, _) => id < |d.server.tokens| && (d.stored.Some? ==> id == d.stored.value.id)
       case Issued(raw) => Live(d.server.tokens, raw)
       case Refused(reason) => reason == T.Expired
  }

  /** No other rotation can touch the device's rows. */
  predicate Away(d: Device, q: nat)
    requires q < |d.server.rotations|
  {
    match d.server.rotations[q]
    case Presented(raw) => raw.id < |d.server.tokens| && !Ours(d, raw.id)
    case Verified(id, _) => id < |d.server.tokens| && !Ours(d, id)
    case _ => true
  }

  predicate Over(d: Device, u: nat) {
    && u < |d.server.rotations|
    && (d.server.rotations[u].Issued? || d.server.rotations[u] == T.Refused(T.Expired))
  }

  ghost predicate Inv(d: Device) {
    && |d.tabs| == 1
    && (d.tabs[0].flight == None && d.stored.Some? ==> Live(d.server.tokens, d.stored.value))
    && (d.tabs[0].flight.Some? ==> FlightOk(d, d.tabs[0].flight.value))
    && (forall q :: 0 <= q < |d.server.rotations| && d.tabs[0].flight != Some(q) ==> Away(d, q))
  }

  /** Every refresh sent but the one in flight is over. */
  ghost predicate SentOver(d: Device)
    requires |d.tabs| == 1
  {
    forall u :: u in d.sent ==> Over(d, u) || d.tabs[0].flight == Some(u)
  }

  /** With one tab, `Ours` is the stored row and the row on its way to that tab. */
  lemma OursOfOneTab(d: Device, id: nat)
    requires |d.tabs| == 1
    ensures Ours(d, id) <==> (d.stored.Some? && d.stored.value.id == id) || ComingTo(d, 0, id)
  {
  }

  /** The row in the store and the one the flight is about are the device's. */
  lemma OwnRows(d: Device)
    requires Inv(d)
    ensures d.stored.Some? ==> Ours(d, d.stored.value.id)
    ensures d.tabs[0].flight.Some? ==>
              var rotation := d.server.rotations[d.tabs[0].flight.value];
              && (rotation.Presented? || rotation.Issued? ==> Ours(d, rotation.raw.id))
              && (rotation.Verified? ==> Ours(d, rotation.id))
  {
    if d.tabs[0].flight.Some? {
      var rotation := d.server.rotations[d.tabs[0].flight.value];
      if rotation.Presented? || rotation.Issued? {
        assert ComingTo(d, 0, rotation.raw.id);
      } else if rotation.Verified? {
        assert ComingTo(d, 0, rotation.id);
      }
    }
  }

  lemma OursOnlyGrowsByNewRows(d: Device, e: Event, id: nat)
    requires Inv(d) && id < |d.server.tokens| && !Ours(d, id)
    ensures !Ours(Step(d, e), id)
  {
    var d' := Step(d, e);
    OursOfOneTab(d, id);
    OursOfOneTab(d', id);
  }

  lemma AwayStays(d: Device, e: Event, q: nat)
    requires Inv(d) && q < |d.server.rotations| && Away(d, q)
    requires q < |Step(d, e).server.rotations| && Step(d, e).server.rotations[q] == d.server.rotations[q]
    requires |d.server.tokens| <= |Step(d, e).server.tokens|
    ensures Away(Step(d, e), q)
  {
    match d.server.rotations[q]
    case Presented(raw) => OursOnlyGrowsByNewRows(d, e, raw.id);
    case Verified(id, _) => OursOnlyGrowsByNewRows(d, e, id);
    case _ =>
  }

  lemma OwnRotationKeepsInv(d: Device, e: T.Event, u: nat)
    requires Inv(d) && d.tabs[0].flight == Some(u) && (e.Verify? || e.RevokeRead? || e.Generate?) && e.u == u
    ensures Inv(Step(d, Server(e)))
  {
    var d' := Step(d, Server(e));
    assert forall q :: 0 <= q < |d.server.rotations| && q != u ==> d'.server.rotations[q] == d.server.rotations[q];
    forall q | 0 <= q < |d'.server.rotations| && q != u ensures Away(d', q) {
      AwayStays(d, Server(e), q);
    }
  }

  lemma OtherRotationKeepsInv(d: Device, e: T.Event, v: nat)
    requires Inv(d) && d.tabs[0].flight != Some(v) && v < |d.server.rotations|
    requires (e.Verify? || e.RevokeRead? || e.Generate?) && e.u == v
    ensures Inv(Step(d, Server(e)))
  {
    var d' := Step(d, Server(e));
    assert Away(d, v);
    OwnRows(d);
    assert forall q :: 0 <= q < |d.server.rotations| && q != v ==> d'.server.rotations[q] == d.server.rotations[q];
    forall q | 0 <= q < |d'.server.rotations| && d'.tabs[0].flight != Some(q) ensures Away(d', q) {
      assert Away(d, q);
      if q != v {
        AwayStays(d, Server(e), q);
      } else if e.Verify? && d.server.rotations[v].Presented? {
        OursOnlyGrowsByNewRows(d, Server(e), d.server.rotations[v].raw.id);
      } else if d'.server.rotations[v] == d.server.rotations[v] {
        AwayStays(d, Server(e), v);
      }
    }
  }

  lemma EnvironmentKeepsInv(d: Device, e: T.Event, faults: Faults)
    requires Inv(d) && Fair(d, Server(e), faults)
    requires e.SignIn? || e.Present? || e.Revoke? || e.RevokeUser?
    ensures Inv(Step(d, Server(e)))
  {
    var d' := Step(d, Server(e));
    assert forall q :: 0 <= q < |d.server.rotations| ==> d'.server.rotations[q] == d.server.rotations[q];
    OwnRows(d);
    forall q | 0 <= q < |d'.server.rotations| && d'.tabs[0].flight != Some(q) ensures Away(d', q) {
      if q < |d.server.rotations| {
        assert Away(d, q);
        AwayStays(d, Server(e), q);
      } else {
        OursOnlyGrowsByNewRows(d, Server(e), e.raw.id);
      }
    }
  }

  lemma TabKeepsAway(d: Device, e: Event, faults: Faults, q: nat)
    requires Inv(d) && Fair(d, e, faults) && !faults.lossy && !e.Server?
    requires q < |Step(d, e).server.rotations| && Step(d, e).tabs[0].flight != Some(q)
    ensures Away(Step(d, e), q)
  {
    if d.tabs[0].flight != Some(q) {
      assert q < |d.server.rotations| && Away(d, q);
      AwayStays(d, e, q);
    }
  }

  lemma TabKeepsInv(d: Device, e: Event, faults: Faults)
    requires Inv(d) && Fair(d, e, faults) && !faults.lossy && !e.Server?
    ensures Inv(Step(d, e))
  {
    var d' := Step(d, e);
    forall q | 0 <= q < |d'.server.rotations| && d'.tabs[0].flight != Some(q) ensures Away(d', q) {
      TabKeepsAway(d, e, faults, q);
    }
  }

  lemma StepKeepsInv(d: Device, e: Event, faults: Faults)
    requires Inv(d) && Fair(d, e, faults) && !faults.lossy
    ensures Inv(Step(d, e))
  {
    if e.Server? {
      var s := e.e;
      if s.SignIn? || s.Present? || s.Revoke? || s.RevokeUser? {
        EnvironmentKeepsInv(d, s, faults);
      } else if s.u < |d.server.rotations| {
        if d.tabs[0].flight == Some(s.u) {
          OwnRotationKeepsInv(d, s, s.u);
        } else {
          OtherRotationKeepsInv(d, s, s.u);
        }
      }
    } else {
      TabKeepsInv(d, e, faults);
    }
  }

  lemma {:induction false} RunKeepsInv(d: Device, events: seq<Event>, faults: Faults)
    requires Inv(d) && FairRun(d, events, faults) && !faults.lossy
    ensures Inv(Run(d, events))
    decreases |events|
  {
    if events != [] {
      StepKeepsInv(d, events[0], faults);
      RunKeepsInv(Step(d, events[0]), events[1..], faults);
    }
  }

  lemma StepKeepsSentOver(d: Device, e: Event)
    requires Inv(d) && SentOver(d) && Fair(d, e, NO_FAULTS)
    ensures |Step(d, e).tabs| == 1 && SentOver(Step(d, e))
  {
    var d' := Step(d, e);
    forall u | u in d'.sent ensures Over(d', u) || d'.tabs[0].flight == Some(u) {
      if u in d.sent && Over(d, u) {
      } else if u in d.sent {
        assert d.tabs[0].flight == Some(u);
      }
    }
  }

  lemma {:induction false} RunKeepsSentOver(d: Device, events: seq<Event>)
    requires Inv(d) && SentOver(d) && FairRun(d, events, NO_FAULTS)
    ensures Inv(Run(d, events)) && SentOver(Run(d, events))
    decreases |events|
  {
    if events != [] {
      StepKeepsInv(d, events[0], NO_FAULTS);
      StepKeepsSentOver(d, events[0]);
      RunKeepsSentOver(Step(d, events[0]), events[1..]);
    }
  }

  /** One tab, any number of concurrent 401s: at most one refresh is unfinished, and
      none is ever refused for anything but expiry. */
  lemma SingleFlight(events: seq<Event>)
    requires FairRun(Start(1), events, NO_FAULTS)
    ensures var d := Run(Start(1), events);
            && |d.tabs| == 1
            && (forall u :: u in d.sent && d.tabs[0].flight != Some(u) ==> Over(d, u))
            && (forall u :: u in d.sent && u < |d.server.rotations| && d.server.rotations[u].Refused? ==>
                  d.server.rotations[u] == T.Refused(T.Expired))
  {
    RunKeepsSentOver(Start(1), events);
    var d := Run(Start(1), events);
    forall u | u in d.sent && u < |d.server.rotations| && d.server.rotations[u].Refused?
      ensures d.server.rotations[u] == T.Refused(T.Expired)
    {
      assert Over(d, u) || d.tabs[0].flight == Some(u);
    }
  }

  /** Every refresh starts from the live token, even after error replies. */
  lemma RefreshPresentsTheLiveToken(events: seq<Event>, faults: Faults)
    requires FairRun(Start(1), events, faults) && !faults.lossy
    ensures var d := Run(Start(1), events);
            var d' := Step(d, Unauthorized(0));
            d'.sent != d.sent ==>
              && d'.server.rotations == d.server.rotations + [T.Presented(d.stored.value)]
              && Live(d'.server.tokens, d.stored.value)
  {
    RunKeepsInv(Start(1), events, faults);
  }

  // ---- No call is lost ----

  function Calls(): Tab -> int {
    (tab: Tab) => tab.waiting + tab.retried + tab.failed
  }

  function CountUnauthorized(events: seq<Event>, tabs: nat): nat {
    if events == [] then 0
    else (if events[0].Unauthorized? && events[0].t < tabs then 1 else 0) + CountUnauthorized(events[1..], tabs)
  }

  /** Every call that got a 401 is waiting, was sent again, or was given up, however
      many tabs there are and whatever goes wrong. */
  lemma {:induction false} NoCallIsLost(d: Device, events: seq<Event>)
    ensures |Run(d, events).tabs| == |d.tabs|
    ensures Sum(Run(d, events).tabs, Calls()) == Sum(d.tabs, Calls()) + CountUnauthorized(events, |d.tabs|)
    decreases |events|
  {
    if events != [] {
      var e := events[0];
      var d1 := Step(d, e);
      if !e.SignIn? && !e.SignOut? && !e.Server? && e.t < |d.tabs| {
        SumUpdate(d.tabs, e.t, d1.tabs[e.t], Calls());
        assert d1.tabs == d.tabs[e.t := d1.tabs[e.t]];
      }
      NoCallIsLost(d1, events[1..]);
    }
  }

  // ---- Exactly when refreshes are never refused early, and sessions kept ----

  /** Tab t is about to learn that its refresh was refused although it had not expired. */
  predicate RefusedEarly(d: Device, t: nat) {
    && t < |d.tabs| && d.tabs[t].flight.Some? && d.tabs[t].flight.value < |d.server.rotations|
    && d.server.rotations[d.tabs[t].flight.value].Refused?
    && d.server.rotations[d.tabs[t].flight.value] != T.Refused(T.Expired)
  }

  ghost predicate NeverRefusedEarly(tabs: nat, faults: Faults) {
    forall events: seq<Event>, t: nat ::
      FairRun(Start(tabs), events, faults) ==> !RefusedEarly(Run(Start(tabs), events), t)
  }

  /** The step drops a stored token, although the user did not sign out and no expired
      refresh came back. */
  predicate Discards(d: Device, e: Event) {
    && d.stored.Some? && Step(d, e).stored == None && !e.SignOut?
    && !(e.Reply? && e.t < |d.tabs| && d.tabs[e.t].flight.Some? && d.tabs[e.t].flight.value < |d.server.rotations|
         && d.server.rotations[d.tabs[e.t].flight.value] == T.Refused(T.Expired))
  }

  ghost predicate SessionKept(tabs: nat, faults: Faults) {
    forall events: seq<Event>, e: Event ::
      FairRun(Start(tabs), events, faults) && Fair(Run(Start(tabs), events), e, faults) ==>
        !Discards(Run(Start(tabs), events), e)
  }

  // One sign-in whose token two tabs present, or one tab twice.

  const FIRST := T.Token(0, 7, T.TTL_MS, false, 0, None)
  const OLD := FIRST.(revoked := true)
  const NEXT := T.Token(0, 8, T.TTL_MS + 1, false, 0, Some(0))
  const SIGNED_IN := T.World([FIRST], [])
  const RAW := T.Raw(0, 7)
  const NEXT_RAW := T.Raw(1, 8)

  function SignedIn(n: nat): Device {
    Device(SIGNED_IN, Some(RAW), Start(n).tabs, [])
  }

  lemma FairFour(d: Device, a: Event, b: Event, c: Event, e: Event, faults: Faults)
    requires var d1 := Step(d, a); var d2 := Step(d1, b); var d3 := Step(d2, c);
             Fair(d, a, faults) && Fair(d1, b, faults) && Fair(d2, c, faults) && Fair(d3, e, faults)
    ensures FairRun(d, [a, b, c, e], faults)
    ensures Run(d, [a, b, c, e]) == Step(Step(Step(Step(d, a), b), c), e)
  {
    var d1 := Step(d, a);
    var d2 := Step(d1, b);
    var d3 := Step(d2, c);
    assert [a, b, c, e][1..] == [b, c, e] && [b, c, e][1..] == [c, e] && [c, e][1..] == [e] && [e][1..] == [];
    RunFour(Step, d, a, b, c, e);
    assert FairRun(d3, [e], faults);
    assert FairRun(d2, [c, e], faults);
    assert FairRun(d1, [b, c, e], faults);
  }

  lemma FairTwo(d: Device, a: Event, b: Event, faults: Faults)
    requires Fair(d, a, faults) && Fair(Step(d, a), b, faults)
    ensures FairRun(d, [a, b], faults) && Run(d, [a, b]) == Step(Step(d, a), b)
  {
    assert [a, b][1..] == [b] && [b][1..] == [];
    RunTwo(Step, d, a, b);
    assert FairRun(Step(d, a), [b], faults);
  }

  lemma SignInThen(n: nat, e: Event)
    requires Fair(SignedIn(n), e, NO_FAULTS)
    ensures FairRun(Start(n), [SignIn(0, 7, 0), e], NO_FAULTS)
    ensures Run(Start(n), [SignIn(0, 7, 0), e]) == Step(SignedIn(n), e)
  {
    assert Step(Start(n), SignIn(0, 7, 0)) == SignedIn(n);
    FairTwo(Start(n), SignIn(0, 7, 0), e, NO_FAULTS);
  }

  lemma {:induction false} UnfairStepsConcat(d: Device, a: seq<Event>, b: seq<Event>, faults: Faults)
    ensures UnfairSteps(d, a + b, faults) == UnfairSteps(d, a, faults) + UnfairSteps(Run(d, a), b, faults)
    decreases |a|
  {
    if a == [] {
      assert a + b == b;
    } else {
      assert (a + b)[1..] == a[1..] + b;
      UnfairStepsConcat(Step(d, a[0]), a[1..], b, faults);
    }
  }

  lemma FairConcat(d: Device, a: seq<Event>, b: seq<Event>, faults: Faults)
    requires FairRun(d, a, faults) && FairRun(Run(d, a), b, faults)
    ensures FairRun(d, a + b, faults) && Run(d, a + b) == Run(Run(d, a), b)
  {
    UnfairStepsConcat(d, a, b, faults);
    RunConcat(Step, d, a, b);
  }

  /** The first tab has presented the token. */
  function Presenting(n: nat): Device
    requires 1 <= n
  {
    Device(T.World([FIRST], [T.Presented(RAW)]), Some(RAW), Start(n).tabs[0 := Tab(Some(0), 1, 0, 0, NoLoad)], [0])
  }

  lemma TwoTabsPresent(n: nat)
    requires 2 <= n
    ensures var events := [SignIn(0, 7, 0), Unauthorized(0)] + [Unauthorized(1), Server(T.Verify(0, 1))];
            FairRun(Start(n), events, NO_FAULTS)
            && Run(Start(n), events) ==
               Device(T.World([FIRST], [T.Verified(0, FIRST), T.Presented(RAW)]), Some(RAW),
                      Start(n).tabs[0 := Tab(Some(0), 1, 0, 0, NoLoad)][1 := Tab(Some(1), 1, 0, 0, NoLoad)], [0, 1])
  {
    assert Step(SignedIn(n), Unauthorized(0)) == Presenting(n);
    SignInThen(n, Unauthorized(0));
    FairTwo(Presenting(n), Unauthorized(1), Server(T.Verify(0, 1)), NO_FAULTS);
    FairConcat(Start(n), [SignIn(0, 7, 0), Unauthorized(0)], [Unauthorized(1), Server(T.Verify(0, 1))], NO_FAULTS);
  }

  lemma TwoTabsRace(tabs: seq<Tab>)
    ensures var d := Device(T.World([FIRST], [T.Verified(0, FIRST), T.Presented(RAW)]), Some(RAW), tabs, [0, 1]);
            var events := [Server(T.Verify(1, 1)), Server(T.RevokeRead(0)), Server(T.RevokeRead(1)),
                           Server(T.Generate(0, 8, 1))];
            FairRun(d, events, NO_FAULTS)
            && Run(d, events) ==
               Device(T.World([OLD, NEXT], [T.Issued(NEXT_RAW), T.Refused(T.LostRace)]), Some(RAW), tabs, [0, 1])
  {
    var d := Device(T.World([FIRST], [T.Verified(0, FIRST), T.Presented(RAW)]), Some(RAW), tabs, [0, 1]);
    FairFour(d, Server(T.Verify(1, 1)), Server(T.RevokeRead(0)), Server(T.RevokeRead(1)),
             Server(T.Generate(0, 8, 1)), NO_FAULTS);
    var d2 := Step(Step(d, Server(T.Verify(1, 1))), Server(T.RevokeRead(0)));
    assert d2.server == T.World([OLD], [T.Generating(0, FIRST), T.Verified(0, FIRST)]);
  }

  lemma ResendAfterLostReply(n: nat)
    requires 1 <= n
    ensures var events := [SignIn(0, 7, 0), Unauthorized(0), Server(T.Verify(0, 1)), Server(T.RevokeRead(0))];
            FairRun(Start(n), events, LOSSY)
            && Run(Start(n), events) ==
               Device(T.World([OLD], [T.Generating(0, FIRST)]), Some(RAW), Start(n).tabs[0 := Tab(Some(0), 1, 0, 0, NoLoad)], [0])
  {
    FairFour(Start(n), SignIn(0, 7, 0), Unauthorized(0), Server(T.Verify(0, 1)), Server(T.RevokeRead(0)), LOSSY);
    var d1 := Step(Start(n), SignIn(0, 7, 0));
    assert d1 == SignedIn(n);
  }

  lemma LostReplyRefused(tabs: seq<Tab>)
    requires tabs != [] && tabs[0] == Tab(Some(0), 1, 0, 0, NoLoad)
    ensures var d := Device(T.World([OLD], [T.Generating(0, FIRST)]), Some(RAW), tabs, [0]);
            var events := [Server(T.Generate(0, 8, 1)), LoseReply(0), Unauthorized(0), Server(T.Verify(1, 1))];
            FairRun(d, events, LOSSY)
            && Run(d, events).server.rotations == [T.Issued(NEXT_RAW), T.Refused(T.AlreadyRevoked)]
            && Run(d, events).sent == [0, 1] && Run(d, events).stored == Some(RAW)
            && |Run(d, events).tabs| == |tabs| && Run(d, events).tabs[0].flight == Some(1)
  {
    var d := Device(T.World([OLD], [T.Generating(0, FIRST)]), Some(RAW), tabs, [0]);
    FairFour(d, Server(T.Generate(0, 8, 1)), LoseReply(0), Unauthorized(0), Server(T.Verify(1, 1)), LOSSY);
    var d2 := Step(Step(d, Server(T.Generate(0, 8, 1))), LoseReply(0));
    assert d2 == Device(T.World([OLD, NEXT], [T.Issued(NEXT_RAW)]), Some(RAW), tabs[0 := Tab(None, 0, 0, 1, NoLoad)], [0]);
    assert tabs[0 := Tab(None, 0, 0, 1, NoLoad)] == d2.tabs;
  }

  /** Two tabs share the stored token but not the refresh in flight: both present it,
      the second is refused, and its reply, coming last, signs the user out. */
  lemma TwoTabsSignOut(n: nat) returns (events: seq<Event>)
    requires 2 <= n
    ensures FairRun(Start(n), events, NO_FAULTS)
    ensures var d := Run(Start(n), events);
            d.sent == [0, 1] && |d.server.rotations| == 2 && d.server.rotations[1] == T.Refused(T.LostRace)
            && |d.tabs| == n && d.tabs[1].flight == Some(1) && d.stored == Some(RAW)
            && Run(d, [Reply(0), Reply(1)]).stored == None
  {
    var a := [SignIn(0, 7, 0), Unauthorized(0)] + [Unauthorized(1), Server(T.Verify(0, 1))];
    var b := [Server(T.Verify(1, 1)), Server(T.RevokeRead(0)), Server(T.RevokeRead(1)), Server(T.Generate(0, 8, 1))];
    var tabs := Start(n).tabs[0 := Tab(Some(0), 1, 0, 0, NoLoad)][1 := Tab(Some(1), 1, 0, 0, NoLoad)];
    TwoTabsPresent(n);
    TwoTabsRace(tabs);
    FairConcat(Start(n), a, b, NO_FAULTS);
    events := a + b;
    var d := Run(Start(n), events);
    RunTwo(Step, d, Reply(0), Reply(1));
  }

  lemma LostReplyIsRefused(n: nat) returns (events: seq<Event>)
    requires 1 <= n
    ensures FairRun(Start(n), events, LOSSY)
    ensures var d := Run(Start(n), events);
            d.sent == [0, 1] && |d.server.rotations| == 2 && d.server.rotations[1] == T.Refused(T.AlreadyRevoked)
            && |d.tabs| == n && d.tabs[0].flight == Some(1) && d.stored == Some(RAW)
  {
    var a := [SignIn(0, 7, 0), Unauthorized(0), Server(T.Verify(0, 1)), Server(T.RevokeRead(0))];
    var b := [Server(T.Generate(0, 8, 1)), LoseReply(0), Unauthorized(0), Server(T.Verify(1, 1))];
    ResendAfterLostReply(n);
    LostReplyRefused(Start(n).tabs[0 := Tab(Some(0), 1, 0, 0, NoLoad)]);
    FairConcat(Start(n), a, b, LOSSY);
    events := a + b;
  }

  lemma {:induction false} FairWithMore(d: Device, events: seq<Event>, faults: Faults, more: Faults)
    requires FairRun(d, events, faults) && (faults.lossy ==> more.lossy)
    requires (faults.errors ==> more.errors) && (faults.page ==> more.page)
    ensures FairRun(d, events, more)
    decreases |events|
  {
    if events != [] {
      FairWithMore(Step(d, events[0]), events[1..], faults, more);
    }
  }

  /** No refusal other than expiry ever reaches a tab exactly when one tab is open and
      no reply is lost (or no tab is open), error replies or not. */
  lemma NeverRefusedEarlyIff(tabs: nat, faults: Faults)
    ensures NeverRefusedEarly(tabs, faults) <==> tabs == 0 || (tabs == 1 && !faults.lossy)
  {
    if 2 <= tabs {
      var events := TwoTabsSignOut(tabs);
      FairWithMore(Start(tabs), events, NO_FAULTS, faults);
      assert RefusedEarly(Run(Start(tabs), events), 1);
    } else if tabs == 1 && faults.lossy {
      var events := LostReplyIsRefused(tabs);
      FairWithMore(Start(tabs), events, LOSSY, faults);
      assert RefusedEarly(Run(Start(tabs), events), 0);
    } else {
      forall events: seq<Event>, t: nat | FairRun(Start(tabs), events, faults)
        ensures !RefusedEarly(Run(Start(tabs), events), t)
      {
        NoCallIsLost(Start(tabs), events);
        if tabs == 1 {
          RunKeepsInv(Start(1), events, faults);
        }
      }
    }
  }

  /** One tab, nothing lost: any error status in answer to a refresh, such as too many
      requests, drops a live token. */
  lemma ErrorReplyDropsLiveToken(n: nat) returns (events: seq<Event>)
    requires 1 <= n
    ensures FairRun(Start(n), events, NO_FAULTS)
    ensures var d := Run(Start(n), events);
            d.stored.Some? && Live(d.server.tokens, d.stored.value) && Discards(d, ErrorReply(0))
  {
    events := [SignIn(0, 7, 0), Unauthorized(0)];
    SignInThen(n, Unauthorized(0));
  }

  function Loaded(n: nat): Device
    requires 1 <= n
  {
    Device(SIGNED_IN, Some(RAW), Start(n).tabs[0 := IDLE.(load := Loading)], [])
  }

  lemma IdleTabLoads(d: Device)
    requires d.tabs != [] && d.tabs[0] == IDLE && d.stored.Some?
    ensures Step(d, Load(0)) == d.(tabs := d.tabs[0 := IDLE.(load := Loading)])
  {
  }

  lemma FailedLoadDiscards(d: Device)
    requires d.tabs != [] && d.tabs[0].load == Loading && d.stored.Some?
    ensures Discards(d, MeFails(0))
  {
  }

  /** One tab and no refresh at fault: a page load whose own call fails, offline or
      answered with an error, drops a live token; no refresh need have been sent. */
  lemma PageLoadDropsLiveToken(n: nat) returns (events: seq<Event>)
    requires 1 <= n
    ensures FairRun(Start(n), events, NO_FAULTS) && Run(Start(n), events) == Loaded(n)
    ensures Live(Loaded(n).server.tokens, RAW) && Discards(Loaded(n), MeFails(0))
  {
    SignInThen(n, Load(0));
    IdleTabLoads(SignedIn(n));
    FailedLoadDiscards(Loaded(n));
    events := [SignIn(0, 7, 0), Load(0)];
  }

  function Refreshing(n: nat): Device
    requires 1 <= n
  {
    Device(T.World([FIRST], [T.Presented(RAW)]), Some(RAW), Start(n).tabs[0 := Tab(Some(0), 0, 0, 0, Awaiting)], [0])
  }

  /** Within client.ts a refresh request that fails leaves the token in place; when the
      page load is what asked for the refresh, the token is dropped, still live. */
  lemma LostReplyAtLoadDropsLiveToken(n: nat) returns (events: seq<Event>)
    requires 1 <= n
    ensures FairRun(Start(n), events, NO_FAULTS) && Run(Start(n), events) == Refreshing(n)
    ensures Live(Refreshing(n).server.tokens, RAW) && Discards(Refreshing(n), LoseReply(0))
  {
    var first := PageLoadDropsLiveToken(n);
    var last := [MeUnauthorized(0)];
    assert last[1..] == [];
    assert Run(Loaded(n), last) == Step(Loaded(n), MeUnauthorized(0));
    FairConcat(Start(n), first, last, NO_FAULTS);
    events := first + last;
  }

  /** A browser only ever loses its session by signing out or by expiry exactly when
      one tab is open, no reply is lost or an error, and no page load's call fails
      (or no tab is open). */
  lemma SessionKeptIff(tabs: nat, faults: Faults)
    ensures SessionKept(tabs, faults) <==>
            tabs == 0 || (tabs == 1 && !faults.lossy && !faults.errors && !faults.page)
  {
    if 2 <= tabs {
      var events := TwoTabsSignOut(tabs);
      FairWithMore(Start(tabs), events, NO_FAULTS, faults);
      assert Fair(Run(Start(tabs), events), Reply(1), faults);
    } else if tabs == 1 && faults.lossy {
      var events := LostReplyIsRefused(tabs);
      FairWithMore(Start(tabs), events, LOSSY, faults);
      assert Fair(Run(Start(tabs), events), Reply(0), faults);
    } else if tabs == 1 && faults.errors {
      var events := ErrorReplyDropsLiveToken(tabs);
      FairWithMore(Start(tabs), events, NO_FAULTS, faults);
      assert Fair(Run(Start(tabs), events), ErrorReply(0), faults);
    } else if tabs == 1 && faults.page {
      var events := PageLoadDropsLiveToken(tabs);
      FairWithMore(Start(tabs), events, NO_FAULTS, faults);
      assert Fair(Run(Start(tabs), events), MeFails(0), faults);
    } else {
      forall events: seq<Event>, e: Event
        | FairRun(Start(tabs), events, faults) && Fair(Run(Start(tabs), events), e, faults)
        ensures !Discards(Run(Start(tabs), events), e)
      {
        NoCallIsLost(Start(tabs), events);
        if tabs == 1 {
          RunKeepsInv(Start(1), events, faults);
        }
      }
    }
  }
}
