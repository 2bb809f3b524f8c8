/** Holding seats at most once per user and idempotency key (booking.controller.ts):
    every interleaving of concurrent and retried requests over one Redis entry. */
module HoldIdempotency {
  import opened Common
  import opened Runs

  datatype Record = Processing | Done(response: nat)

  /** What a Redis call came to: it ran and answered, ran but its answer was lost,
      or did not run.  The last two are the same error to the caller. */
  datatype Reply = Answered | AnswerLost | NotSent

  /** What the booking service came to: a stored booking, nothing, or seats that the
      airline holds although a later call of the service failed. */
  datatype HoldOutcome = Booked(response: nat) | NotHeld | HeldThenFailed

  datatype HoldError = MissingKey | InProgress | RedisUnavailable | HoldFailed

  /** A request between two of its calls. */
  datatype Request =
    | Arrived
    | Reserved
    | Held(response: nat)
    | Clearing(error: HoldError)
    | Reading
    | Returned(response: nat)
    | Refused(error: HoldError)

  /** The entry of one key, its requests, and the responses of the holds that
      succeeded, in order. */
  datatype World = World(entry: Option<Record>, requests: seq<Request>, holds: seq<nat>)

  datatype Event =
    | Arrive
    | Reserve(r: nat, reply: Reply)
    | HoldSeats(r: nat, outcome: HoldOutcome)
    | Store(r: nat, reply: Reply)
    | Clear(r: nat, reply: Reply)
    | Read(r: nat, reply: Reply)
    | Expire

  const START := World(None, [], [])

  // ---- One Redis call on the entry ----

  function AfterSetNx(entry: Option<Record>, reply: Reply): Option<Record> {
    if reply != NotSent && entry == None then Some(Processing) else entry
  }

  function AfterSet(entry: Option<Record>, response: nat, reply: Reply): Option<Record> {
    if reply != NotSent then Some(Done(response)) else entry
  }

  function AfterDel(entry: Option<Record>, reply: Reply): Option<Record> {
    if reply != NotSent then None else entry
  }

  // ---- Steps ----

  /** The next call of request r; a call that is not due changes nothing. */
  function RequestStep(w: World, e: Event, r: nat): World
    requires r < |w.requests|
  {
    var request := w.requests[r];
    match e
    case Reserve(_, reply) =>
      if request == Arrived then
        World(AfterSetNx(w.entry, reply),
              w.requests[r := if reply != Answered then Refused(RedisUnavailable)
                              else if w.entry == None then Reserved else Reading],
              w.holds)
      else w
    case HoldSeats(_, outcome) =>
      if request == Reserved then
        if outcome.Booked? then World(w.entry, w.requests[r := Held(outcome.response)], w.holds + [outcome.response])
        else w.(requests := w.requests[r := Clearing(HoldFailed)])
      else w
    case Store(_, reply) =>
      if request.Held? then
        World(AfterSet(w.entry, request.response, reply),
              w.requests[r := if reply == Answered then Returned(request.response) else Clearing(RedisUnavailable)],
              w.holds)
      else w
    case Clear(_, reply) =>
      if request.Clearing? then World(AfterDel(w.entry, reply), w.requests[r := Refused(request.error)], w.holds)
      else w
    case Read(_, reply) =>
      if request == Reading then
        w.(requests := w.requests[r := if reply != Answered then Refused(RedisUnavailable)
                                       else if w.entry.Some? && w.entry.value.Done? then Returned(w.entry.value.response)
                                       else Refused(InProgress)])
      else w
    case _ => w
  }

  function Step(w: World, e: Event): World {
    match e
    case Arrive => w.(requests := w.requests + [Arrived])
    case Expire => w.(entry := None)
    case _ => if e.r < |w.requests| then RequestStep(w, e, e.r) else w
  }

  function Run(w: World, events: seq<Event>): World {
    RunFrom(Step, w, events)
  }

  /** What may go wrong in a run: the entry may expire, the call that stores a response
      may fail, and so may the booking service after the airline holds the seats. */
  datatype Faults = Faults(expiry: bool, storeFails: bool, lateFailure: bool)

  const NO_FAULTS := Faults(false, false, false)
  const LATE := Faults(false, false, true)

  predicate Allowed(e: Event, faults: Faults) {
    && (e.Expire? ==> faults.expiry)
    && (e.Store? && e.reply != Answered ==> faults.storeFails)
    && (e.HoldSeats? && e.outcome.HeldThenFailed? ==> faults.lateFailure)
  }

  ghost predicate AllAllowed(events: seq<Event>, faults: Faults) {
    forall e :: e in events ==> Allowed(e, faults)
  }

  /** How often the airline holds seats in a run. */
  function SeatsHeld(w: World, events: seq<Event>): nat
    decreases |events|
  {
    if events == [] then 0
    else
      var e := events[0];
      (if e.HoldSeats? && e.r < |w.requests| && w.requests[e.r] == Reserved && !e.outcome.NotHeld? then 1 else 0)
      + SeatsHeld(Step(w, e), events[1..])
  }

  // ---- At most once ----

  function InFlight(): Request -> int {
    (request: Request) => if request.Reserved? || request.Held? || request.Clearing? then 1 else 0
  }

  /** What a request knows agrees with the holds made. */
  predicate Agrees(request: Request, holds: seq<nat>) {
    && (request.Reserved? || request.Clearing? ==> holds == [])
    && (request.Held? || request.Returned? ==> holds == [request.response])
  }

  ghost predicate Inv(w: World) {
    && Sum(w.requests, InFlight()) <= (if w.entry == Some(Processing) then 1 else 0)
    && (w.entry == None ==> w.holds == [])
    && (w.entry.Some? && w.entry.value.Done? ==> w.holds == [w.entry.value.response])
    && |w.holds| <= 1
    && forall r :: 0 <= r < |w.requests| ==> Agrees(w.requests[r], w.holds)
  }

  lemma RequestStepKeepsInv(w: World, e: Event, r: nat)
    requires Inv(w) && r < |w.requests| && Allowed(e, LATE)
    ensures Inv(RequestStep(w, e, r))
  {
    var w' := RequestStep(w, e, r);
    assert Agrees(w.requests[r], w.holds);
    if w' != w {
      SumUpdate(w.requests, r, w'.requests[r], InFlight());
      SumCoversRow(w.requests, r, InFlight());
      forall q | 0 <= q < |w'.requests| ensures Agrees(w'.requests[q], w'.holds) {
        assert Agrees(w.requests[q], w.holds);
        if q < r {
          SumCoversTwoRows(w.requests, q, r, InFlight());
        } else if r < q {
          SumCoversTwoRows(w.requests, r, q, InFlight());
        }
      }
    }
  }

  lemma StepKeepsInv(w: World, e: Event)
    requires Inv(w) && Allowed(e, LATE)
    ensures Inv(Step(w, e))
  {
    if e.Arrive? {
      SumAppend(w.requests, Arrived, InFlight());
    } else if !e.Expire? && e.r < |w.requests| {
      RequestStepKeepsInv(w, e, e.r);
    }
  }

  lemma {:induction false} RunKeepsInv(w: World, events: seq<Event>)
    requires Inv(w) && AllAllowed(events, LATE)
    ensures Inv(Run(w, events))
    decreases |events|
  {
    if events != [] {
      StepKeepsInv(w, events[0]);
      RunKeepsInv(Step(w, events[0]), events[1..]);
    }
  }

  /** While the entry lives and storing a response succeeds, whatever else fails and
      however the requests interleave: at most one request is between reserve and
      finish, at most one hold succeeds, and every answer is that hold's response. */
  lemma HeldAtMostOnce(events: seq<Event>)
    requires AllAllowed(events, LATE)
    ensures var w := Run(START, events);
            && |w.holds| <= 1
            && (forall r :: 0 <= r < |w.requests| && w.requests[r].Returned? ==> w.holds == [w.requests[r].response])
            && (forall q, r :: 0 <= q < r < |w.requests| ==>
                  !(InFlight()(w.requests[q]) == 1 && InFlight()(w.requests[r]) == 1))
  {
    RunKeepsInv(START, events);
    var w := Run(START, events);
    forall r | 0 <= r < |w.requests| && w.requests[r].Returned? ensures w.holds == [w.requests[r].response] {
      assert Agrees(w.requests[r], w.holds);
    }
    forall q, r | 0 <= q < r < |w.requests|
      ensures !(InFlight()(w.requests[q]) == 1 && InFlight()(w.requests[r]) == 1)
    {
      SumCoversTwoRows(w.requests, q, r, InFlight());
    }
  }

  /** At most one hold succeeds, whatever else fails. */
  ghost predicate AlwaysOnce(faults: Faults) {
    forall events: seq<Event> :: AllAllowed(events, faults) ==> |Run(START, events).holds| <= 1
  }

  /** The airline holds seats at most once. */
  ghost predicate SeatsOnce(faults: Faults) {
    forall events: seq<Event> :: AllAllowed(events, faults) ==> SeatsHeld(START, events) <= 1
  }

  const HELD_ONCE := World(Some(Processing), [Held(1)], [1])

  lemma HoldFirst()
    ensures Run(START, [Arrive, Reserve(0, Answered), HoldSeats(0, Booked(1))]) == HELD_ONCE
  {
    RunThree(Step, START, Arrive, Reserve(0, Answered), HoldSeats(0, Booked(1)));
  }

  /** The entry expires after five minutes even while a hold is in progress or just
      made; a retry then holds again. */
  lemma ExpiryHoldsTwice() returns (events: seq<Event>)
    ensures AllAllowed(events, NO_FAULTS.(expiry := true))
    ensures Run(START, events).holds == [1, 2]
  {
    var a := [Arrive, Reserve(0, Answered), HoldSeats(0, Booked(1))];
    var b := [Expire];
    var c := [Arrive, Reserve(1, Answered), HoldSeats(1, Booked(2))];
    HoldFirst();
    var w := HELD_ONCE.(entry := None);
    assert b[1..] == [];
    assert Run(HELD_ONCE, b) == Step(HELD_ONCE, Expire) == w;
    RunConcat(Step, START, a, b);
    RunConcat(Step, START, a + b, c);
    events := a + b + c;
  }

  /** If the response of a successful hold cannot be stored, the error path deletes
      the reservation; a retry then holds again. */
  lemma FailedStoreHoldsTwice() returns (events: seq<Event>)
    ensures AllAllowed(events, NO_FAULTS.(storeFails := true))
    ensures Run(START, events).holds == [1, 2]
  {
    var a := [Arrive, Reserve(0, Answered), HoldSeats(0, Booked(1))];
    var b := [Store(0, NotSent), Clear(0, Answered), Arrive];
    var c := [Reserve(1, Answered), HoldSeats(1, Booked(2)), Store(1, Answered)];
    HoldFirst();
    RunThree(Step, HELD_ONCE, Store(0, NotSent), Clear(0, Answered), Arrive);
    assert Step(HELD_ONCE, Store(0, NotSent)) == World(Some(Processing), [Clearing(RedisUnavailable)], [1]);
    var w := World(None, [Refused(RedisUnavailable), Arrived], [1]);
    assert Run(HELD_ONCE, b) == w;
    var w1 := World(Some(Processing), [Refused(RedisUnavailable), Reserved], [1]);
    assert Step(w, Reserve(1, Answered)) == w1;
    RunThree(Step, w, Reserve(1, Answered), HoldSeats(1, Booked(2)), Store(1, Answered));
    RunConcat(Step, START, a, b);
    RunConcat(Step, START, a + b, c);
    events := a + b + c;
  }

  /** If the booking service fails after the airline holds the seats, the entry is
      cleared all the same; a retry then holds seats again. */
  lemma LateFailureHoldsTwice() returns (events: seq<Event>)
    ensures AllAllowed(events, LATE)
    ensures SeatsHeld(START, events) == 2 && Run(START, events).holds == [2]
  {
    var a := [Arrive, Reserve(0, Answered), HoldSeats(0, HeldThenFailed), Clear(0, Answered)];
    var b := [Arrive, Reserve(1, Answered), HoldSeats(1, Booked(2))];
    var w := World(None, [Refused(HoldFailed)], []);
    LateFailureClears(a, w);
    SecondHold(w, b);
    RunConcat(Step, START, a, b);
    SeatsConcat(START, a, b);
    events := a + b;
  }

  lemma LateFailureClears(a: seq<Event>, w: World)
    requires a == [Arrive, Reserve(0, Answered), HoldSeats(0, HeldThenFailed), Clear(0, Answered)]
    requires w == World(None, [Refused(HoldFailed)], [])
    ensures Run(START, a) == w && SeatsHeld(START, a) == 1
  {
    var w1 := World(None, [Arrived], []);
    var w2 := World(Some(Processing), [Reserved], []);
    var w3 := World(Some(Processing), [Clearing(HoldFailed)], []);
    assert Step(START, a[0]) == w1 && Step(w1, a[1]) == w2 && Step(w2, a[2]) == w3 && Step(w3, a[3]) == w;
    RunFour(Step, START, a[0], a[1], a[2], a[3]);
    assert a[1..][1..] == a[2..] && a[2..][1..] == a[3..] && a[3..][1..] == [];
    assert SeatsHeld(w3, a[3..]) == 0 && SeatsHeld(w2, a[2..]) == 1 && SeatsHeld(w1, a[1..]) == 1;
  }

  lemma SecondHold(w: World, b: seq<Event>)
    requires w == World(None, [Refused(HoldFailed)], [])
    requires b == [Arrive, Reserve(1, Answered), HoldSeats(1, Booked(2))]
    ensures Run(w, b).holds == [2] && SeatsHeld(w, b) == 1
  {
    var w1 := World(None, [Refused(HoldFailed), Arrived], []);
    var w2 := World(Some(Processing), [Refused(HoldFailed), Reserved], []);
    assert Step(w, b[0]) == w1 && Step(w1, b[1]) == w2;
    RunThree(Step, w, b[0], b[1], b[2]);
    assert b[1..][1..] == b[2..] && b[2..][1..] == [];
    assert SeatsHeld(w2, b[2..]) == 1 && SeatsHeld(w1, b[1..]) == 1;
  }

  lemma {:induction false} SeatsConcat(w: World, a: seq<Event>, b: seq<Event>)
    ensures SeatsHeld(w, a + b) == SeatsHeld(w, a) + SeatsHeld(Run(w, a), b)
    decreases |a|
  {
    if a == [] {
      assert a + b == b;
    } else {
      assert (a + b)[1..] == a[1..] + b;
      SeatsConcat(Step(w, a[0]), a[1..], b);
    }
  }

  /** Unless the service fails late, seats are held exactly by the successful holds. */
  lemma {:induction false} SeatsAreHolds(w: World, events: seq<Event>, faults: Faults)
    requires AllAllowed(events, faults) && !faults.lateFailure
    ensures |w.holds| + SeatsHeld(w, events) == |Run(w, events).holds|
    decreases |events|
  {
    if events != [] {
      assert Allowed(events[0], faults);
      SeatsAreHolds(Step(w, events[0]), events[1..], faults);
    }
  }

  /** A hold succeeds at most once per key in every run exactly when the entry cannot
      expire and storing a response cannot fail: no other failure matters. */
  lemma AlwaysOnceIff(faults: Faults)
    ensures AlwaysOnce(faults) <==> !faults.expiry && !faults.storeFails
  {
    if faults.expiry {
      var events := ExpiryHoldsTwice();
      assert AllAllowed(events, faults);
    } else if faults.storeFails {
      var events := FailedStoreHoldsTwice();
      assert AllAllowed(events, faults);
    } else {
      forall events: seq<Event> | AllAllowed(events, faults) ensures |Run(START, events).holds| <= 1 {
        HeldAtMostOnce(events);
      }
    }
  }

  /** The airline holds seats at most once per key in every run exactly when, besides,
      the booking service cannot fail once they are held. */
  lemma SeatsOnceIff(faults: Faults)
    ensures SeatsOnce(faults) <==> !faults.expiry && !faults.storeFails && !faults.lateFailure
  {
    if faults.expiry {
      var events := ExpiryHoldsTwice();
      SeatsAreHolds(START, events, NO_FAULTS.(expiry := true));
      assert AllAllowed(events, faults);
    } else if faults.storeFails {
      var events := FailedStoreHoldsTwice();
      SeatsAreHolds(START, events, NO_FAULTS.(storeFails := true));
      assert AllAllowed(events, faults);
    } else if faults.lateFailure {
      var events := LateFailureHoldsTwice();
      assert AllAllowed(events, faults);
    } else {
      forall events: seq<Event> | AllAllowed(events, faults) ensures SeatsHeld(START, events) <= 1 {
        HeldAtMostOnce(events);
        SeatsAreHolds(START, events, faults);
      }
    }
  }

  // ---- Retries ----

  /** A reservation nobody is working on any more. */
  ghost predicate Abandoned(w: World) {
    w.entry == Some(Processing) && forall r :: 0 <= r < |w.requests| ==> InFlight()(w.requests[r]) == 0
  }

  /** When clearing fails after a failed hold, nobody can hold with that key again
      until the entry expires. */
  lemma {:induction false} AbandonedBlocks(w: World, events: seq<Event>)
    requires Abandoned(w) && Expire !in events
    ensures Abandoned(Run(w, events)) && Run(w, events).holds == w.holds
    decreases |events|
  {
    if events != [] {
      var w1 := Step(w, events[0]);
      assert Abandoned(w1) && w1.holds == w.holds;
      AbandonedBlocks(w1, events[1..]);
    }
  }

  /** Whenever nothing is in flight and the entry is free, which is how a cleared
      failed hold leaves it, the next request gets to hold. */
  lemma FreeEntryLetsTheNextRequestHold(w: World, response: nat)
    requires w.entry == None
    ensures var r := |w.requests|;
            Run(w, [Arrive, Reserve(r, Answered), HoldSeats(r, Booked(response)), Store(r, Answered)]) ==
            World(Some(Done(response)), w.requests + [Returned(response)], w.holds + [response])
  {
    var r := |w.requests|;
    RunFour(Step, w, Arrive, Reserve(r, Answered), HoldSeats(r, Booked(response)), Store(r, Answered));
    var w2 := Step(Step(w, Arrive), Reserve(r, Answered));
    assert w2 == World(Some(Processing), w.requests + [Reserved], w.holds);
  }

  /** A request makes its calls in order: reserve, then hold and store, or clear, if the
      reservation is its own, and read if it is not. */
  lemma CallsComeInOrder(w: World, e: Event)
    requires Step(w, e) != w && !e.Arrive? && !e.Expire?
    ensures e.r < |w.requests|
    ensures match e
            case Reserve(r, _) => w.requests[r] == Arrived
            case HoldSeats(r, _) => w.requests[r] == Reserved
            case Store(r, _) => w.requests[r].Held?
            case Clear(r, _) => w.requests[r].Clearing?
            case Read(r, _) => w.requests[r] == Reading
            case _ => true
  {
  }

  /** A request that finds the entry taken is answered with the response stored in it, or,
      as long as there is none, refused as already in progress; nothing changes but the
      request. */
  lemma TakenEntryAnswers(w: World, r: nat)
    requires r < |w.requests| && w.requests[r] == Arrived && w.entry.Some?
    ensures Run(w, [Reserve(r, Answered), Read(r, Answered)]) ==
            w.(requests := w.requests[r := match w.entry.value
                                           case Done(response) => Returned(response)
                                           case Processing => Refused(InProgress)])
  {
    RunTwo(Step, w, Reserve(r, Answered), Read(r, Answered));
    assert Step(w, Reserve(r, Answered)) == w.(requests := w.requests[r := Reading]);
  }

  /** The response is stored, and nobody is between reserve and finish. */
  ghost predicate ResponseStored(w: World, response: nat) {
    w.entry == Some(Done(response)) && forall r :: 0 <= r < |w.requests| ==> InFlight()(w.requests[r]) == 0
  }

  /** What may become of a request once the response is stored. */
  predicate Retried(request: Request, response: nat) {
    request == Arrived || request == Reading || request == Returned(response) || request == Refused(RedisUnavailable)
  }

  /** Whatever happens from then on, as long as the entry lives: the response stays
      stored, no seats are held, and every request that arrives is answered with it,
      unless a Redis call of its own fails. */
  lemma {:induction false} StoredAnswersAll(w: World, n: nat, events: seq<Event>, response: nat)
    requires ResponseStored(w, response) && Expire !in events
    requires n <= |w.requests| && forall r :: n <= r < |w.requests| ==> Retried(w.requests[r], response)
    ensures var w' := Run(w, events);
            && ResponseStored(w', response) && w'.holds == w.holds
            && forall r :: n <= r < |w'.requests| ==> Retried(w'.requests[r], response)
    decreases |events|
  {
    if events != [] {
      var w1 := Step(w, events[0]);
      assert ResponseStored(w1, response);
      StoredAnswersAll(w1, n, events[1..], response);
    }
  }

  ghost predicate AnswersStored(w: World) {
    forall r :: 0 <= r < |w.requests| && w.requests[r].Returned? ==> ResponseStored(w, w.requests[r].response)
  }

  lemma StepKeepsAnswersStored(w: World, e: Event)
    requires Inv(w) && AnswersStored(w) && Allowed(e, LATE)
    ensures AnswersStored(Step(w, e))
  {
    var w' := Step(w, e);
    StepKeepsInv(w, e);
    forall r | 0 <= r < |w'.requests| && w'.requests[r].Returned? ensures ResponseStored(w', w'.requests[r].response) {
      assert Agrees(w'.requests[r], w'.holds);
      if r < |w.requests| && w.requests[r].Returned? {
        assert ResponseStored(w, w.requests[r].response);
      }
      DoneMeansNobody(w');
    }
  }

  lemma DoneMeansNobody(w: World)
    requires Inv(w) && w.entry != Some(Processing)
    ensures forall r :: 0 <= r < |w.requests| ==> InFlight()(w.requests[r]) == 0
  {
    forall r | 0 <= r < |w.requests| ensures InFlight()(w.requests[r]) == 0 {
      SumCoversRow(w.requests, r, InFlight());
    }
  }

  lemma {:induction false} RunKeepsAnswersStored(w: World, events: seq<Event>)
    requires Inv(w) && AnswersStored(w) && AllAllowed(events, LATE)
    ensures Inv(Run(w, events)) && AnswersStored(Run(w, events))
    decreases |events|
  {
    if events != [] {
      StepKeepsInv(w, events[0]);
      StepKeepsAnswersStored(w, events[0]);
      RunKeepsAnswersStored(Step(w, events[0]), events[1..]);
    }
  }

  /** Once a request has been answered, every later one with that key gets the same
      answer, at once if nothing disturbs it, in whatever run before the entry expires. */
  lemma EveryRetryIsAnswered(events: seq<Event>, later: seq<Event>, r: nat, q: nat)
    requires AllAllowed(events, LATE) && Expire !in later
    requires r < |Run(START, events).requests| && Run(START, events).requests[r].Returned?
    requires q < |Run(START, events + later).requests|
    ensures var w, response := Run(START, events + later), Run(START, events).requests[r].response;
            && w.entry == Some(Done(response)) && w.holds == Run(START, events).holds
            && (|Run(START, events).requests| <= q ==> Retried(w.requests[q], response))
            && (w.requests[q] == Arrived ==>
                  Run(w, [Reserve(q, Answered), Read(q, Answered)]) == w.(requests := w.requests[q := Returned(response)]))
  {
    var w := Run(START, events);
    RunKeepsAnswersStored(START, events);
    RunConcat(Step, START, events, later);
    StoredAnswersAll(w, |w.requests|, later, w.requests[r].response);
    if Run(START, events + later).requests[q] == Arrived {
      TakenEntryAnswers(Run(START, events + later), q);
    }
  }
}
