/** The hunt services on one hunt's row and queue, each call running to its end,
    and their place among the runs of the interleaved model. */
module HuntServices {
  import opened Common
  import opened HuntScheduler
  import opened Runs

  /** What a scan meets outside: no session to spare, an error, or the price of the
      cheapest bookable offer, if there is one.  `heldNow` tells of the bookings that
      the customer's hunts held last whether they are still HELD, `limit` how many may
      be; `accepted` is the answer of the booking service should the scan ask it. */
  datatype ScanOutcome =
    | NoSession
    | ScanError
    | Scanned(cheapest: Option<int>, heldNow: seq<bool>, limit: nat, accepted: bool)

  function StillHeld(): bool -> int {
    (held: bool) => if held then 1 else 0
  }

  predicate BelowLimit(heldNow: seq<bool>, limit: nat) {
    heldNow == [] || Sum(heldNow, StillHeld()) < limit
  }

  /** A whole scan with nothing in between. */
  function ScanOnce(h: Hunt, queue: nat, outcome: ScanOutcome): (Hunt, nat) {
    if h.status != Hunting then (h, queue)
    else
      match outcome
      case NoSession => (h, queue + 1)
      case ScanError => (FailedRow(h, h), if FAILURE_THRESHOLD <= h.failureStreak + 1 then queue else queue + 1)
      case Scanned(cheapest, heldNow, limit, accepted) =>
        if cheapest.None? || h.targetPrice < cheapest.value then (ClosedRow(h, h, Hunting), queue + 1)
        else if WantsToHold(h) && BelowLimit(heldNow, limit) && accepted then (ClosedRow(HeldRow(h), h, Paused), queue)
        else (ClosedRow(h, h, Found), queue)
  }

  /** The calls of process u that make up such a scan. */
  function Script(h: Hunt, u: nat, outcome: ScanOutcome): seq<Event> {
    if h.status != Hunting then [Read(u)]
    else
      match outcome
      case NoSession => [Read(u), NoHeadroom(u), Enqueue(u, Added)]
      case ScanError =>
        [Read(u), Throw(u), Handle(u)]
        + (if FAILURE_THRESHOLD <= h.failureStreak + 1 then [] else [Enqueue(u, Added)])
      case Scanned(cheapest, heldNow, limit, accepted) =>
        var decided := AfterDecision(h, cheapest, BelowLimit(heldNow, limit));
        [Read(u), Decide(u, cheapest, BelowLimit(heldNow, limit))]
        + (if decided.HoldingSeats? then HoldingCalls(u, accepted)
           else ClosingCalls(u, if cheapest.None? || h.targetPrice < cheapest.value then Hunting else Found))
  }

  /** Closing a decided scan: the row is closed and the next scan queued if it goes on. */
  lemma CloseScript(w: World, u: nat, next: Status)
    requires u < |w.procs| && w.hunt.Some? && w.procs[u].Closing? && w.procs[u].next == next
    ensures var w' := Run(w, ClosingCalls(u, next));
            w' == World(Some(ClosedRow(w.hunt.value, w.procs[u].snap, next)),
                        if next == Hunting then w.queue + 1 else w.queue, w.procs[u := Finished])
  {
    RunTwo(Step, w, Close(u), Conclude(u));
    var closed := World(Some(ClosedRow(w.hunt.value, w.procs[u].snap, next)), w.queue,
                        w.procs[u := if next == Hunting then Requeueing(w.procs[u].snap, NextScan) else Finished]);
    assert Step(Step(w, Close(u)), Conclude(u)) == closed;
    if next == Hunting {
      RunConcat(Step, w, [Close(u), Conclude(u)], [Enqueue(u, Added)]);
      RunOne(Step, closed, Enqueue(u, Added), []);
      assert closed.procs[u := Finished] == w.procs[u := Finished];
    } else {
      assert [Close(u), Conclude(u)] + [] == [Close(u), Conclude(u)];
    }
  }

  /** The scan up to its decision. */
  lemma DecideScript(w: World, u: nat, cheapest: Option<int>, belowLimit: bool)
    requires u < |w.procs| && w.hunt.Some? && w.hunt.value.status == Hunting && w.procs[u] == Started
    ensures Run(w, [Read(u), Decide(u, cheapest, belowLimit)]) ==
            w.(procs := w.procs[u := AfterDecision(w.hunt.value, cheapest, belowLimit)])
  {
    RunTwo(Step, w, Read(u), Decide(u, cheapest, belowLimit));
  }

  function ClosingCalls(u: nat, next: Status): seq<Event> {
    [Close(u), Conclude(u)] + (if next == Hunting then [Enqueue(u, Added)] else [])
  }

  /** Asking the booking service, counting a booking it made, and closing the scan. */
  function HoldingCalls(u: nat, held: bool): seq<Event> {
    if held then [HoldResult(u, true)] + ([WriteHold(u)] + ClosingCalls(u, Paused))
    else [HoldResult(u, false)] + ClosingCalls(u, Found)
  }

  lemma HoldingScript(w: World, u: nat, snap: Hunt, held: bool)
    requires u < |w.procs| && w.hunt.Some? && w.procs[u] == HoldingSeats(snap) && snap.status == Hunting
    ensures var h := w.hunt.value;
            Run(w, HoldingCalls(u, held)) ==
            World(Some(if held then ClosedRow(HeldRow(h), snap, Paused) else ClosedRow(h, snap, Found)),
                  w.queue, w.procs[u := Finished])
  {
    var h := w.hunt.value;
    if held {
      var w1 := w.(procs := w.procs[u := Held(snap)]);
      var w2 := World(Some(HeldRow(h)), w.queue, w.procs[u := Closing(snap, Paused)]);
      assert Step(w, HoldResult(u, true)) == w1;
      assert w1.procs[u := Closing(snap, Paused)] == w2.procs && Step(w1, WriteHold(u)) == w2;
      RunOne(Step, w, HoldResult(u, true), [WriteHold(u)] + ClosingCalls(u, Paused));
      RunOne(Step, w1, WriteHold(u), ClosingCalls(u, Paused));
      CloseScript(w2, u, Paused);
      assert w2.procs[u := Finished] == w.procs[u := Finished];
    } else {
      var w1 := w.(procs := w.procs[u := Closing(snap, Found)]);
      RunOne(Step, w, HoldResult(u, false), ClosingCalls(u, Found));
      CloseScript(w1, u, Found);
      assert w1.procs[u := Finished] == w.procs[u := Finished];
    }
  }

  lemma DecidedScript(w: World, u: nat, cheapest: Option<int>, heldNow: seq<bool>, limit: nat, accepted: bool)
    requires u < |w.procs| && w.hunt.Some? && w.hunt.value.status == Hunting && w.procs[u] == Started
    ensures var h, outcome := w.hunt.value, Scanned(cheapest, heldNow, limit, accepted);
            var (h', queue') := ScanOnce(h, w.queue, outcome);
            Run(w, Script(h, u, outcome)) == World(Some(h'), queue', w.procs[u := Finished])
  {
    var h := w.hunt.value;
    var decided := AfterDecision(h, cheapest, BelowLimit(heldNow, limit));
    var head := [Read(u), Decide(u, cheapest, BelowLimit(heldNow, limit))];
    var w1 := w.(procs := w.procs[u := decided]);
    DecideScript(w, u, cheapest, BelowLimit(heldNow, limit));
    assert w1.procs[u := Finished] == w.procs[u := Finished];
    if decided.HoldingSeats? {
      RunConcat(Step, w, head, HoldingCalls(u, accepted));
      HoldingScript(w1, u, h, accepted);
    } else {
      RunConcat(Step, w, head, ClosingCalls(u, decided.next));
      CloseScript(w1, u, decided.next);
    }
  }

  /** The scan up to the end of its error handling. */
  lemma ThrowScript(w: World, u: nat)
    requires u < |w.procs| && w.hunt.Some? && w.hunt.value.status == Hunting && w.procs[u] == Started
    ensures var h := w.hunt.value;
            Run(w, [Read(u), Throw(u), Handle(u)]) ==
            World(Some(FailedRow(h, h)), w.queue,
                  w.procs[u := if FAILURE_THRESHOLD <= h.failureStreak + 1 then Finished else Requeueing(h, Retried)])
  {
    var h := w.hunt.value;
    RunThree(Step, w, Read(u), Throw(u), Handle(u));
    var w2 := Step(Step(w, Read(u)), Throw(u));
    assert w2 == w.(procs := w.procs[u := Failing(h)]);
  }

  lemma FailedScript(w: World, u: nat)
    requires u < |w.procs| && w.hunt.Some? && w.hunt.value.status == Hunting && w.procs[u] == Started
    ensures var h := w.hunt.value;
            var (h', queue') := ScanOnce(h, w.queue, ScanError);
            Run(w, Script(h, u, ScanError)) == World(Some(h'), queue', w.procs[u := Finished])
  {
    var h := w.hunt.value;
    var head := [Read(u), Throw(u), Handle(u)];
    ThrowScript(w, u);
    if FAILURE_THRESHOLD <= h.failureStreak + 1 {
      assert head + [] == head;
    } else {
      var w3 := Run(w, head);
      RunConcat(Step, w, head, [Enqueue(u, Added)]);
      RunOne(Step, w3, Enqueue(u, Added), []);
      assert w3.procs[u := Finished] == w.procs[u := Finished];
    }
  }

  /** An undisturbed scan is one particular run of the interleaved model. */
  lemma ScanOnceIsARun(w: World, u: nat, outcome: ScanOutcome)
    requires u < |w.procs| && w.hunt.Some? && w.procs[u] == Started
    ensures var (h', queue') := ScanOnce(w.hunt.value, w.queue, outcome);
            Run(w, Script(w.hunt.value, u, outcome)) == World(Some(h'), queue', w.procs[u := Finished])
  {
    if w.hunt.value.status != Hunting {
      RunOne(Step, w, Read(u), []);
    } else {
      match outcome
      case NoSession => RunThree(Step, w, Read(u), NoHeadroom(u), Enqueue(u, Added));
      case ScanError => FailedScript(w, u);
      case Scanned(cheapest, heldNow, limit, accepted) => DecidedScript(w, u, cheapest, heldNow, limit, accepted);
    }
  }

  /** An undisturbed scan of a HUNTING hunt queues exactly one next scan if the
      hunt goes on, and none otherwise. */
  lemma ScanOnceReschedules(h: Hunt, queue: nat, outcome: ScanOutcome)
    ensures var (h', queue') := ScanOnce(h, queue, outcome);
            queue' == if h.status == Hunting && h'.status == Hunting then queue + 1 else queue
  {
  }

  /** Exactly what a whole scan does, whatever it meets. */
  lemma ScanIff(h: Hunt, queue: nat, outcome: ScanOutcome)
    ensures var (h', queue') := ScanOnce(h, queue, outcome);
            && h'.targetPrice == h.targetPrice && h'.autoHold == h.autoHold && h'.autoHoldMaxHolds == h.autoHoldMaxHolds
            && (h.status != Hunting ==> h' == h && queue' == queue)
            && (h.status == Hunting ==>
                  match outcome
                  case NoSession => h' == h && queue' == queue + 1
                  case ScanError =>
                    && h'.failureStreak == h.failureStreak + 1
                    && h'.scansCount == h.scansCount && h'.autoHoldsUsed == h.autoHoldsUsed
                    && h'.status == (if 5 <= h'.failureStreak then Paused else Hunting)
                    && queue' == (if 5 <= h'.failureStreak then queue else queue + 1)
                  case Scanned(cheapest, heldNow, limit, accepted) =>
                    var hit := cheapest.Some? && cheapest.value <= h.targetPrice;
                    var held := hit && accepted && WantsToHold(h)
                                && (heldNow == [] || |set i | 0 <= i < |heldNow| && heldNow[i]| < limit);
                    && h'.failureStreak == 0 && h'.scansCount == h.scansCount + 1
                    && h'.autoHoldsUsed == h.autoHoldsUsed + (if held then 1 else 0)
                    && h'.status == (if held then Paused else if hit then Found else Hunting)
                    && queue' == (if hit then queue else queue + 1))
  {
    if outcome.Scanned? {
      SumCounts(outcome.heldNow, StillHeld());
      assert Counted(outcome.heldNow, StillHeld()) == set i | 0 <= i < |outcome.heldNow| && outcome.heldNow[i];
    }
  }

  function FailingScans(h: Hunt, queue: nat, n: nat): (Hunt, nat)
    decreases n
  {
    if n == 0 then (h, queue)
    else
      var (h1, queue1) := ScanOnce(h, queue, ScanError);
      FailingScans(h1, queue1, n - 1)
  }

  /** From a streak of s, failing scans keep the hunt going until five in a row,
      and then pause it. */
  lemma {:induction false} FiveFailuresPause(h: Hunt, queue: nat, n: nat)
    requires h.status == Hunting && h.failureStreak < FAILURE_THRESHOLD
    ensures FailingScans(h, queue, n).0.status ==
            if h.failureStreak + n < FAILURE_THRESHOLD then Hunting else Paused
    decreases n
  {
    if n != 0 {
      var (h1, queue1) := ScanOnce(h, queue, ScanError);
      if h1.status == Hunting {
        FiveFailuresPause(h1, queue1, n - 1);
      } else {
        PausedStaysPaused(h1, queue1, n - 1);
      }
    }
  }

  lemma {:induction false} PausedStaysPaused(h: Hunt, queue: nat, n: nat)
    requires h.status == Paused
    ensures FailingScans(h, queue, n) == (h, queue)
    decreases n
  {
    if n != 0 {
      PausedStaysPaused(h, queue, n - 1);
    }
  }

  // ---- The owner's requests, undisturbed ----

  function AnswerOf(accepted: bool): Answer {
    if accepted then Added else Refused
  }

  /** Row and queue after an update that is not refused. */
  function UpdateOnce(h: Hunt, queue: nat, action: Action, edits: Edits, accepted: bool): (Hunt, nat) {
    (UpdatedRow(h, action, edits, h),
     if UpdatedStatus(action, h.status) == Some(Hunting) && accepted then queue + 1 else queue)
  }

  /** An undisturbed update queues a scan exactly when it takes the hunt back to HUNTING
      and the queue accepts it. */
  lemma UpdateIff(h: Hunt, queue: nat, action: Action, edits: Edits, accepted: bool)
    ensures var (h', queue') := UpdateOnce(h, queue, action, edits, accepted);
            && h'.status == (if action == Pause && h.status == Hunting then Paused
                             else if action == Resume && h.status in {Paused, Found} then Hunting else h.status)
            && queue' == queue + (if h'.status == Hunting && h.status != Hunting && accepted then 1 else 0)
  {
  }

  /** A request that has just read the hunt and is not disturbed any more is one
      particular run of the interleaved model. */
  lemma UpdateIsARun(w: World, u: nat, action: Action, edits: Edits, accepted: bool)
    requires u < |w.procs| && w.hunt.Some? && w.procs[u] == Updating(action, edits, w.hunt.value)
    ensures var (h', queue') := UpdateOnce(w.hunt.value, w.queue, action, edits, accepted);
            Run(w, [Write(u), Enqueue(u, AnswerOf(accepted))]) == World(Some(h'), queue', w.procs[u := Finished])
  {
    RunTwo(Step, w, Write(u), Enqueue(u, AnswerOf(accepted)));
    var written := UpdatedStatus(action, w.hunt.value.status);
    var w1 := World(Some(UpdateOnce(w.hunt.value, w.queue, action, edits, accepted).0), w.queue,
                    w.procs[u := if written == Some(Hunting) then ResumePending else Finished]);
    assert Step(w, Write(u)) == w1;
    assert w1.procs[u := Finished] == w.procs[u := Finished];
  }

  /** What an update does to the auto-hold settings: they are complete whenever it
      switches them on, and it never switches them on or off unasked. */
  lemma UpdateKeepsAutoHoldComplete(h: Hunt, action: Action, edits: Edits)
    requires Acceptable(edits, h.autoHold)
    ensures var a := UpdatedRow(h, action, edits, h).autoHold;
            && (edits.autoHold == Some(true) ==> a.enabled && Complete(a))
            && (edits.autoHold == Some(false) ==> a == h.autoHold.(enabled := false))
            && (edits.autoHold == None ==> a.enabled == h.autoHold.enabled)
            && (edits.autoHold == None && edits.passengers == None && edits.phone == None && edits.email == None ==>
                  a == h.autoHold)
  {
  }

  /** One hunt's row and its waiting jobs. */
  class HuntStore {
    var hunt: Option<Hunt>
    var queue: nat

    constructor ()
      ensures hunt == None && queue == 0
    {
      hunt, queue := None, 0;
    }
  }

  datatype HoldRefusal = Disabled | MaxHolds | Incomplete | Concurrency | HoldRejected

  class AutoHoldService {
    const store: HuntStore

    constructor (store: HuntStore)
      ensures this.store == store
    {
      this.store := store;
    }

    method ReachedConcurrency(heldNow: seq<bool>, limit: nat) returns (reached: bool)
      ensures reached == !BelowLimit(heldNow, limit)
    {
      if heldNow == [] {
        return false;
      }
      var active := 0;
      for i := 0 to |heldNow|
        invariant active == Sum(heldNow[..i], StillHeld())
      {
        assert heldNow[..i + 1][..i] == heldNow[..i];
        if heldNow[i] {
          active := active + 1;
        }
      }
      assert heldNow[..|heldNow|] == heldNow;
      reached := active >= limit;
    }

    /** Tries to hold seats for the hunt, and pauses it when they are held. */
    method Execute(snap: Hunt, heldNow: seq<bool>, limit: nat, accepted: bool) returns (refusal: Option<HoldRefusal>)
      requires store.hunt.Some?
      modifies store`hunt
      ensures refusal.None? <==> WantsToHold(snap) && BelowLimit(heldNow, limit) && accepted
      ensures refusal.Some? ==>
                refusal.value == if !snap.autoHold.enabled then Disabled
                                 else if snap.autoHoldMaxHolds <= snap.autoHoldsUsed then MaxHolds
                                 else if !Complete(snap.autoHold) then Incomplete
                                 else if !BelowLimit(heldNow, limit) then Concurrency
                                 else HoldRejected
      ensures store.hunt == if refusal.None? then Some(HeldRow(old(store.hunt.value))) else old(store.hunt)
    {
      if !snap.autoHold.enabled {
        return Some(Disabled);
      }
      if snap.autoHoldsUsed >= snap.autoHoldMaxHolds {
        return Some(MaxHolds);
      }
      var details := snap.autoHold;
      if details.passengers.None? || Adult !in details.passengers.value
         || !Present(details.phone) || !Present(details.email) {
        return Some(Incomplete);
      }
      var reached := ReachedConcurrency(heldNow, limit);
      if reached {
        return Some(Concurrency);
      }
      if !accepted {
        return Some(HoldRejected);
      }
      var row := store.hunt.value;
      store.hunt := Some(row.(status := Paused, autoHoldsUsed := row.autoHoldsUsed + 1));
      refusal := None;
    }
  }

  class HunterRunService {
    const store: HuntStore
    const autoHold: AutoHoldService

    constructor (store: HuntStore, autoHold: AutoHoldService)
      ensures this.store == store && this.autoHold == autoHold
    {
      this.store, this.autoHold := store, autoHold;
    }

    method EnqueueNext()
      modifies store`queue
      ensures store.queue == old(store.queue) + 1
    {
      store.queue := store.queue + 1;
    }

    method HandleFailure(snap: Hunt)
      requires store.hunt.Some?
      modifies store
      ensures store.hunt == Some(FailedRow(old(store.hunt.value), snap))
      ensures store.queue == if FAILURE_THRESHOLD <= snap.failureStreak + 1 then old(store.queue) else old(store.queue) + 1
    {
      var streak := snap.failureStreak + 1;
      if streak >= FAILURE_THRESHOLD {
        store.hunt := Some(store.hunt.value.(status := Paused, failureStreak := streak));
        return;
      }
      store.hunt := Some(store.hunt.value.(failureStreak := streak));
      EnqueueNext();
    }

    method UpdateHuntAfterRun(snap: Hunt, next: Status)
      requires store.hunt.Some?
      modifies store`hunt
      ensures store.hunt == Some(ClosedRow(old(store.hunt.value), snap, next))
    {
      var row := store.hunt.value.(scansCount := store.hunt.value.scansCount + 1, failureStreak := 0);
      if next != snap.status {
        row := row.(status := next);
      }
      store.hunt := Some(row);
    }

    method Run(outcome: ScanOutcome)
      requires autoHold.store == store
      modifies store
      ensures old(store.hunt).None? ==> store.hunt.None? && store.queue == old(store.queue)
      ensures old(store.hunt).Some? ==>
                store.hunt.Some?
                && (store.hunt.value, store.queue) == ScanOnce(old(store.hunt.value), old(store.queue), outcome)
    {
      if store.hunt.None? {
        return;
      }
      var hunt := store.hunt.value;
      if hunt.status != Hunting {
        return;
      }
      match outcome {
        case NoSession =>
          EnqueueNext();
        case ScanError =>
          HandleFailure(hunt);
        case Scanned(cheapest, heldNow, limit, accepted) =>
          var next := Hunting;
          if cheapest.Some? && cheapest.value <= hunt.targetPrice {
            if hunt.autoHold.enabled {
              var refusal := autoHold.Execute(hunt, heldNow, limit, accepted);
              next := if refusal.None? then Paused else Found;
            } else {
              next := Found;
            }
          }
          UpdateHuntAfterRun(hunt, next);
          if next == Hunting {
            EnqueueNext();
          }
      }
    }
  }

  datatype HuntError =
    | NotFound | IncompleteAutoHold | TooManyHunts | QueueUnavailable | NotDeleted | LockUnavailable | NotHunting | TooSoon

  class HuntService {
    const store: HuntStore

    constructor (store: HuntStore)
      ensures this.store == store
    {
      this.store := store;
    }

    /** Creates the row and queues its first scan; without a scan the row is deleted
        again, if the database lets it. */
    method Create(targetPrice: int, autoHold: AutoHold, maxHolds: nat, active: nat, limit: nat,
                  accepted: bool, deleted: bool)
      returns (error: Option<HuntError>)
      requires store.hunt.None?
      modifies store
      ensures error == if autoHold.enabled && !Complete(autoHold) then Some(IncompleteAutoHold)
                       else if limit <= active then Some(TooManyHunts)
                       else if !accepted then Some(if deleted then QueueUnavailable else NotDeleted) else None
      ensures store.hunt == if error.None? || error.value == NotDeleted
                            then Some(NewHunt(targetPrice, autoHold, maxHolds)) else None
      ensures store.queue == if error.None? then old(store.queue) + 1 else old(store.queue)
    {
      if autoHold.enabled && !Complete(autoHold) {
        return Some(IncompleteAutoHold);
      }
      if active >= limit {
        return Some(TooManyHunts);
      }
      var details := if autoHold.enabled then autoHold else AutoHold(false, None, None, None);
      store.hunt := Some(Hunt(Hunting, 0, 0, targetPrice, details, 0, maxHolds));
      if !accepted {
        if !deleted {
          return Some(NotDeleted);
        }
        store.hunt := None;
        return Some(QueueUnavailable);
      }
      store.queue := store.queue + 1;
      error := None;
    }

    /** Pauses, resumes or edits.  A rejected job is swallowed: the hunt is left HUNTING. */
    method Update(action: Action, edits: Edits, accepted: bool) returns (error: Option<HuntError>)
      modifies store
      ensures error == if old(store.hunt).None? then Some(NotFound)
                       else if !Acceptable(edits, old(store.hunt).value.autoHold) then Some(IncompleteAutoHold) else None
      ensures error.Some? ==> store.hunt == old(store.hunt) && store.queue == old(store.queue)
      ensures error.None? ==>
                store.hunt.Some?
                && (store.hunt.value, store.queue) ==
                   UpdateOnce(old(store.hunt.value), old(store.queue), action, edits, accepted)
    {
      if store.hunt.None? {
        return Some(NotFound);
      }
      var hunt := store.hunt.value;
      var row := hunt;
      var resumed := false;
      if action == Pause {
        if hunt.status == Hunting {
          row := row.(status := Paused);
        }
      } else if action == Resume {
        if hunt.status == Paused || hunt.status == Found {
          row := row.(status := Hunting);
          resumed := true;
        }
      }
      if edits.targetPrice.Some? {
        row := row.(targetPrice := edits.targetPrice.value);
      }
      if edits.autoHold == Some(true) {
        var details := Merged(edits, hunt.autoHold);
        if !Complete(details) {
          return Some(IncompleteAutoHold);
        }
        row := row.(autoHold := details);
      } else if edits.autoHold == Some(false) {
        row := row.(autoHold := row.autoHold.(enabled := false));
      } else {
        if edits.passengers.Some? {
          row := row.(autoHold := row.autoHold.(passengers := edits.passengers));
        }
        if edits.phone.Some? {
          row := row.(autoHold := row.autoHold.(phone := edits.phone));
        }
        if edits.email.Some? {
          row := row.(autoHold := row.autoHold.(email := edits.email));
        }
      }
      store.hunt := Some(row);
      if resumed && accepted {
        store.queue := store.queue + 1;
      }
      error := None;
    }

    method Cancel() returns (error: Option<HuntError>)
      modifies store`hunt
      ensures old(store.hunt).None? ==> error == Some(NotFound) && store.hunt.None?
      ensures old(store.hunt).Some? ==>
                error.None? && store.hunt == Some(old(store.hunt).value.(status := Cancelled))
    {
      if store.hunt.None? {
        return Some(NotFound);
      }
      if store.hunt.value.status == Cancelled {
        return None;
      }
      store.hunt := Some(store.hunt.value.(status := Cancelled));
      error := None;
    }

    /** `lock` is the answer of the rate limit in Redis, if it gave one. */
    method RunNow(lock: Option<bool>, accepted: bool) returns (error: Option<HuntError>)
      modifies store`queue
      ensures error == if store.hunt.None? then Some(NotFound)
                       else if store.hunt.value.status != Hunting then Some(NotHunting)
                       else if lock.None? then Some(LockUnavailable)
                       else if !lock.value then Some(TooSoon)
                       else if !accepted then Some(QueueUnavailable) else None
      ensures store.queue == if error.None? then old(store.queue) + 1 else old(store.queue)
    {
      if store.hunt.None? {
        return Some(NotFound);
      }
      if store.hunt.value.status != Hunting {
        return Some(NotHunting);
      }
      if lock.None? {
        return Some(LockUnavailable);
      }
      if !lock.value {
        return Some(TooSoon);
      }
      if !accepted {
        return Some(QueueUnavailable);
      }
      store.queue := store.queue + 1;
      error := None;
    }
  }
}
