/** What can go wrong around one hunt: late writers after a cancellation, and more
    bookings than its maximum. */
module HuntTheorems {
  import opened Common
  import opened Runs
  import opened HuntScheduler
  import opened HuntStranded

  // ---- CANCELLED ----

  /** A process that can still take a cancelled hunt out of CANCELLED: a scan that has
      not decided, or decided to close the hunt otherwise, or is one failure short of
      pausing it; or an update that saw a status it changes. */
  predicate CanRevive(p: Proc) {
    || p.Scanning? || p.HoldingSeats? || p.Held?
    || (p.Closing? && p.next != Hunting)
    || ((p.Closing? || p.Closed? || p.Failing? || (p.Requeueing? && p.job == NextScan))
        && FAILURE_THRESHOLD <= p.snap.failureStreak + 1)
    || (p.Updating? && UpdatedStatus(p.action, p.seen.status).Some?)
  }

  predicate NotRevived(w: World) {
    w.hunt.Some? ==> w.hunt.value.status == Cancelled
  }

  ghost predicate NobodyRevives(w: World) {
    forall u :: 0 <= u < |w.procs| ==> !CanRevive(w.procs[u])
  }

  lemma StepKeepsCancelled(w: World, e: Event)
    requires w != START && ProcsSound(w) && NotRevived(w) && NobodyRevives(w)
    ensures Step(w, e) != START && NotRevived(Step(w, e)) && NobodyRevives(Step(w, e))
  {
    if !IsArrival(e) && e.u < |w.procs| && w.hunt.Some? {
      ProcStepKeepsCancelled(w, e, e.u);
    }
  }

  lemma ProcStepKeepsCancelled(w: World, e: Event, u: nat)
    requires u < |w.procs| && w.hunt.Some? && NotRevived(w) && ProcSound(w.procs[u]) && !CanRevive(w.procs[u])
    ensures var w' := ProcStep(w, e, u);
            && |w'.procs| == |w.procs| && w'.procs == w.procs[u := w'.procs[u]]
            && NotRevived(w') && !CanRevive(w'.procs[u])
  {
  }

  /** A cancellation overlapped by no such process is final in every run. */
  lemma {:induction false} CancelledIsFinal(w: World, events: seq<Event>)
    requires w != START && ProcsSound(w) && NotRevived(w) && NobodyRevives(w)
    ensures NotRevived(Run(w, events))
    decreases |events|
  {
    if events != [] {
      StepKeepsSound(w, events[0]);
      StepKeepsCancelled(w, events[0]);
      CancelledIsFinal(Step(w, events[0]), events[1..]);
    }
  }

  predicate RevivingWrite(e: Event, p: Proc) {
    || (e.WriteHold? && p.Held?)
    || (e.Close? && p.Closing? && p.next != Hunting)
    || (e.Handle? && p.Failing? && FAILURE_THRESHOLD <= p.snap.failureStreak + 1)
    || (e.Write? && p.Updating? && UpdatedStatus(p.action, p.seen.status).Some?)
  }

  /** The single steps that do it: the late writes of such processes. */
  lemma LeavesCancelledIff(w: World, e: Event)
    requires w.hunt.Some? && w.hunt.value.status == Cancelled && ProcsSound(w)
    ensures !NotRevived(Step(w, e)) <==>
            !IsArrival(e) && e.u < |w.procs| && RevivingWrite(e, w.procs[e.u])
  {
    if !IsArrival(e) && e.u < |w.procs| {
      assert ProcSound(w.procs[e.u]);
    }
  }

  /** What such a process does next to revive the hunt. */
  function Reviving(p: Proc, u: nat): seq<Event>
    requires CanRevive(p)
  {
    if p.Scanning? then [Decide(u, Some(p.snap.targetPrice), false), Close(u)]
    else if p.HoldingSeats? then [HoldResult(u, true), WriteHold(u)]
    else if p.Held? then [WriteHold(u)]
    else if p.Closing? && p.next != Hunting then [Close(u)]
    else if p.Closing? || p.Closed? then [Throw(u), Handle(u)]
    else if p.Failing? then [Handle(u)]
    else if p.Requeueing? then [Enqueue(u, Refused), Handle(u)]
    else [Write(u)]
  }

  lemma RevivingRevives(w: World, u: nat)
    requires w.hunt.Some? && w.hunt.value.status == Cancelled && u < |w.procs|
    requires ProcSound(w.procs[u]) && CanRevive(w.procs[u])
    ensures !NotRevived(Run(w, Reviving(w.procs[u], u)))
  {
    var events := Reviving(w.procs[u], u);
    if |events| == 1 {
      RunOne(Step, w, events[0], []);
    } else {
      RunTwo(Step, w, events[0], events[1]);
      var w1 := Step(w, events[0]);
      assert w1.hunt == w.hunt && w1.procs == w.procs[u := w1.procs[u]];
    }
  }

  ghost predicate StaysCancelled(w: World) {
    forall events: seq<Event> :: NotRevived(Run(w, events))
  }

  /** At any time in the life of a cancelled hunt: it stays cancelled whatever happens
      exactly when no process in progress can revive it. */
  lemma StaysCancelledIff(history: seq<Event>, w: World)
    requires w == Run(START, history) && w.hunt.Some? && w.hunt.value.status == Cancelled
    ensures StaysCancelled(w) <==> NobodyRevives(w)
  {
    RunKeepsSound(START, history);
    if NobodyRevives(w) {
      forall events: seq<Event> ensures NotRevived(Run(w, events)) {
        CancelledIsFinal(w, events);
      }
    } else {
      var u :| 0 <= u < |w.procs| && CanRevive(w.procs[u]);
      RevivingRevives(w, u);
    }
  }

  lemma CancelWhileScanning()
    ensures Run(STARTED, [Read(1), RequestCancel, Write(2)]) ==
            World(Some(CREATED.(status := Cancelled)), 0, [Finished, Scanning(CREATED), Finished])
  {
    RunThree(Step, STARTED, Read(1), RequestCancel, Write(2));
  }

  lemma ScanClosesAsFound()
    ensures var w := World(Some(CREATED.(status := Cancelled)), 0, [Finished, Scanning(CREATED), Finished]);
            var w' := Run(w, [Decide(1, Some(0), true), Close(1)]);
            w'.hunt.Some? && w'.hunt.value.status == Found
  {
    RunTwo(Step, World(Some(CREATED.(status := Cancelled)), 0, [Finished, Scanning(CREATED), Finished]),
           Decide(1, Some(0), true), Close(1));
  }

  /** A hunt that its owner cancelled is FOUND afterwards: the scan was under way. */
  lemma CancelledHuntIsFound() returns (history: seq<Event>, rest: seq<Event>)
    ensures Run(START, history).hunt == Some(CREATED.(status := Cancelled))
    ensures Run(Run(START, history), rest).hunt.Some?
            && Run(Run(START, history), rest).hunt.value.status == Found
  {
    var first := FirstScanEvents();
    var cancel := [Read(1), RequestCancel, Write(2)];
    FirstScanStarts({});
    CancelWhileScanning();
    ScanClosesAsFound();
    RunConcat(Step, START, first, cancel);
    history, rest := first + cancel, [Decide(1, Some(0), true), Close(1)];
  }

  // ---- Auto-holds ----

  function InScan(): Proc -> int {
    (p: Proc) => if p.Scanning? || p.HoldingSeats? || p.Held? then 1 else 0
  }

  /** A scan that may still count an auto-hold that its snapshot allowed. */
  function MayHold(): Proc -> int {
    (p: Proc) =>
      if (p.Scanning? || p.HoldingSeats? || p.Held?) && p.snap.autoHoldsUsed < p.snap.autoHoldMaxHolds then 1 else 0
  }

  /** A scan whose booking is made and not yet counted. */
  function Uncounted(): Proc -> int {
    (p: Proc) => if p.Held? then 1 else 0
  }

  /** The booking service makes a booking for a scan. */
  function Holds(w: World, e: Event): nat {
    if e.HoldResult? && e.held && e.u < |w.procs| && w.hunt.Some? && w.procs[e.u].HoldingSeats? then 1 else 0
  }

  function HoldsMade(w: World, events: seq<Event>): nat
    decreases |events|
  {
    if events == [] then 0 else Holds(w, events[0]) + HoldsMade(Step(w, events[0]), events[1..])
  }

  /** The write that would count a booking fails. */
  function LosesHold(w: World, e: Event): nat {
    if e.Throw? && e.u < |w.procs| && w.hunt.Some? && w.procs[e.u].Held? then 1 else 0
  }

  function HoldsLost(w: World, events: seq<Event>): nat
    decreases |events|
  {
    if events == [] then 0 else LosesHold(w, events[0]) + HoldsLost(Step(w, events[0]), events[1..])
  }

  /** A run in which at most n scans are between reading the hunt and having counted
      their booking, if they make one. */
  predicate AtMost(w: World, events: seq<Event>, n: nat) {
    CrowdedSteps(w, events, n) == 0
  }

  /** The steps that leave more than `n` scans in progress. */
  function CrowdedSteps(w: World, events: seq<Event>, n: nat): nat
    decreases |events|
  {
    if events == [] then 0
    else (if Sum(Step(w, events[0]).procs, InScan()) <= n then 0 else 1) + CrowdedSteps(Step(w, events[0]), events[1..], n)
  }

  predicate HoldsWithin(p: Proc) {
    p.HoldingSeats? || p.Held? ==> p.snap.autoHoldsUsed < p.snap.autoHoldMaxHolds
  }

  ghost predicate HoldsBounded(w: World, n: int) {
    && (forall u :: 0 <= u < |w.procs| ==> HoldsWithin(w.procs[u]))
    && (w.hunt.Some? ==>
          w.hunt.value.autoHoldsUsed + Sum(w.procs, MayHold()) <= w.hunt.value.autoHoldMaxHolds + n - 1)
    && Sum(w.procs, InScan()) <= n
  }

  /** One process alone: a step uses up a possible auto-hold at most; only reading the
      hunt adds one, and then the hunt allows it. */
  lemma ProcStepHolds(w: World, e: Event, u: nat)
    requires u < |w.procs| && w.hunt.Some? && HoldsWithin(w.procs[u])
    ensures var w' := ProcStep(w, e, u);
            && |w'.procs| == |w.procs| && w'.procs == w.procs[u := w'.procs[u]] && HoldsWithin(w'.procs[u])
            && (w'.hunt.Some? ==>
                  var h, h' := w.hunt.value, w'.hunt.value;
                  && h'.autoHoldMaxHolds == h.autoHoldMaxHolds
                  && (h'.autoHoldsUsed + MayHold()(w'.procs[u]) <= h.autoHoldsUsed + MayHold()(w.procs[u])
                      || (h'.autoHoldsUsed == h.autoHoldsUsed < h.autoHoldMaxHolds)))
  {
  }

  lemma ProcStepKeepsHoldsBounded(w: World, e: Event, u: nat, n: nat)
    requires u < |w.procs| && w.hunt.Some? && 1 <= n
    requires HoldsBounded(w, n) && Sum(ProcStep(w, e, u).procs, InScan()) <= n
    ensures HoldsBounded(ProcStep(w, e, u), n)
  {
    ProcStepHolds(w, e, u);
    var procs := ProcStep(w, e, u).procs;
    SumUpdate(w.procs, u, procs[u], MayHold());
    SumBelow(procs, MayHold(), InScan());
  }

  lemma ArrivalKeepsHoldsBounded(w: World, w': World, arrived: Proc, n: nat)
    requires HoldsBounded(w, n) && w'.hunt == w.hunt && w'.procs == w.procs + [arrived]
    requires !arrived.Scanning? && !arrived.HoldingSeats? && !arrived.Held?
    ensures HoldsBounded(w', n)
  {
    SumAppend(w.procs, arrived, MayHold());
    SumAppend(w.procs, arrived, InScan());
  }

  lemma StepKeepsHoldsBounded(w: World, e: Event, n: nat)
    requires 1 <= n && HoldsBounded(w, n) && Sum(Step(w, e).procs, InScan()) <= n
    ensures HoldsBounded(Step(w, e), n)
  {
    var w' := Step(w, e);
    if e.Create? {
      SumOfZeros([CreatePending], MayHold());
    } else if IsArrival(e) {
      if |w'.procs| != |w.procs| {
        ArrivalKeepsHoldsBounded(w, w', w'.procs[|w.procs|], n);
      }
    } else if e.u < |w.procs| && w.hunt.Some? {
      ProcStepKeepsHoldsBounded(w, e, e.u, n);
    }
  }

  function Used(w: World): nat {
    if w.hunt.Some? then w.hunt.value.autoHoldsUsed else 0
  }

  lemma ProcStepAccountsForHolds(w: World, e: Event, u: nat)
    requires u < |w.procs| && w.hunt.Some? && !IsArrival(e) && e.u == u
    ensures var w' := ProcStep(w, e, u);
            && |w'.procs| == |w.procs| && w'.procs == w.procs[u := w'.procs[u]]
            && (w'.hunt.Some? ==>
                  Used(w') + Uncounted()(w'.procs[u]) + LosesHold(w, e) == Used(w) + Uncounted()(w.procs[u]) + Holds(w, e))
  {
  }

  /** A booking, once made, is not yet counted, counted, or its count is lost. */
  lemma StepAccountsForHolds(w: World, e: Event)
    requires w.hunt.Some?
    ensures Step(w, e).hunt.Some? ==>
              Used(Step(w, e)) + Sum(Step(w, e).procs, Uncounted()) + LosesHold(w, e) ==
              Used(w) + Sum(w.procs, Uncounted()) + Holds(w, e)
  {
    var w' := Step(w, e);
    if IsArrival(e) {
      if |w'.procs| != |w.procs| {
        SumAppend(w.procs, w'.procs[|w.procs|], Uncounted());
        assert w'.procs == w.procs + [w'.procs[|w.procs|]];
      }
    } else if e.u < |w.procs| {
      ProcStepAccountsForHolds(w, e, e.u);
      SumUpdate(w.procs, e.u, w'.procs[e.u], Uncounted());
    }
  }

  /** Every booking is counted in the row, about to be, or lost. */
  lemma {:induction false} HoldsAreAccounted(w: World, events: seq<Event>)
    requires Run(w, events).hunt.Some? && (w.hunt.Some? || w == START)
    ensures Used(Run(w, events)) + Sum(Run(w, events).procs, Uncounted()) + HoldsLost(w, events) ==
            Used(w) + Sum(w.procs, Uncounted()) + HoldsMade(w, events)
    decreases |events|
  {
    if events != [] {
      var w1 := Step(w, events[0]);
      if w.hunt.Some? {
        if w1.hunt.None? {
          NoHuntStays(w1, events[1..]);
        }
        StepAccountsForHolds(w, events[0]);
      } else if events[0].Create? {
        SumOfZeros(w1.procs, Uncounted());
      }
      HoldsAreAccounted(w1, events[1..]);
    }
  }

  lemma {:induction false} NoHuntStays(w: World, events: seq<Event>)
    requires w.hunt.None? && w.procs != []
    ensures Run(w, events).hunt.None?
    decreases |events|
  {
    if events != [] {
      NoHuntStays(Step(w, events[0]), events[1..]);
    }
  }

  lemma {:induction false} RunKeepsHoldsBounded(w: World, events: seq<Event>, n: nat)
    requires 1 <= n && HoldsBounded(w, n) && AtMost(w, events, n)
    ensures HoldsBounded(Run(w, events), n)
    decreases |events|
  {
    if events != [] {
      StepKeepsHoldsBounded(w, events[0], n);
      RunKeepsHoldsBounded(Step(w, events[0]), events[1..], n);
    }
  }

  /** With at most n scans overlapping, the bookings made exceed the hunt's maximum by
      at most n - 1 and those whose count was lost. */
  lemma AutoHoldBound(events: seq<Event>, n: nat)
    requires 1 <= n && AtMost(START, events, n) && Run(START, events).hunt.Some?
    ensures HoldsMade(START, events) <=
            Run(START, events).hunt.value.autoHoldMaxHolds + n - 1 + HoldsLost(START, events)
  {
    var w := Run(START, events);
    RunKeepsHoldsBounded(START, events, n);
    HoldsAreAccounted(START, events);
    UncountedMayHold(w.procs);
  }

  lemma {:induction false} UncountedMayHold(procs: seq<Proc>)
    requires forall u :: 0 <= u < |procs| ==> HoldsWithin(procs[u])
    ensures Sum(procs, Uncounted()) <= Sum(procs, MayHold())
  {
    SumBelow(procs, Uncounted(), MayHold());
  }

  /** What the hunt promises: no more bookings than its maximum, with at most n scans
      overlapping and at most j counts lost. */
  ghost predicate MaximumKept(n: nat, j: nat) {
    forall events: seq<Event> ::
      AtMost(START, events, n) && HoldsLost(START, events) <= j && Run(START, events).hunt.Some? ==>
        HoldsMade(START, events) <= Run(START, events).hunt.value.autoHoldMaxHolds
  }
}
