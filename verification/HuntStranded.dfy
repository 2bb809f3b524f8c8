/** How a hunting hunt can end up without any scan to come: jobs the queue rejects and
    calls that fail. */
module HuntStranded {
  import opened Common
  import opened Runs
  import opened HuntScheduler

  /** HUNTING, with nothing waiting, running or pending. */
  predicate Stranded(w: World) {
    && w.hunt.Some? && w.hunt.value.status == Hunting && w.queue == 0
    && forall u :: 0 <= u < |w.procs| ==> w.procs[u] == Finished
  }

  /** A stranded hunt stays so until its owner acts. */
  lemma StrandedStays(w: World, e: Event)
    requires Stranded(w)
    requires !e.Request? && !e.RequestCancel? && !e.RequestRunNow?
    ensures Step(w, e) == w
  {
  }

  lemma StrandedIsUnscheduled(w: World)
    requires Stranded(w)
    ensures !Scheduled(w, true)
  {
    SumOfZeros(w.procs, Live(true));
  }

  // ---- Building runs ----

  lemma MayFailOne(w: World, a: Event, failures: set<Failure>)
    requires StepMayFail(w, a, failures)
    ensures MayFail(w, [a], failures) && Run(w, [a]) == Step(w, a)
  {
    assert [a][1..] == [];
    RunOne(Step, w, a, []);
  }

  lemma MayFailThree(w: World, a: Event, b: Event, c: Event, failures: set<Failure>)
    requires StepMayFail(w, a, failures) && StepMayFail(Step(w, a), b, failures)
    requires StepMayFail(Step(Step(w, a), b), c, failures)
    ensures MayFail(w, [a, b, c], failures) && Run(w, [a, b, c]) == Step(Step(Step(w, a), b), c)
  {
    RunThree(Step, w, a, b, c);
    assert [a, b, c][1..] == [b, c] && [b, c][1..] == [c] && [c][1..] == [];
    assert MayFail(Step(Step(w, a), b), [c], failures);
    assert MayFail(Step(w, a), [b, c], failures);
  }

  lemma {:induction false} OtherFailuresConcat(w: World, a: seq<Event>, b: seq<Event>, failures: set<Failure>)
    ensures OtherFailures(w, a + b, failures) == OtherFailures(w, a, failures) + OtherFailures(Run(w, a), b, failures)
    decreases |a|
  {
    if a == [] {
      assert a + b == b;
    } else {
      assert (a + b)[1..] == a[1..] + b;
      OtherFailuresConcat(Step(w, a[0]), a[1..], b, failures);
    }
  }

  lemma MayFailConcat(w: World, a: seq<Event>, b: seq<Event>, failures: set<Failure>)
    requires MayFail(w, a, failures) && MayFail(Run(w, a), b, failures)
    ensures MayFail(w, a + b, failures) && Run(w, a + b) == Run(Run(w, a), b)
  {
    OtherFailuresConcat(w, a, b, failures);
    RunConcat(Step, w, a, b);
  }

  lemma MayFailThen(p: World, q: World, r: World, a: seq<Event>, b: seq<Event>, failures: set<Failure>)
    requires MayFail(p, a, failures) && Run(p, a) == q && MayFail(q, b, failures) && Run(q, b) == r
    ensures MayFail(p, a + b, failures) && Run(p, a + b) == r
  {
    MayFailConcat(p, a, b, failures);
  }

  const NO_AUTO_HOLD := AutoHold(false, None, None, None)
  const NO_EDITS := Edits(None, None, None, None, None)
  const CREATED := NewHunt(0, NO_AUTO_HOLD, 1)
  const FAILED_ONCE := FailedRow(CREATED, CREATED)

  /** A new hunt with its first scan taken from the queue. */
  const STARTED := World(Some(CREATED), 0, [Finished, Started])

  function FirstScanEvents(): seq<Event> {
    [Create(0, NO_AUTO_HOLD, 1), Enqueue(0, Added), Dequeue]
  }

  lemma FirstScanStarts(failures: set<Failure>)
    ensures MayFail(START, FirstScanEvents(), failures) && Run(START, FirstScanEvents()) == STARTED
  {
    MayFailThree(START, Create(0, NO_AUTO_HOLD, 1), Enqueue(0, Added), Dequeue, failures);
  }

  /** Three calls of that scan. */
  lemma FirstScanThen(a: Event, b: Event, c: Event, w: World, failures: set<Failure>)
    requires StepMayFail(STARTED, a, failures) && StepMayFail(Step(STARTED, a), b, failures)
    requires StepMayFail(Step(Step(STARTED, a), b), c, failures)
    requires Step(Step(Step(STARTED, a), b), c) == w
    ensures MayFail(START, FirstScanEvents() + [a, b, c], failures) && Run(START, FirstScanEvents() + [a, b, c]) == w
  {
    FirstScanStarts(failures);
    MayFailThree(STARTED, a, b, c, failures);
    MayFailThen(START, STARTED, w, FirstScanEvents(), [a, b, c], failures);
  }

  // ---- Rejected jobs ----

  const NO_SCAN := World(Some(CREATED), 0, [Finished, Finished])

  /** Some run in which nothing else fails ends with the hunt stranded. */
  ghost predicate CanStrand(failures: set<Failure>) {
    exists events: seq<Event> :: MayFail(START, events, failures) && Stranded(Run(START, events))
  }

  /** When the queue rejects the job of a scan postponed for lack of a session, the
      scan fails and is not retried: the hunt is HUNTING and no scan will ever come. */
  lemma RejectedPostponementStrands(failures: set<Failure>)
    requires Rejected(Postponed) in failures
    ensures CanStrand(failures)
  {
    FirstScanThen(Read(1), NoHeadroom(1), Enqueue(1, Refused), NO_SCAN, failures);
  }

  const SCAN_FAILED := World(Some(FAILED_ONCE), 0, [Finished, Requeueing(CREATED, Retried)])

  /** So does the rejected job of the next scan after a failed one. */
  lemma RejectedRetryStrands(failures: set<Failure>)
    requires Rejected(Retried) in failures
    ensures CanStrand(failures)
  {
    FirstScanThen(Read(1), Throw(1), Handle(1), SCAN_FAILED, failures);
    MayFailOne(SCAN_FAILED, Enqueue(1, Refused), failures);
    MayFailConcat(START, FirstScanEvents() + [Read(1), Throw(1), Handle(1)], [Enqueue(1, Refused)], failures);
  }

  /** The owner paused the hunt before the scan read it. */
  const PAUSED := World(Some(CREATED.(status := Paused)), 0, [Finished, Finished, Finished])

  lemma PausedScan(failures: set<Failure>)
    ensures var events := FirstScanEvents() + [Request(Pause, NO_EDITS), Write(2), Read(1)];
            MayFail(START, events, failures) && Run(START, events) == PAUSED
  {
    var w1 := Step(STARTED, Request(Pause, NO_EDITS));
    assert w1.procs == [Finished, Started, Updating(Pause, NO_EDITS, CREATED)];
    var w2 := Step(w1, Write(2));
    assert w2.procs == [Finished, Started, Finished];
    FirstScanThen(Request(Pause, NO_EDITS), Write(2), Read(1), PAUSED, failures);
  }

  lemma ResumeWritten()
    ensures Step(Step(PAUSED, Request(Resume, NO_EDITS)), Write(3)) ==
            World(Some(CREATED), 0, [Finished, Finished, Finished, ResumePending])
  {
    var w1 := Step(PAUSED, Request(Resume, NO_EDITS));
    assert w1.procs == [Finished, Finished, Finished, Updating(Resume, NO_EDITS, CREATED.(status := Paused))];
  }

  lemma ResumeRejected(failures: set<Failure>)
    requires Rejected(Resumed) in failures
    ensures var events := [Request(Resume, NO_EDITS), Write(3), Enqueue(3, Refused)];
            MayFail(PAUSED, events, failures)
            && Run(PAUSED, events) == World(Some(CREATED), 0, [Finished, Finished, Finished, Finished])
  {
    ResumeWritten();
    MayFailThree(PAUSED, Request(Resume, NO_EDITS), Write(3), Enqueue(3, Refused), failures);
  }

  /** When the queue rejects the job of a resume, the error is only logged. */
  lemma RejectedResumeStrands(failures: set<Failure>)
    requires Rejected(Resumed) in failures
    ensures CanStrand(failures)
  {
    var pause := FirstScanEvents() + [Request(Pause, NO_EDITS), Write(2), Read(1)];
    PausedScan(failures);
    ResumeRejected(failures);
    MayFailConcat(START, pause, [Request(Resume, NO_EDITS), Write(3), Enqueue(3, Refused)], failures);
  }

  // ---- Failing calls ----

  /** A scan that cannot read its hunt is not retried either. */
  lemma FailedReadStrands(failures: set<Failure>)
    requires ReadFailed in failures
    ensures CanStrand(failures)
  {
    FirstScanStarts(failures);
    MayFailOne(STARTED, ReadFails(1), failures);
    MayFailThen(START, STARTED, NO_SCAN, FirstScanEvents(), [ReadFails(1)], failures);
  }

  /** Nor is one whose failure cannot be written down. */
  lemma FailedHandlerStrands(failures: set<Failure>)
    requires HandlerFailed in failures
    ensures CanStrand(failures)
  {
    FirstScanThen(Read(1), Throw(1), HandleFails(1), NO_SCAN, failures);
  }

  /** A hunt whose first job is rejected is to be deleted; if that fails it stays. */
  lemma FailedDeletionStrands(failures: set<Failure>)
    requires Rejected(FirstScan) in failures && DeletionFailed in failures
    ensures CanStrand(failures)
  {
    MayFailThree(START, Create(0, NO_AUTO_HOLD, 1), Enqueue(0, Refused), Rollback(0, false), failures);
  }

  // ---- Exactly when ----

  ghost predicate AlwaysScheduled(failures: set<Failure>) {
    forall events: seq<Event> :: MayFail(START, events, failures) ==> Scheduled(Run(START, events), true)
  }

  /** A hunting hunt always has a scan coming, or is being deleted for want of one,
      exactly when no job of a resume, of a postponed scan or after a failed one is
      rejected, no scan's first read fails, nor the handling of its failure, and not
      both the first job of a hunt is rejected and the deletion of that hunt fails. */
  lemma AlwaysScheduledIff(failures: set<Failure>)
    ensures AlwaysScheduled(failures) <==>
            && Rejected(Resumed) !in failures && Rejected(Postponed) !in failures && Rejected(Retried) !in failures
            && ReadFailed !in failures && HandlerFailed !in failures
            && (Rejected(FirstScan) !in failures || DeletionFailed !in failures)
  {
    if Harmless(failures, true) || Harmless(failures, false) {
      var deletes := Harmless(failures, true);
      forall events: seq<Event> | MayFail(START, events, failures) ensures Scheduled(Run(START, events), true) {
        RunKeepsScheduled(START, events, failures, deletes);
        SumBelow(Run(START, events).procs, Live(deletes), Live(true));
      }
    } else {
      HarmfulStrand(failures);
      var events: seq<Event> :| MayFail(START, events, failures) && Stranded(Run(START, events));
      StrandedIsUnscheduled(Run(START, events));
    }
  }

  lemma HarmfulStrand(failures: set<Failure>)
    requires !Harmless(failures, true) && !Harmless(failures, false)
    ensures CanStrand(failures)
  {
    if Rejected(Resumed) in failures {
      RejectedResumeStrands(failures);
    } else if Rejected(Postponed) in failures {
      RejectedPostponementStrands(failures);
    } else if Rejected(Retried) in failures {
      RejectedRetryStrands(failures);
    } else if ReadFailed in failures {
      FailedReadStrands(failures);
    } else if HandlerFailed in failures {
      FailedHandlerStrands(failures);
    } else {
      FailedDeletionStrands(failures);
    }
  }
}
