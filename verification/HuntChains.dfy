/** How many scans of one hunt follow each other at once: every scan queues its
    successor, so each of these chains goes on until the hunt stops. */
module HuntChains {
  import opened Common
  import opened Runs
  import opened HuntScheduler
  import opened HuntServices
  import opened HuntStranded
  import opened HuntOverlap

  /** A process that is a scan or is about to queue one. */
  function InChain(): Proc -> int {
    (p: Proc) => if p.Updating? || p.Cancelling? || p.RollingBack? || p.Finished? then 0 else 1
  }

  /** Waiting jobs, running scans, and jobs about to be queued. */
  function Chains(w: World): int {
    w.queue + Sum(w.procs, InChain())
  }

  /** Steps that start another chain: a resume is written, a scan is asked for, or the
      job of the next scan is queued although its caller sees an error. */
  function Adds(w: World, e: Event): nat {
    if w.hunt.None? then 0
    else if e.RequestRunNow? then if w.hunt.value.status == Hunting && e.lockAcquired then 1 else 0
    else if IsArrival(e) || |w.procs| <= e.u then 0
    else
      var p := w.procs[e.u];
      if e.Write? && p.Updating? && UpdatedStatus(p.action, p.seen.status) == Some(Hunting) then 1
      else if e.Enqueue? && e.answer.Lost? && p.Requeueing? && p.job == NextScan then 1
      else 0
  }

  function Additions(w: World, events: seq<Event>): nat
    decreases |events|
  {
    if events == [] then 0 else Adds(w, events[0]) + Additions(Step(w, events[0]), events[1..])
  }

  lemma ProcStepChains(w: World, e: Event, u: nat)
    requires u < |w.procs| && w.hunt.Some? && !IsArrival(e) && e.u == u
    ensures var w' := ProcStep(w, e, u);
            && |w'.procs| == |w.procs| && w'.procs == w.procs[u := w'.procs[u]]
            && w'.queue + InChain()(w'.procs[u]) <= w.queue + InChain()(w.procs[u]) + Adds(w, e)
  {
  }

  lemma StepChains(w: World, e: Event)
    requires w != START
    ensures Step(w, e) != START && Chains(Step(w, e)) <= Chains(w) + Adds(w, e)
  {
    var w' := Step(w, e);
    if IsArrival(e) {
      if |w'.procs| != |w.procs| {
        SumAppend(w.procs, w'.procs[|w.procs|], InChain());
        assert w'.procs == w.procs + [w'.procs[|w.procs|]];
      }
    } else if e.u < |w.procs| && w.hunt.Some? {
      ProcStepChains(w, e, e.u);
      SumUpdate(w.procs, e.u, w'.procs[e.u], InChain());
    }
  }

  lemma {:induction false} RunChains(w: World, events: seq<Event>)
    requires w != START
    ensures Chains(Run(w, events)) <= Chains(w) + Additions(w, events)
    decreases |events|
  {
    if events != [] {
      StepChains(w, events[0]);
      RunChains(Step(w, events[0]), events[1..]);
    }
  }

  /** In every run: never more chains than one and the resumes, on-demand scans and lost
      answers there were. */
  lemma {:induction false} ChainsAreAdded(events: seq<Event>)
    ensures Chains(Run(START, events)) <= 1 + Additions(START, events)
    decreases |events|
  {
    if events != [] {
      var e := events[0];
      if e.Create? {
        var w1 := Step(START, e);
        assert w1.procs == [CreatePending] && Sum(w1.procs[..0], InChain()) == 0;
        RunChains(w1, events[1..]);
      } else {
        assert Step(START, e) == START;
        ChainsAreAdded(events[1..]);
      }
    }
  }

  lemma {:induction false} AdditionsConcat(w: World, a: seq<Event>, b: seq<Event>)
    ensures Additions(w, a + b) == Additions(w, a) + Additions(Run(w, a), b)
    decreases |a|
  {
    if a == [] {
      assert a + b == b;
    } else {
      assert (a + b)[1..] == a[1..] + b;
      AdditionsConcat(Step(w, a[0]), a[1..], b);
    }
  }

  lemma AdditionsTwo(w: World, a: Event, b: Event)
    ensures Additions(w, [a] + [b]) == Adds(w, a) + Adds(Step(w, a), b)
    ensures Run(w, [a] + [b]) == Step(Step(w, a), b)
  {
    assert ([a] + [b])[1..] == [b] && [b][1..] == [];
    assert [a] + [b] == [a, b];
    assert Additions(Step(w, a), [b]) == Adds(Step(w, a), b);
    RunTwo(Step, w, a, b);
  }

  lemma RequestAdds(c: nat)
    requires 1 <= c
    ensures Additions(Queued(c), RunNowCalls(c)) == 1
  {
    var w := Queued(c);
    AdditionsTwo(w, RequestRunNow(true), Enqueue(c, Added));
    assert Adds(Step(w, RequestRunNow(true)), Enqueue(c, Added)) == 0;
  }

  lemma AdditionsThen(p: World, q: World, a: seq<Event>, b: seq<Event>, i: nat, j: nat)
    requires Run(p, a) == q && Additions(p, a) == i && Additions(q, b) == j
    ensures Additions(p, a + b) == i + j
  {
    AdditionsConcat(p, a, b);
  }

  lemma RequestsRun(c: nat)
    ensures Run(Queued(1), Requests(c)) == Queued(c + 1)
  {
    RequestsQueue(c, 1);
  }

  lemma {:induction false} RequestsAdd(c: nat)
    ensures Additions(Queued(1), Requests(c)) == c
  {
    if c != 0 {
      RequestsAdd(c - 1);
      RequestsRun(c - 1);
      RequestAdds(c);
      var before, last := Requests(c - 1), RunNowCalls(c);
      AdditionsThen(Queued(1), Queued(c), before, last, c - 1, 1);
      assert Requests(c) == before + last;
    }
  }

  lemma QueuedChains(n: nat)
    ensures Chains(Queued(n)) == n
  {
    SumOfZeros(Queued(n).procs, InChain());
  }

  /** The bound is attained for every number of additions. */
  lemma ChainsAttained(k: nat) returns (events: seq<Event>)
    ensures Additions(START, events) == k && Chains(Run(START, events)) == 1 + k
  {
    RequestsAdd(k);
    RequestsRun(k);
    AdditionsThen(START, Queued(1), CreateCalls(), Requests(k), 0, k);
    RunConcat(Step, START, CreateCalls(), Requests(k));
    QueuedChains(k + 1);
    events := CreateCalls() + Requests(k);
  }

  ghost predicate OneChain(k: nat) {
    forall events: seq<Event> :: Additions(START, events) <= k ==> Chains(Run(START, events)) <= 1
  }

  /** A hunt has one scan at a time, waiting or running, exactly when it is never
      resumed, never scanned on demand, and no queue answer is lost. */
  lemma OneChainIff(k: nat)
    ensures OneChain(k) <==> k == 0
  {
    if k == 0 {
      forall events: seq<Event> | Additions(START, events) <= 0 ensures Chains(Run(START, events)) <= 1 {
        ChainsAreAdded(events);
      }
    } else {
      var events := ChainsAttained(k);
    }
  }

  // ---- Pausing and resuming during a scan ----

  const RESUMED := World(Some(CREATED), 1, [Finished, Scanning(CREATED), Finished, Finished])

  lemma PausedAndResumed()
    ensures var w := World(Some(CREATED), 0, [Finished, Scanning(CREATED)]);
            Run(w, [Request(Pause, NO_EDITS), Write(2)] + [Request(Resume, NO_EDITS), Write(3), Enqueue(3, Added)])
            == RESUMED
  {
    var w := World(Some(CREATED), 0, [Finished, Scanning(CREATED)]);
    var pause, resume := [Request(Pause, NO_EDITS), Write(2)], [Request(Resume, NO_EDITS), Write(3), Enqueue(3, Added)];
    var paused := CREATED.(status := Paused);
    var w1 := World(Some(CREATED), 0, [Finished, Scanning(CREATED), Updating(Pause, NO_EDITS, CREATED)]);
    assert Step(w, Request(Pause, NO_EDITS)) == w1;
    var w2 := World(Some(paused), 0, [Finished, Scanning(CREATED), Finished]);
    assert Step(w1, Write(2)) == w2;
    RunTwo(Step, w, Request(Pause, NO_EDITS), Write(2));
    var w3 := World(Some(paused), 0, [Finished, Scanning(CREATED), Finished, Updating(Resume, NO_EDITS, paused)]);
    assert Step(w2, Request(Resume, NO_EDITS)) == w3;
    var w4 := World(Some(CREATED), 0, [Finished, Scanning(CREATED), Finished, ResumePending]);
    assert Step(w3, Write(3)) == w4;
    assert Step(w4, Enqueue(3, Added)) == RESUMED;
    RunThree(Step, w2, Request(Resume, NO_EDITS), Write(3), Enqueue(3, Added));
    RunConcat(Step, w, pause, resume);
  }

  lemma OldScanGoesOn()
    ensures var events := [Decide(1, None, false), Close(1), Conclude(1), Enqueue(1, Added)];
            Run(RESUMED, events) ==
            World(Some(ClosedRow(CREATED, CREATED, Hunting)), 2, [Finished, Finished, Finished, Finished])
  {
    var w1 := RESUMED.(procs := RESUMED.procs[1 := Closing(CREATED, Hunting)]);
    assert Step(RESUMED, Decide(1, None, false)) == w1;
    var w2 := World(Some(ClosedRow(CREATED, CREATED, Hunting)), 1, RESUMED.procs[1 := Closed(CREATED, Hunting)]);
    assert Step(w1, Close(1)).procs == w2.procs;
    var w3 := w2.(procs := RESUMED.procs[1 := Requeueing(CREATED, NextScan)]);
    assert Step(w2, Conclude(1)).procs == w3.procs;
    RunFour(Step, RESUMED, Decide(1, None, false), Close(1), Conclude(1), Enqueue(1, Added));
  }

  /** A hunt paused and resumed while it is scanned has two scans waiting afterwards:
      the resume queued one, and the old scan goes on to queue its own. */
  lemma PauseAndResumeDoublesTheScans() returns (events: seq<Event>)
    ensures var w := Run(START, events);
            w.queue == 2 && w.hunt.Some? && w.hunt.value.status == Hunting
            && forall u :: 0 <= u < |w.procs| ==> w.procs[u] == Finished
  {
    var pause, resume := [Request(Pause, NO_EDITS), Write(2)], [Request(Resume, NO_EDITS), Write(3), Enqueue(3, Added)];
    var rest := [Decide(1, None, false), Close(1), Conclude(1), Enqueue(1, Added)];
    var read := World(Some(CREATED), 0, [Finished, Scanning(CREATED)]);
    FirstScanStarts({});
    RunOne(Step, STARTED, Read(1), []);
    assert Step(STARTED, Read(1)) == read;
    PausedAndResumed();
    OldScanGoesOn();
    RunConcat(Step, START, FirstScanEvents(), [Read(1)]);
    RunConcat(Step, START, FirstScanEvents() + [Read(1)], pause + resume);
    RunConcat(Step, START, FirstScanEvents() + [Read(1)] + (pause + resume), rest);
    events := FirstScanEvents() + [Read(1)] + (pause + resume) + rest;
  }

  /** And it stays so: any waiting scan that is taken, finds nothing and goes on leaves as
      many waiting as there were. */
  lemma ScanReplacesItself(w: World)
    requires w.hunt.Some? && w.hunt.value.status == Hunting && 0 < w.queue
    ensures var h := w.hunt.value;
            Run(w, [Dequeue] + Script(h, |w.procs|, Scanned(None, [], 0, false))) ==
            World(Some(ClosedRow(h, h, Hunting)), w.queue, w.procs + [Finished])
  {
    var h, u, outcome := w.hunt.value, |w.procs|, Scanned(None, [], 0, false);
    var w1 := World(w.hunt, w.queue - 1, w.procs + [Started]);
    assert Step(w, Dequeue) == w1;
    ScanOnceIsARun(w1, u, outcome);
    RunOne(Step, w, Dequeue, Script(h, u, outcome));
    LastChanges(w.procs, Started, Finished);
  }
}
