/** How far the bookings made for one hunt really exceed its maximum: overlapping scans,
    and bookings that are not counted. */
module HuntOverlap {
  import opened Common
  import opened Runs
  import opened HuntScheduler
  import opened HuntTheorems

  // ---- Building long runs ----

  lemma {:induction false} CrowdedStepsConcat(w: World, a: seq<Event>, b: seq<Event>, n: nat)
    ensures CrowdedSteps(w, a + b, n) == CrowdedSteps(w, a, n) + CrowdedSteps(Run(w, a), b, n)
    decreases |a|
  {
    if a == [] {
      assert a + b == b;
    } else {
      assert (a + b)[1..] == a[1..] + b;
      CrowdedStepsConcat(Step(w, a[0]), a[1..], b, n);
    }
  }

  lemma AtMostConcat(w: World, a: seq<Event>, b: seq<Event>, n: nat)
    requires AtMost(w, a, n) && AtMost(Run(w, a), b, n)
    ensures AtMost(w, a + b, n) && Run(w, a + b) == Run(Run(w, a), b)
  {
    CrowdedStepsConcat(w, a, b, n);
    RunConcat(Step, w, a, b);
  }

  lemma AtMostThen(p: World, q: World, r: World, a: seq<Event>, b: seq<Event>, n: nat)
    requires AtMost(p, a, n) && Run(p, a) == q && AtMost(q, b, n) && Run(q, b) == r
    ensures AtMost(p, a + b, n) && Run(p, a + b) == r
  {
    AtMostConcat(p, a, b, n);
  }

  lemma AtMostOne(w: World, e: Event, n: nat)
    requires Sum(Step(w, e).procs, InScan()) <= n
    ensures AtMost(w, [e], n) && Run(w, [e]) == Step(w, e)
  {
    assert [e][1..] == [];
    RunOne(Step, w, e, []);
  }

  function Repeat(events: nat -> seq<Event>, c: nat): seq<Event> {
    if c == 0 then [] else Repeat(events, c - 1) + events(c - 1)
  }

  /** c turns, each leading from one world of a series to the next. */
  lemma {:induction false} Phase(world: nat -> World, events: nat -> seq<Event>, c: nat, n: nat)
    requires forall i :: 0 <= i < c ==> AtMost(world(i), events(i), n) && Run(world(i), events(i)) == world(i + 1)
    ensures AtMost(world(0), Repeat(events, c), n) && Run(world(0), Repeat(events, c)) == world(c)
  {
    if c != 0 {
      Phase(world, events, c - 1, n);
      AtMostConcat(world(0), Repeat(events, c - 1), events(c - 1), n);
    }
  }

  // ---- n requests and n scans ----

  /** n finished requests, then scans of which the first c have come to x and the
      others are still at y. */
  function Procs(n: nat, m: nat, c: nat, x: Proc, y: Proc): (r: seq<Proc>)
    ensures |r| == n + m
    ensures forall i :: 0 <= i < n + m ==> r[i] == if i < n then Finished else if i < n + c then x else y
  {
    seq(n + m, i requires 0 <= i < n + m => if i < n then Finished else if i < n + c then x else y)
  }

  /** When all scans have come to x, none of them has gone on to z yet. */
  lemma AllTheSame(n: nat, m: nat, x: Proc, y: Proc, z: Proc)
    ensures Procs(n, m, m, x, y) == Procs(n, m, 0, z, x)
  {
  }

  lemma {:induction false} FewScans(n: nat, m: nat, c: nat, x: Proc, y: Proc)
    ensures Sum(Procs(n, m, c, x, y), InScan()) <= m
  {
    var procs := Procs(n, m, c, x, y);
    if m == 0 {
      SumOfZeros(procs, InScan());
    } else {
      FewScans(n, m - 1, c, x, y);
      assert procs[..n + m - 1] == Procs(n, m - 1, c, x, y);
    }
  }

  const CUSTOMER := AutoHold(true, Some([Adult]), Some("0900000000"), Some("a@b.vn"))
  const AUTO := NewHunt(0, CUSTOMER, 1)

  function Queued(n: nat): World {
    World(Some(AUTO), n, Procs(n, 0, 0, Finished, Finished))
  }

  function Taken(n: nat): nat -> World {
    (d: nat) => World(Some(AUTO), if d <= n then n - d else 0, Procs(n, d, d, Started, Started))
  }

  function Deciding(n: nat, x: Proc, y: Proc): nat -> World {
    (c: nat) => World(Some(AUTO), 0, Procs(n, n, c, x, y))
  }

  function Counting(n: nat): nat -> World {
    (c: nat) => World(Some(AUTO.(autoHoldsUsed := c, status := if c == 0 then Hunting else Paused)), 0,
               Procs(n, n, c, Closing(AUTO, Paused), Held(AUTO)))
  }

  lemma CreateQueues(n: nat)
    ensures AtMost(START, CreateCalls(), n) && Run(START, CreateCalls()) == Queued(1)
  {
    var w1 := World(Some(AUTO), 0, [CreatePending]);
    assert Step(START, Create(0, CUSTOMER, 1)) == w1;
    SumOfZeros(w1.procs, InScan());
    AtMostOne(START, Create(0, CUSTOMER, 1), n);
    assert Step(w1, Enqueue(0, Added)) == Queued(1);
    FewScans(1, 0, 0, Finished, Finished);
    AtMostOne(w1, Enqueue(0, Added), n);
    AtMostConcat(START, [Create(0, CUSTOMER, 1)], [Enqueue(0, Added)], n);
  }

  lemma LastChanges(procs: seq<Proc>, p: Proc, q: Proc)
    ensures (procs + [p])[|procs| := q] == procs + [q]
  {
  }

  function Waiting(k: nat, procs: seq<Proc>): World {
    World(Some(AUTO), k, procs)
  }

  /** The queue accepts the job of the process that arrived last. */
  lemma LastIsQueued(w: World, procs: seq<Proc>)
    requires w.hunt.Some? && w.procs == procs + [RunNowReady]
    ensures Step(w, Enqueue(|procs|, Added)) == World(w.hunt, w.queue + 1, procs + [Finished])
  {
    assert w.procs[|procs|] == RunNowReady;
    LastChanges(procs, RunNowReady, Finished);
  }

  lemma RunNowIsQueued(procs: seq<Proc>, n: nat)
    requires Sum(procs, InScan()) == 0
    ensures var k := |procs|;
            var w1, w2 := Waiting(k, procs + [RunNowReady]), Waiting(k + 1, procs + [Finished]);
            AtMost(w1, [Enqueue(k, Added)], n) && Run(w1, [Enqueue(k, Added)]) == w2
  {
    var w1 := Waiting(|procs|, procs + [RunNowReady]);
    LastIsQueued(w1, procs);
    SumAppend(procs, Finished, InScan());
    AtMostOne(w1, Enqueue(|procs|, Added), n);
  }

  lemma RunNowQueues(procs: seq<Proc>, n: nat)
    requires Sum(procs, InScan()) == 0
    ensures var k := |procs|;
            var w, w2 := Waiting(k, procs), Waiting(k + 1, procs + [Finished]);
            AtMost(w, RunNowCalls(k), n) && Run(w, RunNowCalls(k)) == w2
  {
    RunNowIsQueued(procs, n);
    AtMostConcat(Waiting(|procs|, procs), [RequestRunNow(true)], [Enqueue(|procs|, Added)], n);
  }

  lemma FinishedProcs(k: nat)
    ensures Procs(k + 1, 0, 0, Finished, Finished) == Procs(k, 0, 0, Finished, Finished) + [Finished]
    ensures Sum(Procs(k, 0, 0, Finished, Finished), InScan()) == 0
  {
    SumOfZeros(Procs(k, 0, 0, Finished, Finished), InScan());
  }

  lemma JobTaken(n: nat, d: nat)
    requires d < n
    ensures AtMost(Taken(n)(d), [Dequeue], n) && Run(Taken(n)(d), [Dequeue]) == Taken(n)(d + 1)
  {
    assert Step(Taken(n)(d), Dequeue).procs == Taken(n)(d + 1).procs;
    FewScans(n, d + 1, d + 1, Started, Started);
    AtMostOne(Taken(n)(d), Dequeue, n);
  }

  /** One more scan makes its next call. */
  lemma ScanTurn(w: World, w': World, e: Event, n: nat, c: nat, x: Proc, y: Proc)
    requires c < n && w.hunt.Some? && !IsArrival(e) && e.u == n + c
    requires w.procs == Procs(n, n, c, x, y) && w'.procs == Procs(n, n, c + 1, x, y)
    requires ProcStep(w, e, e.u) == World(w'.hunt, w'.queue, w.procs[e.u := x])
    ensures AtMost(w, [e], n) && Run(w, [e]) == w'
  {
    assert w.procs[n + c := x] == w'.procs;
    FewScans(n, n, c + 1, x, y);
    AtMostOne(w, e, n);
  }

  // ---- The phases one after the other ----

  function CreateCalls(): seq<Event> {
    [Create(0, CUSTOMER, 1)] + [Enqueue(0, Added)]
  }

  function RunNowCalls(u: nat): seq<Event> {
    [RequestRunNow(true)] + [Enqueue(u, Added)]
  }

  function Requests(c: nat): seq<Event> {
    if c == 0 then [] else Requests(c - 1) + RunNowCalls(c)
  }

  function TakeEvents(): nat -> seq<Event> {
    (i: nat) => [Dequeue]
  }

  function ReadEvents(n: nat): nat -> seq<Event> {
    (i: nat) => [Read(n + i)]
  }

  function DecideEvents(n: nat): nat -> seq<Event> {
    (i: nat) => [Decide(n + i, Some(0), true)]
  }

  function HoldEvents(n: nat): nat -> seq<Event> {
    (i: nat) => [HoldResult(n + i, true)]
  }

  function CountEvents(n: nat): nat -> seq<Event> {
    (i: nat) => [WriteHold(n + i)]
  }

  lemma {:induction false} RequestsQueue(c: nat, n: nat)
    ensures AtMost(Queued(1), Requests(c), n) && Run(Queued(1), Requests(c)) == Queued(c + 1)
  {
    if c != 0 {
      RequestsQueue(c - 1, n);
      FinishedProcs(c);
      RunNowQueues(Procs(c, 0, 0, Finished, Finished), n);
      AtMostThen(Queued(1), Queued(c), Queued(c + 1), Requests(c - 1), RunNowCalls(c), n);
    }
  }

  lemma AllQueued(n: nat)
    requires 1 <= n
    ensures AtMost(START, CreateCalls() + Requests(n - 1), n)
    ensures Run(START, CreateCalls() + Requests(n - 1)) == Queued(n)
  {
    CreateQueues(n);
    RequestsQueue(n - 1, n);
    AtMostThen(START, Queued(1), Queued(n), CreateCalls(), Requests(n - 1), n);
  }

  lemma TakenStart(n: nat)
    ensures Taken(n)(0) == Queued(n)
  {
    AllTheSame(n, 0, Finished, Finished, Started);
    assert Procs(n, 0, 0, Started, Started) == Procs(n, 0, 0, Finished, Finished);
  }

  lemma AllTaken(n: nat)
    ensures AtMost(Queued(n), Repeat(TakeEvents(), n), n)
    ensures Run(Queued(n), Repeat(TakeEvents(), n)) == Deciding(n, Scanning(AUTO), Started)(0)
  {
    var world := Taken(n);
    forall i | 0 <= i < n
      ensures AtMost(world(i), TakeEvents()(i), n) && Run(world(i), TakeEvents()(i)) == world(i + 1)
    {
      JobTaken(n, i);
    }
    Phase(world, TakeEvents(), n, n);
    TakenStart(n);
  }

  lemma AllRead(n: nat)
    ensures var world := Deciding(n, Scanning(AUTO), Started);
            AtMost(world(0), Repeat(ReadEvents(n), n), n)
            && Run(world(0), Repeat(ReadEvents(n), n)) == Deciding(n, HoldingSeats(AUTO), Scanning(AUTO))(0)
  {
    var world := Deciding(n, Scanning(AUTO), Started);
    forall i | 0 <= i < n
      ensures AtMost(world(i), ReadEvents(n)(i), n) && Run(world(i), ReadEvents(n)(i)) == world(i + 1)
    {
      ScanTurn(world(i), world(i + 1), Read(n + i), n, i, Scanning(AUTO), Started);
    }
    Phase(world, ReadEvents(n), n, n);
    AllTheSame(n, n, Scanning(AUTO), Started, HoldingSeats(AUTO));
  }

  lemma AllDecided(n: nat)
    ensures var world := Deciding(n, HoldingSeats(AUTO), Scanning(AUTO));
            AtMost(world(0), Repeat(DecideEvents(n), n), n)
            && Run(world(0), Repeat(DecideEvents(n), n)) == Deciding(n, Held(AUTO), HoldingSeats(AUTO))(0)
  {
    var world := Deciding(n, HoldingSeats(AUTO), Scanning(AUTO));
    forall i | 0 <= i < n
      ensures AtMost(world(i), DecideEvents(n)(i), n) && Run(world(i), DecideEvents(n)(i)) == world(i + 1)
    {
      ScanTurn(world(i), world(i + 1), Decide(n + i, Some(0), true), n, i, HoldingSeats(AUTO), Scanning(AUTO));
    }
    Phase(world, DecideEvents(n), n, n);
    AllTheSame(n, n, HoldingSeats(AUTO), Scanning(AUTO), Held(AUTO));
  }

  lemma AllHeld(n: nat)
    ensures var world := Deciding(n, Held(AUTO), HoldingSeats(AUTO));
            AtMost(world(0), Repeat(HoldEvents(n), n), n)
            && Run(world(0), Repeat(HoldEvents(n), n)) == Counting(n)(0)
  {
    var world := Deciding(n, Held(AUTO), HoldingSeats(AUTO));
    forall i | 0 <= i < n
      ensures AtMost(world(i), HoldEvents(n)(i), n) && Run(world(i), HoldEvents(n)(i)) == world(i + 1)
    {
      ScanTurn(world(i), world(i + 1), HoldResult(n + i, true), n, i, Held(AUTO), HoldingSeats(AUTO));
    }
    Phase(world, HoldEvents(n), n, n);
    AllTheSame(n, n, Held(AUTO), HoldingSeats(AUTO), Closing(AUTO, Paused));
  }

  lemma AllCounted(n: nat)
    ensures AtMost(Counting(n)(0), Repeat(CountEvents(n), n), n)
    ensures Run(Counting(n)(0), Repeat(CountEvents(n), n)) == Counting(n)(n)
  {
    forall i | 0 <= i < n
      ensures AtMost(Counting(n)(i), CountEvents(n)(i), n) && Run(Counting(n)(i), CountEvents(n)(i)) == Counting(n)(i + 1)
    {
      ScanTurn(Counting(n)(i), Counting(n)(i + 1), WriteHold(n + i), n, i, Closing(AUTO, Paused), Held(AUTO));
    }
    Phase(Counting(n), CountEvents(n), n, n);
  }

  // ---- No count is lost without an error ----

  predicate Throwless(events: seq<Event>) {
    forall e :: e in events ==> !e.Throw?
  }

  lemma {:induction false} ThrowlessRepeat(events: nat -> seq<Event>, c: nat)
    requires forall i :: 0 <= i < c ==> Throwless(events(i))
    ensures Throwless(Repeat(events, c))
  {
    if c != 0 {
      ThrowlessRepeat(events, c - 1);
    }
  }

  lemma {:induction false} ThrowlessRequests(c: nat)
    ensures Throwless(Requests(c))
  {
    if c != 0 {
      ThrowlessRequests(c - 1);
    }
  }

  lemma {:induction false} NothingLost(w: World, events: seq<Event>)
    requires Throwless(events)
    ensures HoldsLost(w, events) == 0
    decreases |events|
  {
    if events != [] {
      assert events[0] in events;
      NothingLost(Step(w, events[0]), events[1..]);
    }
  }

  function Overlap(n: nat): seq<Event>
    requires 1 <= n
  {
    CreateCalls() + Requests(n - 1) + Repeat(TakeEvents(), n)
    + Repeat(ReadEvents(n), n) + Repeat(DecideEvents(n), n) + Repeat(HoldEvents(n), n) + Repeat(CountEvents(n), n)
  }

  lemma OverlapIsThrowless(n: nat)
    requires 1 <= n
    ensures Throwless(Overlap(n))
  {
    ThrowlessRequests(n - 1);
    ThrowlessRepeat(TakeEvents(), n);
    ThrowlessRepeat(ReadEvents(n), n);
    ThrowlessRepeat(DecideEvents(n), n);
    ThrowlessRepeat(HoldEvents(n), n);
    ThrowlessRepeat(CountEvents(n), n);
  }

  lemma OverlapRuns(n: nat)
    requires 1 <= n
    ensures AtMost(START, Overlap(n), n) && Run(START, Overlap(n)) == Counting(n)(n)
  {
    var queued := CreateCalls() + Requests(n - 1);
    AllQueued(n);
    AllTaken(n);
    AllRead(n);
    AllDecided(n);
    AllHeld(n);
    AllCounted(n);
    var taken := queued + Repeat(TakeEvents(), n);
    var read := taken + Repeat(ReadEvents(n), n);
    var decided := read + Repeat(DecideEvents(n), n);
    var held := decided + Repeat(HoldEvents(n), n);
    var reading, deciding := Deciding(n, Scanning(AUTO), Started)(0), Deciding(n, HoldingSeats(AUTO), Scanning(AUTO))(0);
    var holding := Deciding(n, Held(AUTO), HoldingSeats(AUTO))(0);
    AtMostThen(START, Queued(n), reading, queued, Repeat(TakeEvents(), n), n);
    AtMostThen(START, reading, deciding, taken, Repeat(ReadEvents(n), n), n);
    AtMostThen(START, deciding, holding, read, Repeat(DecideEvents(n), n), n);
    AtMostThen(START, holding, Counting(n)(0), decided, Repeat(HoldEvents(n), n), n);
    AtMostThen(START, Counting(n)(0), Counting(n)(n), held, Repeat(CountEvents(n), n), n);
  }

  /** For every n: n overlapping scans of a hunt that allows one booking make n, all of
      them counted. */
  lemma AutoHoldBoundAttained(n: nat) returns (events: seq<Event>)
    requires 1 <= n
    ensures AtMost(START, events, n) && HoldsLost(START, events) == 0
    ensures Run(START, events).hunt == Some(AUTO.(status := Paused, autoHoldsUsed := n))
    ensures HoldsMade(START, events) == n == AUTO.autoHoldMaxHolds + n - 1
  {
    events := Overlap(n);
    OverlapRuns(n);
    OverlapIsThrowless(n);
    NothingLost(START, events);
    HoldsAreAccounted(START, events);
    SumOfZeros(Counting(n)(n).procs, Uncounted());
  }

  // ---- A booking that is not counted ----

  const HELD_ONCE := World(Some(AUTO), 0, [Finished, Held(AUTO)])
  const FAILED := AUTO.(failureStreak := 1)
  const NOT_COUNTED := World(Some(FAILED), 1, [Finished, Finished])

  /** A run, one scan at a time, with the bookings it makes and the counts it loses. */
  ghost predicate Leads(p: World, events: seq<Event>, q: World, made: nat, lost: nat) {
    AtMost(p, events, 1) && Run(p, events) == q && HoldsMade(p, events) == made && HoldsLost(p, events) == lost
  }

  lemma {:induction false} LeadsOn(p: World, a: seq<Event>, q: World, i: nat, j: nat,
                                   b: seq<Event>, r: World, k: nat, l: nat)
    requires Leads(p, a, q, i, j) && Leads(q, b, r, k, l)
    ensures Leads(p, a + b, r, i + k, j + l)
    decreases |a|
  {
    if a == [] {
      assert a + b == b;
    } else {
      var p1 := Step(p, a[0]);
      assert (a + b)[1..] == a[1..] + b;
      LeadsOn(p1, a[1..], q, HoldsMade(p1, a[1..]), HoldsLost(p1, a[1..]), b, r, k, l);
    }
  }

  /** Only the process that came last is still at work. */
  predicate LastAtWork(procs: seq<Proc>) {
    forall u :: 0 <= u < |procs| - 1 ==> procs[u] == Finished
  }

  lemma OneAtWork(procs: seq<Proc>)
    requires LastAtWork(procs)
    ensures Sum(procs, InScan()) <= 1
  {
    if procs != [] {
      SumOfZeros(procs[..|procs| - 1], InScan());
    }
  }

  lemma LeadsOne(p: World, e: Event)
    requires LastAtWork(Step(p, e).procs)
    ensures Leads(p, [e], Step(p, e), Holds(p, e), LosesHold(p, e))
  {
    OneAtWork(Step(p, e).procs);
    AtMostOne(p, e, 1);
    assert [e][1..] == [];
  }

  lemma LeadsThree(p: World, a: Event, b: Event, c: Event)
    requires LastAtWork(Step(p, a).procs) && LastAtWork(Step(Step(p, a), b).procs)
    requires LastAtWork(Step(Step(Step(p, a), b), c).procs)
    ensures var p1 := Step(p, a); var p2 := Step(p1, b);
            Leads(p, [a] + [b] + [c], Step(p2, c), Holds(p, a) + Holds(p1, b) + Holds(p2, c),
                  LosesHold(p, a) + LosesHold(p1, b) + LosesHold(p2, c))
  {
    var p1 := Step(p, a);
    var p2 := Step(p1, b);
    LeadsOne(p, a);
    LeadsOne(p1, b);
    LeadsOne(p2, c);
    LeadsOn(p, [a], p1, Holds(p, a), LosesHold(p, a), [b], p2, Holds(p1, b), LosesHold(p1, b));
    LeadsOn(p, [a] + [b], p2, Holds(p, a) + Holds(p1, b), LosesHold(p, a) + LosesHold(p1, b),
            [c], Step(p2, c), Holds(p2, c), LosesHold(p2, c));
  }

  const FIRST_SCAN := World(Some(AUTO), 0, [Finished, Started])
  const SECOND_SCAN := World(Some(FAILED), 0, [Finished, Finished, HoldingSeats(FAILED)])
  const SECOND_HELD := World(Some(FAILED), 0, [Finished, Finished, Held(FAILED)])

  lemma FirstScanTaken()
    ensures Leads(START, CreateCalls() + [Dequeue], FIRST_SCAN, 0, 0)
  {
    LeadsThree(START, Create(0, CUSTOMER, 1), Enqueue(0, Added), Dequeue);
  }

  lemma FirstScanBooks()
    ensures Leads(FIRST_SCAN, [Read(1)] + [Decide(1, Some(0), true)] + [HoldResult(1, true)], HELD_ONCE, 1, 0)
  {
    LeadsThree(FIRST_SCAN, Read(1), Decide(1, Some(0), true), HoldResult(1, true));
  }

  lemma FirstCountFails()
    ensures Leads(HELD_ONCE, [Throw(1)] + [Handle(1)] + [Enqueue(1, Added)], NOT_COUNTED, 0, 1)
  {
    LeadsThree(HELD_ONCE, Throw(1), Handle(1), Enqueue(1, Added));
  }

  lemma SecondScanDecides()
    ensures Leads(NOT_COUNTED, [Dequeue] + [Read(2)] + [Decide(2, Some(0), true)], SECOND_SCAN, 0, 0)
  {
    LeadsThree(NOT_COUNTED, Dequeue, Read(2), Decide(2, Some(0), true));
  }

  lemma SecondScanBooks()
    ensures Leads(SECOND_SCAN, [HoldResult(2, true)], SECOND_HELD, 1, 0)
  {
    LeadsOne(SECOND_SCAN, HoldResult(2, true));
  }

  /** One scan after the other, a hunt that allows one booking: the booking is made,
      counting it fails, the failed scan is followed by another, and that one, seeing
      none counted, books again. */
  lemma UncountedBookingIsRepeated() returns (events: seq<Event>)
    ensures AtMost(START, events, 1) && HoldsLost(START, events) == 1
    ensures Run(START, events).hunt == Some(FAILED) && FAILED.autoHoldMaxHolds == 1 && HoldsMade(START, events) == 2
  {
    var first := CreateCalls() + [Dequeue];
    var books := [Read(1)] + [Decide(1, Some(0), true)] + [HoldResult(1, true)];
    var fails := [Throw(1)] + [Handle(1)] + [Enqueue(1, Added)];
    var again := [Dequeue] + [Read(2)] + [Decide(2, Some(0), true)];
    FirstScanTaken();
    FirstScanBooks();
    FirstCountFails();
    SecondScanDecides();
    SecondScanBooks();
    LeadsOn(START, first, FIRST_SCAN, 0, 0, books, HELD_ONCE, 1, 0);
    LeadsOn(START, first + books, HELD_ONCE, 1, 0, fails, NOT_COUNTED, 0, 1);
    LeadsOn(START, first + books + fails, NOT_COUNTED, 1, 1, again, SECOND_SCAN, 0, 0);
    LeadsOn(START, first + books + fails + again, SECOND_SCAN, 1, 1, [HoldResult(2, true)], SECOND_HELD, 1, 0);
    events := first + books + fails + again + [HoldResult(2, true)];
  }

  /** Without a scan between reading and counting there is no booking. */
  lemma {:induction false} NoScanNoHold(w: World, events: seq<Event>)
    requires Sum(w.procs, InScan()) <= 0 && AtMost(w, events, 0)
    ensures HoldsMade(w, events) == 0
    decreases |events|
  {
    if events != [] {
      var e := events[0];
      if Holds(w, e) == 1 {
        SumCoversRow(w.procs, e.u, InScan());
      }
      NoScanNoHold(Step(w, e), events[1..]);
    }
  }

  /** The maximum number of bookings is respected exactly when scans of the hunt do not
      overlap and no booking's count is lost (or nothing is scanned). */
  lemma MaximumKeptIff(n: nat, j: nat)
    ensures MaximumKept(n, j) <==> n == 0 || (n == 1 && j == 0)
  {
    if n == 0 || (n == 1 && j == 0) {
      forall events: seq<Event>
        | AtMost(START, events, n) && HoldsLost(START, events) <= j && Run(START, events).hunt.Some?
        ensures HoldsMade(START, events) <= Run(START, events).hunt.value.autoHoldMaxHolds
      {
        if n == 0 {
          NoScanNoHold(START, events);
        } else {
          AutoHoldBound(events, 1);
        }
      }
    } else if 2 <= n {
      var events := AutoHoldBoundAttained(n);
      assert AtMost(START, events, n);
    } else {
      var events := UncountedBookingIsRepeated();
      assert AtMost(START, events, n);
    }
  }
}
