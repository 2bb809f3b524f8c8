/** One fare hunt under every interleaving of its scan jobs and its owner's
    requests (hunter-run.service.ts, hunt.service.ts, auto-hold.service.ts).  A
    scan decides from the copy of the hunt it read when it started. */
module HuntScheduler {
  import opened Common
  import opened Runs

  const FAILURE_THRESHOLD := 5

  datatype Status = Hunting | Found | Paused | Expired | Cancelled

  datatype PassengerType = Adult | Child | Infant

  /** Whether to hold seats automatically, and for whom; the details may be missing. */
  datatype AutoHold = AutoHold(
    enabled: bool, passengers: Option<seq<PassengerType>>, phone: Option<string>, email: Option<string>)

  datatype Hunt = Hunt(
    status: Status, failureStreak: nat, scansCount: nat, targetPrice: int,
    autoHold: AutoHold, autoHoldsUsed: nat, autoHoldMaxHolds: nat)

  datatype Action = Pause | Resume | Edit

  /** The fields an update request carries besides its action. */
  datatype Edits = Edits(
    targetPrice: Option<int>, autoHold: Option<bool>,
    passengers: Option<seq<PassengerType>>, phone: Option<string>, email: Option<string>)

  /** Why a scan is put in the queue. */
  datatype JobKind = FirstScan | Resumed | OnDemand | NextScan | Postponed | Retried

  /** A scan or a request, between two of its database or queue calls. */
  datatype Proc =
    | Started
    | Scanning(snap: Hunt)
    | HoldingSeats(snap: Hunt)
    | Held(snap: Hunt)
    | Closing(snap: Hunt, next: Status)
    | Closed(snap: Hunt, next: Status)
    | Failing(snap: Hunt)
    | Requeueing(snap: Hunt, job: JobKind)
    | CreatePending
    | RollingBack
    | Updating(action: Action, edits: Edits, seen: Hunt)
    | ResumePending
    | Cancelling
    | RunNowReady
    | Finished

  /** What the queue does with a job, and what its caller learns of it: the answer may
      be lost, so that the job is queued and the caller sees an error. */
  datatype Answer = Added | Refused | Lost

  /** The hunt's row, its waiting scan jobs, and everything in progress. */
  datatype World = World(hunt: Option<Hunt>, queue: nat, procs: seq<Proc>)

  datatype Event =
    | Create(targetPrice: int, autoHold: AutoHold, maxHolds: nat)
    | Request(action: Action, edits: Edits)
    | RequestCancel
    | RequestRunNow(lockAcquired: bool)
    | Dequeue
    | Read(u: nat)
    | ReadFails(u: nat)
    | NoHeadroom(u: nat)
    | Throw(u: nat)
    | Decide(u: nat, cheapest: Option<int>, belowLimit: bool)
    | HoldResult(u: nat, held: bool)
    | WriteHold(u: nat)
    | Close(u: nat)
    | Conclude(u: nat)
    | Handle(u: nat)
    | HandleFails(u: nat)
    | Write(u: nat)
    | Enqueue(u: nat, answer: Answer)
    | Rollback(u: nat, deleted: bool)

  const START := World(None, 0, [])

  // ---- Deciding ----

  predicate Present(text: Option<string>) {
    text.Some? && text.value != ""
  }

  /** At least one adult, and a phone number and an address to reach the customer. */
  predicate Complete(a: AutoHold) {
    a.passengers.Some? && Adult in a.passengers.value && Present(a.phone) && Present(a.email)
  }

  predicate WantsToHold(h: Hunt) {
    h.autoHold.enabled && h.autoHoldsUsed < h.autoHoldMaxHolds && Complete(h.autoHold)
  }

  /** Everything about a scan's result is decided from the snapshot: whether the
      cheapest bookable offer hits the target, and whether to hold seats for it.
      `belowLimit`: the customer may hold more seats automatically at this time. */
  function AfterDecision(snap: Hunt, cheapest: Option<int>, belowLimit: bool): Proc {
    if cheapest.None? || snap.targetPrice < cheapest.value then Closing(snap, Hunting)
    else if WantsToHold(snap) && belowLimit then HoldingSeats(snap)
    else Closing(snap, Found)
  }

  // ---- Writing the row ----

  function ClosedRow(h: Hunt, snap: Hunt, next: Status): Hunt {
    h.(failureStreak := 0, scansCount := h.scansCount + 1,
       status := if next != snap.status then next else h.status)
  }

  function FailedRow(h: Hunt, snap: Hunt): Hunt {
    h.(failureStreak := snap.failureStreak + 1,
       status := if FAILURE_THRESHOLD <= snap.failureStreak + 1 then Paused else h.status)
  }

  function HeldRow(h: Hunt): Hunt {
    h.(status := Paused, autoHoldsUsed := h.autoHoldsUsed + 1)
  }

  /** The status an update writes, if any, given the one it saw. */
  function UpdatedStatus(action: Action, seen: Status): Option<Status> {
    if action == Pause && seen == Hunting then Some(Paused)
    else if action == Resume && (seen == Paused || seen == Found) then Some(Hunting)
    else None
  }

  function Or<T>(edit: Option<T>, otherwise: Option<T>): Option<T> {
    if edit.Some? then edit else otherwise
  }

  /** The details of a request completed by those the hunt had when it was read. */
  function Merged(edits: Edits, seen: AutoHold): AutoHold {
    AutoHold(true, Or(edits.passengers, seen.passengers), Or(edits.phone, seen.phone), Or(edits.email, seen.email))
  }

  /** Switching auto-hold on writes the merged details, switching it off writes
      nothing else, and otherwise only the given details are written. */
  function EditedAutoHold(current: AutoHold, edits: Edits, seen: AutoHold): AutoHold {
    match edits.autoHold
    case Some(on) => if on then Merged(edits, seen) else current.(enabled := false)
    case None => Merged(edits, current).(enabled := current.enabled)
  }

  function UpdatedRow(h: Hunt, action: Action, edits: Edits, seen: Hunt): Hunt {
    var written := UpdatedStatus(action, seen.status);
    h.(status := if written.Some? then written.value else h.status,
       targetPrice := if edits.targetPrice.Some? then edits.targetPrice.value else h.targetPrice,
       autoHold := EditedAutoHold(h.autoHold, edits, seen.autoHold))
  }

  /** A request that would switch auto-hold on without the details is refused. */
  predicate Acceptable(edits: Edits, seen: AutoHold) {
    edits.autoHold == Some(true) ==> Complete(Merged(edits, seen))
  }

  function NewHunt(targetPrice: int, autoHold: AutoHold, maxHolds: nat): Hunt {
    Hunt(Hunting, 0, 0, targetPrice, if autoHold.enabled then autoHold else AutoHold(false, None, None, None), 0, maxHolds)
  }

  // ---- Steps ----

  /** The job a process is about to put in the queue. */
  function JobOf(proc: Proc): Option<JobKind> {
    match proc
    case Requeueing(_, job) => Some(job)
    case CreatePending => Some(FirstScan)
    case ResumePending => Some(Resumed)
    case RunNowReady => Some(OnDemand)
    case _ => None
  }

  /** Where the caller goes on with that answer: an error fails a scan that was about to
      queue its successor, has a new hunt deleted, and is otherwise only logged or
      passed on. */
  function AfterAnswer(proc: Proc, answer: Answer): Proc {
    if answer.Added? then Finished
    else if proc.Requeueing? && proc.job == NextScan then Failing(proc.snap)
    else if proc.CreatePending? then RollingBack
    else Finished
  }

  /** The next call of process u; a call that is not due changes nothing. */
  function ProcStep(w: World, e: Event, u: nat): World
    requires u < |w.procs| && w.hunt.Some?
  {
    var h := w.hunt.value;
    var proc := w.procs[u];
    match e
    case Read(_) =>
      if proc == Started then
        w.(procs := w.procs[u := if h.status == Hunting then Scanning(h) else Finished])
      else w
    case ReadFails(_) =>
      if proc == Started then w.(procs := w.procs[u := Finished]) else w
    case NoHeadroom(_) =>
      if proc.Scanning? then w.(procs := w.procs[u := Requeueing(proc.snap, Postponed)]) else w
    case Throw(_) =>
      if proc.Scanning? || proc.Held? || proc.Closing? || proc.Closed? then
        w.(procs := w.procs[u := Failing(proc.snap)])
      else w
    case Decide(_, cheapest, belowLimit) =>
      if proc.Scanning? then w.(procs := w.procs[u := AfterDecision(proc.snap, cheapest, belowLimit)]) else w
    case HoldResult(_, held) =>
      if proc.HoldingSeats? then
        w.(procs := w.procs[u := if held then Held(proc.snap) else Closing(proc.snap, Found)])
      else w
    case WriteHold(_) =>
      if proc.Held? then World(Some(HeldRow(h)), w.queue, w.procs[u := Closing(proc.snap, Paused)]) else w
    case Close(_) =>
      if proc.Closing? then
        World(Some(ClosedRow(h, proc.snap, proc.next)), w.queue, w.procs[u := Closed(proc.snap, proc.next)])
      else w
    case Conclude(_) =>
      if proc.Closed? then
        w.(procs := w.procs[u := if proc.next == Hunting then Requeueing(proc.snap, NextScan) else Finished])
      else w
    case Handle(_) =>
      if proc.Failing? then
        World(Some(FailedRow(h, proc.snap)), w.queue,
              w.procs[u := if FAILURE_THRESHOLD <= proc.snap.failureStreak + 1 then Finished
                           else Requeueing(proc.snap, Retried)])
      else w
    case HandleFails(_) =>
      if proc.Failing? then w.(procs := w.procs[u := Finished]) else w
    case Write(_) =>
      if proc.Updating? then
        World(Some(UpdatedRow(h, proc.action, proc.edits, proc.seen)), w.queue,
              w.procs[u := if UpdatedStatus(proc.action, proc.seen.status) == Some(Hunting) then ResumePending
                           else Finished])
      else if proc == Cancelling then
        World(Some(h.(status := Cancelled)), w.queue, w.procs[u := Finished])
      else w
    case Enqueue(_, answer) =>
      if JobOf(proc).Some? then
        World(w.hunt, if answer.Refused? then w.queue else w.queue + 1, w.procs[u := AfterAnswer(proc, answer)])
      else w
    case Rollback(_, deleted) =>
      if proc == RollingBack then World(if deleted then None else w.hunt, w.queue, w.procs[u := Finished]) else w
    case _ => w
  }

  function Step(w: World, e: Event): World {
    match e
    case Create(targetPrice, autoHold, maxHolds) =>
      if w == START then World(Some(NewHunt(targetPrice, autoHold, maxHolds)), 0, [CreatePending]) else w
    case Request(action, edits) =>
      if w.hunt.Some? && Acceptable(edits, w.hunt.value.autoHold) then
        w.(procs := w.procs + [Updating(action, edits, w.hunt.value)])
      else w
    case RequestCancel =>
      if w.hunt.Some? && w.hunt.value.status != Cancelled then w.(procs := w.procs + [Cancelling]) else w
    case RequestRunNow(lockAcquired) =>
      if w.hunt.Some? && w.hunt.value.status == Hunting && lockAcquired then
        w.(procs := w.procs + [RunNowReady])
      else w
    case Dequeue =>
      if 0 < w.queue && w.hunt.Some? then World(w.hunt, w.queue - 1, w.procs + [Started]) else w
    case _ => if e.u < |w.procs| && w.hunt.Some? then ProcStep(w, e, e.u) else w
  }

  function Run(w: World, events: seq<Event>): World {
    RunFrom(Step, w, events)
  }

  /** A step that adds a process, at most, or one that lets a process go on. */
  predicate IsArrival(e: Event) {
    e.Create? || e.Request? || e.RequestCancel? || e.RequestRunNow? || e.Dequeue?
  }

  // ---- What a process may be doing ----

  /** Scans only work from snapshots taken while the hunt was HUNTING, close it as
      HUNTING, FOUND or PAUSED, and queue the next scan for one of three reasons. */
  predicate ProcSound(proc: Proc) {
    && (proc.Scanning? || proc.HoldingSeats? || proc.Held? || proc.Closing? ==> proc.snap.status == Hunting)
    && (proc.Closing? ==> proc.next == Hunting || proc.next == Found || proc.next == Paused)
    && (proc.Requeueing? ==> proc.job == NextScan || proc.job == Postponed || proc.job == Retried)
  }

  ghost predicate ProcsSound(w: World) {
    forall u :: 0 <= u < |w.procs| ==> ProcSound(w.procs[u])
  }

  lemma StepKeepsSound(w: World, e: Event)
    requires ProcsSound(w)
    ensures ProcsSound(Step(w, e))
  {
    var w' := Step(w, e);
    if !IsArrival(e) && e.u < |w.procs| && w.hunt.Some? {
      assert ProcSound(w.procs[e.u]);
      assert ProcSound(w'.procs[e.u]);
      assert w'.procs == w.procs[e.u := w'.procs[e.u]];
    }
  }

  lemma {:induction false} RunKeepsSound(w: World, events: seq<Event>)
    requires ProcsSound(w)
    ensures ProcsSound(Run(w, events))
    decreases |events|
  {
    if events != [] {
      StepKeepsSound(w, events[0]);
      RunKeepsSound(Step(w, events[0]), events[1..]);
    }
  }

  // ---- A hunting hunt is scheduled ----

  /** A process that will still enqueue a scan or take the hunt out of HUNTING; whether
      the deletion of a hunt without a first scan is one depends on its success. */
  function Live(deletes: bool): Proc -> int {
    (p: Proc) =>
      if p.Started? || p.Scanning? || p.HoldingSeats? || p.Held? || p.Closing? || (p.Closed? && p.next == Hunting)
         || p.Failing? || p.Requeueing? || p.CreatePending? || p.ResumePending? || (deletes && p.RollingBack?)
      then 1 else 0
  }

  predicate Scheduled(w: World, deletes: bool) {
    w.hunt.Some? && w.hunt.value.status == Hunting ==> 0 < w.queue + Sum(w.procs, Live(deletes))
  }

  /** What can fail: the queue rejects a job, the first read of a scan fails, so does a
      write in the handling of an earlier failure, or the deletion of a new hunt. */
  datatype Failure = Rejected(job: JobKind) | ReadFailed | HandlerFailed | DeletionFailed

  function FailureOf(proc: Proc, e: Event): Option<Failure> {
    if e.Enqueue? && e.answer.Refused? && JobOf(proc).Some? then Some(Rejected(JobOf(proc).value))
    else if e.ReadFails? && proc == Started then Some(ReadFailed)
    else if e.HandleFails? && proc.Failing? then Some(HandlerFailed)
    else if e.Rollback? && !e.deleted && proc == RollingBack then Some(DeletionFailed)
    else None
  }

  /** The failures after which nobody tries again: the job of a resume, of a postponed
      scan or after a failed scan, both failures of a scan's own calls, and the
      rejected first job when hunts are not deleted then, or else their deletion. */
  predicate Loses(failure: Failure, deletes: bool) {
    match failure
    case Rejected(job) => job == Resumed || job == Postponed || job == Retried || (job == FirstScan && !deletes)
    case ReadFailed => true
    case HandlerFailed => true
    case DeletionFailed => deletes
  }

  predicate LosesScan(w: World, e: Event, deletes: bool) {
    && !IsArrival(e) && e.u < |w.procs| && FailureOf(w.procs[e.u], e).Some?
    && Loses(FailureOf(w.procs[e.u], e).value, deletes)
  }

  /** One process alone: a step that leaves the hunt HUNTING keeps a scan coming,
      unless it fails and nobody tries again. */
  lemma ProcStepKeepsTheScan(w: World, e: Event, u: nat, deletes: bool)
    requires u < |w.procs| && w.hunt.Some? && !IsArrival(e) && e.u == u && ProcSound(w.procs[u])
    ensures var w' := ProcStep(w, e, u);
            && |w'.procs| == |w.procs| && w'.procs == w.procs[u := w'.procs[u]]
            && (w'.hunt.Some? && w'.hunt.value.status == Hunting && !LosesScan(w, e, deletes) ==>
                  || Live(deletes)(w'.procs[u]) == 1
                  || (w.hunt.value.status == Hunting
                      && w.queue + Live(deletes)(w.procs[u]) <= w'.queue + Live(deletes)(w'.procs[u])))
  {
  }

  lemma ProcStepKeepsScheduled(w: World, e: Event, u: nat, deletes: bool)
    requires u < |w.procs| && w.hunt.Some? && !IsArrival(e) && e.u == u
    requires Scheduled(w, deletes) && ProcsSound(w) && !LosesScan(w, e, deletes)
    ensures Scheduled(ProcStep(w, e, u), deletes)
  {
    ProcStepKeepsTheScan(w, e, u, deletes);
    var procs := ProcStep(w, e, u).procs;
    SumUpdate(w.procs, u, procs[u], Live(deletes));
    SumCoversRow(procs, u, Live(deletes));
  }

  /** A request that arrives leaves the hunt alone; a job that is taken becomes a scan. */
  lemma ArrivalKeepsScheduled(w: World, w': World, arrived: Proc, deletes: bool)
    requires Scheduled(w, deletes)
    requires w'.hunt == w.hunt && w'.procs == w.procs + [arrived]
    requires w.queue <= w'.queue + Live(deletes)(arrived)
    ensures Scheduled(w', deletes)
  {
    SumAppend(w.procs, arrived, Live(deletes));
  }

  lemma StepKeepsScheduled(w: World, e: Event, deletes: bool)
    requires Scheduled(w, deletes) && ProcsSound(w) && !LosesScan(w, e, deletes)
    ensures Scheduled(Step(w, e), deletes)
  {
    var w' := Step(w, e);
    if e.Create? {
      SumNonNegative(w'.procs, Live(deletes));
      if w == START {
        SumCoversRow(w'.procs, 0, Live(deletes));
      }
    } else if IsArrival(e) {
      if |w'.procs| != |w.procs| {
        ArrivalKeepsScheduled(w, w', w'.procs[|w.procs|], deletes);
      }
    } else if e.u < |w.procs| && w.hunt.Some? {
      ProcStepKeepsScheduled(w, e, e.u, deletes);
    }
  }

  /** Exactly when a step loses the scan of a hunting hunt: it fails in such a way,
      and no other scan is waiting or on its way. */
  lemma LosesTheScanIff(w: World, e: Event, deletes: bool)
    requires Scheduled(w, deletes) && ProcsSound(w)
    ensures !Scheduled(Step(w, e), deletes) <==>
            && w.hunt.Some? && w.hunt.value.status == Hunting
            && LosesScan(w, e, deletes) && w.queue == 0 && Sum(w.procs, Live(deletes)) == 1
  {
    if LosesScan(w, e, deletes) {
      SumNonNegative(w.procs, Live(deletes));
      if w.hunt.Some? {
        LostProc(w, e, deletes);
        var p' := Step(w, e).procs[e.u];
        SumUpdate(w.procs, e.u, p', Live(deletes));
        SumNonNegative(w.procs[e.u := p'], Live(deletes));
      }
    } else {
      StepKeepsScheduled(w, e, deletes);
    }
  }

  lemma LostProc(w: World, e: Event, deletes: bool)
    requires LosesScan(w, e, deletes) && w.hunt.Some?
    ensures var w' := Step(w, e);
            && w'.hunt == w.hunt && w'.queue == w.queue && |w'.procs| == |w.procs|
            && w'.procs == w.procs[e.u := w'.procs[e.u]]
            && Live(deletes)(w.procs[e.u]) == 1 && Live(deletes)(w'.procs[e.u]) == 0
  {
  }

  /** A run in which nothing fails but in the given ways.  Scans may throw at any time;
      that is handled. */
  predicate MayFail(w: World, events: seq<Event>, failures: set<Failure>) {
    OtherFailures(w, events, failures) == 0
  }

  /** The steps at which something fails that is not among `failures`. */
  function OtherFailures(w: World, events: seq<Event>, failures: set<Failure>): nat
    decreases |events|
  {
    if events == [] then 0
    else (if StepMayFail(w, events[0], failures) then 0 else 1) + OtherFailures(Step(w, events[0]), events[1..], failures)
  }

  predicate StepMayFail(w: World, e: Event, failures: set<Failure>) {
    !IsArrival(e) && e.u < |w.procs| && FailureOf(w.procs[e.u], e).Some? ==>
      FailureOf(w.procs[e.u], e).value in failures
  }

  ghost predicate Harmless(failures: set<Failure>, deletes: bool) {
    forall failure :: failure in failures ==> !Loses(failure, deletes)
  }

  lemma {:induction false} RunKeepsScheduled(w: World, events: seq<Event>, failures: set<Failure>, deletes: bool)
    requires MayFail(w, events, failures) && Harmless(failures, deletes)
    requires Scheduled(w, deletes) && ProcsSound(w)
    ensures Scheduled(Run(w, events), deletes)
    decreases |events|
  {
    if events != [] {
      StepKeepsScheduled(w, events[0], deletes);
      StepKeepsSound(w, events[0]);
      RunKeepsScheduled(Step(w, events[0]), events[1..], failures, deletes);
    }
  }

  /** As long as only harmless calls fail, whenever a hunt is HUNTING some scan of it is
      waiting, running, or about to be enqueued, or the hunt is about to be deleted. */
  lemma HuntingIsAlwaysScheduled(events: seq<Event>, failures: set<Failure>, deletes: bool)
    requires MayFail(START, events, failures) && Harmless(failures, deletes)
    ensures var w := Run(START, events);
            w.hunt.Some? && w.hunt.value.status == Hunting ==>
              0 < w.queue || exists u :: 0 <= u < |w.procs| && Live(deletes)(w.procs[u]) == 1
  {
    RunKeepsScheduled(START, events, failures, deletes);
    var w := Run(START, events);
    if w.hunt.Some? && w.hunt.value.status == Hunting && w.queue == 0 {
      var u := SumHasRow(w.procs, Live(deletes));
    }
  }
}
