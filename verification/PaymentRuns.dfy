/** Every interleaving of holds, QR creations, webhooks, overlapping expiry crons
    and administrators.  One event is one database transaction, except that a
    cron first lists its rows and then re-checks them one transaction at a time. */
module PaymentRuns {
  import opened Common
  import opened Bookings
  import opened PaymentModel
  import opened PaymentInvariants
  import Markup

  datatype CronKind = IntentLoop | BookingLoop

  /** A cron in progress: the rows it listed and has not visited, and its count so far. */
  datatype CronRun = CronRun(kind: CronKind, now: int, todo: seq<nat>, expired: nat)

  /** `moved` is history: the intents that some cron took from PENDING to EXPIRED. */
  datatype World = World(db: Db, crons: seq<CronRun>, moved: set<nat>)

  datatype Event =
    | HoldSeats(pnrs: seq<HeldPnr>, departTime: int, input: Markup.Input, rules: seq<Markup.Rule>, now: int)
    | CreateQr(booking: nat, now: int, draws: Draws)
    | Webhook(payload: Payload, now: int)
    | StartCron(kind: CronKind, now: int, rows: seq<nat>)
    | CronRow(cron: nat)
    | Ticket(booking: nat, tickets: seq<(string, string)>)
    | FailIssue(booking: nat)

  const START := World(EMPTY, [], {})

  predicate RowOverdue(db: Db, kind: CronKind, row: nat, now: int) {
    match kind
    case IntentLoop => row < |db.intents| && IntentOverdue(db.intents[row], now)
    case BookingLoop => row < |db.bookings| && BookingOverdue(db.bookings[row], now)
  }

  /** `findMany` in whatever order: the overdue rows, each once. */
  ghost predicate IsSnapshot(db: Db, kind: CronKind, now: int, rows: seq<nat>) {
    && (forall row :: row in rows <==> RowOverdue(db, kind, row, now))
    && (forall i, j :: 0 <= i < j < |rows| ==> rows[i] != rows[j])
  }

  ghost function CronRowStep(w: World, c: nat): World
    requires IntentsLinked(w.db) && c < |w.crons| && w.crons[c].todo != []
  {
    var cron := w.crons[c];
    var row := cron.todo[0];
    var (db', count) := if cron.kind == IntentLoop then ExpireIntentRow(w.db, row, cron.now)
                        else ExpireBookingRow(w.db, row, cron.now);
    World(db',
          w.crons[c := cron.(todo := cron.todo[1..], expired := cron.expired + count)],
          if cron.kind == IntentLoop && count == 1 then w.moved + {row} else w.moved)
  }

  /** One event; an event that is not possible leaves the world as it is. */
  ghost function Step(w: World, cfg: Config, e: Event): World
    requires IntentsLinked(w.db)
  {
    match e
    case HoldSeats(pnrs, depart, input, rules, now) =>
      w.(db := AddHeld(w.db, HeldBooking(cfg, pnrs, depart, input, rules, now)))
    case CreateQr(b, now, draws) => w.(db := CreateIntent(w.db, cfg, b, now, draws).0)
    case Webhook(p, now) => w.(db := HandleWebhook(w.db, p, now).0)
    case StartCron(kind, now, rows) =>
      if IsSnapshot(w.db, kind, now, rows) then w.(crons := w.crons + [CronRun(kind, now, rows, 0)]) else w
    case CronRow(c) => if c < |w.crons| && w.crons[c].todo != [] then CronRowStep(w, c) else w
    case Ticket(b, tickets) => w.(db := MarkTicketed(w.db, b, tickets).0)
    case FailIssue(b) => w.(db := MarkIssueFailed(w.db, b).0)
  }

  // ---- Statuses and terms along a run ----

  /** The status changes that any step makes. */
  predicate MayBecome(from: BookingStatus, to: BookingStatus) {
    || from == to
    || (from == Held && to == PaymentPending)
    || (from == PaymentPending && to == Held)
    || (Unpaid(from) && (to == Paid || to == Expired))
    || (from == Paid && (to == Ticketed || to == IssueFailed))
  }

  /** Everything agreed at hold time; ticket numbers may be filled in later. */
  predicate SameTerms(a: Booking, b: Booking) {
    && a.totalNetPrice == b.totalNetPrice && a.totalMarkup == b.totalMarkup
    && a.totalSellPrice == b.totalSellPrice
    && a.muadiHoldExpiresAt == b.muadiHoldExpiresAt && a.paymentDeadline == b.paymentDeadline
    && |a.pnrs| == |b.pnrs|
    && forall k :: 0 <= k < |a.pnrs| ==> a.pnrs[k].code == b.pnrs[k].code && a.pnrs[k].timelimit == b.pnrs[k].timelimit
  }

  ghost predicate Succeeds(before: Db, after: Db) {
    && |before.bookings| <= |after.bookings|
    && |before.intents| <= |after.intents|
    && (forall b :: 0 <= b < |before.bookings| ==>
          MayBecome(before.bookings[b].status, after.bookings[b].status)
          && SameTerms(before.bookings[b], after.bookings[b]))
    && (forall i :: 0 <= i < |before.intents| ==>
          && before.intents[i].bookingId == after.intents[i].bookingId
          && before.intents[i].code == after.intents[i].code
          && (before.intents[i].status != IntentPending ==> after.intents[i].status != IntentPending))
    && (forall i :: |before.intents| <= i < |after.intents| ==> after.intents[i].bookingId < |after.bookings|)
  }

  lemma WebhookSucceeds(db: Db, p: Payload, now: int)
    requires IntentsLinked(db)
    ensures Succeeds(db, HandleWebhook(db, p, now).0)
  {
  }

  lemma CreateIntentSucceeds(db: Db, cfg: Config, b: nat, now: int, draws: Draws)
    requires IntentsLinked(db)
    ensures Succeeds(db, CreateIntent(db, cfg, b, now, draws).0)
  {
  }

  lemma CronRowSucceeds(w: World, c: nat)
    requires IntentsLinked(w.db) && c < |w.crons| && w.crons[c].todo != []
    ensures Succeeds(w.db, CronRowStep(w, c).db)
  {
    var cron := w.crons[c];
    if cron.kind == IntentLoop {
      ExpireIntentRowEffect(w.db, cron.todo[0], cron.now);
    }
  }

  lemma MarkTicketedSucceeds(db: Db, b: nat, tickets: seq<(string, string)>)
    ensures Succeeds(db, MarkTicketed(db, b, tickets).0)
  {
    if MarkTicketed(db, b, tickets).1.None? {
      WithTicketsKeepsLimits(db.bookings[b].pnrs, tickets);
    }
  }

  lemma AddHeldSucceeds(db: Db, held: Result<Booking, HoldError>)
    requires IntentsLinked(db)
    ensures Succeeds(db, AddHeld(db, held)) && IntentsLinked(AddHeld(db, held))
  {
  }

  lemma MarkIssueFailedSucceeds(db: Db, b: nat)
    requires IntentsLinked(db)
    ensures Succeeds(db, MarkIssueFailed(db, b).0) && IntentsLinked(MarkIssueFailed(db, b).0)
  {
  }

  /** Any step keeps rows and terms, and moves statuses only along `MayBecome`. */
  lemma StepSucceeds(w: World, cfg: Config, e: Event)
    requires IntentsLinked(w.db)
    ensures Succeeds(w.db, Step(w, cfg, e).db)
    ensures IntentsLinked(Step(w, cfg, e).db)
  {
    match e
    case HoldSeats(pnrs, depart, input, rules, now) =>
      AddHeldSucceeds(w.db, HeldBooking(cfg, pnrs, depart, input, rules, now));
    case CreateQr(b, now, draws) => CreateIntentSucceeds(w.db, cfg, b, now, draws);
    case Webhook(p, now) => WebhookSucceeds(w.db, p, now);
    case StartCron(_, _, _) =>
    case CronRow(c) =>
      if c < |w.crons| && w.crons[c].todo != [] {
        CronRowSucceeds(w, c);
      }
    case Ticket(b, tickets) => MarkTicketedSucceeds(w.db, b, tickets);
    case FailIssue(b) => MarkIssueFailedSucceeds(w.db, b);
  }

  ghost function Run(w: World, cfg: Config, events: seq<Event>): (r: World)
    requires IntentsLinked(w.db)
    ensures IntentsLinked(r.db)
    decreases |events|
  {
    if events == [] then w
    else
      StepSucceeds(w, cfg, events[0]);
      Run(Step(w, cfg, events[0]), cfg, events[1..])
  }

  // ---- The invariant over whole runs ----

  function IntentsExpired(): CronRun -> int {
    (c: CronRun) => if c.kind == IntentLoop then c.expired else 0
  }

  /** Tables sound, and every intent a cron counted was moved by it alone. */
  ghost predicate WorldInv(w: World, cfg: Config) {
    && Inv(w.db, cfg)
    && (forall i :: i in w.moved ==> i < |w.db.intents| && w.db.intents[i].status != IntentPending)
    && Sum(w.crons, IntentsExpired()) == |w.moved|
  }

  lemma CronRowCounts(w: World, c: nat)
    requires IntentsLinked(w.db) && c < |w.crons| && w.crons[c].todo != []
    requires forall i :: i in w.moved ==> i < |w.db.intents| && w.db.intents[i].status != IntentPending
    requires Sum(w.crons, IntentsExpired()) == |w.moved|
    ensures Sum(CronRowStep(w, c).crons, IntentsExpired()) == |CronRowStep(w, c).moved|
  {
    SumUpdate(w.crons, c, CronRowStep(w, c).crons[c], IntentsExpired());
    if w.crons[c].kind == IntentLoop {
      ExpireIntentRowEffect(w.db, w.crons[c].todo[0], w.crons[c].now);
    }
  }

  lemma CronRowKeepsInv(w: World, cfg: Config, c: nat)
    requires WorldInv(w, cfg)
    requires c < |w.crons| && w.crons[c].todo != []
    ensures WorldInv(CronRowStep(w, c), cfg)
  {
    var cron := w.crons[c];
    var row := cron.todo[0];
    CronRowCounts(w, c);
    if cron.kind == IntentLoop {
      ExpireIntentRowKeepsInv(w.db, cfg, row, cron.now);
      ExpireIntentRowEffect(w.db, row, cron.now);
    } else {
      ExpireBookingRowKeepsInv(w.db, cfg, row, cron.now);
    }
  }

  lemma StepKeepsInv(w: World, cfg: Config, e: Event)
    requires WorldInv(w, cfg)
    ensures WorldInv(Step(w, cfg, e), cfg)
  {
    StepSucceeds(w, cfg, e);
    match e
    case HoldSeats(pnrs, depart, input, rules, now) =>
      HeldBookingTerms(cfg, pnrs, depart, input, rules, now);
      AddHeldKeepsInv(w.db, cfg, HeldBooking(cfg, pnrs, depart, input, rules, now));
    case CreateQr(b, now, draws) => CreateIntentKeepsInv(w.db, cfg, b, now, draws);
    case Webhook(p, now) => WebhookKeepsInv(w.db, cfg, p, now);
    case StartCron(kind, now, rows) => SumAppend(w.crons, CronRun(kind, now, rows, 0), IntentsExpired());
    case CronRow(c) =>
      if c < |w.crons| && w.crons[c].todo != [] {
        CronRowKeepsInv(w, cfg, c);
      }
    case Ticket(b, tickets) => MarkTicketedKeepsInv(w.db, cfg, b, tickets);
    case FailIssue(b) => MarkIssueFailedKeepsInv(w.db, cfg, b);
  }

  lemma {:induction false} RunKeepsInv(w: World, cfg: Config, events: seq<Event>)
    requires WorldInv(w, cfg)
    ensures WorldInv(Run(w, cfg, events), cfg)
    decreases |events|
  {
    if events != [] {
      StepKeepsInv(w, cfg, events[0]);
      RunKeepsInv(Step(w, cfg, events[0]), cfg, events[1..]);
    }
  }

  ghost predicate Reachable(w: World, cfg: Config) {
    exists events: seq<Event> :: w == Run(START, cfg, events)
  }

  lemma ReachableInv(w: World, cfg: Config)
    requires Reachable(w, cfg)
    ensures WorldInv(w, cfg)
  {
    var events: seq<Event> :| w == Run(START, cfg, events);
    RunKeepsInv(START, cfg, events);
  }

  // ---- One payment, one pending intent ----

  ghost predicate TheOnlyPayment(db: Db, b: nat, k: nat) {
    && k < |db.payments| && db.payments[k].bookingId == b
    && forall j :: 0 <= j < |db.payments| && db.payments[j].bookingId == b ==> j == k
  }

  ghost predicate TheOnlyPendingIntent(db: Db, b: nat, i: nat) {
    && i < |db.intents| && PendingOf(b)(db.intents[i]) == 1
    && forall j :: 0 <= j < |db.intents| && PendingOf(b)(db.intents[j]) == 1 ==> j == i
  }

  lemma OnePaymentPays(payments: seq<Payment>, b: nat) returns (k: nat)
    requires Sum(payments, PaymentOf(b)) == 1
    ensures k < |payments| && payments[k].bookingId == b && payments[k].amount == Sum(payments, PaidTo(b))
    ensures forall j :: 0 <= j < |payments| && payments[j].bookingId == b ==> j == k
  {
    k := SumHasRow(payments, PaymentOf(b));
    forall j | 0 <= j < |payments| && payments[j].bookingId == b ensures j == k {
      if j < k { SumCoversTwoRows(payments, j, k, PaymentOf(b)); }
      if k < j { SumCoversTwoRows(payments, k, j, PaymentOf(b)); }
    }
    SumUpdate(payments, k, payments[k].(bookingId := b + 1), PaidTo(b));
    SumOfZeros(payments[k := payments[k].(bookingId := b + 1)], PaidTo(b));
  }

  /** A settled booking has exactly one payment, of exactly its price; any other
      booking has none. */
  lemma OnePaymentIffSettled(w: World, cfg: Config, b: nat)
    requires Reachable(w, cfg) && b < |w.db.bookings|
    ensures Settled(w.db.bookings[b].status) ==>
              exists k: nat :: TheOnlyPayment(w.db, b, k) && w.db.payments[k].amount == w.db.bookings[b].totalSellPrice
    ensures !Settled(w.db.bookings[b].status) ==> forall k :: 0 <= k < |w.db.payments| ==> w.db.payments[k].bookingId != b
  {
    ReachableInv(w, cfg);
    var payments := w.db.payments;
    assert BookingSound(w.db, b);
    if Settled(w.db.bookings[b].status) {
      var k := OnePaymentPays(payments, b);
      assert TheOnlyPayment(w.db, b, k);
    } else {
      forall k | 0 <= k < |payments| ensures payments[k].bookingId != b {
        SumCoversRow(payments, k, PaymentOf(b));
      }
    }
  }

  /** A booking waiting for payment has exactly one PENDING intent, a settled one
      at most one, and a booking that is held or expired has none. */
  lemma PendingIntentsByStatus(w: World, cfg: Config, b: nat)
    requires Reachable(w, cfg) && b < |w.db.bookings|
    ensures w.db.bookings[b].status == PaymentPending ==> exists i: nat :: TheOnlyPendingIntent(w.db, b, i)
    ensures Settled(w.db.bookings[b].status) ==>
              forall i, j :: 0 <= i < j < |w.db.intents| ==>
                               PendingOf(b)(w.db.intents[i]) == 0 || PendingOf(b)(w.db.intents[j]) == 0
    ensures w.db.bookings[b].status != PaymentPending && !Settled(w.db.bookings[b].status) ==>
              forall i :: 0 <= i < |w.db.intents| ==> PendingOf(b)(w.db.intents[i]) == 0
  {
    ReachableInv(w, cfg);
    var intents := w.db.intents;
    assert BookingSound(w.db, b);
    forall i, j | 0 <= i < j < |intents|
      ensures PendingOf(b)(intents[i]) + PendingOf(b)(intents[j]) <= Sum(intents, PendingOf(b))
    {
      SumCoversTwoRows(intents, i, j, PendingOf(b));
    }
    if w.db.bookings[b].status == PaymentPending {
      var i := SumHasRow(intents, PendingOf(b));
      assert TheOnlyPendingIntent(w.db, b, i);
    } else if !Settled(w.db.bookings[b].status) {
      forall i | 0 <= i < |intents| ensures PendingOf(b)(intents[i]) == 0 {
        SumCoversRow(intents, i, PendingOf(b));
      }
    }
  }
}
