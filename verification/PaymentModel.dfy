/** The payment tables and what one transaction does to them (sepay.service.ts,
    booking-lifecycle.service.ts, admin-booking.controller.ts).  Rows are never
    deleted, so a table is a sequence and a row's id is its position. */
module PaymentModel {
  import opened Common
  import opened Bookings
  import Text
  import BankMemo

  datatype IntentStatus = IntentPending | IntentPaid | IntentExpired

  datatype Intent = Intent(bookingId: nat, code: string, amount: int, status: IntentStatus, expiresAt: int)

  datatype Payment = Payment(bookingId: nat, intentId: nat, amount: int, paidAt: int, transactionRef: string)

  datatype BankStatus = Matched | ManualReview | Partial | Ignored

  datatype BankRow = BankRow(
    dedupeKey: string, amount: int, reference: Option<string>, status: BankStatus,
    reason: string, matchedIntent: Option<nat>, receivedAt: int)

  datatype Db = Db(bookings: seq<Booking>, intents: seq<Intent>, payments: seq<Payment>, bank: seq<BankRow>)

  const EMPTY := Db([], [], [], [])

  // ---- Creating a QR code ----

  type Below1000 = n: nat | n < 1000

  /** One attempt at a code: a clock reading in milliseconds and a random number. */
  datatype Draw = Draw(clockMs: nat, random: Below1000)

  const MAX_CODE_ATTEMPTS := 8

  type Draws = d: seq<Draw> | |d| == MAX_CODE_ATTEMPTS witness seq(MAX_CODE_ATTEMPTS, _ => Draw(0, 0))

  datatype CreateError = BookingNotFound | BookingNotPayable | InvalidAmount | NoUniqueCode

  function CodeOf(draw: Draw): string {
    Text.Decimal(draw.clockMs / 1000) + Text.Pad3(draw.random)
  }

  /** `findFirst` by code, from position `from` on. */
  function FindCode(intents: seq<Intent>, code: string, from: nat := 0): (r: Option<nat>)
    requires from <= |intents|
    ensures r.Some? ==> from <= r.value < |intents| && intents[r.value].code == code
    ensures r.Some? ==> forall k :: from <= k < r.value ==> intents[k].code != code
    ensures r.None? ==> forall k :: from <= k < |intents| ==> intents[k].code != code
    decreases |intents| - from
  {
    if from == |intents| then None
    else if intents[from].code == code then Some(from)
    else FindCode(intents, code, from + 1)
  }

  /** The first of the drawn codes that no intent has. */
  function FirstFreshCode(draws: seq<Draw>, intents: seq<Intent>): (r: Option<string>)
    ensures r.Some? ==> FindCode(intents, r.value).None? && exists d: Draw :: d in draws && r.value == CodeOf(d)
    ensures r.None? ==> forall d: Draw :: d in draws ==> FindCode(intents, CodeOf(d)).Some?
  {
    if draws == [] then None
    else if FindCode(intents, CodeOf(draws[0])).None? then Some(CodeOf(draws[0]))
    else FirstFreshCode(draws[1..], intents)
  }

  /** `updateMany` from PENDING to EXPIRED over the intents of one booking. */
  function ExpirePending(intents: seq<Intent>, b: nat): (r: seq<Intent>)
    ensures |r| == |intents|
    ensures forall i :: 0 <= i < |intents| ==>
                          r[i] == if intents[i].bookingId == b && intents[i].status == IntentPending
                                  then intents[i].(status := IntentExpired) else intents[i]
  {
    seq(|intents|, i requires 0 <= i < |intents| =>
      if intents[i].bookingId == b && intents[i].status == IntentPending
      then intents[i].(status := IntentExpired) else intents[i])
  }

  function SetStatus(bookings: seq<Booking>, b: nat, status: BookingStatus): seq<Booking>
    requires b < |bookings|
  {
    bookings[b := bookings[b].(status := status)]
  }

  function SetIntent(intents: seq<Intent>, i: nat, status: IntentStatus): seq<Intent>
    requires i < |intents|
  {
    intents[i := intents[i].(status := status)]
  }

  function CreateIntent(db: Db, cfg: Config, b: nat, now: int, draws: Draws): (Db, Result<nat, CreateError>) {
    if |db.bookings| <= b then (db, Err(BookingNotFound))
    else if !IsBookingPayable(db.bookings[b], now) then (db, Err(BookingNotPayable))
    else if db.bookings[b].totalSellPrice <= 0 then (db, Err(InvalidAmount))
    else
      match FirstFreshCode(draws, db.intents)
      case None => (db, Err(NoUniqueCode))
      case Some(code) =>
        var intent := Intent(b, code, db.bookings[b].totalSellPrice, IntentPending,
                             now + cfg.intentTtlMinutes * MINUTE_MS);
        (db.(intents := ExpirePending(db.intents, b) + [intent],
             bookings := SetStatus(db.bookings, b, PaymentPending)),
         Ok(|db.intents|))
  }

  // ---- The bank's webhook ----

  /** A bank notification.  `amountText` is the transfer amount as text, `amount`
      the rounded number read from it. */
  datatype Payload = Payload(
    id: string, incoming: bool, amountText: string, amount: int,
    content: Option<string>, description: Option<string>, receivedAt: Option<int>)

  function DedupeKey(p: Payload): string {
    "SEPAY:" + p.id + ":" + p.amountText
  }

  function MemoOf(p: Payload): string {
    if p.content.Some? then p.content.value
    else if p.description.Some? then p.description.value
    else ""
  }

  predicate Delivered(bank: seq<BankRow>, key: string) {
    exists k :: 0 <= k < |bank| && bank[k].dedupeKey == key
  }

  datatype Verdict =
    | Duplicate
    | TransferOut
    | NoOrderCode
    | IntentNotFound(code: string)
    | NotPayable(code: string, intent: nat)
    | Underpaid(code: string, intent: nat)
    | Overpaid(code: string, intent: nat)
    | Accepted(code: string, intent: nat)

  /** What the webhook decides, before it writes anything. */
  function Judge(db: Db, p: Payload, now: int): Verdict
    requires IntentsLinked(db)
  {
    if Delivered(db.bank, DedupeKey(p)) then Duplicate
    else if !p.incoming then TransferOut
    else
      match BankMemo.ExtractOrderCode(MemoOf(p))
      case None => NoOrderCode
      case Some(code) =>
        match FindCode(db.intents, code)
        case None => IntentNotFound(code)
        case Some(i) =>
          var booking := db.bookings[db.intents[i].bookingId];
          if !IsBookingPayable(booking, now) then NotPayable(code, i)
          else if p.amount < booking.totalSellPrice then Underpaid(code, i)
          else if p.amount > booking.totalSellPrice then Overpaid(code, i)
          else Accepted(code, i)
  }

  /** The ledger row written for a verdict other than `Duplicate`. */
  function RowFor(p: Payload, v: Verdict, now: int): BankRow
    requires !v.Duplicate?
  {
    var receivedAt := if p.receivedAt.Some? then p.receivedAt.value else now;
    var (status, reason) :=
      match v
      case TransferOut => (Ignored, "TRANSFER_OUT")
      case NoOrderCode => (ManualReview, "NO_ORDER_CODE")
      case IntentNotFound(_) => (ManualReview, "INTENT_NOT_FOUND")
      case NotPayable(_, _) => (ManualReview, "BOOKING_NOT_PAYABLE")
      case Underpaid(_, _) => (Partial, "PARTIAL")
      case Overpaid(_, _) => (ManualReview, "OVERPAID")
      case Accepted(_, _) => (Matched, "PAID");
    var reference := if v.TransferOut? || v.NoOrderCode? then None else Some(v.code);
    var intent := if v.TransferOut? || v.NoOrderCode? || v.IntentNotFound? then None else Some(v.intent);
    BankRow(DedupeKey(p), p.amount, reference, status, reason, intent, receivedAt)
  }

  function HandleWebhook(db: Db, p: Payload, now: int): (Db, Verdict)
    requires IntentsLinked(db)
  {
    var v := Judge(db, p, now);
    if v.Duplicate? then (db, v)
    else
      var ledger := db.(bank := db.bank + [RowFor(p, v, now)]);
      if !v.Accepted? then (ledger, v)
      else
        var b := db.intents[v.intent].bookingId;
        var paidAt := if p.receivedAt.Some? then p.receivedAt.value else now;
        (ledger.(payments := db.payments + [Payment(b, v.intent, p.amount, paidAt, p.id)],
                 intents := SetIntent(db.intents, v.intent, IntentPaid),
                 bookings := SetStatus(db.bookings, b, Paid)),
         v)
  }

  // ---- One row of each expiry loop ----

  predicate IntentOverdue(i: Intent, now: int) {
    i.status == IntentPending && i.expiresAt < now
  }

  predicate BookingOverdue(b: Booking, now: int) {
    Unpaid(b.status) && b.paymentDeadline.Some? && b.paymentDeadline.value < now
  }

  function PendingOf(b: nat): Intent -> int {
    (i: Intent) => if i.bookingId == b && i.status == IntentPending then 1 else 0
  }

  function ExpireIntentRow(db: Db, i: nat, now: int): (Db, nat)
    requires IntentsLinked(db)
  {
    if |db.intents| <= i || !IntentOverdue(db.intents[i], now) then (db, 0)
    else
      var b := db.intents[i].bookingId;
      var intents := SetIntent(db.intents, i, IntentExpired);
      var bookings :=
        if Sum(intents, PendingOf(b)) == 0 && db.bookings[b].status == PaymentPending
        then SetStatus(db.bookings, b, Held) else db.bookings;
      (db.(intents := intents, bookings := bookings), 1)
  }

  function ExpireBookingRow(db: Db, b: nat, now: int): (Db, nat) {
    if |db.bookings| <= b || !BookingOverdue(db.bookings[b], now) then (db, 0)
    else
      (db.(bookings := SetStatus(db.bookings, b, Expired), intents := ExpirePending(db.intents, b)), 1)
  }

  // ---- Holding seats, issuing tickets ----

  datatype AdminError = UnknownBooking | NotPaid | UnknownPnr(code: string)

  function NormalCode(code: string): string {
    Text.UpperAll(Text.Trim(code))
  }

  function FindPnr(pnrs: seq<Pnr>, code: string, from: nat := 0): (r: Option<nat>)
    requires from <= |pnrs|
    ensures r.Some? ==> from <= r.value < |pnrs| && Text.UpperAll(pnrs[r.value].code) == NormalCode(code)
    ensures r.None? ==> forall k :: from <= k < |pnrs| ==> Text.UpperAll(pnrs[k].code) != NormalCode(code)
    decreases |pnrs| - from
  {
    if from == |pnrs| then None
    else if Text.UpperAll(pnrs[from].code) == NormalCode(code) then Some(from)
    else FindPnr(pnrs, code, from + 1)
  }

  /** Write each ticket number onto its record locator, in order. */
  function WithTickets(pnrs: seq<Pnr>, tickets: seq<(string, string)>): Result<seq<Pnr>, AdminError>
    decreases |tickets|
  {
    if tickets == [] then Ok(pnrs)
    else
      match FindPnr(pnrs, tickets[0].0)
      case None => Err(UnknownPnr(tickets[0].0))
      case Some(k) =>
        WithTickets(pnrs[k := pnrs[k].(ticketNumber := Some(Text.Trim(tickets[0].1)))], tickets[1..])
  }

  function MarkTicketed(db: Db, b: nat, tickets: seq<(string, string)>): (Db, Option<AdminError>) {
    if |db.bookings| <= b then (db, Some(UnknownBooking))
    else if db.bookings[b].status != Paid then (db, Some(NotPaid))
    else
      match WithTickets(db.bookings[b].pnrs, tickets)
      case Err(e) => (db, Some(e))
      case Ok(pnrs) =>
        (db.(bookings := db.bookings[b := db.bookings[b].(pnrs := pnrs, status := Ticketed)]), None)
  }

  function MarkIssueFailed(db: Db, b: nat): (Db, Option<AdminError>) {
    if |db.bookings| <= b then (db, Some(UnknownBooking))
    else if db.bookings[b].status != Paid then (db, Some(NotPaid))
    else (db.(bookings := SetStatus(db.bookings, b, IssueFailed)), None)
  }

  function AddHeld(db: Db, held: Result<Booking, HoldError>): Db {
    if held.Ok? then db.(bookings := db.bookings + [held.value]) else db
  }

  /** Foreign keys: every intent belongs to a stored booking. */
  ghost predicate IntentsLinked(db: Db) {
    forall i :: 0 <= i < |db.intents| ==> db.intents[i].bookingId < |db.bookings|
  }
}
