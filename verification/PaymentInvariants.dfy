/** What every payment transaction keeps. */
module PaymentInvariants {
  import opened Common
  import opened Bookings
  import opened PaymentModel
  import Text

  // ---- Weights ----

  function PaidIntentOf(b: nat): Intent -> int {
    (i: Intent) => if i.bookingId == b && i.status == IntentPaid then 1 else 0
  }

  function PaymentOf(b: nat): Payment -> int {
    (p: Payment) => if p.bookingId == b then 1 else 0
  }

  function PaidTo(b: nat): Payment -> int {
    (p: Payment) => if p.bookingId == b then p.amount else 0
  }

  function PaymentAmount(): Payment -> int {
    (p: Payment) => p.amount
  }

  function MatchedAmount(): BankRow -> int {
    (r: BankRow) => if r.status == Matched then r.amount else 0
  }

  function SettledPrice(): Booking -> int {
    (b: Booking) => if Settled(b.status) then b.totalSellPrice else 0
  }

  // ---- The invariant ----

  /** How many PENDING intents a booking may have, by its status. */
  predicate PendingAllowed(status: BookingStatus, pending: int) {
    if status == PaymentPending then pending == 1
    else if Settled(status) then 0 <= pending <= 1
    else pending == 0
  }

  /** One booking: its pending intents, and one payment of its price exactly when
      it is settled, with one PAID intent behind it. */
  ghost predicate BookingSound(db: Db, b: nat)
    requires b < |db.bookings|
  {
    var booking := db.bookings[b];
    var settled := if Settled(booking.status) then 1 else 0;
    && PendingAllowed(booking.status, Sum(db.intents, PendingOf(b)))
    && Sum(db.intents, PaidIntentOf(b)) == settled
    && Sum(db.payments, PaymentOf(b)) == settled
    && Sum(db.payments, PaidTo(b)) == settled * booking.totalSellPrice
  }

  ghost predicate BookingsSound(db: Db) {
    forall b :: 0 <= b < |db.bookings| ==> BookingSound(db, b)
  }

  /** Every intent asks for its booking's price under a readable code that no
      other intent has. */
  ghost predicate IntentsSound(db: Db) {
    && (forall i :: 0 <= i < |db.intents| ==>
          && db.intents[i].bookingId < |db.bookings|
          && db.intents[i].amount == db.bookings[db.intents[i].bookingId].totalSellPrice
          && Text.AllDigits(db.intents[i].code))
    && (forall i, j :: 0 <= i < j < |db.intents| ==> db.intents[i].code != db.intents[j].code)
  }

  /** Every payment belongs to a PAID intent of its booking, and no intent is paid twice. */
  ghost predicate PaymentsSound(db: Db) {
    forall k :: 0 <= k < |db.payments| ==>
      && db.payments[k].intentId < |db.intents|
      && db.intents[db.payments[k].intentId].status == IntentPaid
      && db.intents[db.payments[k].intentId].bookingId == db.payments[k].bookingId
      && db.payments[k].bookingId < |db.bookings|
  }

  ghost predicate KeysDistinct(bank: seq<BankRow>) {
    forall i, j :: 0 <= i < j < |bank| ==> bank[i].dedupeKey != bank[j].dedupeKey
  }

  /** Money is conserved: matched bank rows, payments and settled prices agree. */
  ghost predicate Balanced(db: Db) {
    && Sum(db.bank, MatchedAmount()) == Sum(db.payments, PaymentAmount())
    && Sum(db.payments, PaymentAmount()) == Sum(db.bookings, SettledPrice())
  }

  /** Every booking is as it was agreed when its seats were held. */
  ghost predicate TermsKept(bookings: seq<Booking>, cfg: Config) {
    forall b :: 0 <= b < |bookings| ==> TermsHold(cfg, bookings[b])
  }

  ghost predicate Inv(db: Db, cfg: Config) {
    && IntentsSound(db)
    && PaymentsSound(db)
    && BookingsSound(db)
    && KeysDistinct(db.bank)
    && Balanced(db)
    && TermsKept(db.bookings, cfg)
  }

  // ---- Effects on counts ----

  lemma ExpirePendingCounts(intents: seq<Intent>, b: nat, c: nat)
    ensures Sum(ExpirePending(intents, b), PendingOf(c)) == if b == c then 0 else Sum(intents, PendingOf(c))
    ensures Sum(ExpirePending(intents, b), PaidIntentOf(c)) == Sum(intents, PaidIntentOf(c))
  {
    var expired := ExpirePending(intents, b);
    if b == c {
      SumOfZeros(expired, PendingOf(c));
    } else {
      SumPointwise(expired, intents, PendingOf(c), PendingOf(c));
    }
    SumPointwise(expired, intents, PaidIntentOf(c), PaidIntentOf(c));
  }

  lemma SetIntentCounts(intents: seq<Intent>, i: nat, status: IntentStatus, c: nat)
    requires i < |intents|
    ensures Sum(SetIntent(intents, i, status), PendingOf(c)) ==
            Sum(intents, PendingOf(c)) - PendingOf(c)(intents[i]) + PendingOf(c)(intents[i].(status := status))
    ensures Sum(SetIntent(intents, i, status), PaidIntentOf(c)) ==
            Sum(intents, PaidIntentOf(c)) - PaidIntentOf(c)(intents[i]) + PaidIntentOf(c)(intents[i].(status := status))
  {
    SumUpdate(intents, i, intents[i].(status := status), PendingOf(c));
    SumUpdate(intents, i, intents[i].(status := status), PaidIntentOf(c));
  }

  lemma PendingCountNonNegative(intents: seq<Intent>, b: nat)
    ensures 0 <= Sum(intents, PendingOf(b))
  {
    SumNonNegative(intents, PendingOf(b));
  }

  lemma StatusKeepsTerms(bookings: seq<Booking>, cfg: Config, b: nat, status: BookingStatus)
    requires b < |bookings| && TermsKept(bookings, cfg)
    ensures TermsKept(SetStatus(bookings, b, status), cfg)
  {
    var changed := SetStatus(bookings, b, status);
    forall c | 0 <= c < |changed| ensures TermsHold(cfg, changed[c]) {
      assert TermsHold(cfg, bookings[c]);
    }
  }

  // ---- Holding seats ----

  lemma AddHeldKeepsInv(db: Db, cfg: Config, held: Result<Booking, HoldError>)
    requires Inv(db, cfg)
    requires held.Ok? ==> TermsHold(cfg, held.value) && held.value.status == Held
    ensures Inv(AddHeld(db, held), cfg)
  {
    if held.Ok? {
      var db' := AddHeld(db, held);
      var n := |db.bookings|;
      SumOfZeros(db.intents, PendingOf(n));
      SumOfZeros(db.intents, PaidIntentOf(n));
      SumOfZeros(db.payments, PaymentOf(n));
      SumOfZeros(db.payments, PaidTo(n));
      SumAppend(db.bookings, held.value, SettledPrice());
      forall b | 0 <= b < |db'.bookings| ensures BookingSound(db', b) {
        if b < n {
          assert BookingSound(db, b);
        }
      }
    }
  }

  // ---- Creating a QR code ----

  /** The tables after a QR code is created for an unpaid booking. */
  ghost function WithNewIntent(db: Db, intent: Intent): Db
    requires intent.bookingId < |db.bookings|
  {
    db.(intents := ExpirePending(db.intents, intent.bookingId) + [intent],
        bookings := SetStatus(db.bookings, intent.bookingId, PaymentPending))
  }

  lemma NewIntentKeepsBooking(db: Db, intent: Intent, c: nat)
    requires intent.bookingId < |db.bookings| && Unpaid(db.bookings[intent.bookingId].status)
    requires intent.status == IntentPending
    requires c < |db.bookings| && BookingSound(db, c)
    ensures BookingSound(WithNewIntent(db, intent), c)
  {
    var expired := ExpirePending(db.intents, intent.bookingId);
    ExpirePendingCounts(db.intents, intent.bookingId, c);
    SumAppend(expired, intent, PendingOf(c));
    SumAppend(expired, intent, PaidIntentOf(c));
  }

  lemma NewIntentKeepsIntents(db: Db, intent: Intent)
    requires IntentsSound(db) && PaymentsSound(db)
    requires intent.bookingId < |db.bookings|
    requires intent.amount == db.bookings[intent.bookingId].totalSellPrice && Text.AllDigits(intent.code)
    requires forall k :: 0 <= k < |db.intents| ==> db.intents[k].code != intent.code
    ensures IntentsSound(WithNewIntent(db, intent)) && PaymentsSound(WithNewIntent(db, intent))
  {
  }

  lemma NewIntentKeepsInv(db: Db, cfg: Config, intent: Intent)
    requires Inv(db, cfg)
    requires intent.bookingId < |db.bookings| && Unpaid(db.bookings[intent.bookingId].status)
    requires intent.status == IntentPending
    requires intent.amount == db.bookings[intent.bookingId].totalSellPrice && Text.AllDigits(intent.code)
    requires forall k :: 0 <= k < |db.intents| ==> db.intents[k].code != intent.code
    ensures Inv(WithNewIntent(db, intent), cfg)
  {
    var db' := WithNewIntent(db, intent);
    NewIntentKeepsIntents(db, intent);
    StatusKeepsTerms(db.bookings, cfg, intent.bookingId, PaymentPending);
    SumUpdate(db.bookings, intent.bookingId, db'.bookings[intent.bookingId], SettledPrice());
    forall c | 0 <= c < |db'.bookings| ensures BookingSound(db', c) {
      NewIntentKeepsBooking(db, intent, c);
    }
  }

  lemma CreateIntentKeepsInv(db: Db, cfg: Config, b: nat, now: int, draws: Draws)
    requires Inv(db, cfg)
    ensures Inv(CreateIntent(db, cfg, b, now, draws).0, cfg)
  {
    var (db', result) := CreateIntent(db, cfg, b, now, draws);
    if result.Ok? {
      NewIntentKeepsInv(db, cfg, db'.intents[|db.intents|]);
    }
  }

  // ---- The webhook ----

  lemma LedgerRowKeepsInv(db: Db, cfg: Config, row: BankRow)
    requires Inv(db, cfg) && row.status != Matched && !Delivered(db.bank, row.dedupeKey)
    ensures Inv(db.(bank := db.bank + [row]), cfg)
  {
    var db' := db.(bank := db.bank + [row]);
    SumAppend(db.bank, row, MatchedAmount());
    forall b | 0 <= b < |db'.bookings| ensures BookingSound(db', b) {
      assert BookingSound(db, b);
    }
  }

  /** The tables after a payment is recorded against intent i. */
  ghost function WithPayment(db: Db, i: nat, payment: Payment, row: BankRow): Db
    requires i < |db.intents| && db.intents[i].bookingId < |db.bookings|
  {
    Db(SetStatus(db.bookings, db.intents[i].bookingId, Paid), SetIntent(db.intents, i, IntentPaid),
       db.payments + [payment], db.bank + [row])
  }

  ghost predicate PaysFor(db: Db, i: nat, payment: Payment, row: BankRow)
    requires IntentsSound(db)
  {
    && i < |db.intents|
    && var booking := db.bookings[db.intents[i].bookingId];
    && Unpaid(booking.status)
    && payment.bookingId == db.intents[i].bookingId && payment.intentId == i
    && payment.amount == booking.totalSellPrice == row.amount
    && row.status == Matched
  }

  lemma PaymentKeepsBooking(db: Db, i: nat, payment: Payment, row: BankRow, c: nat)
    requires IntentsSound(db) && PaysFor(db, i, payment, row)
    requires c < |db.bookings| && BookingSound(db, c)
    ensures BookingSound(WithPayment(db, i, payment, row), c)
  {
    SetIntentCounts(db.intents, i, IntentPaid, c);
    PendingCountNonNegative(SetIntent(db.intents, i, IntentPaid), c);
    SumAppend(db.payments, payment, PaymentOf(c));
    SumAppend(db.payments, payment, PaidTo(c));
    if db.intents[i].status == IntentPaid && c == db.intents[i].bookingId {
      SumCoversRow(db.intents, i, PaidIntentOf(c));
    }
  }

  lemma PaymentKeepsBalance(db: Db, i: nat, payment: Payment, row: BankRow)
    requires IntentsSound(db) && Balanced(db) && PaysFor(db, i, payment, row)
    ensures Balanced(WithPayment(db, i, payment, row))
  {
    var b := db.intents[i].bookingId;
    SumAppend(db.bank, row, MatchedAmount());
    SumAppend(db.payments, payment, PaymentAmount());
    SumUpdate(db.bookings, b, db.bookings[b].(status := Paid), SettledPrice());
  }

  lemma PaymentKeepsBookings(db: Db, i: nat, payment: Payment, row: BankRow)
    requires IntentsSound(db) && BookingsSound(db) && PaysFor(db, i, payment, row)
    ensures BookingsSound(WithPayment(db, i, payment, row))
  {
    var db' := WithPayment(db, i, payment, row);
    forall c | 0 <= c < |db'.bookings| ensures BookingSound(db', c) {
      assert BookingSound(db, c);
      PaymentKeepsBooking(db, i, payment, row, c);
    }
  }

  lemma PaymentKeepsInv(db: Db, cfg: Config, i: nat, payment: Payment, row: BankRow)
    requires Inv(db, cfg) && PaysFor(db, i, payment, row)
    requires !Delivered(db.bank, row.dedupeKey)
    ensures Inv(WithPayment(db, i, payment, row), cfg)
  {
    PaymentKeepsBookings(db, i, payment, row);
    PaymentKeepsBalance(db, i, payment, row);
    StatusKeepsTerms(db.bookings, cfg, db.intents[i].bookingId, Paid);
  }

  lemma AcceptedKeepsInv(db: Db, cfg: Config, p: Payload, now: int)
    requires Inv(db, cfg)
    requires Judge(db, p, now).Accepted?
    ensures Inv(HandleWebhook(db, p, now).0, cfg)
  {
    var v := Judge(db, p, now);
    var db' := HandleWebhook(db, p, now).0;
    PaymentKeepsInv(db, cfg, v.intent, db'.payments[|db.payments|], RowFor(p, v, now));
  }

  lemma WebhookKeepsInv(db: Db, cfg: Config, p: Payload, now: int)
    requires Inv(db, cfg)
    ensures Inv(HandleWebhook(db, p, now).0, cfg)
  {
    if Judge(db, p, now).Accepted? {
      AcceptedKeepsInv(db, cfg, p, now);
    } else if !Judge(db, p, now).Duplicate? {
      LedgerRowKeepsInv(db, cfg, RowFor(p, Judge(db, p, now), now));
    }
  }

  // ---- The expiry loops ----

  lemma ExpiredIntentKeepsBooking(db: Db, i: nat, now: int, c: nat)
    requires IntentsSound(db) && BookingsSound(db)
    requires i < |db.intents| && IntentOverdue(db.intents[i], now)
    requires c < |db.bookings|
    ensures BookingSound(ExpireIntentRow(db, i, now).0, c)
  {
    assert BookingSound(db, c);
    SetIntentCounts(db.intents, i, IntentExpired, c);
    PendingCountNonNegative(SetIntent(db.intents, i, IntentExpired), c);
  }

  /** A row of the loop only moves its intent, and its booking back to HELD. */
  lemma ExpireIntentRowEffect(db: Db, i: nat, now: int)
    requires IntentsLinked(db)
    ensures var (db', moved) := ExpireIntentRow(db, i, now);
            && |db'.bookings| == |db.bookings| && |db'.intents| == |db.intents|
            && db'.payments == db.payments && db'.bank == db.bank
            && (moved == 1 <==> i < |db.intents| && IntentOverdue(db.intents[i], now))
            && (moved != 0 ==> moved == 1)
            && (forall k :: 0 <= k < |db.intents| ==>
                  db'.intents[k] == if k == i && moved == 1 then db.intents[k].(status := IntentExpired) else db.intents[k])
            && (forall c :: 0 <= c < |db.bookings| ==>
                  db'.bookings[c] == db.bookings[c]
                  || (moved == 1 && c == db.intents[i].bookingId && db.bookings[c].status == PaymentPending
                      && db'.bookings[c] == db.bookings[c].(status := Held)))
  {
  }

  lemma ExpireIntentRowKeepsTerms(db: Db, cfg: Config, i: nat, now: int)
    requires IntentsLinked(db) && Balanced(db) && TermsKept(db.bookings, cfg)
    ensures var db' := ExpireIntentRow(db, i, now).0;
            Balanced(db') && TermsKept(db'.bookings, cfg)
  {
    var db' := ExpireIntentRow(db, i, now).0;
    if db'.bookings != db.bookings {
      var b := db.intents[i].bookingId;
      StatusKeepsTerms(db.bookings, cfg, b, Held);
      SumUpdate(db.bookings, b, db.bookings[b].(status := Held), SettledPrice());
    }
  }

  lemma ExpireIntentRowKeepsInv(db: Db, cfg: Config, i: nat, now: int)
    requires Inv(db, cfg)
    ensures Inv(ExpireIntentRow(db, i, now).0, cfg)
  {
    ExpireIntentRowKeepsTerms(db, cfg, i, now);
    assert BookingsSound(ExpireIntentRow(db, i, now).0) by {
      if i < |db.intents| && IntentOverdue(db.intents[i], now) {
        ExpireIntentRowEffect(db, i, now);
        forall c | 0 <= c < |db.bookings| ensures BookingSound(ExpireIntentRow(db, i, now).0, c) {
          ExpiredIntentKeepsBooking(db, i, now, c);
        }
      }
    }
  }

  lemma ExpireBookingRowKeepsTerms(db: Db, cfg: Config, b: nat, now: int)
    requires Balanced(db) && TermsKept(db.bookings, cfg)
    ensures var db' := ExpireBookingRow(db, b, now).0;
            Balanced(db') && TermsKept(db'.bookings, cfg)
  {
    if ExpireBookingRow(db, b, now).1 == 1 {
      StatusKeepsTerms(db.bookings, cfg, b, Expired);
      SumUpdate(db.bookings, b, db.bookings[b].(status := Expired), SettledPrice());
    }
  }

  lemma ExpireBookingRowKeepsBooking(db: Db, b: nat, now: int, c: nat)
    requires c < |db.bookings| && BookingSound(db, c)
    ensures BookingSound(ExpireBookingRow(db, b, now).0, c)
  {
    ExpirePendingCounts(db.intents, b, c);
  }

  lemma ExpireBookingRowKeepsInv(db: Db, cfg: Config, b: nat, now: int)
    requires Inv(db, cfg)
    ensures Inv(ExpireBookingRow(db, b, now).0, cfg)
  {
    ExpireBookingRowKeepsTerms(db, cfg, b, now);
    forall c | 0 <= c < |db.bookings| ensures BookingSound(ExpireBookingRow(db, b, now).0, c) {
      ExpireBookingRowKeepsBooking(db, b, now, c);
    }
  }

  // ---- The administrator ----

  lemma {:induction false} WithTicketsKeepsLimits(pnrs: seq<Pnr>, tickets: seq<(string, string)>)
    requires WithTickets(pnrs, tickets).Ok?
    ensures var r := WithTickets(pnrs, tickets).value;
            |r| == |pnrs| && forall k :: 0 <= k < |r| ==> r[k].code == pnrs[k].code && r[k].timelimit == pnrs[k].timelimit
    decreases |tickets|
  {
    if tickets != [] {
      var k := FindPnr(pnrs, tickets[0].0).value;
      WithTicketsKeepsLimits(pnrs[k := pnrs[k].(ticketNumber := Some(Text.Trim(tickets[0].1)))], tickets[1..]);
    }
  }

  /** Leaving PAID for another settled status, with the same price and time limits. */
  lemma SettledStepKeepsInv(db: Db, cfg: Config, b: nat, booking: Booking)
    requires Inv(db, cfg)
    requires b < |db.bookings| && db.bookings[b].status == Paid && Settled(booking.status)
    requires booking.totalSellPrice == db.bookings[b].totalSellPrice && TermsHold(cfg, booking)
    ensures Inv(db.(bookings := db.bookings[b := booking]), cfg)
  {
    var db' := db.(bookings := db.bookings[b := booking]);
    SumUpdate(db.bookings, b, booking, SettledPrice());
    forall c | 0 <= c < |db'.bookings| ensures BookingSound(db', c) {
      assert BookingSound(db, c);
    }
  }

  lemma TicketsKeepTerms(cfg: Config, booking: Booking, tickets: seq<(string, string)>)
    requires TermsHold(cfg, booking) && WithTickets(booking.pnrs, tickets).Ok?
    ensures TermsHold(cfg, booking.(pnrs := WithTickets(booking.pnrs, tickets).value, status := Ticketed))
  {
    WithTicketsKeepsLimits(booking.pnrs, tickets);
  }

  lemma MarkTicketedKeepsInv(db: Db, cfg: Config, b: nat, tickets: seq<(string, string)>)
    requires Inv(db, cfg)
    ensures Inv(MarkTicketed(db, b, tickets).0, cfg)
  {
    if MarkTicketed(db, b, tickets).1.None? {
      TicketsKeepTerms(cfg, db.bookings[b], tickets);
      var pnrs := WithTickets(db.bookings[b].pnrs, tickets).value;
      SettledStepKeepsInv(db, cfg, b, db.bookings[b].(pnrs := pnrs, status := Ticketed));
    }
  }

  lemma MarkIssueFailedKeepsInv(db: Db, cfg: Config, b: nat)
    requires Inv(db, cfg)
    ensures Inv(MarkIssueFailed(db, b).0, cfg)
  {
    if MarkIssueFailed(db, b).1.None? {
      SettledStepKeepsInv(db, cfg, b, db.bookings[b].(status := IssueFailed));
    }
  }
}
