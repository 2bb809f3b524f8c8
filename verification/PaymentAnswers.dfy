/** What the webhook and the making of a QR code answer and what they write, stated of
    the notification and the rows concerned (sepay.service.ts). */
module PaymentAnswers {
  import opened Common
  import opened Bookings
  import opened PaymentModel
  import opened PaymentInvariants
  import BankMemo
  import Text

  /** The text that comes with a transfer: the content, or the description without one. */
  predicate Says(p: Payload, text: string) {
    p.content == Some(text) || (p.content == None && p.description == Some(text))
  }

  ghost predicate NamesCode(p: Payload, code: string) {
    exists text :: Says(p, text) && BankMemo.ExtractOrderCode(text) == Some(code)
  }

  /** The ledger has no row under the notification's key. */
  predicate Unseen(db: Db, p: Payload) {
    forall k :: 0 <= k < |db.bank| ==> db.bank[k].dedupeKey != "SEPAY:" + p.id + ":" + p.amountText
  }

  ghost predicate Names(db: Db, p: Payload, code: string, i: nat) {
    Unseen(db, p) && p.incoming && NamesCode(p, code) && i < |db.intents| && db.intents[i].code == code
  }

  /** The booking is unpaid and its deadline is still to come. */
  predicate InTime(b: Booking, now: int) {
    (b.status == Held || b.status == PaymentPending) && b.paymentDeadline.Some? && now < b.paymentDeadline.value
  }

  /** The circumstances under which each answer is due.  They exclude each other. */
  ghost predicate Due(db: Db, p: Payload, now: int, v: Verdict)
    requires IntentsLinked(db)
  {
    match v
    case Duplicate => !Unseen(db, p)
    case TransferOut => Unseen(db, p) && !p.incoming
    case NoOrderCode => Unseen(db, p) && p.incoming && forall code :: !NamesCode(p, code)
    case IntentNotFound(code) =>
      Unseen(db, p) && p.incoming && NamesCode(p, code) && forall k :: 0 <= k < |db.intents| ==> db.intents[k].code != code
    case _ =>
      && Names(db, p, v.code, v.intent)
      && var booking := db.bookings[db.intents[v.intent].bookingId];
         match v
         case NotPayable(_, _) => !InTime(booking, now)
         case Underpaid(_, _) => InTime(booking, now) && p.amount < booking.totalSellPrice
         case Overpaid(_, _) => InTime(booking, now) && booking.totalSellPrice < p.amount
         case _ => InTime(booking, now) && p.amount == booking.totalSellPrice
  }

  lemma MemoNames(p: Payload)
    ensures match BankMemo.ExtractOrderCode(MemoOf(p))
            case None => forall code :: !NamesCode(p, code)
            case Some(code) => forall other :: NamesCode(p, other) <==> other == code
  {
    forall text | Says(p, text) ensures text == MemoOf(p) {}
    assert BankMemo.ExtractOrderCode("") == None;
    if p.content.Some? || p.description.Some? {
      assert Says(p, MemoOf(p));
    }
  }

  /** The webhook's answer is due, whatever the tables. */
  lemma AnswerIsDue(db: Db, p: Payload, now: int)
    requires IntentsLinked(db)
    ensures Due(db, p, now, Judge(db, p, now))
  {
    MemoNames(p);
  }

  /** Exactly when the webhook gives each of its eight answers. */
  lemma AnswerIff(db: Db, cfg: Config, p: Payload, now: int, v: Verdict)
    requires Inv(db, cfg)
    ensures Judge(db, p, now) == v <==> Due(db, p, now, v)
  {
    MemoNames(p);
    AnswerIsDue(db, p, now);
    if Due(db, p, now, v) && !v.Duplicate? && !v.TransferOut? && !v.NoOrderCode? && !v.IntentNotFound? {
      var i := Judge(db, p, now).intent;
      assert !(i < v.intent) && !(v.intent < i);
    }
  }

  // ---- What is written ----

  /** The ledger has one more row, with this status, reason, code and intent. */
  predicate Notes(db: Db, db': Db, p: Payload, now: int,
                  status: BankStatus, reason: string, code: Option<string>, intent: Option<nat>) {
    && |db'.bank| == |db.bank| + 1 && db'.bank[..|db.bank|] == db.bank
    && var row := db'.bank[|db.bank|];
       && row.dedupeKey == "SEPAY:" + p.id + ":" + p.amountText && row.amount == p.amount
       && row.status == status && row.reason == reason && row.reference == code && row.matchedIntent == intent
       && (p.receivedAt.Some? ==> row.receivedAt == p.receivedAt.value)
       && (p.receivedAt.None? ==> row.receivedAt == now)
  }

  /** One payment more, the intent PAID, its booking PAID, everything else as it was. */
  predicate Pays(db: Db, db': Db, p: Payload, now: int, i: nat)
    requires i < |db.intents| && db.intents[i].bookingId < |db.bookings|
  {
    var b := db.intents[i].bookingId;
    && |db'.payments| == |db.payments| + 1 && db'.payments[..|db.payments|] == db.payments
    && (var payment := db'.payments[|db.payments|];
        && payment.bookingId == b && payment.intentId == i && payment.amount == p.amount && payment.transactionRef == p.id
        && (p.receivedAt.Some? ==> payment.paidAt == p.receivedAt.value)
        && (p.receivedAt.None? ==> payment.paidAt == now))
    && |db'.intents| == |db.intents| && |db'.bookings| == |db.bookings|
    && (forall j :: 0 <= j < |db.intents| ==>
          db'.intents[j] == if j == i then db.intents[j].(status := IntentPaid) else db.intents[j])
    && (forall c :: 0 <= c < |db.bookings| ==>
          db'.bookings[c] == if c == b then db.bookings[c].(status := Paid) else db.bookings[c])
  }

  /** What each answer leaves in the tables; only an accepted payment touches more than
      the ledger. */
  ghost predicate Recorded(db: Db, db': Db, p: Payload, now: int, v: Verdict)
    requires IntentsLinked(db) && (v.Accepted? ==> v.intent < |db.intents|)
  {
    && (!v.Accepted? ==> db'.intents == db.intents && db'.payments == db.payments && db'.bookings == db.bookings)
    && match v
       case Duplicate => db'.bank == db.bank
       case TransferOut => Notes(db, db', p, now, Ignored, "TRANSFER_OUT", None, None)
       case NoOrderCode => Notes(db, db', p, now, ManualReview, "NO_ORDER_CODE", None, None)
       case IntentNotFound(code) => Notes(db, db', p, now, ManualReview, "INTENT_NOT_FOUND", Some(code), None)
       case NotPayable(code, i) => Notes(db, db', p, now, ManualReview, "BOOKING_NOT_PAYABLE", Some(code), Some(i))
       case Underpaid(code, i) => Notes(db, db', p, now, Partial, "PARTIAL", Some(code), Some(i))
       case Overpaid(code, i) => Notes(db, db', p, now, ManualReview, "OVERPAID", Some(code), Some(i))
       case Accepted(code, i) => Notes(db, db', p, now, Matched, "PAID", Some(code), Some(i)) && Pays(db, db', p, now, i)
  }

  lemma AnswerIsRecorded(db: Db, p: Payload, now: int)
    requires IntentsLinked(db)
    ensures var (db', v) := HandleWebhook(db, p, now);
            Recorded(db, db', p, now, v)
  {
  }

  /** An underpayment of a booking that could be paid is kept for the books as PARTIAL
      and an overpayment for review; neither pays anything. */
  lemma WrongAmountPaysNothing(db: Db, p: Payload, now: int, i: nat)
    requires IntentsLinked(db) && i < |db.intents| && Names(db, p, db.intents[i].code, i)
    requires forall j :: 0 <= j < i ==> db.intents[j].code != db.intents[i].code
    requires InTime(db.bookings[db.intents[i].bookingId], now)
    requires p.amount != db.bookings[db.intents[i].bookingId].totalSellPrice
    ensures var (db', v) := HandleWebhook(db, p, now);
            var code := db.intents[i].code;
            && db'.intents == db.intents && db'.payments == db.payments && db'.bookings == db.bookings
            && (if p.amount < db.bookings[db.intents[i].bookingId].totalSellPrice
                then v == Underpaid(code, i) && Notes(db, db', p, now, Partial, "PARTIAL", Some(code), Some(i))
                else v == Overpaid(code, i) && Notes(db, db', p, now, ManualReview, "OVERPAID", Some(code), Some(i)))
  {
    MemoNames(p);
    var found := FindCode(db.intents, db.intents[i].code).value;
    assert !(found < i) && !(i < found);
    AnswerIsRecorded(db, p, now);
  }

  // ---- Creating a QR code ----

  ghost predicate Taken(intents: seq<Intent>, code: string) {
    exists i :: 0 <= i < |intents| && intents[i].code == code
  }

  /** Why no QR code is made: the first of these in order. */
  ghost predicate Refuses(db: Db, b: nat, now: int, draws: Draws, error: CreateError) {
    match error
    case BookingNotFound => |db.bookings| <= b
    case BookingNotPayable => b < |db.bookings| && !InTime(db.bookings[b], now)
    case InvalidAmount => b < |db.bookings| && InTime(db.bookings[b], now) && db.bookings[b].totalSellPrice <= 0
    case NoUniqueCode =>
      && b < |db.bookings| && InTime(db.bookings[b], now) && 0 < db.bookings[b].totalSellPrice
      && forall k :: 0 <= k < MAX_CODE_ATTEMPTS ==> Taken(db.intents, CodeOf(draws[k]))
  }

  /** The new intent asks for the booking's price under the first code drawn that was
      free, for as long as configured; the earlier pending ones expire, and the booking
      waits for payment. */
  ghost predicate Creates(db: Db, db': Db, cfg: Config, b: nat, now: int, draws: Draws, id: nat) {
    && id == |db.intents| && |db'.intents| == id + 1 && |db'.bookings| == |db.bookings| && b < |db.bookings|
    && db'.payments == db.payments && db'.bank == db.bank
    && (var intent := db'.intents[id];
        && intent.bookingId == b && intent.status == IntentPending
        && intent.amount == db.bookings[b].totalSellPrice
        && intent.expiresAt == now + cfg.intentTtlMinutes * 60_000
        && exists k :: 0 <= k < MAX_CODE_ATTEMPTS && intent.code == CodeOf(draws[k]) && !Taken(db.intents, intent.code)
                       && forall j :: 0 <= j < k ==> Taken(db.intents, CodeOf(draws[j])))
    && (forall i :: 0 <= i < id ==>
          var was := db.intents[i];
          db'.intents[i] == if was.bookingId == b && was.status == IntentPending then was.(status := IntentExpired) else was)
    && (forall c :: 0 <= c < |db.bookings| ==>
          db'.bookings[c] == if c == b then db.bookings[c].(status := PaymentPending) else db.bookings[c])
  }

  lemma {:induction false} FirstFreshIsFirst(draws: seq<Draw>, intents: seq<Intent>) returns (k: nat)
    ensures FirstFreshCode(draws, intents) == None <==> forall j :: 0 <= j < |draws| ==> Taken(intents, CodeOf(draws[j]))
    ensures FirstFreshCode(draws, intents).Some? ==>
              && k < |draws| && FirstFreshCode(draws, intents) == Some(CodeOf(draws[k]))
              && !Taken(intents, CodeOf(draws[k]))
              && forall j :: 0 <= j < k ==> Taken(intents, CodeOf(draws[j]))
  {
    k := 0;
    if draws != [] {
      var code := CodeOf(draws[0]);
      var found := FindCode(intents, code);
      assert Taken(intents, code) <==> found.Some?;
      var k' := FirstFreshIsFirst(draws[1..], intents);
      if found.Some? {
        k := k' + 1;
      }
    }
  }

  lemma QrCreates(db: Db, cfg: Config, b: nat, now: int, draws: Draws)
    requires CreateIntent(db, cfg, b, now, draws).1.Ok?
    ensures var (db', r) := CreateIntent(db, cfg, b, now, draws);
            Creates(db, db', cfg, b, now, draws, r.value)
  {
    var k := FirstFreshIsFirst(draws, db.intents);
    var db' := CreateIntent(db, cfg, b, now, draws).0;
    assert db'.intents[|db.intents|].code == CodeOf(draws[k]);
  }

  /** Exactly when a QR code is made for a booking, why otherwise not, and what the
      tables are then. */
  lemma QrIff(db: Db, cfg: Config, b: nat, now: int, draws: Draws)
    ensures var (db', r) := CreateIntent(db, cfg, b, now, draws);
            && (forall error :: r == Err(error) <==> Refuses(db, b, now, draws, error))
            && (r.Err? ==> db' == db)
            && (r.Ok? ==> Creates(db, db', cfg, b, now, draws, r.value))
  {
    var k := FirstFreshIsFirst(draws, db.intents);
    if CreateIntent(db, cfg, b, now, draws).1.Ok? {
      QrCreates(db, cfg, b, now, draws);
    }
  }

  /** Two draws give the same code exactly when they fall into one second and draw the
      same number. */
  lemma CodesAgreeIff(d: Draw, d': Draw)
    ensures CodeOf(d) == CodeOf(d') <==> d.clockMs / 1000 == d'.clockMs / 1000 && d.random == d'.random
  {
    var s, s' := Text.Decimal(d.clockMs / 1000), Text.Decimal(d'.clockMs / 1000);
    var t, t' := Text.Pad3(d.random), Text.Pad3(d'.random);
    if CodeOf(d) == CodeOf(d') {
      assert |s| == |s'|;
      assert s == CodeOf(d)[..|s|] == s' && t == CodeOf(d)[|s|..] == t';
      Text.DecimalReadsBack(d.clockMs / 1000);
      Text.DecimalReadsBack(d'.clockMs / 1000);
      Text.Pad3ReadsBack(d.random);
      Text.Pad3ReadsBack(d'.random);
    }
  }
}
