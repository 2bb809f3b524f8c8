/** The services as they work on the shared tables, statement by statement, each
    transaction proved equal to its effect in PaymentModel. */
module PaymentServices {
  import opened Common
  import opened Bookings
  import opened PaymentModel
  import opened PaymentInvariants
  import opened PaymentRuns
  import opened PaymentAnswers
  import opened PaymentExpiry
  import BankMemo
  import Markup
  import Text

  /** The tables behind the database client. */
  class PrismaService {
    var bookings: seq<Booking>
    var intents: seq<Intent>
    var payments: seq<Payment>
    var bank: seq<BankRow>

    ghost function View(): Db
      reads this
    {
      Db(bookings, intents, payments, bank)
    }

    constructor ()
      ensures View() == EMPTY
    {
      bookings, intents, payments, bank := [], [], [], [];
    }
  }

  class BookingService {
    const prisma: PrismaService
    const cfg: Config

    constructor (prisma: PrismaService, cfg: Config)
      ensures this.prisma == prisma && this.cfg == cfg
    {
      this.prisma, this.cfg := prisma, cfg;
    }

    method PersistHeldBooking(pnrs: seq<HeldPnr>, departTime: int, input: Markup.Input,
                              rules: seq<Markup.Rule>, now: int) returns (r: Result<Booking, HoldError>)
      modifies prisma
      ensures r == HeldBooking(cfg, pnrs, departTime, input, rules, now)
      ensures prisma.View() == AddHeld(old(prisma.View()), r)
      ensures r.Ok? ==> TermsHold(cfg, r.value) && Markup.RulesAsk(input, rules, now, r.value.totalSellPrice)
      ensures prisma.bookings == old(prisma.bookings) + if r.Ok? then [r.value] else []
      ensures unchanged(prisma`intents) && unchanged(prisma`payments) && unchanged(prisma`bank)
    {
      HeldBookingTerms(cfg, pnrs, departTime, input, rules, now);
      HeldAtTheRulesPrice(cfg, pnrs, departTime, input, rules, now);
      var expires := ResolveHoldExpiresAt(cfg, pnrs, departTime, now);
      var deadline := expires - cfg.paymentBufferMinutes * MINUTE_MS;
      if deadline <= now + cfg.minPaymentWindowMinutes * MINUTE_MS {
        return Err(WindowTooShort);
      }
      var price := Markup.ComputeMarkup(input, rules, now);
      if price.Err? {
        return Err(MarkupRejected(price.error));
      }
      var booking := Booking(Held, input.netPrice, price.value.markupAmount, price.value.sellPrice,
                             expires, Some(deadline), StoredPnrs(pnrs, expires));
      prisma.bookings := prisma.bookings + [booking];
      r := Ok(booking);
    }
  }

  class SepayService {
    const prisma: PrismaService
    const cfg: Config

    constructor (prisma: PrismaService, cfg: Config)
      ensures this.prisma == prisma && this.cfg == cfg
    {
      this.prisma, this.cfg := prisma, cfg;
    }

    method GenerateProviderOrderCode(draws: Draws) returns (code: Option<string>)
      ensures code == FirstFreshCode(draws, prisma.intents)
    {
      var attempt := 0;
      while attempt < MAX_CODE_ATTEMPTS
        invariant 0 <= attempt <= MAX_CODE_ATTEMPTS
        invariant FirstFreshCode(draws, prisma.intents) == FirstFreshCode(draws[attempt..], prisma.intents)
      {
        var candidate := CodeOf(draws[attempt]);
        if FindCode(prisma.intents, candidate).None? {
          return Some(candidate);
        }
        assert draws[attempt..][1..] == draws[attempt + 1..];
        attempt := attempt + 1;
      }
      code := None;
    }

    /** The transaction of a QR creation: the old code expires, a new one is stored. */
    method ReplaceIntent(b: nat, amount: int, expiresAt: int, draws: Draws) returns (id: Option<nat>)
      requires b < |prisma.bookings|
      modifies prisma`intents, prisma`bookings
      ensures var code := FirstFreshCode(draws, old(prisma.intents));
              if code == None
              then id == None && prisma.intents == old(prisma.intents) && prisma.bookings == old(prisma.bookings)
              else && id == Some(|old(prisma.intents)|)
                   && prisma.intents == ExpirePending(old(prisma.intents), b)
                                        + [Intent(b, code.value, amount, IntentPending, expiresAt)]
                   && prisma.bookings == SetStatus(old(prisma.bookings), b, PaymentPending)
    {
      var before := prisma.intents;
      prisma.intents := ExpirePending(prisma.intents, b);
      ExpiringKeepsCodes(draws, before, b);
      var code := GenerateProviderOrderCode(draws);
      if code.None? {
        prisma.intents := before; // the transaction rolls back
        return None;
      }
      id := Some(|prisma.intents|);
      prisma.intents := prisma.intents + [Intent(b, code.value, amount, IntentPending, expiresAt)];
      prisma.bookings := prisma.bookings[b := prisma.bookings[b].(status := PaymentPending)];
    }

    method CreateIntentForBooking(b: nat, now: int, draws: Draws) returns (r: Result<nat, CreateError>)
      modifies prisma
      ensures (prisma.View(), r) == CreateIntent(old(prisma.View()), cfg, b, now, draws)
    {
      if |prisma.bookings| <= b {
        return Err(BookingNotFound);
      }
      var booking := prisma.bookings[b];
      if !IsBookingPayable(booking, now) {
        return Err(BookingNotPayable);
      }
      if booking.totalSellPrice <= 0 {
        return Err(InvalidAmount);
      }
      var id := ReplaceIntent(b, booking.totalSellPrice, now + cfg.intentTtlMinutes * MINUTE_MS, draws);
      r := if id.None? then Err(NoUniqueCode) else Ok(id.value);
    }

    method CreateBankTransaction(row: BankRow)
      modifies prisma`bank
      ensures prisma.bank == old(prisma.bank) + [row]
    {
      prisma.bank := prisma.bank + [row];
    }

    method HandleWebhook(p: Payload, now: int) returns (v: Verdict)
      requires IntentsLinked(prisma.View())
      modifies prisma
      ensures (prisma.View(), v) == PaymentModel.HandleWebhook(old(prisma.View()), p, now)
      ensures Due(old(prisma.View()), p, now, v) && Recorded(old(prisma.View()), prisma.View(), p, now, v)
    {
      AnswerIsDue(prisma.View(), p, now);
      AnswerIsRecorded(prisma.View(), p, now);
      var key := DedupeKey(p);
      if Delivered(prisma.bank, key) {
        return Duplicate;
      }
      var receivedAt := if p.receivedAt.Some? then p.receivedAt.value else now;
      if !p.incoming {
        CreateBankTransaction(BankRow(key, p.amount, None, Ignored, "TRANSFER_OUT", None, receivedAt));
        return TransferOut;
      }
      var code := BankMemo.ExtractOrderCode(MemoOf(p));
      if code.None? {
        CreateBankTransaction(BankRow(key, p.amount, None, ManualReview, "NO_ORDER_CODE", None, receivedAt));
        return NoOrderCode;
      }
      var found := FindCode(prisma.intents, code.value);
      if found.None? {
        CreateBankTransaction(BankRow(key, p.amount, code, ManualReview, "INTENT_NOT_FOUND", None, receivedAt));
        return IntentNotFound(code.value);
      }
      var i := found.value;
      var b := prisma.intents[i].bookingId;
      var booking := prisma.bookings[b];
      if !IsBookingPayable(booking, now) {
        CreateBankTransaction(BankRow(key, p.amount, code, ManualReview, "BOOKING_NOT_PAYABLE", found, receivedAt));
        return NotPayable(code.value, i);
      }
      var expected := booking.totalSellPrice;
      if p.amount < expected {
        CreateBankTransaction(BankRow(key, p.amount, code, Partial, "PARTIAL", found, receivedAt));
        return Underpaid(code.value, i);
      }
      if p.amount > expected {
        CreateBankTransaction(BankRow(key, p.amount, code, ManualReview, "OVERPAID", found, receivedAt));
        return Overpaid(code.value, i);
      }
      prisma.payments := prisma.payments + [Payment(b, i, p.amount, receivedAt, p.id)];
      CreateBankTransaction(BankRow(key, p.amount, code, Matched, "PAID", found, receivedAt));
      prisma.intents := prisma.intents[i := prisma.intents[i].(status := IntentPaid)];
      prisma.bookings := prisma.bookings[b := booking.(status := Paid)];
      v := Accepted(code.value, i);
    }
  }

  /** Expiring intents does not change which codes are taken. */
  lemma {:induction false} ExpiringKeepsCodes(draws: seq<Draw>, intents: seq<Intent>, b: nat)
    ensures FirstFreshCode(draws, ExpirePending(intents, b)) == FirstFreshCode(draws, intents)
  {
    if draws != [] {
      SameCodesFound(intents, ExpirePending(intents, b), CodeOf(draws[0]), 0);
      ExpiringKeepsCodes(draws[1..], intents, b);
    }
  }

  lemma {:induction false} SameCodesFound(a: seq<Intent>, b: seq<Intent>, code: string, from: nat)
    requires from <= |a| == |b|
    requires forall i :: 0 <= i < |a| ==> a[i].code == b[i].code
    ensures FindCode(a, code, from) == FindCode(b, code, from)
    decreases |a| - from
  {
    if from < |a| {
      SameCodesFound(a, b, code, from + 1);
    }
  }

  // ---- The expiry crons ----

  class BookingLifecycleService {
    const prisma: PrismaService

    constructor (prisma: PrismaService)
      ensures this.prisma == prisma
    {
      this.prisma := prisma;
    }

    /** The transaction for one intent that the loop listed. */
    method ExpireIntent(i: nat, now: int) returns (count: nat)
      requires IntentsLinked(prisma.View())
      modifies prisma
      ensures (prisma.View(), count) == ExpireIntentRow(old(prisma.View()), i, now)
      ensures count == if i < |prisma.intents| && old(prisma.intents)[i].status == IntentPending
                          && old(prisma.intents)[i].expiresAt < now then 1 else 0
    {
      if |prisma.intents| <= i || !IntentOverdue(prisma.intents[i], now) {
        return 0;
      }
      var b := prisma.intents[i].bookingId;
      prisma.intents := prisma.intents[i := prisma.intents[i].(status := IntentExpired)];
      var pendingIntentCount := Sum(prisma.intents, PendingOf(b));
      if pendingIntentCount == 0 {
        if prisma.bookings[b].status == PaymentPending {
          prisma.bookings := prisma.bookings[b := prisma.bookings[b].(status := Held)];
        }
      }
      count := 1;
    }

    method ExpireBooking(b: nat, now: int) returns (count: nat)
      modifies prisma
      ensures (prisma.View(), count) == ExpireBookingRow(old(prisma.View()), b, now)
      ensures count == if b < |prisma.bookings| && old(prisma.bookings)[b].status in {Held, PaymentPending}
                          && old(prisma.bookings)[b].paymentDeadline.Some?
                          && old(prisma.bookings)[b].paymentDeadline.value < now then 1 else 0
    {
      if |prisma.bookings| <= b || !BookingOverdue(prisma.bookings[b], now) {
        return 0;
      }
      prisma.bookings := prisma.bookings[b := prisma.bookings[b].(status := Expired)];
      prisma.intents := ExpirePending(prisma.intents, b);
      count := 1;
    }

    method ExpireIntents(now: int) returns (expired: nat)
      requires IntentsLinked(prisma.View())
      modifies prisma
      ensures (prisma.View(), expired) ==
              ExpireRows(old(prisma.View()), IntentLoop, OverdueRows(old(prisma.View()), IntentLoop, now), now)
      ensures IntentsLinked(prisma.View())
      ensures IntentLoopDone(old(prisma.View()), prisma.View(), now)
      ensures expired == |ChangedIntents(old(prisma.View()), prisma.View())|
      ensures forall row :: !RowOverdue(prisma.View(), IntentLoop, row, now)
    {
      ghost var start := prisma.View();
      var intents := OverdueRows(Db(prisma.bookings, prisma.intents, prisma.payments, prisma.bank), IntentLoop, now);
      ghost var (end, total) := ExpireRows(start, IntentLoop, intents, now);
      expired := 0;
      var k := 0;
      while k < |intents|
        invariant 0 <= k <= |intents|
        invariant IntentsLinked(prisma.View())
        invariant ExpireRows(prisma.View(), IntentLoop, intents[k..], now).0 == end
        invariant ExpireRows(prisma.View(), IntentLoop, intents[k..], now).1 == total - expired
      {
        ghost var before := prisma.View();
        var count := ExpireIntent(intents[k], now);
        expired := expired + count;
        k := k + 1;
      }
      OverdueRowsAreASnapshot(start, IntentLoop, now, 0);
      UninterruptedPass(start, IntentLoop, intents, now);
      IntentPass(start, intents, now);
    }

    method ExpireBookings(now: int) returns (expired: nat)
      requires IntentsLinked(prisma.View())
      modifies prisma
      ensures (prisma.View(), expired) ==
              ExpireRows(old(prisma.View()), BookingLoop, OverdueRows(old(prisma.View()), BookingLoop, now), now)
      ensures IntentsLinked(prisma.View())
      ensures BookingLoopDone(old(prisma.View()), prisma.View(), now)
      ensures expired == |ChangedBookings(old(prisma.View()), prisma.View())|
      ensures forall row :: !RowOverdue(prisma.View(), BookingLoop, row, now)
    {
      ghost var start := prisma.View();
      var bookings := OverdueRows(Db(prisma.bookings, prisma.intents, prisma.payments, prisma.bank), BookingLoop, now);
      ghost var (end, total) := ExpireRows(start, BookingLoop, bookings, now);
      expired := 0;
      var k := 0;
      while k < |bookings|
        invariant 0 <= k <= |bookings|
        invariant IntentsLinked(prisma.View())
        invariant ExpireRows(prisma.View(), BookingLoop, bookings[k..], now).0 == end
        invariant ExpireRows(prisma.View(), BookingLoop, bookings[k..], now).1 == total - expired
      {
        ghost var before := prisma.View();
        var count := ExpireBooking(bookings[k], now);
        expired := expired + count;
        k := k + 1;
      }
      OverdueRowsAreASnapshot(start, BookingLoop, now, 0);
      UninterruptedPass(start, BookingLoop, bookings, now);
      BookingPass(start, bookings, now);
    }
  }

  class BookingLifecycleCron {
    const lifecycle: BookingLifecycleService

    constructor (lifecycle: BookingLifecycleService)
      ensures this.lifecycle == lifecycle
    {
      this.lifecycle := lifecycle;
    }

    /** Both loops, each with its own clock reading: exactly the intents and bookings whose
        time is up expire, so that nothing is overdue afterwards. */
    method RunEveryMinute(now: int, later: int) returns (expiredIntents: nat, expiredBookings: nat)
      requires IntentsLinked(lifecycle.prisma.View())
      modifies lifecycle.prisma
      ensures exists mid: Db :: IntentsLinked(mid) && IntentLoopDone(old(lifecycle.prisma.View()), mid, now)
                                && BookingLoopDone(mid, lifecycle.prisma.View(), later)
                                && expiredIntents == |ChangedIntents(old(lifecycle.prisma.View()), mid)|
      ensures var were, are := old(lifecycle.prisma.bookings), lifecycle.prisma.bookings;
              |are| == |were|
              && expiredBookings == |set b: nat | b < |are| && are[b].status == Expired && were[b].status != Expired|
      ensures var prisma := lifecycle.prisma;
              && (forall i :: 0 <= i < |prisma.intents| ==> !IntentOverdue(prisma.intents[i], now))
              && (forall b :: 0 <= b < |prisma.bookings| ==> !BookingOverdue(prisma.bookings[b], later))
    {
      ghost var start := lifecycle.prisma.View();
      expiredIntents := lifecycle.ExpireIntents(now);
      ghost var mid := lifecycle.prisma.View();
      expiredBookings := lifecycle.ExpireBookings(later);
      BothLoops(start, mid, lifecycle.prisma.View(), now, later);
    }
  }

  class AdminBookingController {
    const prisma: PrismaService

    constructor (prisma: PrismaService)
      ensures this.prisma == prisma
    {
      this.prisma := prisma;
    }

    method MarkTicketed(b: nat, ticketNumbers: seq<(string, string)>) returns (error: Option<AdminError>)
      modifies prisma
      ensures (prisma.View(), error) == PaymentModel.MarkTicketed(old(prisma.View()), b, ticketNumbers)
    {
      if |prisma.bookings| <= b {
        return Some(UnknownBooking);
      }
      if prisma.bookings[b].status != Paid {
        return Some(NotPaid);
      }
      var before := prisma.bookings;
      var k := 0;
      while k < |ticketNumbers|
        invariant 0 <= k <= |ticketNumbers|
        invariant |prisma.bookings| == |before|
        invariant prisma.bookings == before[b := before[b].(pnrs := prisma.bookings[b].pnrs)]
        invariant WithTickets(before[b].pnrs, ticketNumbers) == WithTickets(prisma.bookings[b].pnrs, ticketNumbers[k..])
        invariant unchanged(prisma`intents) && unchanged(prisma`payments) && unchanged(prisma`bank)
      {
        var item := ticketNumbers[k];
        var pnrs := prisma.bookings[b].pnrs;
        var row := FindPnr(pnrs, item.0);
        if row.None? {
          prisma.bookings := before; // the transaction rolls back
          return Some(UnknownPnr(item.0));
        }
        var ticketed := pnrs[row.value].(ticketNumber := Some(Text.Trim(item.1)));
        prisma.bookings := prisma.bookings[b := prisma.bookings[b].(pnrs := pnrs[row.value := ticketed])];
        assert ticketNumbers[k..][1..] == ticketNumbers[k + 1..];
        k := k + 1;
      }
      assert ticketNumbers[k..] == [];
      ghost var ticketed := before[b].(pnrs := prisma.bookings[b].pnrs, status := Ticketed);
      prisma.bookings := prisma.bookings[b := prisma.bookings[b].(status := Ticketed)];
      assert prisma.bookings == before[b := ticketed];
      error := None;
    }

    method MarkIssueFailed(b: nat) returns (error: Option<AdminError>)
      modifies prisma
      ensures (prisma.View(), error) == PaymentModel.MarkIssueFailed(old(prisma.View()), b)
    {
      if |prisma.bookings| <= b {
        return Some(UnknownBooking);
      }
      if prisma.bookings[b].status != Paid {
        return Some(NotPaid);
      }
      prisma.bookings := prisma.bookings[b := prisma.bookings[b].(status := IssueFailed)];
      error := None;
    }
  }
}
