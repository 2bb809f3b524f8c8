/** A customer asks for two QR codes and pays the first: a run from the empty tables. */
module PaymentTwoCodes {
  import opened Common
  import opened Bookings
  import opened PaymentModel
  import opened PaymentInvariants
  import opened PaymentRuns
  import opened PaymentTheorems
  import BankMemo
  import Markup
  import Text

  const NET := 1_000_000
  const CLOCK_MS := 100_000_000

  const FLIGHT := Markup.Input("VN", "web", None, None, None, None, None, NET)

  /** The airline's time limit leaves just over the shortest payment window. */
  function Limit(cfg: Config): int {
    (cfg.paymentBufferMinutes + cfg.minPaymentWindowMinutes) * MINUTE_MS + 1
  }

  function HoldEvent(cfg: Config): Event {
    HoldSeats([HeldPnr("ABCDEF", Some(Limit(cfg)))], 0, FLIGHT, [], 0)
  }

  function HeldRow(cfg: Config): Booking {
    Booking(Held, NET, 0, NET, Limit(cfg), Some(cfg.minPaymentWindowMinutes * MINUTE_MS + 1),
            [Pnr("ABCDEF", Limit(cfg), None)])
  }

  function Eight(random: Below1000): Draws {
    seq(MAX_CODE_ATTEMPTS, _ => Draw(CLOCK_MS, random))
  }

  function Code(random: Below1000): string {
    CodeOf(Draw(CLOCK_MS, random))
  }

  function IntentAt(cfg: Config, random: Below1000, status: IntentStatus): Intent {
    Intent(0, Code(random), NET, status, cfg.intentTtlMinutes * MINUTE_MS)
  }

  function Tables(cfg: Config, status: BookingStatus, intents: seq<Intent>): Db {
    Db([HeldRow(cfg).(status := status)], intents, [], [])
  }

  /** The bank reports the transfer with the first code in its memo. */
  const TRANSFER := Payload("1", true, "1000000", NET, Some(BankMemo.TransferContent(Code(0))), None, None)

  lemma CodesDiffer()
    ensures Code(0) != Code(1) && 6 <= |Code(0)|
  {
    var clock := Text.Decimal(CLOCK_MS / 1000);
    assert Code(0)[|clock|..] == Text.Pad3(0) && Code(1)[|clock|..] == Text.Pad3(1);
    assert Text.Pad3(0)[2] == Text.Digit(0) && Text.Pad3(1)[2] == Text.Digit(1);
  }

  lemma Holds(cfg: Config)
    ensures Step(START, cfg, HoldEvent(cfg)) == World(Tables(cfg, Held, []), [], {})
  {
    var pnrs := [HeldPnr("ABCDEF", Some(Limit(cfg)))];
    assert EarliestLimit(pnrs) == Some(Limit(cfg)) by {
      assert pnrs[1..] == [];
    }
    assert StoredPnrs(pnrs, Limit(cfg)) == HeldRow(cfg).pnrs;
    assert HeldBooking(cfg, pnrs, 0, FLIGHT, [], 0) == Ok(HeldRow(cfg));
  }

  lemma SecondIsFresh(cfg: Config)
    ensures FirstFreshCode(Eight(1), [IntentAt(cfg, 0, IntentPending)]) == Some(Code(1))
  {
    CodesDiffer();
    assert FindCode([IntentAt(cfg, 0, IntentPending)], Code(1)) == None;
  }

  lemma SecondCode(cfg: Config)
    ensures CreateIntent(Tables(cfg, PaymentPending, [IntentAt(cfg, 0, IntentPending)]), cfg, 0, 0, Eight(1)).0 ==
            TwoIntents(cfg)
  {
    SecondIsFresh(cfg);
    assert ExpirePending([IntentAt(cfg, 0, IntentPending)], 0) == [IntentAt(cfg, 0, IntentExpired)];
  }

  function TwoIntents(cfg: Config): Db {
    Tables(cfg, PaymentPending, [IntentAt(cfg, 0, IntentExpired), IntentAt(cfg, 1, IntentPending)])
  }

  function TwoCodes(cfg: Config): seq<Event> {
    [HoldEvent(cfg)] + [CreateQr(0, 0, Eight(0))] + [CreateQr(0, 0, Eight(1))]
  }

  lemma {:induction false} RunThen(w: World, cfg: Config, events: seq<Event>, e: Event)
    requires IntentsLinked(w.db)
    ensures Run(w, cfg, events + [e]) == Step(Run(w, cfg, events), cfg, e)
    decreases |events|
  {
    if events == [] {
      assert (events + [e])[1..] == [];
    } else {
      assert (events + [e])[1..] == events[1..] + [e];
      StepSucceeds(w, cfg, events[0]);
      RunThen(Step(w, cfg, events[0]), cfg, events[1..], e);
    }
  }

  lemma OneCodeRun(cfg: Config)
    ensures Run(START, cfg, [HoldEvent(cfg)] + [CreateQr(0, 0, Eight(0))]) ==
            World(Tables(cfg, PaymentPending, [IntentAt(cfg, 0, IntentPending)]), [], {})
  {
    Holds(cfg);
    assert [HoldEvent(cfg)][1..] == [];
    assert Run(START, cfg, [HoldEvent(cfg)]) == Step(START, cfg, HoldEvent(cfg));
    RunThen(START, cfg, [HoldEvent(cfg)], CreateQr(0, 0, Eight(0)));
  }

  lemma TwoCodesRun(cfg: Config)
    ensures Run(START, cfg, TwoCodes(cfg)) == World(TwoIntents(cfg), [], {})
  {
    OneCodeRun(cfg);
    SecondCode(cfg);
    RunThen(START, cfg, [HoldEvent(cfg)] + [CreateQr(0, 0, Eight(0))], CreateQr(0, 0, Eight(1)));
  }

  lemma TransferAccepted(w: World, cfg: Config)
    requires Reachable(w, cfg) && w.db == TwoIntents(cfg)
    ensures Judge(w.db, TRANSFER, 0) == Accepted(Code(0), 0)
  {
    CodesDiffer();
    assert "" + BankMemo.TransferContent(Code(0)) + "" == MemoOf(TRANSFER);
    PayingTheQrSettlesTheBooking(w, cfg, TRANSFER, 0, 0, "", "");
  }

  lemma PaysTheFirst(w: World, cfg: Config)
    requires Reachable(w, cfg) && w.db == TwoIntents(cfg)
    ensures var db := HandleWebhook(w.db, TRANSFER, 0).0;
            && |db.intents| == 2 && |db.bookings| == 1 && db.bookings[0].status == Paid
            && db.intents[0].status == IntentPaid && db.intents[1].status == IntentPending
            && db.intents[0].bookingId == db.intents[1].bookingId == 0
  {
    TransferAccepted(w, cfg);
    ReachableInv(w, cfg);
    PayingAnExpiredIntentLeavesTheNewerPending(w.db, cfg, TRANSFER, 0, 0, 1);
  }

  /** From the empty tables: hold, QR code, another QR code, and the customer pays the
      first.  It was EXPIRED; it is PAID, and the second is PENDING under a PAID booking. */
  lemma FirstCodeIsPaid(cfg: Config)
    ensures var db := Run(START, cfg, TwoCodes(cfg) + [Webhook(TRANSFER, 0)]).db;
            && |db.intents| == 2 && |db.bookings| == 1 && db.bookings[0].status == Paid
            && db.intents[0].status == IntentPaid && db.intents[1].status == IntentPending
            && db.intents[0].bookingId == db.intents[1].bookingId == 0
  {
    TwoCodesRun(cfg);
    PaysTheFirst(Run(START, cfg, TwoCodes(cfg)), cfg);
    RunThen(START, cfg, TwoCodes(cfg), Webhook(TRANSFER, 0));
  }
}
