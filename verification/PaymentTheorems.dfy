/** Consequences for whole runs: the bank ledger, re-deliveries, deadlines,
    finality, the crons' counts, and a payment followed from QR code to booking. */
module PaymentTheorems {
  import opened Common
  import opened Bookings
  import opened PaymentModel
  import opened PaymentInvariants
  import opened PaymentRuns
  import BankMemo
  import Text

  // ---- Terms and finality ----

  /** Along any run a stored booking keeps its terms; once settled it stays
      settled and once expired it stays expired. */
  lemma {:induction false} RunKeepsBooking(w: World, cfg: Config, events: seq<Event>, b: nat)
    requires IntentsLinked(w.db) && b < |w.db.bookings|
    ensures var w' := Run(w, cfg, events);
            && b < |w'.db.bookings|
            && SameTerms(w.db.bookings[b], w'.db.bookings[b])
            && (Settled(w.db.bookings[b].status) ==> Settled(w'.db.bookings[b].status))
            && (w.db.bookings[b].status == Expired ==> w'.db.bookings[b].status == Expired)
    decreases |events|
  {
    if events != [] {
      var w1 := Step(w, cfg, events[0]);
      StepSucceeds(w, cfg, events[0]);
      RunKeepsBooking(w1, cfg, events[1..], b);
    }
  }

  /** A webhook accepts a payment only strictly before every time limit of the
      booking less the payment buffer, and only for net price plus markup. */
  lemma AcceptedInTimeForTheAgreedPrice(w: World, cfg: Config, p: Payload, now: int)
    requires Reachable(w, cfg)
    requires IntentsLinked(w.db) && Judge(w.db, p, now).Accepted?
    ensures var booking := w.db.bookings[w.db.intents[Judge(w.db, p, now).intent].bookingId];
            && (forall k :: 0 <= k < |booking.pnrs| ==>
                  now < booking.pnrs[k].timelimit - cfg.paymentBufferMinutes * MINUTE_MS)
            && p.amount == booking.totalNetPrice + booking.totalMarkup
  {
    ReachableInv(w, cfg);
    var booking := w.db.bookings[w.db.intents[Judge(w.db, p, now).intent].bookingId];
    assert TermsHold(cfg, booking);
  }

  // ---- From QR code to settled booking ----

  lemma FindCodeIsTheIntent(db: Db, i: nat)
    requires IntentsSound(db) && i < |db.intents|
    ensures FindCode(db.intents, db.intents[i].code) == Some(i)
  {
    var k := FindCode(db.intents, db.intents[i].code).value;
    assert !(k < i) && !(i < k);
  }

  /** Exactly which notifications pay intent i. */
  lemma AcceptedIff(db: Db, cfg: Config, p: Payload, now: int, i: nat)
    requires Inv(db, cfg) && i < |db.intents|
    ensures var booking := db.bookings[db.intents[i].bookingId];
            Judge(db, p, now) == Accepted(db.intents[i].code, i) <==>
            && !Delivered(db.bank, DedupeKey(p)) && p.incoming
            && BankMemo.ExtractOrderCode(MemoOf(p)) == Some(db.intents[i].code)
            && IsBookingPayable(booking, now)
            && p.amount == db.intents[i].amount
  {
    FindCodeIsTheIntent(db, i);
  }

  /** The customer transfers the amount in the QR code with the QR code's text
      somewhere in the memo: as long as the booking is payable, it becomes PAID,
      whatever the state of the intent itself. */
  lemma PayingTheQrSettlesTheBooking(w: World, cfg: Config, p: Payload, now: int, i: nat,
                                     prefix: string, suffix: string)
    requires Reachable(w, cfg) && IntentsLinked(w.db) && i < |w.db.intents|
    requires IsBookingPayable(w.db.bookings[w.db.intents[i].bookingId], now)
    requires !Delivered(w.db.bank, DedupeKey(p)) && p.incoming
    requires 6 <= |w.db.intents[i].code|
    requires MemoOf(p) == prefix + BankMemo.TransferContent(w.db.intents[i].code) + suffix
    requires BankMemo.ExtractOrderCode(prefix) == None
    requires suffix == [] || !Text.IsDigit(suffix[0])
    requires p.amount == w.db.intents[i].amount
    ensures var (db', v) := HandleWebhook(w.db, p, now);
            && v == Accepted(w.db.intents[i].code, i)
            && db'.bookings[w.db.intents[i].bookingId].status == Paid
            && db'.intents[i].status == IntentPaid
  {
    ReachableInv(w, cfg);
    assert Text.AllDigits(w.db.intents[i].code);
    BankMemo.MemoRoundTrip(prefix, w.db.intents[i].code, suffix);
    AcceptedIff(w.db, cfg, p, now, i);
  }

  /** The webhook looks at the booking, not at the intent: an EXPIRED intent can
      be paid while a newer one is PENDING, which then stays so under a PAID booking. */
  lemma PayingAnExpiredIntentLeavesTheNewerPending(db: Db, cfg: Config, p: Payload, now: int, i: nat, j: nat)
    requires Inv(db, cfg) && i < |db.intents| && j < |db.intents|
    requires db.intents[i].status == IntentExpired
    requires db.intents[j].status == IntentPending && db.intents[j].bookingId == db.intents[i].bookingId
    requires Judge(db, p, now) == Accepted(db.intents[i].code, i)
    ensures var db' := HandleWebhook(db, p, now).0;
            && db'.bookings[db.intents[i].bookingId].status == Paid
            && db'.intents[i].status == IntentPaid && db'.intents[j].status == IntentPending
            && Sum(db'.intents, PendingOf(db.intents[i].bookingId)) == 1
  {
    SetIntentCounts(db.intents, i, IntentPaid, db.intents[i].bookingId);
    assert BookingSound(db, db.intents[i].bookingId);
    SumCoversRow(db.intents, j, PendingOf(db.intents[i].bookingId));
  }

  /** Clock readings of 100 seconds and more after the epoch make long codes. */
  ghost predicate ClockPast100s(e: Event) {
    e.CreateQr? ==> forall d :: d in e.draws ==> 100_000 <= d.clockMs
  }

  ghost predicate CodesLong(db: Db) {
    forall i :: 0 <= i < |db.intents| ==> 6 <= |db.intents[i].code|
  }

  lemma StepCodesLong(w: World, cfg: Config, e: Event)
    requires IntentsLinked(w.db) && CodesLong(w.db) && ClockPast100s(e)
    ensures CodesLong(Step(w, cfg, e).db)
  {
    if e.CronRow? && e.cron < |w.crons| && w.crons[e.cron].todo != [] && w.crons[e.cron].kind == IntentLoop {
      ExpireIntentRowEffect(w.db, w.crons[e.cron].todo[0], w.crons[e.cron].now);
    }
  }

  /** Every code issued after the first 100 seconds of 1970 can be read back. */
  lemma {:induction false} RunCodesLong(w: World, cfg: Config, events: seq<Event>)
    requires IntentsLinked(w.db) && CodesLong(w.db)
    requires forall e :: e in events ==> ClockPast100s(e)
    ensures CodesLong(Run(w, cfg, events).db)
    decreases |events|
  {
    if events != [] {
      StepCodesLong(w, cfg, events[0]);
      StepSucceeds(w, cfg, events[0]);
      RunCodesLong(Step(w, cfg, events[0]), cfg, events[1..]);
    }
  }

  // ---- The bank ledger ----

  ghost function Keys(bank: seq<BankRow>): set<string> {
    set k | 0 <= k < |bank| :: bank[k].dedupeKey
  }

  ghost function DeliveredKeys(events: seq<Event>): set<string> {
    set k | 0 <= k < |events| && events[k].Webhook? :: DedupeKey(events[k].payload)
  }

  lemma {:induction false} DistinctKeysCount(bank: seq<BankRow>)
    requires KeysDistinct(bank)
    ensures |Keys(bank)| == |bank|
  {
    if bank != [] {
      var n := |bank| - 1;
      var front := bank[..n];
      DistinctKeysCount(front);
      assert Keys(bank) == Keys(front) + {bank[n].dedupeKey};
      assert bank[n].dedupeKey !in Keys(front);
    }
  }

  lemma KeysAppend(bank: seq<BankRow>, row: BankRow)
    ensures Keys(bank + [row]) == Keys(bank) + {row.dedupeKey}
  {
    var all := bank + [row];
    assert all[|bank|] == row;
    forall k | 0 <= k < |bank| ensures all[k] == bank[k] {}
  }

  /** A webhook adds exactly its own key to the ledger; nothing else writes to it. */
  lemma StepKeys(w: World, cfg: Config, e: Event)
    requires IntentsLinked(w.db)
    ensures Keys(Step(w, cfg, e).db.bank) == Keys(w.db.bank) + DeliveredKeys([e])
  {
    var bank, bank' := w.db.bank, Step(w, cfg, e).db.bank;
    if e.Webhook? {
      var key := DedupeKey(e.payload);
      assert [e][0] == e;
      assert DeliveredKeys([e]) == {key};
      if Delivered(bank, key) {
        assert bank' == bank;
      } else {
        assert bank' == bank + [bank'[|bank|]];
        KeysAppend(bank, bank'[|bank|]);
      }
    } else {
      assert DeliveredKeys([e]) == {};
      if e.CronRow? && e.cron < |w.crons| && w.crons[e.cron].todo != [] && w.crons[e.cron].kind == IntentLoop {
        ExpireIntentRowEffect(w.db, w.crons[e.cron].todo[0], w.crons[e.cron].now);
      }
    }
  }

  lemma {:induction false} RunKeys(w: World, cfg: Config, events: seq<Event>)
    requires IntentsLinked(w.db)
    ensures Keys(Run(w, cfg, events).db.bank) == Keys(w.db.bank) + DeliveredKeys(events)
    decreases |events|
  {
    if events != [] {
      var e := events[0];
      StepKeys(w, cfg, e);
      StepSucceeds(w, cfg, e);
      RunKeys(Step(w, cfg, e), cfg, events[1..]);
      DeliveredKeysCons(e, events[1..]);
      assert events == [e] + events[1..];
    }
  }

  lemma DeliveredKeysCons(e: Event, rest: seq<Event>)
    ensures DeliveredKeys([e] + rest) == DeliveredKeys([e]) + DeliveredKeys(rest)
  {
    var all := [e] + rest;
    forall key | key in DeliveredKeys([e]) + DeliveredKeys(rest) ensures key in DeliveredKeys(all) {
      if key in DeliveredKeys([e]) {
        assert all[0] == [e][0];
      } else {
        var k :| 0 <= k < |rest| && rest[k].Webhook? && DedupeKey(rest[k].payload) == key;
        assert all[k + 1] == rest[k];
      }
    }
    forall key | key in DeliveredKeys(all) ensures key in DeliveredKeys([e]) + DeliveredKeys(rest) {
      var k :| 0 <= k < |all| && all[k].Webhook? && DedupeKey(all[k].payload) == key;
      if k == 0 {
        assert [e][0] == e;
      } else {
        assert rest[k - 1] == all[k];
      }
    }
  }

  /** Exactly when two notifications that share a key agree on the bank's id and on the
      amount's text: when the texts have equally many colons; an amount has none. */
  lemma DedupeKeysDistinct(p: Payload, q: Payload)
    ensures DedupeKey(p) == DedupeKey(q) && Text.Colons(p.amountText) == Text.Colons(q.amountText) <==>
            p.id == q.id && p.amountText == q.amountText
  {
    if DedupeKey(p) == DedupeKey(q) && Text.Colons(p.amountText) == Text.Colons(q.amountText) {
      Text.ColonSplits("SEPAY:" + p.id, p.amountText, "SEPAY:" + q.id, q.amountText);
      Text.PrefixCancels("SEPAY:", p.id, q.id);
    }
  }

  /** Amounts sent as text with a colon in them could make keys collide. */
  lemma ColonsCollide(p: Payload, q: Payload)
    requires p.id == "1:2" && p.amountText == "3" && q.id == "1" && q.amountText == "2:3"
    ensures DedupeKey(p) == DedupeKey(q)
  {
    assert "SEPAY:" + "1:2" + ":" + "3" == "SEPAY:1:2:3" == "SEPAY:" + "1" + ":" + "2:3";
  }

  /** The ledger has exactly one row for each distinct key ever delivered. */
  lemma OneLedgerRowPerKey(cfg: Config, events: seq<Event>)
    ensures var bank := Run(START, cfg, events).db.bank;
            KeysDistinct(bank) && Keys(bank) == DeliveredKeys(events) && |bank| == |DeliveredKeys(events)|
  {
    var w := Run(START, cfg, events);
    ReachableInv(w, cfg);
    RunKeys(START, cfg, events);
    DistinctKeysCount(w.db.bank);
  }

  /** Matched bank money, recorded payments and settled prices always agree. */
  lemma MoneyIsConserved(w: World, cfg: Config)
    requires Reachable(w, cfg)
    ensures Sum(w.db.bank, MatchedAmount()) == Sum(w.db.payments, PaymentAmount()) == Sum(w.db.bookings, SettledPrice())
  {
    ReachableInv(w, cfg);
  }

  // ---- Re-deliveries ----

  /** The events without the webhooks whose key was delivered before. */
  ghost function WithoutRedeliveries(events: seq<Event>, seen: set<string>): seq<Event>
    decreases |events|
  {
    if events == [] then []
    else if events[0].Webhook? && DedupeKey(events[0].payload) in seen then
      WithoutRedeliveries(events[1..], seen)
    else
      [events[0]] + WithoutRedeliveries(events[1..], seen + DeliveredKeys([events[0]]))
  }

  /** Re-deliveries, however many and wherever they come after the first delivery,
      leave the final state of the run unchanged. */
  lemma {:induction false} RedeliveriesChangeNothing(w: World, cfg: Config, events: seq<Event>)
    requires IntentsLinked(w.db)
    ensures Run(w, cfg, events) == Run(w, cfg, WithoutRedeliveries(events, Keys(w.db.bank)))
    decreases |events|
  {
    if events != [] {
      var e := events[0];
      var w1 := Step(w, cfg, e);
      StepSucceeds(w, cfg, e);
      StepKeys(w, cfg, e);
      RedeliveriesChangeNothing(w1, cfg, events[1..]);
      if e.Webhook? && DedupeKey(e.payload) in Keys(w.db.bank) {
        assert w1 == w;
      } else {
        var kept := WithoutRedeliveries(events[1..], Keys(w1.db.bank));
        assert ([e] + kept)[1..] == kept;
      }
    }
  }

  // ---- The crons' counts ----

  /** However crons overlap each other and everything else, their counts add up
      to the number of intents that crons moved, none counted twice. */
  lemma CronCountsAddUp(w: World, cfg: Config)
    requires Reachable(w, cfg)
    ensures Sum(w.crons, IntentsExpired()) == |w.moved|
    ensures forall i :: i in w.moved ==> i < |w.db.intents| && w.db.intents[i].status != IntentPending
  {
    ReachableInv(w, cfg);
  }

  lemma MovedByRow(w: World, c: nat, i: nat)
    requires IntentsLinked(w.db) && c < |w.crons| && w.crons[c].todo != []
    requires forall i :: i in w.moved ==> i < |w.db.intents| && w.db.intents[i].status != IntentPending
    ensures var w' := CronRowStep(w, c);
            && w.moved <= w'.moved
            && (i in w'.moved - w.moved <==>
                && i < |w.db.intents| && w.db.intents[i].status == IntentPending && w.crons[c].kind == IntentLoop
                && i < |w'.db.intents| && w'.db.intents[i].status == IntentExpired)
  {
    if w.crons[c].kind == IntentLoop {
      ExpireIntentRowEffect(w.db, w.crons[c].todo[0], w.crons[c].now);
    }
  }

  /** The history is honest: an intent enters it in the very step in which a cron
      takes it from PENDING to EXPIRED, and no intent leaves it. */
  lemma MovedByCronExactly(w: World, cfg: Config, e: Event, i: nat)
    requires WorldInv(w, cfg)
    ensures var w' := Step(w, cfg, e);
            && w.moved <= w'.moved
            && (i in w'.moved - w.moved <==>
                e.CronRow? && i < |w.db.intents| && w.db.intents[i].status == IntentPending
                && e.cron < |w.crons| && w.crons[e.cron].kind == IntentLoop
                && w'.db.intents[i].status == IntentExpired)
  {
    StepSucceeds(w, cfg, e);
    if e.CronRow? && e.cron < |w.crons| && w.crons[e.cron].todo != [] {
      MovedByRow(w, e.cron, i);
    }
  }
}
