/** What a stored booking costs: the price of the markup rules at the time its seats were
    held, kept until a payment is accepted (booking.service.ts, markup-engine.ts). */
module PaymentPrices {
  import opened Common
  import opened Bookings
  import opened PaymentModel
  import opened PaymentInvariants
  import opened PaymentRuns
  import opened PaymentTheorems
  import Markup

  /** The booking is on the terms of this hold. */
  ghost predicate HeldOnTerms(cfg: Config, e: Event, b: Booking) {
    && e.HoldSeats?
    && var held := HeldBooking(cfg, e.pnrs, e.departTime, e.input, e.rules, e.now);
       held.Ok? && SameTerms(held.value, b)
  }

  ghost predicate HasOrigin(cfg: Config, events: seq<Event>, b: Booking) {
    exists e :: e in events && HeldOnTerms(cfg, e, b)
  }

  /** Every booking stored in a run is on the terms of one of the run's holds. */
  lemma {:induction false} RunOrigins(w: World, cfg: Config, past: seq<Event>, events: seq<Event>)
    requires IntentsLinked(w.db)
    requires forall b :: 0 <= b < |w.db.bookings| ==> HasOrigin(cfg, past, w.db.bookings[b])
    ensures var w' := Run(w, cfg, events);
            forall b :: 0 <= b < |w'.db.bookings| ==> HasOrigin(cfg, past + events, w'.db.bookings[b])
    decreases |events|
  {
    if events == [] {
      assert past + events == past;
    } else {
      var w1 := Step(w, cfg, events[0]);
      StepSucceeds(w, cfg, events[0]);
      forall b | 0 <= b < |w1.db.bookings| ensures HasOrigin(cfg, past + [events[0]], w1.db.bookings[b]) {
        if b < |w.db.bookings| {
          assert HasOrigin(cfg, past, w.db.bookings[b]);
          var e :| e in past && HeldOnTerms(cfg, e, w.db.bookings[b]);
          assert e in past + [events[0]] && HeldOnTerms(cfg, e, w1.db.bookings[b]);
        } else {
          OnlyHoldsAdd(w, cfg, events[0]);
          assert events[0] in past + [events[0]];
        }
      }
      assert past + events == past + [events[0]] + events[1..];
      RunOrigins(w1, cfg, past + [events[0]], events[1..]);
      assert Run(w, cfg, events) == Run(w1, cfg, events[1..]);
    }
  }

  lemma OnlyHoldsAdd(w: World, cfg: Config, e: Event)
    requires IntentsLinked(w.db)
    ensures var bookings := Step(w, cfg, e).db.bookings;
            |bookings| == |w.db.bookings|
            || (|bookings| == |w.db.bookings| + 1 && HeldOnTerms(cfg, e, bookings[|w.db.bookings|]))
  {
    if e.CronRow? && e.cron < |w.crons| && w.crons[e.cron].todo != [] && w.crons[e.cron].kind == IntentLoop {
      ExpireIntentRowEffect(w.db, w.crons[e.cron].todo[0], w.crons[e.cron].now);
    }
  }

  /** A webhook accepts a payment only for what the markup rules asked when the seats were
      held: the net price then, and the amount of the rule that applied first. */
  lemma AcceptedForTheRulesPrice(cfg: Config, events: seq<Event>, p: Payload, now: int) returns (e: Event)
    requires var w := Run(START, cfg, events); IntentsLinked(w.db) && Judge(w.db, p, now).Accepted?
    ensures e in events && e.HoldSeats? && Markup.RulesAsk(e.input, e.rules, e.now, p.amount)
  {
    var w := Run(START, cfg, events);
    RunOrigins(START, cfg, [], events);
    assert [] + events == events;
    var booking := w.db.bookings[w.db.intents[Judge(w.db, p, now).intent].bookingId];
    assert HasOrigin(cfg, events, booking);
    e :| e in events && HeldOnTerms(cfg, e, booking);
    HeldAtTheRulesPrice(cfg, e.pnrs, e.departTime, e.input, e.rules, e.now);
  }
}
