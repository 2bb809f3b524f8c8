/** A booking and the terms fixed when seats are held (booking.service.ts). */
module Bookings {
  import opened Common
  import Markup

  datatype BookingStatus =
    | Draft | Held | PaymentPending | Paid | PricingPending | Ticketed
    | IssueFailed | Expired | Cancelled | Refunded | Failed

  datatype Pnr = Pnr(code: string, timelimit: int, ticketNumber: Option<string>)

  datatype Booking = Booking(
    status: BookingStatus, totalNetPrice: int, totalMarkup: int, totalSellPrice: int,
    muadiHoldExpiresAt: int, paymentDeadline: Option<int>, pnrs: seq<Pnr>)

  type Positive = n: int | 0 < n witness 1

  /** Numeric settings; the source replaces anything that is not positive by a default. */
  datatype Config = Config(
    paymentBufferMinutes: Positive, minPaymentWindowMinutes: Positive,
    holdFallbackHours: Positive, intentTtlMinutes: Positive)

  /** A record locator as the airline system returns it; the time limit may be absent. */
  datatype HeldPnr = HeldPnr(code: string, timelimit: Option<int>)

  datatype HoldError = WindowTooShort | MarkupRejected(error: Markup.MarkupError)

  const MINUTE_MS := 60_000
  const HOUR_MS := 3_600_000

  /** The first of the parsed time limits in ascending order. */
  function EarliestLimit(pnrs: seq<HeldPnr>): Option<int> {
    if pnrs == [] then None
    else
      match (pnrs[0].timelimit, EarliestLimit(pnrs[1..]))
      case (None, rest) => rest
      case (Some(t), None) => Some(t)
      case (Some(t), Some(u)) => Some(Min(t, u))
  }

  lemma {:induction false} EarliestLimitIsMinimum(pnrs: seq<HeldPnr>)
    ensures EarliestLimit(pnrs).None? <==> forall p :: p in pnrs ==> p.timelimit.None?
    ensures forall p :: p in pnrs && p.timelimit.Some? && EarliestLimit(pnrs).Some?
                        ==> EarliestLimit(pnrs).value <= p.timelimit.value
    ensures EarliestLimit(pnrs).Some? ==> exists p :: p in pnrs && p.timelimit == EarliestLimit(pnrs)
  {
    if pnrs != [] {
      EarliestLimitIsMinimum(pnrs[1..]);
      assert pnrs == [pnrs[0]] + pnrs[1..];
    }
  }

  function ResolveHoldExpiresAt(cfg: Config, pnrs: seq<HeldPnr>, departTime: int, now: int): int {
    match EarliestLimit(pnrs)
    case Some(t) => t
    case None => Min(now + cfg.holdFallbackHours * HOUR_MS, departTime - 3 * HOUR_MS)
  }

  function StoredPnrs(pnrs: seq<HeldPnr>, holdExpiresAt: int): (r: seq<Pnr>)
    ensures |r| == |pnrs|
    ensures forall i :: 0 <= i < |pnrs| ==>
                          r[i] == Pnr(pnrs[i].code,
                                      if pnrs[i].timelimit.Some? then pnrs[i].timelimit.value else holdExpiresAt,
                                      None)
  {
    seq(|pnrs|, i requires 0 <= i < |pnrs| =>
      Pnr(pnrs[i].code, if pnrs[i].timelimit.Some? then pnrs[i].timelimit.value else holdExpiresAt, None))
  }

  /** What `persistHeldBooking` stores, or why it refuses. */
  function HeldBooking(cfg: Config, pnrs: seq<HeldPnr>, departTime: int,
                       input: Markup.Input, rules: seq<Markup.Rule>, now: int): Result<Booking, HoldError>
  {
    var holdExpiresAt := ResolveHoldExpiresAt(cfg, pnrs, departTime, now);
    var deadline := holdExpiresAt - cfg.paymentBufferMinutes * MINUTE_MS;
    if deadline <= now + cfg.minPaymentWindowMinutes * MINUTE_MS then Err(WindowTooShort)
    else
      match Markup.ComputeMarkup(input, rules, now)
      case Err(e) => Err(MarkupRejected(e))
      case Ok(price) =>
        Ok(Booking(Held, input.netPrice, price.markupAmount, price.sellPrice,
                   holdExpiresAt, Some(deadline), StoredPnrs(pnrs, holdExpiresAt)))
  }

  /** The terms of a booking: the deadline keeps the payment buffer clear of every
      stored time limit, and the sell price is net plus markup. */
  ghost predicate TermsHold(cfg: Config, b: Booking) {
    && b.paymentDeadline == Some(b.muadiHoldExpiresAt - cfg.paymentBufferMinutes * MINUTE_MS)
    && (forall i :: 0 <= i < |b.pnrs| ==> b.muadiHoldExpiresAt <= b.pnrs[i].timelimit)
    && b.totalSellPrice == b.totalNetPrice + b.totalMarkup
  }

  /** A hold is stored exactly when the window before its deadline is long enough
      and a price can be computed; it then satisfies the terms. */
  lemma HeldBookingTerms(cfg: Config, pnrs: seq<HeldPnr>, departTime: int,
                         input: Markup.Input, rules: seq<Markup.Rule>, now: int)
    ensures var r := HeldBooking(cfg, pnrs, departTime, input, rules, now);
            && (r.Ok? ==> TermsHold(cfg, r.value) && r.value.status == Held
                          && r.value.totalNetPrice == input.netPrice
                          && now + cfg.minPaymentWindowMinutes * MINUTE_MS < r.value.paymentDeadline.value)
            && (r == Err(WindowTooShort) && EarliestLimit(pnrs).Some? ==>
                  exists p :: p in pnrs && p.timelimit.Some? &&
                    p.timelimit.value - now <= (cfg.paymentBufferMinutes + cfg.minPaymentWindowMinutes) * MINUTE_MS)
  {
    EarliestLimitIsMinimum(pnrs);
    var expires := ResolveHoldExpiresAt(cfg, pnrs, departTime, now);
    forall i | 0 <= i < |pnrs|
      ensures expires <= StoredPnrs(pnrs, expires)[i].timelimit
    {
      assert pnrs[i] in pnrs;
    }
  }

  /** A stored hold costs what the markup rules ask at that time, and nothing else. */
  lemma HeldAtTheRulesPrice(cfg: Config, pnrs: seq<HeldPnr>, departTime: int,
                            input: Markup.Input, rules: seq<Markup.Rule>, now: int)
    ensures var r := HeldBooking(cfg, pnrs, departTime, input, rules, now);
            r.Ok? ==>
              && Markup.RulesAsk(input, rules, now, r.value.totalSellPrice)
              && r.value.totalNetPrice == input.netPrice
              && r.value.totalMarkup == r.value.totalSellPrice - input.netPrice
  {
    var price := Markup.ComputeMarkup(input, rules, now);
    if price.Ok? {
      Markup.PriceIsWhatTheRulesAsk(input, rules, now, price.value.sellPrice);
    }
  }

  /** The hold ends with the earliest of the airline's time limits; without any, some
      hours from now or three hours before departure, whichever is earlier. */
  ghost predicate HoldEnds(cfg: Config, pnrs: seq<HeldPnr>, departTime: int, now: int, end: int) {
    if forall p :: p in pnrs ==> p.timelimit.None? then
      && end <= now + cfg.holdFallbackHours * 3_600_000 && end <= departTime - 3 * 3_600_000
      && (end == now + cfg.holdFallbackHours * 3_600_000 || end == departTime - 3 * 3_600_000)
    else
      && (exists p :: p in pnrs && p.timelimit == Some(end))
      && forall p :: p in pnrs && p.timelimit.Some? ==> end <= p.timelimit.value
  }

  /** A record locator is stored with its own time limit, or else with that end. */
  predicate StoredAs(given: HeldPnr, stored: Pnr, end: int) {
    stored.code == given.code && stored.ticketNumber == None
    && (given.timelimit == Some(stored.timelimit) || (given.timelimit == None && stored.timelimit == end))
  }

  /** Exactly when a hold is refused for its payment window, and what is stored otherwise. */
  lemma HeldBookingIff(cfg: Config, pnrs: seq<HeldPnr>, departTime: int,
                       input: Markup.Input, rules: seq<Markup.Rule>, now: int, end: int)
    requires HoldEnds(cfg, pnrs, departTime, now, end)
    ensures var r := HeldBooking(cfg, pnrs, departTime, input, rules, now);
            && (r == Err(WindowTooShort) <==>
                  end - now <= (cfg.paymentBufferMinutes + cfg.minPaymentWindowMinutes) * 60_000)
            && (r.Ok? ==>
                  && r.value.status == Held && r.value.muadiHoldExpiresAt == end
                  && r.value.paymentDeadline == Some(end - cfg.paymentBufferMinutes * 60_000)
                  && |r.value.pnrs| == |pnrs|
                  && forall i :: 0 <= i < |pnrs| ==> StoredAs(pnrs[i], r.value.pnrs[i], end))
  {
    EarliestLimitIsMinimum(pnrs);
  }

  predicate Unpaid(status: BookingStatus) {
    status == Held || status == PaymentPending
  }

  predicate Settled(status: BookingStatus) {
    status == Paid || status == Ticketed || status == IssueFailed
  }

  /** `isBookingPayable` of sepay.service.ts. */
  predicate IsBookingPayable(b: Booking, now: int) {
    Unpaid(b.status) && b.paymentDeadline.Some? && now < b.paymentDeadline.value
  }
}
