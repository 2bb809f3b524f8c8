/** What the steps of a hunt's scans and requests make of its row, column by column
    (hunter-run.service.ts, auto-hold.service.ts, hunt.service.ts). */
module HuntRows {
  import opened Common
  import opened HuntScheduler

  /** The process whose call is due in this step. */
  function Acting(w: World, e: Event): Proc {
    if IsArrival(e) || |w.procs| <= e.u then Finished else w.procs[e.u]
  }

  predicate Closes(w: World, e: Event) {
    e.Close? && Acting(w, e).Closing?
  }

  predicate HandlesFailure(w: World, e: Event) {
    e.Handle? && Acting(w, e).Failing?
  }

  predicate CountsHold(w: World, e: Event) {
    e.WriteHold? && Acting(w, e).Held?
  }

  predicate Updates(w: World, e: Event) {
    e.Write? && Acting(w, e).Updating?
  }

  predicate Cancels(w: World, e: Event) {
    e.Write? && Acting(w, e) == Cancelling
  }

  /** Exactly which steps change the counters and the target price, and how: a failure
      continues the streak that the scan read, not the one the row has by then. */
  lemma CountersChangeBy(w: World, e: Event)
    requires w.hunt.Some? && Step(w, e).hunt.Some?
    ensures var h, h', proc := w.hunt.value, Step(w, e).hunt.value, Acting(w, e);
            && h'.scansCount == h.scansCount + (if Closes(w, e) then 1 else 0)
            && h'.autoHoldsUsed == h.autoHoldsUsed + (if CountsHold(w, e) then 1 else 0)
            && h'.autoHoldMaxHolds == h.autoHoldMaxHolds
            && h'.failureStreak == (if Closes(w, e) then 0
                                    else if HandlesFailure(w, e) then proc.snap.failureStreak + 1 else h.failureStreak)
            && h'.targetPrice == (if Updates(w, e) && proc.edits.targetPrice.Some? then proc.edits.targetPrice.value
                                  else h.targetPrice)
  {
  }

  /** Exactly which steps change the status, and to what: a scan writes the one it
      decided on unless that is HUNTING, its fifth failure in a row pauses the hunt, so
      does a booking, and a request goes by the status it read. */
  lemma StatusChangesBy(w: World, e: Event)
    requires w.hunt.Some? && Step(w, e).hunt.Some? && ProcsSound(w)
    ensures var h, h', proc := w.hunt.value, Step(w, e).hunt.value, Acting(w, e);
            h'.status ==
            if Closes(w, e) && proc.next != Hunting then proc.next
            else if HandlesFailure(w, e) && 5 <= proc.snap.failureStreak + 1 then Paused
            else if CountsHold(w, e) then Paused
            else if Cancels(w, e) then Cancelled
            else if Updates(w, e) && proc.action == Pause && proc.seen.status == Hunting then Paused
            else if Updates(w, e) && proc.action == Resume && proc.seen.status in {Paused, Found} then Hunting
            else h.status
  {
    if !IsArrival(e) && e.u < |w.procs| {
      assert ProcSound(w.procs[e.u]);
    }
  }

  /** Auto-hold is switched on and off by updates alone, and only by those that say so.
      One that switches it on stores every detail, its own or else the one it read; one
      that does not mention the switch stores its own; one that switches it off none. */
  lemma AutoHoldChangesBy(w: World, e: Event)
    requires w.hunt.Some? && Step(w, e).hunt.Some?
    ensures var a, a', proc := w.hunt.value.autoHold, Step(w, e).hunt.value.autoHold, Acting(w, e);
            && (!Updates(w, e) ==> a' == a)
            && (Updates(w, e) ==>
                  var edits, on, off := proc.edits, proc.edits.autoHold == Some(true), proc.edits.autoHold == Some(false);
                  var base := if on then proc.seen.autoHold else a;
                  && a'.enabled == (on || (!off && a.enabled))
                  && a'.passengers == (if edits.passengers.Some? && !off then edits.passengers else base.passengers)
                  && a'.phone == (if edits.phone.Some? && !off then edits.phone else base.phone)
                  && a'.email == (if edits.email.Some? && !off then edits.email else base.email))
  {
  }

  /** What a scan that found these offers goes on to do, from the hunt as it read it: it
      asks for a booking exactly when the cheapest offer is no dearer than the target and
      the hunt may hold seats, for somebody it can reach. */
  lemma DecisionIff(snap: Hunt, cheapest: Option<int>, belowLimit: bool)
    ensures var next := AfterDecision(snap, cheapest, belowLimit);
            var hit := cheapest.Some? && cheapest.value <= snap.targetPrice;
            var holds := && snap.autoHold.enabled && snap.autoHoldsUsed < snap.autoHoldMaxHolds && belowLimit
                         && snap.autoHold.passengers.Some? && Adult in snap.autoHold.passengers.value
                         && snap.autoHold.phone.Some? && snap.autoHold.phone.value != ""
                         && snap.autoHold.email.Some? && snap.autoHold.email.value != "";
            && (next == HoldingSeats(snap) <==> hit && holds)
            && (next == Closing(snap, Found) <==> hit && !holds)
            && (next == Closing(snap, Hunting) <==> !hit)
  {
  }

  /** A request is refused exactly when it switches auto-hold on and, with what the hunt
      has already, still names no adult, no phone number or no address. */
  lemma RefusedIff(edits: Edits, seen: AutoHold)
    ensures var passengers := if edits.passengers.Some? then edits.passengers else seen.passengers;
            var phone := if edits.phone.Some? then edits.phone else seen.phone;
            var email := if edits.email.Some? then edits.email else seen.email;
            !Acceptable(edits, seen) <==>
            && edits.autoHold == Some(true)
            && (|| passengers.None? || Adult !in passengers.value
                || phone == None || phone == Some("") || email == None || email == Some(""))
  {
  }

  /** A new hunt has held and scanned nothing, and keeps the details of auto-hold only if
      that is on. */
  lemma NewHuntIff(targetPrice: int, autoHold: AutoHold, maxHolds: nat, h: Hunt)
    ensures NewHunt(targetPrice, autoHold, maxHolds) == h <==>
            && h.status == Hunting && h.targetPrice == targetPrice && h.autoHoldMaxHolds == maxHolds
            && h.failureStreak == 0 && h.scansCount == 0 && h.autoHoldsUsed == 0
            && h.autoHold.enabled == autoHold.enabled
            && (if autoHold.enabled then h.autoHold == autoHold
                else h.autoHold.passengers == None && h.autoHold.phone == None && h.autoHold.email == None)
  {
  }
}
