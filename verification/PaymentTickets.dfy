/** Which ticket number goes onto which record locator, and when an administrator's
    request is refused (admin-booking.controller.ts). */
module PaymentTickets {
  import opened Common
  import opened Bookings
  import opened PaymentModel
  import Text

  /** The record locator that a ticket's text names: the first one that is the same but
      for case and for spaces around the text. */
  predicate Addresses(pnrs: seq<Pnr>, code: string, k: nat) {
    && k < |pnrs| && Text.UpperAll(pnrs[k].code) == Text.UpperAll(Text.Trim(code))
    && forall j :: 0 <= j < k ==> Text.UpperAll(pnrs[j].code) != Text.UpperAll(Text.Trim(code))
  }

  ghost predicate Addressed(pnrs: seq<Pnr>, code: string) {
    exists k: nat :: Addresses(pnrs, code, k)
  }

  /** Each record locator gets the number, trimmed, of the last ticket that names it, and
      is otherwise left alone. */
  ghost predicate Numbered(pnrs: seq<Pnr>, pnrs': seq<Pnr>, tickets: seq<(string, string)>) {
    && |pnrs'| == |pnrs|
    && forall k :: 0 <= k < |pnrs| ==>
         || (pnrs'[k] == pnrs[k] && forall t :: 0 <= t < |tickets| ==> !Addresses(pnrs, tickets[t].0, k))
         || exists t: nat :: LastFor(pnrs, tickets, k, t)
                        && pnrs'[k] == pnrs[k].(ticketNumber := Some(Text.Trim(tickets[t].1)))
  }

  ghost predicate LastFor(pnrs: seq<Pnr>, tickets: seq<(string, string)>, k: nat, t: nat) {
    && t < |tickets| && Addresses(pnrs, tickets[t].0, k)
    && forall later :: t < later < |tickets| ==> !Addresses(pnrs, tickets[later].0, k)
  }

  lemma FindPnrIff(pnrs: seq<Pnr>, code: string, from: nat)
    requires from <= |pnrs|
    requires forall j :: 0 <= j < from ==> Text.UpperAll(pnrs[j].code) != Text.UpperAll(Text.Trim(code))
    ensures FindPnr(pnrs, code, from).Some? <==> Addressed(pnrs, code)
    ensures FindPnr(pnrs, code, from).Some? ==> Addresses(pnrs, code, FindPnr(pnrs, code, from).value)
    decreases |pnrs| - from
  {
    if from < |pnrs| {
      if Text.UpperAll(pnrs[from].code) == Text.UpperAll(Text.Trim(code)) {
        assert Addresses(pnrs, code, from);
      } else {
        FindPnrIff(pnrs, code, from + 1);
      }
    }
  }

  ghost predicate FirstUnknown(pnrs: seq<Pnr>, tickets: seq<(string, string)>, t: nat) {
    && t < |tickets| && !Addressed(pnrs, tickets[t].0)
    && forall earlier :: 0 <= earlier < t ==> Addressed(pnrs, tickets[earlier].0)
  }

  lemma SameCodes(pnrs: seq<Pnr>, pnrs': seq<Pnr>, code: string)
    requires |pnrs| == |pnrs'| && forall j :: 0 <= j < |pnrs| ==> pnrs'[j].code == pnrs[j].code
    ensures forall k: nat :: Addresses(pnrs', code, k) <==> Addresses(pnrs, code, k)
    ensures Addressed(pnrs', code) <==> Addressed(pnrs, code)
  {
    assert forall k: nat :: Addresses(pnrs', code, k) <==> Addresses(pnrs, code, k);
  }

  lemma NumberedFirst(pnrs: seq<Pnr>, tickets: seq<(string, string)>, k: nat, pnrs': seq<Pnr>)
    requires tickets != [] && Addresses(pnrs, tickets[0].0, k)
    requires Numbered(pnrs[k := pnrs[k].(ticketNumber := Some(Text.Trim(tickets[0].1)))], pnrs', tickets[1..])
    ensures Numbered(pnrs, pnrs', tickets)
  {
    var pnrs1 := pnrs[k := pnrs[k].(ticketNumber := Some(Text.Trim(tickets[0].1)))];
    forall t | 0 <= t < |tickets|
      ensures forall j: nat :: Addresses(pnrs1, tickets[t].0, j) <==> Addresses(pnrs, tickets[t].0, j) {
      SameCodes(pnrs, pnrs1, tickets[t].0);
    }
    forall j | 0 <= j < |pnrs|
               && !(pnrs'[j] == pnrs[j] && forall t :: 0 <= t < |tickets| ==> !Addresses(pnrs, tickets[t].0, j))
      ensures exists t: nat :: LastFor(pnrs, tickets, j, t)
                               && pnrs'[j] == pnrs[j].(ticketNumber := Some(Text.Trim(tickets[t].1)))
    {
      if t: nat :| LastFor(pnrs1, tickets[1..], j, t)
                   && pnrs'[j] == pnrs1[j].(ticketNumber := Some(Text.Trim(tickets[1..][t].1))) {
        assert LastFor(pnrs, tickets, j, t + 1);
      } else {
        assert forall t :: 0 < t < |tickets| ==> tickets[t] == tickets[1..][t - 1];
        assert LastFor(pnrs, tickets, j, 0);
      }
    }
  }

  lemma TicketsLeft(pnrs: seq<Pnr>, tickets: seq<(string, string)>, k: nat)
    requires tickets != [] && Addresses(pnrs, tickets[0].0, k)
    ensures var pnrs1 := pnrs[k := pnrs[k].(ticketNumber := Some(Text.Trim(tickets[0].1)))];
            && FindPnr(pnrs, tickets[0].0) == Some(k)
            && WithTickets(pnrs, tickets) == WithTickets(pnrs1, tickets[1..])
            && forall t :: 0 <= t < |tickets| ==> (Addressed(pnrs1, tickets[t].0) <==> Addressed(pnrs, tickets[t].0))
  {
    var pnrs1 := pnrs[k := pnrs[k].(ticketNumber := Some(Text.Trim(tickets[0].1)))];
    FindPnrIff(pnrs, tickets[0].0, 0);
    var found := FindPnr(pnrs, tickets[0].0).value;
    assert !(found < k) && !(k < found);
    forall t | 0 <= t < |tickets| ensures Addressed(pnrs1, tickets[t].0) <==> Addressed(pnrs, tickets[t].0) {
      SameCodes(pnrs, pnrs1, tickets[t].0);
    }
  }

  /** What tickets that can all be written leave. */
  lemma {:induction false} TicketsAreWritten(pnrs: seq<Pnr>, tickets: seq<(string, string)>)
    requires forall t :: 0 <= t < |tickets| ==> Addressed(pnrs, tickets[t].0)
    ensures WithTickets(pnrs, tickets).Ok? && Numbered(pnrs, WithTickets(pnrs, tickets).value, tickets)
    decreases |tickets|
  {
    if tickets != [] {
      assert Addressed(pnrs, tickets[0].0);
      var k: nat :| Addresses(pnrs, tickets[0].0, k);
      var pnrs1 := pnrs[k := pnrs[k].(ticketNumber := Some(Text.Trim(tickets[0].1)))];
      TicketsLeft(pnrs, tickets, k);
      TicketsAreWritten(pnrs1, tickets[1..]);
      NumberedFirst(pnrs, tickets, k, WithTickets(pnrs1, tickets[1..]).value);
    }
  }

  /** The first ticket that names no record locator of the booking refuses them all. */
  lemma {:induction false} TicketsAreRefused(pnrs: seq<Pnr>, tickets: seq<(string, string)>, t: nat)
    requires FirstUnknown(pnrs, tickets, t)
    ensures WithTickets(pnrs, tickets) == Err(UnknownPnr(tickets[t].0))
    decreases |tickets|
  {
    if t == 0 {
      FindPnrIff(pnrs, tickets[0].0, 0);
    } else {
      assert Addressed(pnrs, tickets[0].0);
      var k: nat :| Addresses(pnrs, tickets[0].0, k);
      TicketsLeft(pnrs, tickets, k);
      TicketsAreRefused(pnrs[k := pnrs[k].(ticketNumber := Some(Text.Trim(tickets[0].1)))], tickets[1..], t - 1);
    }
  }

  lemma {:induction false} SomeFirstUnknown(pnrs: seq<Pnr>, tickets: seq<(string, string)>, t: nat) returns (first: nat)
    requires t < |tickets| && !Addressed(pnrs, tickets[t].0)
    ensures FirstUnknown(pnrs, tickets, first)
    decreases t
  {
    if u: nat :| u < t && !Addressed(pnrs, tickets[u].0) {
      first := SomeFirstUnknown(pnrs, tickets, u);
    } else {
      first := t;
    }
  }

  /** Exactly when a booking is ticketed, why otherwise not, and that nothing else changes. */
  lemma TicketingIff(db: Db, b: nat, tickets: seq<(string, string)>)
    ensures var (db', error) := MarkTicketed(db, b, tickets);
            && (error == Some(UnknownBooking) <==> |db.bookings| <= b)
            && (error == Some(NotPaid) <==> b < |db.bookings| && db.bookings[b].status != Paid)
            && (error.None? <==> b < |db.bookings| && db.bookings[b].status == Paid
                                 && forall t :: 0 <= t < |tickets| ==> Addressed(db.bookings[b].pnrs, tickets[t].0))
            && (forall code :: error == Some(UnknownPnr(code)) <==>
                  b < |db.bookings| && db.bookings[b].status == Paid
                  && exists t: nat :: FirstUnknown(db.bookings[b].pnrs, tickets, t) && tickets[t].0 == code)
            && (error.Some? ==> db' == db)
            && (error.None? ==>
                  && |db'.bookings| == |db.bookings|
                  && (forall c :: 0 <= c < |db.bookings| && c != b ==> db'.bookings[c] == db.bookings[c])
                  && db'.bookings[b].status == Ticketed && Numbered(db.bookings[b].pnrs, db'.bookings[b].pnrs, tickets)
                  && db'.intents == db.intents && db'.payments == db.payments && db'.bank == db.bank)
  {
    if b < |db.bookings| {
      var pnrs := db.bookings[b].pnrs;
      if t: nat :| t < |tickets| && !Addressed(pnrs, tickets[t].0) {
        var first := SomeFirstUnknown(pnrs, tickets, t);
        TicketsAreRefused(pnrs, tickets, first);
        forall u: nat | FirstUnknown(pnrs, tickets, u) ensures u == first {
          assert !(u < first) && !(first < u);
        }
      } else {
        TicketsAreWritten(pnrs, tickets);
      }
    }
  }

  /** Only a PAID booking can be marked as one whose tickets could not be issued. */
  lemma IssueFailedIff(db: Db, b: nat)
    ensures var (db', error) := MarkIssueFailed(db, b);
            && (error == Some(UnknownBooking) <==> |db.bookings| <= b)
            && (error == Some(NotPaid) <==> b < |db.bookings| && db.bookings[b].status != Paid)
            && (error.None? <==> b < |db.bookings| && db.bookings[b].status == Paid)
            && db'.intents == db.intents && db'.payments == db.payments && db'.bank == db.bank
            && |db'.bookings| == |db.bookings|
            && forall c :: 0 <= c < |db.bookings| ==>
                 db'.bookings[c] == if c == b && error.None? then db.bookings[c].(status := IssueFailed) else db.bookings[c]
  {
  }
}
