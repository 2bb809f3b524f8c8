/** The two expiry loops (booking-lifecycle.service.ts): which rows a pass expires, and
    which steps of any run expire a row. */
module PaymentExpiry {
  import opened Common
  import opened Bookings
  import opened PaymentModel
  import opened PaymentInvariants
  import opened PaymentRuns

  // ---- A pass that nothing interrupts ----

  /** The overdue rows from position `from` on, in table order. */
  function OverdueRows(db: Db, kind: CronKind, now: int, from: nat := 0): seq<nat>
    decreases |db.intents| + |db.bookings| - from
  {
    if |db.intents| + |db.bookings| <= from then []
    else (if RowOverdue(db, kind, from, now) then [from] else []) + OverdueRows(db, kind, now, from + 1)
  }

  lemma {:induction false} OverdueRowsAreListed(db: Db, kind: CronKind, now: int, from: nat)
    ensures forall row :: row in OverdueRows(db, kind, now, from) <==> from <= row && RowOverdue(db, kind, row, now)
    decreases |db.intents| + |db.bookings| - from
  {
    if from < |db.intents| + |db.bookings| {
      OverdueRowsAreListed(db, kind, now, from + 1);
    }
  }

  ghost predicate Ascending(rows: seq<nat>) {
    forall i, j :: 0 <= i < j < |rows| ==> rows[i] < rows[j]
  }

  lemma AscendingCons(row: nat, rest: seq<nat>)
    requires Ascending(rest) && forall other :: other in rest ==> row < other
    ensures Ascending([row] + rest)
  {
    var rows := [row] + rest;
    forall i, j | 0 <= i < j < |rows| ensures rows[i] < rows[j] {
      assert rows[j] == rest[j - 1] && rest[j - 1] in rest;
      assert rows[i] == if i == 0 then row else rest[i - 1];
    }
  }

  lemma {:induction false} OverdueRowsAscend(db: Db, kind: CronKind, now: int, from: nat)
    ensures Ascending(OverdueRows(db, kind, now, from))
    decreases |db.intents| + |db.bookings| - from
  {
    if from < |db.intents| + |db.bookings| {
      OverdueRowsAscend(db, kind, now, from + 1);
      OverdueRowsAreListed(db, kind, now, from + 1);
      var rest := OverdueRows(db, kind, now, from + 1);
      if RowOverdue(db, kind, from, now) {
        AscendingCons(from, rest);
      } else {
        assert OverdueRows(db, kind, now, from) == [] + rest == rest;
      }
    }
  }

  lemma OverdueRowsAreASnapshot(db: Db, kind: CronKind, now: int, from: nat)
    ensures var rows := OverdueRows(db, kind, now, from);
            && (forall row :: row in rows <==> from <= row && RowOverdue(db, kind, row, now))
            && Ascending(rows)
  {
    OverdueRowsAreListed(db, kind, now, from);
    OverdueRowsAscend(db, kind, now, from);
  }

  function ExpireRow(db: Db, kind: CronKind, row: nat, now: int): (Db, nat)
    requires IntentsLinked(db)
  {
    if kind == IntentLoop then ExpireIntentRow(db, row, now) else ExpireBookingRow(db, row, now)
  }

  /** Visiting the rows one after the other with nothing in between. */
  ghost function ExpireRows(db: Db, kind: CronKind, rows: seq<nat>, now: int): (Db, nat)
    requires IntentsLinked(db)
    decreases |rows|
  {
    if rows == [] then (db, 0)
    else
      var (db1, count) := ExpireRow(db, kind, rows[0], now);
      var (db2, more) := ExpireRows(db1, kind, rows[1..], now);
      (db2, count + more)
  }

  /** One row taken off a snapshot leaves a snapshot of the new tables. */
  lemma SnapshotShrinks(db: Db, kind: CronKind, rows: seq<nat>, now: int)
    requires IntentsLinked(db) && rows != [] && IsSnapshot(db, kind, now, rows)
    ensures ExpireRow(db, kind, rows[0], now).1 == 1
    ensures IsSnapshot(ExpireRow(db, kind, rows[0], now).0, kind, now, rows[1..])
  {
    var db' := ExpireRow(db, kind, rows[0], now).0;
    assert rows[0] in rows;
    if kind == IntentLoop {
      ExpireIntentRowEffect(db, rows[0], now);
    }
    forall row: nat
      ensures row in rows[1..] <==> RowOverdue(db', kind, row, now)
    {
      assert row in rows <==> row == rows[0] || row in rows[1..];
    }
  }

  /** An uninterrupted pass over a snapshot moves every row and leaves none overdue. */
  lemma {:induction false} UninterruptedPass(db: Db, kind: CronKind, rows: seq<nat>, now: int)
    requires IntentsLinked(db) && IsSnapshot(db, kind, now, rows)
    ensures ExpireRows(db, kind, rows, now).1 == |rows|
    ensures IntentsLinked(ExpireRows(db, kind, rows, now).0)
    ensures forall row :: !RowOverdue(ExpireRows(db, kind, rows, now).0, kind, row, now)
    decreases |rows|
  {
    if rows == [] {
      assert forall row: nat :: row in rows <==> RowOverdue(db, kind, row, now);
    } else {
      SnapshotShrinks(db, kind, rows, now);
      UninterruptedPass(ExpireRow(db, kind, rows[0], now).0, kind, rows[1..], now);
    }
  }

  /** Expiring bookings, at whatever time, never makes an intent overdue. */
  lemma {:induction false} BookingPassKeepsIntentsExpired(db: Db, rows: seq<nat>, now: int, later: int)
    requires IntentsLinked(db)
    requires forall i :: !RowOverdue(db, IntentLoop, i, now)
    ensures forall i :: !RowOverdue(ExpireRows(db, BookingLoop, rows, later).0, IntentLoop, i, now)
    decreases |rows|
  {
    if rows != [] {
      var db1 := ExpireRow(db, BookingLoop, rows[0], later).0;
      forall i ensures !RowOverdue(db1, IntentLoop, i, now) {
        assert !RowOverdue(db, IntentLoop, i, now);
      }
      BookingPassKeepsIntentsExpired(db1, rows[1..], now, later);
    }
  }

  /** The uninterrupted loop is one particular run of the interleaved model: the
      cron's rows one after the other. */
  lemma {:induction false} PassIsARun(w: World, cfg: Config, c: nat)
    requires IntentsLinked(w.db) && c < |w.crons|
    ensures var cron := w.crons[c];
            var w' := Run(w, cfg, seq(|cron.todo|, _ => CronRow(c)));
            && w'.db == ExpireRows(w.db, cron.kind, cron.todo, cron.now).0
            && c < |w'.crons|
            && w'.crons[c].expired == cron.expired + ExpireRows(w.db, cron.kind, cron.todo, cron.now).1
    decreases |w.crons[c].todo|
  {
    var cron := w.crons[c];
    if cron.todo != [] {
      var events := seq(|cron.todo|, _ => CronRow(c));
      var w1 := Step(w, cfg, CronRow(c));
      StepSucceeds(w, cfg, CronRow(c));
      assert events[1..] == seq(|cron.todo| - 1, _ => CronRow(c));
      PassIsARun(w1, cfg, c);
    }
  }

  // ---- Which rows a pass expires ----

  lemma {:induction false} RowsExpireBookings(db: Db, rows: seq<nat>, now: int)
    requires IntentsLinked(db)
    ensures var db' := ExpireRows(db, BookingLoop, rows, now).0;
            && |db'.bookings| == |db.bookings| && |db'.intents| == |db.intents|
            && db'.payments == db.payments && db'.bank == db.bank
            && (forall b :: 0 <= b < |db.bookings| ==>
                  db'.bookings[b] == if b in rows && BookingOverdue(db.bookings[b], now)
                                     then db.bookings[b].(status := Expired) else db.bookings[b])
            && (forall i :: 0 <= i < |db.intents| ==>
                  var b := db.intents[i].bookingId;
                  db'.intents[i] == if db.intents[i].status == IntentPending
                                       && b in rows && BookingOverdue(db.bookings[b], now)
                                    then db.intents[i].(status := IntentExpired) else db.intents[i])
    decreases |rows|
  {
    if rows != [] {
      RowsExpireBookings(ExpireRow(db, BookingLoop, rows[0], now).0, rows[1..], now);
      assert forall b :: b in rows <==> b == rows[0] || b in rows[1..];
    }
  }

  /** After a pass of the booking loop: every booking that was HELD or PAYMENT_PENDING with
      its deadline behind it is EXPIRED, its pending intents with it, and nothing else has
      changed. */
  ghost predicate BookingLoopDone(db: Db, db': Db, now: int)
    requires IntentsLinked(db)
  {
    && |db'.bookings| == |db.bookings| && |db'.intents| == |db.intents|
    && db'.payments == db.payments && db'.bank == db.bank
    && (forall b :: 0 <= b < |db.bookings| ==>
          var was := db.bookings[b];
          db'.bookings[b] == if (was.status == Held || was.status == PaymentPending)
                                && was.paymentDeadline.Some? && was.paymentDeadline.value < now
                             then was.(status := Expired) else was)
    && (forall i :: 0 <= i < |db.intents| ==>
          var was := db.intents[i];
          db'.intents[i] == if was.status == IntentPending && db'.bookings[was.bookingId] != db.bookings[was.bookingId]
                            then was.(status := IntentExpired) else was)
  }

  ghost function ChangedBookings(db: Db, db': Db): set<nat>
    requires |db'.bookings| == |db.bookings|
  {
    set b: nat | b < |db.bookings| && db'.bookings[b] != db.bookings[b]
  }

  /** Whatever order it lists the rows in. */
  lemma BookingPass(db: Db, rows: seq<nat>, now: int)
    requires IntentsLinked(db) && IsSnapshot(db, BookingLoop, now, rows)
    ensures var (db', count) := ExpireRows(db, BookingLoop, rows, now);
            BookingLoopDone(db, db', now) && count == |ChangedBookings(db, db')|
  {
    var (db', count) := ExpireRows(db, BookingLoop, rows, now);
    RowsExpireBookings(db, rows, now);
    UninterruptedPass(db, BookingLoop, rows, now);
    assert forall b: nat :: b in rows <==> RowOverdue(db, BookingLoop, b, now);
    DistinctRowsCount(rows);
    assert ChangedBookings(db, db') == Rows(rows);
  }

  ghost function Rows(rows: seq<nat>): set<nat> {
    set row | row in rows
  }

  lemma {:induction false} DistinctRowsCount(rows: seq<nat>)
    requires forall i, j :: 0 <= i < j < |rows| ==> rows[i] != rows[j]
    ensures |Rows(rows)| == |rows|
  {
    if rows != [] {
      var n := |rows| - 1;
      DistinctRowsCount(rows[..n]);
      assert rows == rows[..n] + [rows[n]];
      assert Rows(rows) == Rows(rows[..n]) + {rows[n]};
    }
  }

  /** Whether the loop over these rows expires an intent of booking c. */
  ghost predicate ExpiresIntentOf(db: Db, rows: seq<nat>, now: int, c: nat) {
    exists i :: 0 <= i < |db.intents| && i in rows && IntentOverdue(db.intents[i], now) && db.intents[i].bookingId == c
  }

  ghost predicate HasPending(intents: seq<Intent>, c: nat) {
    exists i :: 0 <= i < |intents| && intents[i].bookingId == c && intents[i].status == IntentPending
  }

  lemma NonePendingIff(intents: seq<Intent>, c: nat)
    ensures HasPending(intents, c) <==> Sum(intents, PendingOf(c)) != 0
  {
    if i :| 0 <= i < |intents| && intents[i].bookingId == c && intents[i].status == IntentPending {
      SumCoversRow(intents, i, PendingOf(c));
    } else {
      SumOfZeros(intents, PendingOf(c));
    }
  }

  lemma {:induction false} RowsExpireIntents(db: Db, rows: seq<nat>, now: int)
    requires IntentsLinked(db)
    ensures var db' := ExpireRows(db, IntentLoop, rows, now).0;
            && |db'.bookings| == |db.bookings| && |db'.intents| == |db.intents|
            && db'.payments == db.payments && db'.bank == db.bank
            && (forall i :: 0 <= i < |db.intents| ==>
                  db'.intents[i] == if i in rows && IntentOverdue(db.intents[i], now)
                                    then db.intents[i].(status := IntentExpired) else db.intents[i])
            && (forall c :: 0 <= c < |db.bookings| ==>
                  db'.bookings[c] == if db.bookings[c].status == PaymentPending
                                        && ExpiresIntentOf(db, rows, now, c) && !HasPending(db'.intents, c)
                                     then db.bookings[c].(status := Held) else db.bookings[c])
    decreases |rows|
  {
    if rows != [] {
      var db1 := ExpireRow(db, IntentLoop, rows[0], now).0;
      var db' := ExpireRows(db, IntentLoop, rows, now).0;
      ExpireIntentRowEffect(db, rows[0], now);
      RowsExpireIntents(db1, rows[1..], now);
      assert forall i :: i in rows <==> i == rows[0] || i in rows[1..];
      forall c | 0 <= c < |db.bookings|
        ensures db'.bookings[c] == if db.bookings[c].status == PaymentPending
                                      && ExpiresIntentOf(db, rows, now, c) && !HasPending(db'.intents, c)
                                   then db.bookings[c].(status := Held) else db.bookings[c]
      {
        NonePendingIff(db1.intents, c);
      }
    }
  }

  /** After a pass of the intent loop: every PENDING intent whose time is up is EXPIRED, a
      booking in PAYMENT_PENDING that has lost its last pending intent is HELD again, and
      nothing else has changed. */
  ghost predicate IntentLoopDone(db: Db, db': Db, now: int) {
    && |db'.bookings| == |db.bookings| && |db'.intents| == |db.intents|
    && db'.payments == db.payments && db'.bank == db.bank
    && (forall i :: 0 <= i < |db.intents| ==>
          var was := db.intents[i];
          db'.intents[i] == if was.status == IntentPending && was.expiresAt < now
                            then was.(status := IntentExpired) else was)
    && (forall c :: 0 <= c < |db.bookings| ==>
          var was := db.bookings[c];
          db'.bookings[c] == if was.status == PaymentPending && HasPending(db.intents, c) && !HasPending(db'.intents, c)
                             then was.(status := Held) else was)
  }

  ghost function ChangedIntents(db: Db, db': Db): set<nat>
    requires |db'.intents| == |db.intents|
  {
    set i: nat | i < |db.intents| && db'.intents[i] != db.intents[i]
  }

  lemma IntentPass(db: Db, rows: seq<nat>, now: int)
    requires IntentsLinked(db) && IsSnapshot(db, IntentLoop, now, rows)
    ensures var (db', count) := ExpireRows(db, IntentLoop, rows, now);
            IntentLoopDone(db, db', now) && count == |ChangedIntents(db, db')|
  {
    var (db', count) := ExpireRows(db, IntentLoop, rows, now);
    RowsExpireIntents(db, rows, now);
    UninterruptedPass(db, IntentLoop, rows, now);
    assert forall i: nat :: i in rows <==> RowOverdue(db, IntentLoop, i, now);
    DistinctRowsCount(rows);
    assert ChangedIntents(db, db') == Rows(rows);
    forall c | 0 <= c < |db.bookings| && !HasPending(db'.intents, c)
      ensures HasPending(db.intents, c) <==> ExpiresIntentOf(db, rows, now, c)
    {
      if i :| 0 <= i < |db.intents| && db.intents[i].bookingId == c && db.intents[i].status == IntentPending {
        assert db'.intents[i] != db.intents[i];
        assert i in rows && IntentOverdue(db.intents[i], now);
      }
    }
  }

  /** Both loops, each with its own clock reading, leave nothing overdue. */
  lemma BothLoops(start: Db, mid: Db, end: Db, now: int, later: int)
    requires IntentsLinked(start) && IntentsLinked(mid)
    requires IntentLoopDone(start, mid, now) && BookingLoopDone(mid, end, later)
    ensures forall i :: 0 <= i < |end.intents| ==> !IntentOverdue(end.intents[i], now)
    ensures forall b :: 0 <= b < |end.bookings| ==> !BookingOverdue(end.bookings[b], later)
    ensures ChangedBookings(mid, end) == set b: nat | b < |end.bookings| && end.bookings[b].status == Expired
                                                      && start.bookings[b].status != Expired
  {
  }

  // ---- Which steps of a run expire a row ----

  /** A cron starts with the rows it lists: those overdue by its clock, each once, in
      whatever order. */
  lemma CronListsIff(w: World, cfg: Config, kind: CronKind, now: int, rows: seq<nat>)
    requires IntentsLinked(w.db)
    ensures var w' := Step(w, cfg, StartCron(kind, now, rows));
            var lists := && (forall i, j :: 0 <= i < j < |rows| ==> rows[i] != rows[j])
                         && forall row :: row in rows <==> IsUp(w.db, kind, row, now);
            w' == if lists then w.(crons := w.crons + [CronRun(kind, now, rows, 0)]) else w
  {
    assert forall row: nat :: RowOverdue(w.db, kind, row, now) <==> IsUp(w.db, kind, row, now);
  }

  /** The time of the row is up: a PENDING intent's, or an unpaid booking's to be paid. */
  predicate IsUp(db: Db, kind: CronKind, row: nat, now: int) {
    if kind == IntentLoop then
      row < |db.intents| && db.intents[row].status == IntentPending && db.intents[row].expiresAt < now
    else
      && row < |db.bookings| && (db.bookings[row].status == Held || db.bookings[row].status == PaymentPending)
      && db.bookings[row].paymentDeadline.Some? && db.bookings[row].paymentDeadline.value < now
  }

  /** The row that a cron visits in this step, if it visits one of that loop. */
  ghost predicate Visits(w: World, e: Event, kind: CronKind, row: nat) {
    && e.CronRow? && e.cron < |w.crons| && w.crons[e.cron].kind == kind
    && w.crons[e.cron].todo != [] && w.crons[e.cron].todo[0] == row
  }

  /** Exactly which step of a run expires a booking: a cron of the booking loop comes to
      it while it is unpaid and its deadline lies behind the cron's clock. */
  lemma BookingExpiresIff(w: World, cfg: Config, e: Event, b: nat)
    requires IntentsLinked(w.db) && b < |w.db.bookings|
    ensures var was, after := w.db.bookings[b], Step(w, cfg, e).db.bookings[b];
            was.status != Expired && after.status == Expired <==>
            && Visits(w, e, BookingLoop, b)
            && (was.status == Held || was.status == PaymentPending)
            && was.paymentDeadline.Some? && was.paymentDeadline.value < w.crons[e.cron].now
  {
    StepSucceeds(w, cfg, e);
    if e.CronRow? && e.cron < |w.crons| && w.crons[e.cron].todo != [] && w.crons[e.cron].kind == IntentLoop {
      ExpireIntentRowEffect(w.db, w.crons[e.cron].todo[0], w.crons[e.cron].now);
    }
  }

  /** No cron expires a booking that can still be paid by its clock, or that it could be
      paid at any later time. */
  lemma PayableNeverExpires(w: World, cfg: Config, e: Event, b: nat, now: int)
    requires IntentsLinked(w.db) && b < |w.db.bookings| && IsBookingPayable(w.db.bookings[b], now)
    requires e.CronRow? && e.cron < |w.crons| && w.crons[e.cron].now <= now
    ensures Step(w, cfg, e).db.bookings[b].status != Expired
  {
    BookingExpiresIff(w, cfg, e, b);
  }

  /** Exactly which step of a run expires an intent: a cron of the intent loop comes to it
      with its time behind the cron's clock, its booking expires, or another QR code is
      made for its booking. */
  lemma IntentExpiresIff(w: World, cfg: Config, e: Event, i: nat)
    requires IntentsLinked(w.db) && i < |w.db.intents|
    ensures var was, after := w.db.intents[i], Step(w, cfg, e).db.intents[i];
            var b := was.bookingId;
            was.status != IntentExpired && after.status == IntentExpired <==>
            && was.status == IntentPending
            && (|| (Visits(w, e, IntentLoop, i) && was.expiresAt < w.crons[e.cron].now)
                || (w.db.bookings[b].status != Expired && Step(w, cfg, e).db.bookings[b].status == Expired)
                || (e.CreateQr? && e.booking == b && CreateIntent(w.db, cfg, b, e.now, e.draws).1.Ok?))
  {
    StepSucceeds(w, cfg, e);
    if e.CronRow? && e.cron < |w.crons| && w.crons[e.cron].todo != [] && w.crons[e.cron].kind == IntentLoop {
      ExpireIntentRowEffect(w.db, w.crons[e.cron].todo[0], w.crons[e.cron].now);
    }
  }
}
