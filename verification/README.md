# Dafny model of the OpenFly booking backend

OpenFly sells Vietnamese domestic flights: it searches an airline agency system (Muadi), holds
seats, waits for a SePay bank transfer against a QR code, and scans fares in the background for
customers who set a target price. This project models the parts of that backend where several
things happen at once on shared state, and proves what holds over all their interleavings.

Each concurrent component is a transition system. One step is one database transaction, one
conditional update or one Redis call; a run is any sequence of such steps by any number of
requests, jobs and crons. Beside each system stands the service itself as a class whose methods
work on the same tables in place and are proved against the same step functions, and a lemma that
says which run of the system such an undisturbed call is.

What the steps decide and write is stated a second time apart from how they compute it: the answers
of the payment endpoints in the fields of the request and of the rows concerned (`PaymentAnswers`,
`PaymentExpiry`, `PaymentPrices`, `PaymentTickets`), the rows of hunts, sessions and browser tabs
column by column over all events (`HuntRows`, `SessionRows`, `RefreshTabs`).

| files | what they model |
|---|---|
| `Bookings`, `PaymentModel`, `PaymentInvariants`, `PaymentRuns`, `PaymentTheorems`, `PaymentAnswers`, `PaymentExpiry`, `PaymentPrices`, `PaymentTickets`, `PaymentTwoCodes`, `PaymentServices`, `BankMemo`, `Text` | bookings, QR codes, the bank's webhook, the two expiry loops, ticket issue |
| `Markup` | the markup rules behind every sell price |
| `SessionPool`, `SessionRows`, `SessionStandstill`, `SessionPromise`, `SessionReserve`, `SessionRotation`, `SessionPoolService` | the pool of airline sessions shared by customers and background hunters |
| `HuntScheduler`, `HuntRows`, `HuntStranded`, `HuntTheorems`, `HuntOverlap`, `HuntChains`, `HuntServices`, `HunterDiff` | one fare hunt: its scan jobs, pause, resume, cancel, auto-hold, and the comparison of two scans |
| `HoldIdempotency`, `HoldController` | at most one seat hold per user and idempotency key, over Redis |
| `RefreshTokens`, `RefreshBlocking`, `RefreshClient`, `RefreshTabs`, `RefreshServices` | single-use refresh tokens on the server, blocking a user, the single-flight refresh and the page load in the browser |
| `QuietHours`, `Notifier` | how long a notification waits, and that it waits once |
| `RetryLoop` | the retry loop around requests to the airline system |
| `Common`, `Runs` | optional values, results, sums over table rows; runs of a transition system |

Tables only grow, so a table is a sequence and a row's id is its position. Time is a clock reading
in milliseconds that each step receives; money is whole dong; percentages are real numbers.
`dafny verify dfyconfig.toml` checks everything.

## Where the code does not do what is expected of it

Each of these is proved by a run that shows it, and so is the exact condition under which the code
does meet the expectation.

- The session pool promises that hunters leave `HUNTER_RESERVED_REALTIME` sessions free for real-time
  users (`muadi-session-pool.service.ts:9-14`). Counting and locking are separate calls: at its lock a
  hunter leaves the reserve less the sessions that anybody took since its count, and one hunter among
  k real-time users can leave exactly `reserved - k`. The promise holds exactly when no session is
  taken between a hunter's count and its lock, or nothing is reserved
  (`SessionPromise.HunterLeavesAttained`, `SessionPromise.ReserveLeftIff`). The lemmas of
  `SessionReserve` are the case of hunters alone, where the reserve stays free at all times exactly
  when at most one of them is between count and lock.
- The comment at `muadi-session-pool.service.ts:103-107` says no update touches a session that the
  breaker took out, so that its `updatedAt` stands still until the reactivation. A failed release
  frees the session one call before it deactivates it, so another user can hold it by then, or fail on
  it too and trip it a second time (`SessionPool.TrippedWhileHeld`, `SessionPool.TrippedTwice`). And a
  login does not write to the session it was given: it is stored in the row labelled with the account,
  which becomes active again even if it is out (`SessionStandstill.LoggedInWhileOut`). The row stands
  still exactly when nobody holds the session, is about to trip it or is logging in under its label,
  and no other session of the account it is labelled with is active, held, or out since earlier and
  still able to come back first (`SessionStandstill.StandsStillIff`).
- A hunt can be HUNTING with no scan coming. The queue may reject the job of a resume, of a scan
  postponed for lack of a session, or after a failed scan; the first read of a scan may fail, or a
  write in the handling of its failure, which nobody retries as scan jobs have one attempt
  (`queue.module.ts:21-28`); or the first job may be rejected and the deletion of the new hunt fail.
  There is a run for each (`HuntStranded.RejectedResumeStrands`, `RejectedPostponementStrands`,
  `RejectedRetryStrands`, `FailedReadStrands`, `FailedHandlerStrands`, `FailedDeletionStrands`). A scan
  is always coming exactly when none of these can happen (`HuntStranded.AlwaysScheduledIff`).
- A hunt can have several scans at once. Every scan queues its successor, so pausing and resuming a
  hunt while it is scanned leaves two scans for good (`HuntChains.PauseAndResumeDoublesTheScans`,
  `ScanReplacesItself`). There are never more than one and the resumes, on-demand scans and lost queue
  answers there were, and that many can be (`HuntChains.ChainsAreAdded`, `ChainsAttained`); there is
  one at a time exactly when there were none of these (`HuntChains.OneChainIff`).
- A cancelled hunt can be revived by a scan or an update that read it before the cancellation
  (`HuntTheorems.CancelledHuntIsFound`); it stays cancelled exactly when no process in progress is of
  the kinds listed in `CanRevive` (`HuntTheorems.StaysCancelledIff`).
- `autoHoldMaxHolds` is not always respected. n overlapping scans can make n bookings where one is
  allowed; and a single scan books, fails to write that down, and is followed by one that books again
  (`HuntOverlap.AutoHoldBoundAttained`, `UncountedBookingIsRepeated`). The bookings made exceed the
  maximum by at most n - 1 and those not counted (`HuntTheorems.AutoHoldBound`); the maximum is
  respected exactly when scans do not overlap and no count is lost (`HuntOverlap.MaximumKeptIff`).
- Hold idempotency fails if the Redis entry expires, or if storing the response of a successful hold
  fails, because the error path then deletes the reservation; no other failure lets a second hold
  succeed (`HoldIdempotency.AlwaysOnceIff`). The airline can hold seats twice for one key also when the
  booking service fails after it held them; it holds them at most once exactly when none of the three
  happens (`HoldIdempotency.LateFailureHoldsTwice`, `SeatsOnceIff`).
- Blocking a user is meant to end the user's sign-ins (`admin-user.controller.ts:99`). A rotation that
  stands between revoking and creating still leaves a live token, and so does a sign-in that had found
  the user not blocked (`RefreshTokens.BlockedUserKeepsToken`,
  `RefreshBlocking.LateSignInSurvivesTheBlock`). The user stays without a live token until unblocked
  exactly when there is neither (`RefreshBlocking.BlockingKeepsOutIff`; for a single sign-in
  `RefreshTokens.RevokeUserEndsIff`).
- The single-flight refresh is per tab while the stored token is per browser, any error status in
  answer to a refresh clears the session, and so does any failure of the call that a page load makes
  (`stores/auth.ts:36-49`). With two tabs, after a lost reply (a page reloaded during a refresh
  included), after an error such as too many requests, or after a page load offline, a user who did not
  sign out loses a session that had not expired (`RefreshClient.TwoTabsSignOut`, `LostReplyIsRefused`,
  `ErrorReplyDropsLiveToken`, `PageLoadDropsLiveToken`, `LostReplyAtLoadDropsLiveToken`). The session is
  kept exactly when one tab is open, no reply to a refresh is lost or an error, and no page load's call
  fails (`RefreshClient.SessionKeptIff`).
- `create-booking` is kept from being repeated after HTTP errors, but a request without any answer
  is sent again (`RetryLoop.LostAnswerResendsBooking`, `RetryLoop.BookingIsResentIff`); so is one that
  was refused for want of the agent's verification, once that has succeeded
  (`RetryLoop.ProtectedBookingIsResentIff`).

## Model

| member | source | states |
|---|---|---|
| `BankMemo.MemoReading` | apps/api/src/integrations/sepay/sepay.provider.ts:99-108 | for every prefix, keyword in any case, optional separator and code of six or more digits: an earlier code in the prefix wins, otherwise the whole digit run is read |
| `BankMemo.MemoRoundTrip` | apps/api/src/integrations/sepay/sepay.provider.ts:106-107 | behind a prefix that yields nothing, the printed code is read back if and only if the next character is not a digit |
| `PaymentTheorems.DedupeKeysDistinct` | apps/api/src/integrations/sepay/sepay.provider.ts:66-68 | two bank notifications that share a dedupe key agree on id and amount text exactly when these texts have equally many colons, as amounts without any do |
| `PaymentTheorems.ColonsCollide` | apps/api/src/integrations/sepay/sepay.provider.ts:66-68 | two notifications, one with a colon in its amount text, that share a key |
| `Bookings.EarliestLimitIsMinimum` | apps/api/src/booking/booking.service.ts:255-261 | the limit that counts, computed as a running minimum where the code sorts and takes the first, is one of the parsed time limits and none is earlier; there is none exactly when no time limit parses |
| `Bookings.HeldBookingTerms` | apps/api/src/booking/booking.service.ts:87-94 | a stored hold's deadline keeps the payment buffer clear of every time limit and lies beyond the minimum payment window; a hold refused for its window had a time limit too close |
| `Bookings.HeldBookingIff` | apps/api/src/booking/booking.service.ts:81-94 | exactly when a hold is refused for its payment window, and the end of the hold, deadline and record locators of one that is stored; without any time limit the hold ends some hours from now or three hours before departure |
| `Bookings.HeldAtTheRulesPrice` | apps/api/src/booking/booking.service.ts:135-137 | a stored hold costs the net price and the amount that the first applying markup rule asks, and its markup is the difference |
| `PaymentServices.BookingService.PersistHeldBooking` | apps/api/src/booking/booking.service.ts:67-216 | adds exactly one HELD booking on those terms, at the price the markup rules ask, or refuses and changes nothing |
| `PaymentServices.SepayService.GenerateProviderOrderCode` | apps/api/src/payment/sepay.service.ts:425-446 | the loop returns the first of eight drawn codes that no intent has, or none when all are taken |
| `PaymentServices.SepayService.ReplaceIntent` | apps/api/src/payment/sepay.service.ts:114-166 | the transaction expires the booking's pending intents, stores the new one and moves the booking to PAYMENT_PENDING, or rolls back |
| `PaymentServices.SepayService.CreateIntentForBooking` | apps/api/src/payment/sepay.service.ts:88-187 | the class method equals the creation step of the model, error cases included |
| `PaymentServices.SepayService.HandleWebhook` | apps/api/src/payment/sepay.service.ts:196-412 | the class method equals the webhook step of the model; its answer is the one due for the notification and the booking, and the ledger row, payment and statuses are those of that answer |
| `PaymentAnswers.AnswerIff` | apps/api/src/payment/sepay.service.ts:199-411 | exactly when each of the eight answers is given, in terms of the notification, the intent with its code, and the booking's status, deadline and price |
| `PaymentAnswers.AnswerIsRecorded` | apps/api/src/payment/sepay.service.ts:218-385 | the one ledger row of each answer with its status, reason, code and intent; nothing but an accepted payment touches intents, payments or bookings |
| `PaymentAnswers.WrongAmountPaysNothing` | apps/api/src/payment/sepay.service.ts:304-346 | a transfer below the price of a payable booking is kept as PARTIAL, one above it as OVERPAID for review, and neither pays anything |
| `PaymentAnswers.QrIff` | apps/api/src/payment/sepay.service.ts:88-187 | exactly when a QR code is made for a booking and why otherwise not; the new intent has the booking's price, the first free code drawn and the configured time, and replaces the pending ones |
| `PaymentAnswers.CodesAgreeIff` | apps/api/src/payment/sepay.service.ts:429-431 | two draws give the same code exactly when they fall into one second and draw the same number |
| `Text.DecimalReadsBack` | apps/api/src/payment/sepay.service.ts:429-431 | the seconds in a code, in decimal digits, stand for themselves and have no zero in front |
| `PaymentServices.SepayService.CreateBankTransaction` | apps/api/src/payment/sepay.service.ts:360-369 | appends one ledger row |
| `PaymentServices.BookingLifecycleService.ExpireIntent` | apps/api/src/scheduler/booking-lifecycle.service.ts:26-76 | one row's transaction re-checks the intent, expires it, and returns its booking to HELD when no pending intent is left |
| `PaymentServices.BookingLifecycleService.ExpireBooking` | apps/api/src/scheduler/booking-lifecycle.service.ts:99-141 | one row's transaction re-checks that the booking is unpaid with its deadline behind, expires it with its pending intents |
| `PaymentServices.BookingLifecycleService.ExpireIntents` | apps/api/src/scheduler/booking-lifecycle.service.ts:9-80 | an uninterrupted pass expires exactly the PENDING intents whose time is up, returns to HELD exactly the bookings that lose their last pending intent, and counts the intents |
| `PaymentServices.BookingLifecycleService.ExpireBookings` | apps/api/src/scheduler/booking-lifecycle.service.ts:82-145 | an uninterrupted pass expires exactly the HELD and PAYMENT_PENDING bookings whose deadline lies behind, with their pending intents, and counts them |
| `PaymentServices.BookingLifecycleCron.RunEveryMinute` | apps/api/src/scheduler/booking-lifecycle.cron.ts:12-15 | both passes in turn, so that afterwards no pending intent and no unpaid booking is overdue; the counts are those of the rows expired |
| `PaymentServices.AdminBookingController.MarkTicketed` | apps/api/src/admin/admin-booking.controller.ts:63-163 | the loop over ticket numbers equals the ticketing step, rolled back when a record locator is unknown |
| `PaymentServices.AdminBookingController.MarkIssueFailed` | apps/api/src/admin/admin-booking.controller.ts:167-221 | leaves PAID for ISSUE_FAILED, and only PAID |
| `PaymentTickets.TicketsAreWritten` | apps/api/src/admin/admin-booking.controller.ts:99-114 | each record locator gets the trimmed number of the last ticket that names it and is otherwise left alone |
| `PaymentTickets.TicketsAreRefused` | apps/api/src/admin/admin-booking.controller.ts:99-105 | the first ticket that names no record locator of the booking refuses all of them |
| `PaymentTickets.TicketingIff` | apps/api/src/admin/admin-booking.controller.ts:71-123 | exactly when a booking is ticketed and why otherwise not; nothing else changes |
| `PaymentTickets.IssueFailedIff` | apps/api/src/admin/admin-booking.controller.ts:167-221 | exactly when a booking becomes ISSUE_FAILED and why otherwise not; nothing else changes |
| `PaymentExpiry.OverdueRowsAreASnapshot` | apps/api/src/scheduler/booking-lifecycle.service.ts:10-22 | the rows listed are the overdue ones, each once |
| `PaymentExpiry.SnapshotShrinks` | apps/api/src/scheduler/booking-lifecycle.service.ts:25-29 | visiting a listed row always moves it and makes no other row overdue or not overdue |
| `PaymentExpiry.UninterruptedPass` | apps/api/src/scheduler/booking-lifecycle.service.ts:24-80 | a pass over any listing order moves every listed row and leaves none overdue |
| `PaymentExpiry.BookingPassKeepsIntentsExpired` | apps/api/src/scheduler/booking-lifecycle.service.ts:118-126 | expiring bookings never makes an intent overdue again |
| `PaymentExpiry.PassIsARun` | apps/api/src/scheduler/booking-lifecycle.service.ts:24-80 | the loop's database and count are those of the interleaved model when nothing comes in between |
| `PaymentExpiry.CronListsIff` | apps/api/src/scheduler/booking-lifecycle.service.ts:10-22 | a cron starts with exactly the rows whose time is up by its clock, each once, in whatever order |
| `PaymentExpiry.BookingPass` | apps/api/src/scheduler/booking-lifecycle.service.ts:82-145 | whatever order the rows are listed in: exactly the HELD and PAYMENT_PENDING bookings with their deadline behind expire, with their pending intents, and the count is theirs |
| `PaymentExpiry.IntentPass` | apps/api/src/scheduler/booking-lifecycle.service.ts:9-80 | exactly the PENDING intents with their time behind expire, a PAYMENT_PENDING booking left without one is HELD again, and the count is the intents' |
| `PaymentExpiry.BookingExpiresIff` | apps/api/src/scheduler/booking-lifecycle.service.ts:99-116 | in any run, exactly which step expires a booking: a cron comes to it while it is unpaid and its deadline lies behind the cron's clock |
| `PaymentExpiry.PayableNeverExpires` | apps/api/src/scheduler/booking-lifecycle.service.ts:100-116 | no cron expires a booking that could still be paid at the cron's clock reading or later |
| `PaymentExpiry.IntentExpiresIff` | apps/api/src/scheduler/booking-lifecycle.service.ts:27-41 | in any run, exactly which steps expire an intent: a cron with its time behind, its booking's expiry, or another QR code for its booking |
| `PaymentServices.ExpiringKeepsCodes` | apps/api/src/payment/sepay.service.ts:115-127 | expiring intents within the transaction does not change which codes are free |
| `PaymentInvariants.CreateIntentKeepsInv` | apps/api/src/payment/sepay.service.ts:88-187 | QR creation keeps the whole payment invariant |
| `PaymentInvariants.WebhookKeepsInv` | apps/api/src/payment/sepay.service.ts:199-411 | so does every webhook |
| `PaymentInvariants.ExpireIntentRowKeepsInv` | apps/api/src/scheduler/booking-lifecycle.service.ts:26-76 | so does every row of the intent loop, whatever happened since it was listed |
| `PaymentInvariants.ExpireBookingRowKeepsInv` | apps/api/src/scheduler/booking-lifecycle.service.ts:99-141 | so does every row of the booking loop |
| `PaymentInvariants.MarkTicketedKeepsInv` | apps/api/src/admin/admin-booking.controller.ts:99-123 | so does ticketing, which keeps locators and time limits |
| `PaymentRuns.StepSucceeds` | apps/api/src/payment/sepay.service.ts:378-385 | every step keeps all rows and agreed terms, and moves a booking only along the allowed status changes |
| `PaymentRuns.RunKeepsInv` | apps/api/src/payment/sepay.service.ts:281-400 | the invariant holds along every interleaving of holds, QR creations, webhooks, overlapping crons and administrators |
| `PaymentRuns.OnePaymentIffSettled` | apps/api/src/payment/sepay.service.ts:281-400 | a booking that is PAID, TICKETED or ISSUE_FAILED has exactly one payment, of exactly its price; any other has none |
| `PaymentRuns.PendingIntentsByStatus` | apps/api/src/scheduler/booking-lifecycle.service.ts:43-58 | PAYMENT_PENDING means exactly one pending intent, a settled booking has at most one, a held or expired one none |
| `PaymentTheorems.RunKeepsBooking` | apps/api/src/scheduler/booking-lifecycle.service.ts:100-116 | along any run a settled booking stays settled, an expired one expired, and the terms of the hold never change |
| `PaymentTheorems.AcceptedInTimeForTheAgreedPrice` | apps/api/src/booking/booking.service.ts:87-94 | a payment is accepted only strictly before every time limit less the buffer, and only for net price plus markup |
| `PaymentPrices.AcceptedForTheRulesPrice` | apps/api/src/booking/booking.service.ts:118-137 | in every run: the amount of an accepted payment is what the markup rules asked at one of the run's holds, the net price then and the amount of the rule that applied first |
| `PaymentPrices.RunOrigins` | apps/api/src/booking/booking.service.ts:118-137 | every booking stored in a run is on the terms, price included, of one of the run's holds |
| `PaymentTheorems.FindCodeIsTheIntent` | apps/api/src/payment/sepay.service.ts:253-261 | codes of stored intents are pairwise distinct, so a memo names at most one intent |
| `PaymentTheorems.AcceptedIff` | apps/api/src/payment/sepay.service.ts:200-326 | exactly which notifications pay a given intent |
| `PaymentTheorems.PayingTheQrSettlesTheBooking` | apps/api/src/payment/sepay.service.ts:128-140 | transferring the QR's amount with its text anywhere in the memo makes a payable booking PAID, whatever the intent's status |
| `PaymentTheorems.PayingAnExpiredIntentLeavesTheNewerPending` | apps/api/src/payment/sepay.service.ts:281-385 | the webhook looks at the booking only: an expired intent can be paid while the newer one stays pending |
| `PaymentTwoCodes.FirstCodeIsPaid` | apps/api/src/payment/sepay.service.ts:114-166 | a run from empty tables in which a customer asks for two QR codes and pays the first: it is PAID, the second PENDING, the booking PAID |
| `PaymentTheorems.RunCodesLong` | apps/api/src/payment/sepay.service.ts:429-431 | every code issued has the six digits the memo pattern needs |
| `PaymentTheorems.OneLedgerRowPerKey` | apps/api/src/payment/sepay.service.ts:200-211 | after any run the ledger has exactly one row for each distinct key delivered |
| `PaymentTheorems.MoneyIsConserved` | apps/api/src/payment/sepay.service.ts:348-385 | matched bank money, recorded payments and settled prices always sum to the same |
| `PaymentTheorems.RedeliveriesChangeNothing` | apps/api/src/payment/sepay.service.ts:201-211 | removing all re-deliveries from any run leaves its final state unchanged |
| `PaymentTheorems.CronCountsAddUp` | apps/api/src/scheduler/booking-lifecycle.service.ts:24-79 | the counts of all overlapping intent loops sum to the number of intents they moved, none twice |
| `PaymentTheorems.MovedByCronExactly` | apps/api/src/scheduler/booking-lifecycle.service.ts:27-41 | an intent counts as moved exactly in the step that takes it from PENDING to EXPIRED in such a loop |
| `Markup.SortRulesIsStableSort` | apps/api/src/pricing/markup-engine.ts:44-52 | the sort is an ordered permutation that keeps ties in listed order |
| `Markup.ChosenRuleIsBest` | apps/api/src/pricing/markup-engine.ts:26-28 | filter, sort and take-first equals one scan for highest priority, then oldest, then first listed |
| `Markup.ChoiceIsTheScan` | apps/api/src/pricing/markup-engine.ts:26-28 | the rule such a scan stops at is the one charged |
| `Markup.MatchesIff` | apps/api/src/pricing/markup-engine.ts:54-68 | exactly when a rule applies: active, valid at the time, and each scope blank or the same text as the offer's but for case and outer spaces, for routes that of the airport |
| `Text.TrimTrims` | apps/api/src/pricing/markup-engine.ts:158-161 | trimming takes the spaces off both ends of a text and nothing else |
| `Text.UpperIsUpperCase` | apps/api/src/pricing/markup-engine.ts:158-161 | upper case exchanges the small ASCII letters for the capitals and nothing else |
| `Markup.PriceIsWhatTheRulesAsk` | apps/api/src/pricing/markup-engine.ts:21-42 | the computed price is the net price and what the first rule in precedence asks, or the net price if none applies; refused exactly when that rule is negative |
| `Markup.AmountIff` | apps/api/src/pricing/markup-engine.ts:70-88 | a fixed rule asks its value, a percentage rule the nearest whole amount, halves up, lowered to the cap and then raised to the floor |
| `Markup.IrrelevantRuleChangesNothing` | apps/api/src/pricing/markup-engine.ts:54-68 | inserting a rule that does not match, anywhere, changes no price |
| `Markup.PercentWithinHalfDong` | apps/api/src/pricing/markup-engine.ts:79 | an unclamped percent markup is within half a dong of the exact share, ties going up |
| `Markup.PercentWithinBounds` | apps/api/src/pricing/markup-engine.ts:80-85 | cap and floor bound the amount; a floor above the cap wins |
| `Markup.SellPriceStrictlyIncreasing` | apps/api/src/pricing/markup-engine.ts:21-42 | for fixed rules a dearer net fare is sold strictly dearer |
| `SessionPool.NoSessionHeldTwice` | apps/api/src/integrations/muadi/muadi-session-pool.service.ts:139-146 | from a pool at rest, whatever interleaves: no session has two holders, and a session is busy exactly when it has one |
| `SessionPool.RunKeepsExclusive` | apps/api/src/integrations/muadi/muadi-session-pool.service.ts:74-146 | the counting form of that invariant is kept by every step of both acquire paths, releases, trips and reactivation |
| `SessionRows.StateChangesBy` | apps/api/src/integrations/muadi/muadi-session-pool.service.ts:74-146 | exactly which steps take a session, give it back, take it out and bring it back |
| `SessionRows.CountersChangeBy` | apps/api/src/integrations/muadi/muadi-session-pool.service.ts:74-130 | exactly which steps count a failure of a session or forget them, mark it as used, and stamp it |
| `SessionRows.RowsAreAddedBy` | apps/api/src/integrations/muadi/muadi-client.service.ts:84-115 | exactly which step adds a session, and how: the login of an account whose label no row has |
| `SessionRows.LoginsChangeBy` | apps/api/src/integrations/muadi/muadi-client.service.ts:84-115 | exactly which steps begin and finish a holder's logins |
| `SessionRows.AcquirerGoesOn` | apps/api/src/integrations/muadi/muadi-session-pool.service.ts:29-67 | where a user goes who does not hold a session yet: a hunter on only above the reserve, whoever picked a session to it only if it is still free |
| `SessionRows.HolderGoesOn` | apps/api/src/integrations/muadi/muadi-session-pool.service.ts:74-97 | where a holder goes: to the breaker exactly when its release failed and the session has failed often enough |
| `SessionRows.ChoiceIff` | apps/api/src/integrations/muadi/muadi-session-pool.service.ts:132-137 | exactly which sessions may be picked: free, and none free was used earlier, one never used coming last |
| `SessionPool.TrippedWhileHeld` | apps/api/src/integrations/muadi/muadi-session-pool.service.ts:83-92 | a run in which the breaker deactivates a session that somebody else holds by then |
| `SessionPool.InactiveAreFreeUntil` | apps/api/src/integrations/muadi/muadi-session-pool.service.ts:83-92 | exactly which steps leave an inactive session in somebody's hands |
| `SessionPool.InactiveRowChangesIff` | apps/api/src/integrations/muadi/muadi-session-pool.service.ts:103-107 | exactly which steps write to the row of an inactive session: its reactivation, a trip by a user that failed on it, any write or release by a user that still holds it, and a login, for whatever session, whose account the row is labelled with |
| `SessionStandstill.StandsStillIff` | apps/api/src/integrations/muadi/muadi-session-pool.service.ts:103-107 | at any time in any run from a pool at rest: that row stands still until its reactivation, whatever happens, exactly when nobody holds the session, trips it or is logging in under its label, and no other session of that account is active, held, or able to come back first |
| `SessionStandstill.LoggedInWhileOut` | apps/api/src/integrations/muadi/muadi-client.service.ts:84-115 | a run in which the login of another session of the account sets a session that is out active, without any reactivation |
| `SessionStandstill.RunKeepsNames` | apps/api/prisma/schema.prisma:713 | labels stay distinct, the row a login adds included |
| `SessionStandstill.AccountsOnlyLeave` | apps/api/src/integrations/muadi/muadi-client.service.ts:86-115 | no step makes another session one of the account under whose label a session is stored: logins only move accounts to the row labelled with them |
| `SessionPool.TrippedTwice` | apps/api/src/integrations/muadi/muadi-session-pool.service.ts:83-92 | a run in which a second trip moves the stamp of a session that is already out and that nobody holds |
| `SessionReserve.ReserveBound` | apps/api/src/integrations/muadi/muadi-session-pool.service.ts:47-67 | hunters alone (runs without a real-time lock or a breaker trip): with at most k of them between count and lock, free sessions never drop below the lesser of what was free and reserved + 1 - k |
| `SessionReserve.ReserveBoundAttained` | apps/api/src/integrations/muadi/muadi-session-pool.service.ts:49-61 | hunters alone: for every k that bound is reached by a run |
| `SessionReserve.PromiseKeptIff` | apps/api/src/integrations/muadi/muadi-session-pool.service.ts:9-14 | hunters alone: the reserve stays free at all times exactly when at most one hunter is between count and lock or nothing is reserved |
| `SessionPromise.HunterLeaves` | apps/api/src/integrations/muadi/muadi-session-pool.service.ts:47-67 | with everybody at work: at its lock a hunter leaves free at least the reserve less the sessions taken, by anybody's lock or by a trip, since its count |
| `SessionPromise.HunterLeavesAttained` | apps/api/src/integrations/muadi/muadi-session-pool.service.ts:47-67 | for every k up to the reserve, a run in which one hunter among k real-time users leaves exactly k fewer than the reserve |
| `SessionPromise.ReserveLeftIff` | apps/api/src/integrations/muadi/muadi-session-pool.service.ts:9-14 | the documented reserve is left at every hunter's lock exactly when no session is taken between its count and its lock, or nothing is reserved |
| `SessionRotation.RoundRobin` | apps/api/src/integrations/muadi/muadi-session-pool.service.ts:132-146 | successive acquire and release rounds pick the sessions cyclically, even if the holder stamps its session again |
| `SessionRotation.RotationVisitsEverySession` | apps/api/src/integrations/muadi/muadi-session-pool.service.ts:132-146 | with distinct stamps every n rounds in a row visit each of the n free sessions once, and the order repeats |
| `SessionPoolService.MuadiSessionPoolService.FindFreeSession` | apps/api/src/integrations/muadi/muadi-session-pool.service.ts:132-137 | returns a free session such that no free one was used before it, or none when none is free |
| `SessionPoolService.MuadiSessionPoolService.Lock` | apps/api/src/integrations/muadi/muadi-session-pool.service.ts:139-146 | marks the row busy if it was free, and says whether it did |
| `SessionPoolService.MuadiSessionPoolService.AcquireForRealtime` | apps/api/src/integrations/muadi/muadi-session-pool.service.ts:29-41 | succeeds exactly when a session is free, even the last one |
| `SessionPoolService.MuadiSessionPoolService.AcquireForHunter` | apps/api/src/integrations/muadi/muadi-session-pool.service.ts:47-67 | uninterrupted, succeeds exactly when more than the reserve is free, and leaves the reserve free |
| `SessionPoolService.MuadiSessionPoolService.Release` | apps/api/src/integrations/muadi/muadi-session-pool.service.ts:74-97 | frees the session, resets or raises its failures, and trips the breaker at the threshold |
| `SessionPoolService.ReleasedIff` | apps/api/src/integrations/muadi/muadi-session-pool.service.ts:74-97 | the row a release leaves, column by column, and when it is out |
| `SessionPoolService.MuadiSessionPoolService.ReactivateStale` | apps/api/src/integrations/muadi/muadi-session-pool.service.ts:108-130 | reactivates exactly the sessions out for the cooldown, leaves `busy` alone, and counts them |
| `SessionPoolService.HunterAcquiresAsARun` | apps/api/src/integrations/muadi/muadi-session-pool.service.ts:47-67 | an undisturbed hunter's three calls in the interleaved model do what the class method does |
| `SessionPoolService.RealtimeAcquiresAsARun` | apps/api/src/integrations/muadi/muadi-session-pool.service.ts:29-41 | so do the two calls of a real-time user |
| `SessionPoolService.FailedReleaseAsARun` | apps/api/src/integrations/muadi/muadi-session-pool.service.ts:83-96 | so do the two updates of a failed release |
| `SessionPoolService.SearchWithSession` | apps/api/src/integrations/muadi/real-muadi.provider.ts:68-161 | acquire, any number of writes by the API client, release in `finally`: the table is what these make of it; only the acquired row and the one labelled with its account change, a missing one is added, and no session stays busy, whether or not the work succeeds |
| `SessionReserve.LoginKeepsFree` | apps/api/src/integrations/muadi/muadi-client.service.ts:86-115 | a login, whichever row it is stored in, never lowers the number of free sessions |
| `HuntScheduler.HuntingIsAlwaysScheduled` | apps/api/src/hunt/hunter-run.service.ts:41-60 | if only harmless calls fail, then in every interleaving, whenever a hunt is HUNTING, a scan of it is waiting, running or about to be enqueued, or the hunt is about to be deleted |
| `HuntScheduler.LosesTheScanIff` | apps/api/src/hunt/hunter-run.service.ts:41-60 | exactly which step loses the scan of a hunting hunt: the rejected job of a resume, of a postponed scan or after a failed one, a failed first read, a failed write in the failure handling, or a failed deletion, when no other scan is waiting or on its way |
| `HuntScheduler.RunKeepsScheduled` | apps/api/src/hunt/hunter-run.service.ts:170-180 | the invariant behind it, kept along every such run from any state that satisfies it |
| `HuntScheduler.ProcStepKeepsTheScan` | apps/api/src/hunt/hunt.service.ts:215-225 | a step that leaves the hunt HUNTING does not lose the scan its process stands for |
| `HuntRows.StatusChangesBy` | apps/api/src/hunt/hunter-run.service.ts:195-262 | in any run, exactly which steps change the status of a hunt, and to what |
| `HuntRows.CountersChangeBy` | apps/api/src/hunt/hunter-run.service.ts:183-262 | exactly which steps change scan count, holds used, failure streak and target price; a failure continues the streak its scan read |
| `HuntRows.AutoHoldChangesBy` | apps/api/src/hunt/hunt.service.ts:187-211 | exactly how updates change the details of auto-hold, which nothing else changes |
| `HuntRows.DecisionIff` | apps/api/src/hunt/hunter-run.service.ts:147-168 | exactly when a scan asks for a booking, announces the offer or goes on: by the target price and the hunt as it read it |
| `HuntRows.RefusedIff` | apps/api/src/hunt/hunt.service.ts:187-192 | exactly which updates are refused for want of details |
| `HuntRows.NewHuntIff` | apps/api/src/hunt/hunt.service.ts:73-100 | the row of a new hunt, column by column |
| `HuntStranded.RejectedResumeStrands` | apps/api/src/hunt/hunt.service.ts:217-225 | a run in which the rejected job of a resume leaves a HUNTING hunt with no scan |
| `HuntStranded.RejectedPostponementStrands` | apps/api/src/hunt/hunter-run.service.ts:53-57 | a run in which the rejected job of a scan postponed for lack of a session does |
| `HuntStranded.RejectedRetryStrands` | apps/api/src/hunt/hunter-run.service.ts:257-261 | a run in which the rejected job after a failed scan does |
| `HuntStranded.FailedReadStrands` | apps/api/src/hunt/hunter-run.service.ts:42 | a run in which the failing first read of a scan does |
| `HuntStranded.FailedHandlerStrands` | apps/api/src/hunt/hunter-run.service.ts:222-260 | a run in which a failing write in the failure handling does |
| `HuntStranded.FailedDeletionStrands` | apps/api/src/hunt/hunt.service.ts:103-110 | a run in which the first job is rejected and the deletion of the new hunt fails too |
| `HuntStranded.AlwaysScheduledIff` | apps/api/src/hunt/hunter-run.service.ts:41-60 | for every set of failures that may happen: a hunting hunt always has a scan coming, or is being deleted, exactly when no job of a resume, a postponed scan or after a failed scan can be rejected, no first read and no failure handling can fail, and not both the first job can be rejected and the deletion fail |
| `HuntStranded.StrandedStays` | apps/api/src/hunt/hunt.service.ts:217-225 | nothing but the owner ever changes such a hunt |
| `HuntTheorems.CancelledIsFinal` | apps/api/src/hunt/hunt.service.ts:238-257 | a cancellation that overlaps no process able to revive the hunt is final in every run |
| `HuntTheorems.StaysCancelledIff` | apps/api/src/hunt/hunter-run.service.ts:41-60 | at any time in the life of a cancelled hunt, it stays cancelled whatever happens exactly when no process in progress can revive it |
| `HuntTheorems.RevivingRevives` | apps/api/src/hunt/hunter-run.service.ts:183-262 | how each kind of such process revives it |
| `HuntTheorems.CancelledHuntIsFound` | apps/api/src/hunt/hunter-run.service.ts:195-197 | a run in which the owner cancels a hunt and the scan under way turns it to FOUND |
| `HuntTheorems.LeavesCancelledIff` | apps/api/src/hunt/hunter-run.service.ts:195-212 | the single writes that take a hunt out of CANCELLED |
| `HuntTheorems.AutoHoldBound` | apps/api/src/hunt/auto-hold.service.ts:45-105 | with at most n scans overlapping, the bookings made exceed the hunt's maximum by at most n - 1 and those whose count was lost |
| `HuntTheorems.HoldsAreAccounted` | apps/api/src/hunt/auto-hold.service.ts:64-105 | in every run each booking made is counted in the row, about to be, or lost by an error between booking and counting |
| `HuntOverlap.AutoHoldBoundAttained` | apps/api/src/hunt/auto-hold.service.ts:45-105 | for every n, a run in which n overlapping scans make n bookings, all counted, where one is allowed |
| `HuntOverlap.UncountedBookingIsRepeated` | apps/api/src/hunt/auto-hold.service.ts:96-105 | a run, one scan after the other, in which a booking whose count is lost is followed by a second one where one is allowed |
| `HuntOverlap.MaximumKeptIff` | apps/api/src/hunt/auto-hold.service.ts:45-105 | the maximum is respected by the bookings made exactly when scans do not overlap and no booking's count is lost (or nothing is scanned) |
| `HuntChains.ChainsAreAdded` | apps/api/src/hunt/hunter-run.service.ts:178-180 | in every run, waiting jobs and scans at work are at most one and the resumes, on-demand scans and lost queue answers there were |
| `HuntChains.ChainsAttained` | apps/api/src/hunt/hunt.service.ts:259-280 | for every number of additions a run that reaches that bound |
| `HuntChains.OneChainIff` | apps/api/src/hunt/hunter-run.service.ts:178-180 | a hunt has one scan at a time, waiting or running, exactly when nothing was added |
| `HuntChains.PauseAndResumeDoublesTheScans` | apps/api/src/hunt/hunt.service.ts:165-225 | a run in which a pause and a resume during a scan leave two scans waiting |
| `HuntChains.ScanReplacesItself` | apps/api/src/hunt/hunter-run.service.ts:178-180 | a waiting scan that finds nothing leaves as many waiting as there were, so extra scans do not go away |
| `HuntServices.ScanOnceIsARun` | apps/api/src/hunt/hunter-run.service.ts:41-60 | an undisturbed scan, whatever it meets, is one particular run of the interleaved model |
| `HuntServices.ScanOnceReschedules` | apps/api/src/hunt/hunter-run.service.ts:170-180 | it queues exactly one next scan if the hunt goes on, none otherwise |
| `HuntServices.ScanIff` | apps/api/src/hunt/hunter-run.service.ts:41-181 | exactly what a whole scan does to status, streak, counters and queue, whatever it meets |
| `HuntServices.UpdateIsARun` | apps/api/src/hunt/hunt.service.ts:159-236 | a request that has read the hunt and is not disturbed any more is one particular run of the interleaved model |
| `HuntServices.UpdateIff` | apps/api/src/hunt/hunt.service.ts:159-225 | exactly what an undisturbed update does to status and queue: a scan is queued when it takes the hunt back to HUNTING and the queue accepts |
| `HuntServices.FiveFailuresPause` | apps/api/src/hunt/hunter-run.service.ts:233-261 | failing scans keep the hunt going up to the fifth in a row, which pauses it; no failing scan runs after that |
| `HuntServices.HunterRunService.Run` | apps/api/src/hunt/hunter-run.service.ts:41-60 | row and queue after a scan are those of the scan as one step |
| `HuntServices.HunterRunService.HandleFailure` | apps/api/src/hunt/hunter-run.service.ts:215-262 | pauses at the failure threshold, otherwise raises the streak and queues the next scan |
| `HuntServices.HunterRunService.UpdateHuntAfterRun` | apps/api/src/hunt/hunter-run.service.ts:183-213 | clears the streak, counts the scan, and writes the status only when it differs from the snapshot's |
| `HuntServices.AutoHoldService.Execute` | apps/api/src/hunt/auto-hold.service.ts:41-111 | holds exactly when enabled, below the maximum, with an adult, a phone number and an address, below the customer's limit and accepted, then pauses the hunt and counts the hold; otherwise gives the first reason that applies and changes nothing |
| `HuntServices.AutoHoldService.ReachedConcurrency` | apps/api/src/hunt/auto-hold.service.ts:122-142 | counts the auto-held bookings that are still HELD against the limit; none at all never reaches it |
| `HuntServices.HunterRunService.EnqueueNext` | apps/api/src/hunt/hunter-run.service.ts:347-353 | adds one scan job |
| `HuntServices.HuntService.Create` | apps/api/src/hunt/hunt.service.ts:50-110 | a HUNTING row with one job, or no row at all: incomplete auto-hold details, too many hunts, or no job; with neither job nor deletion the row stays |
| `HuntServices.HuntService.Update` | apps/api/src/hunt/hunt.service.ts:159-236 | status, target price and auto-hold settings after a pause, a resume or an edit; refused without the details auto-hold needs; a rejected job is swallowed |
| `HuntServices.UpdateKeepsAutoHoldComplete` | apps/api/src/hunt/hunt.service.ts:192-213 | switching auto-hold on leaves it complete, switching it off keeps the details, and nothing else switches it |
| `HuntServices.HuntService.Cancel` | apps/api/src/hunt/hunt.service.ts:238-257 | an existing hunt is CANCELLED afterwards |
| `HuntServices.HuntService.RunNow` | apps/api/src/hunt/hunt.service.ts:259-280 | adds one job exactly when the hunt is HUNTING, the lock was free and the queue accepts |
| `HunterDiff.CompareHuntResults` | apps/api/src/hunt/hunter-diff.ts:38-114 | the loops over map and set count new and removed flights, drops and rises, seats, and judge target and historical low, for lists with repeated keys too |
| `HunterDiff.IndexByKey` | apps/api/src/hunt/hunter-diff.ts:46-49 | the map holds, under each key, the last item with it |
| `HunterDiff.MatchAgainst` | apps/api/src/hunt/hunter-diff.ts:51-73 | the loop's counters and lists are those of the whole current list |
| `HunterDiff.CountRemoved` | apps/api/src/hunt/hunter-diff.ts:75-80 | the loop over the map's keys counts the keys gone |
| `HunterDiff.CountSeats` | apps/api/src/hunt/hunter-diff.ts:82-93 | sold-out and low-seat counts, unknown seats counting as neither |
| `HunterDiff.CheapestBookablePrice` | apps/api/src/hunt/hunter-diff.ts:125-137 | the loop finds the price of the offer that `pickCheapestBookable` picks, or none |
| `HunterDiff.JudgePrices` | apps/api/src/hunt/hunter-diff.ts:95-103 | the target is hit exactly when the offer that would be picked exists and is at or below it |
| `HunterDiff.PickIsCheapest` | apps/api/src/hunt/hunter-run.service.ts:401-412 | the pick is a bookable offer of least price, and missing only when nothing is bookable |
| `HunterDiff.PickIsFirst` | apps/api/src/hunt/hunter-run.service.ts:409-411 | of equally cheap offers the first listed is picked |
| `HunterDiff.PercentIff` | apps/api/src/hunt/hunter-diff.ts:66-73 | the percentage of a price is exact and of the previous price; there is none of a price of zero |
| `HunterDiff.MovesInPercent` | apps/api/src/hunt/hunter-diff.ts:54-74 | an item counts with how far its price moved, in percent of what it cost before, exactly when it moved in that direction |
| `HunterDiff.NothingMovedIff` | apps/api/src/hunt/hunter-diff.ts:139-146 | the list of movements is empty exactly when no price moved in that direction, and its average is then zero |
| `HunterDiff.KeysDistinct` | apps/api/src/hunt/hunter-diff.ts:116-118 | items with one key agree in flight number and departure time exactly when the numbers are equally long, as they are unless one contains a bar |
| `HunterDiff.FlightsAreConserved` | apps/api/src/hunt/hunter-diff.ts:51-80 | with distinct keys, new + matched is the current list and removed + matched the previous one |
| `HunterDiff.SwapSwaps` | apps/api/src/hunt/hunter-diff.ts:66-80 | comparing the other way round swaps new with removed and drops with rises |
| `HunterDiff.DropsArePercentages` | apps/api/src/hunt/hunter-diff.ts:68-69 | with positive prices the average drop lies in 0..100 |
| `HunterDiff.UnboundedIff` | apps/api/src/hunt/hunter-diff.ts:66-72 | an average is infinite exactly when a flight that changed in that direction cost nothing before |
| `HunterDiff.ChangesAreFew` | apps/api/src/hunt/hunter-diff.ts:60-72 | no current flight is counted as more than one of new, dearer and cheaper |
| `HunterDiff.AverageBounds` | apps/api/src/hunt/hunter-diff.ts:139-146 | the rounded average is within a half of the mean and within whole bounds of the values |
| `HoldIdempotency.HeldAtMostOnce` | apps/api/src/booking/booking.controller.ts:59-88 | while the entry lives and responses can be stored, under all interleavings and all other Redis failures: at most one request in flight, at most one successful hold, and every answer is that hold's |
| `HoldIdempotency.AlwaysOnceIff` | apps/api/src/booking/booking.controller.ts:72-87 | at most one hold succeeds in every run exactly when the entry cannot expire and storing a response cannot fail |
| `HoldIdempotency.SeatsOnceIff` | apps/api/src/booking/booking.controller.ts:72-87 | the airline holds seats at most once in every run exactly when, besides, the booking service cannot fail after they are held |
| `HoldIdempotency.SeatsAreHolds` | apps/api/src/booking/booking.service.ts:57-64 | unless the service fails that late, seats are held exactly by the successful holds |
| `HoldIdempotency.LateFailureHoldsTwice` | apps/api/src/booking/booking.service.ts:57-94 | a run in which such a failure, cleared like any other, lets a retry hold seats again |
| `HoldIdempotency.ExpiryHoldsTwice` | apps/api/src/booking/booking.controller.ts:168-176 | a run in which the five-minute expiry lets a retry hold again |
| `HoldIdempotency.FailedStoreHoldsTwice` | apps/api/src/booking/booking.controller.ts:78-87 | a run in which a failing store after a successful hold does |
| `HoldIdempotency.AbandonedBlocks` | apps/api/src/booking/booking.controller.ts:197-203 | when clearing fails after a failed hold, no request with that key ever holds until the entry expires |
| `HoldIdempotency.FreeEntryLetsTheNextRequestHold` | apps/api/src/booking/booking.controller.ts:84-86 | once a failed hold is cleared, the next request can hold |
| `HoldIdempotency.TakenEntryAnswers` | apps/api/src/booking/booking.controller.ts:59-69 | a request that finds a stored response is answered with it, one that finds a reservation is refused as in progress; nothing else changes |
| `HoldIdempotency.CallsComeInOrder` | apps/api/src/booking/booking.controller.ts:59-88 | a request makes its Redis calls and its hold in the order of the code, and no other |
| `HoldIdempotency.StoredAnswersAll` | apps/api/src/booking/booking.controller.ts:59-69 | from a stored response on, whatever happens before it expires: it stays, no seats are held, and whoever arrives is answered with it unless Redis fails for them |
| `HoldIdempotency.EveryRetryIsAnswered` | apps/api/src/booking/booking.controller.ts:59-83 | once a request has been answered, every later one gets the same answer, in every run before the entry expires |
| `HoldController.CacheKeysDistinct` | apps/api/src/booking/booking.controller.ts:59 | two users, or two trimmed keys, never share an entry |
| `HoldController.OutcomeIsARun` | apps/api/src/booking/booking.controller.ts:59-88 | an undisturbed request, whatever its calls meet, is one particular run of the interleaved model |
| `HoldController.OutcomeIff` | apps/api/src/booking/booking.controller.ts:59-88 | exactly when an undisturbed request gets each answer, holds seats, and leaves what in its entry |
| `HoldController.RedisService.SetNx` | apps/api/src/integrations/redis/redis.service.ts:57-75 | sets the entry, with its time to live, only if none is alive, and says which, unless its answer is lost |
| `HoldController.RedisService.Set` | apps/api/src/integrations/redis/redis.service.ts:47-55 | overwrites the entry and its time to live unless the call never ran |
| `HoldController.RedisService.Del` | apps/api/src/integrations/redis/redis.service.ts:77-85 | removes the entry unless the call never ran |
| `HoldController.BookingController.Hold` | apps/api/src/booking/booking.controller.ts:49-88 | answer, entry with its five minutes, and holds made of a whole request, other entries untouched: a live stored response is the answer, a live reservation refuses; a blank key changes nothing |
| `RefreshTokens.EachTokenExchangedOnce` | apps/api/src/auth/refresh-token.service.ts:71-92 | however rotations interleave, no two tokens replace the same one |
| `RefreshTokens.OneLiveTokenPerSignIn` | apps/api/src/auth/refresh-token.service.ts:71-92 | a sign-in has at most one live token, and none while a rotation is about to create one |
| `RefreshTokens.RunKeepsInv` | apps/api/src/auth/refresh-token.service.ts:71-98 | the counting invariants behind both, kept along every run |
| `RefreshTokens.FamilyHasOneUser` | apps/api/src/auth/refresh-token.service.ts:87-92 | every token descended from a sign-in belongs to its user |
| `RefreshTokens.EndedIsFinal` | apps/api/src/auth/refresh-token.service.ts:52-54 | a sign-in without live token and without rotation in progress never comes back |
| `RefreshTokens.RevokeUserEndsIff` | apps/api/src/admin/admin-user.controller.ts:99-103 | blocking a user ends a sign-in exactly when no rotation of it stands between revoking and creating |
| `RefreshTokens.BlockedUserKeepsToken` | apps/api/src/admin/admin-user.controller.ts:99-103 | a run in which a blocked user is left with a live token |
| `RefreshTokens.VerdictIff` | apps/api/src/auth/refresh-token.service.ts:41-62 | exactly which presented tokens are accepted, and for which reason each other one is not |
| `RefreshTokens.OnlyTheSecretRotates` | apps/api/src/auth/refresh-token.service.ts:56-92 | in every run, whatever rotation gets past the verification was presented the secret of the row it exchanges |
| `RefreshTokens.RevokedForGood` | apps/api/src/auth/refresh-token.service.ts:52-69 | a revoked token is refused in every later state |
| `RefreshBlocking.BlockingKeepsOutIff` | apps/api/src/admin/admin-user.controller.ts:93-105 | after any history: blocking a user leaves the user without a live token until unblocked, whatever happens, exactly when no sign-in of the user has been let in and no rotation of the user's stands between revoking and creating |
| `RefreshBlocking.LateSignInSurvivesTheBlock` | apps/api/src/auth/auth.service.ts:103-128 | a run in which a sign-in that found its user not blocked creates a live token after the block |
| `RefreshBlocking.OutIsFinal` | apps/api/src/auth/auth.service.ts:124-128 | a blocked user without such a call in progress and without a live token never gets one until unblocked |
| `RefreshBlocking.GateChangesBy` | apps/api/src/admin/admin-user.controller.ts:93-105 | exactly which events block a user and let the user's sign-ins in: blocking holds until lifted, and a sign-in let in creates one live token |
| `RefreshClient.SingleFlight` | apps/web/src/lib/api/client.ts:60-71 | one tab, any number of concurrent 401s: at most one refresh unfinished, and none refused except by expiry |
| `RefreshClient.RefreshPresentsTheLiveToken` | apps/web/src/lib/api/client.ts:46-58 | every refresh the tab starts presents the live token of its sign-in, error replies or not |
| `RefreshClient.NoCallIsLost` | apps/web/src/lib/api/client.ts:73-77 | every call with a 401 is waiting, was sent again, or was given up, however many tabs there are |
| `RefreshTabs.StoredChangesBy` | apps/web/src/lib/api/client.ts:45-71 | exactly which events change the stored token, and to what |
| `RefreshTabs.CallsChangeBy` | apps/web/src/lib/api/client.ts:60-77 | what becomes of calls with a 401: they wait while there is a refresh to wait for, are all sent again with new tokens, and are all given up otherwise |
| `RefreshTabs.FlightChangesBy` | apps/web/src/lib/api/client.ts:60-71 | exactly when a tab starts a refresh, with which token, and when that is over |
| `RefreshTabs.LoadChangesBy` | apps/web/src/stores/auth.ts:36-49 | the course of a page load through its call, a 401, the refresh and the repetition |
| `RefreshTabs.NothingElseReachesTheServer` | apps/web/src/lib/api/client.ts:45-58 | a tab reaches the server with the refreshes it starts and in no other way |
| `RefreshClient.TwoTabsSignOut` | apps/web/src/lib/api/client.ts:46-53 | a run in which two tabs present the shared token and the user ends up signed out |
| `RefreshClient.LostReplyIsRefused` | apps/web/src/lib/api/client.ts:46-53 | a run in which a lost reply makes the next refresh fail |
| `RefreshClient.NeverRefusedEarlyIff` | apps/web/src/lib/api/client.ts:60-71 | no refusal but expiry ever reaches a tab exactly when one tab is open and no reply is lost (or no tab is open), error replies or not |
| `RefreshClient.ErrorReplyDropsLiveToken` | apps/web/src/lib/api/client.ts:50-53 | a run with one tab and nothing lost in which an error reply drops a live token |
| `RefreshClient.PageLoadDropsLiveToken` | apps/web/src/stores/auth.ts:41-48 | a run with one tab and no refresh at all in which the failing call of a page load drops a live token |
| `RefreshClient.LostReplyAtLoadDropsLiveToken` | apps/web/src/stores/auth.ts:41-48 | a run in which a lost reply to the refresh a page load asked for does |
| `RefreshClient.SessionKeptIff` | apps/web/src/stores/auth.ts:31-49 | a browser loses its session by signing out or by expiry only, exactly when one tab is open, no reply to a refresh is lost or an error, and no page load's call fails (or no tab is open) |
| `RefreshServices.RefreshTokenService.Generate` | apps/api/src/auth/refresh-token.service.ts:16-39 | appends one live token with the full lifetime and returns it |
| `RefreshServices.RefreshTokenService.Verify` | apps/api/src/auth/refresh-token.service.ts:41-62 | accepts exactly the unrevoked, unexpired tokens whose secret matches |
| `RefreshServices.RefreshTokenService.Revoke` | apps/api/src/auth/refresh-token.service.ts:64-69 | revokes one row |
| `RefreshServices.RefreshTokenService.RevokeIfLive` | apps/api/src/auth/refresh-token.service.ts:73-81 | the conditional update: one row if it was live, otherwise none |
| `RefreshServices.RefreshTokenService.Rotate` | apps/api/src/auth/refresh-token.service.ts:71-98 | table and answer of a whole rotation; it succeeds exactly for a row that is live with its own secret, and changes nothing otherwise |
| `RefreshServices.RotateOnceIsARun` | apps/api/src/auth/refresh-token.service.ts:71-98 | an undisturbed rotation is one particular run of the interleaved model |
| `RefreshServices.RotatesIff` | apps/api/src/auth/refresh-token.service.ts:71-98 | exactly which tokens are exchanged; any other one leaves the table as it is |
| `RefreshServices.RotatedOnce` | apps/api/src/auth/refresh-token.service.ts:52-85 | a rotated token is refused from then on, its replacement works until it expires |
| `RefreshServices.ApiClient.TryRefresh` | apps/web/src/lib/api/client.ts:64-71 | joins the refresh in flight or starts one with the stored token |
| `RefreshServices.ApiClient.OnUnauthorized` | apps/web/src/lib/api/client.ts:73-77 | the client's state after a first 401 is that of the model's step |
| `RefreshServices.ApiClient.OnReply` | apps/web/src/lib/api/client.ts:49-57 | the client's state after an answer of the rotation is that of the model's step |
| `RefreshServices.ApiClient.OnErrorReply` | apps/web/src/lib/api/client.ts:50-53 | so is its state after any other error status, which clears the session too |
| `RefreshServices.ApiClient.OnLostReply` | apps/web/src/lib/api/client.ts:64-69 | so is its state when the request itself fails, which keeps the token unless a page load waited for it |
| `RefreshServices.ApiClient.Settle` | apps/web/src/lib/api/client.ts:66-68 | everyone who shared the refresh goes on or gives up, and the flight is over |
| `RefreshServices.ApiClient.Bootstrap` | apps/web/src/stores/auth.ts:36-44 | so is its state after a page load, which starts afresh and asks who is signed in if a token is stored |
| `RefreshServices.ApiClient.OnMeUnauthorized` | apps/web/src/lib/api/client.ts:73-77 | so is its state when that call gets its 401 |
| `RefreshServices.ApiClient.OnMeAnswered` | apps/web/src/stores/auth.ts:44-48 | so is its state when that call is answered or fails, which clears the session |
| `QuietHours.ParseIff` | apps/api/src/notifier/notifier.service.ts:281-293 | exactly which texts are read as which minute of the day |
| `QuietHours.DeferIsRestOfTheArc` | apps/api/src/notifier/notifier.service.ts:264-278 | the two cases of the code are one: quiet is an arc of the clock, over midnight or not, and the wait is the rest of it |
| `QuietHours.WaitEndsWithQuietHours` | apps/api/src/notifier/notifier.service.ts:246-279 | a wait is less than a day in whole minutes; every instant up to the end of quiet hours would wait, none from there to the next start, and the wait ends within a minute of that end |
| `QuietHours.WaitsOnce` | apps/api/src/notifier/notifier.service.ts:246-279 | looking again when the wait is over, or late by less than the time outside quiet hours, gives no wait |
| `Notifier.NotifierService.Dispatch` | apps/api/src/notifier/notifier.service.ts:119-176 | what one dispatch sends and how long it asks to wait; urgent kinds never wait |
| `Notifier.NotifyDispatchProcessor.Process` | apps/api/src/notifier/notify-dispatch.processor.ts:23-40 | the job is consumed, and put back with the delay exactly when the notification has to wait |
| `Notifier.PutOffAtMostOnce` | apps/api/src/notifier/notify-dispatch.processor.ts:29-35 | a notification that waited goes out when its job comes back |
| `Notifier.SentIff` | apps/api/src/notifier/notifier.service.ts:119-176 | exactly when a notification waits and for how long, and whether Telegram is marked as having delivered it |
| `Notifier.WaitsForTheMorning` | apps/api/src/notifier/notifier.service.ts:138-147 | with quiet hours from 22:00 to 07:00 a message at ten in the evening waits nine hours |
| `RetryLoop.Request` | apps/api/src/integrations/muadi/muadi-client.service.ts:211-257 | the loop with its one recursion sends exactly the requests of its specification and ends as it does |
| `RetryLoop.SendsAreBounded` | apps/api/src/integrations/muadi/muadi-client.service.ts:216-256 | at most maxAttempts sends, twice that when the tokens were renewed |
| `RetryLoop.WorstIsReached` | apps/api/src/integrations/muadi/muadi-client.service.ts:216-256 | that bound is reached |
| `RetryLoop.EachResendHasItsReason` | apps/api/src/integrations/muadi/muadi-client.service.ts:225-254 | every send but the last was followed by another because of its own reply, and the result is the last reply's |
| `RetryLoop.RequestIsResentIff` | apps/api/src/integrations/muadi/muadi-client.service.ts:211-257 | exactly when a request of whatever kind is sent again, by status, path, session and attempts left, and its result if it is not |
| `RetryLoop.BookingIsResentIff` | apps/api/src/integrations/muadi/muadi-client.service.ts:211-257 | from any attempt on, exactly when the whole call sends a booking more than once; a plain HTTP error never makes it |
| `RetryLoop.LostAnswerResendsBooking` | apps/api/src/integrations/muadi/muadi-client.service.ts:617 | a booking whose answer is lost is sent again when a second attempt is configured |
| `RetryLoop.CreateBookingWithProtection` | apps/api/src/integrations/muadi/muadi-client.service.ts:338-368 | sends exactly the requests of its specification: the booking, and once more after a refusal for want of a verification that then succeeds |
| `RetryLoop.ProtectedBookingIsResentIff` | apps/api/src/integrations/muadi/muadi-client.service.ts:338-368 | exactly which first replies make a whole booking be sent more than once |

## Left out

- Database isolation below serialisable: each `$transaction` and each single update is one step and succeeds.
- `SepayService.cancelIntent` (sepay.service.ts:414-423): nothing calls it, and as it overwrites any status it would break the one-pending-intent invariant.
- The Redis cache of `createIntentForBooking` (sepay.service.ts:74-80, 189-191) and `assertConfigured`: a cached answer repeats an earlier one and changes no table.
- Reading amounts, dates and time limits from text (`parseSepayAmount`, `parseSepayTransactionDate`, `parseTimelimit`): the parsed value is a parameter.
- PaymentTheorems.DedupeKeysDistinct: compares amounts as the text the bank sent, so one amount written in two ways gives two keys, as in the code.
- PaymentTheorems.RunCodesLong: assumes clock readings later than 100 seconds after the epoch.
- Rows the tables carry beside the modelled columns: passengers, VAT data, timeline, audit log, raw payloads, QR image addresses.
- One clock reading per transaction; fractional configuration numbers are not modelled.
- Case folding outside ASCII in markup scopes and memo keywords.
- SessionRotation.RotationVisitsEverySession: all rounds release successfully and nobody else acquires, as the rotation is stated for.
- SessionPoolService.SearchWithSession: the API client's writes of one request come one after the other here, while the interleaved pool lets the logins of one holder overlap; tokens and their expiry are not columns of the model.
- Sessions that the script `seed-muadi-session.ts` stores while the pool is at work.
- SessionStandstill.StandsStillIff: clock readings never lie behind a stamp of the table.
- The body of `search` and `hold` in `real-muadi.provider.ts` between acquire and release, price reconciliation included.
- Route and window checks in `HuntService.create`, tier limits on intervals, cabin, airlines and channels, the columns a scan updates besides status, streak and counters, price observations, and the date window of `resolveDays`: they do not touch the scheduling protocol.
- HuntServices.AutoHoldService.Execute: the bookings other hunts of the customer held last, and the limit of the customer's tier, are parameters.
- HunterDiff.CompareHuntResults: percentages are exact reals until they are rounded, not floats.
- HoldIdempotency.EveryRetryIsAnswered: the entry does not expire and storing a response does not fail; `StoredAnswersAll` starts from any state with a stored response and nobody at work.
- HoldIdempotency.SeatsOnceIff: one call of the booking service holds seats once at most; how often the airline client sends a booking is stated of that client alone, in `RetryLoop`.
- HuntTheorems.AutoHoldBound: counts the bookings that the booking service returns; seats held by a call that then fails are the subject of `HoldIdempotency`.
- bcrypt, JWT and key generation: a secret matches its own hash only, and ids and secrets are what the step receives.
- RefreshClient.SingleFlight: runs without lost or error replies and without failing page loads; signing in or out during a refresh or a page load, and somebody else presenting or revoking the device's token, are excluded here and in `SessionKeptIff`; access tokens are reduced to the 401s they cause.
- RefreshTokens.RevokeUserEndsIff: states of each sign-in, which is one step there; `RefreshBlocking` states it of the user, with sign-ins in two steps.
- HoldController.BookingController.Hold: all Redis calls of one request see one clock reading; the interleaved model lets the entry expire between any two of them.
- Failing database calls outside the modelled error paths, crashed or stalled workers (BullMQ runs a stalled scan again) and jobs that the queue accepted and lost.
- HuntServices.HunterRunService.Run: its database calls succeed; what follows when they fail is in the interleaved model.
- The order of promise callbacks within one event-loop turn of the browser.
- HTTP, Telegram, Google sign-in, BullMQ and Redis connection handling; the job queue is a number or multiset of jobs, Redis a map with set-if-absent.
- Notifier.NotifierService.Dispatch: one delivery answer for all Telegram sends of a notification; the texts are not modelled.
- RetryLoop.SendsAreBounded: `maxAttempts` is a positive whole number; backoff delays, request encryption and the requests of the token refresh itself are not counted.
- React screens and stores other than sign-in, sign-out and page load, mock data, OTP, vouchers, profile, health, listing and pagination.
