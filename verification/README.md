# Booking, money and scheduling of the beauty-salon platform: a verified model

A Dafny model of the API's booking core, with proofs. It follows the services in
`apps/api/src/booking`, the activity feed, and subscription billing.

## What is modelled

**The tables and their transactions.** `Records` holds the rows: bookings, payments with every
gateway session issued, wallet balances and ledger, coupon redemptions, commission. `Transactions`
says what one committed transaction does to them (`Run`). A value a request read earlier, without
a lock, is an argument and may be stale; a transaction that throws changes nothing. `Store` is the
same as statements that update the tables in place, method by method as the services do, each
proved to leave exactly the rows `Run` says and to report what `Decisions` says. Both are tied to
plain descriptions of their own: `Effects` says column by column what each transaction leaves, and
`Objections` lists the conditions a request is refused on, in order.

**The step system.** `Protocol` splits each request into its unlocked reads, the per-salon lock,
the in-transaction counts, the per-customer lock, the checks of a coupon code and its row lock, the
commit and the unlock; a recovery of a late capture into its read and its update. Requests, jobs,
gateway callbacks and the clock interleave freely. Prices, settings, timeouts, the gateway's
verdict and stale stakes are chosen freely at the commit, so configuration may change at any time.
A run is any sequence of enabled steps from empty tables and any wallet balances; the theorems are
about every state every run reaches. `Requests` and `Evolution` carry what each request may still
rely on while others commit.

**What is proved of it.** Capacity at every instant; the caps of customers and of coupon codes;
worker exclusivity with its exact condition; serializability of placements; coupling of bookings,
payments and commission, and when a lapse of the cron lock breaks it; wallet conservation; release
of holds, and when a paid booking loses one; deadlines; the settlement identity; forfeiture; what
reconciliation may write off and how the money still comes back; draining of the expiry queue.
`WholeRequests` and `UnlockedRequests` tie the services' decisions to the steps.

**The interval arithmetic around it.** `TimeOfDay`, `Slots` and `Preview` are the slot engine and
the availability preview; `ChairTime` and `Dashboard` the chair-time figures. Both are proved exact
and tied back to the booking rows. `Sorting` is the stable sort they and the feed share.

**Independent protocols.** `Reconciliation`, `ReferralExpiry`, `Activity`, `SubscriptionLedger`
and `NotifyPool`.

## Where the code does less than its comments say

- *Reschedule and staff.* `reschedule` checks the worker it read before taking the lock, and its
  write guards only the status. An assignment in between leads to a double-booked worker
  (`Scenarios.MoveWithStaleWorkerDoubleBooks`); `WorkerSafety.MoveKeepsExclusiveIff` is the exact
  condition.
- *Refunds and dead bookings.* The retire branch of reconciliation writes off a payment that has no
  session without touching its booking. A session still being minted then attaches to it, and paying
  through it queues a refund while the booking waits for payment (`Scenarios.LateSessionIsReachable`,
  `LateSessions.LateSessionBreaksIt`), although the callback takes a failed payment's booking to be
  dead by definition (`apps/api/src/booking/payments.service.ts:146-152`). Without such a mint the
  claim holds (`LateSessions.OnlyDeadBookingsRefund`).
- *A decline after a capture.* A gateway callback that was refused (`markFailed`,
  `apps/api/src/booking/payments.service.ts:817-827`) and reconciliation's decline
  (`apps/api/src/booking/payment-reconciliation.job.ts:197-207`) give the hold back whichever way
  their status guards went. If another session has captured meanwhile, the confirmed, paid booking
  loses its stake and its coupon redemption. `Scenarios.ConfirmedBookingLosesHold` is a run from the
  empty tables, `DeclinedHolds.LateDeclineStrips` one from any state with two sessions open;
  `DeclinedHolds.ConfirmedKeepsHoldIff` and `HoldSurvivesIff` are the exact condition. Money is still
  conserved.
- *A recovery overtaken.* A capture on a dead booking is refunded by a read of the payment and an
  update guarded on the status read. A write-off in between makes the update do nothing, and verified
  money stays on a failed payment until its callback comes again
  (`Recoveries.OvertakenRecoveryLeavesFailed`); `Recoveries.RecoveryQueuesIff` is the exact condition.
- *A lapsed cron lock.* Reconciliation asks the gateway about up to 200 payments under a lock whose
  lease is a minute (`apps/api/src/common/cron-lock.service.ts:6-22`). Once it lapses a second run may
  select the same payment, and a booking can end confirmed on a payment that was written off
  (`Scenarios.LapsedLeaseBreaksCoupling`); `LapsedLease.LapsesKeepCouplingIff` is the exact condition.
- *Captures after a write-off.* A payment written off is not asked about again: only a callback of
  one of its sessions queues the refund (`SessionLedger.OnlyItsCallbackRecovers`). What
  reconciliation can write off in this way is a session issued after it loaded the ledger, or paid
  after it asked (`Reconciliation.WritesOffOnlyLaterSessions`).
- *The preview and staff.* The preview tests that a requested worker may do the service, but neither
  that he is of this salon nor that he is active, and reads this salon's bookings only. It offers
  times of a worker of another salon who is busy there (`Preview.BusyForeignWorkerIsOffered`), which
  `createHold` refuses; `Preview.OfferedPassesIff` is the exact condition.
- *Activity pages* lose a row when two rows of one instant lie on either side of a page boundary, and
  only then (`Activity.PagesAreCompleteIff`); the service's own comment calls a duplicate possible
  too, which it is not.

## Assumptions

- A salon lock's lease outlives the request that holds it, and, but for `LapsedLease`, the cron lock
  keeps reconciliation runs from overlapping; a lock is released only by its holder.
- A worker belongs to one salon. Capacities and caps are fixed during a run.
- An instant of the activity feed is a whole millisecond, as its cursor and its merge read the columns;
  microseconds only order the rows within one, which here is the order of the table.
- The effects of a transaction are placed at its commit: rows it has written stay locked until then.
- `WalletService.debit` takes what the balance allows, `credit` adds; `recordCommission` writes one
  row when a paid payment backs it; a gateway callback confirms a waiting booking or queues a refund.
- Iran time is a fixed offset. Instants are whole milliseconds, amounts whole toman; arithmetic that
  the source does in floating point (hours, percentages, minutes) is exact here.

## Model

| member | source | states |
|---|---|---|
| `CapacitySafety.CapacityIsNeverExceeded` | apps/api/src/booking/bookings.service.ts:259-291 | In every reachable interleaving of holds, manual entries, approvals, moves, assignments, cancellations, expiries, payments and completions, at every instant at most `capacity` slot-blocking bookings of a salon are on. |
| `CapacitySafety.PuttingDownKeepsCapacity` | apps/api/src/booking/bookings.service.ts:708-733 | The counting argument: fewer than `capacity` slot-blocking bookings touch an interval, so putting one more down there overbooks no instant. |
| `CapacitySafety.StepKeepsRoom` | apps/api/src/booking/bookings.service.ts:238-258 | A count made under the salon lock still stands when its request commits, whatever commits elsewhere or without the lock in between. |
| `CustomerLimits.CustomersStayWithinLimits` | apps/api/src/booking/bookings.service.ts:836-887 | A customer who only books online holds pairwise disjoint slot-blocking bookings and never more active future ones than the per-user and per-salon caps, however his parallel requests to any mix of salons interleave. |
| `WorkerSafety.WorkersAreNeverDoubleBooked` | apps/api/src/booking/bookings.service.ts:300-322 | No two slot-blocking bookings of one worker overlap in any reachable state, provided every committed move still sees the worker its booking has. |
| `WorkerSafety.MoveKeepsExclusiveIff` | apps/api/src/booking/bookings.service.ts:2023-2054 | A committed move keeps staff exclusive if and only if the worker the booking has at the commit is free at the new time; checking the worker read before the lock settles that only when he is the same. |
| `Scenarios.MoveWithStaleWorkerDoubleBooks` | apps/api/src/booking/bookings.service.ts:1948-2051 | A concrete run from the empty tables in which a move that read its worker before an assignment committed double-books the new worker. |
| `Serializability.HoldsCommitAsIfAlone` | apps/api/src/booking/bookings.service.ts:280-329 | Every hold that commits in any interleaving leaves the tables the service would have left had it made all its checks, the code's included, on the rows at that moment, and would then have been accepted, unless its code ran out in between. |
| `Serializability.OthersCommitAsIfAlone` | apps/api/src/booking/bookings.service.ts:1102-1212 | The same for manual entries, approvals, moves and assignments: the room and worker checks hold of the very rows the commit writes over, or, for an assignment, the guard reports a changed status and writes nothing. |
| `PaymentFlow.PaymentsMatchBookings` | apps/api/src/booking/bookings.service.ts:1184-1212 | In every reachable state a request has no payment, a confirmed, completed or missed appointment has none or a paid one, refunds stand only where allowed, each booking has accrued commission at most once and only on a deposit still paid, and deadlines are stamped. |
| `PaymentFlow.HistoryIsFinal` | apps/api/src/booking/bookings.service.ts:2185-2202 | Over any stretch of a run a booking keeps its terms, an ended one stays as it ended, a refunded payment stays refunded and a stamped payment deadline stays put, so commission and refund exclude each other for good. |
| `PaymentCoupling.RunKeepsCoupling` | apps/api/src/booking/payment-reconciliation.job.ts:125-207 | Each transaction, on whatever a request read earlier, keeps the booking and payment statuses coupled. |
| `PaymentCoupling.RunKeepsCommission` | apps/api/src/invoicing/invoicing.service.ts:43-66 | Each transaction keeps every commission row backed by a paid deposit of a booking that forfeited it, one row per booking at most. |
| `PaymentCoupling.RunMovesPayments` | apps/api/src/booking/payment.entity.ts:1-40 | A payment row never disappears or changes amount, its sessions only grow, its status only moves forward, and only cancelling a confirmed booking takes a paid one back. |
| `Evolution.RunEvolves` | apps/api/src/booking/booking.entity.ts:4-61 | Every transaction moves every booking along the status graph pending_approval, pending_payment, confirmed, end; keeps its terms and stamped payment deadline; and returns a stake whole or not at all. |
| `Evolution.RunFrees` | apps/api/src/booking/bookings.service.ts:1514-1531 | The transactions that take no salon lock only ever remove slot-blocking intervals, never add or move one. |
| `LateSessions.OnlyDeadBookingsRefund` | apps/api/src/booking/payments.service.ts:289-317 | Money is being refunded only for a dead booking, in every run in which no session is minted for a payment already written off. |
| `LateSessions.LateSessionBreaksIt` | apps/api/src/booking/payment-reconciliation.job.ts:82-107 | And only then: from any state with such a late mint, the mint and its paid callback lead to a refund queued for a booking that still waits for payment. |
| `Scenarios.LateSessionIsReachable` | apps/api/src/booking/bookings.service.ts:892-921 | A concrete run from the empty tables that reaches such a late mint: a retry just before the deadline, the retire branch just after it. |
| `DeclinedHolds.ConfirmedKeepsHoldIff` | apps/api/src/booking/payments.service.ts:817-827 | A booking confirmed before and after a transaction keeps its stake and its redemption if and only if the transaction is not a decline of it that read its current, positive stake or finds a redemption. |
| `DeclinedHolds.HoldSurvivesIff` | apps/api/src/booking/payment-reconciliation.job.ts:189-207 | The same over any stretch of a run: the hold of a booking confirmed at both ends survives if and only if no decline on the way strips it. |
| `DeclinedHolds.LateDeclineStrips` | apps/api/src/booking/payments.service.ts:117-144 | From any state in which a booking waits for payment with two sessions, both calling back before either commits lead to a confirmed and paid booking with neither stake nor redemption. |
| `Scenarios.ConfirmedBookingLosesHold` | apps/api/src/booking/bookings.service.ts:892-989 | A concrete run from the empty tables and a wallet of ten to that end: a hold with stake and coupon, its session, a retry, the retry paid, the first session declined after it. |
| `Recoveries.RecoveryQueuesIff` | apps/api/src/booking/payments.service.ts:289-305 | Whatever commits between a recovery's read and its update, the update queues the refund if and only if the payment has not moved since, and else changes nothing: then its refund is queued already or it was written off meanwhile. |
| `Recoveries.OvertakenRecoveryLeavesFailed` | apps/api/src/booking/payments.service.ts:289-305 | From any state in which an expired booking has two sessions open, the decline of one between the read and the update of the other's recovery leaves the payment failed. |
| `LapsedLease.RunKeepsCouplingIff` | apps/api/src/booking/payment-reconciliation.job.ts:125-170 | A transaction keeps booking and payment statuses coupled if and only if it is not a capture for a booking that waits on a payment no longer open. |
| `LapsedLease.LapsesKeepCouplingIff` | apps/api/src/common/cron-lock.service.ts:6-22 | With a cron lease that may lapse at any time, the statuses stay coupled in every state of a run if and only if no step of it is such a capture. |
| `LapsedLease.OnlyReconciliationsCaptureUnpaid` | apps/api/src/booking/payment-reconciliation.job.ts:125-170 | And only a reconciliation can be that step; callbacks and recoveries may rely on what they read all the same. |
| `Scenarios.LapsedLeaseBreaksCoupling` | apps/api/src/booking/payment-reconciliation.job.ts:81-170 | A concrete run from the empty tables with one lapse that ends with a booking confirmed on a failed payment. |
| `WalletConservation.WalletMoneyIsConserved` | apps/api/src/booking/booking-hold-release.util.ts:73-103 | In every run, duplicated and racing releases included, balance plus stakes of each customer is unchanged, and each stake is credited back at most once and whole. |
| `WalletConservation.RunConserves` | apps/api/src/booking/bookings.service.ts:387-399 | Each transaction, however stale the stake it was given, leaves the sum of a customer's balance and stakes as it was. |
| `HoldRelease.DeadBookingsHoldNothing` | apps/api/src/booking/booking-hold-release.util.ts:5-45 | Whichever path killed it, a dead booking holds no wallet stake and no coupon redemption, unless the customer cancelled a confirmed appointment late. |
| `HoldRelease.CouponsAreRedeemedOnce` | apps/api/src/booking/bookings.service.ts:540-570 | Through every interleaving no customer has one coupon redeemed on two bookings. |
| `CouponCaps.CouponsStayWithinCaps` | apps/api/src/coupons/coupons.service.ts:237-262 | In every reachable state a capped code is redeemed on no more bookings than its cap, however holds at unrelated salons interleave their checks, their counts and their commits: the code's row lock, taken before the count and kept to the commit, sees to it. |
| `CouponCaps.StepKeepsCodes` | apps/api/src/coupons/coupons.service.ts:232-262 | What a hold found of its code, unredeemed under the customer's lock and under its cap under the row lock, survives every step of the others. |
| `Deadlines.JobsWaitForDeadlines` | apps/api/src/booking/booking-expiry.job.ts:47-92 | No step of the two expiry jobs or of reconciliation takes a booking out of pending_payment or pending_approval before the deadline stamped on it. |
| `Deadlines.UnpaidBookingsKeepTheirTime` | apps/api/src/booking/payment-reconciliation.job.ts:48-79 | In every reachable state a job step taken before a booking's stamped payment deadline leaves it waiting with that deadline, whatever the live configuration says. |
| `Deadlines.DeadlinesNeverMove` | apps/api/src/booking/bookings.service.ts:1081-1085 | A payment deadline once stamped survives every later step, a reschedule included. |
| `Forfeiture.NoEscapeFromForfeiture` | apps/api/src/booking/bookings.service.ts:1969-1980 | Once a confirmed booking is inside its snapshotted window, and no refunding cancellation or move of it decided earlier is still in flight, no sequence of the customer's own moves and cancellations, nor any job, brings its deposit back. |
| `Forfeiture.EscapeIff` | apps/api/src/booking/bookings.service.ts:1480-1554 | With no move of it in flight, some run without a further decision of the salon or an admin returns that deposit if and only if it was paid and a cancellation that owes it back is in flight already. |
| `Forfeiture.OutsideWindowRefunds` | apps/api/src/booking/bookings.service.ts:1505-1554 | A move that does take the booking out of its window opens the way: the customer's own cancellation then returns the deposit. |
| `Settlement.AmountsAddUp` | apps/api/src/booking/bookings.service.ts:1787-1812 | In every reachable state a live or completed fixed-price booking has captured deposit plus wallet stake plus amount due equal to its price, the clamp at zero never biting. |
| `Settlement.HoldSplitsDeposit` | apps/api/src/booking/bookings.service.ts:365-410 | The wallet part and the gateway part of a hold are the whole deposit, which is within the final price, which is within the list price; the wallet part is within the balance. |
| `Settlement.RedeemsOnlyForALowerPrice` | apps/api/src/booking/bookings.service.ts:345-363 | A redemption row is written only when the code made the price strictly lower than both the list price and the service's own discount, and it records that code and customer. |
| `Store.BookingStore.CreateHold` | apps/api/src/booking/bookings.service.ts:280-632 | All checks in the source's order, the coupon code's included, the first objection reported, then debit, booking, payment and redemption together or nothing at all; the price is the least that the list price, the service's discount and the code leave. |
| `Store.BookingStore.CheckCode` | apps/api/src/coupons/coupons.service.ts:205-265 | Coupons on, the code known, active, of this salon and for this customer, not expired, not yet redeemed by him, its cap not reached: the first that fails is reported. |
| `Store.BookingStore.WriteHold` | apps/api/src/booking/bookings.service.ts:387-570 | The writes of a hold: a clash on the coupon's unique index undoes the debit, the booking and the payment. |
| `Store.BookingStore.CreateManual` | apps/api/src/booking/bookings.service.ts:719-783 | The same overlap checks, then a confirmed booking with no payment. |
| `Store.BookingStore.Approve` | apps/api/src/booking/bookings.service.ts:1048-1252 | Decides on the row as read, rechecks room and worker; expires and releases a request that no longer fits, and commits that; otherwise opens payment or confirms under the status guard. A stake stays with the booking while collection is online and goes back to the wallet, whole, if it is off. |
| `Store.BookingStore.Reject` | apps/api/src/booking/bookings.service.ts:1301-1326 | Only a pending request is rejected, and its hold is given back with it. |
| `Store.BookingStore.Cancel` | apps/api/src/booking/bookings.service.ts:1469-1579 | Who may cancel; the deposit is owed back if and only if the salon cancels or the start is at least the snapshotted window away; and exactly what the guarded transaction then leaves. |
| `Store.BookingStore.AdminCancel` | apps/api/src/booking/bookings.service.ts:1663-1706 | A platform cancellation always refunds a captured deposit and releases the hold, or loses the guard and changes nothing. |
| `Store.BookingStore.AssignWorker` | apps/api/src/booking/bookings.service.ts:1842-1914 | Decides on the row its transaction read and counts on the rows it then finds; a status changed in between loses the guard and is reported, and nothing else changes. |
| `Store.BookingStore.Reschedule` | apps/api/src/booking/bookings.service.ts:1948-2056 | Decides on the row as read; room and the worker as read are rechecked at the new time; only the two instants change, under a guard on status alone. |
| `Store.BookingStore.UpdateStatus` | apps/api/src/booking/bookings.service.ts:2147-2211 | An outcome is recorded only for a started confirmed appointment of an approved salon, after the grace period for a no-show; the status is then the one given, and commission accrues if and only if the deposit is paid. |
| `Store.BookingStore.RetryPayment` | apps/api/src/booking/bookings.service.ts:955-989 | A new session is minted only for an unpaid booking before its deadline while payments are on. |
| `Store.BookingStore.ReverseWalletSpend` | apps/api/src/booking/booking-hold-release.util.ts:73-103 | Each stake read earlier is cleared and credited only if the row still carries it. |
| `Store.BookingStore.ReleaseBookingHold` | apps/api/src/booking/booking-hold-release.util.ts:46-57 | Redemptions of the listed bookings go, then their stakes are read and returned. |
| `Store.BookingStore.ExpireBatch` | apps/api/src/booking/booking-expiry.job.ts:69-94 | One bulk update and one release of what it returned leave what expiring and releasing the batch one booking at a time would; it returns exactly the due rows of the batch. |
| `Effects.LeavesIff` | apps/api/src/booking/bookings.service.ts:1514-1579 | For every transaction but the two batches, the tables it leaves are the one answer to a description in plain columns: which row changes in which fields, what the wallet, the ledger, the payment, the redemption and the commission become, and that nothing else does. |
| `Effects.RunLeaves` | apps/api/src/booking/booking-expiry.job.ts:69-94 | The batches too: exactly the listed rows that ran out expire, lose stake and redemption, and no other row or table changes. |
| `Objections.HoldObjects` | apps/api/src/booking/bookings.service.ts:280-340 | A hold is refused for the first of sixteen objections in the source's order: no chair, four about the worker, three about the customer, eight about the code; and accepted if none holds. |
| `Objections.RecheckObjects` | apps/api/src/booking/bookings.service.ts:1102-1142 | The recheck of approve and reschedule likewise, the booking's own row never in its way. |
| `Objections.AssignObjects` | apps/api/src/booking/bookings.service.ts:1860-1906 | The same for an assignment. |
| `Objections.CancelObjects` | apps/api/src/booking/bookings.service.ts:1469-1512 | Who is refused a cancellation, in whose name an accepted one counts, and the refund by the window in hours. |
| `Objections.MoveObjects` | apps/api/src/booking/bookings.service.ts:1953-1990 | The objections to a move on the row as read, the customer's own window included. |
| `Objections.OutcomeObjects` | apps/api/src/booking/bookings.service.ts:2147-2181 | The objections to an outcome. |
| `Objections.InTheWayShareAnInstant` | apps/api/src/booking/bookings.service.ts:283-291 | The overlap query finds exactly the live bookings that share an instant with the interval. |
| `BulkRelease.BulkIsOneByOne` | apps/api/src/booking/booking-approval-expiry.job.ts:60-87 | The two orders agree on every table: marking all due rows then releasing them all, and marking and releasing them in turn. |
| `WholeRequests.AcceptedHoldIsARun` | apps/api/src/booking/bookings.service.ts:177-632 | A hold the service accepts on quiet tables is a run of the step system ending in exactly the rows its transaction leaves. |
| `WholeRequests.AcceptedEntryIsARun` | apps/api/src/booking/bookings.service.ts:649-783 | The same for a manual entry. |
| `WholeRequests.AcceptedAssignmentIsARun` | apps/api/src/booking/bookings.service.ts:1842-1914 | The same for an assignment. |
| `WholeRequests.AcceptedMoveIsARun` | apps/api/src/booking/bookings.service.ts:1948-2056 | The same for a move. |
| `WholeRequests.AcceptedApprovalIsARun` | apps/api/src/booking/bookings.service.ts:1048-1212 | The same for an approval. |
| `WholeRequests.LapsedApprovalIsARun` | apps/api/src/booking/bookings.service.ts:1145-1181 | An approval that finds no room or no worker is a run that expires the request. |
| `UnlockedRequests.CancelBeginsIff` | apps/api/src/booking/bookings.service.ts:1469-1512 | A cancellation may begin in the step system if and only if the service accepts one with that name and that refund on the row as it is. |
| `UnlockedRequests.AcceptedCancelIsARun` | apps/api/src/booking/bookings.service.ts:1469-1579 | And an accepted one is a run to exactly the rows its transaction leaves. |
| `UnlockedRequests.OutcomeBeginsIff` | apps/api/src/booking/bookings.service.ts:2147-2181 | The same equivalence for an outcome. |
| `UnlockedRequests.VerifiedCallbackIsARun` | apps/api/src/booking/payments.service.ts:146-200 | A verified callback on an open payment is a run that confirms the waiting booking, or queues the refund if none waits any more. |
| `UnlockedRequests.ExpiryTickIsARun` | apps/api/src/booking/booking-expiry.job.ts:69-94 | A tick of either expiry job whose query finds the listed rows due is a run that expires them. |
| `UnlockedRequests.ReconciliationBeginsIff` | apps/api/src/booking/payment-reconciliation.job.ts:48-79 | What reconciliation selects: at most two hundred payments open for over twenty minutes whose bookings no longer wait or are past their deadline. |
| `Reconciliation.VerifyAny` | apps/api/src/booking/payment-reconciliation.job.ts:263-272 | Answers as the first session, in order, that was not refused: it pays or does not answer; and that all were refused if there is none. |
| `Reconciliation.AuthoritiesAreTheIssued` | apps/api/src/booking/payment-reconciliation.job.ts:252-260 | The sessions asked about are all those ever issued for the payment and no others. |
| `Reconciliation.NewestReverses` | apps/api/src/booking/payment-reconciliation.job.ts:252-260 | They are asked newest first. |
| `Reconciliation.Reconcile` | apps/api/src/booking/payment-reconciliation.job.ts:81-245 | The loop over the selected payments leaves the tables of settling them in turn, and counts those it settled. |
| `Reconciliation.CountsTheSettled` | apps/api/src/booking/payment-reconciliation.job.ts:81-245 | Of distinct open payments, the number it returns is that of those no longer open afterwards. |
| `Reconciliation.BatchSettles` | apps/api/src/booking/payment-reconciliation.job.ts:125-207 | Every payment of a batch ends as its own sessions were answered, whatever else was in the batch; only an unanswered one is left for the next run. |
| `Reconciliation.CaptureIsNeverWrittenOff` | apps/api/src/booking/payment-reconciliation.job.ts:109-124 | In an undisturbed run of the job, money captured through any session ever issued, superseded ones included, ends paid on a confirmed booking or queued for refund. |
| `Reconciliation.DecisionIsACommit` | apps/api/src/booking/payment-reconciliation.job.ts:124-131 | In every reachable state, what the job decides on the sessions it loaded is a commit the step system allows it, and the undisturbed loop's own transaction if nothing was issued since. |
| `Reconciliation.WritesOffOnlyLaterSessions` | apps/api/src/booking/payment-reconciliation.job.ts:81-107 | In every interleaving the job writes a payment off if and only if no session was ever issued for it, or all those it had loaded were declined; a capture lost to that was through a session issued after the load. |
| `SessionLedger.CurrentSessionsAreIssued` | apps/api/src/booking/payment-reconciliation.job.ts:244-260 | In every reachable state a payment's current session is in its ledger, it has one as soon as any was issued, and what a reconciliation loaded begins that ledger. |
| `SessionLedger.OnlyItsCallbackRecovers` | apps/api/src/booking/payments.service.ts:99-109 | A written-off payment leaves that state only through a callback of one of its own sessions, which queues the refund of that session. |
| `SessionLedger.RecoveryStaysOpen` | apps/api/src/booking/payments.service.ts:289-317 | Over any stretch of a run a written-off payment stays written off with its sessions on record, or is being refunded. |
| `SessionLedger.LateCaptureIsRefunded` | apps/api/src/booking/payments.service.ts:146-152 | Whenever such a session's successful callback comes and nobody overtakes it, it queues its refund and leaves the booking alone. |
| `ExpiryDrain.DueRequestsLeaveInTime` | apps/api/src/booking/booking-approval-expiry.job.ts:57-82 | A due approval request with r requests ahead has left pending_approval after r/1000 + 1 ticks, whatever arrives or happens between and during them. |
| `ExpiryDrain.RoundServes` | apps/api/src/booking/booking-approval-expiry.job.ts:66-82 | One tick serves the request or a full thousand of those ahead of it, although others act between its query and its update. |
| `ExpiryDrain.DecisionsStand` | apps/api/src/booking/booking-approval-expiry.job.ts:61-72 | A row that left pending_approval between the query and the update, or that the query did not pick, is untouched. |
| `ReferralExpiry.ReferralTable.Sweep` | apps/api/src/booking/referral-expiry.job.ts:54-70 | The update stamps exactly the selected rows that still wait, and returns how many those are. |
| `ReferralExpiry.SweepLapsesExactly` | apps/api/src/booking/referral-expiry.job.ts:40-70 | Whatever was granted since the subquery, exactly the selected referrals that still wait lapse, and each had run out when selected. |
| `ReferralExpiry.BlindSweepAgreesIff` | apps/api/src/booking/referral-expiry.job.ts:42-50 | Leaving the outer status test out is harmless if and only if no selected row has been granted meanwhile. |
| `Pricing.BestIsBest` | apps/api/src/booking/discount.util.ts:43-51 | The lowest price on offer, in plain arithmetic of percentages and fixed amounts, with the earliest strictly better candidate as winner is one answer, and the scan gives it. |
| `Pricing.ResolveBestPriceWithWinner` | apps/api/src/booking/discount.util.ts:60-72 | The loop computes that answer. |
| `Pricing.FixedComesOff` | apps/api/src/booking/discount.util.ts:65 | A fixed amount alone comes off the price, down to nothing. |
| `Pricing.FixedBeatsPercentIff` | apps/api/src/booking/discount.util.ts:60-72 | A fixed amount beats a percentage if and only if what it leaves is below both the list price and the rounded percentage price; the price is then that. |
| `Pricing.CouponWinsOnlyIfCheaper` | apps/api/src/booking/discount.util.ts:45-50 | The coupon wins if and only if its price is strictly below both the full price and the service discount's. |
| `Pricing.LargerPercentIsBestPrice` | apps/api/src/booking/discount.util.ts:7-20 | For percentages alone, applying the larger one and taking the lower resulting price give the same price. |
| `Pricing.BestStaysNonNegative` | apps/api/src/booking/discount.util.ts:36-38 | Stored discounts never take a price below zero or above the list price. |
| `Pricing.Deposit` | apps/api/src/booking/deposit.util.ts:5-20 | Never negative, never above the price; below the price it is at least the minimum and the percentage, and never more than the larger of them. |
| `TimeOfDay.ParseInvertsMinutesToTime` | apps/api/src/booking/availability.util.ts:44-46 | Reading back a written time gives the same minute, for every minute. |
| `TimeOfDay.SecondsAreIgnored` | apps/api/src/booking/availability.util.ts:71-74 | Times with seconds, as the database returns them, read as their hours and minutes. |
| `TimeOfDay.DayOfInstant` | apps/api/src/common/iran-time.util.ts:22-41 | An instant falls on an Iran-local day exactly when it lies between that day's two midnights, and a day later is the next day. |
| `TimeOfDay.WallClockIs` | apps/api/src/common/iran-time.util.ts:31-41 | Local day 0 begins three and a half hours before the epoch, and every later minute is sixty seconds after the last. |
| `TimeOfDay.WeekdaysFollow` | apps/api/src/common/iran-time.util.ts:26-29 | Days of the week follow one another from Thursday, 1970-01-01: a day is of a weekday if and only if it is whole weeks from that weekday's date after Saturday, 1970-01-03. |
| `TimeOfDay.TimesHaveTwoFields` | apps/api/src/booking/availability.util.ts:44-46 | A time is written as two digits of hours, a colon and two digits of minutes. |
| `Slots.SubtractInterval` | apps/api/src/booking/availability.util.ts:52-64 | The text ranges it returns read as the cut of the two ranges. |
| `Slots.CutIsDifference` | apps/api/src/booking/availability.util.ts:47-64 | The cut is set difference, minute by minute, for every pair of ranges, the empty and the inverted included. |
| `Slots.OpenWindowsAreTheDifference` | apps/api/src/booking/availability.util.ts:121-126 | A day's windows together are its working hours less its exception. |
| `Slots.ComputeAvailableSlots` | apps/api/src/booking/availability.util.ts:89-156 | Terminates, and returns a time for a date if and only if it is an on-grid start that fits before closing, is after now, has fewer than capacity overlaps, and finds the requested worker free and not off, as often as rows of hours list it; days in order, starts ascending; nothing for a duration of zero or less. |
| `Slots.ListedTwiceIff` | apps/api/src/booking/availability.util.ts:121-141 | A start is returned twice if and only if two rows of hours of its day both have it on their grids. |
| `Slots.OfferedStaysOpen` | apps/api/src/booking/availability.util.ts:128-137 | An offered appointment lies inside working hours and clear of the exception from its first minute to its last. |
| `Preview.HoursByWeekday` | apps/api/src/booking/availability.service.ts:64-69 | The map lists each weekday's ranges in row order. |
| `Preview.ExceptionsByDate` | apps/api/src/booking/availability.service.ts:71-74 | The map gives each date its last closure, whole-day unless both times are set. |
| `Preview.LastClosureStands` | apps/api/src/booking/availability.service.ts:71-74 | A date is closed if and only if some row is of that date; the last such row counts, for part of the day if both times are set. |
| `Preview.WorkerOffDates` | apps/api/src/booking/availability.service.ts:78-84 | The map holds exactly the days off in the rows. |
| `Preview.FetchedCountIsSalonCount` | apps/api/src/booking/availability.service.ts:54-61 | Counting the fetched rows is counting the salon's slot-blocking bookings, for every interval in the window: the prefilter drops none that matters. |
| `Preview.ComputeFor` | apps/api/src/booking/availability.service.ts:30-101 | Whoever is asked for, a time is offered if and only if it is still to come, finds a chair free and the worker not booked at this salon, and some row of hours of that calendar day of the week has it on the grid of what the day's closure leaves, once for each row that lists it; nothing for an ineligible worker. |
| `Preview.OfferedPassesIff` | apps/api/src/salons/worker-eligibility.service.ts:25-35 | An offered time passes createHold's salon and worker checks on the same rows if and only if no worker is asked for, or he is of this salon and active. |
| `Preview.AcceptedIsOffered` | apps/api/src/booking/bookings.service.ts:281-322 | No time is withheld: what createHold would take on the open grid is offered. |
| `Preview.ForeignWorkerIsOffered` | apps/api/src/booking/availability.service.ts:41-61 | A worker of another salon is offered whenever a chair is, and createHold answers that he was not found. |
| `Preview.BusyForeignWorkerIsOffered` | apps/api/src/booking/availability.service.ts:54-61 | A concrete case: he is busy at his own salon at the very hour he is offered here. |
| `Preview.OfferedTimeCanBeHeld` | apps/api/src/booking/bookings.service.ts:281-322 | On quiet tables a customer within his limits can book any time the preview offers him, if the worker he asks for is an active one of the salon. |
| `ChairTime.MergeIntervals` | apps/api/src/booking/capacity.util.ts:38-47 | The result is sorted, separated and covers exactly the same instants. |
| `ChairTime.LengthIsMeasure` | apps/api/src/booking/capacity.util.ts:96-97 | The length of separated intervals is the number of instants they cover. |
| `ChairTime.DoubleCounting` | apps/api/src/booking/capacity.util.ts:105-108 | Summing overlap over bookings equals summing, over instants, the bookings that are on. |
| `ChairTime.BookedFitsChairs` | apps/api/src/booking/capacity.util.ts:99-109 | With never more than `chairs` bookings on at once, booked time is at most chairs times open time. |
| `ChairTime.ComputeDay` | apps/api/src/booking/capacity.util.ts:68-124 | One day's figures: closed reason, open, offered, booked and free minutes, percentage and starts, from the union of the open windows. |
| `Dashboard.Compute` | apps/api/src/booking/salon-capacity.service.ts:44-106 | The window's figures day by day from one fetch, with the totals; an empty or over-long range is refused. |
| `Dashboard.SumOfBoth` | apps/api/src/booking/salon-capacity.service.ts:91-104 | The totals are sums over the days: adding up the parts, each day once. |
| `Dashboard.FreeTimeIsExactDifference` | apps/api/src/booking/capacity.util.ts:111-122 | In every reachable state free minutes are exactly offered less booked and percentages are within 0..100, for each day and for the totals. |
| `Dashboard.OpenMinutesAreMeasured` | apps/api/src/booking/capacity.util.ts:60-63 | Open minutes measure the working hours less the exception: no minute two rows share counts twice. |
| `Dashboard.WindowLosesNoTime` | apps/api/src/booking/salon-capacity.service.ts:59-67 | The fetch window drops no booking time that falls inside the window's intervals. |
| `Dashboard.WindowSeesAll` | apps/api/src/booking/salon-capacity.service.ts:52-67 | The window's fetch finds all the salon's live booking time between its first midnight and its last. |
| `Dashboard.CountsPartition` | apps/api/src/booking/capacity.util.ts:99-104 | The days' booking counts add up to the bookings that start in the window, each counted on one day. |
| `Activity.PageIsHead` | apps/api/src/activity/activity.service.ts:57-84 | Whatever the ties, a page is the head of the whole feed at its cursor; without a further cursor it is all of it. |
| `Activity.HasMoreIff` | apps/api/src/activity/activity.service.ts:74-84 | More is promised if and only if more is left than the page holds, or one table alone has enough rows to fill it. |
| `Activity.TurnLosesTies` | apps/api/src/activity/activity.service.ts:74-84 | One turn of the page loses exactly the rows of the cursor's instant that are not on the page; what the cursor leads to is everything after them. |
| `Activity.PagesAreCompleteIff` | apps/api/src/activity/activity.service.ts:50-84 | Whatever the rows and the limit, following the cursor repeats no row, and shows every row of all four tables if and only if no two rows of one instant lie on either side of a multiple of the page size in the descending feed; then the pages are the feed in order. |
| `Activity.DistinctTimesDoNotStraddle` | apps/api/src/activity/activity.service.ts:53-56 | Rows that all differ in time are never lost. |
| `Activity.TiesAreSkipped` | apps/api/src/activity/activity.service.ts:53-56 | Two rows of one instant and a limit of one: the second is never shown. |
| `SubscriptionLedger.BillingTables.CreatePeriod` | apps/api/src/billing/subscription-billing.service.ts:29-125 | Refusals in the source's order, then the period and its redemption together; the amount is the base less the coupon's percentage, rounded. |
| `SubscriptionLedger.CodeObjections` | apps/api/src/billing/subscription-billing.service.ts:57-84 | A code is refused for the first of: unknown or inactive, expired, used by this salon, spent; and accepted if none holds. |
| `SubscriptionLedger.BillingTables.SetStatus` | apps/api/src/billing/subscription-billing.service.ts:136-153 | Only a pending period of that salon is resolved; voiding one gives its coupon back. |
| `SubscriptionLedger.AcceptedPeriodIsARun` | apps/api/src/billing/subscription-billing.service.ts:29-125 | An accepted period on a quiet ledger is a run of the step system to the same rows. |
| `SubscriptionLedger.AcceptedResolutionIsARun` | apps/api/src/billing/subscription-billing.service.ts:136-153 | So is the resolution of a pending period. |
| `SubscriptionLedger.RedemptionsMatchPeriods` | apps/api/src/billing/subscription-billing.service.ts:50-120 | In every interleaving redemption rows match the non-void periods with a coupon one to one, no salon is on one coupon twice, and no capped coupon exceeds its cap. |
| `SubscriptionLedger.EachPeriodHasOneWinner` | apps/api/src/billing/subscription-billing.service.ts:127-145 | Every resolved period was resolved by exactly one request, a pending one by none. |
| `NotifyPool.NeverTooManyAtOnce` | apps/api/src/booking/expiry-notify.util.ts:18-38 | At every moment of every schedule indices are called in order, each at most once, at most `concurrency` at a time, and only failures are reported, each at most once. |
| `NotifyPool.EndsHandledIff` | apps/api/src/booking/expiry-notify.util.ts:24-39 | When all workers have finished, every index was called exactly once and exactly the failures reported, if and only if concurrency is at least one or there was nothing to do. |
| `NotifyPool.SchedulesAreShort` | apps/api/src/booking/expiry-notify.util.ts:26-37 | No schedule runs longer than the work: twice the calls left plus the workers still pulling. |
| `NotifyPool.NotifyAllBoundedly` | apps/api/src/booking/expiry-notify.util.ts:18-40 | The fan-out with an arbitrary choice of the next worker: terminates having called every index once and reported exactly the failures; with no workers it does nothing. |

## Left out

- Notifications, SMS, push, analytics, metrics, alerts, audit rows and booking events: effects after the commit that no transition reads back.
- HTTP, validation of request bodies, guards and queries: a query is a predicate over rows, an update a guarded write.
- Gateway internals, the refund claim and its lease, and the wallet's own locking: their contracts are assumed.
- `CouponsService` beyond a hold's own check: managing codes, the standalone preview of one, and the normalisation of its text.
- Salon, service, staff and beauty-guide look-ups that fail before anything is locked, such as an unknown salon or a staff member booking himself.
- Rows older than the snapshot columns: a NULL cancellation window is not modelled; a NULL payment deadline is, through the expiry job's cutoff.
- Expiry of salon-lock leases, and edits to capacity or caps while requests are in flight.
- The commission percentage and its rounding: a commission row carries the gross amount only.
- Ids are positions in a table that never shrinks; a NULL wallet stake reads as zero; dates are day numbers and slots are instants, not ISO text, so `sort()` on ISO strings becomes numeric order.
- The customer's and salon's booking lists, earnings, reviews, reminders and search: reads that add no rule.
- `decodeCursor`: a cursor arrives as an instant or as none.
- Invoices and Jalali periods, OTP and sessions, admin dashboards, panels and scripts.
