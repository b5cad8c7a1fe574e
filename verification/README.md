# Money safety of the CSPR402 backend and SDK, modelled and proved in Dafny

`dafny verify dfyconfig.toml` checks the whole project.

The project models the two protocols that keep an agent's money safe, and the algorithms they stand on:

- **Orders, budgets and refunds in the backend** (`Policy`, `Orders`, `OrderInvariant`, `Budget`, `OrderSafety`,
  `Answers`, `Approvals`, `Resend`, `Handlers`). The tables are one state machine. A step is what one handler or job
  does from one await to the next; every interleaving of creations, approvals, suspensions, expiries, verify-payment,
  VCC callbacks, reconcile, recover, refunds and crashes is a run. `Answers` and `Approvals` state what each step
  answers on each kind of input. `Handlers.Store` is the same code as methods that update the tables in place, each
  proved to have exactly the effect of its step and to keep the store valid.
- **Pay-once in the SDK** (`PayOnce`, `PayTwice`, `OrderLock`). Processes that start, overlap and crash, the ledger in
  memory and on disk, the in-process mutex, the lock file, record-before-broadcast and clear-only-on-verified,
  together with the backend fact that a delivered order stays delivered.
- **Algorithms**: canonical JSON and the idempotency cache (`CanonicalJson`, `Idempotency`), the reader of the order
  stream and the wait around it (`EventStream`, `WaitForCard`), callback signatures (`Hmac`), the two circuit breakers
  (`Breakers`), login codes (`Otp`), refund amounts (`RefundAmount`), webhook redaction and retry (`Webhooks`), stream
  slots (`Streams`).

## What the theorems assume

Integers and time. Money is integer cents, and stroops in `RefundAmount`; clocks are natural numbers that do not run
backwards: seconds where SQL's `datetime` compares them, milliseconds in the SDK, the breakers and the webhook queue.
A row's id is its position in its table. Statements between two awaits are atomic, and so are SQLite transactions. A
claim and the spend it adds are one step.

The world around the order tables (`Orders.Assumed`). VCC reports a result only after `notifyPaid` was sent for the
order; the process does not die between a CTX send and its record; a send that may have landed reports its hash. Each
is needed: `Budget.UnannouncedFulfilRaisesIff`, `Resend.CrashInSendResendsIff` and
`Resend.HashlessAmbiguityResendsIff` say exactly what happens without it. The park of an ambiguous send and the
fulfilled guard are as loose in the model as in the code. Nothing is claimed about retrying `notifyPaid` once a
payment is recorded: the reconciler's filter leaves such rows out.

The key snapshot. `req.apiKey` is read before the awaits of POST /orders and used inside its transaction. So the limit
theorem has the bound "limit plus what was settled between snapshot and transaction", and
`Budget.StaleSnapshotOverruns` gives the runs that reach it. The key's rules stay fixed over a run.

The signer. Pay-once holds for processes that do not overlap, and for overlapping ones that share the ledger
(`PayOnce.Shares`). Each of the three ways of not sharing is enough to pay twice, and `PayTwice` has a run for each.
Persisting the ledger succeeds. A live holder of the lock finishes within its maximum, and a steal (stat, compare,
unlink) is one step; then, by `OrderLock.MutualExclusion`, nobody steals from a live holder, which is how the pay
call's `LockFree` reads the lock.

Requests. What POST /orders checks of a body's fields and its webhook URL before the transaction is a parameter of the
idempotency model: any refusal with an error status of its own.

Text. Numbers print as a token that determines them (`-0` prints as `0`); SHA-256 is taken to be injective where it
fingerprints a body; HMAC is a parameter of which only "64 lower-case hex digits" and, where stated, "no other payload
has this digest" is assumed. Stream chunks are text that is already decoded. A non-2xx webhook records two failures;
the breaker theorems speak of recorded failures.

## Where the code and its own documentation differ

- `sdk/src/casper-signer.ts:44-50` says that a second process waiting for the lock then sees the recorded hash. It
  does not if it read the file earlier (826-828), if a third process wrote its own map over the entry (854-866), or if
  the entry was cleared after the second process had seen the order pending (1125, 1255): `PayTwice`.
- `backend/src/api/orders.js:237` promises that the same key returns the original response within 24 hours. The cache
  is looked up inside the transaction only, after the frozen flag and the field checks:
  `Idempotency.FrozenRetryRefused`, `Idempotency.RefusedRetryNoConflict`.
- `backend/src/jobs.js:667` says rows with fewer attempts than the maximum are retried; the query says at most the
  maximum. The model follows the query.
- `backend/src/api/vcc-callback.js:302-310` promises agents a normalised brand. A retried delivery carries the raw
  brand of the order's row: `Webhooks.RehydrationRestores`.
- `backend/src/api/dashboard.js:100-102` says that the close handler is wired immediately after the slot is taken. A
  query runs in between, and if it throws nothing ever releases the slot: `Streams.StreamSlots.OpenDashboardStream`,
  `Streams.LostSlotStays`.

## Model

| member | source | states |
|---|---|---|
| Policy.NotBlockedIff | backend/src/policy.js:39-280 | An order is not refused exactly when every stored rule parses and every rule holds: no rule passes by failing to parse, none refuses while it holds |
| Policy.FirstBrokenRefuses | backend/src/policy.js:39-280 | A refusal names the first hard rule that is broken, in the documented order, a corrupt value just before the rule it spoils |
| Policy.ApprovalIff | backend/src/policy.js:250-280 | With every hard rule kept, an order waits for approval exactly when its amount is over a parsed threshold, and is approved otherwise |
| Policy.WindowIsCyclic | backend/src/policy.js:117-163 | An hours window is a stretch of the daily cycle from its start, over midnight or not |
| Policy.CalendarMoves | backend/src/policy.js:117-247 | Minute, day and weekday of a time follow the UTC calendar |
| OrderInvariant.NextGood | backend/src/jobs.js:118-590 | Every step of every handler and job, in every interleaving, keeps the whole invariant and moves each order only along the status graph; quiet steps deliver nothing and settle nothing |
| OrderInvariant.RunInv | backend/src/api/orders.js:483-756 | The invariant holds after every run from empty tables |
| OrderInvariant.CreateGood | backend/src/api/orders.js:483-756 | Creation with or without approval keeps the invariant |
| OrderInvariant.DeliverGood | backend/src/api/orders.js:1201-1262 | The one delivering write keeps hashes distinct, claims counted once and approvals coupled |
| OrderInvariant.FailGood | backend/src/api/vcc-callback.js:333-424 | A failure followed by refund-or-quarantine keeps the invariant: no refund of a paid order, no second refund |
| OrderInvariant.RefundReplyGood | backend/src/fulfillment.js:369-524 | Both outcomes of a refund send keep the invariant, deliver nothing and settle nothing; only an order in refund_pending turns refunded |
| OrderInvariant.ClaimGood | backend/src/jobs.js:378-391 | Claiming a retry keeps the invariant: the attempt counter stays within its maximum, and the job goes on with an order that is unpaid |
| OrderInvariant.SendReplyGood | backend/src/jobs.js:118-149 | Recorded, parked and failed CTX sends keep every landed payment on record, although park and record are unguarded |
| Budget.SettledIsDelivered | backend/src/api/orders.js:1201-1262 | In every run each key's settled spend is the sum of its delivered orders |
| Budget.CommittedIs | backend/src/api/orders.js:525-546 | What a key has committed is its settled spend and its orders still in flight, row by row |
| Budget.SpentOnIs | backend/src/policy.js:207-247 | What counts against a day is its orders that neither expired nor were rejected, row by row |
| Budget.SettledIs | backend/src/api/orders.js:1256-1262 | Over every run a key's settled spend is the sum over the rows that are its own and delivered |
| Budget.OnlyCreationRaisesCommitted | backend/src/fulfillment.js:422-429 | No step but order creation raises settled plus in-flight spend of any key |
| Budget.CreationAddsAmount | backend/src/api/orders.js:525-733 | Creation adds the order's amount to its own key's committed spend and nothing to any other key |
| Budget.CommittedWithinLimit | backend/src/api/orders.js:525-546 | Over every run committed spend never exceeds the limit plus the largest amount settled between one request's key snapshot and its transaction |
| Budget.OverLimitIff | backend/src/api/orders.js:525-546 | A creation takes the key over its limit exactly when it fits the stale snapshot but not the fresh row |
| Budget.StaleSnapshotOverruns | backend/src/api/orders.js:525-539 | For every limit and every two amounts that fit it singly but not together there is a run that ends over the limit |
| Budget.RemainingIsWhatFits | backend/src/api/orders.js:211-234 | The reported remaining budget is exactly the largest amount the next request can pass the limit check with |
| Budget.UnannouncedFulfilRaisesIff | backend/src/api/vcc-callback.js:220-251 | A fulfilled callback that was not preceded by notifyPaid raises committed spend exactly on an expired or rejected order |
| Budget.DailyCap | backend/src/policy.js:207-247 | With a fixed daily limit, for every day the orders created that day and neither expired nor rejected never total more than the limit, in any run |
| OrderSafety.FinalStays | backend/src/api/vcc-callback.js:208-236 | Delivered, failed, refunded, quarantined, expired and rejected orders stay so through every run, and a delivered order keeps its card and deploy hash |
| OrderSafety.ClaimedAtMostOnce | backend/src/api/orders.js:1201-1253 | Over every run with any number of concurrent requests an order is claimed at most once |
| OrderSafety.ReplyClaimsIff | backend/src/api/orders.js:1201-1253 | A verify reply claims an order exactly when the payment verified and the order is still pending, unhashed and its hash on no other order |
| OrderSafety.ClaimRecords | backend/src/api/orders.js:1201-1262 | The claimed order is delivered with its card and the deploy hash it was paid with, and no other row changes |
| OrderSafety.HashClaimsAtMostOnce | backend/src/api/orders.js:1142-1253 | Over every run all requests that carry one deploy hash together claim at most one order, and then the hash is on record |
| OrderSafety.HashesInjective | backend/src/db.js:972-976 | In every reachable state no two orders carry the same deploy hash and only delivered orders carry one |
| OrderSafety.ClaimSettlesOnce | backend/src/api/orders.js:1256-1262 | A verify reply adds the order's amount to its own key exactly when it claims the order |
| OrderSafety.SecondVerifyChangesNothing | backend/src/api/orders.js:1233-1253 | Of two requests waiting on one order the second changes neither order, card, hash nor spend |
| OrderSafety.ApprovalCoupling | backend/src/api/orders.js:562-608 | In every reachable state an order awaits approval exactly when one approval of it is pending, and no order has two approvals |
| OrderSafety.NoOrderStateDrift | backend/src/api/dashboard.js:1014-1030 | The order_state_drift rollback is unreachable |
| OrderSafety.SuspendOverwritesNothing | backend/src/api/dashboard.js:790-798 | Suspend's unguarded order UPDATE does what the guarded one of reject would do |
| OrderSafety.DecisionIsFinal | backend/src/api/dashboard.js:953-1020 | A decided approval is never decided again in any run |
| OrderSafety.PaidAtMostOnce | backend/src/jobs.js:426-464 | In every run at most one CTX payment that may have landed is sent per order, counting one in flight |
| OrderSafety.RefundedAtMostOnce | backend/src/fulfillment.js:407-434 | In every run at most one refund send starts per order |
| OrderSafety.NeverPaidAndRefunded | backend/src/fulfillment.js:574-582 | No order is both paid to CTX and refunded, or delivered and refunded, or retried past its maximum |
| OrderSafety.PaidFailureIsQuarantined | backend/src/api/vcc-callback.js:333-348 | A failure of an order whose CTX payment went out is quarantined or left failed, and starts no refund |
| Answers.ArriveAnswers | backend/src/api/orders.js:385-412 | A request goes on exactly for an amount from one cent to ten thousand dollars, with the snapshot of its key |
| Answers.CreateAnswers | backend/src/api/orders.js:525-733 | The limit on the snapshot comes first, then the policy on the fresh row, then the payment instructions, each with its own answer |
| Answers.PayableWrites | backend/src/api/orders.js:682-753 | A payable answer appends one pending order with the request's key, amount and deadline, and no trace of a payment |
| Answers.AwaitingWrites | backend/src/api/orders.js:562-618 | An order over the threshold is appended waiting, together with its pending approval, open for two hours |
| Answers.RefusedWritesNothing | backend/src/api/orders.js:525-560 | Every other answer writes no order, no approval and no key |
| Answers.SuspendAnswers | backend/src/api/dashboard.js:780-787 | Suspension sets the flag of the one key and nothing else |
| Answers.SuspendedCreatesNothing | backend/src/policy.js:56-66 | While a key is suspended none of its requests creates an order, not even one that arrived before |
| Answers.StaleAnswers | backend/src/jobs.js:171-181 | A pending order expires in the job exactly when it is more than two hours old |
| Answers.BeginVerifyAnswers | backend/src/api/orders.js:1079-1152 | A pending order's request waits for the node exactly before the payment deadline with a hash on no other order; from the deadline on the order expires |
| Answers.VerifyReplyAnswers | backend/src/api/orders.js:1201-1253 | A reply ends its request's wait, and does nothing else unless it claims the order |
| Answers.RefundReplyAnswers | backend/src/fulfillment.js:369-524 | A landed send refunds the order under its hash; a failed one leaves it in refund_pending with the first hash seen |
| Answers.RefundDecisionAnswers | backend/src/fulfillment.js:407-582 | On a row of any status: paid, it is quarantined unless terminal; unpaid, it waits for its refund unless frozen or already there, with one send exactly if it has a sender |
| Answers.FailureAnswers | backend/src/fulfillment.js:407-582 | A failed order waits for its refund, and one is sent where there is a sender, unless a payment is recorded or the platform frozen; then it keeps the failed status |
| Answers.CallbackAnswers | backend/src/api/vcc-callback.js:199-430 | A callback delivers with its card, fails, or leaves a terminal order alone; a failed paid order is quarantined |
| Answers.PassAnswers | backend/src/jobs.js:246-269 | A pass starts only while none is under way, over distinct rows that meet the filter, as they are then and in their order, and ends behind the last |
| Answers.HardFailPollAnswers | backend/src/jobs.js:284-376 | The reconciler fails and refunds an order only when vcc says its job is not in progress; every other reply changes nothing |
| Answers.RecoverPollAnswers | backend/src/jobs.js:545-584 | The recovery job fails an order exactly when vcc reports it failed and the order is still early |
| Answers.InvoiceAnswers | backend/src/jobs.js:393-424 | An invoice is recorded with its job; the order is then paid, polled for its payment URL, or, paid before, only announced |
| Answers.JobPollAnswers | backend/src/jobs.js:393-464 | A job still at its invoice is paid; one past it is marked paid and announced and never paid again |
| Answers.SendAnswers | backend/src/jobs.js:118-149 | A paid send is recorded and announced, an ambiguous one with a hash parked as failed, one without a hash left, and an unsent one taken back |
| Answers.RowAnswers | backend/src/jobs.js:269-391 | A selected row past its time or its three attempts is polled or failed; any other is claimed if nobody was there first, and goes on with what it lacks |
| Answers.RefundStartsIff | backend/src/jobs.js:284-386 | In every reachable state a step starts a refund exactly when it finds, unfrozen, that an ordering, unpaid order with a sender failed: by a failed callback, a hard failure vcc does not contradict, or a failure vcc reports |
| Approvals.ApproveAnswers | backend/src/api/dashboard.js:951-1052 | An open approval is approved exactly up to the end of its window and with payment instructions, and its order turns pending; otherwise nothing changes |
| Approvals.RejectAnswers | backend/src/api/dashboard.js:1093-1127 | Rejection rejects the approval and its order, and nothing else changes |
| Approvals.ExpireAnswers | backend/src/jobs.js:794-848 | A pending approval expires, and its order is rejected, exactly past its window |
| Approvals.SuspendRoundAnswers | backend/src/api/dashboard.js:787-807 | A suspension rejects the open approvals of its key and of no other |
| Approvals.OverThresholdOnlyApproved | backend/src/policy.js:250-280 | In every run an order over its key's threshold has an approval, and is past waiting and rejection exactly when that approval was approved |
| Approvals.OrdersFollowDecisions | backend/src/api/dashboard.js:951-1127 | In every run an order waits exactly while its approval is pending and is rejected exactly when the approval was rejected or expired |
| Resend.SendReached | backend/src/jobs.js:378-464 | From empty tables there is a run under all the assumptions up to a first CTX send in flight |
| Resend.CrashInSendResendsIff | backend/src/jobs.js:440-464 | After a crash between send and record some run sends again exactly while the order has attempts left; without attempts none ever does |
| Resend.HashlessAmbiguityResendsIff | backend/src/jobs.js:124-148 | An ambiguous send without a hash is not parked, and some run sends again exactly while the order has attempts left |
| Resend.PaidTwiceFromEmpty | backend/src/jobs.js:118-149 | From empty tables a single step against an assumption leaves an order that may be paid twice |
| Handlers.StepSound | backend/src/api/orders.js:483-756 | Every step keeps the invariant together with settled spend as the sum of delivered orders; each handler below therefore keeps its store valid |
| Handlers.Store.PostOrder | backend/src/api/orders.js:483-756 | The transaction answers and writes what the creation step does: limit check on the snapshot first, policy on the fresh row, inserts last |
| Handlers.Store.FindHash | backend/src/api/orders.js:1142-1152 | True exactly when another row carries the hash |
| Handlers.Store.BeginVerify | backend/src/api/orders.js:1079-1152 | Up to the node call: refused, expired by the payment deadline, refused for a used hash, or waiting |
| Handlers.Store.ClaimPayment | backend/src/api/orders.js:1153-1262 | After the node call: writes the order and adds the spend exactly when the payment verified, the row is still pending and unhashed and the hash is free; reports whether it did |
| Handlers.Store.ScheduleRefund | backend/src/fulfillment.js:407-477 | Claims refund_pending once, sends only for a refundable row, and does nothing while frozen |
| Handlers.Store.RefundReturned | backend/src/fulfillment.js:369-524 | Refunded under its hash, or the first hash of a failed send kept |
| Handlers.Store.RefundOrQuarantine | backend/src/fulfillment.js:574-582 | A recorded CTX payment decides between quarantine and refund |
| Handlers.Store.VccCallback | backend/src/api/vcc-callback.js:199-430 | Has the effect of the callback step in all three cases |
| Handlers.Store.Approve | backend/src/api/dashboard.js:951-1052 | Writes both rows or, on any failure, neither |
| Handlers.Store.Reject | backend/src/api/dashboard.js:1107-1127 | Compare-and-swap on the approval, then the guarded order write |
| Handlers.Store.Suspend | backend/src/api/dashboard.js:780-807 | The loop over the key's pending approvals is a sequence of suspend steps |
| Handlers.SuspendRejectsPending | backend/src/api/dashboard.js:787-807 | After the loop exactly the approvals pending on the key are rejected and no other approval changed |
| Handlers.SuspendLeavesNoneAwaiting | backend/src/api/dashboard.js:787-807 | No order of the suspended key's approvals still awaits approval, and the invariant holds |
| Handlers.Store.ExpireApprovalRequests | backend/src/jobs.js:794-848 | The loop is a sequence of expiry steps |
| Handlers.ExpiryExpiresPending | backend/src/jobs.js:794-848 | After the loop exactly the pending approvals past their window are expired |
| Handlers.Store.ExpireStaleOrders | backend/src/jobs.js:171-181 | The UPDATE over the table is a sequence of stale-order steps |
| Handlers.StaleExpiresPending | backend/src/jobs.js:171-181 | It expires exactly the pending orders older than two hours |
| Handlers.Store.SelectRows | backend/src/jobs.js:254-267 | Selects exactly the rows that match the job's filter and its time cut-off, each once |
| Handlers.Store.StartJob | backend/src/jobs.js:1130-1157 | A job starts its pass over the selected rows unless another one is under way |
| Handlers.Store.NextRow | backend/src/jobs.js:269-391 | Takes the next selected row to its first await: hard failure with its guarded write, status poll, or the claimed retry |
| Handlers.Store.ClaimRow | backend/src/jobs.js:378-424 | Only a row still ordering with the attempt counter it was selected with starts its retry, and its counter rises by one |
| Handlers.Store.JobReturned | backend/src/jobs.js:269-590 | Every reply to an awaited call of a job has the effect of its step, and keeps the store valid under the stated assumptions |
| Handlers.Store.SendReturned | backend/src/jobs.js:118-149 | The record of a payment and notifyPaid after it, the park of an ambiguous send exactly when it carries a hash, whatever the row's status |
| Handlers.Store.RecoverReturned | backend/src/jobs.js:545-584 | A reported failure is written only to a row that is still early, and only then refunded or quarantined |
| PayOnce.Ledger.HydrateOnce | sdk/src/casper-signer.ts:826-852 | The file is added to the map once per process, and a map in step with the file stays so |
| PayOnce.Ledger.Get | sdk/src/casper-signer.ts:874-879 | Answers what the process knows once it has read the file, and changes nothing it knows |
| PayOnce.Ledger.Record | sdk/src/casper-signer.ts:881-884 | A process started after a crash finds the recorded hash; from a map in step with the file no other order's entry is lost |
| PayOnce.Ledger.Clear | sdk/src/casper-signer.ts:886-890 | From a map in step with the file the entry is found neither here nor after a restart, and every other one still is |
| PayOnce.RecordThenCrash | sdk/src/casper-signer.ts:1217-1228 | Recorded, crashed, restarted, looked up: the hash to verify is found |
| PayOnce.CallMoves | sdk/src/casper-signer.ts:1085-1170 | A second call joins the first; only an order seen pending goes on to be paid; a throw before the signature ends the call and frees its lock |
| PayOnce.AcquireAnswers | sdk/src/casper-signer.ts:1175-1232 | Behind a free lock a recorded hash goes to verification and the lock is freed; without a record the lock is kept for paying |
| PayOnce.SignedCallMoves | sdk/src/casper-signer.ts:1201-1281 | A signed deploy is recorded, then sent, then verified with the lock freed; only success clears the record |
| PayOnce.BackendMoves | backend/src/api/orders.js:1201-1253 | In the backend only a pending order is delivered, under its hash, or closed |
| PayOnce.OneInsideOverRuns | sdk/src/casper-signer.ts:1175-1232 | Over every run, overlapping processes and crashes included, at most one live process is between its missed lookup and the end of its broadcast for an order |
| PayOnce.NextInv | sdk/src/casper-signer.ts:1085-1281 | Every step of any number of processes that share the ledger keeps: everything sent is on disk until delivered, at most one hash sent, nothing sent unrecorded |
| PayOnce.PayOnceShared | sdk/src/casper-signer.ts:1085-1281 | Processes that may overlap send at most one hash per order as long as no lookup misses an entry on disk, no write drops another order's entry, and no entry is cleared while another process is underway with the order |
| PayOnce.NonOverlappingShare | sdk/src/casper-signer.ts:826-890 | Processes that do not overlap always share the ledger in that sense |
| PayOnce.PayOnceOverRuns | sdk/src/casper-signer.ts:1085-1281 | Over every sequence of pay calls, verify failures, crashes and restarts of non-overlapping processes at most one deploy hash is ever sent per order |
| PayOnce.SentIsOnDisk | sdk/src/casper-signer.ts:826-890 | Until the order is delivered, the hash sent for it is on disk, whatever crashed, for all processes that share the ledger |
| PayTwice.PaysAgainIff | sdk/src/casper-signer.ts:1175-1232 | A further pay call for a pending order some hash was sent for sends a second one exactly when the process's map, once it has read the file, lacks the order |
| PayTwice.EarlyReadPaysTwice | sdk/src/casper-signer.ts:826-879 | From the empty world: a process that read the file before the payment pays again |
| PayTwice.DroppedEntryPaysTwice | sdk/src/casper-signer.ts:854-866 | From the empty world: another process writes its map over the entry, and a process that reads the file afresh pays again |
| PayTwice.LateLookupPaysTwice | sdk/src/casper-signer.ts:1125-1255 | From the empty world: the status check precedes, and the lookup follows, another process's payment and clear; a delivered order is paid again |
| OrderLock.MutualExclusion | sdk/src/casper-signer.ts:931-991 | In every run with crashes and steals at most one live process is inside the critical section |
| OrderLock.StepAnswers | sdk/src/casper-signer.ts:931-991 | A process enters exactly while there is no file, only a file past the maximum hold is stolen, and whoever leaves removes the file |
| OrderLock.NextGetsIn | sdk/src/casper-signer.ts:931-991 | From no file, in the runs themselves: after a release the next process gets in, beside a holder nobody does, and after a crash exactly past the maximum hold |
| OrderLock.LateUnlinkBreaksIff | sdk/src/casper-signer.ts:961-970 | An unlink delayed past its stat lets a second process in exactly when one is inside |
| OrderLock.WaitAlone | sdk/src/casper-signer.ts:931-985 | A lone waiter stays exactly while the file is neither stale nor its deadline reached; at the first turn where one holds it steals the stale file or times out; a free lock is taken at once |
| OrderLock.WaitBehindCrashed | sdk/src/casper-signer.ts:1172-1174 | A lone waiter behind a crashed holder gets the lock before its deadline |
| CanonicalJson.TextDecodes | backend/src/api/orders.js:41-59 | A text starts with the canonical text of at most one value: nested arrays, objects and escaped strings decode uniquely |
| CanonicalJson.QuoteDecodes | backend/src/api/orders.js:45-47 | Quoted strings, escapes and lone surrogates included, decode uniquely |
| CanonicalJson.SortedListingUnique | backend/src/api/orders.js:51 | Two sorted listings of one set of properties are the same listing |
| CanonicalJson.EqualText | backend/src/api/orders.js:41-59 | Values equal up to property order have the same text |
| CanonicalJson.CanonicalIs | backend/src/api/orders.js:41-44 | The function answers with that text exactly when the nesting is within the depth bound |
| CanonicalJson.CanonicalDecidesEquality | backend/src/api/orders.js:41-59 | Within the depth bound two outputs are equal exactly when the values are equal up to property order |
| Idempotency.RowStaysOverRun | backend/src/jobs.js:884-894 | For a day a cached row stays as it is through every run and its pair creates nothing |
| Idempotency.GateAnswers | backend/src/api/orders.js:237-463 | What is answered before the transaction: bad body, key too long, nesting too deep, frozen, the field checks, in this order |
| Idempotency.PostChangesIff | backend/src/api/orders.js:483-756 | An order is added exactly by a request that got through, had no row and was not refused; with a key it leaves its answer in a row, and every other request changes nothing |
| Idempotency.RetryAnswersIff | backend/src/api/orders.js:310-507 | After any run within a day a retry gets what the cache has for it (the stored answer for a body equal up to property order, else the conflict) exactly when nothing before the transaction refuses it; it never changes anything |
| Idempotency.FrozenRetryRefused | backend/src/api/orders.js:314-319 | A request that created an order, retried unchanged while the platform is frozen, is answered 503 |
| Idempotency.RefusedRetryNoConflict | backend/src/api/orders.js:321-463 | A different body that the field checks refuse gets their error, not the conflict |
| Idempotency.AtMostOneOrder | backend/src/api/orders.js:620-753 | Until its row is pruned a pair creates at most one order over every run |
| Idempotency.PruneOnlyAfterADay | backend/src/jobs.js:884-894 | A row is deleted exactly by the prune job and exactly when it is more than a day old |
| EventStream.NormaliseApartIff | sdk/src/client.ts:487-490 | Normalising two chunks apart equals normalising them together exactly when the cut does not separate CR from LF |
| EventStream.EventsAppend | sdk/src/client.ts:502-506 | Cutting a text, and cutting on from what was left, give the same events and the same rest |
| EventStream.CutEvents | sdk/src/client.ts:502-535 | The inner loop ends at the first event that decides, or leaves exactly the incomplete rest |
| EventStream.ReadStream | sdk/src/client.ts:474-537 | For every chunking that does not cut a CR LF the outcome is that of splitting the whole stream at once; it is an overflow exactly when the buffer goes over its cap before any event decides |
| EventStream.ReadAnswers | sdk/src/client.ts:474-537 | Of a stream under the cap whose text splits at its blank lines: the first event whose first data line is ready, failed, expired or null gives card, failure, expiry or the TypeError; events without data, not JSON or in progress decide nothing; without any the stream just ended |
| EventStream.SilentIff | sdk/src/client.ts:507-516 | An event decides nothing exactly when it has no data line, or its first one is not JSON or reports progress |
| EventStream.SplitIsEvents | sdk/src/client.ts:502-506 | The events are the stretches up to each first blank line left, and the rest holds none |
| EventStream.ReadTwice | sdk/src/client.ts:474-537 | Two such chunkings of one stream under the cap read the same |
| EventStream.CutLineEndEndsEvent | sdk/src/client.ts:487-490 | A cut inside a CR LF ends an event that the stream does not end, for every text around it |
| WaitForCard.WaitByPolling | sdk/src/client.ts:544-570 | Every poll starts before the deadline; the first phase that is not in progress gives the card, the failure, the expiry or the error; a timeout comes only once the deadline has passed |
| WaitForCard.Wait | sdk/src/client.ts:410-444 | A card, failure, expiry, 404, 401, abort or plain end of the stream is the result without any poll; transport errors, other statuses, an overflow and the TypeError go on to polling under the same deadline, and the wait is over at most one turn after it |
| Hmac.Payload2Injective | backend/src/lib/hmac.js:132-134 | The payload without a nonce determines timestamp, order and body |
| Hmac.Payload3Injective | backend/src/lib/hmac.js:132-134 | The payload with a nonce determines all four fields |
| Hmac.VersionsCoincideIff | backend/src/lib/hmac.js:45-66 | A payload without a nonce is one with a nonce exactly when its body is nonce "." body |
| Hmac.FieldForms | backend/src/lib/hmac.js:43-66 | A timestamp is decimal digits; an order id or nonce is not empty and has neither a dot nor a control character |
| Hmac.SafeEqHexIff | backend/src/lib/hmac.js:259-268 | The comparison is equality up to letter case on hex text of one length, except that an odd last digit is not compared |
| Hmac.HexTextIff | backend/src/lib/hmac.js:259-268 | Hex text is not empty and has hex digits only, small or capital |
| Hmac.RefusalsIff | backend/src/lib/hmac.js:175-252 | Missing fields and timestamps outside the skew are refused exactly, with their own answers; nothing is accepted outside the window, without an order id in form, or below the required version |
| Hmac.NumberReads | backend/src/lib/hmac.js:189-201 | The timestamp is read as decimal digits |
| Hmac.SignedIsAccepted | backend/src/lib/hmac.js:175-252 | Every signature verifies within the skew on either side of the clock, with the version it was made for; without a nonce it fails where version 3 is required |
| Hmac.AcceptedIff | backend/src/lib/hmac.js:175-252 | For every request at any time: a signature is accepted, at version 3 and at version 2, exactly when its own timestamp is within the skew and the request presents the fields it covers |
| Hmac.NoVersionConfusion | backend/src/lib/hmac.js:175-252 | Over one body a request is accepted exactly within the skew, with the signed timestamp, order and nonce, and the versions never pass for each other |
| Breakers.WebhookTripsIff | backend/src/fulfillment.js:78-97 | A failure trips exactly when four failures since the last success or trip precede it and the oldest of them is in the window |
| Breakers.FailureTracked | backend/src/fulfillment.js:85-96 | Filtering, appending and comparing with the threshold decides what the full history says |
| Breakers.WebhookCircuits.CircuitIsOpen | backend/src/fulfillment.js:72-76 | Open exactly when some trip of the origin's history is less than a cooldown old |
| Breakers.WebhookCircuits.RecordCircuitFailure | backend/src/fulfillment.js:78-97 | Announces exactly the trips of the full history, shortens no open cooldown and touches no other origin's history |
| Breakers.WebhookCircuits.RecordCircuitSuccess | backend/src/fulfillment.js:99-118 | Starts a new run of failures and leaves every open cooldown as it is |
| Breakers.VccTripsIff | backend/src/vcc-client.js:69-84 | A failure trips exactly when two close failures since the last success or trip end the history and it follows within the window |
| Breakers.VccCircuit.Guard | backend/src/vcc-client.js:64-68 | Passes exactly when no trip of the history is less than a cooldown old |
| Breakers.VccCircuit.RecordVccFailure | backend/src/vcc-client.js:69-84 | Announces exactly the trips of the full history and shortens no open cooldown |
| Breakers.VccCircuit.RecordVccSuccess | backend/src/vcc-client.js:85-96 | Starts a new run of failures and leaves an open cooldown as it is |
| Breakers.OpenStays | backend/src/vcc-client.js:85-96 | Nothing recorded later closes a gate that is open at a given time |
| Otp.FailKeepsInv | backend/src/api/auth.js:545-583 | Counting a failure, and locking out at the limit, keeps every row in step with the log: used once its code is spent, its counter the failures since its minting |
| Otp.LimitReachedIff | backend/src/api/auth.js:560-569 | Lockout strikes exactly when some live code meets its fifth failure |
| Otp.ActiveIsLive | backend/src/api/auth.js:453-462 | The active rows of an email are exactly the codes minted for it in the last fifteen minutes and neither redeemed nor locked out since |
| Otp.MintKeepsInv | backend/src/api/auth.js:453-481 | Minting keeps at most three active codes per email |
| Otp.RedeemKeepsInv | backend/src/api/auth.js:533-543 | Redeeming keeps the invariant; every redemption has a minting of its own before it |
| Otp.MintedBetween | backend/src/api/auth.js:533-543 | Between two redemptions of one code it was minted again |
| Otp.FiveFailuresLockOut | backend/src/api/auth.js:569-583 | A code with five failures since its minting is not active |
| Otp.AuthCodes.Login | backend/src/api/auth.js:439-481 | Before there is any user only the configured owner gets a code; otherwise a code is sent exactly when fewer than three are live by the log |
| Otp.AuthCodes.Verify | backend/src/api/auth.js:533-622 | Logs in exactly on a code minted in the last fifteen minutes and neither redeemed nor locked out since; locks out exactly on a live code's fifth failure; leaves no matching code active, and lets only the configured owner be the first to log in |
| Otp.AuthCodes.PruneExpired | backend/src/jobs.js:913-922 | Deletes only rows an hour past their expiry and changes no one's active codes |
| RefundAmount.PrintedReadsBack | backend/src/fulfillment.js:317-330 | toStroopsOrZero inverts stroopsToDecimal on every natural number |
| RefundAmount.ReadIff | backend/src/fulfillment.js:317-324 | An amount is read exactly from its digits, with or without a fraction, and with nothing but white space around them |
| RefundAmount.ReadsRoundedDown | backend/src/fulfillment.js:317-324 | Reading rounds down to whole stroops and is exact exactly when no digit past the seventh counts |
| RefundAmount.RefundWorth | backend/src/fulfillment.js:339-343 | The computed refund never exceeds what was paid, falls short by less than two stroops, and is exact exactly when both amounts have at most seven decimals |
| RefundAmount.SentWorth | backend/src/fulfillment.js:484-504 | The amount handed to the sender, fallback included, is positive, at most what was paid and less than two stroops short of it |
| RefundAmount.ValidFromOneStroop | backend/src/fulfillment.js:293-299 | An amount of a stroop or more is valid; zero, and what cannot be read, is not |
| RefundAmount.SentIs | backend/src/fulfillment.js:484-504 | Nothing is sent without a valid quoted amount; else the printed sum of both amounts, or the quoted text itself exactly when the sum comes to no stroop |
| Webhooks.RedactedOnly | backend/src/fulfillment.js:34-46 | Redaction leaves no number, cvv or expiry and takes nothing else away |
| Webhooks.SealsIff | backend/src/lib/card-vault.js:36-152 | A card is sealed exactly when each field it has can be, field by field, with its brand in clear |
| Webhooks.OpensWhatItSealed | backend/src/lib/card-vault.js:36-152 | A sealed card opens to itself, absent fields included |
| Webhooks.RehydrationRestores | backend/src/jobs.js:697-751 | While the order holds the sealed card, redact then rehydrate gives back number, cvv and expiry; the payload is the first one again exactly when the brands agree |
| Webhooks.NoCardNoData | backend/src/jobs.js:697-731 | A retry carries card data only of a delivered order that still holds a card number, and then exactly that card |
| Webhooks.VaultFailureIff | backend/src/jobs.js:697-750 | A retry is given up unsent exactly when a delivery lacks its card, the order holds it, and some field of it does not open |
| Webhooks.RetryProgress | backend/src/jobs.js:754-787 | Every recorded retry takes one retry away at least, and a settled row is never due again |
| Webhooks.RetryAnswers | backend/src/jobs.js:732-787 | Only an accepted and recorded retry delivers the row; a failed one counts and waits five minutes after the first, thirty after the second, and is the last after the third; an unrecorded one changes nothing |
| Webhooks.RetriesBounded | backend/src/jobs.js:668-790 | Over every run a queued payload is retried and sent at most three times more, besides retries a crash left unrecorded, and then is settled; until then every recorded retry took one away |
| Webhooks.WebhookQueue.SentAtMostFourTimes | backend/src/fulfillment.js:252-276 | In every reachable state of the queue a payload was sent at most four times besides unrecorded sends, and carries no card data |
| Webhooks.WebhookQueue.Enqueue | backend/src/fulfillment.js:252-287 | Only a webhook not accepted at once is queued, redacted, with its first delay |
| Webhooks.WebhookQueue.RetryWebhooks | backend/src/jobs.js:668-790 | Every due row is retried once and no other row is touched; each send and each lost record is counted; no queued payload ever carries card data |
| Streams.SumIsAllHeld | backend/src/api/orders.js:120-141 | Per-key counts that match the open streams add up to them |
| Streams.StreamSlots.TotalIsSum | backend/src/api/orders.js:120-141 | In every reachable state the total is the sum of the per-key counts |
| Streams.StreamSlots.AllClosedAllFree | backend/src/api/orders.js:136-141 | With all streams closed the total is zero and no entry is left |
| Streams.StreamSlots.TryAcquire | backend/src/api/orders.js:123-134 | Refuses exactly at the two caps, the total first, and otherwise counts the stream |
| Streams.StreamSlots.CloseStream | backend/src/api/orders.js:1368-1378 | Releases the slot on the first call and does nothing afterwards; the counters keep matching the open streams |
| Streams.StreamSlots.OpenOrderStream | backend/src/api/orders.js:1326-1478 | Holds its slot exactly when header and first write succeed on an order that is not terminal |
| Streams.StreamSlots.Tick | backend/src/api/orders.js:1450-1475 | Closes exactly on a vanished row, a terminal state or a throw, and touches no other stream |
| Streams.StreamSlots.Keepalive | backend/src/api/orders.js:1478-1490 | Closes exactly on a throw, and touches no other stream |
| Streams.StreamSlots.BusEvent | backend/src/api/dashboard.js:148-185 | A dashboard stream closes exactly on a failed write |
| Streams.StreamSlots.ClientClose | backend/src/api/orders.js:1387-1389 | A client's close releases the slot if nothing did before, once somebody listens for it |
| Streams.ReleasedAtFirstEnd | backend/src/api/orders.js:1368-1490 | Over every sequence of tick, keepalive, bus and close events an open stream's slot is released once, at the first event that ends it, and not at all if there is none |
| Streams.LostSlotStays | backend/src/api/dashboard.js:83-107 | A slot whose request never got as far as its close handler is released by no sequence of events |
| Streams.WiredSlotReturns | backend/src/api/dashboard.js:109-124 | Once the handler is wired the slot is released exactly once, by the client's close at the latest |
| Streams.StreamSlots.HandleAll | backend/src/api/orders.js:1368-1490 | Under any interleaving of the events of all streams each slot is released as often as its own stream's events release it |
| Streams.StreamSlots.OpenDashboardStream | backend/src/api/dashboard.js:74-196 | Leaves the stream without a close handler exactly when the key query throws; a failed first write closes the stream but leaves its timers running |

## Left out

- Network, node and mail calls: they are parameters or nondeterministic answers (`JobReply`, `NodeReply`, `RefundReply`, `Fire`).
- Cryptography: HMAC, SHA-256 and the card vault are uninterpreted functions with the properties named above.
- Sandbox keys: they insert delivered rows without touching settled spend.
- Time cut-offs of the job SELECTs are any predicate; the frozen flag's short-circuits of order creation and reconcile, and the approve handler's early checks, are left out: the model admits more runs than the code.
- `updated_at`, error texts, audit rows, decision logs, notifications and events.
- The configurable approval window: the model has the default of two hours.
- Stored spend limits that do not parse, and idempotency rows without a fingerprint.
- The legacy payment handler and the order insert helper are not part of this model, except that a pending order may enter `ordering`.
- The reconcile and recover loops as single methods: they suspend at every row, so their stretches between awaits are methods of `Handlers.Store`, and the order of those is that of the runs.
- Canonicalisation, idempotency and the pay call as methods: their runs span awaits or are recursive, so they are functions and steps.
- A corrupt ledger file, a failing write of it, and the combined submit override, which records after sending.
- Wallet login, which also makes users, sessions, and the dashboards a redeemed code opens.
- Duplicated or non-string request headers.
- Retention jobs other than those for idempotency rows and login codes: they touch no column the theorems speak of, apart from purged cards, which `Webhooks.NoCardNoData` covers.
- Listing and platform endpoints, web application, CLI and MCP formatting.
- Policy.NotBlockedIff: amounts and limits are cents, so the rejection of amounts that are not finite numbers is the single case of amount zero.
- Hmac.SignedIsAccepted: arguments of types other than string are not modelled.
