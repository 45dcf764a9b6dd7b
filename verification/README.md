# A verified model of the payment gateway

The gateway takes a payment request with an idempotency key, writes a PENDING
attempt, calls a card processor (the PSP), and records what came of it. It must
not charge a card twice although clients retry, the PSP times out, webhooks come
late, twice or never, and the server dies between any two statements.

The project models that protocol as a step machine and proves what holds in every
state of every run. Around it are models of the PSP's single-flight cache, the
outgoing webhook dispatcher, the migration runner and the signed webhook payload.
Verify it with `dafny verify dfyconfig.toml`.

## How the source maps to the model

* `Model` holds the rows of the tables and the two transactions as atomic changes
  of them: `StartAttempt` (createPendingAttempt) and `Settle` (persistSuccess).
  `FateOf` is what is promised of each card token (README.md:87-119).
* `SingleFlight` is the mock PSP: one step per critical section and per channel
  operation, with a ledger of captures. `SingleFlightProofs` proves its invariant.
* `Protocol` is the whole system. A handler is a program counter that names its
  next database statement; `PayEffect`, `SettleEffect` and `HookEffect` say what
  each statement of PayInvoice, persistSuccess, persistFailure and
  ProcessPSPWebhook does; `Holds` and `Wants` say which row locks and unique-index
  slots it has and needs. The writes of an open transaction are private until its
  commit. Actions: a client calls, a webhook arrives (again), a handler runs a
  statement, a statement fails, a commit takes effect but is reported as failed, a
  webhook's read of its attempt fails, a PSP call times out or breaks, its request
  is sent again because it carries an Idempotency-Key (internal/psp/http_client.go:70-72),
  the server loses a handler, the PSP takes a step.
* `Invariant`, `Framework`, `SharedSteps`, `Statements` and `Steps` prove the invariant. Each
  statement is looked at alone; the locks keep the handlers apart.
* `Money`, `Agreement`, `Calls`, `Settlement`, `Announcements`, `Stranded`, `Rescue`,
  `Refinement`, `Deadlock`, `FailureEvents`, `Recovery` and `Completion` draw the
  conclusions; `Witnesses` holds runs that show what can happen.
* `Tables` and `PaymentService` are the repositories and the service in their own
  form: classes whose methods change tables statement by statement and overwrite
  the attempt they are handed, while any statement may fail, before or after it has
  taken effect, and other sessions commit during lock waits, during the PSP call
  and between transactions. They are proved against the same atomic changes
  (`PaymentSpec`); as long as no statement reports a failure, the outcome is exactly
  the one the rows call for, so that an error always has a failing statement behind
  it. `PaymentGuarantees` says what a caller may rely on, that the rows' invariant
  is kept, and that these methods and the protocol's handlers do the same.
  `MockPsp` is the PSP's cache in this form.
* `Retry`, `Dispatch` and `Dispatcher` are the outbox and its workers, as a machine
  for any number of workers and as classes.
* `Migrations` is the migration runner, `Signature` the signed payload.
* `Sums` and `Runs` are helpers.

Where documentation and code differ, the code is modelled:

* DESIGN.md:39 hashes the invoice id and the card token; the code puts a line break
  between them (internal/service/payment_service.go:600-603), without which the
  text would not determine the two (`Signature.PayRequestTextIsInjective`).
* DESIGN.md:101 promises that a request with the original key always gets the
  original record of a PAID invoice. A call that looks its key up before the first
  one commits it, and locks the invoice after it is PAID, is refused instead:
  `Witnesses.PaidYetRefused` shows a run with both answers to one request,
  `Calls.EarlyCallReplays` that such a call is never answered with any other
  refusal while no statement fails, `Agreement.KnownKeyEffects` that it meets this
  one exactly then.
* DESIGN.md:113 promises that webhooks more than five minutes off are rejected. One
  dated 292 years or more ahead is not: the difference of the times saturates and
  its negation wraps around (`Signature.VerifyIff`, `Signature.FarFutureIsAccepted`).
* The code leaves a FAILED attempt without a payment.failed event if the server
  dies between two statements (internal/service/payment_service.go:517-544);
  `FailureEvents` says exactly when.
* applyWebhook takes a failing read for an unknown attempt, so that a webhook can
  be marked PROCESSED without having been applied
  (internal/service/payment_service.go:239-242). `Witnesses.MissStrandsAttempt`
  shows a run in which the card is charged and the attempt stays PENDING until the
  client asks again; `Rescue.SettledLaterIff` says exactly when that is so, and
  `Settlement.ProcessedMeansSettled` that a webhook whose read did not fail is
  applied before it is marked.

## Model

| member | source | states |
|---|---|---|
| Money.NoDoubleCharge | internal/service/payment_service.go:290-545 | in every reachable state an invoice was charged at most once, what was captured for it is nothing or exactly its amount, and exactly its amount if it is PAID |
| Money.FailedIsSafe | internal/service/payment_service.go:391-422 | an attempt stored as FAILED stays as it is, and the PSP has not captured and never will capture anything under its id |
| Money.SucceededIsCharged | internal/service/payment_service.go:433-509 | a SUCCEEDED attempt is final and its psp_transaction_id is the reference of the one capture made for it |
| Money.CaptureIsUnique | cmd/mock-psp/main.go:97-130 | two captures for one invoice, under whatever attempts, are the same capture |
| Money.RunGrows | internal/repository/payment_attempt_repository.go:80-111 | between any two moments of a run rows and captures are kept, fixed columns never change, settled attempts are frozen and each call's answer stays as it is |
| Steps.RunHasInv | internal/service/payment_service.go:68-545 | the invariant over tables, PSP, locks, handlers and answers holds in every state of every run |
| Steps.DoKeepsInv | internal/service/payment_service.go:68-545 | every action, faults included, keeps the invariant |
| Steps.ReplyMatchesToken | internal/psp/http_client.go:83-100 | a PSP answer makes the service record a failure only with the code promised of the token and a success only for a captured one, under its reference; the attempt is left pending if and only if the token is tok_network_error |
| PspClient.VerdictIsSafe | internal/psp/http_client.go:74-100 | the same of the classification alone, whatever is lost or garbled on the wire; pending if and only if the token leaves the outcome open or the answer did not come through |
| PspClient.VerdictTable | internal/psp/http_client.go:74-100 | of any answer whatever: the outcome is unknown exactly after a timeout, a broken connection, a 5xx status and a body that does not decode; every other 4xx is a rejection with its status, every other body decides |
| SharedSteps.StartIsAtomic | internal/service/payment_service.go:310-376 | although its reads are statements old, the commit of createPendingAttempt does what the whole transaction would do at that moment, on a payable invoice of the caller, with the key free and nothing pending |
| SharedSteps.SettleIsAtomic | internal/service/payment_service.go:459-509 | the commit of persistSuccess does what the whole transaction would do at that moment, and the attempt shown is the stored one |
| SharedSteps.SettleAgainIsNothing | internal/service/payment_service.go:463-491 | settling a settled attempt changes no row |
| Rescue.SettledLaterIff | internal/service/payment_service.go:206-242 | a charged PENDING attempt can still be settled without its request being repeated if and only if no webhook about it is marked PROCESSED, or a live handler can still settle it or have its webhook delivered again |
| Stranded.StrandedForEver | internal/service/payment_service.go:211-242 | otherwise it stays PENDING in every continuation in which the request is not repeated |
| Witnesses.MissStrandsAttempt | internal/service/payment_service.go:239-242 | a run that ends so: the card is charged, the server dies, and the webhook, whose read fails, is marked PROCESSED |
| Announcements.RunAnnounces | cmd/mock-psp/main.go:137-146 | in every run each keyed charge whose entry is closed has exactly one webhook, and no other key has any |
| Settlement.CommitsAreAtomic | internal/service/payment_service.go:290-509 | in every run each commit of the two transactions is the atomic change, under the PSP's own reference |
| Settlement.SettledAlike | internal/service/payment_service.go:445-510 | a charged attempt ends in one way only, whichever calls and webhooks settle it in whatever order: attempt, invoice and outbox are those of a single settlement |
| Settlement.DeliveriesCommute | internal/service/payment_service.go:231-258 | two sequences of deliveries of the same webhooks, however ordered and repeated, leave the same rows |
| Settlement.ProcessedMeansSettled | internal/service/payment_service.go:206-228 | a webhook marked PROCESSED, unless its read failed, has settled its attempt under the PSP's reference, the invoice is PAID and the event posted |
| Agreement.InvoiceStatusMeaning | internal/service/payment_service.go:310-375 | at most one attempt of an invoice has not failed; DRAFT means no attempt, OPEN some but none SUCCEEDED, PAID exactly that one SUCCEEDED |
| Agreement.KeysAndAttempts | internal/service/payment_service.go:333-374 | idempotency rows and attempts are in bijection and agree on business and invoice |
| Agreement.OutboxExact | internal/service/payment_service.go:492-503 | payment.succeeded events are of exactly the SUCCEEDED attempts, payment.failed events only of FAILED ones, and each shows the attempt as stored |
| Agreement.SameKeySameAnswer | internal/service/payment_service.go:260-288 | any two calls with one business and key that return an attempt asked for the same thing and return the same attempt; once settled it is equal in every field |
| Agreement.TokenDecides | cmd/mock-psp/main.go:156-192 | in every run an attempt is SUCCEEDED only if its token is charged, FAILED only if it is declined and with the code that is promised, and neither with tok_network_error |
| Agreement.NetworkErrorStaysPending | internal/service/payment_service.go:391-402 | an attempt with tok_network_error is PENDING in every reachable state, uncharged, without an event or a webhook, and every call that returns it says PENDING, as unknown |
| Agreement.AnswersAreHonest | internal/service/payment_service.go:76-136 | whatever a call answers: PENDING only after an unknown outcome, FAILED, with its code, and SUCCEEDED only as the card token says; a refusal as of another business, paid, void, uncollectible or conflicting is true of the invoice or key (ErrPaymentInProgress: next row); ErrInvoiceNotFound proves nothing, since a failing lock gives it too; no lookup that must find a row misses it |
| Calls.InProgressIsTrue | internal/service/payment_service.go:347-375 | when a call answers ErrPaymentInProgress, there was a moment, while it ran, at which an attempt of another key was pending on its invoice |
| Agreement.LookupDecides | internal/service/payment_service.go:267-287 | a call that looks up a committed key replays if and only if invoice and card token match, else it conflicts |
| Agreement.KnownKeyEffects | internal/service/payment_service.go:319-353 | once the key row of just this request is committed, the call is refused as already paid if and only if the invoice is PAID when it locks it; its insert of the key fails and both its lookups lead to the replay |
| Calls.LateCallReplays | internal/service/payment_service.go:76-136 | over a whole run, whatever others do: at every moment after it looks its key up, such a call has answered nothing but the attempt that key names or a failed statement, and, if it is still there, is about to look the key up or works on that attempt |
| Calls.EarlyCallReplays | internal/service/payment_service.go:97-134 | so does a call that looked it up before, except that it may also stand before its lock, insert or second lookup, and may also answer as already paid, when the invoice is PAID, or with the error that a failing lock gives |
| Calls.MisfitConflicts | internal/service/payment_service.go:267-269 | over a whole run: a call with a used key but another invoice or card does nothing but its lookup, and whatever it answers is the conflict or a failed statement |
| Witnesses.PaidYetRefused | internal/service/payment_service.go:319-321 | a run in which one request, sent twice at once, is answered both with the SUCCEEDED attempt and as already paid |
| Agreement.CallKeepsToItsAttempt | internal/service/payment_service.go:379-443 | a call that has an attempt goes on with it until it returns it and never starts another |
| Refinement.StepRefines | internal/service/payment_service.go:290-545 | every step is, for every invoice, one step of the atomic machine Due, Authorising, Taken, Settled or none |
| Refinement.RunRefines | internal/service/payment_service.go:290-545 | every run is followed by a sequence of phases that moves only as the atomic machine may |
| Refinement.PhaseIsUnique | internal/service/payment_service.go:310-375 | a state is in one phase only |
| Refinement.PhaseTellsMoney | cmd/mock-psp/main.go:137-193 | the phase tells what has been captured: the amount once when Taken or Settled, under the attempt and reference it names, nothing otherwise |
| Deadlock.WaitForIsAcyclic | internal/service/payment_service.go:310-367 | who waits for whom has no cycle: invoice row, key, attempt row or pending slot, outbox slot are taken in this order |
| Deadlock.NoDeadlock | internal/service/payment_service.go:459-503 | in every reachable state with an open transaction some open transaction can execute its next statement, and that brings it nearer its end |
| FailureEvents.FailedEventIff | internal/service/payment_service.go:517-544 | a FAILED attempt's event is posted in some continuation if and only if it is there already or a live handler stands between the two statements |
| FailureEvents.OnlyFaultsLose | internal/service/payment_service.go:536-544 | the event is lost only by a crash or a failing statement of the handler that is about to post it |
| FailureEvents.CrashLosesEvent | internal/service/payment_service.go:283-285 | a run in which the event is lost for good |
| Recovery.RecoveryConverges | internal/service/payment_service.go:260-288 | from any reachable state whose handlers have all died, sending a request with a committed key again and alone ends, in every order of steps and for every card token, with that call answering the attempt: paid, by one capture with one psp_ref, if the token is charged; failed, uncharged, with the promised code, if it is declined; PENDING, uncharged, if it is tok_network_error |
| Completion.NewPaymentCompletes | internal/service/payment_service.go:97-136 | from any reachable state whose handlers have all gone, a call with a free key on a payable invoice with nothing pending, running alone, ends, in every order of steps, by answering a new attempt: paid if the token is charged, failed, uncharged and announced if it is declined, PENDING if it is tok_network_error |
| Recovery.SoloNeverStuck | cmd/mock-psp/main.go:97-130 | while that call is under way, it or the PSP can take a step |
| SingleFlightProofs.PspRunKeepsInv | cmd/mock-psp/main.go:97-205 | the cache invariant holds in every run of the PSP |
| SingleFlightProofs.KeylessIsCharged | cmd/mock-psp/main.go:109-113 | a success answered to a request without a key was charged under its reference and announced |
| SingleFlightProofs.OneChargePerKey | cmd/mock-psp/main.go:116-183 | all successful answers for a key, at any two moments, carry one psp_ref and money is captured once |
| SingleFlightProofs.ClosedOnceAndFrozen | cmd/mock-psp/main.go:137-142 | a ready channel is closed at most once and a closed entry never changes |
| SingleFlightProofs.WaiterAgreesWithOwner | cmd/mock-psp/main.go:98-107 | in every run a request that owned an entry and one that waited for it answer with the same code and, if it is 200, the same body |
| SingleFlightProofs.OnlyOwnEntryDeleted | cmd/mock-psp/main.go:195-205 | failUncached deletes only the entry its own request made, and no other step removes or replaces one |
| MockPsp.Server.GetOrStart | cmd/mock-psp/main.go:116-130 | returns the cached entry, or a fresh open one that is now cached; nothing else changes |
| MockPsp.Server.CompleteCharge | cmd/mock-psp/main.go:132-193 | the owner's entry, if there is one, ends closed with what its token decides; the key is freed unless the outcome is definite; money is taken once, for a success only |
| MockPsp.Server.Finish | cmd/mock-psp/main.go:137-154 | fills in and closes the entry, if there is one, keeps the cache valid and sends the webhook of a success |
| MockPsp.Server.FailUncached | cmd/mock-psp/main.go:195-205 | frees the key and closes the entry with the error code, or does nothing without an entry |
| MockPsp.Server.AnswerWaiting | cmd/mock-psp/main.go:99-107 | a waiter answers the entry's code and body; while the entry is cached that is its definite outcome, and a success shown was charged under its reference |
| MockPsp.Server.HandleCharge | cmd/mock-psp/main.go:92-114 | a key with a definite outcome always gets that outcome and no more money is taken; a request whose key is being charged waits; any other charge decides by its own token |
| Tables.Database.LockInvoice | internal/repository/invoice_repository.go:93-134 | reads the row as it is once the lock is had; others only added to the tables meanwhile |
| Tables.Database.UpdateInvoiceStatus | internal/repository/invoice_repository.go:136-157 | updates one row's status; a failing UPDATE may have taken effect |
| Tables.Database.MarkInvoicePaidIfOpen | internal/repository/invoice_repository.go:159-180 | only a DRAFT or OPEN invoice becomes PAID |
| Tables.Database.GetByKey | internal/repository/idempotency_repository.go:48-89 | finds the row of (business, key) or says that there is none |
| Tables.Database.CreateKey | internal/repository/idempotency_repository.go:19-46 | inserts under the unique (business, key) or reports the violation and changes nothing |
| Tables.Database.GetAttempt | internal/repository/payment_attempt_repository.go:160-204 | finds the row or says that there is none |
| Tables.Database.GetPendingByInvoice | internal/repository/payment_attempt_repository.go:113-158 | finds a pending attempt of the invoice, or there is none |
| Tables.Database.CreateAttempt | internal/repository/payment_attempt_repository.go:19-49 | inserts unless the id is taken or the invoice has a pending attempt |
| Tables.Database.UpdateAttemptIfPending | internal/repository/payment_attempt_repository.go:80-111 | updates exactly a pending attempt and says whether it did |
| Tables.Database.CreateEvent | internal/repository/outbound_event_repository.go:21-59 | inserts unless the event is there; a conflict is no error |
| Tables.Database.CreateInbound | internal/repository/webhook_event_repository.go:19-44 | inserts a PENDING event or reports that the event id is known |
| Tables.Database.GetInbound | internal/repository/webhook_event_repository.go:46-84 | finds the event's status or says that there is none |
| Tables.Database.MarkInbound | internal/repository/webhook_event_repository.go:139-174 | sets one event's status |
| PaymentService.Service.CreatePendingAttempt | internal/service/payment_service.go:290-377 | ends with exactly the outcome that the rows at the lock call for, unless a statement fails: an attempt starts only on the caller's own DRAFT or OPEN invoice with nothing pending and a free key, and each refusal has the row it needs; a refusal or a taken key leaves no trace, a failure none or, if only its commit was reported as failed, the whole start |
| PaymentSpec.StartOutcomeIff | internal/service/payment_service.go:310-376 | that outcome, row by row: started if and only if the invoice is there, the caller's own, DRAFT or OPEN, with nothing pending and the key free; each refusal if and only if its own condition holds |
| PaymentService.Service.PersistSuccess | internal/service/payment_service.go:445-510 | the rows change as by one settlement and the attempt in memory becomes the stored one; an error comes only of a failing statement or a missing row, and leaves nothing written or, if the commit took effect, the whole settlement |
| PaymentService.Service.PersistFailure | internal/service/payment_service.go:512-545 | fails a pending attempt and, after whatever others commit in between, posts its event, the attempt in memory being the stored one, or shows the settled one; an error comes only of a failing statement or a missing row, and leaves nothing done, the attempt failed without an event, or both done |
| PaymentService.Service.ChargeAndSettle | internal/service/payment_service.go:379-443 | records the verdict on the PSP's answer, on the rows as they are by then, unless a statement fails |
| PaymentService.Service.ReplayIdempotentPay | internal/service/payment_service.go:260-288 | conflicts if and only if invoice or card differ; otherwise returns the settled attempt or charges the pending one again; cut short by a failing statement, it leaves the rows alone or is a part of recording the verdict on the attempt its key names |
| PaymentService.Service.PayInvoice | internal/service/payment_service.go:68-137 | a call amounts to a replay, a refusal or one new attempt with the verdict recorded, and to nothing else while no statement fails; under a new key on an invoice that is not DRAFT or OPEN it changes nothing and is refused; cut short, it leaves whole transactions, the last of which may have taken effect, or a failed attempt without its event, of its own new attempt or of the one its key names and no other |
| PaymentService.Service.ApplyWebhook | internal/service/payment_service.go:231-258 | a success is settled under the webhook's reference: a PENDING attempt is SUCCEEDED, its invoice PAID, its event posted; a failure is recorded with its code; anything else changes nothing; a read that fails, and only that, is taken for an unknown attempt |
| PaymentService.Service.ProcessPSPWebhook | internal/service/payment_service.go:167-229 | rejects exactly what Verify rejects, and a body that does not decode; neither these nor an already PROCESSED webhook change anything; otherwise the webhook is applied as above and then marked PROCESSED, or, if applying it failed, marked FAILED; an error has a failing statement behind it |
| PaymentGuarantees.ReturnedMeansSettled | internal/service/payment_service.go:260-288 | a call that returns a known outcome leaves the key row naming just this request and attempt, and the attempt settled as shown |
| PaymentGuarantees.SecondCallReplays | internal/service/payment_service.go:260-288 | a later call with the key changes no row: it returns the stored attempt if invoice and card are the same, else it conflicts |
| PaymentGuarantees.FirstCallMeans | internal/service/payment_service.go:379-443 | a call under a new key that may start starts an attempt over the invoice's amount which, unless somebody else settles it meanwhile, stays PENDING after an unknown outcome, is paid after an approval and fails with the PSP's code after a refusal, and is returned as it is stored |
| PaymentGuarantees.PayKeepsInv | internal/service/payment_service.go:68-545 | whatever becomes of a call, cut short or not, it keeps the invariant of the rows: keys and attempts in bijection, one live attempt an invoice, statuses, payloads and events that agree |
| PaymentGuarantees.WebhookKeepsInv | internal/service/payment_service.go:206-258 | so does a webhook, applied or cut short |
| PaymentGuarantees.StartsAlike | internal/service/payment_service.go:310-376 | the protocol's statements of createPendingAttempt, with nobody in between, end as the service's method does |
| PaymentGuarantees.ReplaysAlike | internal/service/payment_service.go:267-287 | a key row that is found leads the protocol's handler and the service to the same refusal or the same attempt |
| PaymentGuarantees.WebhooksAlike | internal/service/payment_service.go:244-257 | a webhook's message leads the protocol's handler and the service to the same settlement, failure or neither |
| Retry.ScheduleIsExact | internal/webhook/retry.go:31-53 | the table covers exactly attempts 1 to 7, each wait exceeds all before it together, and their sum is 8h 42m 30s |
| Dispatch.DeliveryBudget | internal/worker/webhook_dispatcher.go:51-152 | with any number of workers, stale ones included, an event is tried at most 8 * (1 + redeliveries) times |
| Dispatch.BudgetStays | internal/repository/outbound_event_repository.go:202-260 | each step keeps tries made plus tries to come within the budget |
| Dispatch.TriesToCome | internal/worker/webhook_dispatcher.go:124-152 | without another redelivery, a waiting event that nobody holds can be tried exactly 8 times less those that have failed: never more, and in some continuation just as often; any other event that nobody holds is never tried |
| Dispatch.PostingStarts | internal/service/payment_service.go:572-582 | a new event is due at once with count 0, and can be tried exactly 8 times |
| Dispatch.RedeliveryRestarts | internal/repository/outbound_event_repository.go:242-260 | redelivering an event that nobody holds makes it due at once with count 0, and it can then be tried exactly 8 times more |
| Dispatch.CountsFitStatus | internal/worker/webhook_dispatcher.go:124-152 | a waiting or delivering row has failed at most 7 times, a dead one exactly 8 |
| Dispatch.BackoffIsKept | internal/worker/webhook_dispatcher.go:129-151 | without redelivery an event has one holder at most, its k-th claim comes no earlier than the first plus k - 1 waits, and it is dead no earlier than 31350 s after its first claim |
| Dispatch.StatusMovesIff | internal/repository/outbound_event_repository.go:184-240 | a DELIVERING, DELIVERED or FAILED row can change status without a redelivery if and only if some worker still holds a claim on it |
| Dispatch.DeathStrandsRow | internal/worker/webhook_dispatcher.go:51-66 | any history can go on so that a dispatcher dies and its row stays DELIVERING for good |
| Dispatch.StaleWorkerOverwrites | internal/repository/outbound_event_repository.go:184-221 | any history can go on so that a stale worker can still overwrite DELIVERED |
| Dispatcher.Outbox.ClaimDue | internal/repository/outbound_event_repository.go:134-182 | claims min(limit, number due) events, all due, none left behind earlier than one claimed, and changes no other row; failing, it may have claimed them for nobody |
| Dispatcher.Outbox.MarkEventDelivered | internal/repository/outbound_event_repository.go:184-200 | marks one row, whatever its status |
| Dispatcher.Outbox.MarkRetry | internal/repository/outbound_event_repository.go:202-221 | writes status, count and time of one row, whatever its status |
| Dispatcher.Outbox.MarkFailed | internal/repository/outbound_event_repository.go:223-240 | writes status and count of one row, whatever its status |
| Dispatcher.Outbox.Reset | internal/repository/outbound_event_repository.go:242-260 | makes one row PENDING, due now, with count 0 |
| Dispatcher.WebhookDispatcher.DeliverDue | internal/worker/webhook_dispatcher.go:51-66 | each claimed event is dealt with exactly once, on its row as it is by then and as its own answer says, whatever others do meanwhile; if no statement fails, none is left out |
| Dispatcher.UndisturbedPoll | internal/worker/webhook_dispatcher.go:61-63 | if nobody else acts during a poll, each claimed event ends as its own delivery says or, unrecorded, as claimed, and every other row is untouched |
| Dispatcher.DeliveredMeansAnswered | internal/worker/webhook_dispatcher.go:114-121 | of such a poll: an event that has become DELIVERED was answered 2xx, one that is scheduled again or dead was not and has failed once more |
| Dispatcher.WebhookDispatcher.DeliverOne | internal/worker/webhook_dispatcher.go:68-122 | after a 2xx answer the row is DELIVERED with count and time kept; after anything else it has failed once more and waits 5 s to 6 h by the schedule, or is dead the eighth time; only if the statement fails is it unchanged; no other row changes |
| Dispatcher.WebhookDispatcher.RecordAsFailure | internal/worker/webhook_dispatcher.go:124-152 | the row is scheduled again or dead, by the count the worker read; unchanged only if the statement fails |
| Dispatcher.WebhookService.Redeliver | internal/service/webhook_service.go:100-119 | the event becomes PENDING, due now, with count 0, exactly if it exists and belongs to the business, unless the statement fails |
| Migrations.Database.Insert | internal/database/migrate.go:134-141 | records one file name; an INSERT reported as failed may have done so too |
| Migrations.Database.Migrate | internal/database/migrate.go:65-97 | a file is executed and recorded together or not at all; if the answer to the commit is lost, either may be the case |
| Migrations.Database.RecordExistingSchema | internal/database/migrate.go:105-146 | records every file if and only if businesses exists and nothing is recorded; dying leaves the first few of them recorded, perhaps the one it died on too |
| Migrations.Database.RunMigrations | internal/database/migrate.go:18-103 | a run that is done is the complete run; one that dies, which takes a failing statement, leaves a prefix of it, with or without the statement it died on |
| Migrations.FreshDeploy | internal/database/migrate.go:40-103 | from an empty database any number of dying runs and a complete one apply every file exactly once, in order, and the baseline never fires |
| Migrations.HandBuiltDeploy | internal/database/migrate.go:105-146 | on a hand-built schema, a crash in the baseline included, every file ends recorded, none is run and the schema is unchanged |
| Migrations.CompleteIff | internal/database/migrate.go:70-84 | a complete run leaves every object in place if and only if each file's objects were all there, or none were and the file is neither recorded nor baselined |
| Migrations.ShippedIsWellOrdered | migrations/001_create_businesses.sql:1-5 | the repository's eleven files meet the assumptions of these results |
| Signature.PayloadRoundTrip | internal/webhook/signature.go:73-75 | id.timestamp.body of a dot-free id parses back to exactly these three |
| Signature.PayloadParsesIff | internal/webhook/signature.go:73-75 | with any 64-bit timestamp and any body the text parses back to id, timestamp and body if and only if the id has no dot |
| Signature.DottedIdsAreAmbiguous | internal/webhook/signature.go:73-75 | a witness: one text that is signed for two ids |
| Signature.ItoaParses | internal/webhook/signature.go:52-55 | the decimal timestamp parses back and holds no dot |
| Signature.VerifyIff | internal/webhook/signature.go:44-71 | a webhook is accepted if and only if its signature is of just this id, second and body and the time is within 300 s or at least 2^63 ns ahead, and is called a replay if and only if the time is neither |
| Signature.SignedIsAcceptedInWindow | internal/webhook/signature.go:57-63 | below 2^63 ns of difference, what was signed for second t is accepted exactly within 300 s of it |
| Signature.FarFutureIsAccepted | internal/webhook/signature.go:57-63 | beyond that, what is dated ahead passes the window |
| Signature.SignatureBindsMessage | internal/webhook/signature.go:65-68 | under one secret the signature of a message with a dot-free id is accepted for another id, second or body, whatever id the sender gives, if and only if the body it was made for is itself of the form n.z or y.n.z with a 64-bit number n |
| Signature.OneDotIsNoStamp | cmd/mock-psp/main.go:213-222 | a body that starts with a brace and has one dot at most, like the PSP's, is not |
| Signature.PayRequestTextIsInjective | internal/service/payment_service.go:600-603 | the hashed text determines invoice and card token |

## Left out

Assumptions of the protocol model:

- Postgres: READ COMMITTED with the row locks and unique indexes of the migrations; a blocked statement waits, and a crash releases locks and drops uncommitted writes.
- Identifiers: fresh UUIDs never collide; a new attempt's id is drawn at its commit, where it becomes visible; ids have one canonical text.
- SHA-256 is injective, and HMAC in the text under one secret; nothing is concluded about secrets, and their generation and storage are not modelled.
- The PSP keeps its memory (DESIGN.md:164); without it no single-charge claim holds.
- The PSP's answers come from the PSP: no proxy between answers 4xx for it, and marshalling and building the HTTP request do not fail.
- A statement of the dispatcher or of redelivery acts on one row at a time; in Dispatch a poll claims its rows one after the other.
- Invoices exist when a run starts and have a positive amount (internal/service/invoice_service.go:41); none is created, voided or written off during it.
- Amounts, counts and times are unbounded integers; database timestamps are not rounded and clocks are monotone.

Not modelled:

- Liveness in general: tok_network_error never settles and a crash strands a row in DELIVERING; convergence is proved for solo runs.
- Gin handlers, middleware, logging, JSON and configuration: request plumbing without protocol state.
- GetPaymentAttempt, listing events with a cursor, endpoint settings, API keys, customers and businesses: short branch checks.
- Timestamps of returned attempts and the text of last_error.
- UpdateStatus of attempts and SetPaymentAttemptID of keys: no code calls them.
- notifyWebhook's three tries: a webhook, once sent, may be delivered never, once or often, in any order.
- MockPsp.Server.HandleCharge: runs without a pause; the waiting and the interleaving of requests are in SingleFlight.
- PaymentService.Service.ProcessPSPWebhook: what the body decodes to is an input.
- Dispatcher.WebhookService.Redeliver: reads the event once, and its reads do not fail.
- Sorting the migration files and reading them from disk: the list of files is the input; a file that needs an object that is missing fails before one that exists.
