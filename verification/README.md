# Verification of the escrow back end

A Dafny model of the money path of the escrow service, with proofs. Dafny 4.11,
`dafny verify dfyconfig.toml` checks everything.

## What is modelled

**The escrow protocol** (`Machine`, `EscrowProtocol`, `EscrowInvariant`, `EscrowProof`, `PaymentSteps`,
`ProcessSteps`, `EscrowRuns`). One transaction's rows (status, timeline, audit, outbox, payment, payout, dispute and
recorded transfer events) and the provider's view of its charges and transfers form one state. Every
service method is a process with a program counter, and one step is one database statement or one
provider call. A run is any interleaving of request handlers, duplicated release jobs, redelivered
webhooks, reconciliation, operator retries and crashes after any statement. `Inv` is inductive over
those steps. What a process has read may be stale, so its knowledge is stated through facts that never
become false again (`Later`). On top of it stand the exact limits: which overlapping retries pay twice
(`Retries`), what a crash between a committed status and its row leaves behind for good (`Crashes`), and
when money that was taken no longer protects the transaction (`Unprotected`). `AuditTrail` says from the two
ends of a committed edge what its timeline, audit and outbox rows tell.

**All transactions together** (`EscrowBook`, `Ledger`, `VirtualAccounts`, `TransferReferences`). They share
the provider's one table of charges, the space of charge references, the customers of virtual accounts and
the order in which payments were created, through which an inbound transfer finds its payment. `Ledger` sums
over the charges of that table, each once. Transfers need no such coupling, because a transfer reference
determines its transaction and attempt.

**The services as written** (`EscrowCalls`, `EscrowSettled`, `EscrowServices`, `PaymentReconcile`).
`EscrowDesk` is a class whose methods read and update the rows in place around calls to a `Provider`
object. Each method is proved to do exactly what a function of the old state says (`EscrowCalls`), each
such call is proved to be one run of the protocol, and between calls the rows and the status agree
(`InStep`).

**Around it.** The webhook processor (`Webhooks`) and what its dispatch of a transfer's outcome does to the
escrow (`TransferEvents`), one-time codes (`Otp`, and statement by statement in `OtpRaces`), the auto-release
scan (`AutoRelease`), account merge (`AccountMerge`) and chains of merges (`MergeTrails`), invoices and their
coupling to the status machine (`InvoiceTotals`, `Invoices`, `InvoiceCoupling`, `InvoiceRuns`, `InvoiceLife`,
`InvoiceServices`), what a merge does to their numbers (`MergedInvoices`), Naira text (`Naira`), phone
numbers (`Phone`), with white space as ECMAScript defines it (`WhiteSpace`), and funnel analytics
(`Analytics`).

## Hypotheses

- *Events.* Twelve of the eighteen machine events have a caller. `Shipped` names them; the protocol
  theorems are about those. `StatusRecursIff` says exactly which additional callers would break the
  status-only compare-and-set.
- *Provider.* It refuses a transfer reference that has a transfer, a successful charge and a decided
  transfer are final, and a transfer has one outcome event id. An error may hide a created transfer,
  and a lookup may go unanswered: safety does not depend on lookups being answered, so reading an error
  as "no such transfer" is harmless.
- *Retries.* A retry starts only if every retry that has still to reset the payout row has read the attempt
  count that it reads (`CountsAgree`); retries that agree overlap freely. `RetryIsSafeIff` shows that this is
  exactly what the absence of double releases needs.
- *Fees.* Creation checks only that the fee is an integer. `NeverShortIff` shows that conservation holds
  exactly when the fee is not negative, or so negative that nothing can be charged.
- *Ids.* UUIDs are fresh and contain no colon; the keyed hash of one-time codes is injective.

## Where the code and its comments differ

The model follows the code.

- *Auto-release*: a comment says that the next tick retries a failed enqueue. The row has left
  `CONFIRMATION_PENDING` by then and no later scan selects it (`FailedEnqueueIsNotRetried`).
- *Invoices*: drafts share the number `''`, and `(sellerId, number)` is unique, so a seller with one
  unsent invoice cannot create a second draft, and a draft voided before it was sent blocks the seller
  for good (`DraftRefusedIff`, `VoidedDraftBlocks`).
- *Phone numbers*: anything that cannot be mapped with certainty is said to be refused, but a ten-digit
  number with an explicit country code that starts with 7, 8 or 9 is taken for a Nigerian national number
  (`InternationalKeptIff`).
- *Invoice totals*: totals are said to follow every change of lines or rate. An edit that sends an explicit
  null rate stores no rate but computes the totals with the rate stored before, and such a draft can be sent
  (`NullRateIsSent`). `EditAgreesIff`, `OpKeepsAgreementIff` and `AgreesIff` say exactly when totals and rate
  agree, for one edit, one operation and over runs.
- *Merge and invoice numbers*: no guard looks at invoice numbers. When both accounts have one of the same
  number the database refuses the merge half way through and takes everything back. For two
  accounts that absorbed none before, that is the case exactly when both have an unsent invoice or both have
  ever sent one (`MergeCompletesIff`, `TwoDraftsCannotMerge`, `SellersMeetIff`).
- *Numbers after a merge*: sends are said never to collide on a number, but the counters are not merged. A
  survivor that never sent an invoice fails to send once for every absorbed number (`NextSendFailsIff`,
  `AbsorbedNumbersBlock`, `SendsAfterAbsorbedNumbers`).
- *Merge*: the override is meant to leave self-transaction conflicts refused, but the seller-profile
  conflict is found first and hides them (`CreatesSelfDealingIff`).
- *Chains of merges*: following `mergedIntoUserId` should lead to the account that owns the rows. A merge keeps
  that right when neither account was absorbed before, and for an account absorbed a second time exactly when
  the new target already leads to its owner (`TrailsStayRightIff`, `LinksFindTheOwner`). A parked request is
  completed without looking at what happened since, and can point its source away from its owner
  (`ParkedMergeLosesTheOwner`).
- *Payout and payment rows*: a settled payout is final, and a paid payment too, only with whole methods as
  steps. Statement by statement one late write each can undo them (`SettledRowUndoneIff`,
  `SettledRowCanBeOverwritten`, `PaidRowUndoneIff`, `PaidRowCanBeOverwritten`).
- *Retries*: two guards are said to make a double release impossible. They do not: when a slower release
  job counts its failure between the reads of two overlapping retries, both send, under two references
  (`OverlappingRetriesSendTwice`). Overlap alone is harmless, because the provider refuses the second use of
  one reference. `RetryIsSafeIff`: a retry may start if and only if no retry that has read the row and not
  reset it has read another attempt count.
- *Retried payouts*: the outcome of a retry is looked up under its own reference and finds no row. A
  transaction whose payout was retried never leaves `RELEASE_PROCESSING` (`RetriedNeverCompletes`), and
  completion is exactly the reported success of the first transfer (`CompletedIffFirstTransferPaid`).
- *Webhooks*: an event whose routing failed stays recorded, so the redelivery that the error asks for is
  ignored (`FailedEventIsNotRouted`): an event ends processed exactly when its first fresh delivery was
  routed (`ProcessedIff`).
- *One-time codes, attempts*: overlapping verifications all read the counter before any of them increments
  it, and any number of guesses is judged (`OverlappingGuessesExceed`, `WrongGuessesBounded`). At a wrong guess
  the limit holds exactly when the wrong guesses before it, counted, in flight or lost, are fewer than the
  limit (`GuessesCappedIff`).
- *One-time codes, issues*: only the newest code is said ever to be valid. An issue that starts while another
  one of its key has retired the older codes and not stored its own can leave two active codes, and only such
  an issue can (`IssueIsSafeIff`, `BothInsertsStay`).
- *Virtual accounts*: comments promise one throwaway customer per transaction and a deterministic mapping.
  The code asks for a customer by e-mail address and picks that customer's newest payment, so a transfer for
  an older transaction can be bound to a newer one (`OlderTransferBindsToNewer`). The mapping is right exactly
  when no two payments share a customer (`LookupsOwnIff`), which can be told before checkout
  (`CheckoutKeepsLookupsIff`).
- *Release*: `UNDER_REVIEW` is never written, and the release job counts only `OPEN` disputes. The model
  keeps the status and `Inv` shows that no row has it.

## What a crash leaves behind

`apply` commits the status, and the row that goes with it is written by a later statement. When the process
dies in between, or the call in between fails, nothing repairs the pair. Each theorem is over every
continuation and gives the exact condition for a way on.

- A checkout without a payment stays in `PAYMENT_PENDING` without one (`CheckoutGoesOnIff`). This includes a
  virtual account that the provider does not grant.
- A dispute without its row stays `DISPUTED`: only a ruling on a row leaves it (`DisputeGoesOnIff`).
- A ruling whose dispute is left open stays in `RELEASE_PROCESSING`, and no transfer is ever created
  (`ReleaseGoesOnIff`).
- A payment marked paid whose process dies stays unprotected, because the paid branch drives no transition
  (`PaidProtectsIff`).
- A virtual account bound to a transfer of a wrong amount keeps it, and later transfers match nothing
  (`WrongAmountStaysPending`, `WrongAmountRecoversIff`).

## Model

| member | source | states |
|---|---|---|
| Machine.EntersReleaseIff | src/modules/transactions/state-machine/transition.ts:43-71 | RELEASE_PROCESSING is entered exactly by four events in their statuses, never past an open dispute, and automatically only under the rule and after the window |
| Machine.TradeAcceptedIff | src/modules/transactions/state-machine/transition.ts:78-192 | event by event, in which statuses the events up to delivery are accepted and where they lead: a cancellation until checkout, every other one in one status |
| Machine.RulingAcceptedIff | src/modules/transactions/state-machine/transition.ts:78-192 | the same from there on: a dispute may be raised from protection until the ruling, and leads to DISPUTED; every other event in one status |
| Machine.UnshippedAcceptedIff | src/modules/transactions/state-machine/transition.ts:78-192 | the same for the events without a caller |
| Machine.RefusedBecause | src/modules/transactions/state-machine/transition.ts:43-192 | which of the six refusals an event gets, for every status and context |
| Machine.StuckIffTerminal | src/modules/transactions/state-machine/transition.ts:183-190 | terminal statuses accept nothing, and every other status accepts some shipped event |
| Machine.NoRevisit | src/modules/transactions/state-machine/transition.ts:78-192 | on any path without a rewinding event no status recurs, and there are at most eight commits |
| Machine.StatusRecursIff | src/modules/transactions/state-machine/transition.ts:78-192 | given callers for the shipped events and maybe more, a status can recur if and only if some caller raises one of the four rewinding events |
| Machine.ShippedPathIsOnward | src/modules/transactions/state-machine/transition.ts:78-192 | shipped events lead only onward in the order `Onward` |
| Machine.OnwardIsWalkable | src/modules/transactions/state-machine/transition.ts:78-192 | and lead everywhere onward: `Onward` is exactly reachability |
| Machine.MilestonesEntered | src/modules/transactions/state-machine/transition.ts:78-192 | on any path of the whole machine, entering a status implies having entered its milestones before |
| Machine.CompletedWithoutDelivery | src/modules/analytics/analytics.service.ts:37-43 | completion without a delivery is reachable |
| EscrowProof.StepKeeps | src/modules/transactions/transactions.service.ts:331-404 | every step of every process keeps the protocol invariant and undoes nothing settled |
| EscrowRuns.RunKeeps | src/modules/payouts/payouts.service.ts:68-389 | the invariant holds after every interleaved run |
| EscrowRuns.RunOnlyMovesForward | src/modules/transactions/transactions.service.ts:356-404 | what a prefix of a run has settled (references, amounts, closed disputes, final charges and transfers, log rows) the whole run keeps |
| EscrowRuns.AtMostOneLiveTransfer | src/modules/payouts/payouts.service.ts:68-315 | at most one transfer per transaction is pending or successful, and it is for the seller settlement, also when retries that agree on the attempt count overlap |
| EscrowRuns.NoTransferUnderDispute | src/modules/payouts/payouts.service.ts:79-92 | no step creates a transfer, first send or retry, while a dispute is open or about to be inserted |
| EscrowRuns.OneDisputeEver | src/modules/disputes/disputes.service.ts:50-71 | a transaction has at most one dispute row in its whole history |
| EscrowRuns.EveryCommitIsFresh | src/modules/transactions/transactions.service.ts:331-368 | every committed transition is the machine's answer on the data at commit time, although it was decided on data read earlier |
| EscrowRuns.StatusNeverRecurs | src/modules/transactions/transactions.service.ts:359-368 | a status seen at two points of a run was held throughout, so comparing the status alone detects interference |
| EscrowRuns.LogsRefineTheMachine | src/modules/transactions/transactions.service.ts:356-404 | timeline, audit and outbox are three images of one chain of shipped edges from DRAFT that replays to the stored status |
| EscrowRuns.OutboxNeedsMerchant | src/modules/outbound-events/outbound-events.service.ts:17-33 | without a merchant there is no outbox row; with one the rows are those of the committed edges, addressed to it and for the transaction's amount |
| AuditTrail.RowAnnounces | src/modules/outbound-events/outbound-event.builder.ts:17-44 | from the two ends of a shipped edge: a merchant is told of protection, cancellation, an opened or ruled dispute or released funds exactly when that is what the edge did, with the terms of the transaction, and of nothing else |
| AuditTrail.LineTells | src/modules/transactions/transactions.service.ts:118-137 | likewise the kind of the timeline and audit line |
| AuditTrail.UnshippedLineTells | src/modules/transactions/transactions.service.ts:118-137 | and for the events without a caller |
| AuditTrail.ToldIff | src/modules/outbound-events/outbound-events.service.ts:17-33 | over a whole history a merchant is told of something if and only if it happened |
| AuditTrail.ToldOnce | src/modules/outbound-events/outbound-events.service.ts:17-33 | and never of the same thing twice |
| AuditTrail.RunTells | src/modules/transactions/transactions.service.ts:356-404 | in every interleaved run the outbox tells exactly what happened, once, with the status reached then |
| AuditTrail.TimelineTells | src/modules/transactions/transactions.service.ts:356-404 | in every run each timeline and audit line shows the two ends of its commit and the kind they call for |
| EscrowRuns.ShippedIffRaised | src/modules/transactions/transactions.service.ts:331-355 | the events that some process of the protocol raises are exactly the shipped ones |
| EscrowRuns.ProtectedMeansCollected | src/modules/payments/payments.service.ts:368-425 | PAYMENT_PROTECTED and later imply a confirmed charge of exactly the charge amount, tied to the only payment row |
| EscrowRuns.NeverRebound | src/modules/payments/payments.service.ts:299-325 | a charge reference once tied to a payment row stays tied to it |
| EscrowRuns.CompletedMeansPaidOnce | src/modules/payouts/payouts.service.ts:364-389 | COMPLETED implies protection and release were entered, one payout row for the settlement, and success of the first transfer, of exactly that amount, with no other live one |
| EscrowRuns.SettledRowCanBeOverwritten | src/modules/payouts/payouts.service.ts:202-216 | an interleaving in which the sender's record puts a settled row of a completed transaction back to PROCESSING |
| EscrowSettled.SettledRowUndoneIff | src/modules/payouts/payouts.service.ts:202-216 | exactly one kind of statement can undo a settled row: the pending record of a confirmed send |
| EscrowRuns.PaidRowCanBeOverwritten | src/modules/payments/payments.service.ts:373-390 | an interleaving in which a verifier that asked too early puts the paid row of a protected transaction to FAILED, although the charge succeeded for the right amount |
| PaymentSteps.PaidRowUndoneIff | src/modules/payments/payments.service.ts:382-390 | exactly one kind of statement can undo a paid row: a verdict without success, read before the charge succeeded |
| Retries.RetryIsSafeIff | src/modules/payouts/payouts.service.ts:249-315 | in every run, whatever follows the start of a retry leaves at most one live transfer if and only if every retry that has still to reset the row has read the same attempt count |
| Retries.RetriesShareAReference | src/modules/payouts/payouts.service.ts:292-314 | in every run in which retries agree, all retries under way send under one reference, and no retry was sent under another |
| Retries.OverlappingRetriesSendTwice | src/modules/payouts/payouts.service.ts:249-315 | a run in which two retries that read different attempt counts leave two live transfers |
| Retries.PayoutIsUndisputed | src/modules/payouts/payouts.service.ts:79-135 | in every run a payout row means that no dispute is open, then and ever after |
| Crashes.CheckoutGoesOnIff | src/modules/payments/payments.service.ts:91-139 | a transaction in PAYMENT_PENDING gets a payment or another status in some continuation if and only if it has a payment, or the process that committed the checkout still has to insert it |
| Crashes.CheckoutCanBeLost | src/modules/payments/payments.service.ts:177-196 | a run that leaves a checkout without a payment for good |
| Crashes.DisputeGoesOnIff | src/modules/disputes/disputes.service.ts:50-71 | a disputed transaction can leave DISPUTED if and only if it has a dispute row, or the process that raised it still has to insert it |
| Crashes.DisputeCanBeLost | src/modules/disputes/disputes.service.ts:54-71 | a run that leaves DISPUTED without a dispute |
| Crashes.ReleaseGoesOnIff | src/modules/disputes/disputes.service.ts:92-116 | in RELEASE_PROCESSING a transfer can still be created if and only if every dispute that is open is being closed |
| Crashes.RulingCanBeLost | src/modules/disputes/disputes.service.ts:92-116 | a run that leaves a ruled dispute open |
| Unprotected.PaidProtectsIff | src/modules/payments/payments.service.ts:373-425 | a paid payment in PAYMENT_PENDING still protects the transaction if and only if some process is bound for it, or will write a failure over the paid row |
| Unprotected.ProtectionCanBeLost | src/modules/payments/payments.service.ts:396-413 | a run that leaves a paid payment unprotected for good |
| Unprotected.WrongAmountStaysPending | src/modules/payments/payments.service.ts:299-403 | a virtual-account payment bound to a charge of a wrong amount stays unpaid, in PAYMENT_PENDING and tied to no other transfer in every continuation without a right charge under its own reference |
| Unprotected.WrongAmountRecoversIff | src/modules/payments/payments.service.ts:299-403 | it can still be protected if and only if its own reference does not hold a wrong amount too |
| Unprotected.WrongAmountCanBind | src/modules/payments/payments.service.ts:313-316 | a run that binds a transfer of a wrong amount |
| EscrowRuns.RetriedNeverCompletes | src/modules/payouts/payouts.service.ts:249-315 | in every run, once a retry has a transfer the transaction stays in RELEASE_PROCESSING for ever, its first transfer lost |
| EscrowSettled.CompletedIffFirstTransferPaid | src/modules/webhooks/webhooks.service.ts:177-203 | after any service calls a transaction is COMPLETED if and only if its first transfer succeeded and that outcome event was received; no success of a retry completes it |
| EscrowBook.NextKeeps | src/modules/payments/payments.service.ts:269-325 | every step of the whole system keeps each transaction's invariant, the uniqueness of charge references, and an order of creation that lists exactly the payment rows |
| EscrowBook.NoChargeCountsTwice | src/modules/payments/payments.service.ts:269-325 | no charge reference is ever tied to two payments, on the hosted, virtual-account and reconcile paths alike |
| Ledger.OneChargeCoversPayout | src/modules/payouts/payouts.service.ts:29-38 | with a non-negative fee whatever a transaction paid out is covered by one verified charge of exactly its charge amount, and the difference is exactly the fee under both fee models |
| Ledger.WhoBearsTheFee | src/modules/payouts/payouts.service.ts:29-38 | when the buyer pays the fee a completed seller has received exactly the amount; when the seller pays it the buyer was charged exactly the amount |
| Ledger.NeverShortIff | src/modules/transactions/dto/create-transaction.dto.ts:40-42 | no run of a transaction pays out more than it verified if and only if its fee is not negative, or so negative that the charge amount is |
| Ledger.RunIsUnshared | src/modules/payments/payments.service.ts:269-325 | in every run of all transactions no two of them rest on the same charge |
| Ledger.PlatformIsNeverShort | src/modules/payouts/payouts.service.ts:29-38 | in every run of all transactions all successful transfers together are covered by distinct verified charges of the provider's one table |
| VirtualAccounts.LookupsOwnIff | src/modules/payments/payments.service.ts:307-311 | every virtual account's transfers reach the payment that shows the account if and only if no two payments share a customer |
| VirtualAccounts.CheckoutKeepsLookupsIff | src/modules/payments/payments.service.ts:148-214 | a new virtual account keeps that mapping right if and only if its customer has no payment yet |
| VirtualAccounts.TransferReachesItsPaymentIff | src/modules/payments/payments.service.ts:299-325 | in every run a new transfer into the account of a payment starts to bind to that payment if and only if no newer payment of any transaction has the same customer |
| VirtualAccounts.OlderTransferBindsToNewer | src/modules/payments/payments.service.ts:307-316 | a run in which two transactions share a customer and the transfer for the older one is bound to the newer one |
| TransferReferences.ReferenceInjective | src/modules/payouts/payouts.service.ts:21-22 | a transfer reference determines its transaction and attempt |
| TransferReferences.ReferenceReads | src/modules/payouts/payouts.service.ts:292-292 | the text of a reference: the payout key, and for a retry the key, a mark and the attempt in plain digits |
| TransferReferences.RetryReferenceIsNoKey | src/modules/payouts/payouts.service.ts:292-292 | a retry's reference is never a payout key |
| EscrowSettled.CallPlays | src/modules/payouts/payouts.service.ts:68-389 | every service call run alone is a run of the interleaved protocol |
| EscrowSettled.CallInStep | src/modules/payouts/payouts.service.ts:323-389 | every call keeps rows and status in step: paid exactly from protection on, an open dispute exactly in DISPUTED, a settled payout exactly in COMPLETED |
| EscrowSettled.UnsettledMeansReleasing | src/modules/disputes/disputes.service.ts:50-116 | after any calls a payout row is unsettled exactly in RELEASE_PROCESSING |
| EscrowSettled.CompletedIsFinal | src/modules/payouts/payouts.service.ts:323-389 | once COMPLETED, no later call of any kind changes the successful payout, the status or the logs |
| EscrowServices.EscrowDesk.Apply | src/modules/transactions/transactions.service.ts:331-404 | apply moves status and logs exactly as the machine says on the row and its disputes, or writes nothing; a merchant is told of exactly what the two statuses show |
| EscrowServices.EscrowDesk.Record | src/modules/outbound-events/outbound-events.service.ts:17-33 | the write half appends one timeline, one audit and at most one outbox row for the same edge (what they say is in AuditTrail) |
| EscrowServices.EscrowDesk.InitializeCollection | src/modules/payments/payments.service.ts:91-139 | checkout succeeds exactly while the link is active, inserts one pending payment for the charge amount and links the buyer unless one is linked; all of that stays when the provider then gives no checkout page |
| EscrowServices.EscrowDesk.InitializeVirtualAccount | src/modules/payments/payments.service.ts:148-214 | a pending virtual-account payment is returned and nothing changes; otherwise checkout as above, and without a customer and an account from the provider the status moves and no payment is inserted |
| EscrowServices.EscrowDesk.HandleChargeSuccess | src/modules/payments/payments.service.ts:269-290 | which payment a charge event verifies, and false exactly when none matches |
| EscrowServices.EscrowDesk.ResolveVirtualAccount | src/modules/payments/payments.service.ts:299-325 | the one-shot bind: an already bound row wins, an unbound one is bound, a bound one is not rebound |
| EscrowServices.EscrowDesk.VerifyAndProtect | src/modules/payments/payments.service.ts:368-425 | the whole verify-and-protect outcome, with a mismatch refused exactly on a wrong amount |
| EscrowServices.EscrowDesk.ReconcilePayment | src/modules/payments/payments.service.ts:348-358 | only a pending payment is re-verified, under the bound charge if any, and success is reported exactly when the row ends up paid |
| PaymentReconcile.FindStranded | src/modules/payments/payment-reconcile.service.ts:40-46 | the payments picked are pending, older than the threshold, at most a hundred, and the first of those in the order of creation |
| PaymentReconcile.ReconcilePending | src/modules/payments/payment-reconcile.service.ts:48-66 | every listed payment is reconciled whatever happens to the others, and the count is the number that end up paid |
| PaymentReconcile.Sweep | src/modules/payments/payment-reconcile.service.ts:39-68 | the whole sweep: the picked payments are reconciled, all others are untouched, and the counts are exact |
| EscrowServices.EscrowDesk.Raise | src/modules/disputes/disputes.service.ts:50-71 | a dispute can be raised exactly from protection until the ruling: an open dispute row and DISPUTED, or nothing is written |
| EscrowServices.EscrowDesk.Resolve | src/modules/disputes/disputes.service.ts:73-116 | an open dispute, and only such a one, is ruled on: closed, and RELEASE_PROCESSING or REFUNDED; the dispute itself does not freeze its ruling, and both error cases are exact |
| EscrowServices.EscrowDesk.ExecuteRelease | src/modules/payouts/payouts.service.ts:68-94 | the release job's exact effect for every behaviour of the provider; refused exactly outside RELEASE_PROCESSING and while a dispute is OPEN |
| EscrowServices.EscrowDesk.SendTransfer | src/modules/payouts/payouts.service.ts:139-200 | send, adopt or count the failure, and nothing for a settled or sent row |
| EscrowServices.EscrowDesk.RetryTransfer | src/modules/payouts/payouts.service.ts:249-315 | the retry's exact effect, with all four refusals exact in terms of the row's status and the open disputes |
| EscrowServices.EscrowDesk.MarkPaid | src/modules/payouts/payouts.service.ts:364-389 | settles once and completes the transaction |
| EscrowServices.EscrowDesk.MarkFailed | src/modules/payouts/payouts.service.ts:323-357 | records a loss, never over a settled row |
| EscrowServices.EscrowDesk.HandleTransferEvent | src/modules/webhooks/webhooks.service.ts:177-203 | an outcome event acts once, and a retry's event is recorded and ends in an error |
| EscrowServices.AwaitingIsAccepted | src/modules/payments/payments.service.ts:405-413 | between calls an open payment row implies that the machine will accept its verification |
| EscrowServices.ConfirmedIff | src/modules/transactions/transactions.service.ts:112-115 | a confirmation is accepted exactly while it is waited for and no dispute is open or under review, the automatic one only under its rule |
| Webhooks.WebhookService.HandleEvent | src/modules/webhooks/webhooks.service.ts:69-126 | signature, staleness, dedupe, dispatch by kind and recording of one delivery |
| Webhooks.RouteIff | src/modules/webhooks/webhooks.service.ts:146-203 | kind by kind, which payload asks the services for what |
| Webhooks.AskedIff | src/modules/webhooks/webhooks.service.ts:69-203 | over any stream the services are asked for something if and only if the first fresh delivery of some event asks for it |
| Webhooks.NotesDecide | src/modules/webhooks/webhooks.service.ts:110-123 | and whatever they do, the state is that of working through what was asked, in order |
| Webhooks.PaidIff | src/modules/webhooks/webhooks.service.ts:177-185 | over any stream a payout is paid only by a first fresh transfer.success with its reference and that transfer code |
| Webhooks.LostIff | src/modules/webhooks/webhooks.service.ts:186-199 | a loss is recorded if and only if a first fresh transfer.failed or transfer.reversed names the reference, as a reversal exactly for the latter |
| Webhooks.ChargedIff | src/modules/webhooks/webhooks.service.ts:149-163 | a charge is looked up if and only if a first fresh charge.success names its reference |
| Webhooks.StaleIff | src/modules/webhooks/webhooks.service.ts:132-143 | the stamp that counts, and stale exactly when it is more than the maximum age old |
| Webhooks.UnstampedIsFresh | src/modules/webhooks/webhooks.service.ts:132-140 | without a readable stamp nothing is stale |
| TransferEvents.OutcomeHasItsEffect | src/modules/webhooks/webhooks.service.ts:177-203 | the payload of an outcome of the first transfer, routed, has exactly the effect that the protocol gives that outcome; that of a retry finds no row |
| TransferEvents.OutcomeOnRow | src/modules/payouts/payouts.service.ts:323-389 | that effect in terms of the row: success settles and completes, a failure or reversal is recorded and completes nothing, a settled row stays |
| TransferEvents.OutcomesAreTold | src/modules/webhooks/webhooks.service.ts:85-85 | without an event id, outcome events are taken for one another only when they report the same outcome of the same transfer |
| Webhooks.OnlyFirstsCount | src/modules/webhooks/webhooks.service.ts:69-126 | the business state is that of routing only the first fresh delivery of each event id |
| Webhooks.ReplayChangesNothing | src/modules/webhooks/webhooks.service.ts:69-144 | with a clock that does not go back, replaying delivered payloads changes nothing |
| Webhooks.RecordedIffSeen | src/modules/webhooks/webhooks.service.ts:85-107 | the recorded ids are exactly those of fresh deliveries |
| Webhooks.FirstRoutingDecides | src/modules/webhooks/webhooks.service.ts:97-123 | over any stream what is recorded of an event is the outcome of routing its first fresh delivery |
| Webhooks.ProcessedIff | src/modules/webhooks/webhooks.service.ts:109-123 | over any stream an event ends processed if and only if the routing of its first fresh delivery succeeded |
| Webhooks.FailedEventIsNotRouted | src/modules/webhooks/webhooks.service.ts:109-123 | an event whose routing failed is not routed when it is redelivered |
| Webhooks.SameEventIdIff | src/modules/webhooks/webhooks.service.ts:85-85 | two events are taken for one another exactly when kind and key agree |
| Webhooks.SameEventOf | src/modules/webhooks/webhooks.service.ts:85-85 | the key is the id, else the reference; with neither, all events of a kind are one |
| Otp.OtpService.Issue | src/modules/otp/otp.service.ts:58-107 | issuing retires every active code of the key and adds one, only while confirmation is pending |
| Otp.OtpService.Verify | src/modules/otp/otp.service.ts:116-158 | verification judges the newest active code, consumes it on a match and counts a wrong guess |
| Otp.RunSound | src/modules/otp/otp.service.ts:58-158 | over every run each acceptance is of the newest code of its key, in time, with fewer wrong guesses than the limit, and nothing happens to that code afterwards |
| Otp.OneActiveCode | src/modules/otp/otp.service.ts:69-73 | at most one code per transaction and purpose is unconsumed, the newest |
| Otp.AcceptedOnce | src/modules/otp/otp.service.ts:139-146 | a code is accepted at most once |
| Otp.AcceptedIff | src/modules/otp/otp.service.ts:116-146 | a guess is accepted exactly when it is the text of an unconsumed, unexpired code that is not locked |
| Otp.RefusedBecause | src/modules/otp/otp.service.ts:116-139 | over every run which refusal a guess gets: no code left, its time over, too many wrong guesses counted, or not its text |
| Otp.ConsumedIff | src/modules/otp/otp.service.ts:69-73 | a code is consumed exactly when it was accepted or superseded by a later one of its transaction and purpose |
| Otp.RowsAreIssued | src/modules/otp/otp.service.ts:75-86 | there is one row for each code asked for, with its key and text, good for the time to live |
| OtpRaces.RedeemedOnce | src/modules/otp/otp.service.ts:139-146 | in any interleaving each code is redeemed at most once |
| OtpRaces.RedeemedWasValid | src/modules/otp/otp.service.ts:116-146 | in any interleaving a redeemed code was found active, unexpired and not locked under its own text, and the newest of its key when issues of one key do not overlap |
| OtpRaces.SerialIssuesLeaveOne | src/modules/otp/otp.service.ts:69-89 | while issues of one key do not overlap, only the newest of its codes can be unconsumed |
| OtpRaces.IssueIsSafeIff | src/modules/otp/otp.service.ts:69-89 | whatever follows the start of an issue leaves at most one active code of its key if and only if no other issue of the key has still to store its code |
| OtpRaces.BothInsertsStay | src/modules/otp/otp.service.ts:69-89 | two issues of one key that have both still to store their code always leave two active codes when they do |
| OtpRaces.OverlappingIssuesLeaveTwo | src/modules/otp/otp.service.ts:69-89 | a run that leaves two |
| OtpRaces.RunAccounted | src/modules/otp/otp.service.ts:125-136 | in any interleaving the wrong guesses at a code are those counted, those still in flight and those lost in a crash |
| OtpRaces.WrongGuessesBounded | src/modules/otp/otp.service.ts:128-136 | when a wrong guess is let through, the wrong guesses so far are at most one less than the limit plus those in flight or lost |
| OtpRaces.GuessesCappedIff | src/modules/otp/otp.service.ts:128-136 | at a guess judged wrong the limit holds if and only if the wrong guesses before it, counted, in flight or lost, are fewer than the limit |
| OtpRaces.OverlappingGuessesExceed | src/modules/otp/otp.service.ts:128-136 | any number of overlapping wrong guesses is let through against one code, whatever the limit |
| AutoRelease.AutoReleaseService.ScanAndRelease | src/modules/transactions/auto-release.service.ts:29-65 | the scan confirms exactly the due, unfrozen rows, enqueues each once unless its enqueue fails, and returns the number enqueued |
| AutoRelease.ConfirmedHasWaited | src/modules/transactions/auto-release.service.ts:42-45 | a confirmed row was waiting for confirmation at every moment of the last window |
| AutoRelease.RunReplays | src/modules/transactions/transactions.service.ts:356-404 | in every run of the protocol the timeline that the scan reads replays the status |
| AutoRelease.ConfirmedRunHasWaited | src/modules/transactions/auto-release.service.ts:30-45 | so a transaction confirmed by the scan in any run had been waiting for the whole window, under the automatic rule and without an open dispute |
| AutoRelease.ScanKeepsReplay | src/modules/transactions/auto-release.service.ts:42-52 | a scan keeps the timeline replaying the status |
| AutoRelease.WaitedIsConfirmed | src/modules/transactions/auto-release.service.ts:30-45 | conversely a row under the automatic rule, not frozen and waiting for a whole window is confirmed by the scan |
| AutoRelease.FailedEnqueueIsNotRetried | src/modules/transactions/auto-release.service.ts:47-61 | a confirmed row whose enqueue failed is never selected by a later scan |
| AccountMerge.AccountMergeService.Merge | src/modules/chat/linking/account-merge.service.ts:110-258 | a merge is exactly the substitution on every owner column with exact counts, or fails for the first reason that applies and leaves nothing written, a taken invoice number found half way through included |
| AccountMerge.AccountMergeService.DetectCollision | src/modules/chat/linking/account-merge.service.ts:56-88 | the profile conflict is reported before a shared deal is looked for |
| AccountMerge.AccountMergeService.MergeProfile | src/modules/chat/linking/account-merge.service.ts:266-303 | the profile is moved, folded or left |
| AccountMerge.CreatesSelfDealingIff | src/modules/chat/linking/account-merge.service.ts:67-85 | a completed merge makes an account its own counterparty if and only if the override covered two seller profiles with a shared deal |
| AccountMerge.NoSelfDealing | src/modules/chat/linking/account-merge.service.ts:56-88 | without an override it never does |
| AccountMerge.OverrideReachesSelfDealing | src/modules/chat/linking/account-merge.service.ts:113-129 | the override does reach that case |
| AccountMerge.OwnershipUnited | src/modules/chat/linking/account-merge.service.ts:143-182 | the absorbed account owns nothing, the survivor what both did, everyone else the same |
| AccountMerge.SalesUnited | src/modules/chat/linking/account-merge.service.ts:149-168 | the same for sellers of transactions and invoices |
| AccountMerge.PurchasesUnited | src/modules/chat/linking/account-merge.service.ts:149-168 | the same for buyers |
| AccountMerge.PayoutsUnited | src/modules/chat/linking/account-merge.service.ts:152-155 | payouts go with their seller, status and everything else unchanged |
| AccountMerge.RestUntouched | src/modules/chat/linking/account-merge.service.ts:138-180 | owner columns aside no row changes |
| AccountMerge.AbsorbedIsRetired | src/modules/chat/linking/account-merge.service.ts:211-228 | after a completed merge the absorbed account is deactivated, points to the survivor and keeps everything else; the survivor stays as live as it was; every other account is unchanged |
| AccountMerge.RefusedBecause | src/modules/chat/linking/account-merge.service.ts:56-134 | which refusal a merge gets, in terms of the rows: two seller profiles, opposite sides of one deal, a payout queued or processing, a missing account, a shared invoice number |
| AccountMerge.ReportCounts | src/modules/chat/linking/account-merge.service.ts:138-257 | the report counts the absorbed account's rows column by column |
| MergeTrails.LiveIff | src/modules/chat/linking/account-merge.service.ts:219-228 | after any chain of merges exactly the live accounts that were never absorbed are live |
| MergeTrails.OwnedThrough | src/modules/chat/linking/account-merge.service.ts:138-155 | and every identity, sale and payout belongs to the account that its owner's absorptions lead to |
| MergeTrails.TrailsStayRightIff | src/modules/chat/linking/account-merge.service.ts:219-228 | a merge keeps the links leading to the owners if and only if neither account was absorbed before, or the source was and the target leads to its owner without passing through it |
| MergeTrails.LinksFindTheOwner | src/modules/chat/linking/account-merge.service.ts:219-228 | after any chain between accounts not absorbed before, following the links ends at the account that owns the identities, sales and payouts |
| MergeTrails.ParkedMergeLosesTheOwner | src/modules/chat/linking/chat-link.service.ts:308-320 | a parked request completed after its source was absorbed elsewhere points the source away from the account that owns its rows |
| AccountMerge.MergeCompletesIff | src/modules/chat/linking/account-merge.service.ts:158-165 | a merge completes if and only if no listed refusal applies and the two accounts share no invoice number |
| AccountMerge.NumbersStayUniqueIff | prisma/schema.prisma:498-498 | the update of the invoices meets the unique constraint if and only if the two sellers' numbers are disjoint |
| AccountMerge.MergeKeepsNumbersUnique | prisma/schema.prisma:498-498 | a completed merge keeps numbers unique per seller |
| AccountMerge.TwoDraftsCannotMerge | src/modules/chat/linking/account-merge.service.ts:158-161 | two accounts with one unsent invoice each pass every listed check and still cannot be merged |
| MergedInvoices.SellersMeetIff | src/modules/invoices/invoices.service.ts:325-332 | two sellers that absorbed nobody before share an invoice number if and only if both have an unsent invoice or both have ever sent one |
| MergedInvoices.HandingOverKeepsUniqueIff | src/modules/chat/linking/account-merge.service.ts:158-161 | so the merge's update of the invoices goes through in exactly the remaining cases |
| MergedInvoices.NextSendFailsIff | src/modules/invoices/invoices.service.ts:258-272 | after a merge the survivor's next send fails on a taken number if and only if it never sent one before and the absorbed account did |
| MergedInvoices.AbsorbedNumbersBlock | src/modules/invoices/invoices.service.ts:244-272 | then sending fails once for every absorbed number, and each failure leaves a published transaction behind |
| MergedInvoices.SendsAfterAbsorbedNumbers | src/modules/invoices/invoices.service.ts:258-272 | and succeeds at the first attempt after that, not before |
| AccountMerge.MergesCompose | src/modules/chat/linking/account-merge.service.ts:143-182 | as substitutions on seller and buyer columns, chained merges own the same as direct ones, in either order |
| AccountMerge.MovedPayoutsAreSettled | src/modules/chat/linking/account-merge.service.ts:96-101 | no payout changes owner while its transfer may be under way |
| AccountMerge.OneProfileLeft | src/modules/chat/linking/account-merge.service.ts:184-209 | one profile and one seller profile at most are left between the two accounts, with the right contents, and those of others are untouched |
| AccountMerge.ProfileFolded | src/modules/chat/linking/account-merge.service.ts:283-301 | the chosen profile loses nothing and each gap is filled exactly when it can be |
| AccountMerge.SurvivorKeepsItsOwn | src/modules/chat/linking/account-merge.service.ts:211-219 | the survivor has every role once, its own first, and keeps its phone; without one it takes the other's |
| InvoiceTotals.HalfUpIsNearest | src/modules/invoices/invoice.compute.ts:25-26 | the rounded quotient is the only integer within half, ties up |
| InvoiceTotals.TaxWithinHalfKobo | src/modules/invoices/invoice.compute.ts:24-28 | the stored tax is the whole kobo nearest to the exact tax, the upper one of two |
| InvoiceTotals.SubtotalIgnoresOrder | src/modules/invoices/invoice.compute.ts:25-25 | the subtotal depends on the multiset of lines only |
| InvoiceTotals.SubtotalOfConcat | src/modules/invoices/invoice.compute.ts:25-25 | and is additive |
| InvoiceTotals.OnePiece | src/modules/invoices/invoice.compute.ts:15-17 | one piece costs its price |
| InvoiceTotals.LinesSplit | src/modules/invoices/invoice.compute.ts:15-28 | in any invoice, at any rate, a line of a + b pieces, or at a price p + q, may be written as two lines without changing the totals |
| InvoiceTotals.PieceByPiece | src/modules/invoices/invoice.compute.ts:15-17 | a line of n pieces costs what n lines of one piece cost |
| InvoiceTotals.TotalGrowsWithRate | src/modules/invoices/invoice.compute.ts:24-28 | a larger rate never lowers the total |
| InvoiceTotals.TaxlessIff | src/modules/invoices/invoice.compute.ts:24-28 | a rate gives no tax exactly when subtotal times rate lies in [-5000, 5000) |
| InvoiceCoupling.OpKeeps | src/modules/invoices/invoices.service.ts:47-356 | every operation keeps invoices and transactions coupled: totals computed from the lines at some rate, linked amounts, numbers, counters, PAID and VOID |
| InvoiceCoupling.NextNumberFree | src/modules/invoices/invoices.service.ts:325-332 | the number allocated next is never taken |
| InvoiceRuns.RunCoupled | src/modules/invoices/invoices.service.ts:47-356 | the coupling holds in every run |
| InvoiceRuns.EditAgreesIff | src/modules/invoices/invoices.service.ts:93-109 | an edit that mentions lines or rate leaves totals and rate in agreement if and only if it sends no explicit null rate, or the stored rate gives the resulting lines no tax; any other edit changes nothing about it |
| InvoiceRuns.OpKeepsAgreementIff | src/modules/invoices/invoices.service.ts:81-136 | while all totals agree, an operation of any kind breaks that exactly when it is an applied edit of that sort |
| InvoiceRuns.AgreesIff | src/modules/invoices/invoices.service.ts:81-136 | in every run the totals of an invoice are those of its lines and rate exactly when the last edit of its lines or rate was not of that sort |
| InvoiceRuns.NullRateIsSent | src/modules/invoices/invoices.service.ts:93-109 | one line, rate 750, an explicit null, send: a sent invoice without a rate and with tax |
| InvoiceRuns.SubtotalAlwaysAgrees | src/modules/invoices/invoice.compute.ts:24-28 | in every run subtotal and total follow from the lines and the tax |
| InvoiceRuns.SentTotalsAgree | src/modules/invoices/invoices.service.ts:235-279 | from sending on, total, lines, rate and the amount of the one transaction stay as sent, the amount is the total, and totals agree with the rate if and only if the draft was not mispriced |
| InvoiceLife.AmountOfOneLine | src/modules/invoices/invoices.service.ts:244-248 | the escrow of a sent invoice of one untaxed line holds quantity times price |
| InvoiceLife.AmountGrowsByPiece | src/modules/invoices/invoices.service.ts:244-248 | with one piece more of any line the escrow of the sent, untaxed invoice holds that price more |
| InvoiceLife.StatusAfter | src/modules/invoices/invoices.service.ts:155-356 | the status of an invoice after any operation: sent, viewed, overdue, void or paid exactly under its condition, otherwise unchanged |
| InvoiceLife.SentRow | src/modules/invoices/invoices.service.ts:235-279 | a sent invoice has the seller's next number, INV-0001 the first time, and a published unpaid transaction for its total |
| InvoiceLife.EditedFields | src/modules/invoices/invoices.service.ts:88-127 | field by field what an applied edit stores: a null due date is the epoch, a null rate is none |
| InvoiceLife.PaidIffProtected | src/modules/invoices/invoices.service.ts:342-356 | in every run a sent invoice is PAID if and only if its payment was collected, if and only if its transaction has reached PAYMENT_PROTECTED |
| InvoiceLife.NumbersAreGapless | src/modules/invoices/invoices.service.ts:325-332 | in every run a seller's invoices carry exactly the numbers from 1 up to the last one handed out |
| InvoiceRuns.PaidAndVoidAreFinal | src/modules/invoices/invoices.service.ts:202-222 | a PAID or VOID row never changes again |
| InvoiceRuns.PaidAndVoidMean | src/modules/invoices/invoices.service.ts:342-356 | PAID rests on a successful payment of a transaction that is not cancelled, VOID on a cancelled one |
| InvoiceRuns.NumbersAndTransactionsAreUnique | src/modules/invoices/invoices.service.ts:325-332 | no two invoices share a seller's number or a transaction |
| Invoices.NumberTextInjective | src/modules/invoices/invoices.service.ts:331-332 | printed numbers differ for different sequence numbers, padded or not |
| Invoices.NumberTextReads | src/modules/invoices/invoices.service.ts:331-332 | a printed number is INV- and the number in digits: four of them below ten thousand, unpadded from there on |
| InvoiceRuns.DraftRefusedIff | src/modules/invoices/invoices.service.ts:49-53 | a new draft is refused exactly when the seller has an invoice that was never sent |
| InvoiceRuns.VoidedDraftBlocks | src/modules/invoices/invoices.service.ts:202-222 | a draft voided before sending blocks new drafts for good |
| InvoiceServices.InvoiceService.CreateDraft | src/modules/invoices/invoices.service.ts:47-78 | the stored draft, and refusal exactly on the taken empty number |
| InvoiceServices.InvoiceService.Edit | src/modules/invoices/invoices.service.ts:81-136 | only a draft of the owner is edited, each field left out, null or given; totals follow a change of lines or rate, and a null rate is stored while the totals use the rate stored before |
| InvoiceServices.InvoiceService.Send | src/modules/invoices/invoices.service.ts:235-279 | one published transaction for the total and the next number, the row unchanged when already sent, or a failure on a taken number that leaves the transaction and the used-up number |
| InvoiceServices.InvoiceService.VoidInvoice | src/modules/invoices/invoices.service.ts:202-222 | void succeeds exactly for a voidable invoice whose transaction, if any, can be cancelled |
| InvoiceServices.InvoiceService.GetPublicView | src/modules/invoices/invoices.service.ts:155-181 | the first look at a sent invoice marks it viewed, a draft is not found |
| InvoiceServices.InvoiceService.ScanOverdue | src/modules/invoices/invoices.service.ts:308-317 | exactly the due rows are flipped and counted |
| InvoiceServices.InvoiceService.MarkPaidByTransaction | src/modules/invoices/invoices.service.ts:342-356 | at most one invoice is marked, zero exactly when nothing changes |
| InvoiceServices.InvoiceService.AllocateNumber | src/modules/invoices/invoices.service.ts:325-332 | the number before the incremented counter |
| Naira.RoundTrip | src/modules/chat/dialog/chat-dialog.service.ts:598-612 | every printed amount reads back as itself, also between decorations |
| Naira.ParsesIff | src/modules/chat/dialog/chat-dialog.service.ts:598-604 | text is accepted exactly when it is a plain amount after cleaning, as 100 times its decimal value |
| Naira.GroupsOfThree | src/modules/chat/dialog/chat-dialog.service.ts:607-612 | commas stand exactly at every fourth place from the right |
| Naira.PrintedShape | src/modules/chat/dialog/chat-dialog.service.ts:607-612 | a printed amount has a point before its last two digits, a comma before every three digits left of it, and no leading zero from one naira on |
| Naira.DecorationsIff | src/modules/chat/dialog/chat-dialog.service.ts:599-599 | what may stand around and inside an amount: exactly the naira sign, commas and white space |
| Naira.FormatInjective | src/modules/chat/dialog/chat-dialog.service.ts:607-612 | different amounts print differently |
| Phone.NormalizeMsisdn | src/modules/notifications/phone.ts:40-78 | the branch-by-branch rewriting of the digits computes the specification |
| Phone.ResultIsRoutable | src/modules/notifications/phone.ts:69-77 | results are 8 to 15 digits without a leading zero, and 13 when they start with 234 |
| Phone.Idempotent | src/modules/notifications/phone.ts:40-78 | normalizing twice changes nothing, for every valid default country code |
| Phone.OnlyDigitsMatter | src/modules/notifications/phone.ts:43-50 | only the plus and the digits matter |
| Phone.NigerianForms | src/modules/notifications/phone.ts:52-67 | the five written forms of a Nigerian mobile number lead to 234 and its ten digits |
| Phone.TrunkZero | src/modules/notifications/phone.ts:56-59 | elsewhere too the trunk zero stands for the default country code |
| Phone.LengthRefusedIff | src/modules/notifications/phone.ts:71-77 | which length error a number with its country code gets, and otherwise it is returned as written |
| Phone.PlusZeroIsRefused | src/modules/notifications/phone.ts:56-58 | a plus with a zero behind it is refused |
| Phone.SpaceAroundIgnored | src/modules/notifications/phone.ts:41-41 | white space around a number changes nothing |
| Phone.PunctuationIgnored | src/modules/notifications/phone.ts:45-50 | nor does a blank, bracket, point or dash inside an accepted number |
| Phone.OtherTextIsRefused | src/modules/notifications/phone.ts:43-47 | any other character refuses the whole number |
| WhiteSpace.SpacesIff | src/modules/notifications/phone.ts:41-45 | the white space trimmed and matched is that of ECMAScript, character by character |
| Phone.InternationalKeptIff | src/modules/notifications/phone.ts:55-67 | an explicit international number is kept unless the default is Nigeria and it has ten digits and starts with 7, 8 or 9 |
| Analytics.FunnelHolds | src/modules/analytics/analytics.service.ts:33-85 | per origin and overall: created, published, payment started and protected are ordered, and each of delivered, released and disputed is at most protected |
| Analytics.TotalsFunnelHolds | src/modules/analytics/analytics.mapper.ts:83-140 | the totals row has the same order |
| Analytics.OneMoreRecord | src/modules/analytics/analytics.service.ts:53-88 | what one more transaction adds to every column of its row and of the whole, volumes, fees and distinct people included |
| Analytics.OtherRecords | src/modules/analytics/analytics.service.ts:72-88 | it changes no other row, and a row without transactions is all zeros |
| Analytics.ReleasedWithinSecured | src/modules/analytics/analytics.service.ts:84-85 | with amounts that are not negative the released volume lies between zero and the protected volume |
| Analytics.CohortIs | src/modules/analytics/analytics.service.ts:47-51 | a cohort holds exactly the transactions created in its range, start included and end not |
| Analytics.CohortMetricsAdd | src/modules/analytics/analytics.service.ts:47-88 | the rows of two adjacent ranges add up to the row of the whole, distinct people aside |
| Analytics.TotalsAreTheCohort | src/modules/analytics/analytics.mapper.ts:83-140 | zero-filling and summing give the cohort counted as a whole in every column but the two of distinct people |
| Analytics.TotalPeopleIff | src/modules/analytics/analytics.mapper.ts:91-107 | the total of sellers, and of buyers, is at least the number of distinct ones, and equals it exactly when nobody of that side appears under two origins |
| Analytics.RateBounds | src/modules/analytics/analytics.mapper.ts:31-36 | the dispute rate lies between 0 and 1, is 0 when nothing was protected, and falls short of the true ratio by less than 1/10000 |
| Analytics.ReleasedCanExceedDelivered | src/modules/analytics/analytics.service.ts:37-43 | released can exceed delivered |
| Machine.UndeliveredReleaseIff | src/modules/transactions/state-machine/transition.ts:105-180 | a completed shipped history has no delivery if and only if a dispute was raised before delivery and ruled for the seller |
| Analytics.ReleasedAgainstDelivered | src/modules/analytics/analytics.service.ts:33-85 | per origin and overall the released exceed the delivered by exactly the releases ruled in a dispute raised before delivery, less the deliveries not released |

## Left out

- EscrowServices.EscrowDesk.AuthorizePayout: the seller, currency and merchant columns, which no decision reads.
- EscrowServices.EscrowDesk.SendTransfer: the missing payout destination is a parameter, and in the protocol a process that stops before the provider call.
- EscrowServices.EscrowDesk.InitializeCollection: whether the provider gives a checkout page is a parameter; the page and the callback URL are not kept.
- EscrowServices.EscrowDesk.InitializeVirtualAccount: the customer the provider grants, if any, is a parameter; account number and bank are not kept.
- EscrowServices.EscrowDesk.HandleChargeSuccess: one desk is one transaction; the lookups across transactions are in EscrowBook and VirtualAccounts.
- EscrowServices.EscrowDesk.ResolveVirtualAccount: likewise; the choice of a customer's newest payment is `EscrowBook.Newest`.
- EscrowServices.EscrowDesk.VerifyAndProtect: the invoice marked paid after protection is in Invoices (`Protect`).
- EscrowBook: the lookups of an unmatched charge are one step; binding and verifying are separate steps.
- PaymentReconcile.ReconcilePending: the desks are one per transaction, and each has its own provider view.
- Webhooks: `dedicatedaccount.assign.success` is routed but its effect, account details shown to the buyer, is part of the abstract business state.
- Otp.RunSound: attempts are counted with whole calls as steps; the text of codes, the hash and the audit rows are opaque.
- OtpRaces.RedeemedOnce: reading the code and judging it are one statement; the write that follows is another.
- AccountMerge.MergesCompose: says nothing of the refusals of the chained merges, which depend on each pair.
- AutoRelease.AutoReleaseService.ScanAndRelease: other requests between two candidates appear as rows read at the start of the scan.
- AccountMerge.AccountMergeService.Merge: timestamps, and the columns it does not touch, are one opaque field per row; source and target differ, as the callers check.
- Invoices: two racing sends of one draft, reminders, listing and delivery of the invoice; the buyer's contact fields.
- InvoiceLife.NumbersAreGapless: sends are whole steps; of two racing sends of one draft the loser uses up a number and leaves its transaction behind.
- MergeTrails.OwnedThrough: the buyer columns of transactions and the invoices, which move likewise.
- InvoiceTotals: amounts beyond 2^53, where the original's numbers stop being exact; likewise Naira.
- Analytics: money totals as decimal strings.
- Outbox delivery, queue timing, chat dialogs, link codes, API keys, uploads, lists and access control.
