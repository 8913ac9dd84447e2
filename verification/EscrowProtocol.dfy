/**
 The escrow protocol of one transaction at the grain of single database statements and
 provider calls.

 Every service method is a process with a program counter. A step starts a process,
 advances one by one statement, kills one, or lets the payment provider act, so a run is
 any interleaving of duplicated jobs, redelivered webhooks, concurrent requests and
 crashes.
 */
module EscrowProtocol {
  import opened Wrappers
  import opened Machine

  type ProcessId = nat
  type PaymentId = nat
  type DisputeId = nat
  type ChargeRef = string
  type Customer = string

  // --- Money terms, fixed when the transaction is created --------------------------------

  datatype FeeModel = BuyerPays | SellerPays

  datatype Terms = Terms(
    amount: int, feeModel: FeeModel, feeAmount: int, releaseRule: ReleaseRule,
    merchant: Option<string>, currency: string, title: string)

  function ChargeAmount(t: Terms): int {
    t.amount + if t.feeModel.BuyerPays? then t.feeAmount else 0
  }

  function SellerSettlement(t: Terms): int {
    match t.feeModel
    case BuyerPays => t.amount
    case SellerPays => t.amount - t.feeAmount
  }

  // --- Rows -----------------------------------------------------------------------------

  datatype PaymentStatus = AwaitingCharge | Paid | ChargeFailed | ChargeAbandoned

  datatype Payment = Payment(
    reference: ChargeRef,              // our reference, the provider's own for a hosted checkout
    boundCharge: Option<ChargeRef>,    // the provider's reference, bound once for a virtual account
    customer: Option<Customer>,        // present on a virtual-account payment only
    amount: int, status: PaymentStatus)

  /** The reference a transfer is sent under: `release:<tx>`, or `release:<tx>:r<n>`. */
  datatype Attempt = Base | Retry(n: nat)

  datatype PayoutStatus = Queued | Processing | Success | Failure | Reversal

  /** The single payout row, keyed `release:<tx>`. A transfer code stands for the transfer it names. */
  datatype Payout = Payout(
    amount: int, status: PayoutStatus, code: Option<Attempt>, reference: Option<Attempt>, attempts: nat)

  datatype DisputeStatus =
    | Open | UnderReview | ResolvedRelease | ResolvedRefund | ResolvedPartial | DisputeCancelled

  predicate Freezing(d: DisputeStatus) { d.Open? || d.UnderReview? }

  /** An event without its payload. Timeline kinds rename these one for one. */
  datatype EventType =
    | SELLER_PUBLISH | CANCEL | BUYER_INITIATE_CHECKOUT | EXPIRE | PAYMENT_VERIFIED | PAYMENT_ABANDONED
    | SELLER_START_DELIVERY | RAISE_DISPUTE | REFUND | SELLER_MARK_DELIVERED | BUYER_CONFIRM | AUTO_CONFIRM
    | RESOLVE_DISPUTE_FOR_SELLER | RESOLVE_DISPUTE_FOR_BUYER | WITHDRAW_DISPUTE
    | PAYOUT_SUCCEEDED | PAYOUT_RETRY | ADMIN_INTERVENTION

  datatype OutboundKind =
    | TransactionProtected | TransactionCancelled | DisputeOpened | DisputeResolved | FundsReleased

  datatype TimelineRow = TimelineRow(kind: EventType, oldState: Status, newState: Status)
  datatype AuditRow = AuditRow(event: EventType, from: Status, to: Status)
  datatype OutboxRow = OutboxRow(
    merchant: string, kind: OutboundKind, status: Status, amount: int, currency: string, title: string)

  /** The three append-only logs, and the history of committed transitions behind them. */
  datatype Logs = Logs(
    commits: seq<Edge>,               // history variable, not a table
    timeline: seq<TimelineRow>, audit: seq<AuditRow>, outbox: seq<OutboxRow>)

  // --- The provider ---------------------------------------------------------------------

  datatype ChargeState = ChargeOpen | ChargeDropped | ChargeRefused | Charged
  datatype Charge = Charge(state: ChargeState, amount: int)

  datatype TransferState = Pending | Succeeded | Failed | Reversed
  datatype Transfer = Transfer(amount: int, state: TransferState)

  predicate Live(t: Transfer) { t.state.Pending? || t.state.Succeeded? }

  // --- Processes ------------------------------------------------------------------------

  /** What a caller of `apply` does once its transition is committed. */
  datatype Continuation = Stop | InsertPayment(virtualAccount: bool) | InsertDispute
                 | CloseDispute(id: DisputeId, forSeller: bool)

  /** A running service method: its next statement and its local variables. */
  datatype Process =
    | Applying(event: Event, override: Option<bool>, elapsed: bool, after: Continuation)
    | Decided(event: Event, context: Context, from: Status, to: Status, after: Continuation)
    | PaymentDue(virtualAccount: bool)
    | DisputeDue
    | ResolveRead(dispute: DisputeId, forSeller: bool)
    | DisputeClosing(dispute: DisputeId, forSeller: bool)
    | ChargeBinding(payment: PaymentId, charge: ChargeRef, source: PaymentSource)
    | ChargeBound(payment: PaymentId, charge: ChargeRef, source: PaymentSource)
    | Verifying(payment: PaymentId, charge: ChargeRef, source: PaymentSource)
    | Verdict(payment: PaymentId, charge: ChargeRef, source: PaymentSource, answer: Charge)
    | ReleaseRead
    | ReleaseCleared
    | Sending(amount: int, attempt: Attempt)
    | SendErrored(attempt: Attempt)
    | SendConfirmed(attempt: Attempt)
    | SendFailed(attempt: Attempt)
    | RetryRead(row: Payout)
    | RetryCleared(row: Payout)
    | RetryChecked(row: Payout)
    | Paying(code: Attempt)
    | PayWrite(code: Attempt)
    | Failing(outcome: TransferState)
    | FailWrite(outcome: TransferState)

  datatype Escrow = Escrow(
    terms: Terms,
    status: Status,
    logs: Logs,
    payments: map<PaymentId, Payment>,
    payout: Option<Payout>,
    disputes: map<DisputeId, DisputeStatus>,
    seen: set<Attempt>,               // transfers whose outcome event is in webhook_events
    charges: map<ChargeRef, Charge>,
    transfers: map<Attempt, Transfer>,
    procs: map<ProcessId, Process>)

  function Drafted(t: Terms): Escrow {
    Escrow(t, Draft, Logs([], [], [], []), map[], None, map[], {}, map[], map[], map[])
  }

  // --- Log rows ---------------------------------------------------------------------------

  function TypeOf(e: Event): EventType {
    match e
    case SellerPublish => SELLER_PUBLISH
    case Cancel => CANCEL
    case BuyerInitiateCheckout => BUYER_INITIATE_CHECKOUT
    case Expire => EXPIRE
    case PaymentVerified(_) => PAYMENT_VERIFIED
    case PaymentAbandoned => PAYMENT_ABANDONED
    case SellerStartDelivery => SELLER_START_DELIVERY
    case RaiseDispute => RAISE_DISPUTE
    case Refund => REFUND
    case SellerMarkDelivered => SELLER_MARK_DELIVERED
    case BuyerConfirm => BUYER_CONFIRM
    case AutoConfirm => AUTO_CONFIRM
    case ResolveDisputeForSeller => RESOLVE_DISPUTE_FOR_SELLER
    case ResolveDisputeForBuyer => RESOLVE_DISPUTE_FOR_BUYER
    case WithdrawDispute => WITHDRAW_DISPUTE
    case PayoutSucceeded => PAYOUT_SUCCEEDED
    case PayoutRetry => PAYOUT_RETRY
    case AdminIntervention => ADMIN_INTERVENTION
  }

  /** The merchant-facing kind of an event, for the six events that have one. */
  function OutboundKindOf(e: Event): Option<OutboundKind> {
    match e
    case PaymentVerified(_) => Some(TransactionProtected)
    case Cancel => Some(TransactionCancelled)
    case RaiseDispute => Some(DisputeOpened)
    case ResolveDisputeForSeller => Some(DisputeResolved)
    case ResolveDisputeForBuyer => Some(DisputeResolved)
    case PayoutSucceeded => Some(FundsReleased)
    case _ => None
  }

  function OutboxRows(t: Terms, edge: Edge): seq<OutboxRow> {
    if t.merchant.None? || OutboundKindOf(edge.event).None? then []
    else [OutboxRow(t.merchant.value, OutboundKindOf(edge.event).value, edge.to, t.amount, t.currency, t.title)]
  }

  // --- Building blocks of the steps -----------------------------------------------------------

  function Goto(e: Escrow, p: ProcessId, x: Process): Escrow {
    e.(procs := e.procs[p := x])
  }

  function Halt(e: Escrow, p: ProcessId): Escrow {
    e.(procs := e.procs - {p})
  }

  predicate AnyFreezing(e: Escrow) {
    exists d :: d in e.disputes && Freezing(e.disputes[d])
  }

  predicate AnyOpen(e: Escrow) {
    exists d :: d in e.disputes && e.disputes[d].Open?
  }

  predicate OtherFreezing(e: Escrow, d: DisputeId) {
    exists o :: o in e.disputes && o != d && Freezing(e.disputes[o])
  }

  function Appended(t: Terms, logs: Logs, edge: Edge): Logs {
    Logs(logs.commits + [edge],
         logs.timeline + [TimelineRow(TypeOf(edge.event), edge.from, edge.to)],
         logs.audit + [AuditRow(TypeOf(edge.event), edge.from, edge.to)],
         logs.outbox + OutboxRows(t, edge))
  }

  /** The committed half of `apply`: status, timeline, audit and outbox in one database transaction. */
  function Commit(e: Escrow, edge: Edge): Escrow {
    e.(status := edge.to, logs := Appended(e.terms, e.logs, edge))
  }

  function Proceed(e: Escrow, p: ProcessId, after: Continuation): Escrow {
    match after
    case Stop => Halt(e, p)
    case InsertPayment(virtualAccount) => Goto(e, p, PaymentDue(virtualAccount))
    case InsertDispute => Goto(e, p, DisputeDue)
    case CloseDispute(d, forSeller) => Goto(e, p, DisputeClosing(d, forSeller))
  }

  /** The deciding half of `apply`: read the row and its disputes, ask the machine. */
  function Decide(e: Escrow, p: ProcessId, event: Event, override: Option<bool>,
      elapsed: bool, after: Continuation): Escrow {
    var context := Context(e.terms.releaseRule, override.GetOr(AnyFreezing(e)), elapsed);
    match Transition(e.status, event, context)
    case Reject(_) => Halt(e, p)
    case Accept(to) => Goto(e, p, Decided(event, context, e.status, to, after))
  }

  predicate Tied(payment: Payment, charge: ChargeRef) {
    payment.reference == charge || payment.boundCharge == Some(charge)
  }

  /** Reading a payment row before verifying it: a row already paid is left alone. */
  function ReadPayment(e: Escrow, p: ProcessId, id: PaymentId, charge: ChargeRef, source: PaymentSource): Escrow
    requires id in e.payments
  {
    if e.payments[id].status.Paid? then Halt(e, p) else Goto(e, p, Verifying(id, charge, source))
  }

  ghost predicate HostedBy(e: Escrow, id: PaymentId, charge: ChargeRef) {
    id in e.payments && e.payments[id].reference == charge
  }

  ghost predicate BoundTo(e: Escrow, id: PaymentId, charge: ChargeRef) {
    id in e.payments && e.payments[id].boundCharge == Some(charge)
  }

  ghost predicate OwnedBy(e: Escrow, id: PaymentId, customer: Option<Customer>) {
    id in e.payments && customer.Some? && e.payments[id].customer == customer
  }

  /** `charge.success`: by our reference, else by the bound charge, else by the customer. */
  ghost function RouteCharge(e: Escrow, p: ProcessId, charge: ChargeRef, customer: Option<Customer>): Escrow {
    if id :| HostedBy(e, id, charge) then ReadPayment(e, p, id, charge, Webhook)
    else if customer.None? then e
    else if id :| BoundTo(e, id, charge) then ReadPayment(e, p, id, charge, Webhook)
    else if id :| OwnedBy(e, id, customer) then Goto(e, p, ChargeBinding(id, charge, Webhook))
    else e
  }

  /** One-shot bind; the loser of a race uses whichever row holds the charge. */
  ghost function BindCharge(e: Escrow, p: ProcessId, id: PaymentId, charge: ChargeRef, source: PaymentSource): Escrow {
    if id in e.payments && e.payments[id].boundCharge.None? then
      Goto(e.(payments := e.payments[id := e.payments[id].(boundCharge := Some(charge))]), p,
           ChargeBound(id, charge, source))
    else if winner :| BoundTo(e, winner, charge) then ReadPayment(e, p, winner, charge, source)
    else Halt(e, p)
  }

  function RecordVerdict(e: Escrow, p: ProcessId, id: PaymentId, source: PaymentSource, answer: Charge): Escrow
    requires id in e.payments
  {
    var row := e.payments[id];
    if !answer.state.Charged? then
      var failed := if answer.state.ChargeDropped? then ChargeAbandoned else ChargeFailed;
      Halt(e.(payments := e.payments[id := row.(status := failed)]), p)
    else if answer.amount != row.amount then Halt(e, p)
    else Goto(e.(payments := e.payments[id := row.(status := Paid)]), p,
              Applying(PaymentVerified(source), None, false, Stop))
  }

  /** Insert-or-reuse of the payout row, then the guard that a settled or sent payout is left alone. */
  function Authorize(e: Escrow, p: ProcessId): Escrow {
    var row := e.payout.GetOr(Payout(SellerSettlement(e.terms), Queued, None, None, 0));
    var stored := e.(payout := Some(row));
    if row.status.Success? || row.code.Some? then Halt(stored, p)
    else Goto(stored, p, Sending(row.amount, Base))
  }

  /** POST /transfer: a used reference is refused; an error may hide a created transfer. */
  function CallTransfer(e: Escrow, p: ProcessId, amount: int, a: Attempt, created: bool, answered: bool): Escrow {
    if a in e.transfers || !created then Goto(e, p, SendErrored(a))
    else
      var sent := e.(transfers := e.transfers[a := Transfer(amount, Pending)]);
      Goto(sent, p, if answered then SendConfirmed(a) else SendErrored(a))
  }

  function RecordSent(e: Escrow, p: ProcessId, a: Attempt): Escrow {
    if e.payout.None? then Halt(e, p)
    else
      var row := e.payout.value;
      Halt(e.(payout := Some(row.(code := Some(a), reference := Some(a), status := Processing,
                                  attempts := row.attempts + 1))), p)
  }

  function RecordSendFailure(e: Escrow, p: ProcessId): Escrow {
    if e.payout.None? then Halt(e, p)
    else Halt(e.(payout := Some(e.payout.value.(attempts := e.payout.value.attempts + 1))), p)
  }

  /** The retry's look at the previous reference; an unanswered look reads as "no such transfer". */
  function CheckPrior(e: Escrow, p: ProcessId, row: Payout, answered: bool): Escrow {
    var prior := row.reference.GetOr(Base);
    if answered && prior in e.transfers && e.transfers[prior].state.Succeeded?
    then Goto(e, p, Paying(prior))
    else Goto(e, p, RetryChecked(row))
  }

  function ResetPayout(e: Escrow, p: ProcessId, snapshot: Payout): Escrow {
    if e.payout.None? then Halt(e, p)
    else
      var row := e.payout.value;
      Goto(e.(payout := Some(row.(status := Queued, code := None))), p,
           Sending(row.amount, Retry(snapshot.attempts + 1)))
  }

  predicate Unsettled(e: Escrow) { e.payout.Some? && !e.payout.value.status.Success? }

  function WritePaid(e: Escrow, p: ProcessId, code: Attempt): Escrow {
    if e.payout.None? then Halt(e, p)
    else Goto(e.(payout := Some(e.payout.value.(status := Success, code := Some(code)))), p,
              Applying(PayoutSucceeded, None, false, Stop))
  }

  function WriteFailed(e: Escrow, p: ProcessId, outcome: TransferState): Escrow {
    if e.payout.None? then Halt(e, p)
    else
      var status := if outcome.Reversed? then Reversal else Failure;
      Halt(e.(payout := Some(e.payout.value.(status := status))), p)
  }

  /** The event is recorded once; a retry's reference is no payout key, so its event finds no row. */
  function ReceiveOutcome(e: Escrow, p: ProcessId, a: Attempt): Escrow
    requires a in e.transfers
  {
    if a in e.seen then e
    else
      var recorded := e.(seen := e.seen + {a});
      if a != Base then recorded
      else if e.transfers[a].state.Succeeded? then Goto(recorded, p, Paying(Base))
      else Goto(recorded, p, Failing(e.transfers[a].state))
  }

  // --- Steps --------------------------------------------------------------------------------

  /** What the outside world contributes to one statement. */
  datatype Input =
    | NoInput
    | Minted(id: nat, reference: ChargeRef, customer: Option<Customer>)
    | Reply(created: bool, answered: bool)

  datatype Step =
    | StartApply(p: ProcessId, event: Event)
    | StartCheckout(p: ProcessId, virtualAccount: bool)
    | StartRaise(p: ProcessId)
    | StartResolve(p: ProcessId, dispute: DisputeId, forSeller: bool)
    | StartRelease(p: ProcessId)
    | StartRetry(p: ProcessId)
    | ChargeEvent(p: ProcessId, charge: ChargeRef, customer: Option<Customer>)
    | StartVerify(p: ProcessId, payment: PaymentId, bound: bool)
    | OutcomeEvent(p: ProcessId, attempt: Attempt)
    | Resume(p: ProcessId, input: Input)
    | Crash(p: ProcessId)
    | MoveCharge(charge: ChargeRef, now: Charge)
    | SettleTransfer(attempt: Attempt, outcome: TransferState)

  /** Events that a request or the auto-release scan applies on their own. */
  predicate Standalone(e: Event) {
    e.SellerPublish? || e.Cancel? || e.SellerStartDelivery? || e.SellerMarkDelivered?
    || e.BuyerConfirm? || e.AutoConfirm?
  }

  ghost predicate Enabled(e: Escrow, s: Step) {
    match s
    case StartApply(p, event) => p !in e.procs && Standalone(event)
    case StartCheckout(p, _) => p !in e.procs
    case StartRaise(p) => p !in e.procs
    case StartResolve(p, _, _) => p !in e.procs
    case StartRelease(p) => p !in e.procs
    case StartRetry(p) => p !in e.procs
    case ChargeEvent(p, _, _) => p !in e.procs
    case StartVerify(p, payment, _) => p !in e.procs && payment in e.payments
    case OutcomeEvent(p, a) => p !in e.procs && a in e.transfers && !e.transfers[a].state.Pending?
    case Resume(p, input) => p in e.procs && Suits(e, e.procs[p], input)
    case Crash(p) => p in e.procs
    case MoveCharge(charge, _) => charge in e.charges ==> !e.charges[charge].state.Charged?
    case SettleTransfer(a, outcome) => a in e.transfers && e.transfers[a].state.Pending? && !outcome.Pending?
  }

  predicate Suits(e: Escrow, x: Process, input: Input) {
    match x
    case PaymentDue(virtualAccount) =>
      input.Minted? && input.id !in e.payments && input.customer.Some? == virtualAccount
    case DisputeDue => input.Minted? && input.id !in e.disputes
    case Sending(_, _) => input.Reply?
    case SendErrored(_) => input.Reply?
    case RetryCleared(_) => input.Reply?
    case _ => input.NoInput?
  }

  ghost function Do(e: Escrow, s: Step): Escrow
    requires Enabled(e, s)
  {
    match s
    case StartApply(p, event) => Goto(e, p, Applying(event, None, event.AutoConfirm?, Stop))
    case StartCheckout(p, virtualAccount) =>
      Goto(e, p, Applying(BuyerInitiateCheckout, None, false, InsertPayment(virtualAccount)))
    case StartRaise(p) => Goto(e, p, Applying(RaiseDispute, None, false, InsertDispute))
    case StartResolve(p, d, forSeller) =>
      if d in e.disputes && Freezing(e.disputes[d]) then Goto(e, p, ResolveRead(d, forSeller)) else e
    case StartRelease(p) => if e.status.ReleaseProcessing? then Goto(e, p, ReleaseRead) else e
    case StartRetry(p) =>
      if e.payout.Some? && (e.payout.value.status.Failure? || e.payout.value.status.Reversal?)
      then Goto(e, p, RetryRead(e.payout.value)) else e
    case ChargeEvent(p, charge, customer) => RouteCharge(e, p, charge, customer)
    case StartVerify(p, id, bound) =>
      var row := e.payments[id];
      ReadPayment(e, p, id, if bound then row.boundCharge.GetOr(row.reference) else row.reference, ServerVerify)
    case OutcomeEvent(p, a) => ReceiveOutcome(e, p, a)
    case Resume(p, input) => Advance(e, p, input)
    case Crash(p) => Halt(e, p)
    case MoveCharge(charge, now) => e.(charges := e.charges[charge := now])
    case SettleTransfer(a, outcome) =>
      e.(transfers := e.transfers[a := e.transfers[a].(state := outcome)])
  }

  /** One statement of one process. */
  ghost function Advance(e: Escrow, p: ProcessId, input: Input): Escrow
    requires p in e.procs && Suits(e, e.procs[p], input)
  {
    match e.procs[p]
    case Applying(event, override, elapsed, after) => Decide(e, p, event, override, elapsed, after)
    case Decided(event, context, from, to, after) =>
      if e.status != from then Halt(e, p)
      else Proceed(Commit(e, Edge(from, event, context, to)), p, after)
    case PaymentDue(_) =>
      var row := Payment(input.reference, None, input.customer, ChargeAmount(e.terms), AwaitingCharge);
      Halt(e.(payments := e.payments[input.id := row]), p)
    case DisputeDue => Halt(e.(disputes := e.disputes[input.id := Open]), p)
    case ResolveRead(d, forSeller) =>
      var event := if forSeller then ResolveDisputeForSeller else ResolveDisputeForBuyer;
      Goto(e, p, Applying(event, Some(OtherFreezing(e, d)), false, CloseDispute(d, forSeller)))
    case DisputeClosing(d, forSeller) =>
      if d !in e.disputes then Halt(e, p)
      else Halt(e.(disputes := e.disputes[d := if forSeller then ResolvedRelease else ResolvedRefund]), p)
    case ChargeBinding(id, charge, source) => BindCharge(e, p, id, charge, source)
    case ChargeBound(id, charge, source) =>
      if id !in e.payments then Halt(e, p) else ReadPayment(e, p, id, charge, source)
    case Verifying(id, charge, source) =>
      if charge !in e.charges then Halt(e, p) else Goto(e, p, Verdict(id, charge, source, e.charges[charge]))
    case Verdict(id, _, source, answer) =>
      if id !in e.payments then Halt(e, p) else RecordVerdict(e, p, id, source, answer)
    case ReleaseRead => if AnyOpen(e) then Halt(e, p) else Goto(e, p, ReleaseCleared)
    case ReleaseCleared => Authorize(e, p)
    case Sending(amount, a) => CallTransfer(e, p, amount, a, input.created, input.answered)
    case SendErrored(a) =>
      if input.answered && a in e.transfers then Goto(e, p, SendConfirmed(a)) else Goto(e, p, SendFailed(a))
    case SendConfirmed(a) => RecordSent(e, p, a)
    case SendFailed(_) => RecordSendFailure(e, p)
    case RetryRead(row) => if AnyOpen(e) then Halt(e, p) else Goto(e, p, RetryCleared(row))
    case RetryCleared(row) => CheckPrior(e, p, row, input.answered)
    case RetryChecked(row) => ResetPayout(e, p, row)
    case Paying(code) => if Unsettled(e) then Goto(e, p, PayWrite(code)) else Halt(e, p)
    case PayWrite(code) => WritePaid(e, p, code)
    case Failing(outcome) => if Unsettled(e) then Goto(e, p, FailWrite(outcome)) else Halt(e, p)
    case FailWrite(outcome) => WriteFailed(e, p, outcome)
  }
}
