/**
 The inductive invariant of the escrow protocol.

 What a process has read can be stale, so its local knowledge is stated through facts that
 never become false again (`Later`); everything that can become false is stated by a few
 row invariants and by facts about which processes can run side by side.
 */
module EscrowInvariant {
  import opened Wrappers
  import opened Machine
  import opened EscrowProtocol

  // --- Logs -----------------------------------------------------------------------------

  function OutboxOf(t: Terms, es: seq<Edge>): seq<OutboxRow> {
    if es == [] then [] else OutboxOf(t, es[..|es| - 1]) + OutboxRows(t, es[|es| - 1])
  }

  /** Status, timeline, audit and outbox all replay the same chain of permitted shipped edges. */
  ghost predicate LogsAgree(t: Terms, status: Status, logs: Logs) {
    && PathFromDraft(logs.commits)
    && (forall i :: 0 <= i < |logs.commits| ==> Shipped(logs.commits[i].event))
    && status == LastStatus(logs.commits)
    && |logs.timeline| == |logs.commits| == |logs.audit|
    && (forall i :: 0 <= i < |logs.commits| ==> RowsReplay(logs.commits[i], logs.timeline[i], logs.audit[i]))
    && logs.outbox == OutboxOf(t, logs.commits)
  }

  predicate RowsReplay(edge: Edge, line: TimelineRow, entry: AuditRow) {
    && line == TimelineRow(TypeOf(edge.event), edge.from, edge.to)
    && entry == AuditRow(TypeOf(edge.event), edge.from, edge.to)
  }

  // --- Facts that stay true -----------------------------------------------------------------

  ghost predicate PaidBy(
    t: Terms, payments: map<PaymentId, Payment>, charges: map<ChargeRef, Charge>, id: PaymentId, charge: ChargeRef)
  {
    && id in payments && Tied(payments[id], charge)
    && charge in charges && charges[charge] == Charge(Charged, ChargeAmount(t))
  }

  /** The provider holds a successful charge of exactly the charge amount, tied to a payment row. */
  ghost predicate Collected(t: Terms, payments: map<PaymentId, Payment>, charges: map<ChargeRef, Charge>) {
    exists id, charge :: PaidBy(t, payments, charges, id, charge)
  }

  ghost predicate TransferSucceeded(transfers: map<Attempt, Transfer>, a: Attempt) {
    a in transfers && transfers[a].state.Succeeded?
  }

  /** The first transfer succeeded: the only one whose success ever settles the payout. */
  ghost predicate Disbursed(transfers: map<Attempt, Transfer>) {
    TransferSucceeded(transfers, Base)
  }

  predicate Releasing(status: Status) { Onward(ReleaseProcessing, status) }

  predicate NoneFreezing(disputes: map<DisputeId, DisputeStatus>) {
    forall d :: d in disputes ==> !Freezing(disputes[d])
  }

  /** Release was reached and no dispute is open. */
  ghost predicate Unfrozen(status: Status, disputes: map<DisputeId, DisputeStatus>) {
    Releasing(status) && NoneFreezing(disputes)
  }

  /** The first transfer reached a final state other than success. */
  predicate BaseLost(transfers: map<Attempt, Transfer>) {
    Base in transfers && (transfers[Base].state.Failed? || transfers[Base].state.Reversed?)
  }

  predicate LogsExtended(a: Logs, b: Logs) {
    a.commits <= b.commits && a.timeline <= b.timeline && a.audit <= b.audit && a.outbox <= b.outbox
  }

  /** References are never rebound, amounts never change, rows are never deleted. */
  ghost predicate PaymentsKept(a: map<PaymentId, Payment>, b: map<PaymentId, Payment>) {
    forall id :: id in a ==> id in b && PaymentKept(a[id], b[id])
  }

  predicate PaymentKept(r: Payment, r': Payment) {
    && r'.reference == r.reference && r'.customer == r.customer && r'.amount == r.amount
    && (r.boundCharge.Some? ==> r'.boundCharge == r.boundCharge)
  }

  /** A closed dispute stays closed, and once release was reached no dispute appears. */
  ghost predicate DisputesKept(status: Status, a: map<DisputeId, DisputeStatus>, b: map<DisputeId, DisputeStatus>) {
    && (forall d :: d in a ==> d in b && (Freezing(b[d]) ==> Freezing(a[d])))
    && (Releasing(status) ==> forall d :: d in b ==> d in a)
  }

  predicate PayoutKept(a: Option<Payout>, b: Option<Payout>) {
    a.Some? ==> b.Some? && b.value.amount == a.value.amount
  }

  /** A successful charge is final. */
  ghost predicate ChargesKept(a: map<ChargeRef, Charge>, b: map<ChargeRef, Charge>) {
    forall c :: c in a && a[c].state.Charged? ==> c in b && b[c] == a[c]
  }

  /** A final transfer state is final. */
  ghost predicate TransfersKept(a: map<Attempt, Transfer>, b: map<Attempt, Transfer>) {
    forall t :: t in a ==> t in b && b[t].amount == a[t].amount && (a[t].state.Pending? || b[t].state == a[t].state)
  }

  /** `e'` is a possible future of `e`: nothing settled in `e` is undone in `e'`. */
  ghost predicate Later(e: Escrow, e': Escrow) {
    && e'.terms == e.terms
    && Onward(e.status, e'.status)
    && LogsExtended(e.logs, e'.logs)
    && PaymentsKept(e.payments, e'.payments)
    && DisputesKept(e.status, e.disputes, e'.disputes)
    && PayoutKept(e.payout, e'.payout)
    && e.seen <= e'.seen
    && ChargesKept(e.charges, e'.charges)
    && TransfersKept(e.transfers, e'.transfers)
  }

  lemma LaterReflexive(e: Escrow)
    ensures Later(e, e)
  {
  }

  lemma LaterTransitive(a: Escrow, b: Escrow, c: Escrow)
    requires Later(a, b) && Later(b, c)
    ensures Later(a, c)
  {
    assert PaymentsKept(a.payments, c.payments) by {
      forall id | id in a.payments ensures id in c.payments && PaymentKept(a.payments[id], c.payments[id]) {
        assert PaymentKept(a.payments[id], b.payments[id]) && PaymentKept(b.payments[id], c.payments[id]);
      }
    }
  }

  lemma CollectedStays(t: Terms, a: map<PaymentId, Payment>, b: map<PaymentId, Payment>,
                       ca: map<ChargeRef, Charge>, cb: map<ChargeRef, Charge>)
    requires PaymentsKept(a, b) && ChargesKept(ca, cb) && Collected(t, a, ca)
    ensures Collected(t, b, cb)
  {
    var id, charge :| PaidBy(t, a, ca, id, charge);
    assert PaymentKept(a[id], b[id]);
    assert PaidBy(t, b, cb, id, charge);
  }

  lemma DisbursedStays(a: map<Attempt, Transfer>, b: map<Attempt, Transfer>)
    requires TransfersKept(a, b) && Disbursed(a)
    ensures Disbursed(b)
  {
  }

  // --- What each process knows ----------------------------------------------------------------

  /** What justifies driving `event`, and what must follow its commit. */
  ghost predicate Justified(e: Escrow, event: Event, after: Continuation) {
    && Shipped(event)
    && (event.PaymentVerified? ==> Collected(e.terms, e.payments, e.charges))
    && (event.PayoutSucceeded? ==> Disbursed(e.transfers))
    && (event.BuyerInitiateCheckout? <==> after.InsertPayment?)
    && (event.RaiseDispute? <==> after.InsertDispute?)
    && (event.ResolveDisputeForSeller? <==> after.CloseDispute? && after.forSeller)
    && (event.ResolveDisputeForBuyer? <==> after.CloseDispute? && !after.forSeller)
    && (after.CloseDispute? ==> after.id in e.disputes)
  }

  ghost predicate Knows(e: Escrow, x: Process) {
    match x
    case Applying(event, override, elapsed, after) =>
      Justified(e, event, after) && override == (if after.CloseDispute? then Some(false) else None)
    case Decided(event, context, from, to, after) =>
      && Justified(e, event, after) && Onward(from, e.status)
      && Transition(from, event, context) == Accept(to)
      && context.releaseRule == e.terms.releaseRule
      && (after.CloseDispute? ==> !context.hasOpenDispute)
    case PaymentDue(_) => Onward(PaymentPending, e.status)
    case DisputeDue => Onward(Disputed, e.status)
    case ResolveRead(d, _) => d in e.disputes
    case DisputeClosing(d, forSeller) =>
      d in e.disputes && Onward(if forSeller then ReleaseProcessing else Refunded, e.status)
    case ChargeBinding(id, _, source) => id in e.payments && !source.Client?
    case ChargeBound(id, charge, source) => id in e.payments && Tied(e.payments[id], charge) && !source.Client?
    case Verifying(id, charge, source) => id in e.payments && Tied(e.payments[id], charge) && !source.Client?
    case Verdict(id, charge, source, answer) =>
      && id in e.payments && Tied(e.payments[id], charge) && !source.Client?
      && (answer.state.Charged? ==> charge in e.charges && e.charges[charge] == answer)
    case ReleaseRead => Releasing(e.status)
    case ReleaseCleared => Unfrozen(e.status, e.disputes)
    case Sending(amount, _) => Unfrozen(e.status, e.disputes) && e.payout.Some? && amount == SellerSettlement(e.terms)
    case SendErrored(_) => Unfrozen(e.status, e.disputes) && e.payout.Some?
    case SendConfirmed(a) => Unfrozen(e.status, e.disputes) && e.payout.Some? && a in e.transfers
    case SendFailed(_) => Unfrozen(e.status, e.disputes) && e.payout.Some?
    case RetryRead(row) => e.payout.Some? && row.reference.GetOr(Base) == Base
    case RetryCleared(row) => Unfrozen(e.status, e.disputes) && e.payout.Some? && row.reference.GetOr(Base) == Base
    case RetryChecked(row) => Unfrozen(e.status, e.disputes) && e.payout.Some?
    case Paying(code) => code == Base && Disbursed(e.transfers)
    case PayWrite(code) => code == Base && Disbursed(e.transfers)
    case Failing(outcome) => BaseLost(e.transfers)
    case FailWrite(outcome) => BaseLost(e.transfers)
  }

  lemma JustifiedStays(e: Escrow, e': Escrow, event: Event, after: Continuation)
    requires Later(e, e') && Justified(e, event, after)
    ensures Justified(e', event, after)
  {
    if event.PaymentVerified? { CollectedStays(e.terms, e.payments, e'.payments, e.charges, e'.charges); }
    if event.PayoutSucceeded? { DisbursedStays(e.transfers, e'.transfers); }
  }

  /** Stale knowledge is still knowledge. */
  lemma KnowsStays(e: Escrow, e': Escrow, x: Process)
    requires Later(e, e') && Knows(e, x)
    ensures Knows(e', x)
  {
    match x
    case Applying(event, _, _, after) => JustifiedStays(e, e', event, after);
    case Decided(event, _, _, _, after) => JustifiedStays(e, e', event, after);
    case ChargeBound(id, _, _) => assert PaymentKept(e.payments[id], e'.payments[id]);
    case Verifying(id, _, _) => assert PaymentKept(e.payments[id], e'.payments[id]);
    case Verdict(id, _, _, _) => assert PaymentKept(e.payments[id], e'.payments[id]);
    case _ =>
  }

  // --- What a process excludes ------------------------------------------------------------------

  /** A failure event on its way into the payout row. */
  predicate FailurePending(x: Process) { x.Failing? || x.FailWrite? }

  predicate BeforeReset(x: Process) { x.RetryRead? || x.RetryCleared? || x.RetryChecked? }

  predicate Launching(x: Process) { x.Sending? && x.attempt.Retry? }

  predicate Launched(x: Process) {
    (x.SendErrored? || x.SendConfirmed? || x.SendFailed?) && x.attempt.Retry?
  }

  predicate Retrying(x: Process) { BeforeReset(x) || Launching(x) || Launched(x) }

  /** The reference a retry sends under, fixed by the attempt count in the row it read. */
  function SendsUnder(x: Process): Attempt
    requires Retrying(x)
  {
    if BeforeReset(x) then Retry(x.row.attempts + 1) else x.attempt
  }

  predicate RowFailed(payout: Option<Payout>) {
    payout.Some? && (payout.value.status.Failure? || payout.value.status.Reversal?)
  }

  ghost predicate NoRetrySent(transfers: map<Attempt, Transfer>) {
    forall a :: a in transfers ==> a == Base
  }

  /** No transfer but the first and the one under `a`. */
  ghost predicate OnlyRetry(transfers: map<Attempt, Transfer>, a: Attempt) {
    forall b :: b in transfers ==> b == Base || b == a
  }

  /** The first transfer is lost and its one outcome event has been recorded. */
  ghost predicate LossSeen(transfers: map<Attempt, Transfer>, seen: set<Attempt>) {
    BaseLost(transfers) && Base in seen
  }

  ghost predicate Excludes(e: Escrow, x: Process) {
    && (x.PaymentDue? ==> e.payments == map[])
    && (x.DisputeDue? ==> e.disputes == map[] && e.status.Disputed?)
    && (FailurePending(x) || Retrying(x) ==> LossSeen(e.transfers, e.seen))
    && (FailurePending(x) ==> NoRetrySent(e.transfers))
    && (Retrying(x) ==> OnlyRetry(e.transfers, SendsUnder(x)))
    && (FailurePending(x) || Launching(x) || Launched(x) ==> !RowFailed(e.payout))
  }

  /** Two processes that may run side by side. Retries may, as long as they send under one reference. */
  predicate Apart(x: Process, y: Process) {
    && !(x.PaymentDue? && y.PaymentDue?)
    && !(x.DisputeDue? && y.DisputeDue?)
    && !(FailurePending(x) && (FailurePending(y) || Retrying(y)))
    && !(Retrying(x) && FailurePending(y))
    && (Retrying(x) && Retrying(y) ==> SendsUnder(x) == SendsUnder(y))
  }

  ghost predicate ProcessesSound(e: Escrow) {
    && (forall p :: p in e.procs ==> Knows(e, e.procs[p]) && Excludes(e, e.procs[p]))
    && (forall p, q :: p in e.procs && q in e.procs && p != q ==> Apart(e.procs[p], e.procs[q]))
  }

  // --- Rows --------------------------------------------------------------------------------------

  ghost predicate PaymentsSound(
    t: Terms, status: Status, payments: map<PaymentId, Payment>, charges: map<ChargeRef, Charge>)
  {
    && (forall i, j :: i in payments && j in payments ==> i == j)
    && (payments != map[] ==> Onward(PaymentPending, status))
    && (forall i :: i in payments ==> payments[i].amount == ChargeAmount(t))
    && (forall i :: i in payments && payments[i].status.Paid? ==> Collected(t, payments, charges))
    && (Onward(PaymentProtected, status) ==> Collected(t, payments, charges))
  }

  ghost predicate DisputesSound(status: Status, disputes: map<DisputeId, DisputeStatus>) {
    && (forall i, j :: i in disputes && j in disputes ==> i == j)
    && (disputes != map[] ==> Onward(Disputed, status))
    && (forall i :: i in disputes ==> !disputes[i].UnderReview?)
  }

  predicate Known(a: Option<Attempt>, transfers: map<Attempt, Transfer>) { a.Some? ==> a.value in transfers }

  ghost predicate PayoutSound(
    t: Terms, status: Status, payout: Option<Payout>, transfers: map<Attempt, Transfer>, seen: set<Attempt>)
  {
    && (payout.Some? ==> payout.value.amount == SellerSettlement(t) && Releasing(status))
    && (payout.Some? ==> Known(payout.value.code, transfers) && Known(payout.value.reference, transfers))
    && (transfers != map[] ==> payout.Some?)
    && (forall a :: a in transfers ==> transfers[a].amount == SellerSettlement(t))
    && (forall a, b :: a in transfers && b in transfers && a.Retry? && b.Retry? ==> a == b)
    && (!NoRetrySent(transfers) ==> LossSeen(transfers, seen) && !RowFailed(payout))
    && (RowFailed(payout) ==> LossSeen(transfers, seen))
    && (forall a :: a in seen ==> a in transfers && !transfers[a].state.Pending?)
    && (payout.Some? && payout.value.status.Success? ==> Disbursed(transfers))
    && (status.Completed? ==> Disbursed(transfers))
  }

  ghost predicate Inv(e: Escrow) {
    && LogsAgree(e.terms, e.status, e.logs)
    && PaymentsSound(e.terms, e.status, e.payments, e.charges)
    && DisputesSound(e.status, e.disputes)
    && PayoutSound(e.terms, e.status, e.payout, e.transfers, e.seen)
    && ProcessesSound(e)
  }

  lemma DraftedSound(t: Terms)
    ensures Inv(Drafted(t))
  {
  }
}
