/**
 The services of one transaction as they are written: methods that read and update the stored
 rows in place, around calls to the payment provider. Every method is proved to do exactly what
 `EscrowCalls` says and to keep the whole protocol invariant.
 */
module EscrowServices {
  import opened Wrappers
  import opened Machine
  import opened EscrowProtocol
  import opened EscrowInvariant
  import opened EscrowProof
  import opened EscrowRuns
  import opened EscrowCalls
  import opened EscrowSettled
  import opened AuditTrail

  datatype ServiceError =
    | NotFound | TransitionRejected(reason: Rejection) | NotReleasing | ReleaseFrozen | NoDestination
    | AlreadySettled | NotRetryable | AlreadyResolved | AmountMismatch | ProviderError

  /** The payment provider, as far as one transaction can see it. */
  class Provider {
    var charges: map<ChargeRef, Charge>
    var transfers: map<Attempt, Transfer>

    constructor ()
      ensures charges == map[] && transfers == map[]
    {
      charges, transfers := map[], map[];
    }

    /** A used reference is refused. An error may hide a created transfer. */
    method InitiateTransfer(amount: int, a: Attempt, created: bool, answered: bool) returns (code: Option<Attempt>)
      modifies this`transfers
      ensures transfers == if a in old(transfers) || !created then old(transfers)
                           else old(transfers)[a := Transfer(amount, Pending)]
      ensures code == if a !in old(transfers) && created && answered then Some(a) else None
    {
      code := None;
      if a !in transfers && created {
        transfers := transfers[a := Transfer(amount, Pending)];
        if answered {
          code := Some(a);
        }
      }
    }

    /** None when there is no such transfer, and on any error. */
    method VerifyTransfer(a: Attempt, answered: bool) returns (found: Option<Transfer>)
      ensures found == if answered && a in transfers then Some(transfers[a]) else None
    {
      found := None;
      if answered && a in transfers {
        found := Some(transfers[a]);
      }
    }
  }

  class EscrowDesk {
    const terms: Terms
    const provider: Provider
    var status: Status
    ghost var commits: seq<Edge>
    var timeline: seq<TimelineRow>
    var audit: seq<AuditRow>
    var outbox: seq<OutboxRow>
    var payments: map<PaymentId, Payment>
    var payout: Option<Payout>
    var disputes: map<DisputeId, DisputeStatus>
    var seen: set<Attempt>
    var buyer: Option<string>         // linked at the first checkout, outside the protocol state

    ghost function State(): Escrow
      reads this, provider
    {
      Escrow(terms, status, Logs(commits, timeline, audit, outbox), payments, payout, disputes, seen,
             provider.charges, provider.transfers, map[])
    }

    /** Between calls: the protocol invariant, and rows in step with the status. */
    ghost predicate Valid()
      reads this, provider
    {
      Inv(State()) && InStep(State())
    }

    constructor (t: Terms, p: Provider)
      requires p.charges == map[] && p.transfers == map[]
      ensures terms == t && provider == p && State() == Drafted(t) && buyer == None && Valid()
    {
      terms, provider := t, p;
      status, commits, timeline, audit, outbox := Draft, [], [], [], [];
      payments, payout, disputes, seen, buyer := map[], None, map[], {}, None;
      new;
      DraftedSound(t);
      DraftedInStep(t);
    }

    // --- transactions.service --------------------------------------------------------------

    /** The write half of `apply`: one database transaction over the status and the three logs. */
    method Record(from: Status, event: Event, context: Context, to: Status)
      requires status == from
      modifies this`status, this`commits, this`timeline, this`audit, this`outbox
      ensures State() == Commit(old(State()), Edge(from, event, context, to)) && status == to
    {
      hide TypeOf, OutboundKindOf;
      status := to;
      timeline := timeline + [TimelineRow(TypeOf(event), from, to)];
      audit := audit + [AuditRow(TypeOf(event), from, to)];
      if terms.merchant.Some? && OutboundKindOf(event).Some? {
        outbox := outbox + [OutboxRow(terms.merchant.value, OutboundKindOf(event).value, to,
                                      terms.amount, terms.currency, terms.title)];
      }
      commits := commits + [Edge(from, event, context, to)];
    }

    method CountFreezing(except: Option<DisputeId>) returns (n: nat)
      ensures n > 0 <==> exists d :: d in disputes && Some(d) != except && Freezing(disputes[d])
    {
      var freezing := set d | d in disputes && Some(d) != except && Freezing(disputes[d]);
      if d :| d in disputes && Some(d) != except && Freezing(disputes[d]) {
        assert d in freezing;
      }
      n := |freezing|;
    }

    method Apply(event: Event, override: Option<bool>, elapsed: bool) returns (r: Result<Status, ServiceError>)
      modifies this`status, this`commits, this`timeline, this`audit, this`outbox
      ensures State() == Applied(old(State()), event, override, elapsed)
      ensures r.Ok? <==> Accepts(old(State()), event, override, elapsed)
      ensures r.Ok? ==> r.value == status
      ensures r.Err? ==> r.error.TransitionRejected? && State() == old(State())
      ensures r.Ok? && Shipped(event) ==>
        && old(outbox) <= outbox && |outbox| <= |old(outbox)| + 1
        && forall kind :: Told(outbox[|old(outbox)|..], kind) <==>
             terms.merchant.Some? && Announces(kind, old(status), status)
    {
      hide Transition, Commit, Announces, Told, OutboxRows, Shipped;
      var freezing := CountFreezing(None);
      assert freezing > 0 <==> AnyFreezing(State());
      var context := Context(terms.releaseRule, override.GetOr(freezing > 0), elapsed);
      match Transition(status, event, context) {
        case Reject(reason) =>
          return Err(TransitionRejected(reason));
        case Accept(to) =>
          ghost var edge := Edge(status, event, context, to);
          Record(status, event, context, to);
          CommitAppends(old(State()), edge);
          RecordedTells(terms, old(outbox), outbox, edge);
          return Ok(to);
      }
    }

    // --- payments.service --------------------------------------------------------------------

    /**
     Hosted checkout: `id` and `reference` are minted by the caller. The provider is asked for the checkout
     page last, so when that fails the pending payment stays.
     */
    method InitializeCollection(id: PaymentId, reference: ChargeRef, buyerId: string, pageGiven: bool)
      returns (r: Result<ChargeRef, ServiceError>)
      requires Valid() && id !in payments
      modifies this`payments, this`buyer, this`status, this`commits, this`timeline, this`audit, this`outbox
      ensures Valid()
      ensures State() == CheckedOut(old(State()), id, reference, None)
      ensures buyer == if old(status).LinkActive? && old(buyer).None? then Some(buyerId) else old(buyer)
      ensures r.Ok? <==> old(status).LinkActive? && pageGiven
      ensures r.Ok? ==> r.value == reference
      ensures r == Err(ProviderError) <==> old(status).LinkActive? && !pageGiven
      ensures old(status).LinkActive? ==>
        && status.PaymentPending?
        && payments == old(payments)[id := Payment(reference, None, None, ChargeAmount(terms), AwaitingCharge)]
    {
      hide Inv, InStep, Applied, CheckedOut, Accepts;
      ghost var before := State();
      CheckoutAccepted(before, id, reference, None);
      var begun := BeginCheckout(buyerId);
      if begun.None? {
        InsertPending(id, reference, None);
      }
      assert State() == CheckedOut(before, id, reference,
        None) by { CheckedOutIs(before, State(), id, reference, None); }
      CalledKeeps(before, CheckoutCall(id, reference, None));
      if begun.Some? {
        return Err(begun.value);
      }
      if !pageGiven {
        return Err(ProviderError);
      }
      return Ok(reference);
    }

    /** The transition, and the buyer link unless there is one. */
    method BeginCheckout(buyerId: string) returns (refused: Option<ServiceError>)
      modifies this`buyer, this`status, this`commits, this`timeline, this`audit, this`outbox
      ensures State() == Applied(old(State()), BuyerInitiateCheckout, None, false)
      ensures Links(old(State()), old(buyer), buyer, buyerId)
      ensures refused.None? <==> Accepts(old(State()), BuyerInitiateCheckout, None, false)
      ensures refused.Some? ==> refused.value.TransitionRejected? && State() == old(State())
    {
      hide Accepts, Transition, Commit, Applied;
      var applied := Apply(BuyerInitiateCheckout, None, false);
      if applied.Err? {
        return Some(applied.error);
      }
      if buyer.None? {
        buyer := Some(buyerId);
      }
      return None;
    }

    method InsertPending(id: PaymentId, reference: ChargeRef, customer: Option<Customer>)
      modifies this`payments
      ensures State() == old(State()).(payments := old(payments)[id :=
        Payment(reference, None, customer, ChargeAmount(terms), AwaitingCharge)])
    {
      payments := payments[id := Payment(reference, None, customer, ChargeAmount(terms), AwaitingCharge)];
    }

    /**
     Virtual account: a pending one is handed out again instead of minting a second. The provider's customer
     and account are asked for after the transition and before the insert; `customer` is None when either
     call fails, and then the checkout stands without a payment.
     */
    method InitializeVirtualAccount(id: PaymentId, reference: ChargeRef, customer: Option<Customer>, buyerId: string)
      returns (r: Result<PaymentId, ServiceError>)
      requires Valid() && id !in payments
      modifies this`payments, this`buyer, this`status, this`commits, this`timeline, this`audit, this`outbox
      ensures Valid()
      ensures (exists p ::
          p in old(payments) && old(payments)[p].status.AwaitingCharge? && old(payments)[p].customer.Some?)
        ==> && r.Ok? && r.value in old(payments) && State() == old(State()) && buyer == old(buyer)
            && old(payments)[r.value].status.AwaitingCharge? && old(payments)[r.value].customer.Some?
      ensures (forall p ::
          p in old(payments) ==> !old(payments)[p].status.AwaitingCharge? || old(payments)[p].customer.None?)
        ==>
        && buyer == (if old(status).LinkActive? && old(buyer).None? then Some(buyerId) else old(buyer))
        && State() == (if customer.Some? then CheckedOut(old(State()), id, reference, customer)
                       else Applied(old(State()), BuyerInitiateCheckout, None, false))
        && (r == Ok(id) <==> old(status).LinkActive? && customer.Some?)
        && (r == Err(ProviderError) <==> old(status).LinkActive? && customer.None?)
        && (old(status).LinkActive? ==> status.PaymentPending?)
    {
      hide Inv, InStep, Applied, CheckedOut, Accepts;
      ghost var before := State();
      CheckoutAccepted(before, id, reference, customer);
      var pending := set p | p in payments && payments[p].status.AwaitingCharge? && payments[p].customer.Some?;
      if pending != {} {
        var p :| p in pending;
        return Ok(p);
      }
      assert forall p ::
          p in payments && payments[p].status.AwaitingCharge? && payments[p].customer.Some? ==> p in pending;
      var begun := BeginCheckout(buyerId);
      if customer.None? {
        CalledKeeps(before, CheckoutStops);
        return Err(begun.GetOr(ProviderError));
      }
      if begun.None? {
        InsertPending(id, reference, customer);
      }
      assert State() == CheckedOut(before, id, reference,
        customer) by { CheckedOutIs(before, State(), id, reference, customer); }
      CalledKeeps(before, CheckoutCall(id, reference, customer));
      if begun.Some? {
        return Err(begun.value);
      }
      return Ok(id);
    }

    /**
     Verify a charge at the provider and protect on exactly the right amount. A rejected transition
     leaves the payment paid.
     */
    method VerifyAndProtect(id: PaymentId, charge: ChargeRef, source: PaymentSource)
      returns (r: Result<PaymentStatus, ServiceError>)
      requires id in payments
      modifies this`payments, this`status, this`commits, this`timeline, this`audit, this`outbox
      ensures State() == Verified(old(State()), id, charge, source)
      ensures r.Ok? ==> id in payments && r.value == payments[id].status
      ensures r.Err? && id in payments && payments[id].status.Paid? ==>
        !Accepts(old(State()), PaymentVerified(source), None, false)
      ensures r == Err(AmountMismatch) <==>
        && !old(payments[id].status.Paid?) && charge in provider.charges && provider.charges[charge].state.Charged?
        && provider.charges[charge].amount != old(payments[id].amount)
    {
      hide Applied, Accepts;
      var row := payments[id];
      if row.status.Paid? {
        return Ok(Paid);
      }
      if charge !in provider.charges {
        return Err(ProviderError);
      }
      var answer := provider.charges[charge];
      if !answer.state.Charged? {
        var failed := if answer.state.ChargeDropped? then ChargeAbandoned else ChargeFailed;
        payments := payments[id := row.(status := failed)];
        return Ok(failed);
      }
      if answer.amount != row.amount {
        return Err(AmountMismatch);
      }
      payments := payments[id := row.(status := Paid)];
      AcceptsIgnoresPayments(old(State()), State(), PaymentVerified(source));
      var applied := Apply(PaymentVerified(source), None, false);
      if applied.Err? {
        return Err(applied.error);
      }
      return Ok(Paid);
    }

    /** The browser-return and reconciliation paths: the bound charge if there is one, else our reference. */
    method ReconcilePayment(id: PaymentId) returns (r: Result<PaymentStatus, ServiceError>)
      requires Valid()
      modifies this`payments, this`status, this`commits, this`timeline, this`audit, this`outbox
      ensures Valid()
      ensures id !in old(payments) ==> r == Err(NotFound)
      ensures State() == Reconciled(old(State()), id)
      ensures r == Ok(Paid) <==> id in payments && payments[id].status.Paid?
    {
      hide Inv, InStep, Verified, Accepts;
      ghost var before := State();
      if id in payments && payments[id].status.AwaitingCharge? {
        AwaitingIsAccepted(before, id, ServerVerify);
      }
      if id !in payments {
        return Err(NotFound);
      }
      var row := payments[id];
      if !row.status.AwaitingCharge? {
        return Ok(row.status);
      }
      r := VerifyAndProtect(id, row.boundCharge.GetOr(row.reference), ServerVerify);
      CalledKeeps(before, VerifyCall(id, true));
    }

    /** `charge.success`: a hosted charge by our reference, a virtual-account charge by its bound or unbound row. */
    method HandleChargeSuccess(charge: ChargeRef, customer: Option<Customer>) returns (r: Result<bool, ServiceError>)
      requires Valid()
      modifies this`payments, this`status, this`commits, this`timeline, this`audit, this`outbox
      ensures Valid()
      ensures State() == ChargeHandled(old(State()), charge, customer)
      ensures r == Ok(false) <==> !Matches(old(State()), charge, customer)
    {
      hide Inv, InStep, Verified, ChargeHandled, Matches;
      ghost var before := State();
      OnePaymentRow(before);
      var hosted := set p | p in payments && payments[p].reference == charge;
      assert forall p :: HostedBy(before, p, charge) <==> p in hosted;
      ChargeKeeps(before, charge, customer);
      if hosted != {} {
        var id :| id in hosted;
        HostedHandled(before, charge, customer, id);
        var verified := VerifyAndProtect(id, charge, Webhook);
        return if verified.Ok? then Ok(true) else Err(verified.error);
      }
      if customer.None? {
        UnmatchedHandled(before, charge, customer);
        return Ok(false);
      }
      var found := ResolveVirtualAccount(customer.value, charge);
      RoutedHandled(before, State(), charge, customer.value, found);
      if found.None? {
        return Ok(false);
      }
      var verified := VerifyAndProtect(found.value, charge, Webhook);
      return if verified.Ok? then Ok(true) else Err(verified.error);
    }

    /** One-shot bind: a row that already carries a charge is never given another. */
    method ResolveVirtualAccount(customer: Customer, charge: ChargeRef) returns (found: Option<PaymentId>)
      requires forall i, j :: i in payments && j in payments ==> i == j
      modifies this`payments
      ensures Resolves(old(State()), State(), customer, charge, found)
    {
      var bound := set p | p in payments && payments[p].boundCharge == Some(charge);
      assert forall p :: BoundTo(State(), p, charge) <==> p in bound;
      if bound != {} {
        var id :| id in bound;
        return Some(id);
      }
      var owned := set p | p in payments && payments[p].customer == Some(customer);
      assert forall p :: OwnedBy(State(), p, Some(customer)) <==> p in owned;
      if owned == {} {
        return None;
      }
      var id :| id in owned;
      if payments[id].boundCharge.Some? {
        return None;
      }
      payments := payments[id := payments[id].(boundCharge := Some(charge))];
      return Some(id);
    }

    // --- disputes.service --------------------------------------------------------------------

    method Raise(id: DisputeId) returns (r: Result<DisputeId, ServiceError>)
      requires Valid() && id !in disputes
      modifies this`disputes, this`status, this`commits, this`timeline, this`audit, this`outbox
      ensures Valid()
      ensures State() == Raised(old(State()), id)
      ensures r.Ok? <==> Onward(PaymentProtected, old(status)) && Rank(old(status)) < Rank(Disputed)
      ensures r.Ok? ==> r.value == id && status.Disputed? && disputes == old(disputes)[id := Open]
      ensures r.Err? ==> State() == old(State())
    {
      hide Inv, InStep, Transition, Commit, Accepts;
      ghost var before := State();
      RaiseAccepted(before);
      CalledKeeps(before, RaiseCall(id));
      var applied := Apply(RaiseDispute, None, false);
      if applied.Err? {
        return Err(applied.error);
      }
      assert State() == Applied(before, RaiseDispute, None, false);
      disputes := disputes[id := Open];
      return Ok(id);
    }

    /** On success with `forSeller`, the caller owes a release job. */
    method Resolve(id: DisputeId, forSeller: bool) returns (r: Result<bool, ServiceError>)
      requires Valid()
      modifies this`disputes, this`status, this`commits, this`timeline, this`audit, this`outbox
      ensures Valid()
      ensures State() == Resolved(old(State()), id, forSeller)
      ensures r == Err(NotFound) <==> id !in old(disputes)
      ensures r.Ok? <==> id in old(disputes) && (old(disputes)[id].Open? || old(disputes)[id].UnderReview?)
      ensures r == Err(AlreadyResolved) <==>
        id in old(disputes) && !old(disputes)[id].Open? && !old(disputes)[id].UnderReview?
      ensures r.Ok? ==>
        && r.value == forSeller && status == (if forSeller then ReleaseProcessing else Refunded)
        && disputes == old(disputes)[id := if forSeller then ResolvedRelease else ResolvedRefund]
      ensures r.Err? ==> State() == old(State())
    {
      hide Inv, InStep, Transition, Commit, Accepts;
      ghost var before := State();
      if id in disputes && Freezing(disputes[id]) {
        RulingAccepted(before, id, forSeller);
      }
      CalledKeeps(before, ResolveCall(id, forSeller));
      if id !in disputes {
        return Err(NotFound);
      }
      if !Freezing(disputes[id]) {
        return Err(AlreadyResolved);
      }
      var others := CountFreezing(Some(id));
      assert others > 0 <==> OtherFreezing(before, id);
      var applied := Apply(Ruling(forSeller), Some(others > 0), false);
      if applied.Err? {
        assert false;   // between calls an open dispute can be ruled on
      }
      assert State() == Applied(before, Ruling(forSeller), Some(OtherFreezing(before, id)), false);
      disputes := disputes[id := if forSeller then ResolvedRelease else ResolvedRefund];
      return Ok(forSeller);
    }

    // --- payouts.service ---------------------------------------------------------------------

    method CountOpen() returns (n: nat)
      ensures n > 0 <==> AnyOpen(State())
      ensures n > 0 <==> exists d :: d in disputes && disputes[d].Open?
    {
      var open := set d | d in disputes && disputes[d].Open?;
      if AnyOpen(State()) {
        var d :| d in disputes && disputes[d].Open?;
        assert d in open;
      }
      n := |open|;
    }

    /**
     The release job. `created`, `answered` and `looked` say what the provider and the network do;
     `destination` says whether the seller has onboarded a payout destination.
     */
    method ExecuteRelease(destination: bool, created: bool, answered: bool, looked: bool)
      returns (r: Result<Payout, ServiceError>)
      requires Valid()
      modifies this`payout, provider`transfers
      ensures Valid()
      ensures r == Err(NotReleasing) <==> !old(status.ReleaseProcessing?)
      ensures r == Err(ReleaseFrozen) <==>
        old(status.ReleaseProcessing?) && exists d :: d in disputes && disputes[d].Open?
      ensures State() == if destination then Released(old(State()), created, answered, looked)
                         else Authorized(old(State()))
      ensures r.Ok? ==> payout == Some(r.value)
    {
      hide Inv, InStep, Called, Callable, Released, Transferred, Authorized, AnyOpen, SellerSettlement;
      ghost var before := State();
      ReleaseKeeps(before, destination, created, answered, looked);
      ReleaseSplits(before, created, answered, looked);
      if !status.ReleaseProcessing? {
        return Err(NotReleasing);
      }
      var open := CountOpen();
      if open > 0 {
        return Err(ReleaseFrozen);
      }
      AuthorizePayout();
      assert State() == Authorized(before);
      r := SendTransfer(None, destination, created, answered, looked);
    }

    /** Create the single payout row, or reuse the one already there. */
    method AuthorizePayout()
      modifies this`payout
      ensures payout == Some(old(payout).GetOr(Payout(SellerSettlement(terms), Queued, None, None, 0)))
    {
      if payout.None? {
        payout := Some(Payout(SellerSettlement(terms), Queued, None, None, 0));
      }
    }

    /**
     Send the authorized payout, unless it is settled or sent. After an error the reference is
     looked up, and a transfer found there is adopted instead of being sent again.
     */
    method SendTransfer(retry: Option<Attempt>, destination: bool, created: bool, answered: bool, looked: bool)
      returns (r: Result<Payout, ServiceError>)
      requires payout.Some?
      modifies this`payout, provider`transfers
      ensures r == Err(NoDestination) <==> !SendGuard(old(payout.value)) && !destination
      ensures SendGuard(old(payout.value)) || !destination ==> State() == old(State())
      ensures !SendGuard(old(payout.value)) && destination ==>
        State() == Transferred(old(State()), old(payout.value), retry.GetOr(Base), created, answered, looked)
      ensures r.Err? ==> r.error.NoDestination? || r.error.ProviderError?
      ensures r.Ok? ==> payout == Some(r.value)
    {
      var row := payout.value;
      if SendGuard(row) {
        return Ok(row);
      }
      var reference := retry.GetOr(Base);
      if !destination {
        return Err(NoDestination);
      }
      var sent := provider.InitiateTransfer(row.amount, reference, created, answered);
      if sent.Some? {
        r := RecordTransferSent(sent.value, reference);
        return;
      }
      var existing := provider.VerifyTransfer(reference, looked);
      if existing.Some? {
        r := RecordTransferSent(reference, reference);
        return;
      }
      payout := Some(payout.value.(attempts := payout.value.attempts + 1));
      return Err(ProviderError);
    }

    method RecordTransferSent(code: Attempt, reference: Attempt) returns (r: Result<Payout, ServiceError>)
      requires payout.Some?
      modifies this`payout
      ensures payout == Some(old(payout.value).(code := Some(code), reference := Some(reference), status := Processing,
                                                attempts := old(payout.value.attempts) + 1))
      ensures r == Ok(payout.value)
    {
      var row := payout.value;
      payout := Some(row.(code := Some(code), reference := Some(reference),
        status := Processing, attempts := row.attempts + 1));
      return Ok(payout.value);
    }

    /** A confirmed transfer settles the row once and completes the transaction. */
    method MarkPaid(code: Attempt) returns (r: Result<Payout, ServiceError>)
      modifies this`payout, this`status, this`commits, this`timeline, this`audit, this`outbox
      ensures State() == MarkedPaid(old(State()), code)
      ensures r == Err(NotFound) <==> old(payout).None?
      ensures r.Ok? ==> Settled(State()) && payout == Some(r.value)
      ensures r.Err? ==> r.error.NotFound? || r.error.TransitionRejected?
    {
      hide Applied, Accepts;
      if payout.None? {
        return Err(NotFound);
      }
      if payout.value.status.Success? {
        return Ok(payout.value);
      }
      payout := Some(payout.value.(status := Success, code := Some(code)));
      var applied := Apply(PayoutSucceeded, None, false);
      if applied.Err? {
        return Err(applied.error);
      }
      return Ok(payout.value);
    }

    /** A failed or reversed transfer: recorded, never over a settled row. The status stays. */
    method MarkFailed(outcome: TransferState) returns (r: Result<Payout, ServiceError>)
      modifies this`payout
      ensures State() == MarkedFailed(old(State()), outcome)
      ensures r == Err(NotFound) <==> old(payout).None?
      ensures r.Ok? ==> payout == Some(r.value)
    {
      if payout.None? {
        return Err(NotFound);
      }
      if payout.value.status.Success? {
        return Ok(payout.value);
      }
      payout := Some(payout.value.(status := if outcome.Reversed? then Reversal else Failure));
      return Ok(payout.value);
    }

    /**
     An operator re-sends a failed or reversed payout. The previous reference is looked up first;
     if that transfer did succeed, the payout is settled from it instead.
     */
    method RetryTransfer(asked: bool, destination: bool, created: bool, answered: bool, looked: bool)
      returns (r: Result<Payout, ServiceError>)
      requires Valid()
      modifies this`payout, this`status, this`commits, this`timeline, this`audit, this`outbox, provider`transfers
      ensures Valid()
      ensures State() == if destination then Retried(old(State()), asked, created, answered, looked)
                         else Prepared(old(State()), asked)
      ensures r == Err(NotFound) <==> old(payout).None?
      ensures r == Err(AlreadySettled) <==> old(payout.Some? && payout.value.status.Success?)
      ensures r == Err(NotRetryable) <==>
        old(payout.Some? && (payout.value.status.Queued? || payout.value.status.Processing?))
      ensures r == Err(ReleaseFrozen) <==>
        && old(payout.Some? && (payout.value.status.Failure? || payout.value.status.Reversal?))
        && exists d :: d in disputes && disputes[d].Open?
    {
      hide Inv, InStep, Called, Callable, MarkedPaid, Retried, Prepared, Transferred, AnyOpen;
      ghost var before := State();
      RetryKeeps(before, destination, asked, created, answered, looked);
      RetrySplits(before, asked, created, answered, looked);
      if payout.None? {
        return Err(NotFound);
      }
      var row := payout.value;
      if row.status.Success? {
        return Err(AlreadySettled);
      }
      if !row.status.Failure? && !row.status.Reversal? {
        return Err(NotRetryable);
      }
      var open := CountOpen();
      if open > 0 {
        return Err(ReleaseFrozen);
      }
      var prior := row.reference.GetOr(Base);
      var found := provider.VerifyTransfer(prior, asked);
      if found.Some? && found.value.state.Succeeded? {
        r := MarkPaid(prior);
        return;
      }
      var next := Retry(row.attempts + 1);
      payout := Some(row.(status := Queued, code := None));
      r := SendTransfer(Some(next), destination, created, answered, looked);
    }

    // --- webhooks.service ------------------------------------------------------------------------

    /**
     The one outcome event of a transfer. Its reference is looked up as a payout key, so only the
     first transfer's event finds the row; a retry's event is recorded and ends in an error.
     */
    method HandleTransferEvent(a: Attempt) returns (r: Result<bool, ServiceError>)
      requires Valid() && a in provider.transfers && !provider.transfers[a].state.Pending?
      modifies this`seen, this`payout, this`status, this`commits, this`timeline, this`audit, this`outbox
      ensures Valid()
      ensures State() == OutcomeHandled(old(State()), a)
      ensures r == Ok(false) <==> a in old(seen)
      ensures a !in old(seen) && a.Retry? ==> r == Err(NotFound)
    {
      hide Inv, InStep, MarkedPaid, MarkedFailed, Called, Callable;
      ghost var before := State();
      OutcomeKeeps(before, a);
      if a in seen {
        return Ok(false);
      }
      seen := seen + {a};
      if a != Base {
        return Err(NotFound);
      }
      var routed;
      if provider.transfers[a].state.Succeeded? {
        routed := MarkPaid(Base);
      } else {
        routed := MarkFailed(provider.transfers[a].state);
      }
      return if routed.Ok? then Ok(true) else Err(routed.error);
    }
  }

  /** Reconciling is verifying under the bound charge if any, for a payment that is still open. */
  ghost function Reconciled(e: Escrow, id: PaymentId): Escrow {
    if id in e.payments && e.payments[id].status.AwaitingCharge? then Called(e, VerifyCall(id, true)) else e
  }

  /** Some payment row is tied to the charge, or can still be bound to it. */
  ghost predicate Matches(e: Escrow, charge: ChargeRef, customer: Option<Customer>) {
    || (exists p :: HostedBy(e, p, charge))
    || (customer.Some? && exists p :: BoundTo(e, p, charge))
    || (customer.Some? && exists p :: OwnedBy(e, p, customer) && e.payments[p].boundCharge.None?)
  }

  /** A bound row wins, the customer's unbound row is bound, and a row bound to another charge is not rebound. */
  ghost predicate Resolves(e: Escrow, e': Escrow, customer: Customer, charge: ChargeRef, found: Option<PaymentId>) {
    if p: PaymentId :| BoundTo(e, p, charge) then found == Some(p) && e' == e
    else if p: PaymentId :| OwnedBy(e, p, Some(customer)) then
      if e.payments[p].boundCharge.None? then found == Some(p) && e' == BoundPayment(e, p, charge)
      else found == None && e' == e
    else found == None && e' == e
  }

  lemma HostedHandled(e: Escrow, charge: ChargeRef, customer: Option<Customer>, id: PaymentId)
    requires HostedBy(e, id, charge) && forall i, j :: i in e.payments && j in e.payments ==> i == j
    ensures ChargeHandled(e, charge, customer) == Verified(e, id, charge, Webhook) && Matches(e, charge, customer)
  {
    hide Verified, BoundPayment;
  }

  lemma UnmatchedHandled(e: Escrow, charge: ChargeRef, customer: Option<Customer>)
    requires customer.None? && !exists p :: HostedBy(e, p, charge)
    ensures ChargeHandled(e, charge, customer) == e && !Matches(e, charge, customer)
  {
    hide Verified, BoundPayment;
  }

  lemma RoutedHandled(e: Escrow, e': Escrow, charge: ChargeRef, customer: Customer, found: Option<PaymentId>)
    requires forall i, j :: i in e.payments && j in e.payments ==> i == j
    requires !(exists p :: HostedBy(e, p, charge)) && Resolves(e, e', customer, charge, found)
    ensures found.None? ==> ChargeHandled(e, charge, Some(customer)) == e == e' && !Matches(e, charge, Some(customer))
    ensures found.Some? ==>
      && found.value in e'.payments && Matches(e, charge, Some(customer))
      && ChargeHandled(e, charge, Some(customer)) == Verified(e', found.value, charge, Webhook)
  {
    hide Verified;
  }

  predicate SendGuard(row: Payout) { row.status.Success? || row.code.Some? }

  /** A release is: authorize, then send unless the row is settled or sent. */
  lemma ReleaseSplits(e: Escrow, created: bool, answered: bool, looked: bool)
    ensures !e.status.ReleaseProcessing? || AnyOpen(e) ==>
      Released(e, created, answered, looked) == e && Authorized(e) == e
    ensures e.status.ReleaseProcessing? && !AnyOpen(e) ==>
      var row := e.payout.GetOr(Payout(SellerSettlement(e.terms), Queued, None, None, 0));
      && Authorized(e) == e.(payout := Some(row))
      && Released(e, created, answered, looked) ==
           if SendGuard(row) then Authorized(e) else Transferred(Authorized(e), row, Base, created, answered, looked)
  {
    hide Transferred, SellerSettlement, AnyOpen;
    if e.status.ReleaseProcessing? && !AnyOpen(e) {
      var row := e.payout.GetOr(Payout(SellerSettlement(e.terms), Queued, None, None, 0));
      TransferForgets(e, e.(payout := Some(row)), row, Base, created, answered, looked);
    }
  }

  /** A retry is: settle from the previous transfer, or reset the row and send. */
  lemma RetrySplits(e: Escrow, asked: bool, created: bool, answered: bool, looked: bool)
    ensures !RowFailed(e.payout) || AnyOpen(e) ==>
      Retried(e, asked, created, answered, looked) == e && Prepared(e, asked) == e
    ensures RowFailed(e.payout) && !AnyOpen(e) ==>
      var row := e.payout.value;
      var prior := row.reference.GetOr(Base);
      var reset := row.(status := Queued, code := None);
      if asked && prior in e.transfers && e.transfers[prior].state.Succeeded? then
        Retried(e, asked, created, answered, looked) == MarkedPaid(e, prior)
          && Prepared(e, asked) == MarkedPaid(e, prior)
      else
        && Prepared(e, asked) == e.(payout := Some(reset))
        && Retried(e, asked, created, answered, looked)
             == Transferred(e.(payout := Some(reset)), reset, Retry(row.attempts + 1), created, answered, looked)
  {
    hide MarkedPaid, AnyOpen, Transferred;
    if RowFailed(e.payout) && !AnyOpen(e) {
      var row := e.payout.value;
      var reset := row.(status := Queued, code := None);
      TransferForgets(e, e.(payout := Some(reset)), reset, Retry(row.attempts + 1), created, answered, looked);
    }
  }

  /**
   What freezes a confirmation: any dispute that is open or under review. Otherwise it is accepted, by the
   buyer or after the window, while it is waited for.
   */
  lemma ConfirmedIff(e: Escrow)
    ensures Accepts(e, BuyerConfirm, None, false) <==> e.status.ConfirmationPending? && forall d :: d in e.disputes ==>
      e.disputes[d] in {ResolvedRelease, ResolvedRefund, ResolvedPartial, DisputeCancelled}
    ensures Accepts(e, AutoConfirm, None, true) <==>
      Accepts(e, BuyerConfirm, None, false) && e.terms.releaseRule.AutoAfterWindow?
  {
    hide Transition;
    RulingAcceptedIff(e.status, ContextOf(e, None, false), ReleaseProcessing);
    RulingAcceptedIff(e.status, ContextOf(e, None, true), ReleaseProcessing);
    LedToRelease(e.status, ContextOf(e, None, false));
    LedToRelease(e.status, ContextOf(e, None, true));
  }

  lemma LedToRelease(s: Status, context: Context)
    ensures Transition(s, BuyerConfirm, context).Accept? ==> Leads(s, BuyerConfirm, context, ReleaseProcessing)
    ensures Transition(s, AutoConfirm, context).Accept? ==> Leads(s, AutoConfirm, context, ReleaseProcessing)
  {
  }

  /** While the payment row is open, the transaction is waiting for exactly this payment. */
  lemma AwaitingIsAccepted(e: Escrow, id: PaymentId, source: PaymentSource)
    requires Inv(e) && InStep(e) && id in e.payments && !e.payments[id].status.Paid? && !source.Client?
    ensures Accepts(e, PaymentVerified(source), None, false)
  {
    InvBasics(e);
    hide Inv;
    assert !AnyPaid(e) by { assert forall i :: i in e.payments ==> i == id; }
  }

  lemma AcceptsIgnoresPayments(e: Escrow, e': Escrow, event: Event)
    requires e' == e.(payments := e'.payments)
    ensures Accepts(e', event, None, false) == Accepts(e, event, None, false)
  {
    SameFreezing(e, e');
  }

  lemma ChargeKeeps(e: Escrow, charge: ChargeRef, customer: Option<Customer>)
    requires Inv(e) && InStep(e)
    ensures var e' := ChargeHandled(e, charge, customer); Inv(e') && InStep(e')
  {
    hide Inv, InStep, ChargeHandled;
    CalledKeeps(e, ChargeCall(charge, customer));
  }

  lemma OutcomeKeeps(e: Escrow, a: Attempt)
    requires Inv(e) && InStep(e) && a in e.transfers && !e.transfers[a].state.Pending?
    ensures var e' := OutcomeHandled(e, a); Inv(e') && InStep(e')
  {
    hide Inv, InStep, OutcomeHandled;
    CalledKeeps(e, OutcomeCall(a));
  }

  lemma ReleaseKeeps(e: Escrow, destination: bool, created: bool, answered: bool, looked: bool)
    requires Inv(e) && InStep(e)
    ensures var e' := if destination then Released(e, created, answered, looked) else Authorized(e);
      Inv(e') && InStep(e')
  {
    hide Inv, InStep, Released, Authorized;
    CalledKeeps(e, if destination then ReleaseCall(created, answered, looked) else ReleaseStops);
  }

  lemma RetryKeeps(e: Escrow, destination: bool, asked: bool, created: bool, answered: bool, looked: bool)
    requires Inv(e) && InStep(e)
    ensures var e' := if destination then Retried(e, asked, created, answered, looked) else Prepared(e, asked);
      Inv(e') && InStep(e')
  {
    hide Inv, InStep, Retried, Prepared;
    CalledKeeps(e, if destination then RetryCall(asked, created, answered, looked) else RetryStops(asked));
  }

  /** A finished call keeps the invariant and the rows in step. */
  lemma CommitAppends(e: Escrow, edge: Edge)
    ensures Commit(e, edge).logs.outbox == e.logs.outbox + OutboxRows(e.terms, edge)
  {
  }

  /** What the write half appended to the outbox announces what the edge did. */
  lemma RecordedTells(t: Terms, before: seq<OutboxRow>, now: seq<OutboxRow>, edge: Edge)
    requires now == before + OutboxRows(t, edge) && Transition(edge.from, edge.event, edge.context) == Accept(edge.to)
    ensures Shipped(edge.event) ==>
      && before <= now && |now| <= |before| + 1
      && forall kind :: Told(now[|before|..], kind) <==> t.merchant.Some? && Announces(kind, edge.from, edge.to)
  {
    hide Transition, Announces, Told, OutboxRows, Shipped;
    assert now[|before|..] == OutboxRows(t, edge);
    if Shipped(edge.event) {
      RowAnnounces(t, edge);
    }
  }

  /** Where a dispute may be raised, and where that leads. */
  lemma RaiseAccepted(e: Escrow)
    ensures Accepts(e, RaiseDispute, None, false) <==>
      Onward(PaymentProtected, e.status) && Rank(e.status) < Rank(Disputed)
    ensures Accepts(e, RaiseDispute, None, false) ==>
      && Applied(e, RaiseDispute, None, false).status.Disputed?
      && Applied(e, RaiseDispute, None, false).disputes == e.disputes
  {
    hide Transition, Onward, Appended;
    RulingAcceptedIff(e.status, ContextOf(e, None, false), Disputed);
    if Accepts(e, RaiseDispute, None, false) {
      var to := Transition(e.status, RaiseDispute, ContextOf(e, None, false)).next;
      RulingAcceptedIff(e.status, ContextOf(e, None, false), to);
    }
  }

  /** Between calls an open dispute can be ruled on, either way. */
  lemma RulingAccepted(e: Escrow, d: DisputeId, forSeller: bool)
    requires Inv(e) && InStep(e) && d in e.disputes && Freezing(e.disputes[d])
    ensures !OtherFreezing(e, d)
    ensures Accepts(e, Ruling(forSeller), Some(false), false)
    ensures Applied(e, Ruling(forSeller), Some(false), false).status ==
      if forSeller then ReleaseProcessing else Refunded
    ensures Applied(e, Ruling(forSeller), Some(false), false).disputes == e.disputes
  {
    hide Inv, Transition, Appended;
    NoOtherDispute(e, d);
    var to := if forSeller then ReleaseProcessing else Refunded;
    RulingAcceptedIff(e.status, ContextOf(e, Some(false), false), to);
  }

  /** Checkout is accepted while the link is active. */
  lemma CheckoutAccepted(e: Escrow, id: PaymentId, reference: ChargeRef, customer: Option<Customer>)
    ensures Accepts(e, BuyerInitiateCheckout, None, false) <==> e.status.LinkActive?
    ensures e.status.LinkActive? ==>
      && Applied(e, BuyerInitiateCheckout, None, false).status.PaymentPending?
      && CheckedOut(e, id, reference, customer).status.PaymentPending?
      && CheckedOut(e, id, reference, customer).payments ==
           e.payments[id := Payment(reference, None, customer, ChargeAmount(e.terms), AwaitingCharge)]
  {
    hide Transition, Appended, ChargeAmount;
    var context := ContextOf(e, None, false);
    TradeAcceptedIff(e.status, context, PaymentPending);
    if Accepts(e, BuyerInitiateCheckout, None, false) {
      TradeAcceptedIff(e.status, context, Transition(e.status, BuyerInitiateCheckout, context).next);
    }
  }

  /** An accepted checkout links the buyer unless one is linked. */
  ghost predicate Links(before: Escrow, was: Option<string>, now: Option<string>, buyerId: string) {
    now == if Accepts(before, BuyerInitiateCheckout, None, false) && was.None? then Some(buyerId) else was
  }

  /** An accepted checkout inserts the row; a refused one changes nothing. */
  lemma CheckedOutIs(
    e: Escrow, e': Escrow, id: PaymentId, reference: ChargeRef, customer: Option<Customer>)
    requires
      var applied := Applied(e, BuyerInitiateCheckout, None, false);
      var row := Payment(reference, None, customer, ChargeAmount(e.terms), AwaitingCharge);
      if Accepts(e, BuyerInitiateCheckout, None, false)
      then e' == applied.(payments := applied.payments[id := row])
      else e' == e
    ensures e' == CheckedOut(e, id, reference, customer)
  {
    hide Applied, Accepts;
    AppliedRows(e, BuyerInitiateCheckout);
  }

  lemma CalledKeeps(e: Escrow, c: Call)
    requires Inv(e) && InStep(e) && Callable(e, c)
    ensures Inv(Called(e, c)) && InStep(Called(e, c))
  {
    hide Inv, Callable, Called, Reachable, InStep, Later, RowBasics;
    StepsAreDone(e);
    InvBasics(e);
    CallPlays(e, c);
    PlaysKeep(e, Called(e, c));
    CallInStep(e, c);
  }
}
