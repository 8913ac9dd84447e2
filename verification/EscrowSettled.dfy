/**
 Runs in which every service method finishes before the next one starts. Such runs are runs of
 the protocol, and beyond its safety they keep rows and status in step.
 */
module EscrowSettled {
  import opened Wrappers
  import opened Machine
  import opened EscrowProtocol
  import opened EscrowInvariant
  import opened EscrowProof
  import opened EscrowRuns
  import opened Retries
  import opened EscrowCalls

  datatype Call =
    | Request(event: Event)
    | CheckoutCall(id: PaymentId, reference: ChargeRef, customer: Option<Customer>)
    | CheckoutStops                     // no virtual account: the call ends before the payment row
    | RaiseCall(dispute: DisputeId)
    | ResolveCall(dispute: DisputeId, forSeller: bool)
    | ReleaseCall(created: bool, answered: bool, looked: bool)
    | ReleaseStops                      // no payout destination: the job ends before the provider call
    | RetryCall(asked: bool, created: bool, answered: bool, looked: bool)
    | RetryStops(asked: bool)
    | ChargeCall(charge: ChargeRef, customer: Option<Customer>)
    | VerifyCall(id: PaymentId, bound: bool)
    | OutcomeCall(attempt: Attempt)
    | ChargeMoves(charge: ChargeRef, now: Charge)
    | TransferSettles(attempt: Attempt, outcome: TransferState)

  predicate Callable(e: Escrow, c: Call) {
    match c
    case Request(event) => Standalone(event)
    case CheckoutCall(id, _, _) => id !in e.payments
    case RaiseCall(d) => d !in e.disputes
    case VerifyCall(id, _) => id in e.payments
    case OutcomeCall(a) => a in e.transfers && !e.transfers[a].state.Pending?
    case ChargeMoves(charge, _) => charge in e.charges ==> !e.charges[charge].state.Charged?
    case TransferSettles(a, outcome) => a in e.transfers && e.transfers[a].state.Pending? && !outcome.Pending?
    case _ => true
  }

  ghost function Called(e: Escrow, c: Call): Escrow
    requires Callable(e, c)
  {
    match c
    case Request(event) => Applied(e, event, None, event.AutoConfirm?)
    case CheckoutCall(id, reference, customer) => CheckedOut(e, id, reference, customer)
    case CheckoutStops => Applied(e, BuyerInitiateCheckout, None, false)
    case RaiseCall(d) => Raised(e, d)
    case ResolveCall(d, forSeller) => Resolved(e, d, forSeller)
    case ReleaseCall(created, answered, looked) => Released(e, created, answered, looked)
    case ReleaseStops => Authorized(e)
    case RetryCall(asked, created, answered, looked) => Retried(e, asked, created, answered, looked)
    case RetryStops(asked) => Prepared(e, asked)
    case ChargeCall(charge, customer) => ChargeHandled(e, charge, customer)
    case VerifyCall(id, bound) =>
      var row := e.payments[id];
      Verified(e, id, if bound then row.boundCharge.GetOr(row.reference) else row.reference, ServerVerify)
    case OutcomeCall(a) => OutcomeHandled(e, a)
    case ChargeMoves(charge, now) => e.(charges := e.charges[charge := now])
    case TransferSettles(a, outcome) => e.(transfers := e.transfers[a := e.transfers[a].(state := outcome)])
  }

  lemma CallPlays(e: Escrow, c: Call)
    requires Callable(e, c) && e.procs == map[] && Inv(e)
    ensures Reachable(e, Called(e, c), true)
  {
    hide Reachable, Inv, Applied, CheckedOut, Raised, Resolved, Released, Authorized, Retried, Prepared, ChargeHandled,
         Verified, OutcomeHandled;
    match c
    case Request(event) => RequestPlays(e, event);
    case CheckoutCall(id, reference, customer) => CheckoutPlays(e, id, reference, customer);
    case CheckoutStops => CheckoutStopsPlays(e);
    case RaiseCall(d) => RaisePlays(e, d);
    case ResolveCall(d, forSeller) => ResolvePlays(e, d, forSeller);
    case ReleaseCall(created, answered, looked) => ReleasePlays(e, created, answered, looked);
    case ReleaseStops => AuthorizedPlays(e);
    case RetryCall(asked, created, answered, looked) => RetryPlays(e, asked, created, answered, looked);
    case RetryStops(asked) => PreparedPlays(e, asked);
    case ChargeCall(charge, customer) => OnePaymentRow(e); ChargePlays(e, charge, customer);
    case VerifyCall(id, bound) => VerifyCallPlays(e, id, bound);
    case OutcomeCall(a) => OutcomePlays(e, a);
    case ChargeMoves(charge, now) =>
      Start(e);
      GoTo(e, e, MoveCharge(charge, now), Called(e, c), true);
    case TransferSettles(a, outcome) =>
      Start(e);
      GoTo(e, e, SettleTransfer(a, outcome), Called(e, c), true);
  }

  // --- Rows and status between calls ----------------------------------------------------------

  predicate AnyPaid(e: Escrow) {
    exists id :: id in e.payments && e.payments[id].status.Paid?
  }

  predicate Settled(e: Escrow) { e.payout.Some? && e.payout.value.status.Success? }

  /** Between calls the rows say exactly what the status says. */
  ghost predicate InStep(e: Escrow) {
    && e.procs == map[]
    && (AnyPaid(e) <==> Onward(PaymentProtected, e.status))
    && (AnyFreezing(e) <==> e.status.Disputed?)
    && (Settled(e) <==> e.status.Completed?)
    && (Settled(e) ==> e.payout.value.code == Some(Base))
    && (Settled(e) <==> Disbursed(e.transfers) && Base in e.seen)
  }

  /** The parts of the protocol invariant that the rows are compared with. */
  ghost predicate RowBasics(e: Escrow) {
    && (forall i, j :: i in e.payments && j in e.payments ==> i == j)
    && (e.payments != map[] ==> Onward(PaymentPending, e.status))
    && (forall i, j :: i in e.disputes && j in e.disputes ==> i == j)
    && (e.disputes != map[] ==> Onward(Disputed, e.status))
    && (e.payout.Some? ==> Releasing(e.status))
    && (e.transfers != map[] ==> e.payout.Some?)
    && (forall a :: a in e.seen ==> a in e.transfers && !e.transfers[a].state.Pending?)
    && (RowFailed(e.payout) ==> forall a :: !TransferSucceeded(e.transfers, a))
  }

  lemma InvBasics(e: Escrow)
    requires Inv(e)
    ensures RowBasics(e)
  {
    hide LogsAgree, ProcessesSound;
  }

  /** A request moves the status without touching a row, and only between statuses that agree on the rows. */
  lemma RequestInStep(e: Escrow, event: Event)
    requires InStep(e) && RowBasics(e) && Standalone(event)
    ensures InStep(Applied(e, event, None, event.AutoConfirm?))
  {
    hide Appended;
    SameFreezing(e, Applied(e, event, None, event.AutoConfirm?));
  }

  lemma CheckoutInStep(e: Escrow, id: PaymentId, reference: ChargeRef, customer: Option<Customer>)
    requires InStep(e) && RowBasics(e) && id !in e.payments
    ensures InStep(CheckedOut(e, id, reference, customer))
  {
    hide Appended;
    var e' := CheckedOut(e, id, reference, customer);
    SameFreezing(e, e');
    if Accepts(e, BuyerInitiateCheckout, None, false) {
      assert e.payments == map[];
    }
  }

  lemma CheckoutStopsInStep(e: Escrow)
    requires InStep(e) && RowBasics(e)
    ensures InStep(Applied(e, BuyerInitiateCheckout, None, false))
  {
    hide Appended;
    SameFreezing(e, Applied(e, BuyerInitiateCheckout, None, false));
  }

  lemma RaiseInStep(e: Escrow, d: DisputeId)
    requires InStep(e) && RowBasics(e) && d !in e.disputes
    ensures InStep(Raised(e, d))
  {
    hide Appended;
    var e' := Raised(e, d);
    if Accepts(e, RaiseDispute, None, false) {
      assert Freezing(e'.disputes[d]);
    }
  }

  lemma ResolveInStep(e: Escrow, d: DisputeId, forSeller: bool)
    requires InStep(e) && RowBasics(e)
    ensures InStep(Resolved(e, d, forSeller))
  {
    hide Appended;
    var e' := Resolved(e, d, forSeller);
    if d in e.disputes && Freezing(e.disputes[d]) {
      assert !OtherFreezing(e, d);
      assert !AnyFreezing(e') by { assert forall o :: o in e.disputes ==> o == d; }
    }
  }

  /** Sending a transfer touches the payout row and the provider, and leaves the row unsettled. */
  lemma TransferInStep(e: Escrow, row: Payout, a: Attempt, created: bool, answered: bool, looked: bool)
    requires InStep(e) && !Settled(e) && !row.status.Success?
    ensures InStep(Transferred(e, row, a, created, answered, looked))
  {
    hide Onward, Freezing;
    var e' := Transferred(e, row, a, created, answered, looked);
    SameFreezing(e, e');
    assert !Settled(e') && e' == e.(payout := e'.payout, transfers := e'.transfers);
    hide Transferred;
    assert AnyPaid(e') == AnyPaid(e);
  }

  lemma ReleaseInStep(e: Escrow, created: bool, answered: bool, looked: bool)
    requires InStep(e) && RowBasics(e)
    ensures InStep(Released(e, created, answered, looked))
  {
    hide Transferred, RowBasics, SellerSettlement, AnyOpen, Onward;
    if e.status.ReleaseProcessing? && !AnyOpen(e) {
      assert !Settled(e);
      var row := e.payout.GetOr(Payout(SellerSettlement(e.terms), Queued, None, None, 0));
      if row.code.Some? {
        SameFreezing(e, e.(payout := Some(row)));
      } else {
        TransferInStep(e, row, Base, created, answered, looked);
      }
    }
  }

  lemma AuthorizedInStep(e: Escrow)
    requires InStep(e) && RowBasics(e)
    ensures InStep(Authorized(e))
  {
    hide Onward;
    SameFreezing(e, Authorized(e));
    hide AnyOpen, AnyFreezing, SellerSettlement;
    assert AnyPaid(Authorized(e)) == AnyPaid(e);
  }

  /** The success event of the first transfer settles the row and completes the transaction in one call. */
  lemma SettleInStep(e: Escrow)
    requires InStep(e) && RowBasics(e) && Disbursed(e.transfers) && Base !in e.seen
    ensures InStep(MarkedPaid(e.(seen := e.seen + {Base}), Base))
  {
    hide Appended;
    var recorded := e.(seen := e.seen + {Base});
    SameFreezing(e, MarkedPaid(recorded, Base));
    assert Unsettled(recorded) && e.status.ReleaseProcessing?;
  }

  lemma NothingToPayFrom(e: Escrow)
    requires RowBasics(e) && RowFailed(e.payout)
    ensures !TransferSucceeded(e.transfers, e.payout.value.reference.GetOr(Base))
  {
  }

  lemma RetryInStep(e: Escrow, asked: bool, created: bool, answered: bool, looked: bool)
    requires InStep(e) && RowBasics(e)
    ensures InStep(Retried(e, asked, created, answered, looked))
  {
    hide MarkedPaid, Transferred, InStep, RowBasics, AnyOpen;
    if RowFailed(e.payout) && !AnyOpen(e) {
      var row := e.payout.value;
      NothingToPayFrom(e);
      TransferInStep(e, row.(status := Queued, code := None), Retry(row.attempts + 1), created, answered, looked);
    }
  }

  lemma PreparedInStep(e: Escrow, asked: bool)
    requires InStep(e) && RowBasics(e)
    ensures InStep(Prepared(e, asked))
  {
    hide MarkedPaid, RowBasics, Onward;
    if RowFailed(e.payout) {
      NothingToPayFrom(e);
    }
    SameFreezing(e, Prepared(e, asked));
    assert AnyPaid(Prepared(e, asked)) == AnyPaid(e);
  }

  lemma VerifyInStep(e: Escrow, id: PaymentId, charge: ChargeRef, source: PaymentSource)
    requires InStep(e) && RowBasics(e) && id in e.payments && !source.Client?
    ensures InStep(Verified(e, id, charge, source))
  {
    hide Appended, AnyPaid, AnyFreezing, Transition, Onward, Disbursed;
    var row := e.payments[id];
    var e' := Verified(e, id, charge, source);
    SameFreezing(e, e');
    OnlyPaid(e, id);
    if !row.status.Paid? && charge in e.charges && e.charges[charge].state.Charged?
      && e.charges[charge].amount == row.amount {
      PaidInStep(e, e.(payments := e.payments[id := row.(status := Paid)]), id, source);
    } else {
      OnlyPaid(e', id);
    }
  }

  /** With one payment row, some row is paid when that one is. */
  lemma OnlyPaid(e: Escrow, id: PaymentId)
    requires id in e.payments && forall i :: i in e.payments ==> i == id
    ensures AnyPaid(e) <==> e.payments[id].status.Paid?
  {
  }

  lemma PaidInStep(e: Escrow, b: Escrow, id: PaymentId, source: PaymentSource)
    requires InStep(e) && RowBasics(e) && id in e.payments && !source.Client? && !AnyPaid(e)
    requires b == e.(payments := e.payments[id := e.payments[id].(status := Paid)])
    ensures InStep(Applied(b, PaymentVerified(source), None, false))
  {
    hide Appended;
    SameFreezing(e, b);
    SameFreezing(b, Applied(b, PaymentVerified(source), None, false));
    assert b.payments[id].status.Paid?;
  }

  lemma BindInStep(e: Escrow, id: PaymentId, charge: ChargeRef)
    requires InStep(e) && RowBasics(e) && id in e.payments
    ensures id in BoundPayment(e, id, charge).payments
    ensures InStep(BoundPayment(e, id, charge)) && RowBasics(BoundPayment(e, id, charge))
  {
    var b := BoundPayment(e, id, charge);
    SameFreezing(e, b);
    assert AnyPaid(b) == AnyPaid(e) by {
      assert forall i :: i in e.payments ==> b.payments[i].status == e.payments[i].status;
    }
  }

  lemma ChargeInStep(e: Escrow, charge: ChargeRef, customer: Option<Customer>)
    requires InStep(e) && RowBasics(e)
    ensures InStep(ChargeHandled(e, charge, customer))
  {
    assert forall i, j :: i in e.payments && j in e.payments ==> i == j;
    hide Verified, BoundPayment, InStep, RowBasics;
    if id :| HostedBy(e, id, charge) {
      VerifyInStep(e, id, charge, Webhook);
    } else if customer.Some? {
      if id :| BoundTo(e, id, charge) {
        VerifyInStep(e, id, charge, Webhook);
      } else if id :| OwnedBy(e, id, customer) {
        if e.payments[id].boundCharge.None? {
          BindInStep(e, id, charge);
          VerifyInStep(BoundPayment(e, id, charge), id, charge, Webhook);
        }
      }
    }
  }

  lemma OutcomeInStep(e: Escrow, a: Attempt)
    requires InStep(e) && RowBasics(e) && a in e.transfers && !e.transfers[a].state.Pending?
    ensures InStep(OutcomeHandled(e, a))
  {
    hide MarkedPaid;
    var recorded := e.(seen := e.seen + {a});
    SameFreezing(e, recorded);
    if a !in e.seen && a == Base && e.transfers[a].state.Succeeded? {
      SettleInStep(e);
    } else {
      SameFreezing(e, OutcomeHandled(e, a));
    }
  }

  lemma ProviderInStep(e: Escrow, c: Call)
    requires InStep(e) && RowBasics(e) && Callable(e, c) && (c.ChargeMoves? || c.TransferSettles?)
    ensures InStep(Called(e, c))
  {
    SameFreezing(e, Called(e, c));
  }

  lemma CallInStep(e: Escrow, c: Call)
    requires InStep(e) && RowBasics(e) && Callable(e, c)
    ensures InStep(Called(e, c))
  {
    hide InStep, RowBasics, Applied, CheckedOut, Raised, Resolved,
      Released, Authorized, Retried, Prepared, ChargeHandled,
         Verified, OutcomeHandled;
    match c
    case Request(event) => RequestInStep(e, event);
    case CheckoutCall(id, reference, customer) => CheckoutInStep(e, id, reference, customer);
    case CheckoutStops => CheckoutStopsInStep(e);
    case RaiseCall(d) => RaiseInStep(e, d);
    case ResolveCall(d, forSeller) => ResolveInStep(e, d, forSeller);
    case ReleaseCall(created, answered, looked) => ReleaseInStep(e, created, answered, looked);
    case ReleaseStops => AuthorizedInStep(e);
    case RetryCall(asked, created, answered, looked) => RetryInStep(e, asked, created, answered, looked);
    case RetryStops(asked) => PreparedInStep(e, asked);
    case ChargeCall(charge, customer) => ChargeInStep(e, charge, customer);
    case VerifyCall(id, bound) =>
      var row := e.payments[id];
      VerifyInStep(e, id, if bound then row.boundCharge.GetOr(row.reference) else row.reference, ServerVerify);
    case OutcomeCall(a) => OutcomeInStep(e, a);
    case ChargeMoves(_, _) => ProviderInStep(e, c);
    case TransferSettles(_, _) => ProviderInStep(e, c);
  }

  // --- Runs of calls ----------------------------------------------------------------------------

  ghost function AfterCalls(e0: Escrow, calls: seq<Call>): Option<Escrow> {
    if calls == [] then Some(e0)
    else
      var before := AfterCalls(e0, calls[..|calls| - 1]);
      var c := calls[|calls| - 1];
      if before.Some? && Callable(before.value, c) then Some(Called(before.value, c)) else None
  }

  /** A run of calls is a run of the protocol, and leaves rows and status in step. */
  lemma {:induction false} CallsKeep(t: Terms, calls: seq<Call>)
    requires AfterCalls(Drafted(t), calls).Some?
    ensures var e := AfterCalls(Drafted(t), calls).value; Inv(e) && InStep(e) && e.terms == t
  {
    hide Inv, Callable, Called, Reachable, InStep, Later;
    if calls == [] {
      DraftedSound(t);
      DraftedInStep(t);
    } else {
      var before := AfterCalls(Drafted(t), calls[..|calls| - 1]).value;
      var c := calls[|calls| - 1];
      CallsKeep(t, calls[..|calls| - 1]);
      InvBasics(before);
      assert before.procs == map[] by { StepsAreDone(before); }
      CallPlays(before, c);
      PlaysKeep(before, Called(before, c));
      LaterTerms(before, Called(before, c));
      CallInStep(before, c);
    }
  }

  lemma DraftedInStep(t: Terms)
    ensures InStep(Drafted(t))
  {
  }

  lemma StepsAreDone(e: Escrow)
    requires InStep(e)
    ensures e.procs == map[]
  {
  }

  /** An unsettled payout means the release is still being processed, and the converse for a settled one. */
  lemma UnsettledMeansReleasing(t: Terms, calls: seq<Call>)
    requires AfterCalls(Drafted(t), calls).Some? && AfterCalls(Drafted(t), calls).value.payout.Some?
    ensures var e := AfterCalls(Drafted(t), calls).value;
      && (Unsettled(e) <==> e.status.ReleaseProcessing?)
      && (Settled(e) <==> e.status.Completed?)
  {
    hide Inv, AnyPaid, AnyFreezing, AfterCalls;
    CallsKeep(t, calls);
    InvBasics(AfterCalls(Drafted(t), calls).value);
  }

  /**
   Exactly when a transaction is COMPLETED: its first transfer succeeded and that event has been
   received. The outcome of a retry plays no part.
   */
  lemma CompletedIffFirstTransferPaid(t: Terms, calls: seq<Call>)
    requires AfterCalls(Drafted(t), calls).Some?
    ensures var e := AfterCalls(Drafted(t), calls).value;
      e.status.Completed? <==> Disbursed(e.transfers) && Base in e.seen
  {
    hide Inv, AnyPaid, AnyFreezing, AfterCalls, Settled, Disbursed;
    CallsKeep(t, calls);
  }

  /** A call on a completed transaction changes neither its payout, its status nor its logs. */
  lemma CompletedIsFrozen(e: Escrow, c: Call)
    requires InStep(e) && RowBasics(e) && e.status.Completed? && Callable(e, c)
    ensures Called(e, c).status.Completed? && Called(e, c).payout == e.payout && Called(e, c).logs == e.logs
  {
    match c
    case VerifyCall(id, bound) => var i :| i in e.payments && e.payments[i].status.Paid?; assert i == id;
    case ChargeCall(charge, customer) => CompletedIgnoresCharges(e, charge, customer);
    case _ =>
  }

  lemma CompletedIgnoresCharges(e: Escrow, charge: ChargeRef, customer: Option<Customer>)
    requires InStep(e) && RowBasics(e) && e.status.Completed?
    ensures var e' := ChargeHandled(e, charge, customer);
      e'.status == e.status && e'.payout == e.payout && e'.logs == e.logs
  {
    var i :| i in e.payments && e.payments[i].status.Paid?;
    assert forall j :: j in e.payments ==> e.payments[j].status.Paid?;
  }

  /** COMPLETED is final: a successful payout of the settlement, which no later call of any kind changes. */
  lemma {:induction false} CompletedIsFinal(t: Terms, calls: seq<Call>, i: nat)
    requires i <= |calls| && AfterCalls(Drafted(t), calls).Some?
    ensures AfterCalls(Drafted(t), calls[..i]).Some?
    ensures var e := AfterCalls(Drafted(t), calls[..i]).value; var e' := AfterCalls(Drafted(t), calls).value;
      e.status.Completed? ==>
        && Settled(e) && e.payout.value.amount == SellerSettlement(t)
        && e'.status.Completed? && e'.payout == e.payout && e'.logs == e.logs
    decreases |calls|
  {
    hide Inv, Callable, Called, InStep, RowBasics;
    if i == |calls| {
      assert calls[..i] == calls;
      CallsKeep(t, calls);
      CompletedFacts(t, AfterCalls(Drafted(t), calls).value);
    } else {
      var shorter := calls[..|calls| - 1];
      assert shorter[..i] == calls[..i];
      CompletedIsFinal(t, shorter, i);
      CallsKeep(t, shorter);
      var before := AfterCalls(Drafted(t), shorter).value;
      InvBasics(before);
      if before.status.Completed? {
        CompletedIsFrozen(before, calls[|calls| - 1]);
      }
    }
  }

  lemma CompletedFacts(t: Terms, e: Escrow)
    requires Inv(e) && InStep(e) && e.terms == t
    ensures e.status.Completed? ==> Settled(e) && e.payout.value.amount == SellerSettlement(t)
  {
    hide LogsAgree, ProcessesSound, PaymentsSound, DisputesSound;
  }

  // --- Finer than calls: what can undo a settled row -----------------------------------------------

  /** Writes that would leave the payout row unsettled. */
  predicate Unsettles(x: Process) { x.RetryChecked? || x.SendConfirmed? || x.FailWrite? }

  lemma SendingLeavesSettled(e: Escrow, p: ProcessId, x: Process, input: Input)
    requires p in e.procs && e.procs[p] == x && Suits(e, x, input) && Settled(e) && !Unsettles(x)
    ensures Settled(Advance(e, p, input))
  {
    hide Decide, BindCharge, ReadPayment, RecordVerdict, AnyOpen, CheckPrior, OtherFreezing, SellerSettlement;
    if x.Applying? || x.ChargeBinding? || x.ChargeBound? || x.Verdict? || x.RetryCleared? {
      RowUntouched(e, p, x, input);
    }
  }

  lemma RowUntouched(e: Escrow, p: ProcessId, x: Process, input: Input)
    requires p in e.procs && e.procs[p] == x && Suits(e, x, input)
    requires x.Applying? || x.ChargeBinding? || x.ChargeBound? || x.Verdict? || x.RetryCleared?
    ensures Advance(e, p, input).payout == e.payout
  {
    hide Goto, Halt, Transition, AnyFreezing, AnyOpen, OtherFreezing, Commit, Proceed, Authorize, CallTransfer,
      RecordSent, RecordSendFailure, ResetPayout, WritePaid, WriteFailed;
    MovesKeepPayout(p);
  }

  lemma OtherStepsLeaveSettled(e: Escrow, s: Step)
    requires Enabled(e, s) && Settled(e) && !s.Resume?
    ensures Settled(Do(e, s))
  {
    hide Advance;
  }

  /** With the row settled neither a retry before its reset nor a failure event is under way. */
  lemma NothingPendingWhenSettled(e: Escrow, p: ProcessId)
    requires Inv(e) && Settled(e) && p in e.procs
    ensures !e.procs[p].RetryChecked? && !e.procs[p].FailWrite?
  {
    Mover(e, p);
    hide LogsAgree, PaymentsSound, DisputesSound, ProcessesSound, Knows, Fits;
  }

  /**
   Exactly which statement can undo a settled row, in any interleaving: the sender's own record of
   its transfer, still to be written when the success event has already been handled.
   */
  lemma SettledRowUndoneIff(e: Escrow, s: Step)
    requires Inv(e) && Settled(e) && Enabled(e, s)
    ensures !Settled(Do(e, s)) <==> s.Resume? && e.procs[s.p].SendConfirmed?
  {
    if s.Resume? {
      hide Inv, Suits;
      NothingPendingWhenSettled(e, s.p);
      if !e.procs[s.p].SendConfirmed? {
        SendingLeavesSettled(e, s.p, e.procs[s.p], s.input);
      } else {
        RecordUnsettles(e, s);
      }
    } else {
      hide Inv, Do;
      OtherStepsLeaveSettled(e, s);
    }
  }

  lemma RecordUnsettles(e: Escrow, s: Step)
    requires Enabled(e, s) && Settled(e) && s.Resume? && e.procs[s.p].SendConfirmed?
    ensures !Settled(Do(e, s))
  {
  }
}
