/**
 Service methods run one at a time. Each call's result is a function of the state before it,
 is one run of the protocol, and keeps the row-level facts that hold between calls.
 */
module EscrowCalls {
  import opened Wrappers
  import opened Machine
  import opened EscrowProtocol
  import opened EscrowInvariant
  import opened EscrowProof
  import opened EscrowRuns

  // --- What each call does ------------------------------------------------------------------

  function ContextOf(e: Escrow, override: Option<bool>, elapsed: bool): Context {
    Context(e.terms.releaseRule, override.GetOr(AnyFreezing(e)), elapsed)
  }

  predicate Accepts(e: Escrow, event: Event, override: Option<bool>, elapsed: bool) {
    Transition(e.status, event, ContextOf(e, override, elapsed)).Accept?
  }

  function Applied(e: Escrow, event: Event, override: Option<bool>, elapsed: bool): Escrow {
    match Transition(e.status, event, ContextOf(e, override, elapsed))
    case Reject(_) => e
    case Accept(to) => Commit(e, Edge(e.status, event, ContextOf(e, override, elapsed), to))
  }

  function CheckedOut(e: Escrow, id: PaymentId, reference: ChargeRef, customer: Option<Customer>): Escrow {
    if !Accepts(e, BuyerInitiateCheckout, None, false) then e
    else
      var row := Payment(reference, None, customer, ChargeAmount(e.terms), AwaitingCharge);
      Applied(e, BuyerInitiateCheckout, None, false).(payments := e.payments[id := row])
  }

  function Raised(e: Escrow, id: DisputeId): Escrow {
    if !Accepts(e, RaiseDispute, None, false) then e
    else Applied(e, RaiseDispute, None, false).(disputes := e.disputes[id := Open])
  }

  function Ruling(forSeller: bool): Event {
    if forSeller then ResolveDisputeForSeller else ResolveDisputeForBuyer
  }

  function Resolved(e: Escrow, d: DisputeId, forSeller: bool): Escrow {
    if d !in e.disputes || !Freezing(e.disputes[d]) then e
    else if !Accepts(e, Ruling(forSeller), Some(OtherFreezing(e, d)), false) then e
    else Applied(e, Ruling(forSeller), Some(OtherFreezing(e, d)), false)
         .(disputes := e.disputes[d := if forSeller then ResolvedRelease else ResolvedRefund])
  }

  function Verified(e: Escrow, id: PaymentId, charge: ChargeRef, source: PaymentSource): Escrow
    requires id in e.payments
  {
    var row := e.payments[id];
    if row.status.Paid? || charge !in e.charges then e
    else
      var answer := e.charges[charge];
      if !answer.state.Charged? then
        e.(payments := e.payments[id :=
          row.(status := if answer.state.ChargeDropped? then ChargeAbandoned else ChargeFailed)])
      else if answer.amount != row.amount then e
      else Applied(e.(payments := e.payments[id := row.(status := Paid)]), PaymentVerified(source), None, false)
  }

  function BoundPayment(e: Escrow, id: PaymentId, charge: ChargeRef): Escrow
    requires id in e.payments
  {
    e.(payments := e.payments[id := e.payments[id].(boundCharge := Some(charge))])
  }

  ghost function ChargeHandled(e: Escrow, charge: ChargeRef, customer: Option<Customer>): Escrow {
    if id :| HostedBy(e, id, charge) then Verified(e, id, charge, Webhook)
    else if customer.None? then e
    else if id :| BoundTo(e, id, charge) then Verified(e, id, charge, Webhook)
    else if id :| OwnedBy(e, id, customer) then
      if e.payments[id].boundCharge.None? then Verified(BoundPayment(e, id, charge), id, charge, Webhook) else e
    else e
  }

  function SentRow(row: Payout, a: Attempt): Payout {
    row.(code := Some(a), reference := Some(a), status := Processing, attempts := row.attempts + 1)
  }

  /** `sendTransfer` for a row that is neither settled nor sent. */
  function Transferred(e: Escrow, row: Payout, a: Attempt, created: bool, answered: bool, looked: bool): Escrow {
    var e1 := if a in e.transfers || !created then e
      else e.(transfers := e.transfers[a := Transfer(row.amount, Pending)]);
    var known := (a !in e.transfers && created && answered) || (looked && a in e1.transfers);
    e1.(payout := Some(if known then SentRow(row, a) else row.(attempts := row.attempts + 1)))
  }

  function Released(e: Escrow, created: bool, answered: bool, looked: bool): Escrow {
    if !e.status.ReleaseProcessing? || AnyOpen(e) then e
    else
      var row := e.payout.GetOr(Payout(SellerSettlement(e.terms), Queued, None, None, 0));
      if row.status.Success? || row.code.Some? then e.(payout := Some(row))
      else Transferred(e, row, Base, created, answered, looked)
  }

  /** A release job that stops before its provider call has written the payout row. */
  function Authorized(e: Escrow): Escrow {
    if !e.status.ReleaseProcessing? || AnyOpen(e) then e
    else e.(payout := Some(e.payout.GetOr(Payout(SellerSettlement(e.terms), Queued, None, None, 0))))
  }

  function MarkedPaid(e: Escrow, code: Attempt): Escrow {
    if !Unsettled(e) then e
    else Applied(e.(payout := Some(e.payout.value.(status := Success, code := Some(code)))),
      PayoutSucceeded, None, false)
  }

  function MarkedFailed(e: Escrow, outcome: TransferState): Escrow {
    if !Unsettled(e) then e
    else e.(payout := Some(e.payout.value.(status := if outcome.Reversed? then Reversal else Failure)))
  }

  function Retried(e: Escrow, asked: bool, created: bool, answered: bool, looked: bool): Escrow {
    if !RowFailed(e.payout) || AnyOpen(e) then e
    else
      var row := e.payout.value;
      var prior := row.reference.GetOr(Base);
      if asked && prior in e.transfers && e.transfers[prior].state.Succeeded? then MarkedPaid(e, prior)
      else Transferred(e, row.(status := Queued, code := None), Retry(row.attempts + 1), created, answered, looked)
  }

  /** A retry that stops before its provider call has reset the row. */
  function Prepared(e: Escrow, asked: bool): Escrow {
    if !RowFailed(e.payout) || AnyOpen(e) then e
    else
      var row := e.payout.value;
      var prior := row.reference.GetOr(Base);
      if asked && prior in e.transfers && e.transfers[prior].state.Succeeded? then MarkedPaid(e, prior)
      else e.(payout := Some(row.(status := Queued, code := None)))
  }

  function OutcomeHandled(e: Escrow, a: Attempt): Escrow
    requires a in e.transfers
  {
    if a in e.seen then e
    else
      var recorded := e.(seen := e.seen + {a});
      if a != Base then recorded
      else if e.transfers[a].state.Succeeded? then MarkedPaid(recorded, Base)
      else MarkedFailed(recorded, e.transfers[a].state)
  }

  // --- Each call is a run of the protocol -------------------------------------------------------

  /** Statements not covered by `Statement`. */
  lemma OtherStatement(e0: Escrow, e: Escrow, p: ProcessId, x: Process, input: Input)
    requires Reachable(e0, e, true) && p in e.procs && e.procs[p] == x && Suits(e, x, input)
    ensures x.PaymentDue? ==> Reachable(e0, Halt(e.(payments := e.payments[input.id :=
      Payment(input.reference, None, input.customer, ChargeAmount(e.terms), AwaitingCharge)]), p), true)
    ensures x.DisputeDue? ==> Reachable(e0, Halt(e.(disputes := e.disputes[input.id := Open]), p), true)
    ensures x.ResolveRead? ==> Reachable(e0, Goto(e, p,
      Applying(Ruling(x.forSeller), Some(OtherFreezing(e, x.dispute)), false, CloseDispute(x.dispute, x.forSeller))),
        true)
    ensures x.DisputeClosing? && x.dispute in e.disputes ==> Reachable(e0,
      Halt(e.(disputes := e.disputes[x.dispute := if x.forSeller then ResolvedRelease else ResolvedRefund]), p), true)
    ensures x.ChargeBinding? ==> Reachable(e0, BindCharge(e, p, x.payment, x.charge, x.source), true)
    ensures x.ChargeBound? && x.payment in e.payments ==>
      Reachable(e0, ReadPayment(e, p, x.payment, x.charge, x.source), true)
    ensures x.ReleaseRead? ==> Reachable(e0, if AnyOpen(e) then Halt(e, p) else Goto(e, p, ReleaseCleared), true)
    ensures x.ReleaseCleared? ==> Reachable(e0, Authorize(e, p), true)
    ensures x.SendErrored? && input.answered && x.attempt in e.transfers ==>
      Reachable(e0, Goto(e, p, SendConfirmed(x.attempt)), true)
    ensures x.SendErrored? && !(input.answered && x.attempt in e.transfers) ==>
      Reachable(e0, Goto(e, p, SendFailed(x.attempt)), true)
    ensures x.RetryRead? ==> Reachable(e0, if AnyOpen(e) then Halt(e, p) else Goto(e, p, RetryCleared(x.row)), true)
    ensures x.RetryCleared? ==> Reachable(e0, CheckPrior(e, p, x.row, input.answered), true)
    ensures x.RetryChecked? ==> Reachable(e0, ResetPayout(e, p, x.row), true)
    ensures (x.Paying? || x.Failing? || x.Verifying?) && !Unsettled(e) && !x.Verifying? ==>
      Reachable(e0, Halt(e, p), true)
    ensures x.Verifying? && x.charge !in e.charges ==> Reachable(e0, Halt(e, p), true)
  {
    hide Reachable, BindCharge, ReadPayment, Authorize, CheckPrior, ResetPayout, AnyOpen, OtherFreezing, ChargeAmount;
    Act(e0, e, p, input, true);
  }

  /** `apply` inside a method: reject and end, or commit and go on. */
  lemma PlayApply(e0: Escrow, e: Escrow, p: ProcessId, x: Process)
    requires Reachable(e0, e, true) && p in e.procs && e.procs[p] == x && x.Applying?
    ensures Reachable(e0, if Accepts(e, x.event, x.override, x.elapsed)
                          then Proceed(Applied(e, x.event, x.override, x.elapsed), p, x.after) else Halt(e, p), true)
  {
    hide Reachable, Transition, Appended, AnyFreezing;
    Statement(e0, e, p, x, NoInput, true);
    var context := ContextOf(e, x.override, x.elapsed);
    match Transition(e.status, x.event, context)
    case Reject(_) =>
    case Accept(to) =>
      var e1 := Goto(e, p, Decided(x.event, context, e.status, to, x.after));
      Statement(e0, e1, p, e1.procs[p], NoInput, true);
      ProceedForgets(e, e1, p, e1.procs[p], x.after, Edge(e.status, x.event, context, to));
  }

  lemma ProceedForgets(e: Escrow, e1: Escrow, p: ProcessId, y: Process, after: Continuation, edge: Edge)
    requires e1 == Goto(e, p, y)
    ensures Proceed(Commit(e1, edge), p, after) == Proceed(Commit(e, edge), p, after)
  {
    hide Appended;
    match after
    case Stop => assert e1.procs - {p} == e.procs - {p};
    case InsertPayment(v) => assert e1.procs[p := PaymentDue(v)] == e.procs[p := PaymentDue(v)];
    case InsertDispute => assert e1.procs[p := DisputeDue] == e.procs[p := DisputeDue];
    case CloseDispute(d, s) => assert e1.procs[p := DisputeClosing(d, s)] == e.procs[p := DisputeClosing(d, s)];
  }

  /** `apply` as the last act of a method run alone. */
  lemma PlayLastApply(e0: Escrow, e: Escrow, event: Event, override: Option<bool>, elapsed: bool)
    requires e.procs == map[] && Reachable(e0, Goto(e, 0, Applying(event, override, elapsed, Stop)), true)
    ensures Reachable(e0, Applied(e, event, override, elapsed), true)
  {
    hide Reachable, Transition, Appended, AnyFreezing;
    var x := Applying(event, override, elapsed, Stop);
    var e1 := Goto(e, 0, x);
    assert AnyFreezing(e1) == AnyFreezing(e) by { SameFreezing(e, e1); }
    PlayApply(e0, e1, 0, x);
    assert Halt(e1, 0) == e;
    if Accepts(e, event, override, elapsed) {
      assert Proceed(Applied(e1, event, override, elapsed), 0, Stop) == Applied(e, event, override, elapsed);
    }
  }

  lemma SameFreezing(e: Escrow, e1: Escrow)
    requires e.disputes == e1.disputes
    ensures AnyFreezing(e) == AnyFreezing(e1) && AnyOpen(e) == AnyOpen(e1)
    ensures forall d :: OtherFreezing(e, d) == OtherFreezing(e1, d)
  {
  }

  lemma RequestPlays(e: Escrow, event: Event)
    requires e.procs == map[] && Standalone(event)
    ensures Reachable(e, Applied(e, event, None, event.AutoConfirm?), true)
  {
    hide Reachable, Advance, Transition;
    Start(e);
    GoTo(e, e, StartApply(0, event), Goto(e, 0, Applying(event, None, event.AutoConfirm?, Stop)), true);
    PlayLastApply(e, e, event, None, event.AutoConfirm?);
  }

  lemma CheckoutStarts(e: Escrow, virtualAccount: bool)
    requires e.procs == map[]
    ensures Reachable(e, Goto(e, 0, Applying(BuyerInitiateCheckout, None, false, InsertPayment(virtualAccount))), true)
  {
    hide Reachable, Advance;
    Start(e);
    GoTo(e, e, StartCheckout(0, virtualAccount),
         Goto(e, 0, Applying(BuyerInitiateCheckout, None, false, InsertPayment(virtualAccount))), true);
  }

  lemma RaiseStarts(e: Escrow)
    requires e.procs == map[]
    ensures Reachable(e, Goto(e, 0, Applying(RaiseDispute, None, false, InsertDispute)), true)
  {
    hide Reachable, Advance;
    Start(e);
    GoTo(e, e, StartRaise(0), Goto(e, 0, Applying(RaiseDispute, None, false, InsertDispute)), true);
  }

  lemma InsertPlays(e0: Escrow, b: Escrow, id: PaymentId, reference: ChargeRef, customer: Option<Customer>)
    requires b.procs == map[] && id !in b.payments && Reachable(e0, Goto(b, 0, PaymentDue(customer.Some?)), true)
    ensures Reachable(e0, b.(payments := b.payments[id :=
      Payment(reference, None, customer, ChargeAmount(b.terms), AwaitingCharge)]), true)
  {
    hide Reachable, Advance, Do, Enabled;
    var e1 := Goto(b, 0, PaymentDue(customer.Some?));
    OtherStatement(e0, e1, 0, e1.procs[0], Minted(id, reference, customer));
    assert e1.procs - {0} == b.procs;
  }

  lemma CheckoutPlays(e: Escrow, id: PaymentId, reference: ChargeRef, customer: Option<Customer>)
    requires e.procs == map[] && id !in e.payments
    ensures Reachable(e, CheckedOut(e, id, reference, customer), true)
  {
    hide Reachable, Advance, Transition, AnyFreezing, Applied, Do, Enabled, Proceed, ChargeAmount;
    var x := Applying(BuyerInitiateCheckout, None, false, InsertPayment(customer.Some?));
    var e1 := Goto(e, 0, x);
    CheckoutStarts(e, customer.Some?);
    SameFreezing(e, e1);
    PlayApply(e, e1, 0, x);
    assert Halt(e1, 0) == e;
    if Accepts(e, BuyerInitiateCheckout, None, false) {
      CheckoutCommits(e, e1, x);
      AppliedRows(e, BuyerInitiateCheckout);
      InsertPlays(e, Applied(e, x.event, None, false), id, reference, customer);
    }
  }

  /** The provider has no virtual account to offer: the checkout is committed and nothing is inserted. */
  lemma CheckoutStopsPlays(e: Escrow)
    requires e.procs == map[]
    ensures Reachable(e, Applied(e, BuyerInitiateCheckout, None, false), true)
  {
    hide Reachable, Advance, Transition, AnyFreezing, Do, Enabled, Proceed, Commit;
    var x := Applying(BuyerInitiateCheckout, None, false, InsertPayment(true));
    var e1 := Goto(e, 0, x);
    CheckoutStarts(e, true);
    SameFreezing(e, e1);
    PlayApply(e, e1, 0, x);
    assert Halt(e1, 0) == e;
    if Accepts(e, BuyerInitiateCheckout, None, false) {
      hide Applied;
      CheckoutCommits(e, e1, x);
      AppliedRows(e, BuyerInitiateCheckout);
      CrashPlays(e, Applied(e, x.event, None, false), PaymentDue(true));
    }
  }

  lemma AppliedRows(e: Escrow, event: Event)
    ensures var b := Applied(e, event, None, false);
      b.procs == e.procs && b.payments == e.payments && b.terms == e.terms
  {
    hide Transition, Appended, AnyFreezing;
  }

  lemma CheckoutCommits(e: Escrow, e1: Escrow, x: Process)
    requires e.procs == map[] && x.Applying? && x.event == BuyerInitiateCheckout
      && x.after.InsertPayment? && e1 == Goto(e, 0, x)
    requires Accepts(e, x.event, None, false)
    ensures Proceed(Applied(e1, x.event, None, false), 0, x.after) ==
      Goto(Applied(e, x.event, None, false), 0, PaymentDue(x.after.virtualAccount))
  {
    hide Transition, Appended, AnyFreezing;
    SameFreezing(e, e1);
    assert e1.procs[0 := PaymentDue(x.after.virtualAccount)] == e.procs[0 := PaymentDue(x.after.virtualAccount)];
  }

  lemma RaisePlays(e: Escrow, id: DisputeId)
    requires e.procs == map[] && id !in e.disputes
    ensures Reachable(e, Raised(e, id), true)
  {
    hide Reachable, Advance, Transition, AnyFreezing, Appended, Do, Enabled;
    var x := Applying(RaiseDispute, None, false, InsertDispute);
    var e1 := Goto(e, 0, x);
    RaiseStarts(e);
    SameFreezing(e, e1);
    PlayApply(e, e1, 0, x);
    assert Halt(e1, 0) == e;
    if Accepts(e, RaiseDispute, None, false) {
      var e2 := Proceed(Applied(e1, x.event, None, false), 0, x.after);
      OtherStatement(e, e2, 0, e2.procs[0], Minted(id, "", None));
      assert e2.procs - {0} == e.procs;
    }
  }

  lemma ResolveStarts(e: Escrow, d: DisputeId, forSeller: bool)
    requires e.procs == map[] && d in e.disputes && Freezing(e.disputes[d])
    ensures Reachable(e, Goto(e, 0, ResolveRead(d, forSeller)), true)
  {
    hide Reachable, Advance;
    Start(e);
    GoTo(e, e, StartResolve(0, d, forSeller), Goto(e, 0, ResolveRead(d, forSeller)), true);
  }

  lemma ResolvePlays(e: Escrow, d: DisputeId, forSeller: bool)
    requires e.procs == map[]
    ensures Reachable(e, Resolved(e, d, forSeller), true)
  {
    hide Reachable, Advance, Transition, AnyFreezing, OtherFreezing, Appended, Do, Enabled;
    Start(e);
    if d in e.disputes && Freezing(e.disputes[d]) {
      var e1 := Goto(e, 0, ResolveRead(d, forSeller));
      ResolveStarts(e, d, forSeller);
      SameFreezing(e, e1);
      OtherStatement(e, e1, 0, e1.procs[0], NoInput);
      var x := Applying(Ruling(forSeller), Some(OtherFreezing(e, d)), false, CloseDispute(d, forSeller));
      assert e1.procs[0 := x] == e.procs[0 := x];
      RulingPlays(e, d, forSeller, x);
    }
  }

  /** The ruling applied, and the dispute row closed if it was accepted. */
  lemma RulingPlays(e: Escrow, d: DisputeId, forSeller: bool, x: Process)
    requires e.procs == map[] && d in e.disputes && Freezing(e.disputes[d])
    requires x == Applying(Ruling(forSeller), Some(OtherFreezing(e, d)), false, CloseDispute(d, forSeller))
    requires Reachable(e, Goto(e, 0, x), true)
    ensures Reachable(e, Resolved(e, d, forSeller), true)
  {
    hide Reachable, Advance, Transition, AnyFreezing, OtherFreezing, Appended, Do, Enabled, Freezing;
    Start(e);
    var e2 := Goto(e, 0, x);
    SameFreezing(e, e2);
    PlayApply(e, e2, 0, x);
    assert Halt(e2, 0) == e;
    if Accepts(e, x.event, x.override, false) {
      var b := Applied(e, x.event, x.override, false);
      var y := DisputeClosing(d, forSeller);
      assert Proceed(Applied(e2, x.event, x.override, false), 0, x.after) == Goto(b, 0, y) by {
        assert e2.procs[0 := y] == e.procs[0 := y];
      }
      ClosePlays(e, b, d, forSeller);
    }
  }

  lemma ClosePlays(e0: Escrow, b: Escrow, d: DisputeId, forSeller: bool)
    requires b.procs == map[] && d in b.disputes && Reachable(e0, Goto(b, 0, DisputeClosing(d, forSeller)), true)
    ensures Reachable(e0, b.(disputes := b.disputes[d := if forSeller then ResolvedRelease else ResolvedRefund]), true)
  {
    hide Reachable, Advance, Do, Enabled;
    var e1 := Goto(b, 0, DisputeClosing(d, forSeller));
    OtherStatement(e0, e1, 0, e1.procs[0], NoInput);
    assert e1.procs - {0} == b.procs;
  }

  lemma VerifyPlays(e0: Escrow, e: Escrow, id: PaymentId, charge: ChargeRef, source: PaymentSource)
    requires e.procs == map[] && id in e.payments && Reachable(e0, ReadPayment(e, 0, id, charge, source), true)
    ensures Reachable(e0, Verified(e, id, charge, source), true)
  {
    hide Reachable, Advance, Transition, AnyFreezing, Appended;
    if e.payments[id].status.Paid? {
      assert Halt(e, 0) == e;
    } else {
      var e1 := Goto(e, 0, Verifying(id, charge, source));
      assert Halt(e1, 0) == e;
      if charge !in e.charges {
        OtherStatement(e0, e1, 0, e1.procs[0], NoInput);
      } else {
        Statement(e0, e1, 0, e1.procs[0], NoInput, true);
        var e2 := Goto(e1, 0, Verdict(id, charge, source, e.charges[charge]));
        VerdictPlays(e0, e, e2, id, charge, source);
      }
    }
  }

  lemma VerdictPlays(e0: Escrow, e: Escrow, e2: Escrow, id: PaymentId, charge: ChargeRef, source: PaymentSource)
    requires e.procs == map[] && id in e.payments && charge in e.charges && !e.payments[id].status.Paid?
    requires e2.procs == map[0 := Verdict(id, charge, source, e.charges[charge])] && e == e2.(procs := map[])
    requires Reachable(e0, e2, true)
    ensures Reachable(e0, Verified(e, id, charge, source), true)
  {
    hide Reachable, Advance, Transition, AnyFreezing, Appended;
    Statement(e0, e2, 0, e2.procs[0], NoInput, true);
    var answer := e.charges[charge];
    assert e2.procs - {0} == e.procs;
    if answer.state.Charged? && answer.amount == e.payments[id].amount {
      var paid := e.(payments := e.payments[id := e.payments[id].(status := Paid)]);
      var x := Applying(PaymentVerified(source), None, false, Stop);
      assert Goto(paid, 0, x).procs == e2.procs[0 := x];
      PlayLastApply(e0, paid, PaymentVerified(source), None, false);
    }
  }

  lemma VerifyCallPlays(e: Escrow, id: PaymentId, bound: bool)
    requires e.procs == map[] && id in e.payments
    ensures var row := e.payments[id];
      Reachable(e, Verified(e, id, if bound then row.boundCharge.GetOr(row.reference) else row.reference, ServerVerify),
        true)
  {
    hide Reachable, Advance, Verified;
    var row := e.payments[id];
    var charge := if bound then row.boundCharge.GetOr(row.reference) else row.reference;
    Start(e);
    GoTo(e, e, StartVerify(0, id, bound), ReadPayment(e, 0, id, charge, ServerVerify), true);
    VerifyPlays(e, e, id, charge, ServerVerify);
  }

  lemma ChargePlays(e: Escrow, charge: ChargeRef, customer: Option<Customer>)
    requires e.procs == map[] && forall i, j :: i in e.payments && j in e.payments ==> i == j
    ensures Reachable(e, ChargeHandled(e, charge, customer), true)
  {
    hide Reachable, Advance, Verified, ReadPayment;
    Start(e);
    var e1 := RouteCharge(e, 0, charge, customer);
    GoTo(e, e, ChargeEvent(0, charge, customer), e1, true);
    hide Do, Enabled;
    if id :| HostedBy(e, id, charge) {
      VerifyPlays(e, e, id, charge, Webhook);
    } else if customer.Some? {
      if id :| BoundTo(e, id, charge) {
        VerifyPlays(e, e, id, charge, Webhook);
      } else if id :| OwnedBy(e, id, customer) {
        BindPlays(e, e1, id, charge);
      }
    }
  }

  lemma BindPlays(e: Escrow, e1: Escrow, id: PaymentId, charge: ChargeRef)
    requires e.procs == map[] && id in e.payments && !exists i :: BoundTo(e, i, charge)
    requires e1 == Goto(e, 0, ChargeBinding(id, charge, Webhook)) && Reachable(e, e1, true)
    ensures Reachable(e, if e.payments[id].boundCharge.None?
      then Verified(BoundPayment(e, id, charge), id, charge, Webhook) else e, true)
  {
    hide Reachable, Advance, Verified;
    OtherStatement(e, e1, 0, e1.procs[0], NoInput);
    if e.payments[id].boundCharge.None? {
      var b := BoundPayment(e, id, charge);
      var e2 := Goto(b, 0, ChargeBound(id, charge, Webhook));
      assert e2.procs == e1.procs[0 := ChargeBound(id, charge, Webhook)];
      OtherStatement(e, e2, 0, e2.procs[0], NoInput);
      assert ReadPayment(e2, 0, id, charge, Webhook) == ReadPayment(b, 0, id, charge, Webhook) by {
        assert e2.procs - {0} == b.procs - {0};
        assert e2.procs[0 := Verifying(id, charge, Webhook)] == b.procs[0 := Verifying(id, charge, Webhook)];
      }
      VerifyPlays(e, b, id, charge, Webhook);
    } else {
      assert forall w :: BoundTo(e1, w, charge) ==> BoundTo(e, w, charge);
      assert Halt(e1, 0) == e;
    }
  }

  /** The provider call of a transfer, as a step from one quiet state to the next. */
  lemma ProviderCallPlays(e0: Escrow, e: Escrow, amount: int, a: Attempt, created: bool, answered: bool)
    requires e.procs == map[] && Reachable(e0, Goto(e, 0, Sending(amount, a)), true)
    ensures var b := e.(transfers := if a in e.transfers || !created then e.transfers
      else e.transfers[a := Transfer(amount, Pending)]);
      Reachable(e0, Goto(b, 0, if a !in e.transfers && created && answered then SendConfirmed(a) else SendErrored(a)),
        true)
  {
    hide Reachable, Advance, Do, Enabled;
    var e1 := Goto(e, 0, Sending(amount, a));
    Statement(e0, e1, 0, e1.procs[0], Reply(created, answered), true);
    assert e1.procs[0 := SendConfirmed(a)] == e.procs[0 := SendConfirmed(a)];
    assert e1.procs[0 := SendErrored(a)] == e.procs[0 := SendErrored(a)];
  }

  /** From the provider call of a transfer to its record. */
  lemma TransferPlays(e0: Escrow, e: Escrow, row: Payout, a: Attempt, created: bool, answered: bool, looked: bool)
    requires e.procs == map[] && e.payout == Some(row)
    requires Reachable(e0, Goto(e, 0, Sending(row.amount, a)), true)
    ensures Reachable(e0, Transferred(e, row, a, created, answered, looked), true)
  {
    hide Reachable, Advance, Do, Enabled, Goto, SentRow;
    ProviderCallPlays(e0, e, row.amount, a, created, answered);
    var b := e.(transfers := if a in e.transfers || !created then e.transfers
      else e.transfers[a := Transfer(row.amount, Pending)]);
    if a !in e.transfers && created && answered {
      RecordPlays(e0, b, a, true);
    } else {
      LookupPlays(e0, b, a, looked);
      RecordPlays(e0, b, a, looked && a in b.transfers);
    }
  }

  lemma LookupPlays(e0: Escrow, b: Escrow, a: Attempt, looked: bool)
    requires b.procs == map[] && Reachable(e0, Goto(b, 0, SendErrored(a)), true)
    ensures Reachable(e0, Goto(b, 0, if looked && a in b.transfers then SendConfirmed(a) else SendFailed(a)), true)
  {
    hide Reachable, Advance;
    var e1 := Goto(b, 0, SendErrored(a));
    OtherStatement(e0, e1, 0, e1.procs[0], Reply(false, looked));
    var y := if looked && a in b.transfers then SendConfirmed(a) else SendFailed(a);
    assert e1.procs[0 := y] == b.procs[0 := y];
  }

  lemma RecordPlays(e0: Escrow, b: Escrow, a: Attempt, known: bool)
    requires b.procs == map[] && b.payout.Some?
    requires Reachable(e0, Goto(b, 0, if known then SendConfirmed(a) else SendFailed(a)), true)
    ensures var row := b.payout.value;
      Reachable(e0, b.(payout := Some(if known then SentRow(row, a) else row.(attempts := row.attempts + 1))), true)
  {
    hide Reachable, Advance;
    var e1 := Goto(b, 0, if known then SendConfirmed(a) else SendFailed(a));
    Statement(e0, e1, 0, e1.procs[0], NoInput, true);
    assert e1.procs - {0} == b.procs;
  }

  /** A release job up to its insert-or-reuse of the payout row. */
  lemma ClearedPlays(e: Escrow)
    requires e.procs == map[] && e.status.ReleaseProcessing? && !AnyOpen(e)
    ensures Reachable(e, Authorize(Goto(e, 0, ReleaseCleared), 0), true)
  {
    hide Reachable, Advance, AnyOpen, Authorize;
    Start(e);
    var e1 := Goto(e, 0, ReleaseRead);
    GoTo(e, e, StartRelease(0), e1, true);
    hide Do, Enabled;
    SameFreezing(e, e1);
    OtherStatement(e, e1, 0, e1.procs[0], NoInput);
    var e2 := Goto(e1, 0, ReleaseCleared);
    assert e2 == Goto(e, 0, ReleaseCleared) by { assert e1.procs[0 := ReleaseCleared] == e.procs[0 := ReleaseCleared]; }
    OtherStatement(e, e2, 0, e2.procs[0], NoInput);
  }

  lemma ReleasePlays(e: Escrow, created: bool, answered: bool, looked: bool)
    requires e.procs == map[]
    ensures Reachable(e, Released(e, created, answered, looked), true)
  {
    hide Reachable, AnyOpen, Transferred, SellerSettlement;
    Start(e);
    if e.status.ReleaseProcessing? && !AnyOpen(e) {
      ClearedPlays(e);
      var row := e.payout.GetOr(Payout(SellerSettlement(e.terms), Queued, None, None, 0));
      var stored := e.(payout := Some(row));
      SendingDue(e, stored, row);
      if !(row.status.Success? || row.code.Some?) {
        TransferPlays(e, stored, row, Base, created, answered, looked);
        TransferForgets(e, stored, row, Base, created, answered, looked);
      }
    }
  }

  lemma SendingDue(e: Escrow, stored: Escrow, row: Payout)
    requires e.procs == map[] && row == e.payout.GetOr(Payout(SellerSettlement(e.terms), Queued, None, None, 0))
    requires stored == e.(payout := Some(row))
    ensures Authorize(Goto(e, 0, ReleaseCleared), 0) ==
      if row.status.Success? || row.code.Some? then stored else Goto(stored, 0, Sending(row.amount, Base))
  {
    hide SellerSettlement;
    var e2 := Goto(e, 0, ReleaseCleared);
    assert e2.procs - {0} == stored.procs;
    assert e2.procs[0 := Sending(row.amount, Base)] == stored.procs[0 := Sending(row.amount, Base)];
  }

  lemma CrashPlays(e0: Escrow, e: Escrow, x: Process)
    requires e.procs == map[] && Reachable(e0, Goto(e, 0, x), true)
    ensures Reachable(e0, e, true)
  {
    hide Reachable;
    var e1 := Goto(e, 0, x);
    assert Halt(e1, 0) == e;
    GoTo(e0, e1, Crash(0), e, true);
  }

  lemma AuthorizedPlays(e: Escrow)
    requires e.procs == map[]
    ensures Reachable(e, Authorized(e), true)
  {
    hide Reachable, AnyOpen, SellerSettlement;
    Start(e);
    if e.status.ReleaseProcessing? && !AnyOpen(e) {
      ClearedPlays(e);
      var row := e.payout.GetOr(Payout(SellerSettlement(e.terms), Queued, None, None, 0));
      var stored := e.(payout := Some(row));
      SendingDue(e, stored, row);
      if !(row.status.Success? || row.code.Some?) {
        CrashPlays(e, stored, Sending(row.amount, Base));
      }
    }
  }

  lemma TransferForgets(e: Escrow, b: Escrow, row: Payout, a: Attempt, created: bool, answered: bool, looked: bool)
    requires b == e.(payout := b.payout)
    ensures Transferred(b, row, a, created, answered, looked) == Transferred(e, row, a, created, answered, looked)
  {
  }

  lemma PayPlays(e0: Escrow, e: Escrow, code: Attempt)
    requires e.procs == map[] && Reachable(e0, Goto(e, 0, Paying(code)), true)
    ensures Reachable(e0, MarkedPaid(e, code), true)
  {
    hide Reachable, Advance, Transition, AnyFreezing, Appended, Do, Enabled, Decide, Proceed, Commit,
      RecordVerdict, CallTransfer, RecordSent, RecordSendFailure;
    var e1 := Goto(e, 0, Paying(code));
    assert Halt(e1, 0) == e;
    if !Unsettled(e) {
      OtherStatement(e0, e1, 0, e1.procs[0], NoInput);
    } else {
      Statement(e0, e1, 0, e1.procs[0], NoInput, true);
      var e2 := Goto(e1, 0, PayWrite(code));
      Statement(e0, e2, 0, e2.procs[0], NoInput, true);
      var paid := e.(payout := Some(e.payout.value.(status := Success, code := Some(code))));
      var x := Applying(PayoutSucceeded, None, false, Stop);
      assert Goto(paid, 0, x) == WritePaid(e2, 0, code) by { assert e2.procs[0 := x] == paid.procs[0 := x]; }
      PlayLastApply(e0, paid, PayoutSucceeded, None, false);
    }
  }

  lemma FailPlays(e0: Escrow, e: Escrow, outcome: TransferState)
    requires e.procs == map[] && Reachable(e0, Goto(e, 0, Failing(outcome)), true)
    ensures Reachable(e0, MarkedFailed(e, outcome), true)
  {
    hide Reachable, Advance, Do, Enabled, Decide, Proceed, Commit,
      RecordVerdict, CallTransfer, RecordSent, RecordSendFailure;
    var e1 := Goto(e, 0, Failing(outcome));
    assert Halt(e1, 0) == e;
    if !Unsettled(e) {
      OtherStatement(e0, e1, 0, e1.procs[0], NoInput);
    } else {
      Statement(e0, e1, 0, e1.procs[0], NoInput, true);
      var e2 := Goto(e1, 0, FailWrite(outcome));
      Statement(e0, e2, 0, e2.procs[0], NoInput, true);
      assert e2.procs - {0} == e.procs;
    }
  }

  /** A retry up to its lookup of the previous reference. */
  lemma RetryStarts(e: Escrow, row: Payout)
    requires e.procs == map[] && RowFailed(e.payout) && e.payout == Some(row) && !AnyOpen(e)
    ensures Reachable(e, Goto(e, 0, RetryCleared(row)), true)
  {
    hide Reachable, Advance, AnyOpen;
    Start(e);
    var e1 := Goto(e, 0, RetryRead(row));
    GoTo(e, e, StartRetry(0), e1, true);
    hide Do, Enabled;
    SameFreezing(e, e1);
    OtherStatement(e, e1, 0, e1.procs[0], NoInput);
    assert e1.procs[0 := RetryCleared(row)] == e.procs[0 := RetryCleared(row)];
  }

  /** From the lookup to the reset, when the previous transfer is not known to have succeeded. */
  lemma ResetPlays(e: Escrow, row: Payout, asked: bool)
    requires e.procs == map[] && e.payout == Some(row) && Reachable(e, Goto(e, 0, RetryCleared(row)), true)
    requires !(asked && TransferSucceeded(e.transfers, row.reference.GetOr(Base)))
    ensures Reachable(e, Goto(e.(payout := Some(row.(status := Queued, code := None))), 0,
                              Sending(row.amount, Retry(row.attempts + 1))), true)
  {
    hide Reachable, Advance;
    var e2 := Goto(e, 0, RetryCleared(row));
    OtherStatement(e, e2, 0, e2.procs[0], Reply(false, asked));
    var e3 := Goto(e2, 0, RetryChecked(row));
    OtherStatement(e, e3, 0, e3.procs[0], NoInput);
    var b := e.(payout := Some(row.(status := Queued, code := None)));
    var next := Sending(row.amount, Retry(row.attempts + 1));
    assert e3.procs[0 := next] == b.procs[0 := next];
  }

  lemma RetryPays(e: Escrow, row: Payout, asked: bool)
    requires e.procs == map[] && e.payout == Some(row) && Reachable(e, Goto(e, 0, RetryCleared(row)), true)
    requires asked && TransferSucceeded(e.transfers, row.reference.GetOr(Base))
    ensures Reachable(e, MarkedPaid(e, row.reference.GetOr(Base)), true)
  {
    hide Reachable, Advance, MarkedPaid;
    var prior := row.reference.GetOr(Base);
    var e2 := Goto(e, 0, RetryCleared(row));
    OtherStatement(e, e2, 0, e2.procs[0], Reply(false, asked));
    assert e2.procs[0 := Paying(prior)] == e.procs[0 := Paying(prior)];
    PayPlays(e, e, prior);
  }

  lemma RetryPlays(e: Escrow, asked: bool, created: bool, answered: bool, looked: bool)
    requires e.procs == map[]
    ensures Reachable(e, Retried(e, asked, created, answered, looked), true)
  {
    hide Reachable, AnyOpen, Transferred, MarkedPaid;
    Start(e);
    if RowFailed(e.payout) && !AnyOpen(e) {
      var row := e.payout.value;
      RetryStarts(e, row);
      if asked && TransferSucceeded(e.transfers, row.reference.GetOr(Base)) {
        RetryPays(e, row, asked);
      } else {
        ResetPlays(e, row, asked);
        var reset := row.(status := Queued, code := None);
        var b := e.(payout := Some(reset));
        TransferPlays(e, b, reset, Retry(row.attempts + 1), created, answered, looked);
        TransferForgets(e, b, reset, Retry(row.attempts + 1), created, answered, looked);
      }
    }
  }

  lemma PreparedPlays(e: Escrow, asked: bool)
    requires e.procs == map[]
    ensures Reachable(e, Prepared(e, asked), true)
  {
    hide Reachable, AnyOpen, MarkedPaid;
    Start(e);
    if RowFailed(e.payout) && !AnyOpen(e) {
      var row := e.payout.value;
      RetryStarts(e, row);
      if asked && TransferSucceeded(e.transfers, row.reference.GetOr(Base)) {
        RetryPays(e, row, asked);
      } else {
        ResetPlays(e, row, asked);
        CrashPlays(e, e.(payout := Some(row.(status := Queued, code := None))),
          Sending(row.amount, Retry(row.attempts + 1)));
      }
    }
  }

  lemma OutcomePlays(e: Escrow, a: Attempt)
    requires e.procs == map[] && a in e.transfers && !e.transfers[a].state.Pending?
    ensures Reachable(e, OutcomeHandled(e, a), true)
  {
    hide Reachable, Advance, MarkedPaid, MarkedFailed;
    Start(e);
    GoTo(e, e, OutcomeEvent(0, a), ReceiveOutcome(e, 0, a), true);
    if a !in e.seen && a == Base {
      var recorded := e.(seen := e.seen + {a});
      if e.transfers[a].state.Succeeded? {
        PayPlays(e, recorded, Base);
      } else {
        FailPlays(e, recorded, e.transfers[a].state);
      }
    }
  }
}
