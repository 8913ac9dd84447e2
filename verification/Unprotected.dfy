/** Money that was taken and does not protect the transaction: when it still can, and when it never will. */
module Unprotected {
  import opened Wrappers
  import opened Machine
  import opened EscrowProtocol
  import opened EscrowInvariant
  import opened EscrowProof
  import opened PaymentSteps
  import opened ProcessSteps
  import opened EscrowRuns
  import Crashes

  /** A successful charge of a wrong amount: final, and refused whenever it is verified. */
  predicate Wrong(e: Escrow, charge: ChargeRef) {
    charge in e.charges && e.charges[charge].state.Charged? && e.charges[charge].amount != ChargeAmount(e.terms)
  }

  predicate Right(e: Escrow, charge: ChargeRef) {
    charge in e.charges && e.charges[charge] == Charge(Charged, ChargeAmount(e.terms))
  }

  // --- Paid and not protected --------------------------------------------------------------------------

  /** The process is bound for protection, or for an answer that lets a later one get there. */
  predicate Hopeful(e: Escrow, x: Process) {
    || (x.Applying? && x.event.PaymentVerified?)
    || (x.Decided? && x.event.PaymentVerified?)
    || (x.Verifying? && !Wrong(e, x.charge))
    || (x.Verdict? && !(x.answer.state.Charged? && x.answer.amount != ChargeAmount(e.terms)))
  }

  ghost predicate AnyHopeful(e: Escrow) { exists p :: p in e.procs && Hopeful(e, e.procs[p]) }

  ghost predicate PaidForNothing(e: Escrow, id: PaymentId) {
    e.status.PaymentPending? && id in e.payments && e.payments[id].status.Paid? && !AnyHopeful(e)
  }

  lemma PendingLeftByVerification(e: Escrow, x: Process)
    requires x.Decided? && Knows(e, x) && x.from.PaymentPending?
    ensures x.event.PaymentVerified? && x.to.PaymentProtected?
  {
    hide Collected, Disbursed;
  }

  /** A wrong charge stays wrong. */
  lemma WrongStays(e: Escrow, e': Escrow, charge: ChargeRef)
    requires Later(e, e') && Wrong(e, charge)
    ensures Wrong(e', charge)
  {
  }

  lemma NoNewHope(e: Escrow, s: Step, id: PaymentId, q: ProcessId)
    requires Inv(e) && Enabled(e, s) && CountsAgree(e, s) && PaidForNothing(e, id) && q in Do(e, s).procs
    ensures !Hopeful(Do(e, s), Do(e, s).procs[q])
  {
    hide Inv, Later, Do, Enabled, CountsAgree, Knows;
    AnyStepAccounted(e, s);
    StepKeeps(e, s);
    LaterTerms(e, Do(e, s));
    OnePayment(e);
    var e' := Do(e, s);
    var y := e'.procs[q];
    assert Accounted(e, s, q, y);
    if y.Verifying? && q in e.procs && e.procs[q] == y && Wrong(e, y.charge) {
      WrongStays(e, e', y.charge);
    }
    hide PaidForNothing, StepAccounted, Wrong;
    assert !AnyHopeful(e) && id in e.payments && e.payments[id].status.Paid? by { PaidForNothingMeans(e, id); }
    NotHopeful(e, e', s, q, y, id);
  }

  lemma PaidForNothingMeans(e: Escrow, id: PaymentId)
    requires PaidForNothing(e, id)
    ensures !AnyHopeful(e) && id in e.payments && e.payments[id].status.Paid?
  {
  }

  lemma NotHopeful(e: Escrow, e': Escrow, s: Step, q: ProcessId, y: Process, id: PaymentId)
    requires !AnyHopeful(e) && id in e.payments && e.payments[id].status.Paid?
      && Accounted(e, s, q, y) && e'.terms == e.terms
    requires forall i, j :: i in e.payments && j in e.payments ==> i == j
    requires forall i :: i in e.payments ==> e.payments[i].amount == ChargeAmount(e.terms)
    requires y.Verifying? && q in e.procs && e.procs[q] == y && Wrong(e, y.charge) ==> Wrong(e', y.charge)
    ensures !Hopeful(e', y)
  {
    if q in e.procs {
      assert !Hopeful(e, e.procs[q]);
    }
  }

  lemma PaidForNothingStays(e: Escrow, s: Step, id: PaymentId)
    requires Inv(e) && Enabled(e, s) && CountsAgree(e, s) && PaidForNothing(e, id)
    ensures PaidForNothing(Do(e, s), id)
  {
    hide Inv, Do, Enabled, CountsAgree, Knows, Excludes, Fits;
    var e' := Do(e, s);
    forall q | q in e'.procs ensures !Hopeful(e', e'.procs[q]) {
      NoNewHope(e, s, id, q);
    }
    if e'.status != e.status {
      Crashes.StatusLeft(e, s);
      PendingLeftByVerification(e, e.procs[s.p]);
    }
    ResumeIsEnabled(e, s);
    PaidRowUndoneIff(e, s, id);
  }

  lemma ResumeIsEnabled(e: Escrow, s: Step)
    requires Enabled(e, s)
    ensures s.Resume? ==> s.p in e.procs
  {
  }

  lemma {:induction false} PaidForNothingForever(e: Escrow, more: seq<Step>, id: PaymentId)
    requires Inv(e) && PaidForNothing(e, id) && After(e, more, true).Some?
    ensures PaidForNothing(After(e, more, true).value, id)
  {
    hide Inv, PaidForNothing, Do, Enabled, CountsAgree, Later;
    if more != [] {
      PaidForNothingForever(e, more[..|more| - 1], id);
      RunKeepsFrom(e, more[..|more| - 1]);
      PaidForNothingStays(After(e, more[..|more| - 1], true).value, more[|more| - 1], id);
    }
  }

  // --- The way to protection ---------------------------------------------------------------------------

  lemma ProtectFrom(e0: Escrow, e: Escrow, p: ProcessId) returns (e': Escrow)
    requires Reachable(e0, e, true) && e.status.PaymentPending? && p in e.procs
    requires e.procs[p].Applying? && e.procs[p].event.PaymentVerified? && !e.procs[p].event.source.Client?
    ensures Reachable(e0, e', true) && e'.status.PaymentProtected?
  {
    hide Reachable, Appended, AnyFreezing;
    var x := e.procs[p];
    var context := Context(e.terms.releaseRule, x.override.GetOr(AnyFreezing(e)), x.elapsed);
    Statement(e0, e, p, x, NoInput, true);
    var e1 := Goto(e, p, Decided(x.event, context, PaymentPending, PaymentProtected, x.after));
    e' := CommitFrom(e0, e1, p);
  }

  lemma CommitFrom(e0: Escrow, e: Escrow, p: ProcessId) returns (e': Escrow)
    requires Reachable(e0, e, true) && p in e.procs && e.procs[p].Decided? && e.procs[p].from == e.status
    requires e.procs[p].to.PaymentProtected?
    ensures Reachable(e0, e', true) && e'.status.PaymentProtected?
  {
    hide Reachable, Appended;
    var x := e.procs[p];
    Statement(e0, e, p, x, NoInput, true);
    e' := Proceed(Commit(e, Edge(x.from, x.event, x.context, x.to)), p, x.after);
  }

  /** From a right answer. */
  lemma ProtectOn(e0: Escrow, e: Escrow, p: ProcessId) returns (e': Escrow)
    requires Reachable(e0, e, true) && e.status.PaymentPending? && p in e.procs && e.procs[p].Verdict?
    requires e.procs[p].payment in e.payments && !e.procs[p].source.Client?
    requires e.procs[p].answer == Charge(Charged, e.payments[e.procs[p].payment].amount)
    ensures Reachable(e0, e', true) && e'.status.PaymentProtected?
  {
    hide Reachable;
    var x := e.procs[p];
    Statement(e0, e, p, x, NoInput, true);
    var e1 := RecordVerdict(e, p, x.payment, x.source, x.answer);
    e' := ProtectFrom(e0, e1, p);
  }

  /** The provider collects the right amount, unless it has, and the verifier asks. */
  lemma VerifyOn(e0: Escrow, e: Escrow, p: ProcessId) returns (e': Escrow)
    requires Reachable(e0, e, true) && e.status.PaymentPending? && p in e.procs && e.procs[p].Verifying?
    requires e.procs[p].payment in e.payments && !e.procs[p].source.Client? && !Wrong(e, e.procs[p].charge)
    requires e.payments[e.procs[p].payment].amount == ChargeAmount(e.terms)
    ensures Reachable(e0, e', true) && e'.status.PaymentProtected?
  {
    hide Reachable, ChargeAmount;
    var x := e.procs[p];
    var paid := Charge(Charged, ChargeAmount(e.terms));
    var e1 := e;
    if !Right(e, x.charge) {
      e1 := e.(charges := e.charges[x.charge := paid]);
      GoTo(e0, e, MoveCharge(x.charge, paid), e1, true);
    }
    Statement(e0, e1, p, x, NoInput, true);
    var e2 := Goto(e1, p, Verdict(x.payment, x.charge, x.source, paid));
    e' := ProtectOn(e0, e2, p);
  }

  /** A new verifier for an unpaid row. */
  lemma VerifyAnew(e0: Escrow, e: Escrow, id: PaymentId, bound: bool) returns (e': Escrow)
    requires Reachable(e0, e, true) && e.status.PaymentPending? && id in e.payments && !e.payments[id].status.Paid?
    requires e.payments[id].amount == ChargeAmount(e.terms)
    requires !Wrong(e, if bound then e.payments[id].boundCharge.GetOr(e.payments[id].reference)
      else e.payments[id].reference)
    ensures Reachable(e0, e', true) && e'.status.PaymentProtected?
  {
    hide Reachable, ChargeAmount;
    var row := e.payments[id];
    var charge := if bound then row.boundCharge.GetOr(row.reference) else row.reference;
    var p := Crashes.FreshProcess(e.procs);
    var e1 := Goto(e, p, Verifying(id, charge, ServerVerify));
    GoTo(e0, e, StartVerify(p, id, bound), e1, true);
    e' := VerifyOn(e0, e1, p);
  }

  /** A failure written over the paid row lets the payment be verified again. */
  lemma FailThenVerify(e: Escrow, p: ProcessId, charge: ChargeRef) returns (e': Escrow)
    requires Reachable(e, e, true) && e.status.PaymentPending? && p in e.procs && e.procs[p].Verdict?
    requires !e.procs[p].answer.state.Charged? && e.procs[p].payment in e.payments
    requires Tied(e.payments[e.procs[p].payment], charge) && Right(e, charge)
    requires e.payments[e.procs[p].payment].amount == ChargeAmount(e.terms)
    ensures Reachable(e, e', true) && e'.status.PaymentProtected?
  {
    hide Reachable, ChargeAmount;
    var x := e.procs[p];
    Statement(e, e, p, x, NoInput, true);
    var e1 := RecordVerdict(e, p, x.payment, x.source, x.answer);
    e' := VerifyAnew(e, e1, x.payment, e.payments[x.payment].reference != charge);
  }

  lemma HopeKnows(e: Escrow, p: ProcessId)
    requires Inv(e) && p in e.procs && Hopeful(e, e.procs[p]) && e.status.PaymentPending?
    ensures e.procs[p].Applying? ==> !e.procs[p].event.source.Client?
    ensures e.procs[p].Decided? ==> e.procs[p].from == e.status && e.procs[p].to.PaymentProtected?
    ensures e.procs[p].Verifying? || e.procs[p].Verdict? ==>
      e.procs[p].payment in e.payments && !e.procs[p].source.Client?
  {
    hide Inv, Excludes, Fits, Collected, Disbursed;
    Mover(e, p);
  }

  lemma HopeFulfilled(e: Escrow, p: ProcessId, id: PaymentId, charge: ChargeRef) returns (e': Escrow)
    requires Inv(e) && Reachable(e, e, true) && e.status.PaymentPending? && p in e.procs && Hopeful(e, e.procs[p])
    requires e.payments.Keys == {id} && Tied(e.payments[id], charge) && Right(e, charge)
    ensures Reachable(e, e', true) && e'.status.PaymentProtected?
  {
    hide Inv, Reachable, ChargeAmount;
    HopeKnows(e, p);
    OnePayment(e);
    var x := e.procs[p];
    if x.Applying? {
      e' := ProtectFrom(e, e, p);
    } else if x.Decided? {
      e' := CommitFrom(e, e, p);
    } else if x.Verifying? {
      e' := VerifyOn(e, e, p);
    } else if x.answer.state.Charged? {
      e' := ProtectOn(e, e, p);
    } else {
      e' := FailThenVerify(e, p, charge);
    }
  }

  lemma PaidMeansCollected(e: Escrow, id: PaymentId) returns (charge: ChargeRef)
    requires Inv(e) && id in e.payments && e.payments[id].status.Paid?
    ensures e.payments.Keys == {id} && Tied(e.payments[id], charge) && Right(e, charge)
  {
    hide LogsAgree, DisputesSound, PayoutSound, ProcessesSound, Tied;
    assert Collected(e.terms, e.payments, e.charges);
    var i;
    i, charge :| PaidBy(e.terms, e.payments, e.charges, i, charge);
    assert i == id;
  }

  /**
   Exactly when a payment that is marked paid still protects its transaction: some process is bound for
   protection, or will write a failure over the paid row so that it is verified again. The paid branch
   itself drives no transition, so after a crash between the two the money stays unprotected.
   */
  lemma PaidProtectsIff(t: Terms, e: Escrow, id: PaymentId)
    requires Reachable(Drafted(t), e, true) && e.status.PaymentPending?
    requires id in e.payments && e.payments[id].status.Paid?
    ensures (exists e' :: Reachable(e, e', true) && !e'.status.PaymentPending?) <==> AnyHopeful(e)
  {
    hide Inv, Reachable, After, Hopeful;
    ReachableIsSound(t, e);
    Start(e);
    if p :| p in e.procs && Hopeful(e, e.procs[p]) {
      var charge := PaidMeansCollected(e, id);
      var e' := HopeFulfilled(e, p, id, charge);
    } else {
      forall e' | Reachable(e, e', true) ensures e'.status.PaymentPending? {
        PaidForNothingEver(e, e', id);
      }
    }
  }

  lemma PaidForNothingEver(e: Escrow, e': Escrow, id: PaymentId)
    requires Inv(e) && PaidForNothing(e, id) && Reachable(e, e', true)
    ensures e'.status.PaymentPending?
  {
    hide Inv, After;
    var more :| After(e, more, true) == Some(e');
    PaidForNothingForever(e, more, id);
  }

  // --- A virtual account that received a wrong amount ------------------------------------------------------

  /** Whatever follows, the row keeps the charge it was bound to, and no other transfer is ever tied to it. */
  lemma BoundForGood(e: Escrow, e': Escrow, id: PaymentId, charge: ChargeRef)
    requires Later(e, e') && id in e.payments && e.payments[id].boundCharge == Some(charge)
    ensures id in e'.payments && e'.payments[id].boundCharge == Some(charge)
      && e'.payments[id].reference == e.payments[id].reference
    ensures forall other :: Tied(e'.payments[id], other) <==> other == e.payments[id].reference || other == charge
  {
    LaterTerms(e, e');
    hide Later;
    assert PaymentKept(e.payments[id], e'.payments[id]);
  }

  lemma PendingOrProtected(e: Escrow)
    requires Inv(e) && e.payments != map[]
    ensures e.status.PaymentPending? || Onward(PaymentProtected, e.status)
  {
    hide LogsAgree, DisputesSound, PayoutSound, ProcessesSound, Collected;
  }

  /**
   A virtual-account payment bound to a charge of a wrong amount keeps it: in every continuation without a
   right charge under the payment's own reference the transaction is still in PAYMENT_PENDING.
   */
  lemma WrongAmountStaysPending(t: Terms, e: Escrow, e': Escrow, id: PaymentId, charge: ChargeRef)
    requires Reachable(Drafted(t), e, true) && Reachable(e, e', true)
    requires id in e.payments && e.payments[id].boundCharge == Some(charge) && Wrong(e, charge)
    requires !Right(e', e.payments[id].reference)
    ensures e'.status.PaymentPending? && id in e'.payments && !e'.payments[id].status.Paid?
    ensures forall other :: Tied(e'.payments[id], other) <==> other == e.payments[id].reference || other == charge
  {
    hide Inv, Later, Reachable, Collected;
    ReachableIsSound(t, e);
    PlaysKeep(e, e');
    LaterTerms(e, e');
    BoundForGood(e, e', id, charge);
    WrongStays(e, e', charge);
    PendingOrProtected(e');
    if Onward(PaymentProtected, e'.status) {
      var i, c := ProtectedFacts(e');
      OnePayment(e');
      assert i == id;
    }
    if e'.payments[id].status.Paid? {
      var c := PaidMeansCollected(e', id);
    }
  }

  /** Exactly when such a payment can still be protected: its own reference does not hold a wrong amount too. */
  lemma WrongAmountRecoversIff(t: Terms, e: Escrow, id: PaymentId, charge: ChargeRef)
    requires Reachable(Drafted(t), e, true) && e.status.PaymentPending?
    requires id in e.payments && !e.payments[id].status.Paid?
      && e.payments[id].boundCharge == Some(charge) && Wrong(e, charge)
    ensures (exists e' :: Reachable(e, e', true) && !e'.status.PaymentPending?) <==> !Wrong(e, e.payments[id].reference)
  {
    hide Inv, Later, Reachable;
    ReachableIsSound(t, e);
    Start(e);
    var own := e.payments[id].reference;
    if !Wrong(e, own) {
      OnePayment(e);
      var e' := VerifyAnew(e, e, id, false);
    } else {
      forall e' | Reachable(e, e', true) ensures e'.status.PaymentPending? {
        PlaysKeep(e, e');
        WrongStays(e, e', own);
        WrongAmountStaysPending(t, e, e', id, charge);
      }
    }
  }

  // --- Such states are reached -----------------------------------------------------------------------------

  /** The payment is marked paid and the process dies before it drives the transition. */
  lemma ProtectionCanBeLost(t: Terms) returns (e: Escrow)
    ensures Reachable(Drafted(t), e, true) && PaidForNothing(e, 0)
  {
    hide Reachable, Advance;
    Start(Drafted(t));
    var e0 := ApplyAlone(t, Drafted(t), SellerPublish, LinkActive, true);
    var e1 := CheckoutAlone(t, e0, true);
    VerdictAlone(t, e1, true);
    e := e1.(payments := OrderPaid(t), charges := e1.charges[ORDER := Charge(Charged, ChargeAmount(t))]);
    var x := Applying(PaymentVerified(ServerVerify), None, false, Stop);
    assert Goto(e, 0, x).procs - {0} == e.procs;
    GoTo(Drafted(t), Goto(e, 0, x), Crash(0), e, true);
  }

  const OWN: ChargeRef := "own"
  const TRANSFER: ChargeRef := "transfer"
  const CUSTOMER: Customer := "customer"

  function Account(t: Terms): Payment { Payment(OWN, None, Some(CUSTOMER), ChargeAmount(t), AwaitingCharge) }

  /** A checked-out virtual account. */
  lemma ReachAccount(t: Terms) returns (e: Escrow)
    ensures Reachable(Drafted(t), e, true) && e.terms == t && e.status.PaymentPending?
    ensures e.payments == map[0 := Account(t)] && e.procs == map[] && e.charges == map[]
  {
    hide Reachable, Advance, Appended, ChargeAmount;
    Start(Drafted(t));
    var e0 := ApplyAlone(t, Drafted(t), SellerPublish, LinkActive, true);
    var x := Applying(BuyerInitiateCheckout, None, false, InsertPayment(true));
    var e1 := Goto(e0, 0, x);
    GoTo(Drafted(t), e0, StartCheckout(0, true), e1, true);
    assert !AnyFreezing(e1);
    Statement(Drafted(t), e1, 0, x, NoInput, true);
    var context := Context(t.releaseRule, false, false);
    var e2 := Goto(e1, 0, Decided(BuyerInitiateCheckout, context, LinkActive, PaymentPending, InsertPayment(true)));
    Statement(Drafted(t), e2, 0, e2.procs[0], NoInput, true);
    var e3 := Proceed(Commit(e2, Edge(LinkActive, BuyerInitiateCheckout, context, PaymentPending)),
      0, InsertPayment(true));
    e := InsertAccount(t, e3);
  }

  lemma InsertAccount(t: Terms, e: Escrow) returns (e': Escrow)
    requires Reachable(Drafted(t), e, true) && e.terms == t
      && e.procs == map[0 := PaymentDue(true)] && e.payments == map[]
    ensures Reachable(Drafted(t), e', true) && e' == e.(payments := map[0 := Account(t)], procs := map[])
  {
    hide Reachable;
    e' := e.(payments := map[0 := Account(t)], procs := map[]);
    assert Advance(e, 0, Minted(0, OWN, Some(CUSTOMER))) == e';
    Act(Drafted(t), e, 0, Minted(0, OWN, Some(CUSTOMER)), true);
  }

  /** A transfer of a wrong amount is bound to the account. */
  lemma WrongAmountCanBind(t: Terms) returns (e: Escrow)
    ensures Reachable(Drafted(t), e, true) && e.status.PaymentPending? && 0 in e.payments
    ensures e.payments[0].boundCharge == Some(TRANSFER) && Wrong(e, TRANSFER) && !Wrong(e, e.payments[0].reference)
  {
    hide Reachable, Advance, ChargeAmount;
    var e0 := ReachAccount(t);
    var short := Charge(Charged, ChargeAmount(t) - 1);
    var e1 := e0.(charges := map[TRANSFER := short]);
    GoTo(Drafted(t), e0, MoveCharge(TRANSFER, short), e1, true);
    var e2 := Goto(e1, 0, ChargeBinding(0, TRANSFER, Webhook));
    assert OwnedBy(e1, 0, Some(CUSTOMER));
    assert RouteCharge(e1, 0, TRANSFER, Some(CUSTOMER)) == e2;
    GoTo(Drafted(t), e1, ChargeEvent(0, TRANSFER, Some(CUSTOMER)), e2, true);
    e := BindNow(t, e2);
  }

  lemma BindNow(t: Terms, e: Escrow) returns (e': Escrow)
    requires Reachable(Drafted(t), e, true) && 0 in e.procs && e.procs[0] == ChargeBinding(0, TRANSFER, Webhook)
    requires e.payments == map[0 := Account(t)]
    ensures Reachable(Drafted(t), e', true)
    ensures e' == e.(payments := map[0 := Account(t).(boundCharge := Some(TRANSFER))], procs := e'.procs)
  {
    hide Reachable;
    e' := BindCharge(e, 0, 0, TRANSFER, Webhook);
    assert Advance(e, 0, NoInput) == e';
    Act(Drafted(t), e, 0, NoInput, true);
  }
}
