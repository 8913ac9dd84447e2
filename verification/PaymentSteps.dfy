/** What one step of one transaction does to its payment rows, to its view of the charges and to binds in flight. */
module PaymentSteps {
  import opened Wrappers
  import opened Machine
  import opened EscrowProtocol
  import opened EscrowInvariant
  import opened EscrowProof

  /** The step inserts a payment row. */
  predicate Inserts(e: Escrow, s: Step) {
    s.Resume? && s.p in e.procs && e.procs[s.p].PaymentDue? && s.input.Minted?
  }

  /** The step binds a charge to a payment row. */
  predicate Binds(e: Escrow, s: Step) {
    && s.Resume? && s.p in e.procs && e.procs[s.p].ChargeBinding?
    && e.procs[s.p].payment in e.payments && e.payments[e.procs[s.p].payment].boundCharge.None?
  }

  /** The statement leaves payment rows alone and starts no bind. */
  ghost predicate Quiet(e: Escrow, e': Escrow, p: ProcessId) {
    && e'.payments == e.payments && e'.charges == e.charges
    && OthersKept(e, e', p)
    && (p in e'.procs ==> !e'.procs[p].ChargeBinding?)
  }

  /** Moving one process on or ending it is quiet. */
  lemma MovesAreQuiet(e: Escrow, p: ProcessId)
    ensures forall b: Escrow, x: Process {:trigger Goto(b, p, x)} ::
      b.payments == e.payments && b.charges == e.charges && b.procs == e.procs && !x.ChargeBinding? ==>
        Quiet(e, Goto(b, p, x), p)
    ensures forall b: Escrow {:trigger Halt(b, p)} ::
      b.payments == e.payments && b.charges == e.charges && b.procs == e.procs ==> Quiet(e, Halt(b, p), p)
  {
  }

  predicate TouchesPayments(x: Process) {
    x.PaymentDue? || x.ChargeBinding? || x.Verdict?
  }

  predicate Sends(x: Process) {
    x.ReleaseRead? || x.ReleaseCleared? || x.Sending? || x.SendErrored? || x.SendConfirmed? || x.SendFailed?
  }

  predicate Settles(x: Process) {
    x.RetryRead? || x.RetryCleared? || x.RetryChecked? || x.Paying? || x.PayWrite? || x.Failing? || x.FailWrite?
  }

  lemma QuietSend(e: Escrow, p: ProcessId, x: Process, input: Input)
    requires p in e.procs && e.procs[p] == x && Suits(e, x, input) && Sends(x)
    ensures Quiet(e, Advance(e, p, input), p)
  {
    hide Goto, Halt, Quiet, SellerSettlement, AnyOpen, Decide, BindCharge, ReadPayment, RecordVerdict, Commit, Proceed,
         CheckPrior, ResetPayout, WritePaid, WriteFailed;
    MovesAreQuiet(e, p);
  }

  lemma QuietSettle(e: Escrow, p: ProcessId, x: Process, input: Input)
    requires p in e.procs && e.procs[p] == x && Suits(e, x, input) && Settles(x)
    ensures Quiet(e, Advance(e, p, input), p)
  {
    hide Goto, Halt, Quiet, AnyOpen, Decide, BindCharge, ReadPayment,
      RecordVerdict, Commit, Proceed, Authorize, CallTransfer,
         RecordSent, RecordSendFailure;
    MovesAreQuiet(e, p);
  }

  lemma QuietRest(e: Escrow, p: ProcessId, x: Process, input: Input)
    requires p in e.procs && e.procs[p] == x && Suits(e, x, input) && !TouchesPayments(x) && !Sends(x) && !Settles(x)
    ensures Quiet(e, Advance(e, p, input), p)
  {
    hide Goto, Halt, Quiet, Transition, AnyFreezing, AnyOpen, OtherFreezing, Authorize, CallTransfer, RecordSent,
         RecordSendFailure, CheckPrior, ResetPayout, WritePaid, WriteFailed, BindCharge, RecordVerdict, Appended;
    MovesAreQuiet(e, p);
  }

  lemma QuietStatement(e: Escrow, p: ProcessId, x: Process, input: Input)
    requires p in e.procs && e.procs[p] == x && Suits(e, x, input) && !TouchesPayments(x)
    ensures Quiet(e, Advance(e, p, input), p)
  {
    hide Advance, Quiet, Suits;
    if Sends(x) {
      QuietSend(e, p, x, input);
    } else if Settles(x) {
      QuietSettle(e, p, x, input);
    } else {
      QuietRest(e, p, x, input);
    }
  }

  // --- Ties -----------------------------------------------------------------------------------

  /** What a statement may do to the ties of a payment row. */
  ghost predicate TiesStep(e: Escrow, e': Escrow, x: Process, input: Input, id: PaymentId)
    requires id in e'.payments
  {
    if id in e.payments
    then
      && e'.payments[id].reference == e.payments[id].reference
      && (|| e'.payments[id].boundCharge == e.payments[id].boundCharge
          || (x.ChargeBinding? && id == x.payment && e.payments[id].boundCharge.None?
              && e'.payments[id].boundCharge == Some(x.charge)))
    else
      && x.PaymentDue? && input.Minted? && id == input.id
      && e'.payments[id].reference == input.reference && e'.payments[id].boundCharge.None?
      && e'.payments[id].customer == input.customer
  }

  /** Every row's ties after a statement; no other process is touched and none starts to bind. */
  ghost predicate TiesAfter(e: Escrow, e': Escrow, p: ProcessId, x: Process, input: Input) {
    && (forall id :: id in e'.payments ==> TiesStep(e, e', x, input, id))
    && e'.charges == e.charges
    && OthersKept(e, e', p) && (p in e'.procs ==> !e'.procs[p].ChargeBinding?)
  }

  lemma QuietTies(e: Escrow, e': Escrow, p: ProcessId, x: Process, input: Input)
    requires Quiet(e, e', p)
    ensures TiesAfter(e, e', p, x, input)
  {
  }

  lemma InsertTies(e: Escrow, p: ProcessId, x: Process, input: Input)
    requires p in e.procs && e.procs[p] == x && Suits(e, x, input) && x.PaymentDue?
    ensures TiesAfter(e, Advance(e, p, input), p, x, input)
  {
    hide Decide, BindCharge, ReadPayment, RecordVerdict, Authorize,
      CallTransfer, RecordSent, RecordSendFailure, CheckPrior,
         ResetPayout, WritePaid, WriteFailed, Commit, Proceed, ChargeAmount, AnyOpen, OtherFreezing;
  }

  lemma BindTies(e: Escrow, p: ProcessId, x: Process, input: Input)
    requires p in e.procs && e.procs[p] == x && Suits(e, x, input) && x.ChargeBinding?
    ensures TiesAfter(e, Advance(e, p, input), p, x, input)
  {
    hide Decide, RecordVerdict, Authorize, CallTransfer, RecordSent, RecordSendFailure, CheckPrior,
         ResetPayout, WritePaid, WriteFailed, Commit, Proceed, ChargeAmount, AnyOpen, OtherFreezing;
  }

  lemma VerdictTies(e: Escrow, p: ProcessId, x: Process, input: Input)
    requires p in e.procs && e.procs[p] == x && Suits(e, x, input) && x.Verdict?
    ensures TiesAfter(e, Advance(e, p, input), p, x, input)
  {
    hide Decide, BindCharge, ReadPayment, Authorize, CallTransfer, RecordSent, RecordSendFailure, CheckPrior,
         ResetPayout, WritePaid, WriteFailed, Commit, Proceed, ChargeAmount, AnyOpen, OtherFreezing;
  }

  lemma StatementTies(e: Escrow, p: ProcessId, x: Process, input: Input)
    requires p in e.procs && e.procs[p] == x && Suits(e, x, input)
    ensures TiesAfter(e, Advance(e, p, input), p, x, input)
  {
    hide Advance, Suits, TiesAfter, Quiet;
    if x.PaymentDue? {
      InsertTies(e, p, x, input);
    } else if x.ChargeBinding? {
      BindTies(e, p, x, input);
    } else if x.Verdict? {
      VerdictTies(e, p, x, input);
    } else {
      QuietStatement(e, p, x, input);
      QuietTies(e, Advance(e, p, input), p, x, input);
    }
  }

  lemma ReadPaymentQuiet(e: Escrow, p: ProcessId, id: PaymentId, charge: ChargeRef, source: PaymentSource)
    requires id in e.payments
    ensures Quiet(e, ReadPayment(e, p, id, charge, source), p)
  {
  }

  /** A charge event starts to verify, starts to bind, or does nothing. */
  lemma RouteChargeTies(e: Escrow, p: ProcessId, charge: ChargeRef, customer: Option<Customer>)
    requires p !in e.procs
    ensures var e' := RouteCharge(e, p, charge, customer);
      || Quiet(e, e', p)
      || (&& !(exists id :: HostedBy(e, id, charge))
          && exists id :: OwnedBy(e, id, customer) && e' == Goto(e, p, ChargeBinding(id, charge, Webhook)))
  {
    hide ReadPayment, Tied;
    if id :| HostedBy(e, id, charge) {
      forall i | HostedBy(e, i, charge) ensures Quiet(e, ReadPayment(e, p, i, charge, Webhook), p) {
        ReadPaymentQuiet(e, p, i, charge, Webhook);
      }
    } else if customer.Some? {
      forall i | BoundTo(e, i, charge) ensures Quiet(e, ReadPayment(e, p, i, charge, Webhook), p) {
        ReadPaymentQuiet(e, p, i, charge, Webhook);
      }
    }
  }

  lemma OtherStartsAreQuiet(e: Escrow, s: Step)
    requires Enabled(e, s) && !s.Resume? && !s.ChargeEvent? && !s.MoveCharge? && !s.SettleTransfer?
    ensures Quiet(e, Do(e, s), s.p)
  {
    hide Advance, Goto, Halt, RouteCharge, Suits, Tied, Freezing;
    MovesAreQuiet(e, s.p);
  }

  lemma StartsLeavePayments(e: Escrow, s: Step)
    requires Enabled(e, s) && !s.Resume?
    ensures Do(e, s).payments == e.payments && (!s.MoveCharge? ==> Do(e, s).charges == e.charges)
  {
    hide Advance, Do, Enabled, RouteCharge;
    if s.ChargeEvent? {
      ChargeEventRoutes(e, s);
      RouteChargeTies(e, s.p, s.charge, s.customer);
    } else if s.MoveCharge? || s.SettleTransfer? {
      ProviderSteps(e, s);
    } else {
      OtherStartsAreQuiet(e, s);
    }
  }

  lemma ProviderSteps(e: Escrow, s: Step)
    requires Enabled(e, s) && (s.MoveCharge? || s.SettleTransfer?)
    ensures Do(e, s).payments == e.payments && Do(e, s).procs == e.procs
      && (s.SettleTransfer? ==> Do(e, s).charges == e.charges)
  {
    hide Advance, RouteCharge;
  }

  lemma ChargeEventRoutes(e: Escrow, s: Step)
    requires Enabled(e, s) && s.ChargeEvent?
    ensures s.p !in e.procs && Do(e, s) == RouteCharge(e, s.p, s.charge, s.customer)
  {
    hide RouteCharge, Advance, Suits;
  }

  lemma ResumeAdvances(e: Escrow, s: Step)
    requires Enabled(e, s) && s.Resume?
    ensures s.p in e.procs && Suits(e, e.procs[s.p], s.input) && Do(e, s) == Advance(e, s.p, s.input)
  {
    hide Advance, Suits;
  }

  /** The provider's charges move only in the provider's own step. */
  lemma ChargesFrom(e: Escrow, s: Step)
    requires Enabled(e, s) && !s.MoveCharge?
    ensures Do(e, s).charges == e.charges
  {
    hide Do, Enabled, Advance, Suits, TiesStep;
    if s.Resume? {
      ResumeAdvances(e, s);
      StatementTies(e, s.p, e.procs[s.p], s.input);
    } else {
      StartsLeavePayments(e, s);
    }
  }

  /** A step ties a payment to a charge only by inserting it or by binding it. */
  lemma TiesFrom(e: Escrow, s: Step, id: PaymentId, charge: ChargeRef)
    requires Enabled(e, s) && id in Do(e, s).payments && Tied(Do(e, s).payments[id], charge)
    ensures || (id in e.payments && Tied(e.payments[id], charge))
            || (Inserts(e, s) && s.input.reference == charge)
            || (Binds(e, s) && e.procs[s.p].charge == charge)
    ensures id in e.payments ==> Do(e, s).payments[id].reference == e.payments[id].reference
    ensures id !in e.payments ==> Inserts(e, s) && Do(e, s).payments[id].reference == s.input.reference
  {
    hide Advance, Do, Enabled, Suits;
    if s.Resume? {
      ResumeAdvances(e, s);
      StatementTies(e, s.p, e.procs[s.p], s.input);
      assert TiesStep(e, Do(e, s), e.procs[s.p], s.input, id);
    } else {
      StartsLeavePayments(e, s);
    }
  }

  /** A row is new only if this step inserts it, with the customer it brings. */
  lemma RowsFrom(e: Escrow, s: Step, id: PaymentId)
    requires Enabled(e, s) && id in Do(e, s).payments && id !in e.payments
    ensures Inserts(e, s) && id == s.input.id && Do(e, s).payments[id].customer == s.input.customer
  {
    hide Advance, Do, Enabled, Suits;
    if s.Resume? {
      ResumeAdvances(e, s);
      StatementTies(e, s.p, e.procs[s.p], s.input);
      assert TiesStep(e, Do(e, s), e.procs[s.p], s.input, id);
    } else {
      StartsLeavePayments(e, s);
    }
  }

  lemma InsertsRow(e: Escrow, s: Step)
    requires Enabled(e, s) && Inserts(e, s)
    ensures s.input.id !in e.payments
    ensures s.input.id in Do(e, s).payments && Do(e, s).payments[s.input.id].customer == s.input.customer
  {
    hide Decide, BindCharge, ReadPayment, RecordVerdict, Authorize,
      CallTransfer, RecordSent, RecordSendFailure, CheckPrior,
         ResetPayout, WritePaid, WriteFailed, Commit, Proceed, ChargeAmount,
           AnyOpen, OtherFreezing, RouteCharge, ReceiveOutcome;
  }

  // --- Binds in flight ------------------------------------------------------------------------

  /** A bind starts only from a charge event that no hosted payment claims. */
  lemma BindingsFrom(e: Escrow, s: Step, q: ProcessId)
    requires Enabled(e, s) && q in Do(e, s).procs && Do(e, s).procs[q].ChargeBinding?
    ensures || (q in e.procs && e.procs[q] == Do(e, s).procs[q])
            || (s.ChargeEvent? && s.charge == Do(e, s).procs[q].charge && !exists id :: HostedBy(e, id, s.charge))
  {
    hide Advance, Do, Enabled, Suits, TiesStep;
    if s.Resume? {
      ResumeAdvances(e, s);
      StatementTies(e, s.p, e.procs[s.p], s.input);
    } else if s.ChargeEvent? {
      hide RouteCharge, HostedBy, OwnedBy;
      ChargeEventRoutes(e, s);
      RouteChargeTies(e, s.p, s.charge, s.customer);
    } else if s.MoveCharge? || s.SettleTransfer? {
      ProviderSteps(e, s);
    } else {
      OtherStartsAreQuiet(e, s);
    }
  }

  // --- What can undo a paid row ---------------------------------------------------------------

  lemma PaymentStatement(e: Escrow, p: ProcessId, x: Process, input: Input, id: PaymentId)
    requires p in e.procs && e.procs[p] == x && Suits(e, x, input) && TouchesPayments(x)
    requires id in e.payments && e.payments[id].status.Paid?
    ensures id in Advance(e, p, input).payments
    ensures Advance(e, p, input).payments[id].status.Paid? <==>
      !(x.Verdict? && x.payment == id && !x.answer.state.Charged?)
  {
    hide Decide, Authorize, CallTransfer, RecordSent, RecordSendFailure,
      CheckPrior, ResetPayout, WritePaid, WriteFailed,
         Commit, Proceed, ChargeAmount, Tied, AnyOpen, OtherFreezing;
  }

  /**
   Exactly which statement can undo a paid row, in any interleaving: a verdict read from the provider
   before the charge succeeded and written after another process marked the row paid.
   */
  lemma PaidRowUndoneIff(e: Escrow, s: Step, id: PaymentId)
    requires Enabled(e, s) && id in e.payments && e.payments[id].status.Paid?
    ensures id in Do(e, s).payments
    ensures !Do(e, s).payments[id].status.Paid?
      <==> s.Resume? && e.procs[s.p].Verdict? && e.procs[s.p].payment == id && !e.procs[s.p].answer.state.Charged?
  {
    hide Advance, Suits;
    if !s.Resume? {
      StartsLeavePayments(e, s);
    } else if TouchesPayments(e.procs[s.p]) {
      PaymentStatement(e, s.p, e.procs[s.p], s.input, id);
    } else {
      QuietStatement(e, s.p, e.procs[s.p], s.input);
    }
  }
}
