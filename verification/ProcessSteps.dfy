/** Where the processes and dispute rows that a step leaves behind come from. */
module ProcessSteps {
  import opened Wrappers
  import opened Machine
  import opened EscrowProtocol
  import opened EscrowInvariant
  import opened EscrowProof
  import opened PaymentSteps

  /** The process still owes a row to a committed status. */
  predicate Owes(x: Process) { x.PaymentDue? || x.DisputeDue? || x.DisputeClosing? }

  /** The process is on its way from a provider's answer to protection. */
  predicate Verifies(x: Process) {
    x.Verifying? || x.Verdict? || (x.Applying? && x.event.PaymentVerified?) || (x.Decided? && x.event.PaymentVerified?)
  }

  predicate Plain(x: Process) { !Owes(x) && !Verifies(x) }

  /** Only process `p` moves, to a plain process if it goes on, and no dispute changes. */
  ghost predicate PlainMove(e: Escrow, e': Escrow, p: ProcessId) {
    OthersKept(e, e', p) && (p in e'.procs ==> Plain(e'.procs[p])) && e'.disputes == e.disputes
  }

  lemma MovesArePlain(e: Escrow, p: ProcessId)
    ensures forall b: Escrow, x: Process {:trigger Goto(b, p, x)} ::
      b.procs == e.procs && b.disputes == e.disputes && Plain(x) ==> PlainMove(e, Goto(b, p, x), p)
    ensures forall b: Escrow {:trigger Halt(b, p)} ::
      b.procs == e.procs && b.disputes == e.disputes ==> PlainMove(e, Halt(b, p), p)
  {
  }

  lemma PlainSend(e: Escrow, p: ProcessId, x: Process, input: Input)
    requires p in e.procs && e.procs[p] == x && Suits(e, x, input) && Sends(x)
    ensures PlainMove(e, Advance(e, p, input), p)
  {
    hide Goto, Halt, PlainMove, SellerSettlement, AnyOpen, Decide,
      BindCharge, ReadPayment, RecordVerdict, Commit, Proceed,
         CheckPrior, ResetPayout, WritePaid, WriteFailed;
    MovesArePlain(e, p);
  }

  lemma PlainSettle(e: Escrow, p: ProcessId, x: Process, input: Input)
    requires p in e.procs && e.procs[p] == x && Suits(e, x, input) && Settles(x)
    ensures PlainMove(e, Advance(e, p, input), p)
  {
    hide Goto, Halt, PlainMove, AnyOpen, Decide, BindCharge, ReadPayment, RecordVerdict, Commit, Proceed, Authorize,
         CallTransfer, RecordSent, RecordSendFailure;
    MovesArePlain(e, p);
  }

  lemma PlainOther(e: Escrow, p: ProcessId, x: Process, input: Input)
    requires p in e.procs && e.procs[p] == x && Suits(e, x, input)
    requires x.PaymentDue? || (x.ResolveRead?)
    ensures PlainMove(e, Advance(e, p, input), p)
  {
    hide Goto, Halt, PlainMove, OtherFreezing, ChargeAmount, AnyOpen,
      Decide, BindCharge, ReadPayment, RecordVerdict, Commit,
         Proceed, Authorize, CallTransfer, RecordSent, RecordSendFailure,
           CheckPrior, ResetPayout, WritePaid, WriteFailed;
    MovesArePlain(e, p);
  }

  lemma PlainStart(e: Escrow, s: Step)
    requires Enabled(e, s) && !s.Resume? && !s.ChargeEvent? && !s.StartVerify? && !s.MoveCharge? && !s.SettleTransfer?
    ensures PlainMove(e, Do(e, s), s.p)
  {
    hide Advance, Goto, Halt, RouteCharge, ReadPayment, Suits, Tied, Freezing, PlainMove;
    MovesArePlain(e, s.p);
    StandsStill(e, e, s.p);
    if s.OutcomeEvent? {
      StandsStill(e, e.(seen := e.seen + {s.attempt}), s.p);
    }
  }

  lemma StandsStill(e: Escrow, e': Escrow, p: ProcessId)
    requires e'.procs == e.procs && e'.disputes == e.disputes
    ensures p !in e.procs ==> PlainMove(e, e', p)
  {
  }

  /** What a step may add: a row owed by this very commit, or a verification taken one statement further. */
  ghost predicate Accounted(e: Escrow, s: Step, q: ProcessId, y: Process) {
    || (q in e.procs && y == e.procs[q])
    || Plain(y)
    || (&& s.Resume? && q == s.p && q in e.procs && e.procs[q].Decided? && e.procs[q].from == e.status
        && (y.PaymentDue? ==> e.procs[q].after.InsertPayment?)
        && (y.DisputeDue? ==> e.procs[q].after.InsertDispute?)
        && (y.DisputeClosing? ==> e.procs[q].after == CloseDispute(y.dispute, y.forSeller)) && !Verifies(y))
    || (Verifies(y) && Continues(e, s, q, y))
  }

  ghost predicate Continues(e: Escrow, s: Step, q: ProcessId, y: Process) {
    || (y.Verifying? && y.payment in e.payments && !e.payments[y.payment].status.Paid?)
    || (&& s.Resume? && q == s.p && q in e.procs
        && var x := e.procs[q];
           || (x.Verifying? && y.Verdict? && y.payment == x.payment
                && x.charge in e.charges && y.answer == e.charges[x.charge])
           || (x.Verdict? && y.Applying? && x.payment in e.payments
                && x.answer == Charge(Charged, e.payments[x.payment].amount))
           || (x.Applying? && x.event.PaymentVerified? && y.Decided?))
  }

  /** Every process after the step is accounted for, and a dispute row is written only by a process that owes it. */
  ghost predicate StepAccounted(e: Escrow, s: Step, e': Escrow) {
    && (forall q :: q in e'.procs ==> Accounted(e, s, q, e'.procs[q]))
    && (e'.disputes == e.disputes
        || (s.Resume? && s.p in e.procs && e.procs[s.p].DisputeDue? && s.input.Minted? && s.input.id !in e.disputes
            && e'.disputes == e.disputes[s.input.id := Open])
        || (s.Resume? && s.p in e.procs && e.procs[s.p].DisputeClosing? && e.procs[s.p].dispute in e.disputes
            && e.procs[s.p].dispute in e'.disputes
            && e'.disputes == e.disputes[e.procs[s.p].dispute := e'.disputes[e.procs[s.p].dispute]]))
  }

  lemma PlainIsAccounted(e: Escrow, s: Step, e': Escrow, p: ProcessId)
    requires PlainMove(e, e', p)
    ensures StepAccounted(e, s, e')
  {
    hide Continues, Plain;
  }

  lemma NothingMoved(e: Escrow, s: Step, e': Escrow)
    requires e'.procs == e.procs && e'.disputes == e.disputes
    ensures StepAccounted(e, s, e')
  {
    hide Plain, Continues;
  }

  lemma GotoAccounted(e: Escrow, s: Step, p: ProcessId, y: Process)
    requires Accounted(e, s, p, y)
    ensures StepAccounted(e, s, Goto(e, p, y))
  {
    hide Plain, Continues;
  }

  lemma HaltAccounted(e: Escrow, s: Step, e': Escrow, p: ProcessId)
    requires e'.procs == e.procs - {p} && e'.disputes == e.disputes
    ensures StepAccounted(e, s, e')
  {
    hide Plain, Continues;
  }

  lemma ReadAccounted(e: Escrow, s: Step, p: ProcessId, id: PaymentId, charge: ChargeRef, source: PaymentSource)
    requires id in e.payments
    ensures StepAccounted(e, s, ReadPayment(e, p, id, charge, source))
  {
    hide StepAccounted, Accounted;
    if e.payments[id].status.Paid? {
      HaltAccounted(e, s, Halt(e, p), p);
    } else {
      ReadingAccounted(e, s, p, id, charge, source);
      GotoAccounted(e, s, p, Verifying(id, charge, source));
    }
  }

  lemma ReadingAccounted(e: Escrow, s: Step, p: ProcessId, id: PaymentId, charge: ChargeRef, source: PaymentSource)
    requires id in e.payments && !e.payments[id].status.Paid?
    ensures Accounted(e, s, p, Verifying(id, charge, source))
  {
  }

  lemma RouteAccounted(e: Escrow, s: Step, p: ProcessId, charge: ChargeRef, customer: Option<Customer>)
    ensures StepAccounted(e, s, RouteCharge(e, p, charge, customer))
  {
    hide StepAccounted, ReadPayment, RouteCharge, Tied;
    RouteChargeIs(e, p, charge, customer);
    var e' := RouteCharge(e, p, charge, customer);
    if e' == e {
      NothingMoved(e, s, e);
    } else if id :| id in e.payments && Tied(e.payments[id], charge) && e' == ReadPayment(e, p, id, charge, Webhook) {
      ReadAccounted(e, s, p, id, charge, Webhook);
    } else {
      var id :| id in e.payments && e' == Goto(e, p, ChargeBinding(id, charge, Webhook));
      GotoAccounted(e, s, p, ChargeBinding(id, charge, Webhook));
    }
  }

  lemma StartAccounted(e: Escrow, s: Step)
    requires Enabled(e, s) && !s.Resume?
    ensures StepAccounted(e, s, Do(e, s))
  {
    hide Advance, RouteCharge, ReadPayment, StepAccounted, Suits, Tied;
    if s.ChargeEvent? {
      RouteAccounted(e, s, s.p, s.charge, s.customer);
    } else if s.StartVerify? {
      var row := e.payments[s.payment];
      ReadAccounted(e, s, s.p, s.payment, if s.bound then row.boundCharge.GetOr(row.reference)
        else row.reference, ServerVerify);
    } else if s.MoveCharge? || s.SettleTransfer? {
      NothingMoved(e, s, Do(e, s));
    } else {
      PlainStart(e, s);
      PlainIsAccounted(e, s, Do(e, s), s.p);
    }
  }

  lemma ApplyingAccounted(e: Escrow, s: Step, x: Process)
    requires s.Resume? && s.p in e.procs && e.procs[s.p] == x && x.Applying?
    ensures StepAccounted(e, s, Decide(e, s.p, x.event, x.override, x.elapsed, x.after))
  {
    hide StepAccounted, AnyFreezing;
    var context := Context(e.terms.releaseRule, x.override.GetOr(AnyFreezing(e)), x.elapsed);
    match Transition(e.status, x.event, context) {
      case Reject(_) => HaltAccounted(e, s, Halt(e, s.p), s.p);
      case Accept(to) => GotoAccounted(e, s, s.p, Decided(x.event, context, e.status, to, x.after));
    }
  }

  lemma DecidedAccounted(e: Escrow, s: Step, x: Process)
    requires s.Resume? && s.p in e.procs && e.procs[s.p] == x && x.Decided? && e.status == x.from
    ensures StepAccounted(e, s, Proceed(Commit(e, Edge(x.from, x.event, x.context, x.to)), s.p, x.after))
  {
    hide Appended, Continues;
  }

  lemma BindAccounted(e: Escrow, s: Step, x: Process)
    requires s.Resume? && s.p in e.procs && e.procs[s.p] == x && x.ChargeBinding?
    ensures StepAccounted(e, s, BindCharge(e, s.p, x.payment, x.charge, x.source))
  {
    hide ReadPayment, StepAccounted;
    if x.payment in e.payments && e.payments[x.payment].boundCharge.None? {
      GotoBoundAccounted(e, s, x);
    } else if winner :| BoundTo(e, winner, x.charge) {
      forall w | BoundTo(e, w, x.charge) ensures StepAccounted(e, s, ReadPayment(e, s.p, w, x.charge, x.source)) {
        ReadAccounted(e, s, s.p, w, x.charge, x.source);
      }
    } else {
      HaltAccounted(e, s, Halt(e, s.p), s.p);
    }
  }

  lemma GotoBoundAccounted(e: Escrow, s: Step, x: Process)
    requires s.Resume? && s.p in e.procs && e.procs[s.p] == x && x.ChargeBinding?
    requires x.payment in e.payments && e.payments[x.payment].boundCharge.None?
    ensures StepAccounted(e, s, BindCharge(e, s.p, x.payment, x.charge, x.source))
  {
    hide Continues, ReadPayment;
  }

  lemma VerdictAccounted(e: Escrow, s: Step, x: Process)
    requires s.Resume? && s.p in e.procs && e.procs[s.p] == x && x.Verdict? && x.payment in e.payments
    ensures StepAccounted(e, s, RecordVerdict(e, s.p, x.payment, x.source, x.answer))
  {
    var y := Applying(PaymentVerified(x.source), None, false, Stop);
    assert x.answer == Charge(Charged, e.payments[x.payment].amount) ==> Continues(e, s, s.p, y);
    hide Continues;
  }

  lemma WriteDisputeAccounted(e: Escrow, s: Step, x: Process)
    requires Enabled(e, s) && s.Resume? && s.p in e.procs && e.procs[s.p] == x && (x.DisputeDue? || x.DisputeClosing?)
    ensures StepAccounted(e, s, Do(e, s))
  {
    hide Continues, Decide, BindCharge, ReadPayment, RecordVerdict,
      Commit, Proceed, Authorize, CallTransfer, RecordSent,
         RecordSendFailure, CheckPrior, ResetPayout, WritePaid, WriteFailed, AnyOpen, OtherFreezing, ChargeAmount;
  }

  lemma StatementAccounted(e: Escrow, s: Step, x: Process)
    requires Enabled(e, s) && s.Resume? && s.p in e.procs && e.procs[s.p] == x
    ensures StepAccounted(e, s, Do(e, s))
  {
    hide StepAccounted, Do, Enabled, Suits;
    ResumeAdvances(e, s);
    if Sends(x) {
      PlainSend(e, s.p, x, s.input);
      PlainIsAccounted(e, s, Do(e, s), s.p);
    } else if Settles(x) {
      PlainSettle(e, s.p, x, s.input);
      PlainIsAccounted(e, s, Do(e, s), s.p);
    } else if x.PaymentDue? || x.ResolveRead? {
      PlainOther(e, s.p, x, s.input);
      PlainIsAccounted(e, s, Do(e, s), s.p);
    } else if x.DisputeDue? || x.DisputeClosing? {
      WriteDisputeAccounted(e, s, x);
    } else {
      VerifyingAccounted(e, s, x);
    }
  }

  lemma VerifyingAccounted(e: Escrow, s: Step, x: Process)
    requires Enabled(e, s) && s.Resume? && s.p in e.procs && e.procs[s.p] == x && Suits(e, x, s.input)
    requires x.Applying? || x.Decided? || x.ChargeBinding? || x.ChargeBound? || x.Verifying? || x.Verdict?
    ensures StepAccounted(e, s, Advance(e, s.p, s.input))
  {
    hide StepAccounted, Decide, BindCharge, ReadPayment, RecordVerdict, Commit, Proceed, Accounted;
    HaltAccounted(e, s, Halt(e, s.p), s.p);
    match x
    case Applying(_, _, _, _) => ApplyingAccounted(e, s, x);
    case Decided(_, _, _, _, _) => if e.status == x.from { DecidedAccounted(e, s, x); }
    case ChargeBinding(_, _, _) => BindAccounted(e, s, x);
    case ChargeBound(id, charge, source) => if id in e.payments { ReadAccounted(e, s, s.p, id, charge, source); }
    case Verifying(id, charge, source) =>
      if charge in e.charges {
        AnswerAccounted(e, s, x);
        GotoAccounted(e, s, s.p, Verdict(id, charge, source, e.charges[charge]));
      }
    case Verdict(_, _, _, _) => if x.payment in e.payments { VerdictAccounted(e, s, x); }
  }

  lemma AnswerAccounted(e: Escrow, s: Step, x: Process)
    requires s.Resume? && s.p in e.procs && e.procs[s.p] == x && x.Verifying? && x.charge in e.charges
    ensures Accounted(e, s, s.p, Verdict(x.payment, x.charge, x.source, e.charges[x.charge]))
  {
  }

  lemma AnyStepAccounted(e: Escrow, s: Step)
    requires Enabled(e, s)
    ensures StepAccounted(e, s, Do(e, s))
  {
    hide StepAccounted, Do;
    if s.Resume? {
      assert s.p in e.procs;
      hide Enabled;
      StatementAccounted(e, s, e.procs[s.p]);
    } else {
      hide Enabled;
      StartAccounted(e, s);
    }
  }
}
