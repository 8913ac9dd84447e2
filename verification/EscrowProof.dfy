/** Every step of the protocol keeps the invariant and only moves forward. */
module EscrowProof {
  import opened Wrappers
  import opened Machine
  import opened EscrowProtocol
  import opened EscrowInvariant

  /** A retry starts only if every retry that has not reset the row yet has read the attempt count it reads now. */
  ghost predicate CountsAgree(e: Escrow, s: Step) {
    s.StartRetry? && RowFailed(e.payout) ==>
      forall q :: q in e.procs && BeforeReset(e.procs[q]) ==> e.procs[q].row.attempts == e.payout.value.attempts
  }

  /** `e` and `e'` agree on what every process other than `p` is doing. */
  ghost predicate OthersKept(e: Escrow, e': Escrow, p: ProcessId) {
    forall q :: q in e'.procs && q != p ==> q in e.procs && e'.procs[q] == e.procs[q]
  }

  /** `x` can run beside every process of `e` other than `p`. */
  ghost predicate Fits(e: Escrow, p: ProcessId, x: Process) {
    forall q :: q in e.procs && q != p ==> Apart(e.procs[q], x) && Apart(x, e.procs[q])
  }

  ghost predicate OthersExclude(e: Escrow, e': Escrow, p: ProcessId) {
    forall q :: q in e.procs && q != p ==> Excludes(e', e.procs[q])
  }

  lemma ProcessesStaySound(e: Escrow, e': Escrow, p: ProcessId)
    requires ProcessesSound(e) && Later(e, e') && OthersKept(e, e', p) && OthersExclude(e, e', p)
    requires p in e'.procs ==> Knows(e', e'.procs[p]) && Excludes(e', e'.procs[p]) && Fits(e, p, e'.procs[p])
    ensures ProcessesSound(e')
  {
    hide Later, Excludes;
    forall q | q in e'.procs ensures Knows(e', e'.procs[q]) {
      if q != p {
        assert Knows(e, e.procs[q]);
        KnowsStays(e, e', e.procs[q]);
      }
    }
    hide Knows, Apart;
  }

  /** The same when no process moves. */
  lemma BystandersStaySound(e: Escrow, e': Escrow)
    requires ProcessesSound(e) && Later(e, e') && e'.procs == e.procs
    requires forall q :: q in e.procs ==> Excludes(e', e.procs[q])
    ensures ProcessesSound(e')
  {
    hide Later, Excludes, Apart;
    forall q | q in e'.procs ensures Knows(e', e'.procs[q]) {
      KnowsStays(e, e', e.procs[q]);
    }
    hide Knows;
  }

  ghost predicate SameRows(e: Escrow, e': Escrow) {
    e' == e.(procs := e'.procs)
  }

  /** A step that changes no row: only process `p` moves. */
  lemma MoveKeeps(e: Escrow, e': Escrow, p: ProcessId)
    requires Inv(e) && SameRows(e, e') && OthersKept(e, e', p)
    requires p in e'.procs ==> Knows(e', e'.procs[p]) && Excludes(e', e'.procs[p]) && Fits(e, p, e'.procs[p])
    ensures Later(e, e') && Inv(e')
  {
    assert OthersExclude(e, e', p) by {
      hide LogsAgree, PaymentsSound, DisputesSound, PayoutSound, Knows,
        Apart, LossSeen, NoRetrySent, OnlyRetry, RowFailed;
    }
    assert Later(e, e') by {
      hide Inv, Knows, Excludes, Apart;
    }
    hide LogsAgree, PaymentsSound, DisputesSound, PayoutSound, Knows, Excludes, Apart, Later;
    ProcessesStaySound(e, e', p);
  }

  lemma HaltKeeps(e: Escrow, p: ProcessId)
    requires Inv(e)
    ensures Later(e, Halt(e, p)) && Inv(Halt(e, p))
  {
    hide Inv, Later;
    MoveKeeps(e, Halt(e, p), p);
  }

  lemma GotoKeeps(e: Escrow, p: ProcessId, x: Process)
    requires Inv(e) && Knows(e, x) && Excludes(e, x) && Fits(e, p, x)
    ensures Later(e, Goto(e, p, x)) && Inv(Goto(e, p, x))
  {
    var e' := Goto(e, p, x);
    assert Excludes(e', x) by { hide Inv, Knows, LossSeen, NoRetrySent, OnlyRetry, RowFailed; }
    assert Later(e, e') by { hide Inv, Knows, Excludes; }
    hide Inv, Later, Knows, Excludes, Fits;
    KnowsStays(e, e', x);
    MoveKeeps(e, e', p);
  }

  /** A process kind that excludes nothing fits beside all others. */
  predicate Sociable(x: Process) {
    !x.PaymentDue? && !x.DisputeDue? && !FailurePending(x) && !Retrying(x)
  }

  lemma SociableFits(e: Escrow, p: ProcessId, x: Process)
    requires Sociable(x)
    ensures Excludes(e, x) && Fits(e, p, x)
  {
  }

  lemma MeetKeeps(e: Escrow, p: ProcessId, x: Process)
    requires Inv(e) && Knows(e, x) && Sociable(x)
    ensures Later(e, Goto(e, p, x)) && Inv(Goto(e, p, x))
  {
    hide Inv, Later, Knows, Excludes, Sociable;
    SociableFits(e, p, x);
    GotoKeeps(e, p, x);
  }

  /** What the invariant says about the process about to move. */
  lemma Mover(e: Escrow, p: ProcessId)
    requires Inv(e) && p in e.procs
    ensures Knows(e, e.procs[p]) && Excludes(e, e.procs[p]) && Fits(e, p, e.procs[p])
  {
    hide LogsAgree, PaymentsSound, DisputesSound, PayoutSound, Knows, Excludes, Apart;
  }

  // --- apply -----------------------------------------------------------------------------

  lemma DecideKeeps(e: Escrow, p: ProcessId)
    requires Inv(e) && p in e.procs && e.procs[p].Applying?
    ensures var x := e.procs[p]; var e' := Decide(e, p, x.event, x.override, x.elapsed, x.after);
      Later(e, e') && Inv(e')
  {
    hide Later, Inv, Excludes, Justified, Transition, Fits;
    Mover(e, p);
    var x := e.procs[p];
    var context := Context(e.terms.releaseRule, x.override.GetOr(AnyFreezing(e)), x.elapsed);
    match Transition(e.status, x.event, context)
    case Reject(_) => HaltKeeps(e, p);
    case Accept(to) => MeetKeeps(e, p, Decided(x.event, context, e.status, to, x.after));
  }

  /** The context the machine would be given at this moment for a decision already taken. */
  ghost function ContextNow(e: Escrow, x: Process): Context
    requires x.Decided?
  {
    Context(e.terms.releaseRule,
            if x.after.CloseDispute? then OtherFreezing(e, x.after.id) else AnyFreezing(e),
            x.context.autoConfirmWindowElapsed)
  }

  /** A stale decision that still finds its status is the decision that would be taken now. */
  lemma CommitIsFresh(e: Escrow, p: ProcessId)
    requires Inv(e) && p in e.procs && e.procs[p].Decided? && e.status == e.procs[p].from
    ensures Transition(e.status, e.procs[p].event, ContextNow(e, e.procs[p])) == Accept(e.procs[p].to)
  {
    hide LogsAgree, PaymentsSound, PayoutSound, Excludes, Apart, LossSeen;
    var x := e.procs[p];
    assert Knows(e, x);
    if e.status.ConfirmationPending? {
      assert e.disputes == map[];
    }
  }

  lemma PathGrows(es: seq<Edge>, edge: Edge)
    requires PathFromDraft(es) && edge.from == LastStatus(es)
    requires Transition(edge.from, edge.event, edge.context) == Accept(edge.to)
    ensures PathFromDraft(es + [edge]) && LastStatus(es + [edge]) == edge.to
  {
    hide Transition;
  }

  lemma CommitKeepsLogs(t: Terms, status: Status, logs: Logs, edge: Edge)
    requires LogsAgree(t, status, logs) && edge.from == status && Shipped(edge.event)
    requires Transition(edge.from, edge.event, edge.context) == Accept(edge.to)
    ensures LogsAgree(t, edge.to, Appended(t, logs, edge)) && LogsExtended(logs, Appended(t, logs, edge))
  {
    hide Transition, Shipped, PathFromDraft, OutboxRows, TypeOf;
    PathGrows(logs.commits, edge);
    var es := logs.commits + [edge];
    assert es[|es| - 1] == edge && es[..|es| - 1] == logs.commits;
  }

  /** What committing a shipped event means for the rows, one conclusion per row group. */
  lemma CommitConsequences(e: Escrow, x: Process)
    requires Inv(e) && x.Decided? && Knows(e, x) && e.status == x.from
    ensures Onward(e.status, x.to) && e.status != x.to
    ensures Onward(PaymentProtected, x.to) ==> Collected(e.terms, e.payments, e.charges)
    ensures x.to.Completed? ==> Disbursed(e.transfers)
    ensures Releasing(e.status) ==> Releasing(x.to)
    ensures e.payments != map[] ==> Onward(PaymentPending, x.to)
    ensures e.disputes != map[] ==> Onward(Disputed, x.to)
    ensures x.after.InsertPayment? ==> e.payments == map[] && x.to.PaymentPending?
    ensures x.to.PaymentPending? ==> x.after.InsertPayment?
    ensures x.after.InsertDispute? ==> e.disputes == map[] && x.to.Disputed?
    ensures x.after.CloseDispute? ==> x.to == if x.after.forSeller then ReleaseProcessing else Refunded
    ensures e.status.Disputed? ==> e.disputes != map[]
    ensures Shipped(x.event) && Transition(x.from, x.event, x.context) == Accept(x.to)
    ensures x.after.CloseDispute? ==> x.after.id in e.disputes
    ensures x.after.InsertPayment? ==> e.status.LinkActive?
    ensures x.after.InsertDispute? ==> !e.status.Disputed?
  {
    hide LogsAgree, ProcessesSound, LossSeen, NoRetrySent, OnlyRetry, RowFailed, Collected, Disbursed;
  }

  lemma CommitKeepsRows(e: Escrow, x: Process)
    requires Inv(e) && x.Decided? && Knows(e, x) && e.status == x.from
    ensures PaymentsSound(e.terms, x.to, e.payments, e.charges)
    ensures DisputesSound(x.to, e.disputes)
    ensures PayoutSound(e.terms, x.to, e.payout, e.transfers, e.seen)
  {
    hide LogsAgree, Knows, ProcessesSound, LossSeen, NoRetrySent, OnlyRetry, RowFailed, Collected, Disbursed;
    CommitConsequences(e, x);
  }

  lemma CommitKeepsExclusions(e: Escrow, e': Escrow, p: ProcessId)
    requires Inv(e) && p in e.procs && e.procs[p].Decided? && e.status == e.procs[p].from
    requires SameRows(e.(status := e.procs[p].to, logs := e'.logs), e')
    ensures OthersExclude(e, e', p)
  {
    var x := e.procs[p];
    hide LogsAgree, PaymentsSound, DisputesSound, PayoutSound, LossSeen,
      NoRetrySent, OnlyRetry, RowFailed, Knows, Apart;
    Mover(e, p);
    CommitConsequences(e, x);
  }

  /** Nobody is about to insert a payment before checkout, or a dispute outside Disputed. */
  lemma NoneDue(e: Escrow)
    requires Inv(e)
    ensures e.status.LinkActive? ==> forall q :: q in e.procs ==> !e.procs[q].PaymentDue?
    ensures !e.status.Disputed? ==> forall q :: q in e.procs ==> !e.procs[q].DisputeDue?
  {
    hide LogsAgree, PaymentsSound, DisputesSound, PayoutSound, Apart,
      Justified, Transition, LossSeen, NoRetrySent, OnlyRetry, RowFailed;
  }

  lemma CommitLeadsOn(e: Escrow, p: ProcessId, x: Process, y: Process, e': Escrow)
    requires Inv(e) && p in e.procs && e.procs[p] == x && x.Decided? && e.status == x.from && Knows(e, x)
    requires e'.status == x.to && e'.disputes == e.disputes && e'.payments == e.payments
    requires match x.after
      case Stop => false
      case InsertPayment(virtualAccount) => y == PaymentDue(virtualAccount)
      case InsertDispute => y == DisputeDue
      case CloseDispute(d, forSeller) => y == DisputeClosing(d, forSeller)
    ensures Knows(e', y) && Excludes(e', y) && Fits(e, p, y)
  {
    hide LogsAgree, PaymentsSound, PayoutSound, DisputesSound, ProcessesSound, Transition, Justified, Shipped, Inv;
    CommitConsequences(e, x);
    NoneDue(e);
  }

  lemma CommitIsLater(e: Escrow, e': Escrow)
    requires e' == e.(status := e'.status, logs := e'.logs, procs := e'.procs)
    requires Onward(e.status, e'.status) && LogsExtended(e.logs, e'.logs)
    ensures Later(e, e')
  {
    hide LogsExtended, Onward;
  }

  lemma CommitKeeps(e: Escrow, p: ProcessId, x: Process, e': Escrow)
    requires Inv(e) && p in e.procs && e.procs[p] == x && x.Decided? && e.status == x.from
    requires e' == Proceed(Commit(e, Edge(x.from, x.event, x.context, x.to)), p, x.after)
    ensures Later(e, e') && Inv(e')
  {
    hide Knows, Transition, Shipped, LogsAgree, PaymentsSound, DisputesSound, PayoutSound, ProcessesSound,
         Excludes, Apart, Appended, Fits, OthersExclude, LogsExtended, Later, Onward, Collected, Disbursed, Releasing;
    var edge := Edge(x.from, x.event, x.context, x.to);
    Mover(e, p);
    CommitConsequences(e, x);
    CommitKeepsRows(e, x);
    CommitKeepsLogs(e.terms, e.status, e.logs, edge);
    CommitKeepsExclusions(e, e', p);
    CommitIsLater(e, e');
    if p in e'.procs {
      CommitLeadsOn(e, p, x, e'.procs[p], e');
    }
    ProcessesStaySound(e, e', p);
  }

  // --- Payments --------------------------------------------------------------------------

  /** Inserting the first payment row, or rewriting a row without touching its references. */
  lemma PaymentRowKeeps(e: Escrow, e': Escrow, p: ProcessId, id: PaymentId, row: Payment)
    requires Inv(e) && p in e.procs && OthersKept(e, e', p)
    requires e' == e.(payments := e.payments[id := row], procs := e'.procs)
    requires if id in e.payments then PaymentKept(e.payments[id], row)
             else e.payments == map[] && row.amount == ChargeAmount(e.terms) && Onward(PaymentPending, e.status)
    requires row.status.Paid? ==> Collected(e.terms, e.payments, e.charges)
    requires forall q :: q in e.procs && q != p ==> !e.procs[q].PaymentDue?
    ensures Later(e, e')
    ensures PaymentsSound(e.terms, e.status, e'.payments, e.charges)
    ensures Collected(e.terms, e.payments, e.charges) ==> Collected(e.terms, e'.payments, e.charges)
    ensures OthersExclude(e, e', p)
  {
    hide LogsAgree, DisputesSound, PayoutSound, Knows, Apart, LossSeen, NoRetrySent, OnlyRetry, RowFailed;
    assert PaymentsKept(e.payments, e'.payments);
    assert Later(e, e') by { hide Inv, OthersKept; }
    hide Later;
    if Collected(e.terms, e.payments, e.charges) {
      CollectedStays(e.terms, e.payments, e'.payments, e.charges, e.charges);
    }
    hide Collected, PaymentKept, PaymentsKept;
  }

  lemma OnePayment(e: Escrow)
    requires Inv(e)
    ensures forall i, j :: i in e.payments && j in e.payments ==> i == j
    ensures forall i :: i in e.payments ==> e.payments[i].amount == ChargeAmount(e.terms)
  {
    hide LogsAgree, DisputesSound, PayoutSound, ProcessesSound, Collected;
  }

  lemma NoPaymentDue(e: Escrow, p: ProcessId)
    requires Inv(e) && (e.payments != map[] || (p in e.procs && e.procs[p].PaymentDue?))
    ensures forall q :: q in e.procs && q != p ==> !e.procs[q].PaymentDue?
  {
    hide LogsAgree, PaymentsSound, DisputesSound, PayoutSound, Knows, LossSeen, NoRetrySent, OnlyRetry, RowFailed;
  }

  lemma InsertPaymentKeeps(e: Escrow, p: ProcessId, input: Input)
    requires Inv(e) && p in e.procs && e.procs[p].PaymentDue? && Suits(e, e.procs[p], input)
    ensures Later(e, Advance(e, p, input)) && Inv(Advance(e, p, input))
  {
    hide LogsAgree, PaymentsSound, DisputesSound, PayoutSound, ProcessesSound, Later, Apart, Fits, OthersExclude;
    var e' := Advance(e, p, input);
    Mover(e, p);
    NoPaymentDue(e, p);
    PaymentRowKeeps(e, e', p, input.id, e'.payments[input.id]);
    ProcessesStaySound(e, e', p);
  }

  lemma UpdatePaymentKeeps(e: Escrow, e': Escrow, p: ProcessId, id: PaymentId, row: Payment)
    requires Inv(e) && p in e.procs && id in e.payments && OthersKept(e, e', p)
    requires e' == e.(payments := e.payments[id := row], procs := e'.procs)
    requires PaymentKept(e.payments[id], row)
    requires row.status.Paid? ==> e.payments[id].status.Paid? || Collected(e.terms, e.payments, e.charges)
    requires p in e'.procs ==> Sociable(e'.procs[p]) && (Later(e, e') ==> Knows(e', e'.procs[p]))
    ensures Later(e, e') && Inv(e')
  {
    assert row.status.Paid? ==> Collected(e.terms, e.payments, e.charges) by {
      hide LogsAgree, ProcessesSound, DisputesSound, PayoutSound, OthersKept, PaymentKept, Knows, Sociable, Collected;
    }
    hide LogsAgree, PaymentsSound, DisputesSound, PayoutSound, ProcessesSound, Later, Apart, Fits, OthersExclude,
         OthersKept, PaymentKept, Knows, Sociable, Excludes, Collected;
    NoPaymentDue(e, p);
    PaymentRowKeeps(e, e', p, id, row);
    if p in e'.procs {
      SociableFits(e, p, e'.procs[p]);
      SociableFits(e', p, e'.procs[p]);
    }
    ProcessesStaySound(e, e', p);
  }

  lemma ReadPaymentKeeps(e: Escrow, p: ProcessId, id: PaymentId, charge: ChargeRef, source: PaymentSource)
    requires Inv(e) && id in e.payments && Tied(e.payments[id], charge) && !source.Client?
    ensures Later(e, ReadPayment(e, p, id, charge, source)) && Inv(ReadPayment(e, p, id, charge, source))
  {
    hide Inv, Later;
    if e.payments[id].status.Paid? {
      HaltKeeps(e, p);
    } else {
      MeetKeeps(e, p, Verifying(id, charge, source));
    }
  }

  /** The three things a charge event can come to. */
  lemma RouteChargeIs(e: Escrow, p: ProcessId, charge: ChargeRef, customer: Option<Customer>)
    ensures var e' := RouteCharge(e, p, charge, customer);
      || e' == e
      || (exists id :: id in e.payments && Tied(e.payments[id], charge) && e' == ReadPayment(e, p, id, charge, Webhook))
      || (exists id :: id in e.payments && e' == Goto(e, p, ChargeBinding(id, charge, Webhook)))
  {
    hide ReadPayment, Goto;
  }

  lemma RouteChargeKeeps(e: Escrow, p: ProcessId, charge: ChargeRef, customer: Option<Customer>)
    requires Inv(e) && p !in e.procs
    ensures Later(e, RouteCharge(e, p, charge, customer)) && Inv(RouteCharge(e, p, charge, customer))
  {
    hide Inv, Later, ReadPayment, RouteCharge, Tied, Goto;
    var e' := RouteCharge(e, p, charge, customer);
    RouteChargeIs(e, p, charge, customer);
    if e' == e {
      LaterReflexive(e);
    } else if id :| id in e.payments && Tied(e.payments[id], charge) && e' == ReadPayment(e, p, id, charge, Webhook) {
      ReadPaymentKeeps(e, p, id, charge, Webhook);
    } else {
      var id :| id in e.payments && e' == Goto(e, p, ChargeBinding(id, charge, Webhook));
      MeetKeeps(e, p, ChargeBinding(id, charge, Webhook));
    }
  }

  lemma BindChargeKeeps(e: Escrow, p: ProcessId, id: PaymentId, charge: ChargeRef, source: PaymentSource)
    requires Inv(e) && p in e.procs && e.procs[p] == ChargeBinding(id, charge, source)
    requires id in e.payments && !source.Client?
    ensures Later(e, BindCharge(e, p, id, charge, source)) && Inv(BindCharge(e, p, id, charge, source))
  {
    hide Inv, Later, ReadPayment, Excludes, Fits, Collected;
    OnePayment(e);
    if e.payments[id].boundCharge.None? {
      var row := e.payments[id].(boundCharge := Some(charge));
      UpdatePaymentKeeps(e, BindCharge(e, p, id, charge, source), p, id, row);
    } else if winner :| BoundTo(e, winner, charge) {
      ReadPaymentKeeps(e, p, winner, charge, source);
    } else {
      HaltKeeps(e, p);
    }
  }

  lemma RecordVerdictKeeps(e: Escrow, p: ProcessId, x: Process)
    requires Inv(e) && p in e.procs && e.procs[p] == x && x.Verdict? && Knows(e, x)
    ensures var e' := RecordVerdict(e, p, x.payment, x.source, x.answer);
      Later(e, e') && Inv(e')
  {
    hide Inv, Later, Excludes, Fits, Tied;
    OnePayment(e);
    var row := e.payments[x.payment];
    var e' := RecordVerdict(e, p, x.payment, x.source, x.answer);
    if !x.answer.state.Charged? {
      UpdatePaymentKeeps(e, e', p, x.payment, e'.payments[x.payment]);
    } else if x.answer.amount != row.amount {
      HaltKeeps(e, p);
    } else {
      PaidRowKeeps(e, p, x, e');
    }
  }

  lemma PaidRowKeeps(e: Escrow, p: ProcessId, x: Process, e': Escrow)
    requires Inv(e) && p in e.procs && x.Verdict? && Knows(e, x)
    requires x.answer == Charge(Charged, ChargeAmount(e.terms))
    requires e' == RecordVerdict(e, p, x.payment, x.source, x.answer)
    requires e.payments[x.payment].amount == ChargeAmount(e.terms)
    ensures Later(e, e') && Inv(e')
  {
    hide Inv, Later, Excludes, Fits;
    var row := e.payments[x.payment];
    assert PaidBy(e.terms, e.payments, e.charges, x.payment, x.charge);
    assert PaidBy(e.terms, e'.payments, e'.charges, x.payment, x.charge);
    hide PaidBy;
    UpdatePaymentKeeps(e, e', p, x.payment, row.(status := Paid));
  }

  lemma ChargeMovedLater(e: Escrow, e': Escrow, charge: ChargeRef, now: Charge)
    requires charge in e.charges ==> !e.charges[charge].state.Charged?
    requires e' == e.(charges := e.charges[charge := now])
    ensures Later(e, e')
  {
    assert ChargesKept(e.charges, e'.charges);
    hide ChargesKept;
  }

  lemma ChargeMovedSound(e: Escrow, e': Escrow)
    requires Inv(e) && Later(e, e') && e' == e.(charges := e'.charges)
    ensures PaymentsSound(e.terms, e.status, e'.payments, e'.charges)
    ensures forall q :: q in e.procs ==> Excludes(e', e.procs[q])
  {
    hide LogsAgree, DisputesSound, PayoutSound, Knows, Apart, Collected, Later,
      LossSeen, NoRetrySent, OnlyRetry, RowFailed;
    if Collected(e.terms, e.payments, e.charges) {
      LaterCharges(e, e');
      CollectedStays(e.terms, e.payments, e'.payments, e.charges, e'.charges);
    }
  }

  lemma LaterCharges(e: Escrow, e': Escrow)
    requires Later(e, e')
    ensures PaymentsKept(e.payments, e'.payments) && ChargesKept(e.charges, e'.charges)
  {
  }

  lemma MoveChargeKeeps(e: Escrow, charge: ChargeRef, now: Charge)
    requires Inv(e) && Enabled(e, MoveCharge(charge, now))
    ensures Later(e, Do(e, MoveCharge(charge, now))) && Inv(Do(e, MoveCharge(charge, now)))
  {
    hide LogsAgree, PaymentsSound, DisputesSound, PayoutSound, ProcessesSound, Later, Excludes;
    var e' := Do(e, MoveCharge(charge, now));
    ChargeMovedLater(e, e', charge, now);
    ChargeMovedSound(e, e');
    BystandersStaySound(e, e');
  }

  // --- Disputes --------------------------------------------------------------------------

  lemma DisputeRowLater(e: Escrow, e': Escrow, d: DisputeId, row: DisputeStatus)
    requires e' == e.(disputes := e.disputes[d := row], procs := e'.procs)
    requires if d in e.disputes then !Freezing(row) else e.status.Disputed?
    ensures Later(e, e')
  {
  }

  /** Writing one dispute row: inserting the first, or closing the only one. */
  lemma DisputeRowKeeps(e: Escrow, e': Escrow, p: ProcessId, d: DisputeId, row: DisputeStatus)
    requires Inv(e) && p in e.procs && p !in e'.procs && OthersKept(e, e', p)
    requires e' == e.(disputes := e.disputes[d := row], procs := e'.procs)
    requires if d in e.disputes then !Freezing(row) else e.disputes == map[] && e.status.Disputed? && row.Open?
    requires forall q :: q in e.procs && q != p ==> !e.procs[q].DisputeDue?
    ensures Later(e, e') && DisputesSound(e.status, e'.disputes) && OthersExclude(e, e', p)
  {
    DisputeRowLater(e, e', d, row);
    hide LogsAgree, PaymentsSound, PayoutSound, Knows, Apart, Later, LossSeen, NoRetrySent, OnlyRetry, RowFailed;
  }

  lemma NoDisputeDue(e: Escrow, p: ProcessId)
    requires Inv(e) && (e.disputes != map[] || (p in e.procs && e.procs[p].DisputeDue?))
    ensures forall q :: q in e.procs && q != p ==> !e.procs[q].DisputeDue?
  {
    hide LogsAgree, PaymentsSound, DisputesSound, PayoutSound, Knows, LossSeen, NoRetrySent, OnlyRetry, RowFailed;
  }

  lemma WriteDisputeKeeps(e: Escrow, p: ProcessId, input: Input, x: Process)
    requires Inv(e) && p in e.procs && e.procs[p] == x && (x.DisputeDue? || x.DisputeClosing?) && Suits(e, x, input)
    requires Knows(e, x) && Excludes(e, x)
    ensures Later(e, Advance(e, p, input)) && Inv(Advance(e, p, input))
  {
    hide LogsAgree, PaymentsSound, DisputesSound, PayoutSound, ProcessesSound, Later, Apart, Fits, OthersExclude;
    var e' := Advance(e, p, input);
    NoDisputeDue(e, p);
    var d := if x.DisputeDue? then input.id else x.dispute;
    DisputeRowKeeps(e, e', p, d, e'.disputes[d]);
    ProcessesStaySound(e, e', p);
  }

  // --- Payouts ---------------------------------------------------------------------------

  /** No process is carrying a failure event or a launched retry. */
  ghost predicate NoneCarrying(e: Escrow, p: ProcessId) {
    forall q :: q in e.procs && q != p ==>
      !FailurePending(e.procs[q]) && !Launching(e.procs[q]) && !Launched(e.procs[q])
  }

  lemma PayoutRowLater(e: Escrow, e': Escrow, row: Payout)
    requires e' == e.(payout := Some(row), procs := e'.procs)
    requires e.payout.Some? ==> e.payout.value.amount == row.amount
    ensures Later(e, e')
  {
  }

  /** Rewriting the payout row, or inserting it once release is under way. */
  lemma PayoutRowKeeps(e: Escrow, e': Escrow, p: ProcessId, row: Payout)
    requires Inv(e) && p in e.procs && OthersKept(e, e', p)
    requires e' == e.(payout := Some(row), procs := e'.procs)
    requires Releasing(e.status) && row.amount == SellerSettlement(e.terms)
    requires row.status.Success? ==> Disbursed(e.transfers)
    requires Known(row.code, e.transfers) && Known(row.reference, e.transfers)
    requires RowFailed(Some(row)) ==> LossSeen(e.transfers, e.seen) && NoRetrySent(e.transfers) && NoneCarrying(e, p)
    ensures Later(e, e') && OthersExclude(e, e', p)
    ensures PayoutSound(e.terms, e.status, e'.payout, e.transfers, e.seen)
  {
    assert e.payout.Some? ==> e.payout.value.amount == row.amount by {
      hide LogsAgree, PaymentsSound, DisputesSound, ProcessesSound,
        LossSeen, NoRetrySent, OnlyRetry, RowFailed, Disbursed;
    }
    PayoutRowLater(e, e', row);
    hide LogsAgree, PaymentsSound, DisputesSound, Knows, Apart, Later, LossSeen, NoRetrySent, OnlyRetry, Disbursed;
  }

  lemma FailedRow(e: Escrow)
    requires Inv(e) && RowFailed(e.payout)
    ensures LossSeen(e.transfers, e.seen) && NoRetrySent(e.transfers)
    ensures forall q :: q in e.procs ==> !FailurePending(e.procs[q]) && !Launching(e.procs[q]) && !Launched(e.procs[q])
  {
    hide LogsAgree, PaymentsSound, DisputesSound, Knows, Apart, LossSeen, NoRetrySent, OnlyRetry, RowFailed, Disbursed;
  }

  lemma PayoutFacts(e: Escrow)
    requires Inv(e)
    ensures e.payout.Some? ==> e.payout.value.amount == SellerSettlement(e.terms) && Releasing(e.status)
    ensures e.payout.Some? && e.payout.value.status.Success? ==> Disbursed(e.transfers)
    ensures e.payout.Some? ==> Known(e.payout.value.code, e.transfers) && Known(e.payout.value.reference, e.transfers)
  {
    hide LogsAgree, PaymentsSound, DisputesSound, ProcessesSound,
      LossSeen, NoRetrySent, OnlyRetry, RowFailed, Disbursed;
  }

  /** The process that wrote the payout row goes on as an unremarkable one, or ends. */
  lemma WritePayoutKeeps(e: Escrow, e': Escrow, p: ProcessId, row: Payout)
    requires Inv(e) && p in e.procs && OthersKept(e, e', p)
    requires e' == e.(payout := Some(row), procs := e'.procs)
    requires Releasing(e.status) && row.amount == SellerSettlement(e.terms)
    requires row.status.Success? ==> Disbursed(e.transfers)
    requires Known(row.code, e.transfers) && Known(row.reference, e.transfers)
    requires RowFailed(Some(row)) ==> LossSeen(e.transfers, e.seen) && NoRetrySent(e.transfers) && NoneCarrying(e, p)
    requires p in e'.procs ==> Sociable(e'.procs[p]) && Knows(e', e'.procs[p])
    ensures Later(e, e') && Inv(e')
  {
    hide LogsAgree, PaymentsSound, DisputesSound, PayoutSound, ProcessesSound, Later, Apart, Fits, OthersExclude,
         OthersKept, Knows, Sociable, Excludes, LossSeen, NoRetrySent, OnlyRetry, RowFailed, Disbursed, NoneCarrying;
    PayoutRowKeeps(e, e', p, row);
    if p in e'.procs {
      SociableFits(e, p, e'.procs[p]);
      SociableFits(e', p, e'.procs[p]);
    }
    ProcessesStaySound(e, e', p);
  }

  lemma AuthorizeKeeps(e: Escrow, p: ProcessId)
    requires Inv(e) && p in e.procs && e.procs[p].ReleaseCleared? && Unfrozen(e.status, e.disputes)
    ensures Later(e, Authorize(e, p)) && Inv(Authorize(e, p))
  {
    hide Inv, Later, LossSeen, NoRetrySent, OnlyRetry, Disbursed, NoneFreezing;
    var row := e.payout.GetOr(Payout(SellerSettlement(e.terms), Queued, None, None, 0));
    PayoutFacts(e);
    if RowFailed(e.payout) { FailedRow(e); }
    WritePayoutKeeps(e, Authorize(e, p), p, row);
  }

  lemma TransferSentKeeps(e: Escrow, e': Escrow, p: ProcessId, x: Process)
    requires Inv(e) && p in e.procs && e.procs[p] == x && x.Sending? && Excludes(e, x) && Fits(e, p, x)
    requires x.attempt !in e.transfers && e.payout.Some? && x.amount == SellerSettlement(e.terms)
    requires e' == e.(transfers := e.transfers[x.attempt := Transfer(x.amount, Pending)], procs := e'.procs)
    ensures Later(e, e') && OthersExclude(e, e', p)
    ensures PayoutSound(e.terms, e.status, e.payout, e'.transfers, e.seen)
    ensures LossSeen(e.transfers, e.seen) ==> LossSeen(e'.transfers, e'.seen)
    ensures Retrying(x) ==> OnlyRetry(e'.transfers, x.attempt)
  {
    assert TransfersKept(e.transfers, e'.transfers);
    assert Later(e, e') by { hide Inv, Excludes, Fits, TransfersKept; }
    SentTransferSound(e, e', x);
    SentTransferExcludes(e, e', p, x);
  }

  lemma SentTransferSound(e: Escrow, e': Escrow, x: Process)
    requires Inv(e) && x.Sending? && Excludes(e, x)
    requires x.attempt !in e.transfers && e.payout.Some? && x.amount == SellerSettlement(e.terms)
    requires e' == e.(transfers := e.transfers[x.attempt := Transfer(x.amount, Pending)], procs := e'.procs)
    ensures PayoutSound(e.terms, e.status, e.payout, e'.transfers, e.seen)
    ensures LossSeen(e.transfers, e.seen) ==> LossSeen(e'.transfers, e'.seen)
    ensures Retrying(x) ==> OnlyRetry(e'.transfers, x.attempt)
  {
    hide LogsAgree, PaymentsSound, DisputesSound, ProcessesSound, RowFailed;
    if Disbursed(e.transfers) {
      DisbursedStays(e.transfers, e'.transfers);
    }
    hide Disbursed;
  }

  lemma SentTransferExcludes(e: Escrow, e': Escrow, p: ProcessId, x: Process)
    requires Inv(e) && p in e.procs && e.procs[p] == x && x.Sending? && Excludes(e, x) && Fits(e, p, x)
    requires x.attempt !in e.transfers
    requires e' == e.(transfers := e.transfers[x.attempt := Transfer(x.amount, Pending)], procs := e'.procs)
    ensures OthersExclude(e, e', p)
  {
    hide LogsAgree, PaymentsSound, DisputesSound, PayoutSound, Knows, RowFailed;
    forall q | q in e.procs && q != p ensures Excludes(e', e.procs[q]) {
      assert Excludes(e, e.procs[q]) && Apart(e.procs[q], x);
    }
  }

  lemma CallTransferKeeps(e: Escrow, p: ProcessId, x: Process, input: Input)
    requires Inv(e) && p in e.procs && e.procs[p] == x && x.Sending? && input.Reply?
    requires Knows(e, x) && Excludes(e, x) && Fits(e, p, x)
    ensures var e' := CallTransfer(e, p, x.amount, x.attempt, input.created, input.answered);
      Later(e, e') && Inv(e')
  {
    hide LogsAgree, PaymentsSound, DisputesSound, PayoutSound,
      ProcessesSound, Later, NoneFreezing, LossSeen, NoRetrySent, OnlyRetry,
         RowFailed, Disbursed, OthersExclude;
    var e' := CallTransfer(e, p, x.amount, x.attempt, input.created, input.answered);
    if x.attempt in e.transfers || !input.created {
      GotoKeeps(e, p, SendErrored(x.attempt));
    } else {
      TransferSentKeeps(e, e', p, x);
      hide Inv, Fits, Apart;
      ProcessesStayAfterSend(e, e', p, x);
    }
  }

  lemma ProcessesStayAfterSend(e: Escrow, e': Escrow, p: ProcessId, x: Process)
    requires Inv(e) && p in e.procs && e.procs[p] == x && x.Sending?
    requires Knows(e, x) && Excludes(e, x) && Fits(e, p, x) && Later(e, e')
      && OthersExclude(e, e', p) && OthersKept(e, e', p)
    requires PayoutSound(e.terms, e.status, e.payout, e'.transfers, e.seen)
    requires LossSeen(e.transfers, e.seen) ==> LossSeen(e'.transfers, e'.seen)
    requires Retrying(x) ==> OnlyRetry(e'.transfers, x.attempt)
    requires e' == e.(transfers := e'.transfers, procs := e'.procs) && x.attempt in e'.transfers
    requires p in e'.procs && (e'.procs[p] == SendConfirmed(x.attempt) || e'.procs[p] == SendErrored(x.attempt))
    ensures Inv(e')
  {
    hide LogsAgree, PaymentsSound, DisputesSound, PayoutSound, Later, NoneFreezing, LossSeen, NoRetrySent, OnlyRetry,
         RowFailed, Disbursed, OthersExclude, OthersKept;
    var y := e'.procs[p];
    SentFits(e, p, x, y);
    assert PaymentsSound(e.terms, e.status, e'.payments, e'.charges);
    hide ProcessesSound, Fits;
    ProcessesStaySound(e, e', p);
  }

  /** Moving on within the sending half of a release or a retry changes no neighbour's standing. */
  lemma SentFits(e: Escrow, p: ProcessId, x: Process, y: Process)
    requires Fits(e, p, x) && !y.PaymentDue? && !y.DisputeDue? && !FailurePending(y)
    requires Retrying(y) ==> Retrying(x) && SendsUnder(y) == SendsUnder(x)
    ensures Fits(e, p, y)
  {
  }

  lemma SendErroredKeeps(e: Escrow, p: ProcessId, x: Process, input: Input)
    requires Inv(e) && p in e.procs && e.procs[p] == x && x.SendErrored? && input.Reply?
    requires Knows(e, x) && Excludes(e, x) && Fits(e, p, x)
    ensures Later(e, Advance(e, p, input)) && Inv(Advance(e, p, input))
  {
    hide Inv, Later, NoneFreezing, LossSeen, NoRetrySent, OnlyRetry, RowFailed, Fits;
    if input.answered && x.attempt in e.transfers {
      SentFits(e, p, x, SendConfirmed(x.attempt));
      GotoKeeps(e, p, SendConfirmed(x.attempt));
    } else {
      SentFits(e, p, x, SendFailed(x.attempt));
      GotoKeeps(e, p, SendFailed(x.attempt));
    }
  }

  lemma RecordSentKeeps(e: Escrow, p: ProcessId, a: Attempt)
    requires Inv(e) && p in e.procs && e.payout.Some? && a in e.transfers
    ensures Later(e, RecordSent(e, p, a)) && Inv(RecordSent(e, p, a))
  {
    hide Inv, Later, LossSeen, NoRetrySent, OnlyRetry, Disbursed;
    PayoutFacts(e);
    var e' := RecordSent(e, p, a);
    WritePayoutKeeps(e, e', p, e'.payout.value);
  }

  lemma RecordSendFailureKeeps(e: Escrow, p: ProcessId)
    requires Inv(e) && p in e.procs && e.payout.Some?
    ensures Later(e, RecordSendFailure(e, p)) && Inv(RecordSendFailure(e, p))
  {
    hide Inv, Later, LossSeen, NoRetrySent, OnlyRetry, Disbursed;
    PayoutFacts(e);
    if RowFailed(e.payout) { FailedRow(e); }
    var e' := RecordSendFailure(e, p);
    WritePayoutKeeps(e, e', p, e'.payout.value);
  }

  /** Every retry under way when the row is found failed has still to reset it. */
  lemma RetryFits(e: Escrow, p: ProcessId)
    requires p !in e.procs && CountsAgree(e, StartRetry(p)) && RowFailed(e.payout)
    requires forall q :: q in e.procs ==> !FailurePending(e.procs[q]) && !Launching(e.procs[q]) && !Launched(e.procs[q])
    ensures Fits(e, p, RetryRead(e.payout.value))
  {
    forall q | q in e.procs
      ensures Apart(e.procs[q], RetryRead(e.payout.value)) && Apart(RetryRead(e.payout.value), e.procs[q]) {
      AgreeingRetriesFit(e.procs[q], e.payout.value);
    }
  }

  lemma AgreeingRetriesFit(x: Process, row: Payout)
    requires !FailurePending(x) && !Launching(x) && !Launched(x) && (BeforeReset(x) ==> x.row.attempts == row.attempts)
    ensures Apart(x, RetryRead(row)) && Apart(RetryRead(row), x)
  {
  }

  lemma NothingRetried(e: Escrow)
    requires NoRetrySent(e.transfers) && e.payout.Some? && Known(e.payout.value.reference, e.transfers)
    ensures e.payout.value.reference.GetOr(Base) == Base
    ensures forall a :: OnlyRetry(e.transfers, a)
  {
  }

  lemma StartRetryKeeps(e: Escrow, p: ProcessId)
    requires Inv(e) && p !in e.procs && CountsAgree(e, StartRetry(p)) && RowFailed(e.payout)
    ensures Later(e, Goto(e, p, RetryRead(e.payout.value))) && Inv(Goto(e, p, RetryRead(e.payout.value)))
  {
    hide Inv, Later, LossSeen, NoRetrySent, OnlyRetry;
    FailedRow(e);
    PayoutFacts(e);
    NothingRetried(e);
    RetryFits(e, p);
    hide Fits, CountsAgree, RowFailed;
    GotoKeeps(e, p, RetryRead(e.payout.value));
  }

  lemma CheckPriorKeeps(e: Escrow, p: ProcessId, x: Process, answered: bool)
    requires Inv(e) && p in e.procs && e.procs[p] == x && x.RetryCleared?
    requires Knows(e, x) && Excludes(e, x) && Fits(e, p, x)
    ensures Later(e, CheckPrior(e, p, x.row, answered)) && Inv(CheckPrior(e, p, x.row, answered))
  {
    hide Inv, Later, LossSeen, NoRetrySent, OnlyRetry, Fits, NoneFreezing;
    RetryFindsNoSuccess(e, x, x.row.reference.GetOr(Base));
    SentFits(e, p, x, RetryChecked(x.row));
    GotoKeeps(e, p, RetryChecked(x.row));
  }

  /** A retry under way has only a lost first transfer to look up. */
  lemma RetryFindsNoSuccess(e: Escrow, x: Process, prior: Attempt)
    requires BeforeReset(x) && Excludes(e, x) && prior == Base
    ensures !TransferSucceeded(e.transfers, prior)
  {
  }

  lemma ResetPayoutKeeps(e: Escrow, p: ProcessId, x: Process)
    requires Inv(e) && p in e.procs && e.procs[p] == x && x.RetryChecked?
    requires Knows(e, x) && Excludes(e, x) && Fits(e, p, x)
    ensures Later(e, ResetPayout(e, p, x.row)) && Inv(ResetPayout(e, p, x.row))
  {
    hide LogsAgree, PaymentsSound, DisputesSound, PayoutSound,
      ProcessesSound, Later, LossSeen, NoRetrySent, OnlyRetry, Disbursed,
         NoneFreezing, Fits, OthersExclude;
    PayoutFacts(e);
    var e' := ResetPayout(e, p, x.row);
    PayoutRowKeeps(e, e', p, e'.payout.value);
    SentFits(e, p, x, e'.procs[p]);
    ProcessesStaySound(e, e', p);
  }

  lemma WritePaidKeeps(e: Escrow, p: ProcessId, a: Attempt)
    requires Inv(e) && p in e.procs && Disbursed(e.transfers) && a == Base
    ensures Later(e, WritePaid(e, p, a)) && Inv(WritePaid(e, p, a))
  {
    hide Inv, Later, LossSeen, NoRetrySent, OnlyRetry;
    PayoutFacts(e);
    if e.payout.None? {
      HaltKeeps(e, p);
    } else {
      var e' := WritePaid(e, p, a);
      WritePayoutKeeps(e, e', p, e'.payout.value);
    }
  }

  lemma WriteFailedKeeps(e: Escrow, p: ProcessId, x: Process)
    requires Inv(e) && p in e.procs && e.procs[p] == x && x.FailWrite?
    requires Excludes(e, x) && Fits(e, p, x)
    ensures Later(e, WriteFailed(e, p, x.outcome)) && Inv(WriteFailed(e, p, x.outcome))
  {
    hide Inv, Later, LossSeen, NoRetrySent, OnlyRetry, Disbursed;
    PayoutFacts(e);
    assert NoneCarrying(e, p);
    hide Fits, NoneCarrying;
    if e.payout.None? {
      HaltKeeps(e, p);
    } else {
      var e' := WriteFailed(e, p, x.outcome);
      WritePayoutKeeps(e, e', p, e'.payout.value);
    }
  }

  // --- Transfer outcomes --------------------------------------------------------------------

  /** Before the first transfer's event is recorded nothing depends on its loss. */
  lemma UnseenFacts(e: Escrow)
    requires Inv(e) && Base !in e.seen
    ensures NoRetrySent(e.transfers) && !RowFailed(e.payout)
    ensures forall q :: q in e.procs ==> !FailurePending(e.procs[q]) && !Retrying(e.procs[q])
  {
    hide LogsAgree, PaymentsSound, DisputesSound, Knows, Apart, NoRetrySent, OnlyRetry, RowFailed, Disbursed;
  }

  lemma RecordEventKeeps(e: Escrow, e': Escrow, p: ProcessId, a: Attempt)
    requires Inv(e) && a in e.transfers && !e.transfers[a].state.Pending?
    requires e' == e.(seen := e.seen + {a}, procs := e'.procs)
    ensures Later(e, e') && OthersExclude(e, e', p)
    ensures PayoutSound(e.terms, e.status, e.payout, e.transfers, e'.seen)
  {
    assert Later(e, e') by { hide Inv; }
    assert PayoutSound(e.terms, e.status, e.payout, e.transfers, e'.seen) by {
      hide LogsAgree, PaymentsSound, DisputesSound, ProcessesSound,
        Later, NoRetrySent, OnlyRetry, RowFailed, Disbursed, BaseLost;
    }
    hide LogsAgree, PaymentsSound, DisputesSound, PayoutSound, Knows,
      Apart, Later, NoRetrySent, OnlyRetry, RowFailed, BaseLost;
  }

  lemma ReceiveOutcomeKeeps(e: Escrow, p: ProcessId, a: Attempt)
    requires Inv(e) && p !in e.procs && a in e.transfers && !e.transfers[a].state.Pending?
    ensures Later(e, ReceiveOutcome(e, p, a)) && Inv(ReceiveOutcome(e, p, a))
  {
    hide Inv, Later;
    if a in e.seen {
      LaterReflexive(e);
    } else {
      var e' := ReceiveOutcome(e, p, a);
      RecordEventKeeps(e, e', p, a);
      if p in e'.procs { OutcomeFits(e, e', p); }
      OutcomeRecorded(e, e', p);
    }
  }

  lemma OutcomeFits(e: Escrow, e': Escrow, p: ProcessId)
    requires Inv(e) && Base !in e.seen && Base in e.transfers && !e.transfers[Base].state.Pending?
    requires e' == e.(seen := e.seen + {Base}, procs := e'.procs) && p in e'.procs
    requires e'.procs[p] == if e.transfers[Base].state.Succeeded? then Paying(Base)
      else Failing(e.transfers[Base].state)
    ensures Knows(e', e'.procs[p]) && Excludes(e', e'.procs[p]) && Fits(e, p, e'.procs[p])
  {
    hide Inv, NoRetrySent, OnlyRetry, RowFailed;
    UnseenFacts(e);
  }

  lemma OutcomeRecorded(e: Escrow, e': Escrow, p: ProcessId)
    requires Inv(e) && Later(e, e') && OthersKept(e, e', p) && OthersExclude(e, e', p)
    requires e' == e.(seen := e'.seen, procs := e'.procs)
    requires PayoutSound(e.terms, e.status, e.payout, e.transfers, e'.seen)
    requires p in e'.procs ==> Knows(e', e'.procs[p]) && Excludes(e', e'.procs[p]) && Fits(e, p, e'.procs[p])
    ensures Inv(e')
  {
    hide LogsAgree, PaymentsSound, DisputesSound, PayoutSound,
      ProcessesSound, Later, Knows, Excludes, Fits, OthersExclude, OthersKept;
    ProcessesStaySound(e, e', p);
  }

  lemma SettledTransferSound(e: Escrow, transfers: map<Attempt, Transfer>, a: Attempt, outcome: TransferState)
    requires Inv(e) && a in e.transfers && e.transfers[a].state.Pending? && !outcome.Pending?
    requires transfers == e.transfers[a := e.transfers[a].(state := outcome)]
    ensures PayoutSound(e.terms, e.status, e.payout, transfers, e.seen)
    ensures LossSeen(e.transfers, e.seen) ==> LossSeen(transfers, e.seen)
    ensures NoRetrySent(e.transfers) ==> NoRetrySent(transfers)
    ensures forall b :: OnlyRetry(e.transfers, b) ==> OnlyRetry(transfers, b)
  {
    hide LogsAgree, PaymentsSound, DisputesSound, ProcessesSound, RowFailed;
    assert TransfersKept(e.transfers, transfers);
    if Disbursed(e.transfers) {
      DisbursedStays(e.transfers, transfers);
    }
    hide Disbursed, TransfersKept;
  }

  lemma SettledTransferLater(e: Escrow, a: Attempt, outcome: TransferState)
    requires a in e.transfers && e.transfers[a].state.Pending?
    ensures Later(e, e.(transfers := e.transfers[a := e.transfers[a].(state := outcome)]))
  {
  }

  lemma SettleTransferKeeps(e: Escrow, a: Attempt, outcome: TransferState)
    requires Inv(e) && a in e.transfers && e.transfers[a].state.Pending? && !outcome.Pending?
    ensures var e' := e.(transfers := e.transfers[a := e.transfers[a].(state := outcome)]);
      Later(e, e') && Inv(e')
  {
    hide LogsAgree, PaymentsSound, DisputesSound, PayoutSound, Later,
      Knows, Apart, RowFailed, LossSeen, NoRetrySent, OnlyRetry;
    var e' := e.(transfers := e.transfers[a := e.transfers[a].(state := outcome)]);
    SettledTransferSound(e, e'.transfers, a, outcome);
    SettledTransferLater(e, a, outcome);
    assert forall q :: q in e.procs ==> Excludes(e', e.procs[q]);
    hide ProcessesSound, Excludes;
    BystandersStaySound(e, e');
  }

  // --- All steps ---------------------------------------------------------------------------

  /** No shipped statement puts a dispute under review, so counting the open ones counts the freezing ones. */
  lemma NoneUnderReview(e: Escrow)
    requires Inv(e) && !AnyOpen(e)
    ensures NoneFreezing(e.disputes)
  {
    hide LogsAgree, PaymentsSound, PayoutSound, ProcessesSound;
  }

  lemma NoOtherDispute(e: Escrow, d: DisputeId)
    requires Inv(e) && d in e.disputes
    ensures !OtherFreezing(e, d)
  {
    hide LogsAgree, PaymentsSound, PayoutSound, ProcessesSound;
  }

  lemma AdvanceKeeps(e: Escrow, p: ProcessId, input: Input)
    requires Inv(e) && p in e.procs && Suits(e, e.procs[p], input)
    ensures Later(e, Advance(e, p, input)) && Inv(Advance(e, p, input))
  {
    hide Inv, Later, Excludes, Fits, Justified, Unfrozen;
    Mover(e, p);
    var x := e.procs[p];
    match x
    case Applying(_, _, _, _) => DecideKeeps(e, p);
    case Decided(_, _, _, _, _) => AdvanceDecided(e, p, x, input);
    case PaymentDue(_) => InsertPaymentKeeps(e, p, input);
    case DisputeDue => WriteDisputeKeeps(e, p, input, x);
    case ResolveRead(d, forSeller) => AdvanceResolve(e, p, x, input);
    case DisputeClosing(_, _) => WriteDisputeKeeps(e, p, input, x);
    case ChargeBinding(id, charge, source) => BindChargeKeeps(e, p, id, charge, source);
    case ChargeBound(id, charge, source) => ReadPaymentKeeps(e, p, id, charge, source);
    case Verifying(id, charge, source) => AdvanceVerifying(e, p, x, input);
    case Verdict(_, _, _, _) => RecordVerdictKeeps(e, p, x);
    case ReleaseRead => AdvanceCounting(e, p, x, input);
    case ReleaseCleared => AuthorizeKeeps(e, p);
    case Sending(_, _) => CallTransferKeeps(e, p, x, input);
    case SendErrored(_) => SendErroredKeeps(e, p, x, input);
    case SendConfirmed(a) => RecordSentKeeps(e, p, a);
    case SendFailed(_) => RecordSendFailureKeeps(e, p);
    case RetryRead(row) => AdvanceCounting(e, p, x, input);
    case RetryCleared(_) => CheckPriorKeeps(e, p, x, input.answered);
    case RetryChecked(_) => ResetPayoutKeeps(e, p, x);
    case Paying(code) => AdvanceOutcome(e, p, x, input);
    case PayWrite(a) => WritePaidKeeps(e, p, a);
    case Failing(_) => AdvanceOutcome(e, p, x, input);
    case FailWrite(_) => WriteFailedKeeps(e, p, x);
  }

  lemma AdvanceDecided(e: Escrow, p: ProcessId, x: Process, input: Input)
    requires Inv(e) && p in e.procs && e.procs[p] == x && x.Decided? && Suits(e, x, input)
    ensures Later(e, Advance(e, p, input)) && Inv(Advance(e, p, input))
  {
    hide Inv, Later;
    if e.status == x.from {
      CommitKeeps(e, p, x, Advance(e, p, input));
    } else {
      HaltKeeps(e, p);
    }
  }

  lemma AdvanceResolve(e: Escrow, p: ProcessId, x: Process, input: Input)
    requires Inv(e) && p in e.procs && e.procs[p] == x && x.ResolveRead? && Knows(e, x) && Suits(e, x, input)
    ensures Later(e, Advance(e, p, input)) && Inv(Advance(e, p, input))
  {
    hide Inv, Later, Collected, Disbursed;
    NoOtherDispute(e, x.dispute);
    var event := if x.forSeller then ResolveDisputeForSeller else ResolveDisputeForBuyer;
    MeetKeeps(e, p, Applying(event, Some(false), false, CloseDispute(x.dispute, x.forSeller)));
  }

  lemma AdvanceVerifying(e: Escrow, p: ProcessId, x: Process, input: Input)
    requires Inv(e) && p in e.procs && e.procs[p] == x && x.Verifying? && Knows(e, x) && Suits(e, x, input)
    ensures Later(e, Advance(e, p, input)) && Inv(Advance(e, p, input))
  {
    hide Inv, Later, Tied;
    if x.charge in e.charges {
      MeetKeeps(e, p, Verdict(x.payment, x.charge, x.source, e.charges[x.charge]));
    } else {
      HaltKeeps(e, p);
    }
  }

  lemma AdvanceCounting(e: Escrow, p: ProcessId, x: Process, input: Input)
    requires Inv(e) && p in e.procs && e.procs[p] == x && (x.ReleaseRead? || x.RetryRead?) && Suits(e, x, input)
    requires Knows(e, x) && Excludes(e, x) && Fits(e, p, x)
    ensures Later(e, Advance(e, p, input)) && Inv(Advance(e, p, input))
  {
    hide Inv, Later, LossSeen, NoRetrySent, OnlyRetry, RowFailed, Fits, NoneFreezing, AnyOpen;
    if AnyOpen(e) {
      HaltKeeps(e, p);
    } else {
      NoneUnderReview(e);
      PayoutFacts(e);
      var y := if x.ReleaseRead? then ReleaseCleared else RetryCleared(x.row);
      SentFits(e, p, x, y);
      GotoKeeps(e, p, y);
    }
  }

  lemma AdvanceOutcome(e: Escrow, p: ProcessId, x: Process, input: Input)
    requires Inv(e) && p in e.procs && e.procs[p] == x && (x.Paying? || x.Failing?) && Suits(e, x, input)
    requires Knows(e, x) && Excludes(e, x) && Fits(e, p, x)
    ensures Later(e, Advance(e, p, input)) && Inv(Advance(e, p, input))
  {
    hide Inv, Later, LossSeen, NoRetrySent, OnlyRetry, RowFailed;
    if !Unsettled(e) {
      HaltKeeps(e, p);
    } else if x.Paying? {
      GotoKeeps(e, p, PayWrite(x.code));
    } else {
      GotoKeeps(e, p, FailWrite(x.outcome));
    }
  }

  lemma StepKeeps(e: Escrow, s: Step)
    requires Inv(e) && Enabled(e, s) && CountsAgree(e, s)
    ensures Later(e, Do(e, s)) && Inv(Do(e, s))
  {
    LaterReflexive(e);
    hide Inv, Later, Fits, Collected, Disbursed, PayoutSound;
    match s
    case StartApply(p, event) => MeetKeeps(e, p, Applying(event, None, event.AutoConfirm?, Stop));
    case StartCheckout(p, virtualAccount) =>
      MeetKeeps(e, p, Applying(BuyerInitiateCheckout, None, false, InsertPayment(virtualAccount)));
    case StartRaise(p) => MeetKeeps(e, p, Applying(RaiseDispute, None, false, InsertDispute));
    case StartResolve(p, d, forSeller) =>
      if d in e.disputes { MeetKeeps(e, p, ResolveRead(d, forSeller)); }
    case StartRelease(p) => if e.status.ReleaseProcessing? { MeetKeeps(e, p, ReleaseRead); }
    case StartRetry(p) => if RowFailed(e.payout) { StartRetryKeeps(e, p); }
    case ChargeEvent(p, charge, customer) => RouteChargeKeeps(e, p, charge, customer);
    case StartVerify(p, id, bound) =>
      var row := e.payments[id];
      ReadPaymentKeeps(e, p, id, if bound then row.boundCharge.GetOr(row.reference) else row.reference, ServerVerify);
    case OutcomeEvent(p, a) => ReceiveOutcomeKeeps(e, p, a);
    case Resume(p, input) => AdvanceKeeps(e, p, input);
    case Crash(p) => HaltKeeps(e, p);
    case MoveCharge(charge, now) => MoveChargeKeeps(e, charge, now);
    case SettleTransfer(a, outcome) => SettleTransferKeeps(e, a, outcome);
  }
}
