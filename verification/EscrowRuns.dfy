/** Safety of the escrow protocol over whole runs, and the interleavings that mark its limits. */
module EscrowRuns {
  import opened Wrappers
  import opened Machine
  import opened EscrowProtocol
  import opened EscrowInvariant
  import opened EscrowProof

  /**
   The state after a run from `e0`, or None when some step is not enabled. With `agreed`, every retry
   starts with the attempt count of the retries that are still to reset the payout row.
   */
  ghost function After(e0: Escrow, steps: seq<Step>, agreed: bool): Option<Escrow> {
    if steps == [] then Some(e0)
    else
      var before := After(e0, steps[..|steps| - 1], agreed);
      var s := steps[|steps| - 1];
      if before.Some? && Enabled(before.value, s) && (agreed ==> CountsAgree(before.value, s))
      then Some(Do(before.value, s)) else None
  }

  ghost predicate Reachable(e0: Escrow, e: Escrow, agreed: bool) {
    exists steps :: After(e0, steps, agreed) == Some(e)
  }

  /** Every shipped event is raised by some process: by a request or scan alone, or within a service method. */
  lemma ShippedIffRaised(event: Event)
    ensures Shipped(event) <==>
      || Standalone(event) || event.BuyerInitiateCheckout? || event.RaiseDispute? || event.PayoutSucceeded?
      || event.ResolveDisputeForSeller? || event.ResolveDisputeForBuyer?
      || event == PaymentVerified(Webhook) || event == PaymentVerified(ServerVerify)
  {
  }

  /** What the invariant allows settled at the start of a run is never undone by its end. */
  lemma {:induction false} RunKeepsFrom(e0: Escrow, steps: seq<Step>)
    requires Inv(e0) && After(e0, steps, true).Some?
    ensures Inv(After(e0, steps, true).value) && Later(e0, After(e0, steps, true).value)
  {
    hide Inv, Later, Enabled, Do, CountsAgree;
    if steps == [] {
      LaterReflexive(e0);
    } else {
      var before := After(e0, steps[..|steps| - 1], true);
      RunKeepsFrom(e0, steps[..|steps| - 1]);
      StepKeeps(before.value, steps[|steps| - 1]);
      LaterTransitive(e0, before.value, After(e0, steps, true).value);
    }
  }

  lemma RunKeeps(t: Terms, steps: seq<Step>)
    requires After(Drafted(t), steps, true).Some?
    ensures Inv(After(Drafted(t), steps, true).value) && After(Drafted(t), steps, true).value.terms == t
  {
    hide Inv, Later, After;
    DraftedSound(t);
    RunKeepsFrom(Drafted(t), steps);
    LaterTerms(Drafted(t), After(Drafted(t), steps, true).value);
  }

  lemma PlaysKeep(e: Escrow, e': Escrow)
    requires Inv(e) && Reachable(e, e', true)
    ensures Inv(e') && Later(e, e')
  {
    hide Inv, Later, After;
    var steps :| After(e, steps, true) == Some(e');
    RunKeepsFrom(e, steps);
  }

  lemma ReachableIsSound(t: Terms, e: Escrow)
    requires Reachable(Drafted(t), e, true)
    ensures Inv(e) && e.terms == t
  {
    hide Inv, After;
    var steps :| After(Drafted(t), steps, true) == Some(e);
    RunKeeps(t, steps);
  }

  lemma Start(e: Escrow)
    ensures Reachable(e, e, true)
  {
    assert After(e, [], true) == Some(e);
  }

  lemma LaterTerms(e: Escrow, e': Escrow)
    requires Later(e, e')
    ensures e'.terms == e.terms && Onward(e.status, e'.status) && LogsExtended(e.logs, e'.logs)
    ensures PaymentsKept(e.payments, e'.payments) && DisputesKept(e.status, e.disputes, e'.disputes)
    ensures TransfersKept(e.transfers, e'.transfers) && PayoutKept(e.payout, e'.payout)
  {
  }

  /** The state after a prefix is an earlier state: what it had settled is never undone. */
  lemma {:induction false} RunOnlyMovesForward(t: Terms, steps: seq<Step>, i: nat)
    requires i <= |steps| && After(Drafted(t), steps, true).Some?
    ensures After(Drafted(t), steps[..i], true).Some?
    ensures Later(After(Drafted(t), steps[..i], true).value, After(Drafted(t), steps, true).value)
    decreases |steps|
  {
    hide Inv, Later, Enabled, Do, CountsAgree;
    var e' := After(Drafted(t), steps, true).value;
    if i == |steps| {
      assert steps[..i] == steps;
      LaterReflexive(e');
    } else {
      var shorter := steps[..|steps| - 1];
      assert shorter[..i] == steps[..i];
      RunOnlyMovesForward(t, shorter, i);
      RunKeeps(t, shorter);
      StepKeeps(After(Drafted(t), shorter, true).value, steps[|steps| - 1]);
      LaterTransitive(After(Drafted(t), shorter[..i], true).value, After(Drafted(t), shorter, true).value, e');
    }
  }

  // --- Transfers ---------------------------------------------------------------------------

  /**
   Every run mixing duplicated release jobs, redelivered webhooks, crashes anywhere and overlapping
   retries that agree on the attempt count leaves at most one transfer pending or successful, and
   every transfer ever sent is for exactly the seller settlement.
   */
  lemma AtMostOneLiveTransfer(t: Terms, steps: seq<Step>, a: Attempt, b: Attempt)
    requires After(Drafted(t), steps, true).Some?
    requires var m := After(Drafted(t), steps, true).value.transfers; a in m && b in m && Live(m[a]) && Live(m[b])
    ensures a == b && After(Drafted(t), steps, true).value.transfers[a].amount == SellerSettlement(t)
  {
    hide LogsAgree, PaymentsSound, DisputesSound, ProcessesSound, RowFailed, Disbursed;
    RunKeeps(t, steps);
  }

  /** A process that is about to call the provider holds no stale permission. */
  lemma SendingIsUnfrozen(e: Escrow, p: ProcessId)
    requires Inv(e) && p in e.procs && e.procs[p].Sending?
    ensures Releasing(e.status) && NoneFreezing(e.disputes)
    ensures forall q :: q in e.procs ==> !e.procs[q].DisputeDue?
  {
    hide Inv, Excludes, Fits;
    Mover(e, p);
    NoneDue(e);
  }

  /** Whenever a step creates a transfer, first send or retry, no dispute is open or about to be opened. */
  lemma NoTransferUnderDispute(t: Terms, steps: seq<Step>, s: Step, a: Attempt)
    requires After(Drafted(t), steps, true).Some? && Enabled(After(Drafted(t), steps, true).value, s)
    requires a !in After(Drafted(t), steps, true).value.transfers
      && a in Do(After(Drafted(t), steps, true).value, s).transfers
    ensures var e := After(Drafted(t), steps, true).value;
      NoneFreezing(e.disputes) && forall q :: q in e.procs ==> !e.procs[q].DisputeDue?
  {
    RunKeeps(t, steps);
    var e := After(Drafted(t), steps, true).value;
    hide Inv;
    assert s.Resume? && e.procs[s.p].Sending? by { OnlySendingCreates(e, s, a); }
    SendingIsUnfrozen(e, s.p);
  }

  lemma OnlySendingCreates(e: Escrow, s: Step, a: Attempt)
    requires Enabled(e, s) && a !in e.transfers && a in Do(e, s).transfers
    ensures s.Resume? && e.procs[s.p].Sending?
  {
    if s.Resume? {
      hide Suits;
      StatementCreates(e, s.p, e.procs[s.p], s.input, a);
    } else {
      hide Advance;
      StartsCreateNothing(e, s, a);
    }
  }

  lemma StartsCreateNothing(e: Escrow, s: Step, a: Attempt)
    requires Enabled(e, s) && !s.Resume? && a in Do(e, s).transfers
    ensures a in e.transfers
  {
    hide Advance, AnyFreezing, AnyOpen;
  }

  lemma StatementCreates(e: Escrow, p: ProcessId, x: Process, input: Input, a: Attempt)
    requires p in e.procs && e.procs[p] == x && Suits(e, x, input)
    requires a !in e.transfers && a in Advance(e, p, input).transfers
    ensures x.Sending?
  {
    hide Advance, Suits;
    if PaysOut(x) {
      PayoutStatementCreates(e, p, x, input);
    } else {
      OtherStatementCreates(e, p, x, input);
    }
  }

  predicate PaysOut(x: Process) {
    || x.ReleaseRead? || x.ReleaseCleared? || x.Sending? || x.SendErrored? || x.SendConfirmed? || x.SendFailed?
    || x.RetryRead? || x.RetryCleared? || x.RetryChecked? || x.Paying? || x.PayWrite? || x.Failing? || x.FailWrite?
  }

  lemma PayoutStatementCreates(e: Escrow, p: ProcessId, x: Process, input: Input)
    requires p in e.procs && e.procs[p] == x && Suits(e, x, input) && PaysOut(x)
    ensures !x.Sending? ==> Advance(e, p, input).transfers == e.transfers
  {
    hide AnyFreezing, AnyOpen, OtherFreezing, SellerSettlement,
      ChargeAmount, Decide, BindCharge, ReadPayment, RecordVerdict,
         Commit, Proceed, CallTransfer;
  }

  lemma OtherStatementCreates(e: Escrow, p: ProcessId, x: Process, input: Input)
    requires p in e.procs && e.procs[p] == x && Suits(e, x, input) && !PaysOut(x)
    ensures Advance(e, p, input).transfers == e.transfers
  {
    hide Transition, AnyFreezing, AnyOpen, OtherFreezing, Appended, ChargeAmount, Authorize, CallTransfer, RecordSent,
         RecordSendFailure, CheckPrior, ResetPayout, WritePaid, WriteFailed;
  }

  /** At most one dispute row in a whole run: the same row, once it exists. */
  lemma OneDisputeEver(t: Terms, steps: seq<Step>, i: nat, d: DisputeId, d': DisputeId)
    requires i <= |steps| && After(Drafted(t), steps, true).Some? && After(Drafted(t), steps[..i], true).Some?
    requires d in After(Drafted(t), steps[..i], true).value.disputes
      && d' in After(Drafted(t), steps, true).value.disputes
    ensures d == d'
  {
    hide LogsAgree, PaymentsSound, PayoutSound, ProcessesSound, Later;
    RunOnlyMovesForward(t, steps, i);
    RunKeeps(t, steps);
    LaterTerms(After(Drafted(t), steps[..i], true).value, After(Drafted(t), steps, true).value);
  }

  // --- Status ------------------------------------------------------------------------------

  /** A committed transition is the one the machine takes on the data at commit time. */
  lemma EveryCommitIsFresh(t: Terms, steps: seq<Step>, s: Step)
    requires After(Drafted(t), steps, true).Some? && Enabled(After(Drafted(t), steps, true).value, s)
    requires Do(After(Drafted(t), steps, true).value, s).status != After(Drafted(t), steps, true).value.status
    ensures var e := After(Drafted(t), steps, true).value;
      && s.Resume? && e.procs[s.p].Decided?
      && Transition(e.status, e.procs[s.p].event, ContextNow(e, e.procs[s.p])) == Accept(Do(e, s).status)
  {
    hide Inv, Do, Enabled;
    RunKeeps(t, steps);
    var e := After(Drafted(t), steps, true).value;
    OnlyCommitMovesStatus(e, s);
    CommitIsFresh(e, s.p);
  }

  /** Moving a process on, or ending it, is not a change of status. */
  lemma MovesKeepStatus(p: ProcessId)
    ensures forall b: Escrow, x: Process {:trigger Goto(b, p, x)} :: Goto(b, p, x).status == b.status
    ensures forall b: Escrow {:trigger Halt(b, p)} :: Halt(b, p).status == b.status
  {
  }

  lemma OnlyCommitMovesStatus(e: Escrow, s: Step)
    requires Enabled(e, s) && Do(e, s).status != e.status
    ensures s.Resume? && s.p in e.procs && e.procs[s.p].Decided?
    ensures e.status == e.procs[s.p].from && Do(e, s).status == e.procs[s.p].to
  {
    if s.Resume? {
      StatementMovesStatus(e, s.p, e.procs[s.p], s.input);
    } else {
      StartsKeepStatus(e, s);
    }
  }

  lemma StartsKeepStatus(e: Escrow, s: Step)
    requires Enabled(e, s) && !s.Resume?
    ensures Do(e, s).status == e.status
  {
    hide Advance, Goto, Halt, Suits, Freezing;
    if !s.MoveCharge? && !s.SettleTransfer? {
      MovesKeepStatus(s.p);
    }
  }

  lemma StatementMovesStatus(e: Escrow, p: ProcessId, x: Process, input: Input)
    requires p in e.procs && e.procs[p] == x && Suits(e, x, input)
    ensures Advance(e, p, input).status == if x.Decided? && e.status == x.from then x.to else e.status
  {
    hide Goto, Halt, Transition, AnyFreezing, AnyOpen, OtherFreezing, SellerSettlement, ChargeAmount, Appended;
    MovesKeepStatus(p);
  }

  /** A status seen twice was held all along, so comparing the status alone detects every interference. */
  lemma StatusNeverRecurs(t: Terms, steps: seq<Step>, i: nat, j: nat)
    requires i <= j <= |steps| && After(Drafted(t), steps, true).Some?
    requires After(Drafted(t), steps[..i], true).Some? && After(Drafted(t), steps[..j], true).Some?
    requires After(Drafted(t), steps[..i], true).value.status == After(Drafted(t), steps, true).value.status
    ensures After(Drafted(t), steps[..j], true).value.status == After(Drafted(t), steps[..i], true).value.status
  {
    hide Later;
    RunOnlyMovesForward(t, steps, j);
    assert steps[..j][..i] == steps[..i];
    RunOnlyMovesForward(t, steps[..j], i);
    LaterTerms(After(Drafted(t), steps[..i], true).value, After(Drafted(t), steps[..j], true).value);
    LaterTerms(After(Drafted(t), steps[..j], true).value, After(Drafted(t), steps, true).value);
  }

  /**
   Timeline, audit and outbox tell one story: a chain of shipped edges from Draft, at most
   eight long and without a repeated status, replays to the stored status and yields all three.
   */
  lemma LogsRefineTheMachine(t: Terms, steps: seq<Step>)
    requires After(Drafted(t), steps, true).Some?
    ensures var e := After(Drafted(t), steps, true).value;
      LogsAgree(t, e.status, e.logs) && |e.logs.commits| <= 8 && !Revisits(e.logs.commits)
  {
    hide PaymentsSound, PayoutSound, DisputesSound, ProcessesSound, Revisits;
    RunKeeps(t, steps);
    NoRevisit(After(Drafted(t), steps, true).value.logs.commits);
  }

  /** No merchant, no outbox row. */
  lemma {:induction false} OutboxNeedsMerchant(t: Terms, es: seq<Edge>)
    ensures t.merchant.None? ==> OutboxOf(t, es) == []
    ensures t.merchant.Some? ==> |OutboxOf(t, es)| == Outbound(es)
    ensures forall r :: r in OutboxOf(t, es) ==> r.merchant == t.merchant.GetOr("") && r.amount == t.amount
  {
    if es != [] {
      OutboxNeedsMerchant(t, es[..|es| - 1]);
    }
  }

  /** How many edges of a chain concern the merchant. */
  function Outbound(es: seq<Edge>): nat {
    if es == [] then 0
    else Outbound(es[..|es| - 1]) + if OutboundKindOf(es[|es| - 1].event).Some? then 1 else 0
  }

  // --- Payments ----------------------------------------------------------------------------

  lemma OnePaymentRow(e: Escrow)
    requires Inv(e)
    ensures forall i, j :: i in e.payments && j in e.payments ==> i == j
  {
    hide Inv;
    OnePayment(e);
  }

  lemma ProtectedFacts(e: Escrow) returns (id: PaymentId, charge: ChargeRef)
    requires Inv(e) && Onward(PaymentProtected, e.status)
    ensures PaidBy(e.terms, e.payments, e.charges, id, charge)
    ensures e.payments == map[id := e.payments[id]] && e.payments[id].amount == ChargeAmount(e.terms)
  {
    hide LogsAgree, PayoutSound, DisputesSound, ProcessesSound, Tied;
    id, charge :| PaidBy(e.terms, e.payments, e.charges, id, charge);
    assert e.payments == map[id := e.payments[id]];
  }

  /** Protection, and everything after it, rests on one exact, provider-confirmed charge. */
  lemma ProtectedMeansCollected(t: Terms, steps: seq<Step>)
    requires After(Drafted(t), steps, true).Some?
      && Onward(PaymentProtected, After(Drafted(t), steps, true).value.status)
    ensures var e := After(Drafted(t), steps, true).value;
      exists id: PaymentId, charge: ChargeRef ::
        && PaidBy(t, e.payments, e.charges, id, charge)
        && e.payments == map[id := e.payments[id]]
        && e.payments[id].amount == ChargeAmount(t)
  {
    RunKeeps(t, steps);
    hide Inv;
    var id, charge := ProtectedFacts(After(Drafted(t), steps, true).value);
  }

  /** A charge reference, once bound to the payment row, is never replaced. */
  lemma NeverRebound(t: Terms, steps: seq<Step>, i: nat, id: PaymentId, charge: ChargeRef)
    requires i <= |steps| && After(Drafted(t), steps, true).Some? && After(Drafted(t), steps[..i], true).Some?
    requires var m := After(Drafted(t), steps[..i], true).value.payments; id in m && Tied(m[id], charge)
    ensures id in After(Drafted(t), steps, true).value.payments
      && Tied(After(Drafted(t), steps, true).value.payments[id], charge)
  {
    hide Later, Inv;
    RunOnlyMovesForward(t, steps, i);
    LaterTerms(After(Drafted(t), steps[..i], true).value, After(Drafted(t), steps, true).value);
    assert PaymentKept(After(Drafted(t), steps[..i], true).value.payments[id],
      After(Drafted(t), steps, true).value.payments[id]);
  }

  // --- Completion --------------------------------------------------------------------------

  lemma LastEntered(es: seq<Edge>, m: Status)
    requires PathFromDraft(es) && es != [] && m in Milestones(LastStatus(es))
    ensures Entered(es, m)
  {
    hide Transition;
    MilestonesEntered(es, |es| - 1, m);
  }

  /**
   Completed means: the transaction went through protection and release, its one payout row is
   for the settlement, and the provider holds exactly one transfer that is not lost, successful
   and for the settlement.
   */
  lemma CompletedMeansPaidOnce(t: Terms, steps: seq<Step>)
    requires After(Drafted(t), steps, true).Some? && After(Drafted(t), steps, true).value.status.Completed?
    ensures var e := After(Drafted(t), steps, true).value;
      && Entered(e.logs.commits, PaymentProtected) && Entered(e.logs.commits, ReleaseProcessing)
      && e.payout.Some? && e.payout.value.amount == SellerSettlement(t)
      && Base in e.transfers && e.transfers[Base] == Transfer(SellerSettlement(t), Succeeded)
      && forall b :: b in e.transfers && Live(e.transfers[b]) ==> b == Base
  {
    hide PaymentsSound, DisputesSound, ProcessesSound, RowFailed, Path, Milestones;
    RunKeeps(t, steps);
    var e := After(Drafted(t), steps, true).value;
    assert e.logs.commits != [];
    assert PaymentProtected in Milestones(Completed) && ReleaseProcessing in Milestones(Completed) by {
      CompletedMilestones();
    }
    LastEntered(e.logs.commits, PaymentProtected);
    LastEntered(e.logs.commits, ReleaseProcessing);
    hide LogsAgree, Entered, PathFromDraft;
    assert e.transfers[Base] == Transfer(SellerSettlement(t), Succeeded);
  }

  /**
   Only the first transfer completes a transaction: once a retry has been sent, the first transfer is
   lost for good, and the status is ReleaseProcessing for the rest of every run, whatever becomes of
   the retry.
   */
  lemma RetriedNeverCompletes(t: Terms, steps: seq<Step>, i: nat, a: Attempt)
    requires i <= |steps| && After(Drafted(t), steps, true).Some? && After(Drafted(t), steps[..i], true).Some?
    requires a.Retry? && a in After(Drafted(t), steps[..i], true).value.transfers
    ensures var e := After(Drafted(t), steps, true).value; e.status.ReleaseProcessing? && BaseLost(e.transfers)
  {
    hide Later, After;
    RunOnlyMovesForward(t, steps, i);
    LaterTerms(After(Drafted(t), steps[..i], true).value, After(Drafted(t), steps, true).value);
    RunKeeps(t, steps);
    RetriedFacts(After(Drafted(t), steps, true).value, a);
  }

  lemma RetriedFacts(e: Escrow, a: Attempt)
    requires Inv(e) && a.Retry? && a in e.transfers
    ensures e.status.ReleaseProcessing? && BaseLost(e.transfers)
  {
    hide LogsAgree, PaymentsSound, DisputesSound, ProcessesSound;
  }

  lemma CompletedMilestones()
    ensures PaymentProtected in Milestones(Completed) && ReleaseProcessing in Milestones(Completed)
  {
  }

  // --- The limits: interleavings outside the hypotheses ------------------------------------------

  lemma Go(e0: Escrow, e: Escrow, s: Step, agreed: bool)
    requires Reachable(e0, e, agreed) && Enabled(e, s) && (agreed ==> CountsAgree(e, s))
    ensures Reachable(e0, Do(e, s), agreed)
  {
    var steps :| After(e0, steps, agreed) == Some(e);
    var longer := steps + [s];
    hide Do, Enabled, CountsAgree;
    assert longer[..|longer| - 1] == steps;
    assert After(e0, longer, agreed) == Some(Do(e, s));
  }

  /** A lone process: start, run statement by statement, end. */
  lemma GoTo(e0: Escrow, e: Escrow, s: Step, e': Escrow, agreed: bool)
    requires Reachable(e0, e, agreed) && Enabled(e, s) && (agreed ==> CountsAgree(e, s)) && Do(e, s) == e'
    ensures Reachable(e0, e', agreed)
  {
    hide Do, Enabled, CountsAgree, Reachable;
    Go(e0, e, s, agreed);
  }

  /** One statement of process `p`. */
  lemma Act(e0: Escrow, e: Escrow, p: ProcessId, input: Input, agreed: bool)
    requires Reachable(e0, e, agreed) && p in e.procs && Suits(e, e.procs[p], input)
    ensures Reachable(e0, Advance(e, p, input), agreed)
  {
    hide Reachable, Advance;
    Go(e0, e, Resume(p, input), agreed);
  }

  /** What the next statement of each kind of process does, one case at a time. */
  lemma Statement(e0: Escrow, e: Escrow, p: ProcessId, x: Process, input: Input, agreed: bool)
    requires Reachable(e0, e, agreed) && p in e.procs && e.procs[p] == x && Suits(e, x, input)
    ensures x.Applying? ==> Reachable(e0, Decide(e, p, x.event, x.override, x.elapsed, x.after), agreed)
    ensures x.Decided? && x.from == e.status ==>
      Reachable(e0, Proceed(Commit(e, Edge(x.from, x.event, x.context, x.to)), p, x.after), agreed)
    ensures x.Sending? ==> Reachable(e0, CallTransfer(e, p, x.amount, x.attempt, input.created, input.answered), agreed)
    ensures x.SendErrored? && !input.answered ==> Reachable(e0, Goto(e, p, SendFailed(x.attempt)), agreed)
    ensures x.SendConfirmed? ==> Reachable(e0, RecordSent(e, p, x.attempt), agreed)
    ensures x.SendFailed? ==> Reachable(e0, RecordSendFailure(e, p), agreed)
    ensures x.Paying? && Unsettled(e) ==> Reachable(e0, Goto(e, p, PayWrite(x.code)), agreed)
    ensures x.PayWrite? ==> Reachable(e0, WritePaid(e, p, x.code), agreed)
    ensures x.Failing? && Unsettled(e) ==> Reachable(e0, Goto(e, p, FailWrite(x.outcome)), agreed)
    ensures x.FailWrite? ==> Reachable(e0, WriteFailed(e, p, x.outcome), agreed)
    ensures x.Verifying? && x.charge in e.charges ==>
      Reachable(e0, Goto(e, p, Verdict(x.payment, x.charge, x.source, e.charges[x.charge])), agreed)
    ensures x.Verdict? && x.payment in e.payments ==>
      Reachable(e0, RecordVerdict(e, p, x.payment, x.source, x.answer), agreed)
  {
    hide Reachable, Decide, Proceed, Commit, CallTransfer, RecordSent,
      RecordSendFailure, WritePaid, WriteFailed, RecordVerdict;
    Act(e0, e, p, input, agreed);
  }

  lemma ApplyAlone(t: Terms, e: Escrow, event: Event, to: Status, agreed: bool) returns (e': Escrow)
    requires Reachable(Drafted(t), e, agreed) && e.procs == map[] && e.disputes == map[] && Standalone(event)
    requires Transition(e.status, event, Context(e.terms.releaseRule, false, event.AutoConfirm?)) == Accept(to)
    ensures Reachable(Drafted(t), e', agreed) && e' == e.(status := to, logs := e'.logs)
  {
    hide Reachable;
    var context := Context(e.terms.releaseRule, false, event.AutoConfirm?);
    var e1 := e.(procs := map[0 := Applying(event, None, event.AutoConfirm?, Stop)]);
    GoTo(Drafted(t), e, StartApply(0, event), e1, agreed);
    var e2 := e.(procs := map[0 := Decided(event, context, e.status, to, Stop)]);
    assert !AnyFreezing(e1);
    assert Advance(e1, 0, NoInput) == e2;
    Act(Drafted(t), e1, 0, NoInput, agreed);
    e' := Commit(e, Edge(e.status, event, context, to));
    assert Advance(e2, 0, NoInput) == e';
    Act(Drafted(t), e2, 0, NoInput, agreed);
  }

  const ORDER := "mdn_1"

  function OrderPaid(t: Terms): map<PaymentId, Payment> { map[0 := Payment(ORDER, None, None, ChargeAmount(t), Paid)] }

  function OrderOpen(t: Terms): map<PaymentId, Payment> {
    map[0 := Payment(ORDER, None, None, ChargeAmount(t), AwaitingCharge)]
  }

  function OrderCharged(t: Terms): map<ChargeRef, Charge> { map[ORDER := Charge(Charged, ChargeAmount(t))] }

  /** A run that checks out a published transaction. */
  lemma CheckoutAlone(t: Terms, e: Escrow, agreed: bool) returns (e': Escrow)
    requires Reachable(Drafted(t), e, agreed) && e.terms == t && e.status.LinkActive?
    requires e.procs == map[] && e.disputes == map[] && e.payments == map[]
    ensures Reachable(Drafted(t), e', agreed)
    ensures e' == e.(status := PaymentPending, logs := e'.logs, payments := OrderOpen(t))
  {
    hide Reachable;
    var x := Applying(BuyerInitiateCheckout, None, false, InsertPayment(false));
    var e1 := e.(procs := map[0 := x]);
    GoTo(Drafted(t), e, StartCheckout(0, false), e1, agreed);
    var context := Context(t.releaseRule, false, false);
    var e2 := e.(procs :=
      map[0 := Decided(BuyerInitiateCheckout, context, LinkActive, PaymentPending, InsertPayment(false))]);
    assert !AnyFreezing(e1);
    assert Advance(e1, 0, NoInput) == e2;
    Act(Drafted(t), e1, 0, NoInput, agreed);
    var logs := Appended(t, e.logs, Edge(LinkActive, BuyerInitiateCheckout, context, PaymentPending));
    var e3 := e.(status := PaymentPending, logs := logs, procs := map[0 := PaymentDue(false)]);
    assert Advance(e2, 0, NoInput) == e3;
    Act(Drafted(t), e2, 0, NoInput, agreed);
    e' := e3.(payments := OrderOpen(t), procs := map[]);
    assert Advance(e3, 0, Minted(0, ORDER, None)) == e';
    Act(Drafted(t), e3, 0, Minted(0, ORDER, None), agreed);
  }

  /** A run that collects the payment of a published transaction. */
  lemma CollectAlone(t: Terms, e: Escrow, agreed: bool) returns (e': Escrow)
    requires Reachable(Drafted(t), e, agreed) && e.terms == t && e.status.LinkActive?
    requires e.procs == map[] && e.disputes == map[] && e.payments == map[] && e.charges == map[]
    ensures Reachable(Drafted(t), e', agreed) && e'.status.PaymentProtected?
    ensures e' == e.(status := PaymentProtected, logs := e'.logs, payments := OrderPaid(t), charges := OrderCharged(t))
  {
    hide Reachable;
    e' := CheckoutAlone(t, e, agreed);
    e' := VerifyAlone(t, e', agreed);
  }

  /** `apply` from start to commit, for a process that stops afterwards. */
  lemma FinishApply(t: Terms, e: Escrow, p: ProcessId, event: Event, to: Status, agreed: bool) returns (e': Escrow)
    requires Reachable(Drafted(t), e, agreed) && e.terms == t && e.disputes == map[]
    requires p in e.procs && e.procs[p] == Applying(event, None, false, Stop)
    requires Transition(e.status, event, Context(t.releaseRule, false, false)) == Accept(to)
    ensures Reachable(Drafted(t), e', agreed) && e' == e.(status := to, logs := e'.logs, procs := e.procs - {p})
  {
    hide Reachable, Transition;
    var context := Context(t.releaseRule, false, false);
    Statement(Drafted(t), e, p, e.procs[p], NoInput, agreed);
    assert !AnyFreezing(e);
    var e1 := Goto(e, p, Decided(event, context, e.status, to, Stop));
    Statement(Drafted(t), e1, p, e1.procs[p], NoInput, agreed);
    e' := Halt(Commit(e1, Edge(e.status, event, context, to)), p);
    assert e'.procs == e.procs - {p};
  }

  /** Process 0 verifies the order the provider has just collected, whatever else is running. */
  lemma VerifyAlone(t: Terms, e: Escrow, agreed: bool) returns (e': Escrow)
    requires Reachable(Drafted(t), e, agreed) && e.terms == t && e.status.PaymentPending?
    requires 0 !in e.procs && e.disputes == map[] && (ORDER in e.charges ==> !e.charges[ORDER].state.Charged?)
    requires e.payments == OrderOpen(t)
    ensures Reachable(Drafted(t), e', agreed) && e'.status.PaymentProtected?
    ensures e' == e.(status := PaymentProtected, logs := e'.logs, payments := OrderPaid(t),
                     charges := e.charges[ORDER := Charge(Charged, ChargeAmount(t))])
  {
    hide Reachable, Do, Enabled, Advance, Transition, ChargeAmount;
    var paid := e.(payments := OrderPaid(t), charges := e.charges[ORDER := Charge(Charged, ChargeAmount(t))]);
    VerdictAlone(t, e, agreed);
    var e1 := Goto(paid, 0, Applying(PaymentVerified(ServerVerify), None, false, Stop));
    ProtectsPending(t);
    e' := FinishApply(t, e1, 0, PaymentVerified(ServerVerify), PaymentProtected, agreed);
    assert e1.procs - {0} == e.procs;
  }

  lemma ProtectsPending(t: Terms)
    ensures Transition(PaymentPending, PaymentVerified(ServerVerify), Context(t.releaseRule, false, false)) ==
      Accept(PaymentProtected)
  {
  }

  /** From the charge to the paid row. */
  lemma VerdictAlone(t: Terms, e: Escrow, agreed: bool)
    requires Reachable(Drafted(t), e, agreed) && 0 !in e.procs
      && (ORDER in e.charges ==> !e.charges[ORDER].state.Charged?)
    requires e.payments == OrderOpen(t)
    ensures Reachable(Drafted(t),
      Goto(e.(payments := OrderPaid(t), charges := e.charges[ORDER := Charge(Charged, ChargeAmount(t))]),
                                       0, Applying(PaymentVerified(ServerVerify), None, false, Stop)), agreed)
  {
    hide Reachable, Do, Enabled, Advance, ChargeAmount;
    var paid := Charge(Charged, ChargeAmount(t));
    var e1 := e.(charges := e.charges[ORDER := paid]);
    ChargeThenVerify(t, e, agreed);
    var e2 := Goto(e1, 0, Verifying(0, ORDER, ServerVerify));
    Statement(Drafted(t), e2, 0, e2.procs[0], NoInput, agreed);
    var e3 := Goto(e2, 0, Verdict(0, ORDER, ServerVerify, paid));
    Statement(Drafted(t), e3, 0, e3.procs[0], NoInput, agreed);
    var x := Applying(PaymentVerified(ServerVerify), None, false, Stop);
    assert e3.procs[0 := x] == e.procs[0 := x];
    assert e.payments[0 := e.payments[0].(status := Paid)] == OrderPaid(t);
  }

  /** The provider collects the order and the browser-return path starts to verify it. */
  lemma ChargeThenVerify(t: Terms, e: Escrow, agreed: bool)
    requires Reachable(Drafted(t), e, agreed) && 0 !in e.procs
      && (ORDER in e.charges ==> !e.charges[ORDER].state.Charged?)
    requires e.payments == OrderOpen(t)
    ensures Reachable(Drafted(t), Goto(e.(charges := e.charges[ORDER := Charge(Charged, ChargeAmount(t))]), 0,
                                       Verifying(0, ORDER, ServerVerify)), agreed)
  {
    hide Reachable, Advance;
    var e1 := e.(charges := e.charges[ORDER := Charge(Charged, ChargeAmount(t))]);
    GoTo(Drafted(t), e, MoveCharge(ORDER, Charge(Charged, ChargeAmount(t))), e1, agreed);
    GoTo(Drafted(t), e1, StartVerify(0, 0, false), Goto(e1, 0, Verifying(0, ORDER, ServerVerify)), agreed);
  }

  /** A verifier that asks too early: it holds the answer that the charge is still open. */
  lemma VerifyTooEarly(t: Terms, e: Escrow) returns (e': Escrow)
    requires Reachable(Drafted(t), e, true) && e.procs == map[] && e.charges == map[] && e.payments == OrderOpen(t)
    ensures Reachable(Drafted(t), e', true)
    ensures var open := Charge(ChargeOpen, ChargeAmount(t));
      e' == e.(charges := map[ORDER := open], procs := map[1 := Verdict(0, ORDER, ServerVerify, open)])
  {
    hide Reachable, Advance;
    var open := Charge(ChargeOpen, ChargeAmount(t));
    var e1 := e.(charges := map[ORDER := open]);
    GoTo(Drafted(t), e, MoveCharge(ORDER, open), e1, true);
    var e2 := Goto(e1, 1, Verifying(0, ORDER, ServerVerify));
    GoTo(Drafted(t), e1, StartVerify(1, 0, false), e2, true);
    Statement(Drafted(t), e2, 1, e2.procs[1], NoInput, true);
    e' := Goto(e2, 1, Verdict(0, ORDER, ServerVerify, open));
  }

  /**
   Finer than whole methods, a paid payment row is not final either: a verifier that asked before the
   charge succeeded can write its failure after another one has protected the transaction.
   */
  lemma PaidRowCanBeOverwritten(t: Terms) returns (e: Escrow)
    ensures Reachable(Drafted(t), e, true) && e.status.PaymentProtected?
    ensures 0 in e.payments && e.payments[0].status.ChargeFailed?
    ensures ORDER in e.charges && e.charges[ORDER] == Charge(Charged, ChargeAmount(t))
  {
    hide Reachable, Do, Enabled, Advance;
    StartsReachable(t);
    e := ApplyAlone(t, Drafted(t), SellerPublish, LinkActive, true);
    e := CheckoutAlone(t, e, true);
    e := VerifyTooEarly(t, e);
    e := VerifyAlone(t, e, true);
    Statement(Drafted(t), e, 1, e.procs[1], NoInput, true);
    e := RecordVerdict(e, 1, 0, ServerVerify, Charge(ChargeOpen, ChargeAmount(t)));
  }

  lemma StartsReachable(t: Terms)
    ensures Reachable(Drafted(t), Drafted(t), true)
  {
    assert After(Drafted(t), [], true) == Some(Drafted(t));
  }

  /** Every set of terms has a run to ReleaseProcessing with nothing sent yet. */
  lemma ReachRelease(t: Terms, agreed: bool) returns (e: Escrow)
    ensures Reachable(Drafted(t), e, agreed) && e.terms == t && e.status.ReleaseProcessing?
    ensures e.procs == map[] && e.disputes == map[] && e.payout == None && e.seen == {} && e.transfers == map[]
    ensures e.payments == OrderPaid(t) && e.charges == OrderCharged(t)
  {
    assert After(Drafted(t), [], agreed) == Some(Drafted(t));
    hide Reachable;
    e := ApplyAlone(t, Drafted(t), SellerPublish, LinkActive, agreed);
    e := CollectAlone(t, e, agreed);
    e := ApplyAlone(t, e, SellerStartDelivery, DeliveryInProgress, agreed);
    e := ApplyAlone(t, e, SellerMarkDelivered, ConfirmationPending, agreed);
    e := ApplyAlone(t, e, BuyerConfirm, ReleaseProcessing, agreed);
  }

  /** A release job brought up to its provider call. */
  lemma StartSending(t: Terms, e: Escrow, p: ProcessId, agreed: bool) returns (e': Escrow)
    requires Reachable(Drafted(t), e, agreed) && e.terms == t
      && e.status.ReleaseProcessing? && p !in e.procs && e.disputes == map[]
    requires e.payout.Some? ==>
      e.payout.value == Payout(SellerSettlement(t), Queued, None, None, e.payout.value.attempts)
    ensures Reachable(Drafted(t), e', agreed)
    ensures e' == e.(payout :=
      Some(Payout(SellerSettlement(t), Queued, None, None, if e.payout.Some? then e.payout.value.attempts else 0)),
                     procs := e.procs[p := Sending(SellerSettlement(t), Base)])
  {
    hide Reachable;
    var e1 := Goto(e, p, ReleaseRead);
    GoTo(Drafted(t), e, StartRelease(p), e1, agreed);
    var e2 := Goto(e, p, ReleaseCleared);
    assert !AnyOpen(e1);
    assert Advance(e1, p, NoInput) == e2;
    Act(Drafted(t), e1, p, NoInput, agreed);
    e' := Authorize(e2, p);
    assert Advance(e2, p, NoInput) == e';
    Act(Drafted(t), e2, p, NoInput, agreed);
  }

  /**
   Finer than whole methods, a settled payout row is not final: the sender's own record can land
   after the success webhook and put the row back to Processing while the transaction is Completed.
   */
  lemma SettledRowCanBeOverwritten(t: Terms) returns (e: Escrow)
    ensures Reachable(Drafted(t), e, true) && e.status.Completed? && e.payout.Some? && e.payout.value.status.Processing?
  {
    hide Reachable, Do, Enabled, Advance, Transition;
    var e0 := ReachRelease(t, true);
    var e1 := StartSending(t, e0, 1, true);
    Statement(Drafted(t), e1, 1, e1.procs[1], Reply(true, true), true);
    var e2 := CallTransfer(e1, 1, SellerSettlement(t), Base, true, true);
    var e3 := OutcomeArrives(t, e2, 2, Succeeded, true);
    var e4 := SettleRow(t, e3, 2);
    Statement(Drafted(t), e4, 1, e4.procs[1], NoInput, true);
    e := RecordSent(e4, 1, Base);
  }

  /** The provider decides a pending first transfer and its event is received. */
  lemma OutcomeArrives(t: Terms, e: Escrow, p: ProcessId, outcome: TransferState, agreed: bool) returns (e': Escrow)
    requires Reachable(Drafted(t), e, agreed) && Base in e.transfers
      && e.transfers[Base].state.Pending? && !outcome.Pending?
    requires p !in e.procs && Base !in e.seen
    ensures Reachable(Drafted(t), e', agreed)
    ensures e' == e.(transfers := e.transfers[Base := e.transfers[Base].(state := outcome)], seen := e.seen + {Base},
                     procs := e.procs[p := if outcome.Succeeded? then Paying(Base) else Failing(outcome)])
  {
    hide Reachable, Advance;
    var e1 := e.(transfers := e.transfers[Base := e.transfers[Base].(state := outcome)]);
    GoTo(Drafted(t), e, SettleTransfer(Base, outcome), e1, agreed);
    e' := ReceiveOutcome(e1, p, Base);
    GoTo(Drafted(t), e1, OutcomeEvent(p, Base), e', agreed);
  }

  lemma SettleRow(t: Terms, e: Escrow, p: ProcessId) returns (e': Escrow)
    requires Reachable(Drafted(t), e, true) && e.terms == t && e.disputes == map[] && e.status.ReleaseProcessing?
    requires p in e.procs && e.procs[p] == Paying(Base) && Unsettled(e)
    ensures Reachable(Drafted(t), e', true) && e'.status.Completed? && e'.payout.Some? && e'.procs == e.procs - {p}
    ensures e'.terms == t && e'.transfers == e.transfers && e'.charges == e.charges && e'.payments == e.payments
  {
    hide Reachable;
    Statement(Drafted(t), e, p, e.procs[p], NoInput, true);
    var e1 := Goto(e, p, PayWrite(Base));
    Statement(Drafted(t), e1, p, e1.procs[p], NoInput, true);
    var e2 := WritePaid(e1, p, Base);
    e' := FinishApply(t, e2, p, PayoutSucceeded, Completed, true);
    assert e2.procs - {p} == e.procs - {p};
  }

  /** Every set of terms has a run to completion. */
  lemma ReachCompleted(t: Terms) returns (e: Escrow)
    ensures Reachable(Drafted(t), e, true) && e.status.Completed? && e.terms == t
    ensures e.payments == OrderPaid(t) && e.charges == OrderCharged(t)
    ensures e.transfers == map[Base := Transfer(SellerSettlement(t), Succeeded)]
  {
    hide Reachable, Do, Enabled, Advance, Transition, OrderPaid, OrderCharged;
    var e0 := ReachRelease(t, true);
    var e1 := StartSending(t, e0, 1, true);
    var e2 := SendAndRecord(t, e1, 1, true);
    var e3 := OutcomeArrives(t, e2, 1, Succeeded, true);
    e := SettleRow(t, e3, 1);
  }

  /** The first transfer fails and is recorded as failed, while a slower job still has a failure to count. */
  lemma ReachFailedPayout(t: Terms, agreed: bool) returns (e: Escrow)
    ensures Reachable(Drafted(t), e, agreed) && e.terms == t && e.disputes == map[]
    ensures e.transfers == map[Base := Transfer(SellerSettlement(t), Failed)]
    ensures e.payout == Some(Payout(SellerSettlement(t), Failure, Some(Base), Some(Base), 1))
    ensures 1 in e.procs && e.procs[1] == SendFailed(Base) && forall q :: q in e.procs ==> q == 1
  {
    hide Reachable, Do, Enabled, Advance, Transition;
    var e0 := ReachRelease(t, agreed);
    var e1 := StartSending(t, e0, 1, agreed);
    var e2 := FailToSend(t, e1, 1, agreed);
    var e3 := StartSending(t, e2, 2, agreed);
    var e4 := SendAndRecord(t, e3, 2, agreed);
    var e5 := OutcomeArrives(t, e4, 2, Failed, agreed);
    e := FailRow(t, e5, 2, agreed);
  }

  lemma SendAndRecord(t: Terms, e: Escrow, p: ProcessId, agreed: bool) returns (e': Escrow)
    requires Reachable(Drafted(t), e, agreed) && p in e.procs
      && e.procs[p].Sending? && e.procs[p].attempt !in e.transfers
    requires e.payout.Some?
    ensures Reachable(Drafted(t), e', agreed)
    ensures var a := e.procs[p].attempt; var row := e.payout.value;
      e' == e.(transfers := e.transfers[a := Transfer(e.procs[p].amount, Pending)], procs := e.procs - {p},
               payout := Some(row.(code := Some(a), reference := Some(a),
                 status := Processing, attempts := row.attempts + 1)))
  {
    hide Reachable;
    var x := e.procs[p];
    Statement(Drafted(t), e, p, x, Reply(true, true), agreed);
    var e1 := CallTransfer(e, p, x.amount, x.attempt, true, true);
    Statement(Drafted(t), e1, p, e1.procs[p], NoInput, agreed);
    e' := RecordSent(e1, p, x.attempt);
    assert e'.procs == e.procs - {p};
  }

  /** A call that never reaches the provider, looked up and found missing. */
  lemma FailToSend(t: Terms, e: Escrow, p: ProcessId, agreed: bool) returns (e': Escrow)
    requires Reachable(Drafted(t), e, agreed) && p in e.procs && e.procs[p].Sending?
    ensures Reachable(Drafted(t), e', agreed) && e' == Goto(e, p, SendFailed(e.procs[p].attempt))
  {
    hide Reachable;
    Statement(Drafted(t), e, p, e.procs[p], Reply(false, false), agreed);
    var e1 := Goto(e, p, SendErrored(e.procs[p].attempt));
    Statement(Drafted(t), e1, p, e1.procs[p], Reply(false, false), agreed);
    e' := Goto(e1, p, SendFailed(e.procs[p].attempt));
    assert e'.procs == e.procs[p := SendFailed(e.procs[p].attempt)];
  }

  lemma FailRow(t: Terms, e: Escrow, p: ProcessId, agreed: bool) returns (e': Escrow)
    requires Reachable(Drafted(t), e, agreed) && p in e.procs && e.procs[p] == Failing(Failed) && Unsettled(e)
    ensures Reachable(Drafted(t), e', agreed)
    ensures e' == e.(payout := Some(e.payout.value.(status := Failure)), procs := e.procs - {p})
  {
    hide Reachable;
    Statement(Drafted(t), e, p, e.procs[p], NoInput, agreed);
    var e1 := Goto(e, p, FailWrite(Failed));
    Statement(Drafted(t), e1, p, e1.procs[p], NoInput, agreed);
    e' := WriteFailed(e1, p, Failed);
    assert e'.procs == e.procs - {p};
  }
}
