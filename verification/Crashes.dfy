/**
 What a crash between two statements of one method leaves behind for good, and exactly when.

 `apply` commits the status in one database transaction; the row that goes with it is written by the
 next statement. A process that dies in between leaves a status without its row, and nothing repairs it.
 */
module Crashes {
  import opened Wrappers
  import opened Machine
  import opened EscrowProtocol
  import opened EscrowInvariant
  import opened EscrowProof
  import opened PaymentSteps
  import opened ProcessSteps
  import opened EscrowRuns
  import opened Retries

  lemma FreshProcess(procs: map<ProcessId, Process>) returns (p: ProcessId)
    ensures p !in procs
  {
    p := AllBelow(procs.Keys);
    assert p !in procs.Keys;
  }

  lemma {:induction false} AllBelow(ids: set<nat>) returns (bound: nat)
    ensures forall i :: i in ids ==> i < bound
  {
    if ids == {} {
      bound := 0;
    } else {
      var i :| i in ids;
      var rest := AllBelow(ids - {i});
      bound := if i < rest then rest else i + 1;
      assert forall j :: j in ids ==> j == i || j in ids - {i};
    }
  }

  // --- A status is left only by a commit -----------------------------------------------------------

  /** Why the next status is the next: what the committing process knows. */
  lemma StatusLeft(e: Escrow, s: Step)
    requires Inv(e) && Enabled(e, s) && Do(e, s).status != e.status
    ensures s.Resume? && s.p in e.procs && e.procs[s.p].Decided? && Knows(e, e.procs[s.p])
    ensures e.procs[s.p].from == e.status && Do(e, s).status == e.procs[s.p].to
  {
    hide Inv, Do, Enabled, Excludes, Fits, Knows;
    OnlyCommitMovesStatus(e, s);
    Mover(e, s.p);
  }

  // --- Checkout without a payment -------------------------------------------------------------------

  ghost predicate PaymentOwed(e: Escrow) { exists p :: p in e.procs && e.procs[p].PaymentDue? }

  ghost predicate CheckedOutForNothing(e: Escrow) {
    e.status.PaymentPending? && e.payments == map[] && !PaymentOwed(e)
  }

  lemma NothingCollected(e: Escrow)
    requires e.payments == map[]
    ensures !Collected(e.terms, e.payments, e.charges)
  {
  }

  lemma PendingLeftByPayment(e: Escrow, x: Process)
    requires x.Decided? && Knows(e, x) && x.from.PaymentPending?
    ensures Collected(e.terms, e.payments, e.charges) && !x.after.InsertPayment?
  {
    hide Collected, Disbursed;
  }

  lemma CheckedOutForNothingStays(e: Escrow, s: Step)
    requires Inv(e) && Enabled(e, s) && CheckedOutForNothing(e)
    ensures CheckedOutForNothing(Do(e, s))
  {
    hide Inv, Do, Enabled, Knows, Excludes, Fits, Collected;
    var e' := Do(e, s);
    NothingCollected(e);
    if e'.status != e.status {
      StatusLeft(e, s);
      PendingLeftByPayment(e, e.procs[s.p]);
    }
    if id :| id in e'.payments {
      RowsFrom(e, s, id);
    }
    AnyStepAccounted(e, s);
    if q :| q in e'.procs && e'.procs[q].PaymentDue? {
      assert Accounted(e, s, q, e'.procs[q]);
      Mover(e, q);
      PendingLeftByPayment(e, e.procs[q]);
    }
  }

  lemma {:induction false} CheckedOutForNothingForever(e: Escrow, more: seq<Step>)
    requires Inv(e) && CheckedOutForNothing(e) && After(e, more, true).Some?
    ensures CheckedOutForNothing(After(e, more, true).value)
  {
    hide Inv, CheckedOutForNothing, Do, Enabled, CountsAgree, Later;
    if more != [] {
      CheckedOutForNothingForever(e, more[..|more| - 1]);
      RunKeepsFrom(e, more[..|more| - 1]);
      CheckedOutForNothingStays(After(e, more[..|more| - 1], true).value, more[|more| - 1]);
    }
  }

  /**
   Exactly when a transaction in PAYMENT_PENDING has a future: it has a payment, or the process that
   committed the checkout is still there to insert it. Otherwise it stays there without a payment.
   */
  lemma CheckoutGoesOnIff(t: Terms, e: Escrow)
    requires Reachable(Drafted(t), e, true) && e.status.PaymentPending?
    ensures (exists e' :: Reachable(e, e', true) && (!e'.status.PaymentPending? || e'.payments != map[]))
      <==> e.payments != map[] || PaymentOwed(e)
  {
    hide Inv, Reachable, After;
    ReachableIsSound(t, e);
    Start(e);
    if e.payments == map[] && PaymentOwed(e) {
      var e' := InsertOwed(e);
    }
    if !(e.payments != map[] || PaymentOwed(e)) {
      forall e' | Reachable(e, e', true) ensures e'.status.PaymentPending? && e'.payments == map[] {
        NothingEver(e, e');
      }
    }
  }

  lemma NothingEver(e: Escrow, e': Escrow)
    requires Inv(e) && CheckedOutForNothing(e) && Reachable(e, e', true)
    ensures e'.status.PaymentPending? && e'.payments == map[]
  {
    hide Inv, After;
    var more :| After(e, more, true) == Some(e');
    CheckedOutForNothingForever(e, more);
  }

  lemma InsertOwed(e: Escrow) returns (e': Escrow)
    requires Reachable(e, e, true) && PaymentOwed(e) && e.payments == map[]
    ensures Reachable(e, e', true) && e'.payments != map[]
  {
    hide Reachable;
    var p :| p in e.procs && e.procs[p].PaymentDue?;
    var input := Minted(0, "", if e.procs[p].virtualAccount then Some("") else None);
    e' := Advance(e, p, input);
    assert 0 in e'.payments;
    Act(e, e, p, input, true);
  }

  // --- DISPUTED without a dispute --------------------------------------------------------------------

  ghost predicate DisputeOwed(e: Escrow) { exists p :: p in e.procs && e.procs[p].DisputeDue? }

  ghost predicate DisputedForNothing(e: Escrow) {
    e.status.Disputed? && e.disputes == map[] && !DisputeOwed(e)
  }

  /** Only a ruling on a dispute row leaves DISPUTED. */
  lemma DisputedLeftByRuling(e: Escrow, x: Process)
    requires x.Decided? && Knows(e, x) && x.from.Disputed?
    ensures x.after.CloseDispute? && x.after.id in e.disputes
  {
    hide Collected, Disbursed;
  }

  lemma DisputedForNothingStays(e: Escrow, s: Step)
    requires Inv(e) && Enabled(e, s) && DisputedForNothing(e)
    ensures DisputedForNothing(Do(e, s))
  {
    hide Inv, Do, Enabled, Knows, Excludes, Fits;
    var e' := Do(e, s);
    if e'.status != e.status {
      StatusLeft(e, s);
      DisputedLeftByRuling(e, e.procs[s.p]);
    }
    AnyStepAccounted(e, s);
    if q :| q in e'.procs && e'.procs[q].DisputeDue? {
      assert Accounted(e, s, q, e'.procs[q]);
      Mover(e, q);
      DisputedLeftByRuling(e, e.procs[q]);
    }
  }

  lemma {:induction false} DisputedForNothingForever(e: Escrow, more: seq<Step>)
    requires Inv(e) && DisputedForNothing(e) && After(e, more, true).Some?
    ensures DisputedForNothing(After(e, more, true).value)
  {
    hide Inv, DisputedForNothing, Do, Enabled, CountsAgree, Later;
    if more != [] {
      DisputedForNothingForever(e, more[..|more| - 1]);
      RunKeepsFrom(e, more[..|more| - 1]);
      DisputedForNothingStays(After(e, more[..|more| - 1], true).value, more[|more| - 1]);
    }
  }

  /** A closed dispute was ruled on: the status has moved past DISPUTED. */
  predicate ClosedIsPast(e: Escrow) {
    forall d :: d in e.disputes && !Freezing(e.disputes[d]) ==> Rank(ReleaseProcessing) <= Rank(e.status)
  }

  lemma ClosingIsPast(e: Escrow, x: Process)
    requires x.DisputeClosing? && Knows(e, x)
    ensures Rank(ReleaseProcessing) <= Rank(e.status)
  {
  }

  lemma ClosedIsPastStays(e: Escrow, s: Step)
    requires Inv(e) && Enabled(e, s) && CountsAgree(e, s) && ClosedIsPast(e)
    ensures ClosedIsPast(Do(e, s))
  {
    hide Inv, Later, Do, Enabled, CountsAgree, Knows, Excludes, Fits, Accounted;
    AnyStepAccounted(e, s);
    StepKeeps(e, s);
    LaterTerms(e, Do(e, s));
    if s.Resume? && s.p in e.procs && e.procs[s.p].DisputeClosing? {
      Mover(e, s.p);
      ClosingIsPast(e, e.procs[s.p]);
    }
  }

  lemma {:induction false} ClosedIsPastAlways(t: Terms, steps: seq<Step>)
    requires After(Drafted(t), steps, true).Some?
    ensures ClosedIsPast(After(Drafted(t), steps, true).value)
  {
    hide Inv, ClosedIsPast, Do, Enabled, CountsAgree;
    if steps == [] {
      NothingClosed(t);
    } else {
      ClosedIsPastAlways(t, steps[..|steps| - 1]);
      RunKeeps(t, steps[..|steps| - 1]);
      ClosedIsPastStays(After(Drafted(t), steps[..|steps| - 1], true).value, steps[|steps| - 1]);
    }
  }

  lemma NothingClosed(t: Terms)
    ensures ClosedIsPast(Drafted(t))
  {
  }

  /** A run that rules on an open dispute for the seller. */
  lemma RuleForSeller(e0: Escrow, e: Escrow, d: DisputeId) returns (e': Escrow)
    requires Reachable(e0, e, true) && e.status.Disputed? && d in e.disputes && Freezing(e.disputes[d])
    requires forall o :: o in e.disputes ==> o == d
    ensures Reachable(e0, e', true) && e'.status.ReleaseProcessing?
  {
    hide Reachable;
    var p := FreshProcess(e.procs);
    var e1 := Goto(e, p, ResolveRead(d, true));
    GoTo(e0, e, StartResolve(p, d, true), e1, true);
    assert !OtherFreezing(e1, d);
    var x := Applying(ResolveDisputeForSeller, Some(false), false, CloseDispute(d, true));
    var e2 := Goto(e1, p, x);
    assert Advance(e1, p, NoInput) == e2;
    Act(e0, e1, p, NoInput, true);
    e' := CommitRuling(e0, e2, p, x);
  }

  lemma CommitRuling(e0: Escrow, e: Escrow, p: ProcessId, x: Process) returns (e': Escrow)
    requires Reachable(e0, e, true) && e.status.Disputed? && p in e.procs && e.procs[p] == x
    requires x.Applying? && x.event.ResolveDisputeForSeller? && x.override == Some(false)
    ensures Reachable(e0, e', true) && e'.status.ReleaseProcessing?
  {
    hide Reachable, Appended, AnyFreezing;
    var context := Context(e.terms.releaseRule, false, x.elapsed);
    Statement(e0, e, p, x, NoInput, true);
    var e1 := Goto(e, p, Decided(x.event, context, Disputed, ReleaseProcessing, x.after));
    Statement(e0, e1, p, e1.procs[p], NoInput, true);
    e' := Proceed(Commit(e1, Edge(Disputed, x.event, context, ReleaseProcessing)), p, x.after);
  }

  lemma InsertOwedDispute(e: Escrow) returns (e': Escrow)
    requires Reachable(e, e, true) && DisputeOwed(e) && e.disputes == map[]
    ensures Reachable(e, e', true) && e'.disputes == map[0 := Open] && e'.status == e.status
  {
    hide Reachable;
    var p :| p in e.procs && e.procs[p].DisputeDue?;
    var input := Minted(0, "", None);
    e' := Advance(e, p, input);
    Act(e, e, p, input, true);
  }

  lemma OneDispute(e: Escrow)
    requires Inv(e)
    ensures forall i, j :: i in e.disputes && j in e.disputes ==> i == j
    ensures e.payout.Some? ==> Releasing(e.status)
    ensures e.payout.None? ==> e.transfers == map[]
  {
    hide LogsAgree, PaymentsSound, ProcessesSound;
  }

  /**
   Exactly when a disputed transaction can ever be ruled on: it has a dispute row, or the process that
   committed the dispute is still there to insert it. Otherwise it is DISPUTED for good.
   */
  lemma DisputeGoesOnIff(t: Terms, e: Escrow)
    requires Reachable(Drafted(t), e, true) && e.status.Disputed?
    ensures (exists e' :: Reachable(e, e', true) && !e'.status.Disputed?) <==> e.disputes != map[] || DisputeOwed(e)
  {
    hide Inv, Reachable, After, Freezing;
    ReachableIsSound(t, e);
    OneDispute(e);
    Start(e);
    if d :| d in e.disputes {
      OpenWhileDisputed(t, e);
      var e' := RuleForSeller(e, e, d);
    } else if DisputeOwed(e) {
      var e1 := InsertOwedDispute(e);
      OpenFreezes();
      var e' := RuleForSeller(e, e1, 0);
    } else {
      forall e' | Reachable(e, e', true) ensures e'.status.Disputed? {
        DisputedEver(e, e');
      }
    }
  }

  lemma OpenFreezes()
    ensures Freezing(Open)
  {
  }

  lemma OpenWhileDisputed(t: Terms, e: Escrow)
    requires Reachable(Drafted(t), e, true) && e.status.Disputed?
    ensures forall d :: d in e.disputes ==> Freezing(e.disputes[d])
  {
    hide After, Freezing;
    var steps :| After(Drafted(t), steps, true) == Some(e);
    ClosedIsPastAlways(t, steps);
  }

  lemma DisputedEver(e: Escrow, e': Escrow)
    requires Inv(e) && DisputedForNothing(e) && Reachable(e, e', true)
    ensures e'.status.Disputed?
  {
    hide Inv, After;
    var more :| After(e, more, true) == Some(e');
    DisputedForNothingForever(e, more);
  }

  // --- RELEASE_PROCESSING under an open dispute -------------------------------------------------------

  ghost predicate ClosingOwed(e: Escrow, d: DisputeId) {
    exists p :: p in e.procs && e.procs[p].DisputeClosing? && e.procs[p].dispute == d
  }

  /** A dispute that was ruled on is still open, and nobody is left to close it. */
  ghost predicate LeftOpen(e: Escrow, d: DisputeId) {
    d in e.disputes && Freezing(e.disputes[d]) && !ClosingOwed(e, d)
  }

  ghost predicate ReleasedForNothing(e: Escrow, d: DisputeId) {
    e.status.ReleaseProcessing? && LeftOpen(e, d) && e.payout.None?
  }

  /** Nothing rules on a dispute in RELEASE_PROCESSING, and only a successful transfer leaves it. */
  lemma ReleasingLeftByPayout(e: Escrow, x: Process)
    requires x.Decided? && Knows(e, x) && x.from.ReleaseProcessing?
    ensures Disbursed(e.transfers) && !x.after.CloseDispute?
  {
    hide Collected, Disbursed;
  }

  lemma NothingDisbursed(e: Escrow)
    requires Inv(e) && e.payout.None?
    ensures !Disbursed(e.transfers)
  {
    hide LogsAgree, PaymentsSound, DisputesSound, ProcessesSound;
  }

  lemma ReleasedForNothingStays(e: Escrow, s: Step, d: DisputeId)
    requires Inv(e) && Enabled(e, s) && ReleasedForNothing(e, d)
    ensures ReleasedForNothing(Do(e, s), d)
  {
    hide Inv, Do, Enabled, Excludes, Fits, Disbursed, Collected;
    var e' := Do(e, s);
    NothingDisbursed(e);
    if e'.status != e.status {
      StatusLeft(e, s);
      ReleasingLeftByPayout(e, e.procs[s.p]);
    }
    if e'.payout.Some? {
      OnlyReleaseInserts(e, s);
      Mover(e, s.p);
    }
    hide Knows, Freezing;
    StillLeftOpen(e, s, d);
  }

  lemma StillLeftOpen(e: Escrow, s: Step, d: DisputeId)
    requires Inv(e) && Enabled(e, s) && e.status.ReleaseProcessing? && LeftOpen(e, d) && !Disbursed(e.transfers)
    ensures LeftOpen(Do(e, s), d)
  {
    hide Inv, Do, Enabled, Excludes, Fits, Disbursed, Knows, Freezing;
    var e' := Do(e, s);
    AnyStepAccounted(e, s);
    if q :| q in e'.procs && e'.procs[q].DisputeClosing? && e'.procs[q].dispute == d {
      assert Accounted(e, s, q, e'.procs[q]);
      Mover(e, q);
      ReleasingLeftByPayout(e, e.procs[q]);
    }
  }

  lemma {:induction false} ReleasedForNothingForever(e: Escrow, more: seq<Step>, d: DisputeId)
    requires Inv(e) && ReleasedForNothing(e, d) && After(e, more, true).Some?
    ensures ReleasedForNothing(After(e, more, true).value, d)
  {
    hide Inv, ReleasedForNothing, Do, Enabled, CountsAgree, Later;
    if more != [] {
      ReleasedForNothingForever(e, more[..|more| - 1], d);
      RunKeepsFrom(e, more[..|more| - 1]);
      ReleasedForNothingStays(After(e, more[..|more| - 1], true).value, more[|more| - 1], d);
    }
  }

  /** A release job run on its own, when no dispute is open and nothing was sent. */
  lemma ReleaseAlone(e0: Escrow, e: Escrow) returns (e': Escrow)
    requires Reachable(e0, e, true) && e.status.ReleaseProcessing? && NoneFreezing(e.disputes) && e.transfers == map[]
    requires e.payout.Some? ==> !e.payout.value.status.Success? && e.payout.value.code.None?
    ensures Reachable(e0, e', true) && e'.transfers != map[]
  {
    hide Reachable;
    var p := FreshProcess(e.procs);
    var e1 := Goto(e, p, ReleaseRead);
    GoTo(e0, e, StartRelease(p), e1, true);
    assert !AnyOpen(e1);
    var e2 := Goto(e1, p, ReleaseCleared);
    assert Advance(e1, p, NoInput) == e2;
    Act(e0, e1, p, NoInput, true);
    var e3 := Authorize(e2, p);
    assert Advance(e2, p, NoInput) == e3;
    Act(e0, e2, p, NoInput, true);
    e' := SendFirst(e0, e3, p);
  }

  lemma SendFirst(e0: Escrow, e: Escrow, p: ProcessId) returns (e': Escrow)
    requires Reachable(e0, e, true) && p in e.procs && e.procs[p].Sending? && e.transfers == map[]
    ensures Reachable(e0, e', true) && e'.transfers != map[]
  {
    hide Reachable;
    Statement(e0, e, p, e.procs[p], Reply(true, true), true);
    e' := CallTransfer(e, p, e.procs[p].amount, e.procs[p].attempt, true, true);
    assert e.procs[p].attempt in e'.transfers;
  }

  lemma NothingSent(e: Escrow)
    requires Inv(e) && e.transfers == map[] && e.payout.Some?
    ensures !e.payout.value.status.Success? && e.payout.value.code.None?
  {
    hide LogsAgree, PaymentsSound, DisputesSound, ProcessesSound;
  }

  /** The dispute that is being closed, closed. */
  lemma CloseOwed(e: Escrow, d: DisputeId) returns (e': Escrow)
    requires Reachable(e, e, true) && ClosingOwed(e, d) && d in e.disputes && forall o :: o in e.disputes ==> o == d
    ensures Reachable(e, e', true) && NoneFreezing(e'.disputes)
    ensures e'.status == e.status && e'.transfers == e.transfers && e'.payout == e.payout
  {
    hide Reachable;
    var p :| p in e.procs && e.procs[p].DisputeClosing? && e.procs[p].dispute == d;
    e' := Advance(e, p, NoInput);
    Act(e, e, p, NoInput, true);
  }

  /**
   Exactly when a transaction in RELEASE_PROCESSING can be paid out: every dispute that is open is being
   closed. Otherwise no transfer is ever created for it.
   */
  lemma ReleaseGoesOnIff(t: Terms, e: Escrow)
    requires Reachable(Drafted(t), e, true) && e.status.ReleaseProcessing?
    ensures (exists e' :: Reachable(e, e', true) && e'.transfers != map[]) <==> !exists d :: LeftOpen(e, d)
  {
    hide Inv, Reachable, After, Freezing;
    ReachableIsSound(t, e);
    OneDispute(e);
    Start(e);
    if d :| LeftOpen(e, d) {
      NoPayoutUnder(t, e, d);
      forall e' | Reachable(e, e', true) ensures e'.transfers == map[] {
        NothingSentEver(e, e', d);
      }
    } else if e.transfers == map[] {
      if e.payout.Some? { NothingSent(e); }
      var e1 := e;
      if d :| d in e.disputes && Freezing(e.disputes[d]) {
        assert !LeftOpen(e, d);
        e1 := CloseOwed(e, d);
      }
      var e' := ReleaseAlone(e, e1);
    }
  }

  lemma NoPayoutUnder(t: Terms, e: Escrow, d: DisputeId)
    requires Reachable(Drafted(t), e, true) && d in e.disputes && Freezing(e.disputes[d])
    ensures e.payout.None?
  {
    hide After, Freezing;
    var steps :| After(Drafted(t), steps, true) == Some(e);
    if e.payout.Some? { PayoutIsUndisputed(t, steps); }
  }

  lemma NothingSentEver(e: Escrow, e': Escrow, d: DisputeId)
    requires Inv(e) && ReleasedForNothing(e, d) && Reachable(e, e', true)
    ensures e'.transfers == map[]
  {
    hide Inv, After, Later, LeftOpen;
    var more :| After(e, more, true) == Some(e');
    ReleasedForNothingForever(e, more, d);
    RunKeepsFrom(e, more);
    OneDispute(e');
  }

  // --- Such states are reached ------------------------------------------------------------------------

  /** Process 0 commits its transition and dies before its next statement. */
  lemma CommitAndDie(e0: Escrow, e: Escrow, x: Process, to: Status) returns (e': Escrow)
    requires Reachable(e0, Goto(e, 0, x), true) && e.procs == map[] && x.Applying? && !x.after.Stop?
    requires Transition(e.status, x.event, Context(e.terms.releaseRule, x.override.GetOr(AnyFreezing(e)), x.elapsed)) ==
      Accept(to)
    ensures Reachable(e0, e', true) && e' == e.(status := to, logs := e'.logs)
  {
    hide Reachable, Transition, Appended, AnyFreezing, Proceed;
    var e1 := Goto(e, 0, x);
    SameDisputes(e, e1);
    var context := Context(e.terms.releaseRule, x.override.GetOr(AnyFreezing(e)), x.elapsed);
    Statement(e0, e1, 0, x, NoInput, true);
    var e2 := Goto(e, 0, Decided(x.event, context, e.status, to, x.after));
    assert e1.procs[0 := e2.procs[0]] == e2.procs;
    Statement(e0, e2, 0, e2.procs[0], NoInput, true);
    e' := Die(e0, e, e2, x.after, Edge(e.status, x.event, context, to));
  }

  lemma SameDisputes(e: Escrow, e1: Escrow)
    requires e1.disputes == e.disputes
    ensures AnyFreezing(e1) == AnyFreezing(e)
  {
  }

  lemma Die(e0: Escrow, e: Escrow, e2: Escrow, after: Continuation, edge: Edge) returns (e': Escrow)
    requires e.procs == map[] && !after.Stop? && 0 in e2.procs && e2 == e.(procs := map[0 := e2.procs[0]])
    requires Reachable(e0, Proceed(Commit(e2, edge), 0, after), true)
    ensures Reachable(e0, e', true) && e' == e.(status := edge.to, logs := e'.logs)
  {
    hide Reachable, Appended;
    var e3 := Proceed(Commit(e2, edge), 0, after);
    e' := e.(status := edge.to, logs := e3.logs);
    assert 0 in e3.procs && e3.procs - {0} == map[];
    assert Halt(e3, 0) == e';
    hide Advance;
    GoTo(e0, e3, Crash(0), e', true);
  }

  lemma ReachProtected(t: Terms) returns (e: Escrow)
    ensures Reachable(Drafted(t), e, true) && e.terms == t && e.status.PaymentProtected?
    ensures e.procs == map[] && e.disputes == map[]
  {
    hide Reachable;
    Start(Drafted(t));
    e := ApplyAlone(t, Drafted(t), SellerPublish, LinkActive, true);
    e := CollectAlone(t, e, true);
  }

  lemma CheckoutCanBeLost(t: Terms) returns (e: Escrow)
    ensures Reachable(Drafted(t), e, true) && CheckedOutForNothing(e)
  {
    hide Reachable;
    Start(Drafted(t));
    var e0 := ApplyAlone(t, Drafted(t), SellerPublish, LinkActive, true);
    var x := Applying(BuyerInitiateCheckout, None, false, InsertPayment(false));
    GoTo(Drafted(t), e0, StartCheckout(0, false), Goto(e0, 0, x), true);
    e := CommitAndDie(Drafted(t), e0, x, PaymentPending);
  }

  lemma DisputeCanBeLost(t: Terms) returns (e: Escrow)
    ensures Reachable(Drafted(t), e, true) && DisputedForNothing(e)
  {
    hide Reachable;
    var e0 := ReachProtected(t);
    var x := Applying(RaiseDispute, None, false, InsertDispute);
    GoTo(Drafted(t), e0, StartRaise(0), Goto(e0, 0, x), true);
    e := CommitAndDie(Drafted(t), e0, x, Disputed);
  }

  lemma ReachDisputed(t: Terms) returns (e: Escrow)
    ensures Reachable(Drafted(t), e, true) && e.terms == t && e.status.Disputed? && e.disputes == map[0 := Open]
    ensures e.procs == map[]
  {
    hide Reachable, Advance, Appended;
    var e0 := ReachProtected(t);
    var x := Applying(RaiseDispute, None, false, InsertDispute);
    var e1 := Goto(e0, 0, x);
    GoTo(Drafted(t), e0, StartRaise(0), e1, true);
    assert !AnyFreezing(e1);
    Statement(Drafted(t), e1, 0, x, NoInput, true);
    var context := Context(t.releaseRule, false, false);
    var e2 := Goto(e1, 0, Decided(RaiseDispute, context, PaymentProtected, Disputed, InsertDispute));
    Statement(Drafted(t), e2, 0, e2.procs[0], NoInput, true);
    var e3 := Proceed(Commit(e2, Edge(PaymentProtected, RaiseDispute, context, Disputed)), 0, InsertDispute);
    e := InsertFirstDispute(t, e3);
  }

  lemma InsertFirstDispute(t: Terms, e: Escrow) returns (e': Escrow)
    requires Reachable(Drafted(t), e, true) && e.procs == map[0 := DisputeDue] && e.disputes == map[]
    ensures Reachable(Drafted(t), e', true) && e' == e.(disputes := map[0 := Open], procs := map[])
  {
    hide Reachable;
    e' := e.(disputes := map[0 := Open], procs := map[]);
    assert Advance(e, 0, Minted(0, "", None)) == e';
    Act(Drafted(t), e, 0, Minted(0, "", None), true);
  }

  /** The ruling is committed and the dispute stays open. */
  lemma RulingCanBeLost(t: Terms) returns (e: Escrow)
    ensures Reachable(Drafted(t), e, true) && e.status.ReleaseProcessing? && LeftOpen(e, 0)
  {
    hide Reachable;
    var e0 := ReachDisputed(t);
    var e1 := Goto(e0, 0, ResolveRead(0, true));
    GoTo(Drafted(t), e0, StartResolve(0, 0, true), e1, true);
    var x := Applying(ResolveDisputeForSeller, Some(false), false, CloseDispute(0, true));
    assert !OtherFreezing(e1, 0);
    assert Advance(e1, 0, NoInput) == Goto(e0, 0, x) by { assert e1.procs[0 := x] == e0.procs[0 := x]; }
    Act(Drafted(t), e1, 0, NoInput, true);
    e := CommitAndDie(Drafted(t), e0, x, ReleaseProcessing);
  }
}
