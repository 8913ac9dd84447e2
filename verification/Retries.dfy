/** Exactly which overlapping retries of one payout can pay twice. */
module Retries {
  import opened Wrappers
  import opened Machine
  import opened EscrowProtocol
  import opened EscrowInvariant
  import opened EscrowProof
  import opened EscrowRuns

  // --- A payout row means that no dispute is open -------------------------------------------------

  /** Moving a process on, or ending it, is not a payout row. */
  lemma MovesKeepPayout(p: ProcessId)
    ensures forall b: Escrow, x: Process {:trigger Goto(b, p, x)} :: Goto(b, p, x).payout == b.payout
    ensures forall b: Escrow {:trigger Halt(b, p)} :: Halt(b, p).payout == b.payout
  {
  }

  lemma OnlyReleaseInserts(e: Escrow, s: Step)
    requires Enabled(e, s) && e.payout.None? && Do(e, s).payout.Some?
    ensures s.Resume? && s.p in e.procs && e.procs[s.p].ReleaseCleared?
  {
    if s.Resume? {
      if !e.procs[s.p].ReleaseCleared? {
        StatementInserts(e, s.p, e.procs[s.p], s.input);
      }
    } else {
      StartsInsertNothing(e, s);
    }
  }

  lemma StartsInsertNothing(e: Escrow, s: Step)
    requires Enabled(e, s) && !s.Resume?
    ensures Do(e, s).payout == e.payout
  {
    hide Advance, Goto, Halt, Suits, Freezing;
    if !s.MoveCharge? && !s.SettleTransfer? {
      MovesKeepPayout(s.p);
    }
  }

  lemma StatementInserts(e: Escrow, p: ProcessId, x: Process, input: Input)
    requires p in e.procs && e.procs[p] == x && Suits(e, x, input) && e.payout.None? && !x.ReleaseCleared?
    ensures Advance(e, p, input).payout.None?
  {
    hide Goto, Halt, Transition, AnyFreezing, AnyOpen, OtherFreezing, SellerSettlement, ChargeAmount, Appended;
    MovesKeepPayout(p);
  }

  /** Once there is a payout row, no dispute is open, and none will be. */
  lemma {:induction false} PayoutIsUndisputed(t: Terms, steps: seq<Step>)
    requires After(Drafted(t), steps, true).Some? && After(Drafted(t), steps, true).value.payout.Some?
    ensures NoneFreezing(After(Drafted(t), steps, true).value.disputes)
  {
    hide Inv, Later, Enabled, Do, CountsAgree, Excludes, Fits;
    if steps != [] {
      var e, s := After(Drafted(t), steps[..|steps| - 1], true).value, steps[|steps| - 1];
      RunKeeps(t, steps[..|steps| - 1]);
      StepKeeps(e, s);
      LaterTerms(e, Do(e, s));
      if e.payout.None? {
        OnlyReleaseInserts(e, s);
        Mover(e, s.p);
      } else {
        PayoutIsUndisputed(t, steps[..|steps| - 1]);
        PayoutFacts(e);
      }
    }
  }

  // --- Two retries that read different attempt counts ----------------------------------------------

  /** A retry brought up to its reset of the payout row. */
  lemma BringToReset(e0: Escrow, e: Escrow, p: ProcessId, agreed: bool) returns (e': Escrow)
    requires Reachable(e0, e, agreed) && p in e.procs && BeforeReset(e.procs[p]) && NoneFreezing(e.disputes)
    ensures Reachable(e0, e', agreed) && e' == Goto(e, p, RetryChecked(e.procs[p].row))
  {
    hide Reachable;
    var x := e.procs[p];
    assert !AnyOpen(e);
    var cleared := Goto(e, p, RetryCleared(x.row));
    e' := Goto(e, p, RetryChecked(x.row));
    if x.RetryRead? {
      assert Advance(e, p, NoInput) == cleared;
      Act(e0, e, p, NoInput, agreed);
    } else if x.RetryCleared? {
      assert e.procs[p := x] == e.procs && cleared == e;
    }
    if x.RetryChecked? {
      assert e.procs[p := x] == e.procs && e' == e;
    } else {
      assert Advance(cleared, p, Reply(false, false)) ==
        e' by { assert cleared.procs[p := RetryChecked(x.row)] == e'.procs; }
      Act(e0, cleared, p, Reply(false, false), agreed);
    }
  }

  /** From the reset on, a retry sends under a reference derived from the row it read. */
  lemma FinishRetrying(e0: Escrow, e: Escrow, p: ProcessId, row: Payout, agreed: bool) returns (e': Escrow)
    requires Reachable(e0, e, agreed) && p in e.procs && e.procs[p] == RetryChecked(row)
    requires e.payout.Some? && Retry(row.attempts + 1) !in e.transfers
    ensures Reachable(e0, e', agreed)
    ensures e'.transfers == e.transfers[Retry(row.attempts + 1) := Transfer(e.payout.value.amount, Pending)]
    ensures e'.payout.Some? && e'.disputes == e.disputes
    ensures forall q :: q in e.procs && q != p ==> q in e'.procs && e'.procs[q] == e.procs[q]
  {
    hide Reachable;
    var e1 := ResetPayout(e, p, row);
    Act(e0, e, p, NoInput, agreed);
    e' := CallTransfer(e1, p, e.payout.value.amount, Retry(row.attempts + 1), true, true);
    Act(e0, e1, p, Reply(true, true), agreed);
  }

  predicate OneLive(transfers: map<Attempt, Transfer>) {
    forall a, b :: a in transfers && b in transfers && Live(transfers[a]) && Live(transfers[b]) ==> a == b
  }

  /** Two retries before their reset that read different counts: let both go on. */
  lemma DisagreeingRetriesPayTwice(e0: Escrow, e: Escrow, p: ProcessId, q: ProcessId, agreed: bool) returns (e': Escrow)
    requires Reachable(e0, e, agreed) && p in e.procs && q in e.procs
      && BeforeReset(e.procs[p]) && BeforeReset(e.procs[q])
    requires e.procs[p].row.attempts != e.procs[q].row.attempts
    requires e.payout.Some? && NoneFreezing(e.disputes) && NoRetrySent(e.transfers)
    ensures Reachable(e0, e', agreed) && !OneLive(e'.transfers)
    ensures var a, b := SendsUnder(e.procs[p]), SendsUnder(e.procs[q]);
      a in e'.transfers && b in e'.transfers && Live(e'.transfers[a]) && Live(e'.transfers[b])
  {
    hide Reachable;
    var first, second := e.procs[p].row, e.procs[q].row;
    var e1 := BringToReset(e0, e, p, agreed);
    var e2 := FinishRetrying(e0, e1, p, first, agreed);
    var e3 := BringToReset(e0, e2, q, agreed);
    e' := FinishRetrying(e0, e3, q, second, agreed);
    var a, b := Retry(first.attempts + 1), Retry(second.attempts + 1);
    assert a in e'.transfers && b in e'.transfers && Live(e'.transfers[a]) && Live(e'.transfers[b]) && a != b;
  }

  lemma InvMeansOneLive(e: Escrow)
    requires Inv(e)
    ensures OneLive(e.transfers)
  {
    hide LogsAgree, PaymentsSound, DisputesSound, ProcessesSound, RowFailed, Disbursed;
  }

  /** The retry that starts disagrees with one that has read the row and not reset it. */
  lemma DisagreementPaysTwice(t: Terms, steps: seq<Step>, p: ProcessId) returns (e': Escrow)
    requires After(Drafted(t), steps, true).Some? && p !in After(Drafted(t), steps, true).value.procs
    requires !CountsAgree(After(Drafted(t), steps, true).value, StartRetry(p))
    ensures Reachable(Do(After(Drafted(t), steps, true).value, StartRetry(p)), e', true) && !OneLive(e'.transfers)
  {
    hide Inv, After, Advance;
    var e := After(Drafted(t), steps, true).value;
    RunKeeps(t, steps);
    FailedRow(e);
    PayoutIsUndisputed(t, steps);
    var e1 := Do(e, StartRetry(p));
    assert e1 == Goto(e, p, RetryRead(e.payout.value));
    var q :| q in e.procs && BeforeReset(e.procs[q]) && e.procs[q].row.attempts != e.payout.value.attempts;
    Start(e1);
    e' := DisagreeingRetriesPayTwice(e1, e1, p, q, true);
  }

  lemma AgreementPaysOnce(t: Terms, steps: seq<Step>, p: ProcessId, e': Escrow)
    requires After(Drafted(t), steps, true).Some? && p !in After(Drafted(t), steps, true).value.procs
    requires CountsAgree(After(Drafted(t), steps, true).value, StartRetry(p))
    requires Reachable(Do(After(Drafted(t), steps, true).value, StartRetry(p)), e', true)
    ensures OneLive(e'.transfers)
  {
    hide Inv, Later, After, Do, CountsAgree, OneLive;
    var e := After(Drafted(t), steps, true).value;
    RunKeeps(t, steps);
    assert Enabled(e, StartRetry(p));
    StepKeeps(e, StartRetry(p));
    PlaysKeep(Do(e, StartRetry(p)), e');
    InvMeansOneLive(e');
  }

  /**
   Exactly when a retry may start. Two guards are said to make a double release impossible; they do so
   if and only if every retry that has still to reset the payout row has read the attempt count that this
   one reads. The rest of the run may then overlap at will; otherwise it can leave two live transfers.
   */
  lemma RetryIsSafeIff(t: Terms, steps: seq<Step>, p: ProcessId)
    requires After(Drafted(t), steps, true).Some? && Enabled(After(Drafted(t), steps, true).value, StartRetry(p))
    ensures var e := After(Drafted(t), steps, true).value;
      (forall e' :: Reachable(Do(e, StartRetry(p)), e', true) ==> OneLive(e'.transfers)) <==>
        CountsAgree(e, StartRetry(p))
  {
    var e := After(Drafted(t), steps, true).value;
    assert p !in e.procs;
    hide After, Do, CountsAgree, OneLive, Reachable, Enabled;
    if CountsAgree(e, StartRetry(p)) {
      forall e' | Reachable(Do(e, StartRetry(p)), e', true) ensures OneLive(e'.transfers) {
        AgreementPaysOnce(t, steps, p, e');
      }
    } else {
      var e' := DisagreementPaysTwice(t, steps, p);
    }
  }

  /** What agreement comes to: whatever overlaps, all retries of one payout send under one reference. */
  lemma RetriesShareAReference(t: Terms, steps: seq<Step>, p: ProcessId, q: ProcessId)
    requires After(Drafted(t), steps, true).Some?
    requires var procs := After(Drafted(t), steps, true).value.procs;
      p in procs && q in procs && Retrying(procs[p]) && Retrying(procs[q])
    ensures var e := After(Drafted(t), steps, true).value;
      SendsUnder(e.procs[p]) == SendsUnder(e.procs[q]) && OnlyRetry(e.transfers, SendsUnder(e.procs[p]))
  {
    RunKeeps(t, steps);
    hide After, LogsAgree, PaymentsSound, DisputesSound, PayoutSound, Knows, RowFailed, LossSeen, NoRetrySent;
    var e := After(Drafted(t), steps, true).value;
    assert Excludes(e, e.procs[p]) && (p != q ==> Apart(e.procs[p], e.procs[q]));
  }

  // --- Such a start is reached -----------------------------------------------------------------------

  /** A retry that has read the failed row, and a slower release job that counts its failure after that. */
  lemma ReachDisagreement(t: Terms) returns (e: Escrow)
    ensures Reachable(Drafted(t), e, true) && 3 !in e.procs && e.disputes == map[]
    ensures e.transfers == map[Base := Transfer(SellerSettlement(t), Failed)]
    ensures RowFailed(e.payout) && e.payout.value.attempts == 2
    ensures 2 in e.procs && BeforeReset(e.procs[2]) && e.procs[2].row.attempts == 1
  {
    hide Reachable, Advance, Transition, SellerSettlement;
    var e0 := ReachFailedPayout(t, true);
    var e1 := Goto(e0, 2, RetryRead(e0.payout.value));
    GoTo(Drafted(t), e0, StartRetry(2), e1, true);
    Statement(Drafted(t), e1, 1, e1.procs[1], NoInput, true);
    e := RecordSendFailure(e1, 1);
  }

  /** Two overlapping retries that leave two live transfers. */
  lemma OverlappingRetriesSendTwice(t: Terms) returns (e: Escrow)
    ensures Reachable(Drafted(t), e, false)
    ensures Retry(2) in e.transfers && Retry(3) in e.transfers
    ensures Live(e.transfers[Retry(2)]) && Live(e.transfers[Retry(3)])
  {
    hide Reachable, Advance, Transition;
    var e1 := ReachDisagreement(t);
    Unguarded(Drafted(t), e1);
    var e2 := Goto(e1, 3, RetryRead(e1.payout.value));
    GoTo(Drafted(t), e1, StartRetry(3), e2, false);
    e := DisagreeingRetriesPayTwice(Drafted(t), e2, 2, 3, false);
  }

  lemma Unguarded(e0: Escrow, e: Escrow)
    requires Reachable(e0, e, true)
    ensures Reachable(e0, e, false)
  {
    var steps :| After(e0, steps, true) == Some(e);
    UnguardedRun(e0, steps);
  }

  lemma {:induction false} UnguardedRun(e0: Escrow, steps: seq<Step>)
    requires After(e0, steps, true).Some?
    ensures After(e0, steps, false) == After(e0, steps, true)
  {
    hide Do, Enabled, CountsAgree;
    if steps != [] {
      UnguardedRun(e0, steps[..|steps| - 1]);
    }
  }
}
