/** The platform's ledger: what successful transfers pay out against what verified charges brought in. */
module Ledger {
  import opened Wrappers
  import opened Machine
  import opened EscrowProtocol
  import opened EscrowInvariant
  import opened EscrowBook
  import Runs = EscrowRuns

  ghost function SumSucceeded(transfers: map<Attempt, Transfer>): int
    decreases transfers.Keys
  {
    if transfers == map[] then 0
    else
      var a :| a in transfers;
      (if transfers[a].state.Succeeded? then transfers[a].amount else 0) + SumSucceeded(transfers - {a})
  }

  lemma {:induction false} SumWithOneSuccess(transfers: map<Attempt, Transfer>, a: Attempt)
    requires forall b :: b in transfers && transfers[b].state.Succeeded? ==> b == a
    ensures SumSucceeded(transfers) == if a in transfers && transfers[a].state.Succeeded?
      then transfers[a].amount else 0
    decreases transfers.Keys
  {
    if transfers != map[] {
      var b :| b in transfers && SumSucceeded(transfers) ==
        (if transfers[b].state.Succeeded? then transfers[b].amount else 0) + SumSucceeded(transfers - {b});
      SumWithOneSuccess(transfers - {b}, a);
    }
  }

  /** The sum of the charges whose reference is counted; every reference once. */
  ghost function SumCounted(charges: map<ChargeRef, Charge>, counted: iset<ChargeRef>): int
    decreases charges.Keys
  {
    if charges == map[] then 0
    else
      var c :| c in charges;
      (if c in counted then charges[c].amount else 0) + SumCounted(charges - {c}, counted)
  }

  lemma {:induction false} SumWithout(charges: map<ChargeRef, Charge>, counted: iset<ChargeRef>, x: ChargeRef)
    requires x in charges
    ensures SumCounted(charges, counted) ==
      (if x in counted then charges[x].amount else 0) + SumCounted(charges - {x}, counted)
    decreases charges.Keys
  {
    var c :| c in charges && SumCounted(charges, counted) ==
      (if c in counted then charges[c].amount else 0) + SumCounted(charges - {c}, counted);
    if c != x {
      SumWithout(charges - {c}, counted, x);
      SumWithout(charges - {x}, counted, c);
      assert charges - {c} - {x} == charges - {x} - {c};
    }
  }

  lemma {:induction false} SumNonNegative(charges: map<ChargeRef, Charge>, counted: iset<ChargeRef>)
    requires forall c :: c in charges ==> 0 <= charges[c].amount
    ensures 0 <= SumCounted(charges, counted)
    decreases charges.Keys
  {
    if charges != map[] {
      var c :| c in charges;
      SumWithout(charges, counted, c);
      SumNonNegative(charges - {c}, counted);
    }
  }

  // --- One transaction ---------------------------------------------------------------------------

  /** The charge is verified for the transaction: successful, of exactly the charge amount, and tied to its payment. */
  ghost predicate VerifiedFor(e: Escrow, charge: ChargeRef) {
    exists id :: PaidBy(e.terms, e.payments, e.charges, id, charge)
  }

  lemma TransferFacts(e: Escrow)
    requires Inv(e)
    ensures e.status.Completed? ==> Disbursed(e.transfers)
    ensures forall a :: TransferSucceeded(e.transfers, a) ==>
      && e.transfers[a].amount == SellerSettlement(e.terms) && Onward(PaymentProtected, e.status)
      && forall b :: b in e.transfers && e.transfers[b].state.Succeeded? ==> b == a
  {
    hide LogsAgree, PaymentsSound, DisputesSound, ProcessesSound, RowFailed;
    forall a | TransferSucceeded(e.transfers, a) ensures e.transfers != map[] {
      assert a in e.transfers;
    }
  }

  /**
   What a transaction paid out is covered by one verified charge of exactly its charge amount, and a
   completed one leaves exactly the fee, under both fee models.
   */
  lemma OneChargeCoversPayout(e: Escrow)
    requires Inv(e) && 0 <= e.terms.feeAmount
    ensures (forall a :: !TransferSucceeded(e.transfers, a)) ==> SumSucceeded(e.transfers) == 0
    ensures (exists a :: TransferSucceeded(e.transfers, a)) ==>
      && ChargeAmount(e.terms) - SumSucceeded(e.transfers) == e.terms.feeAmount
      && exists charge :: VerifiedFor(e, charge)
    ensures e.status.Completed? ==> exists a :: TransferSucceeded(e.transfers, a)
  {
    hide Inv, PaidBy, SumSucceeded;
    TransferFacts(e);
    if a :| TransferSucceeded(e.transfers, a) {
      var id, charge := Runs.ProtectedFacts(e);
      assert VerifiedFor(e, charge);
      SumWithOneSuccess(e.transfers, a);
    } else {
      SumWithOneSuccess(e.transfers, Base);
    }
  }

  /**
   Who bears the fee. Under BUYER_PAYS a completed seller got exactly the amount, and the verified charge was
   the amount and the fee; under SELLER_PAYS the charge was exactly the amount, and the seller got it less the fee.
   */
  lemma WhoBearsTheFee(t: Terms, e: Escrow)
    requires Runs.Reachable(Drafted(t), e, true)
    ensures e.status.Completed? ==>
      SumSucceeded(e.transfers) == if t.feeModel.BuyerPays? then t.amount else t.amount - t.feeAmount
    ensures forall charge :: VerifiedFor(e, charge) ==>
      && charge in e.charges
      && e.charges[charge].amount == if t.feeModel.BuyerPays? then t.amount + t.feeAmount else t.amount
    ensures Onward(PaymentProtected, e.status) ==> exists charge :: VerifiedFor(e, charge)
  {
    hide Inv, PaidBy, SumSucceeded, Runs.Reachable;
    Runs.ReachableIsSound(t, e);
    TransferFacts(e);
    if e.status.Completed? {
      assert TransferSucceeded(e.transfers, Base);
      SumWithOneSuccess(e.transfers, Base);
    }
    if Onward(PaymentProtected, e.status) {
      var charge := SomeVerified(e);
    }
    forall charge | VerifiedFor(e, charge) ensures charge in e.charges && e.charges[charge].amount == ChargeAmount(t) {
      VerifiedIsCharged(e, charge);
    }
  }

  /** What the platform holds of one transaction: its verified charges less its successful transfers. */
  ghost function Held(e: Escrow): int {
    SumCounted(e.charges, iset charge | VerifiedFor(e, charge)) - SumSucceeded(e.transfers)
  }

  /** The provider never reports a charge of a negative amount. */
  predicate ChargesNonNegative(charges: map<ChargeRef, Charge>) {
    forall c :: c in charges ==> 0 <= charges[c].amount
  }

  lemma VerifiedIsCharged(e: Escrow, charge: ChargeRef)
    requires VerifiedFor(e, charge)
    ensures charge in e.charges && e.charges[charge].amount == ChargeAmount(e.terms)
  {
  }

  lemma HeldNeverNegative(e: Escrow)
    requires Inv(e) && ChargesNonNegative(e.charges)
    requires 0 <= e.terms.feeAmount || ChargeAmount(e.terms) < 0
    ensures 0 <= Held(e)
  {
    hide Inv, VerifiedFor, SumCounted, SumSucceeded;
    var counted := iset charge | VerifiedFor(e, charge);
    SumNonNegative(e.charges, counted);
    if a :| TransferSucceeded(e.transfers, a) {
      TransferFacts(e);
      var charge := SomeVerified(e);
      VerifiedIsCharged(e, charge);
      SumWithOneSuccess(e.transfers, a);
      SumWithout(e.charges, counted, charge);
      SumNonNegative(e.charges - {charge}, counted);
    } else {
      assert forall b :: b in e.transfers && e.transfers[b].state.Succeeded? ==> TransferSucceeded(e.transfers, b);
      SumWithOneSuccess(e.transfers, Base);
    }
  }

  lemma SomeVerified(e: Escrow) returns (charge: ChargeRef)
    requires Inv(e) && Onward(PaymentProtected, e.status)
    ensures VerifiedFor(e, charge)
  {
    hide Inv, PaidBy;
    var id;
    id, charge := Runs.ProtectedFacts(e);
  }

  lemma CompletedHolds(t: Terms, e: Escrow)
    requires e.terms == t && e.payments == Runs.OrderPaid(t) && e.charges == Runs.OrderCharged(t)
    requires e.transfers == map[Base := Transfer(SellerSettlement(t), Succeeded)]
    ensures Held(e) == t.feeAmount
  {
    hide SumCounted, SumSucceeded;
    SumWithOneSuccess(e.transfers, Base);
    assert PaidBy(t, e.payments, e.charges, 0, Runs.ORDER);
    var counted := iset charge | VerifiedFor(e, charge);
    SumWithout(e.charges, counted, Runs.ORDER);
    NothingCounted(e.charges - {Runs.ORDER}, counted);
  }

  lemma NothingCounted(charges: map<ChargeRef, Charge>, counted: iset<ChargeRef>)
    requires charges.Keys == {}
    ensures SumCounted(charges, counted) == 0
  {
    assert charges == map[];
  }

  /**
   Exactly which terms keep the platform whole: no run of a transaction pays out more than it
   verified if and only if its fee is not negative, or so negative that nothing can be charged.
   Creation does not check the sign of the fee.
   */
  lemma NeverShortIff(t: Terms)
    ensures (forall e :: Runs.Reachable(Drafted(t), e, true) && ChargesNonNegative(e.charges) ==> 0 <= Held(e))
      <==> 0 <= t.feeAmount || ChargeAmount(t) < 0
  {
    hide Inv, Runs.Reachable, Later, Held;
    if 0 <= t.feeAmount || ChargeAmount(t) < 0 {
      forall e | Runs.Reachable(Drafted(t), e, true) && ChargesNonNegative(e.charges) ensures 0 <= Held(e) {
        Runs.ReachableIsSound(t, e);
        HeldNeverNegative(e);
      }
    } else {
      var e := Runs.ReachCompleted(t);
      CompletedHolds(t, e);
      assert ChargesNonNegative(e.charges);
    }
  }

  // --- All transactions ------------------------------------------------------------------------------

  /** The charge is verified for some transaction. */
  ghost predicate VerifiedIn(g: Book, charge: ChargeRef) {
    exists t :: t in g.txs && VerifiedFor(g.txs[t], charge)
  }

  /** Every verified charge of the provider's one table, once, whichever transaction it belongs to. */
  ghost function TotalVerified(g: Book): int {
    SumCounted(g.charges, iset charge | VerifiedIn(g, charge))
  }

  ghost function TotalPaidOut(txs: map<TxId, Escrow>): int
    decreases txs.Keys
  {
    if txs == map[] then 0
    else var t :| t in txs; SumSucceeded(txs[t].transfers) + TotalPaidOut(txs - {t})
  }

  /** No two transactions rest on the same charge. */
  ghost predicate Unshared(g: Book) {
    forall t, t', charge ::
      t in g.txs && t' in g.txs && VerifiedFor(g.txs[t], charge) && VerifiedFor(g.txs[t'], charge) ==> t == t'
  }

  ghost predicate Backed(e: Escrow) {
    && (forall a :: TransferSucceeded(e.transfers, a) ==> exists charge :: VerifiedFor(e, charge))
    && SumSucceeded(e.transfers) <=
         if exists a :: TransferSucceeded(e.transfers, a) then ChargeAmount(e.terms) else 0
  }

  /** The transaction's own charge is counted, and no other transaction rests on it. */
  lemma TakeCharge(g: Book, charges: map<ChargeRef, Charge>, t: TxId, c: ChargeRef)
    requires Unshared(g) && t in g.txs && VerifiedFor(g.txs[t], c) && g.txs[t].charges == g.charges
    requires c in charges && c in g.charges && charges[c] == g.charges[c]
    ensures var counted := iset charge | VerifiedIn(g, charge);
      SumCounted(charges, counted) == ChargeAmount(g.txs[t].terms) + SumCounted(charges - {c}, counted)
    ensures forall t', charge :: t' in g.txs && t' != t && VerifiedFor(g.txs[t'], charge) ==> charge != c
  {
    hide VerifiedFor, SumCounted;
    VerifiedIsCharged(g.txs[t], c);
    assert VerifiedIn(g, c);
    SumWithout(charges, (iset charge | VerifiedIn(g, charge)), c);
  }

  /**
   Transactions are paid for one after the other out of a shrinking table: each that has paid out takes
   its own charge away, and no other transaction rests on that one.
   */
  lemma {:induction false} ChargesCover(g: Book, txs: map<TxId, Escrow>, charges: map<ChargeRef, Charge>)
    requires forall t :: t in txs ==> t in g.txs && txs[t] == g.txs[t] && Backed(txs[t])
    requires Unshared(g) && ChargesNonNegative(charges)
    requires forall t :: t in g.txs ==> g.txs[t].charges == g.charges
    requires forall c :: c in charges ==> c in g.charges && charges[c] == g.charges[c]
    requires forall t, charge :: t in txs && VerifiedFor(txs[t], charge) ==> charge in charges
    ensures TotalPaidOut(txs) <= SumCounted(charges, iset charge | VerifiedIn(g, charge))
    decreases txs.Keys
  {
    hide VerifiedFor, VerifiedIn, SumCounted, SumSucceeded, Unshared;
    var counted := iset charge | VerifiedIn(g, charge);
    if txs == map[] {
      SumNonNegative(charges, counted);
    } else {
      var t :| t in txs && TotalPaidOut(txs) == SumSucceeded(txs[t].transfers) + TotalPaidOut(txs - {t});
      if exists a :: TransferSucceeded(txs[t].transfers, a) {
        var c :| VerifiedFor(txs[t], c);
        TakeCharge(g, charges, t, c);
        ChargesCover(g, txs - {t}, charges - {c});
      } else {
        ChargesCover(g, txs - {t}, charges);
      }
    }
  }

  lemma SoundIsBacked(e: Escrow)
    requires Inv(e) && 0 <= e.terms.feeAmount
    ensures Backed(e)
  {
    hide Inv, VerifiedFor, SumSucceeded;
    OneChargeCoversPayout(e);
  }

  lemma VerifiedIsTied(g: Book, t: TxId, charge: ChargeRef) returns (id: PaymentId)
    requires t in g.txs && VerifiedFor(g.txs[t], charge)
    ensures TiedIn(g, t, id, charge)
  {
    id :| PaidBy(g.txs[t].terms, g.txs[t].payments, g.txs[t].charges, id, charge);
  }

  lemma RunIsUnshared(bs: seq<BookStep>)
    requires RunBook(bs).Some?
    ensures Unshared(RunBook(bs).value)
  {
    hide VerifiedFor, TiedIn, RunBook;
    var g := RunBook(bs).value;
    forall t, t', charge | t in g.txs && t' in g.txs && VerifiedFor(g.txs[t], charge) && VerifiedFor(g.txs[t'], charge)
      ensures t == t'
    {
      var id := VerifiedIsTied(g, t, charge);
      var id' := VerifiedIsTied(g, t', charge);
      NoChargeCountsTwice(bs, t, t', id, id', charge);
    }
  }

  /**
   Conservation: in every reachable state of all transactions, with non-negative fees and charges, all
   successful transfers together are covered by distinct verified charges of the provider's one table.
   */
  lemma PlatformIsNeverShort(bs: seq<BookStep>)
    requires RunBook(bs).Some? && ChargesNonNegative(RunBook(bs).value.charges)
    requires forall t :: t in RunBook(bs).value.txs ==> 0 <= RunBook(bs).value.txs[t].terms.feeAmount
    ensures TotalPaidOut(RunBook(bs).value.txs) <= TotalVerified(RunBook(bs).value)
  {
    hide Inv, RunBook, Unshared, Backed, VerifiedFor, SumCounted, TiesUnique, BindingsUnhosted, MintsSound;
    RunBookKeeps(bs);
    RunIsUnshared(bs);
    var g := RunBook(bs).value;
    forall t | t in g.txs ensures Backed(g.txs[t]) {
      SoundIsBacked(g.txs[t]);
    }
    forall t, charge | t in g.txs && VerifiedFor(g.txs[t], charge) ensures charge in g.charges {
      VerifiedIsCharged(g.txs[t], charge);
    }
    ChargesCover(g, g.txs, g.charges);
  }
}
