/** The periodic sweep over stranded payments: one more driver of the same verify-and-protect path. */
module PaymentReconcile {
  import opened Wrappers
  import opened EscrowProtocol
  import opened EscrowServices

  predicate Distinct(desks: seq<EscrowDesk>) {
    forall i, j :: 0 <= i < j < |desks| ==> desks[i] != desks[j]
  }

  predicate PaidAt(desk: EscrowDesk, id: PaymentId)
    reads desk
  {
    id in desk.payments && desk.payments[id].status.Paid?
  }

  /** How many of the first `n` payments are paid. */
  function PaidCount(desks: seq<EscrowDesk>, ids: seq<PaymentId>, n: nat): nat
    requires n <= |desks| == |ids|
    reads desks[..n]
  {
    if n == 0 then 0
    else
      assert desks[..n][..n - 1] == desks[..n - 1] && desks[n - 1] in desks[..n];
      assert forall d :: d in desks[..n - 1] ==> d in desks[..n];
      PaidCount(desks, ids, n - 1) + if PaidAt(desks[n - 1], ids[n - 1]) then 1 else 0
  }

  /**
   Each listed payment is reconciled once, whatever happens to the others: a mismatch, an outage or
   a refused transition stops nothing. The count is the number of payments that end up paid.
   */
  method ReconcilePending(desks: seq<EscrowDesk>, ids: seq<PaymentId>) returns (checked: nat, settled: nat)
    requires |ids| == |desks| && Distinct(desks)
    requires forall i :: 0 <= i < |desks| ==> desks[i].Valid()
    modifies desks
    ensures checked == |desks|
    ensures forall i :: 0 <= i < |desks| ==>
      desks[i].Valid() && desks[i].State() == Reconciled(old(desks[i].State()), ids[i])
    ensures settled == PaidCount(desks, ids, |desks|)
  {
    hide Reconciled, EscrowDesk.Valid, EscrowDesk.State;
    settled := 0;
    for k := 0 to |desks|
      invariant forall i :: 0 <= i < k ==>
        desks[i].Valid() && desks[i].State() == Reconciled(old(desks[i].State()), ids[i])
      invariant forall i :: k <= i < |desks| ==> desks[i].Valid() && desks[i].State() == old(desks[i].State())
      invariant settled == PaidCount(desks, ids, k)
    {
      assert desks[k] !in desks[..k];
      var result := desks[k].ReconcilePayment(ids[k]);
      if result == Ok(Paid) {
        settled := settled + 1;
      }
    }
    return |desks|, settled;
  }

  // --- Which payments are stranded --------------------------------------------------------------------

  const BATCH := 100

  /** Rows in order of creation: pending, and older than the threshold. */
  predicate Stranded(desks: seq<EscrowDesk>, ids: seq<PaymentId>, created: seq<int>, cutoff: int, k: nat)
    requires k < |desks| == |ids| == |created|
    reads desks
  {
    ids[k] in desks[k].payments && desks[k].payments[ids[k]].status.AwaitingCharge? && created[k] < cutoff
  }

  predicate Ascending(ks: seq<nat>, bound: nat) {
    && (forall i :: 0 <= i < |ks| ==> ks[i] < bound)
    && (forall i, j :: 0 <= i < j < |ks| ==> ks[i] < ks[j])
  }

  /** The oldest hundred stranded payments, or all of them. */
  method FindStranded(desks: seq<EscrowDesk>, ids: seq<PaymentId>, created: seq<int>, cutoff: int)
    returns (picked: seq<nat>)
    requires |desks| == |ids| == |created|
    ensures Ascending(picked, |desks|) && |picked| <= 100
    ensures forall k :: k in picked ==> k < |desks| && Stranded(desks, ids, created, cutoff, k)
    ensures forall k :: 0 <= k < |desks| && Stranded(desks, ids, created, cutoff, k) && k !in picked ==>
      |picked| == 100 && forall p :: p in picked ==> p < k
    ensures forall k :: 0 <= k < |desks| ==> (Stranded(desks, ids, created, cutoff, k) <==>
      ids[k] in desks[k].payments && desks[k].payments[ids[k]].status == AwaitingCharge && created[k] < cutoff)
  {
    picked := [];
    for k := 0 to |desks|
      invariant Ascending(picked, k) && |picked| <= BATCH
      invariant forall j :: j in picked ==> j < |desks| && Stranded(desks, ids, created, cutoff, j)
      invariant forall j :: 0 <= j < k && Stranded(desks, ids, created, cutoff, j) && j !in picked ==>
        |picked| == BATCH && forall p :: p in picked ==> p < j
    {
      if |picked| < BATCH && Stranded(desks, ids, created, cutoff, k) {
        picked := picked + [k];
      }
    }
  }

  function Picked<T>(xs: seq<T>, picked: seq<nat>): (r: seq<T>)
    requires Ascending(picked, |xs|)
    ensures |r| == |picked| && forall i :: 0 <= i < |picked| ==> r[i] == xs[picked[i]]
  {
    seq(|picked|, i requires 0 <= i < |picked| => xs[picked[i]])
  }

  /** The sweep as the scheduler runs it: find the stranded payments, reconcile each, touch nothing else. */
  method Sweep(desks: seq<EscrowDesk>, ids: seq<PaymentId>, created: seq<int>, now: int, threshold: int)
    returns (picked: seq<nat>, checked: nat, settled: nat)
    requires |desks| == |ids| == |created| && Distinct(desks)
    requires forall i :: 0 <= i < |desks| ==> desks[i].Valid()
    modifies desks
    ensures Ascending(picked, |desks|) && |picked| <= 100 && checked == |picked|
    ensures forall k :: 0 <= k < |desks| && k in picked ==>
      && created[k] < now - threshold
      && old(ids[k] in desks[k].payments && desks[k].payments[ids[k]].status == AwaitingCharge)
    ensures forall k :: 0 <= k < |desks| && k !in picked ==>
      || created[k] >= now - threshold
      || !old(ids[k] in desks[k].payments && desks[k].payments[ids[k]].status == AwaitingCharge)
      || (|picked| == 100 && forall p :: p in picked ==> p < k)
    ensures forall k :: 0 <= k < |desks| ==> desks[k].Valid()
    ensures forall k :: 0 <= k < |desks| ==>
      desks[k].State() == if k in picked then Reconciled(old(desks[k].State()), ids[k]) else old(desks[k].State())
    ensures settled == PaidCount(Picked(desks, picked), Picked(ids, picked), |picked|)
  {
    hide Reconciled, EscrowDesk.Valid, EscrowDesk.State, Stranded, PaidCount;
    picked := FindStranded(desks, ids, created, now - threshold);
    var chosen, rows := Picked(desks, picked), Picked(ids, picked);
    assert forall k :: 0 <= k < |desks| && k !in picked ==> desks[k] !in chosen;
    checked, settled := ReconcilePending(chosen, rows);
    forall k | 0 <= k < |desks| && k in picked
      ensures desks[k].Valid() && desks[k].State() == Reconciled(old(desks[k].State()), ids[k])
    {
      var i :| 0 <= i < |picked| && picked[i] == k;
      assert chosen[i] == desks[k] && rows[i] == ids[k];
    }
  }
}
