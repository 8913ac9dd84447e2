/**
 Whose payment an inbound bank transfer reaches. A charge into a virtual account carries the provider's
 own reference and the account's customer; the payment is looked up by that customer, newest first.
 */
module VirtualAccounts {
  import opened Wrappers
  import opened Machine
  import opened EscrowProtocol
  import opened EscrowInvariant
  import opened EscrowProof
  import opened PaymentSteps
  import opened EscrowBook
  import Runs = EscrowRuns

  predicate NoneNewer(mints: seq<Mint>, k: nat)
    requires k < |mints|
  {
    forall j :: k < j < |mints| ==> mints[j].customer != mints[k].customer
  }

  lemma LookupIsOwnIff(mints: seq<Mint>, k: nat)
    requires k < |mints| && mints[k].customer.Some?
    ensures Newest(mints, mints[k].customer.value) == Some(k) <==> NoneNewer(mints, k)
  {
    var found := Newest(mints, mints[k].customer.value);
    assert found.Some? && found.value >= k;
  }

  /** Every virtual account's transfers reach the payment that shows the account. */
  predicate LookupsOwn(mints: seq<Mint>) {
    forall k :: 0 <= k < |mints| && mints[k].customer.Some? ==> Newest(mints, mints[k].customer.value) == Some(k)
  }

  predicate CustomersDiffer(mints: seq<Mint>) {
    forall j, k :: 0 <= j < k < |mints| && mints[k].customer.Some? ==> mints[j].customer != mints[k].customer
  }

  /** The promised one-to-one mapping holds exactly when no two payments show accounts of one customer. */
  lemma LookupsOwnIff(mints: seq<Mint>)
    ensures LookupsOwn(mints) <==> CustomersDiffer(mints)
  {
    forall k: nat | k < |mints| && mints[k].customer.Some?
      ensures Newest(mints, mints[k].customer.value) == Some(k) <==> NoneNewer(mints, k)
    {
      LookupIsOwnIff(mints, k);
    }
    if LookupsOwn(mints) {
      forall j: nat, k: nat | j < k < |mints| && mints[k].customer.Some?
        ensures mints[j].customer != mints[k].customer {
        if mints[j].customer.Some? {
          assert NoneNewer(mints, j);
        }
      }
    }
  }

  /** A new virtual account keeps the mapping right exactly when its customer has none yet: known before checkout. */
  lemma CheckoutKeepsLookupsIff(mints: seq<Mint>, m: Mint)
    requires LookupsOwn(mints) && m.customer.Some?
    ensures LookupsOwn(mints + [m]) <==> forall k :: 0 <= k < |mints| ==> mints[k].customer != m.customer
  {
    LookupsOwnIff(mints);
    LookupsOwnIff(mints + [m]);
    var longer := mints + [m];
    assert longer[|mints|] == m && forall k :: 0 <= k < |mints| ==> longer[k] == mints[k];
  }

  // --- Over runs -------------------------------------------------------------------------------------

  lemma TwoMintsOneRow(g: Book, j: nat, k: nat)
    requires BookInv(g) && j < |g.mints| && k < |g.mints| && g.mints[j].tx == g.mints[k].tx
    ensures j == k
  {
    hide TiesUnique, BindingsUnhosted, Inv;
    assert MintSound(g, g.mints[j]) && MintSound(g, g.mints[k]);
    Runs.OnePaymentRow(g.txs[g.mints[j].tx]);
  }

  lemma OwnerBinds(e: Escrow, p: ProcessId, charge: ChargeRef, customer: Customer, id: PaymentId)
    requires Inv(e) && OwnedBy(e, id, Some(customer))
    requires !(exists i :: HostedBy(e, i, charge)) && !(exists i :: BoundTo(e, i, charge))
    ensures RouteCharge(e, p, charge, Some(customer)) == Goto(e, p, ChargeBinding(id, charge, Webhook))
  {
    hide Inv, ReadPayment;
    Runs.OnePaymentRow(e);
  }

  /**
   In every run, a transfer into the account of payment `k`, under a reference not seen before, starts to
   bind to that payment if and only if no newer payment, of any transaction, has the same customer.
   */
  lemma TransferReachesItsPaymentIff(bs: seq<BookStep>, tx: TxId, p: ProcessId, charge: ChargeRef, k: nat)
    requires RunBook(bs).Some? && k < |RunBook(bs).value.mints| && RunBook(bs).value.mints[k].customer.Some?
    requires var g := RunBook(bs).value;
      && !HostedAnywhere(g, charge) && !BoundAnywhere(g, charge)
      && Allowed(g, Within(tx, ChargeEvent(p, charge, g.mints[k].customer)))
    ensures var g := RunBook(bs).value;
      var e' := Next(g, Within(tx, ChargeEvent(p, charge, g.mints[k].customer))).txs[tx];
      (tx == g.mints[k].tx && p in e'.procs && e'.procs[p] == ChargeBinding(g.mints[k].payment, charge, Webhook))
        <==> NoneNewer(g.mints, k)
  {
    RunBookKeeps(bs);
    var g := RunBook(bs).value;
    var c := g.mints[k].customer.value;
    var b := Within(tx, ChargeEvent(p, charge, Some(c)));
    LookupIsOwnIff(g.mints, k);
    var n := NewestOwner(g, b, c);
    hide BookInv, Next, Allowed, Newest;
    if tx == g.mints[k].tx {
      TwoMintsOneRow(g, n, k);
    }
  }

  /** The transaction that takes the charge event is that of the newest payment, and that payment is bound. */
  lemma NewestOwner(g: Book, b: BookStep, c: Customer) returns (n: nat)
    requires BookInv(g) && Allowed(g, b) && b.Within? && b.step.ChargeEvent? && b.step.customer == Some(c)
    requires !HostedAnywhere(g, b.step.charge) && !BoundAnywhere(g, b.step.charge) && Newest(g.mints, c).Some?
    ensures Newest(g.mints, c) == Some(n) && n < |g.mints| && g.mints[n].tx == b.tx && b.tx in Next(g, b).txs
    ensures Next(g, b).txs[b.tx] ==
      Goto(g.txs[b.tx], b.step.p, ChargeBinding(g.mints[n].payment, b.step.charge, Webhook))
  {
    n := Newest(g.mints, c).value;
    RoutedToNewest(g, b, c);
    NextHere(g, b);
    var e := g.txs[b.tx];
    assert Inv(e) && OwnedBy(e, g.mints[n].payment, Some(c)) by { assert MintSound(g, g.mints[n]); }
    hide BookInv, Allowed, Next, Inv, Do, Enabled;
    ChargeEventRoutes(e, b.step);
    OwnerBinds(e, b.step.p, b.step.charge, c, g.mints[n].payment);
  }

  lemma RoutedToNewest(g: Book, b: BookStep, c: Customer)
    requires Allowed(g, b) && b.Within? && b.step.ChargeEvent? && b.step.customer == Some(c)
    requires !HostedAnywhere(g, b.step.charge) && !BoundAnywhere(g, b.step.charge) && Newest(g.mints, c).Some?
    ensures g.mints[Newest(g.mints, c).value].tx == b.tx
    ensures !(exists i :: HostedBy(g.txs[b.tx], i, b.step.charge))
      && !(exists i :: BoundTo(g.txs[b.tx], i, b.step.charge))
  {
    hide Enabled, CountsAgree, HostedBy, BoundTo;
    forall i ensures !HostedBy(g.txs[b.tx], i, b.step.charge) && !BoundTo(g.txs[b.tx], i, b.step.charge) {
    }
  }

  // --- A run in which the mapping fails ---------------------------------------------------------------

  ghost predicate Arrives(g: Book) {
    exists bs :: RunBook(bs) == Some(g)
  }

  lemma Go(g: Book, b: BookStep)
    requires Arrives(g) && Allowed(g, b)
    ensures Arrives(Next(g, b))
  {
    var bs :| RunBook(bs) == Some(g);
    hide Allowed, Next;
    assert (bs + [b])[..|bs|] == bs;
    assert RunBook(bs + [b]) == Some(Next(g, b));
  }

  /** A step inside one transaction that the others do not constrain. */
  lemma GoWithin(g: Book, tx: TxId, s: Step, e': Escrow)
    requires Arrives(g) && tx in g.txs && Enabled(g.txs[tx], s) && CountsAgree(g.txs[tx], s) && Do(g.txs[tx], s) == e'
    requires !s.MoveCharge? && !s.ChargeEvent? && !Inserts(g.txs[tx], s) && !Binds(g.txs[tx], s)
    ensures Arrives(g.(txs := g.txs[tx := e']))
  {
    hide Arrives, Do, Enabled, CountsAgree, Inserts, Binds;
    Go(g, Within(tx, s));
    assert g.mints + [] == g.mints;
  }

  lemma ActWithin(g: Book, tx: TxId, e: Escrow, p: ProcessId, input: Input, e': Escrow)
    requires Arrives(g) && tx in g.txs && g.txs[tx] == e && p in e.procs && Suits(e, e.procs[p], input)
    requires Advance(e, p, input) == e' && !e.procs[p].PaymentDue? && !e.procs[p].ChargeBinding?
    ensures Arrives(g.(txs := g.txs[tx := e']))
  {
    hide Arrives, Advance, Suits;
    GoWithin(g, tx, Resume(p, input), e');
  }

  /** `apply` from the deciding read to the commit, in a process of its own. */
  lemma ApplyWithin(g: Book, tx: TxId, e: Escrow, event: Event, after: Continuation, to: Status) returns (g': Book)
    requires Arrives(g) && tx in g.txs && g.txs[tx] == e && e.disputes == map[] && !event.AutoConfirm?
    requires e.procs == map[0 := Applying(event, None, false, after)] && (after.Stop? || after.InsertPayment?)
    requires Transition(e.status, event, Context(e.terms.releaseRule, false, false)) == Accept(to)
    ensures Arrives(g') && tx in g'.txs && g' == g.(txs := g.txs[tx := g'.txs[tx]])
    ensures g'.txs[tx] == e.(status := to, logs := g'.txs[tx].logs,
      procs := if after.Stop? then map[] else map[0 := PaymentDue(after.virtualAccount)])
  {
    hide Arrives, Transition, Appended;
    var context := Context(e.terms.releaseRule, false, false);
    var x := Decided(event, context, e.status, to, after);
    var e1 := e.(procs := map[0 := x]);
    assert !AnyFreezing(e);
    assert Advance(e, 0, NoInput) == e1;
    ActWithin(g, tx, e, 0, NoInput, e1);
    var g1 := g.(txs := g.txs[tx := e1]);
    var e2 := Proceed(Commit(e1, Edge(e.status, event, context, to)), 0, after);
    assert Advance(e1, 0, NoInput) == e2;
    ActWithin(g1, tx, e1, 0, NoInput, e2);
    g' := g1.(txs := g1.txs[tx := e2]);
    assert g1.txs[tx := e2] == g.txs[tx := e2];
  }

  /** A transaction opened and published. */
  lemma PublishWithin(g: Book, tx: TxId, t: Terms) returns (g': Book)
    requires Arrives(g) && tx !in g.txs && g.charges == map[]
    ensures Arrives(g') && tx in g'.txs && g' == g.(txs := g.txs[tx := g'.txs[tx]])
    ensures g'.txs[tx] == Drafted(t).(status := LinkActive, logs := g'.txs[tx].logs)
  {
    hide Arrives;
    var e := Drafted(t);
    Go(g, OpenTransaction(tx, t));
    assert Opened(t, g.charges) == e;
    var g1 := g.(txs := g.txs[tx := e]);
    var e1 := e.(procs := map[0 := Applying(SellerPublish, None, false, Stop)]);
    GoWithin(g1, tx, StartApply(0, SellerPublish), e1);
    var g2 := g1.(txs := g1.txs[tx := e1]);
    g' := ApplyWithin(g2, tx, e1, SellerPublish, Stop, LinkActive);
    assert g'.txs == g.txs[tx := g'.txs[tx]];
  }

  function AccountRow(t: Terms, reference: ChargeRef, customer: Customer): Payment {
    Payment(reference, None, Some(customer), ChargeAmount(t), AwaitingCharge)
  }

  /** A virtual account for a published transaction. */
  lemma CheckoutWithin(g: Book, tx: TxId, t: Terms, reference: ChargeRef, customer: Customer) returns (g': Book)
    requires Arrives(g) && tx in g.txs && FreshReference(g, reference)
    requires g.txs[tx] == Drafted(t).(status := LinkActive, logs := g.txs[tx].logs)
    ensures Arrives(g') && tx in g'.txs
    ensures g' == g.(txs := g.txs[tx := g'.txs[tx]], mints := g.mints + [Mint(tx, 0, Some(customer))])
    ensures g'.txs[tx] == Drafted(t).(status := PaymentPending, logs := g'.txs[tx].logs,
                                      payments := map[0 := AccountRow(t, reference, customer)])
  {
    hide Arrives;
    var e := g.txs[tx];
    var x := Applying(BuyerInitiateCheckout, None, false, InsertPayment(true));
    var e1 := e.(procs := map[0 := x]);
    GoWithin(g, tx, StartCheckout(0, true), e1);
    var g1 := g.(txs := g.txs[tx := e1]);
    var g2 := ApplyWithin(g1, tx, e1, BuyerInitiateCheckout, InsertPayment(true), PaymentPending);
    assert g2.txs == g.txs[tx := g2.txs[tx]];
    g' := InsertWithin(g, g2, tx, t, reference, customer);
  }

  lemma InsertWithin(g: Book, g2: Book, tx: TxId, t: Terms, reference: ChargeRef, customer: Customer) returns (g': Book)
    requires Arrives(g2) && tx in g.txs && FreshReference(g, reference) && tx in g2.txs
    requires g2 == g.(txs := g.txs[tx := g2.txs[tx]]) && g.txs[tx].payments == map[] && g.txs[tx].procs == map[]
    requires g2.txs[tx] ==
      Drafted(t).(status := PaymentPending, logs := g2.txs[tx].logs, procs := map[0 := PaymentDue(true)])
    ensures Arrives(g') && tx in g'.txs
    ensures g' == g.(txs := g.txs[tx := g'.txs[tx]], mints := g.mints + [Mint(tx, 0, Some(customer))])
    ensures g'.txs[tx] == Drafted(t).(status := PaymentPending, logs := g2.txs[tx].logs,
                                      payments := map[0 := AccountRow(t, reference, customer)])
  {
    hide Arrives;
    var e := g2.txs[tx];
    var input := Minted(0, reference, Some(customer));
    var e' := e.(payments := map[0 := AccountRow(t, reference, customer)], procs := map[]);
    assert Advance(e, 0, input) == e';
    assert FreshReference(g2, reference) by { StillFresh(g, g2, tx, reference); }
    hide FreshReference, Advance;
    Go(g2, Within(tx, Resume(0, input)));
    g' := Book(g2.txs[tx := e'], g2.charges, g2.mints + [Mint(tx, 0, Some(customer))]);
    assert Next(g2, Within(tx, Resume(0, input))) == g';
    assert g'.txs == g.txs[tx := e'];
  }

  lemma StillFresh(g: Book, g2: Book, tx: TxId, reference: ChargeRef)
    requires FreshReference(g, reference) && tx in g.txs && tx in g2.txs && g2 == g.(txs := g.txs[tx := g2.txs[tx]])
    requires g2.txs[tx].payments == g.txs[tx].payments && g2.txs[tx].procs == map[0 := PaymentDue(true)]
    ensures FreshReference(g2, reference)
  {
    forall t, id | t in g2.txs ensures !HostedBy(g2.txs[t], id, reference) && !BoundTo(g2.txs[t], id, reference) {
      assert !HostedBy(g.txs[t], id, reference) && !BoundTo(g.txs[t], id, reference);
    }
    forall t, p | t in g2.txs && p in g2.txs[t].procs && g2.txs[t].procs[p].ChargeBinding?
      ensures g2.txs[t].procs[p].charge != reference
    {
      assert t != tx && p in g.txs[t].procs;
    }
  }

  const OLDER: TxId := "a"
  const NEWER: TxId := "b"
  const CUSTOMER: Customer := "c"
  const TRANSFER: ChargeRef := "x"

  /** Two transactions of one buyer, each with its virtual account, the second created later. */
  lemma TwoAccounts(t: Terms) returns (g: Book)
    ensures Arrives(g) && g.txs.Keys == {OLDER, NEWER} && g.charges == map[]
    ensures g.mints == [Mint(OLDER, 0, Some(CUSTOMER)), Mint(NEWER, 0, Some(CUSTOMER))]
    ensures g.txs[OLDER] == Drafted(t).(status := PaymentPending, logs := g.txs[OLDER].logs,
                                        payments := map[0 := AccountRow(t, "1", CUSTOMER)])
    ensures g.txs[NEWER] == Drafted(t).(status := PaymentPending, logs := g.txs[NEWER].logs,
                                        payments := map[0 := AccountRow(t, "2", CUSTOMER)])
  {
    var g0 := Book(map[], map[], []);
    assert RunBook([]) == Some(g0);
    assert Arrives(g0);
    hide Arrives;
    var g1 := PublishWithin(g0, OLDER, t);
    assert FreshReference(g1, "1");
    var g2 := CheckoutWithin(g1, OLDER, t, "1", CUSTOMER);
    var g3 := PublishWithin(g2, NEWER, t);
    assert FreshReference(g3, "2");
    g := CheckoutWithin(g3, NEWER, t, "2", CUSTOMER);
  }

  /**
   One throwaway customer per transaction is promised but not enforced: with a shared customer, a
   transfer meant for the older transaction is bound to the newer one, and the older one gets nothing.
   */
  lemma OlderTransferBindsToNewer(t: Terms) returns (g: Book)
    ensures Arrives(g) && OLDER in g.txs && NEWER in g.txs
    ensures g.mints == [Mint(OLDER, 0, Some(CUSTOMER)), Mint(NEWER, 0, Some(CUSTOMER))]
    ensures 0 in g.txs[NEWER].payments && g.txs[NEWER].payments[0].boundCharge == Some(TRANSFER)
    ensures 0 in g.txs[OLDER].payments && g.txs[OLDER].payments[0].boundCharge == None
    ensures g.txs[OLDER].procs == map[] && g.txs[OLDER].charges == map[]
  {
    var g1 := TwoAccounts(t);
    hide Arrives;
    var e := g1.txs[NEWER];
    var b := Within(NEWER, ChargeEvent(0, TRANSFER, Some(CUSTOMER)));
    NewestOfTwo(g1);
    assert Routes(g1, NEWER, TRANSFER, Some(CUSTOMER));
    assert OwnedBy(e, 0, Some(CUSTOMER));
    Go(g1, b);
    var e1 := e.(procs := map[0 := ChargeBinding(0, TRANSFER, Webhook)]);
    assert RouteCharge(e, 0, TRANSFER, Some(CUSTOMER)) == e1;
    var g2 := g1.(txs := g1.txs[NEWER := e1]);
    assert Next(g1, b) == g2 by { assert g1.mints + [] == g1.mints; }
    g := BindWithin(g2, t, e1);
  }

  lemma NewestOfTwo(g: Book)
    requires g.mints == [Mint(OLDER, 0, Some(CUSTOMER)), Mint(NEWER, 0, Some(CUSTOMER))]
    ensures NewestIsIn(g, NEWER, Some(CUSTOMER))
  {
  }

  lemma BindWithin(g: Book, t: Terms, e: Escrow) returns (g': Book)
    requires Arrives(g) && NEWER in g.txs && g.txs[NEWER] == e && !BoundAnywhere(g, TRANSFER)
    requires e.procs == map[0 := ChargeBinding(0, TRANSFER, Webhook)]
      && e.payments == map[0 := AccountRow(t, "2", CUSTOMER)]
    ensures Arrives(g') && g'.mints == g.mints && g'.txs.Keys == g.txs.Keys
    ensures forall tx :: tx in g.txs && tx != NEWER ==> g'.txs[tx] == g.txs[tx]
    ensures 0 in g'.txs[NEWER].payments && g'.txs[NEWER].payments[0].boundCharge == Some(TRANSFER)
  {
    hide Arrives;
    var b := Within(NEWER, Resume(0, NoInput));
    Go(g, b);
    g' := Next(g, b);
    assert g.mints + [] == g.mints;
  }
}
