/**
 All transactions together.

 Every row carries the transaction it belongs to, so a step touches one transaction. What is
 shared is the provider's table of charges, the space of charge references and customers, which
 `charge.success` looks up globally, and the order in which payments were created.
 */
module EscrowBook {
  import opened Wrappers
  import opened Machine
  import opened EscrowProtocol
  import opened EscrowInvariant
  import opened EscrowProof
  import opened PaymentSteps
  import Runs = EscrowRuns

  type TxId = string

  /** A payment row in order of creation, with the customer whose account it shows, if any. */
  datatype Mint = Mint(tx: TxId, payment: PaymentId, customer: Option<Customer>)

  /** All transactions, the provider's one table of charges, and the order in which payments were created. */
  datatype Book = Book(txs: map<TxId, Escrow>, charges: map<ChargeRef, Charge>, mints: seq<Mint>)

  datatype BookStep =
    | OpenTransaction(tx: TxId, terms: Terms)
    | Within(tx: TxId, step: Step)
    | ChargeMoves(charge: ChargeRef, now: Charge)

  ghost predicate HostedAnywhere(g: Book, charge: ChargeRef) {
    exists t, id :: t in g.txs && HostedBy(g.txs[t], id, charge)
  }

  ghost predicate BoundAnywhere(g: Book, charge: ChargeRef) {
    exists t, id :: t in g.txs && BoundTo(g.txs[t], id, charge)
  }

  ghost predicate BindingAnywhere(g: Book, charge: ChargeRef) {
    exists t, p ::
      t in g.txs && p in g.txs[t].procs && g.txs[t].procs[p].ChargeBinding? && g.txs[t].procs[p].charge == charge
  }

  /** A minted reference is new: no row holds it and no webhook has mentioned it. */
  ghost predicate FreshReference(g: Book, charge: ChargeRef) {
    !HostedAnywhere(g, charge) && !BoundAnywhere(g, charge) && !BindingAnywhere(g, charge)
  }

  /** The newest payment of a customer, across all transactions. */
  function Newest(mints: seq<Mint>, customer: Customer): (found: Option<nat>)
    ensures found.Some? ==> found.value < |mints| && mints[found.value].customer == Some(customer)
    ensures found.Some? ==> forall j :: found.value < j < |mints| ==> mints[j].customer != Some(customer)
    ensures found.None? ==> forall j :: 0 <= j < |mints| ==> mints[j].customer != Some(customer)
  {
    if mints == [] then None
    else if mints[|mints| - 1].customer == Some(customer) then Some(|mints| - 1)
    else Newest(mints[..|mints| - 1], customer)
  }

  predicate NewestIsIn(g: Book, tx: TxId, customer: Option<Customer>) {
    customer.Some? ==>
      Newest(g.mints, customer.value).Some? ==> g.mints[Newest(g.mints, customer.value).value].tx == tx
  }

  /**
   The three lookups of a charge event see every transaction's rows: our reference, bound charge, newest
   of the customer.
   */
  ghost predicate Routes(g: Book, tx: TxId, charge: ChargeRef, customer: Option<Customer>)
    requires tx in g.txs
  {
    || (exists id :: HostedBy(g.txs[tx], id, charge))
    || (&& !HostedAnywhere(g, charge)
        && (|| (exists id :: BoundTo(g.txs[tx], id, charge))
            || (!BoundAnywhere(g, charge) && NewestIsIn(g, tx, customer))))
  }

  ghost predicate Allowed(g: Book, b: BookStep) {
    match b
    case OpenTransaction(tx, _) => tx !in g.txs
    case Within(tx, s) =>
      && tx in g.txs && !s.MoveCharge? && Enabled(g.txs[tx], s) && CountsAgree(g.txs[tx], s)
      && (s.ChargeEvent? ==> Routes(g, tx, s.charge, s.customer))
      && (Inserts(g.txs[tx], s) ==> FreshReference(g, s.input.reference))
      // the unique constraint on the bound charge column
      && (Binds(g.txs[tx], s) ==> !BoundAnywhere(g, g.txs[tx].procs[s.p].charge))
    case ChargeMoves(charge, _) => charge in g.charges ==> !g.charges[charge].state.Charged?
  }

  /** A transaction opened now sees the charges the provider already has. */
  function Opened(terms: Terms, charges: map<ChargeRef, Charge>): Escrow {
    Drafted(terms).(charges := charges)
  }

  function Minting(g: Book, tx: TxId, s: Step): seq<Mint>
    requires tx in g.txs
  {
    if Inserts(g.txs[tx], s) then [Mint(tx, s.input.id, s.input.customer)] else []
  }

  ghost function Next(g: Book, b: BookStep): Book
    requires Allowed(g, b)
  {
    match b
    case OpenTransaction(tx, terms) => g.(txs := g.txs[tx := Opened(terms, g.charges)])
    case Within(tx, s) => g.(txs := g.txs[tx := Do(g.txs[tx], s)], mints := g.mints + Minting(g, tx, s))
    case ChargeMoves(charge, now) =>
      var charges := g.charges[charge := now];
      g.(txs := map t | t in g.txs :: g.txs[t].(charges := charges), charges := charges)
  }

  ghost function RunBook(bs: seq<BookStep>): Option<Book> {
    if bs == [] then Some(Book(map[], map[], []))
    else
      var g := RunBook(bs[..|bs| - 1]);
      if g.Some? && Allowed(g.value, bs[|bs| - 1]) then Some(Next(g.value, bs[|bs| - 1])) else None
  }

  // --- Invariant ------------------------------------------------------------------------------

  ghost predicate TiedIn(g: Book, t: TxId, id: PaymentId, charge: ChargeRef) {
    t in g.txs && id in g.txs[t].payments && Tied(g.txs[t].payments[id], charge)
  }

  /** No charge reference is tied to payments of two transactions. */
  ghost predicate TiesUnique(g: Book) {
    forall t, t', id, id', charge :: TiedIn(g, t, id, charge) && TiedIn(g, t', id', charge) ==> t == t'
  }

  /** A bind in flight concerns a charge that no payment hosts. */
  ghost predicate BindingsUnhosted(g: Book) {
    forall charge :: BindingAnywhere(g, charge) ==> !HostedAnywhere(g, charge)
  }

  /** Every transaction is sound and sees the one table of charges. */
  ghost predicate TxsSound(g: Book) {
    forall t :: t in g.txs ==> Inv(g.txs[t]) && g.txs[t].charges == g.charges
  }

  ghost predicate MintSound(g: Book, m: Mint) {
    m.tx in g.txs && m.payment in g.txs[m.tx].payments && g.txs[m.tx].payments[m.payment].customer == m.customer
  }

  /** The order of creation lists every payment row, and nothing else. */
  ghost predicate MintsSound(g: Book) {
    && (forall k :: 0 <= k < |g.mints| ==> MintSound(g, g.mints[k]))
    && (forall j, k :: 0 <= j < k < |g.mints| ==> g.mints[j] != g.mints[k])
    && (forall t, id :: t in g.txs && id in g.txs[t].payments ==>
         Mint(t, id, g.txs[t].payments[id].customer) in g.mints)
  }

  ghost predicate BookInv(g: Book) {
    TxsSound(g) && TiesUnique(g) && BindingsUnhosted(g) && MintsSound(g)
  }

  // --- Ties -----------------------------------------------------------------------------------

  /** The tie to `charge` is being made by this very step. */
  ghost predicate TiesNow(g: Book, b: BookStep, charge: ChargeRef) {
    && b.Within? && b.tx in g.txs
    && (|| (Inserts(g.txs[b.tx], b.step) && b.step.input.reference == charge)
        || (Binds(g.txs[b.tx], b.step) && g.txs[b.tx].procs[b.step.p].charge == charge))
  }

  /** What a step does not touch. */
  lemma NextElsewhere(g: Book, b: BookStep, t: TxId)
    requires Allowed(g, b) && t in Next(g, b).txs && !(b.Within? && t == b.tx)
    ensures if t in g.txs
      then Next(g, b).txs[t].payments == g.txs[t].payments && Next(g, b).txs[t].procs == g.txs[t].procs
      else Next(g, b).txs[t].payments == map[] && Next(g, b).txs[t].procs == map[]
  {
    hide Do, Enabled, CountsAgree, Routes;
  }

  lemma NextHere(g: Book, b: BookStep)
    requires Allowed(g, b) && b.Within?
    ensures b.tx in g.txs && Enabled(g.txs[b.tx], b.step) && CountsAgree(g.txs[b.tx], b.step) && !b.step.MoveCharge?
    ensures b.tx in Next(g, b).txs && Next(g, b).txs[b.tx] == Do(g.txs[b.tx], b.step)
    ensures Next(g, b) == Book(g.txs[b.tx := Do(g.txs[b.tx], b.step)], g.charges, g.mints + Minting(g, b.tx, b.step))
  {
    hide Do, Enabled, CountsAgree, Routes;
  }

  lemma TieOrigin(g: Book, b: BookStep, t: TxId, id: PaymentId, charge: ChargeRef)
    requires Allowed(g, b) && TiedIn(Next(g, b), t, id, charge)
    ensures TiedIn(g, t, id, charge) || (TiesNow(g, b, charge) && t == b.tx)
  {
    hide Do, Enabled, CountsAgree, Allowed, Next, Tied, Inserts, Binds;
    if b.Within? && t == b.tx {
      NextHere(g, b);
      TiesFrom(g.txs[t], b.step, id, charge);
    } else {
      NextElsewhere(g, b, t);
    }
  }

  lemma TieIsKnown(g: Book, t: TxId, id: PaymentId, charge: ChargeRef)
    requires TiedIn(g, t, id, charge)
    ensures HostedAnywhere(g, charge) || BoundAnywhere(g, charge)
  {
    assert HostedBy(g.txs[t], id, charge) || BoundTo(g.txs[t], id, charge);
  }

  lemma TiesNowIsFresh(g: Book, b: BookStep, t: TxId, id: PaymentId, charge: ChargeRef)
    requires BookInv(g) && Allowed(g, b) && TiesNow(g, b, charge)
    ensures !TiedIn(g, t, id, charge)
  {
    hide Inv, Enabled, CountsAgree, MintsSound, TiesUnique, Routes;
    if Binds(g.txs[b.tx], b.step) && g.txs[b.tx].procs[b.step.p].charge == charge {
      assert BindingAnywhere(g, charge);
    }
    hide HostedAnywhere, BoundAnywhere, BindingAnywhere, TiedIn;
    if TiedIn(g, t, id, charge) {
      TieIsKnown(g, t, id, charge);
    }
  }

  lemma NextKeepsTies(g: Book, b: BookStep, t: TxId, t': TxId, id: PaymentId, id': PaymentId, charge: ChargeRef)
    requires BookInv(g) && Allowed(g, b)
    requires TiedIn(Next(g, b), t, id, charge) && TiedIn(Next(g, b), t', id', charge)
    ensures t == t'
  {
    hide Inv, Allowed, Next, TiedIn, TiesNow, BindingsUnhosted, MintsSound;
    TieOrigin(g, b, t, id, charge);
    TieOrigin(g, b, t', id', charge);
    if TiesNow(g, b, charge) {
      TiesNowIsFresh(g, b, t, id, charge);
      TiesNowIsFresh(g, b, t', id', charge);
    }
  }

  lemma HostedOrigin(g: Book, b: BookStep, charge: ChargeRef)
    requires Allowed(g, b) && HostedAnywhere(Next(g, b), charge)
    ensures HostedAnywhere(g, charge) || (b.Within? && Inserts(g.txs[b.tx], b.step) && b.step.input.reference == charge)
  {
    hide Do, Enabled, CountsAgree, Allowed, Next, Tied, Inserts, Binds;
    var t, id :| t in Next(g, b).txs && HostedBy(Next(g, b).txs[t], id, charge);
    if b.Within? && t == b.tx {
      NextHere(g, b);
      HostedIsTied(Next(g, b).txs[t], id, charge);
      TiesFrom(g.txs[t], b.step, id, charge);
      if id in g.txs[t].payments { assert HostedBy(g.txs[t], id, charge); }
    } else {
      NextElsewhere(g, b, t);
      if t in g.txs { assert HostedBy(g.txs[t], id, charge); }
    }
  }

  lemma HostedIsTied(e: Escrow, id: PaymentId, charge: ChargeRef)
    requires HostedBy(e, id, charge)
    ensures Tied(e.payments[id], charge)
  {
  }

  lemma BindingOrigin(g: Book, b: BookStep, charge: ChargeRef)
    requires Allowed(g, b) && BindingAnywhere(Next(g, b), charge)
    ensures || BindingAnywhere(g, charge)
            || (b.Within? && b.step.ChargeEvent? && b.step.charge == charge && !HostedAnywhere(g, charge))
  {
    hide Do, Enabled, CountsAgree, HostedAnywhere, BoundAnywhere, Tied, Next;
    var n := Next(g, b);
    var t, p :| t in n.txs && p in n.txs[t].procs && n.txs[t].procs[p].ChargeBinding?
      && n.txs[t].procs[p].charge == charge;
    if b.Within? && t == b.tx {
      NextHere(g, b);
      BindingsFrom(g.txs[t], b.step, p);
    } else {
      NextElsewhere(g, b, t);
    }
  }

  lemma NextKeepsBindings(g: Book, b: BookStep, charge: ChargeRef)
    requires BookInv(g) && Allowed(g, b) && BindingAnywhere(Next(g, b), charge)
    ensures !HostedAnywhere(Next(g, b), charge)
  {
    hide Inv, Next, Enabled, CountsAgree, HostedAnywhere, BindingAnywhere,
      BoundAnywhere, TiesUnique, Routes, MintsSound;
    BindingOrigin(g, b, charge);
    if HostedAnywhere(Next(g, b), charge) {
      HostedOrigin(g, b, charge);
    }
  }

  // --- Soundness of each transaction, and the order of creation --------------------------------------

  lemma OpenedSound(t: Terms, charges: map<ChargeRef, Charge>)
    ensures Inv(Opened(t, charges))
  {
  }

  lemma ChargeMoved(e: Escrow, charge: ChargeRef, now: Charge)
    requires Inv(e) && (charge in e.charges ==> !e.charges[charge].state.Charged?)
    ensures Inv(e.(charges := e.charges[charge := now]))
  {
    hide Inv, Later;
    StepKeeps(e, MoveCharge(charge, now));
  }

  lemma NextKeepsTxs(g: Book, b: BookStep)
    requires TxsSound(g) && Allowed(g, b)
    ensures TxsSound(Next(g, b))
  {
    hide Inv, Do, Enabled, CountsAgree, Routes, Later;
    match b
    case OpenTransaction(_, terms) => OpenedSound(terms, g.charges);
    case Within(tx, step) =>
      StepKeeps(g.txs[tx], step);
      ChargesFrom(g.txs[tx], step);
    case ChargeMoves(charge, now) =>
      forall t | t in g.txs ensures Inv(Next(g, b).txs[t]) {
        ChargeMoved(g.txs[t], charge, now);
      }
  }

  lemma CustomersKept(e: Escrow, s: Step, id: PaymentId)
    requires Inv(e) && Enabled(e, s) && CountsAgree(e, s) && id in e.payments
    ensures id in Do(e, s).payments && Do(e, s).payments[id].customer == e.payments[id].customer
  {
    hide Inv, Later, Do, Enabled, CountsAgree;
    StepKeeps(e, s);
    Runs.LaterTerms(e, Do(e, s));
    assert PaymentKept(e.payments[id], Do(e, s).payments[id]);
  }

  lemma MintIsNew(g: Book, tx: TxId, s: Step)
    requires MintsSound(g) && tx in g.txs && Enabled(g.txs[tx], s)
    ensures forall m :: m in Minting(g, tx, s) ==> m !in g.mints
  {
    hide Enabled;
    if Inserts(g.txs[tx], s) {
      InsertsRow(g.txs[tx], s);
      forall k | 0 <= k < |g.mints| ensures g.mints[k] != Mint(tx, s.input.id, s.input.customer) {
        assert MintSound(g, g.mints[k]);
      }
    }
  }

  lemma WithinKeepsMints(g: Book, b: BookStep)
    requires TxsSound(g) && MintsSound(g) && Allowed(g, b) && b.Within?
    ensures MintsSound(Next(g, b))
  {
    hide Inv, Do, Enabled, CountsAgree, Allowed, Next, Inserts;
    NextHere(g, b);
    var n, e, s := Next(g, b), g.txs[b.tx], b.step;
    if Inserts(e, s) { InsertsRow(e, s); }
    forall k | 0 <= k < |n.mints| ensures MintSound(n, n.mints[k]) {
      if k < |g.mints| {
        assert n.mints[k] == g.mints[k] && MintSound(g, g.mints[k]);
        if g.mints[k].tx == b.tx { CustomersKept(e, s, g.mints[k].payment); }
      }
    }
    MintIsNew(g, b.tx, s);
    forall t, id | t in n.txs && id in n.txs[t].payments
      ensures Mint(t, id, n.txs[t].payments[id].customer) in n.mints {
      if t == b.tx && id !in e.payments {
        RowsFrom(e, s, id);
        assert n.mints[|n.mints| - 1] == Mint(t, id, n.txs[t].payments[id].customer);
      } else if t == b.tx {
        CustomersKept(e, s, id);
      }
    }
  }

  lemma NextKeepsMints(g: Book, b: BookStep)
    requires TxsSound(g) && MintsSound(g) && Allowed(g, b)
    ensures MintsSound(Next(g, b))
  {
    hide Inv, Do, Enabled, CountsAgree, Routes;
    if b.Within? {
      WithinKeepsMints(g, b);
    } else {
      var n := Next(g, b);
      forall k | 0 <= k < |n.mints| ensures MintSound(n, n.mints[k]) {
        assert MintSound(g, g.mints[k]);
      }
    }
  }

  lemma NextKeeps(g: Book, b: BookStep)
    requires BookInv(g) && Allowed(g, b)
    ensures BookInv(Next(g, b))
  {
    hide TxsSound, MintsSound, Allowed, Next, TiedIn, HostedAnywhere, BindingAnywhere;
    var n := Next(g, b);
    NextKeepsTxs(g, b);
    NextKeepsMints(g, b);
    forall t, t', id, id', charge | TiedIn(n, t, id, charge) && TiedIn(n, t', id', charge) ensures t == t' {
      NextKeepsTies(g, b, t, t', id, id', charge);
    }
    forall charge | BindingAnywhere(n, charge) ensures !HostedAnywhere(n, charge) {
      NextKeepsBindings(g, b, charge);
    }
  }

  lemma {:induction false} RunBookKeeps(bs: seq<BookStep>)
    requires RunBook(bs).Some?
    ensures BookInv(RunBook(bs).value)
  {
    hide BookInv, Allowed, Next;
    if bs == [] {
      EmptyBookSound();
    } else {
      RunBookKeeps(bs[..|bs| - 1]);
      NextKeeps(RunBook(bs[..|bs| - 1]).value, bs[|bs| - 1]);
    }
  }

  lemma EmptyBookSound()
    ensures BookInv(Book(map[], map[], []))
  {
  }

  /** Over every run of all transactions, no charge pays for two payments, hosted or virtual-account. */
  lemma NoChargeCountsTwice(bs: seq<BookStep>, t: TxId, t': TxId, id: PaymentId, id': PaymentId, charge: ChargeRef)
    requires RunBook(bs).Some?
    requires TiedIn(RunBook(bs).value, t, id, charge) && TiedIn(RunBook(bs).value, t', id', charge)
    ensures t == t' && id == id'
  {
    RunBookKeeps(bs);
    hide Tied, Inv, RunBook, MintsSound, BindingsUnhosted;
    Runs.OnePaymentRow(RunBook(bs).value.txs[t]);
  }
}
