/** Every invoice operation keeps invoices and transactions coupled, and moves only forward. */
module InvoiceCoupling {
  import opened Wrappers
  import opened InvoiceTotals
  import opened Invoices
  import Machine

  // --- Transactions -----------------------------------------------------------------------------

  /** A transaction keeps its amount, only moves on, and a payment once collected stays so. */
  predicate TxKept(a: Tx, b: Tx) {
    b.amount == a.amount && Machine.Onward(a.status, b.status) && (a.paid ==> b.paid) && (a.requested ==> b.requested)
  }

  lemma StepIsKept(tx: Tx, event: Machine.Event, context: Machine.Context)
    requires Machine.Shipped(event)
    ensures TxKept(tx, TxStep(tx, event, context))
    ensures TxSound(tx) ==> TxSound(TxStep(tx, event, context))
  {
    MoveIsOnward(tx.status, event, context);
    hide Machine.Transition;
  }

  lemma MoveIsOnward(s: Machine.Status, event: Machine.Event, context: Machine.Context)
    requires Machine.Shipped(event)
    ensures Machine.Transition(s, event, context).Accept? ==>
      Machine.Onward(s, Machine.Transition(s, event, context).next)
  {
  }

  lemma SoundThroughMove(inv: Invoice, txs: map<TxId, Tx>, t: TxId, tx: Tx)
    requires InvoiceSound(inv, txs) && t in txs && TxKept(txs[t], tx)
    ensures InvoiceSound(inv, txs[t := tx])
  {
    hide Priced;
  }

  /** One transaction moved on. */
  lemma TxMoved(b: Books, t: TxId, tx: Tx)
    requires Coupled(b) && t in b.txs && TxKept(b.txs[t], tx) && TxSound(tx)
    ensures Coupled(b.(txs := b.txs[t := tx]))
  {
    hide InvoiceSound, TxSound, TxKept, AllNumbered, Unique, Counting;
    forall id | id in b.invoices ensures InvoiceSound(b.invoices[id], b.txs[t := tx]) {
      SoundThroughMove(b.invoices[id], b.txs, t, tx);
    }
  }

  // --- Rows ----------------------------------------------------------------------------------------

  /** A changed invoice that keeps its seller, number and transaction. */
  predicate SameIdentity(a: Invoice, b: Invoice) { b.seller == a.seller && b.number == a.number && b.tx == a.tx }

  ghost predicate SameIdentities(a: map<InvoiceId, Invoice>, b: map<InvoiceId, Invoice>) {
    b.Keys == a.Keys && forall id :: id in a ==> SameIdentity(a[id], b[id])
  }

  lemma SameNumbers(a: map<InvoiceId, Invoice>, b: map<InvoiceId, Invoice>, counters: map<UserId, nat>)
    requires SameIdentities(a, b)
    ensures AllNumbered(a, counters) ==> AllNumbered(b, counters)
    ensures Unique(a) ==> Unique(b)
    ensures Counting(a, counters) ==> Counting(b, counters)
  {
    hide Allocated;
    if AllNumbered(a, counters) {
      forall id | id in b ensures Numbered(b[id], counters) {
        assert Numbered(a[id], counters) && SameIdentity(a[id], b[id]);
      }
    }
    hide Numbered;
    forall s, number ensures NumberFree(b, s, number) <==> NumberFree(a, s, number) {
      assert forall id :: id in a ==> SameIdentity(a[id], b[id]);
    }
    hide NumberFree;
    assert forall id :: id in a ==> SameIdentity(a[id], b[id]);
  }

  lemma RowsMoved(b: Books, invoices: map<InvoiceId, Invoice>)
    requires Coupled(b) && SameIdentities(b.invoices, invoices) && AllSound(invoices, b.txs)
    ensures Coupled(b.(invoices := invoices))
  {
    hide AllSound, AllNumbered, Unique, Counting, TxsSound, SameIdentities;
    SameNumbers(b.invoices, invoices, b.counters);
  }

  /** One row changed in place. */
  lemma RowMoved(b: Books, id: InvoiceId, row: Invoice)
    requires Coupled(b) && id in b.invoices && SameIdentity(b.invoices[id], row) && InvoiceSound(row, b.txs)
    ensures Coupled(b.(invoices := b.invoices[id := row]))
  {
    hide InvoiceSound, AllNumbered, Unique, Counting, TxsSound;
    assert SameIdentities(b.invoices, b.invoices[id := row]);
    RowsMoved(b, b.invoices[id := row]);
  }

  // --- Creating and editing ------------------------------------------------------------------------

  lemma CreatedRow(b: Books, op: Op) returns (row: Invoice)
    requires op.CreateDraft? && NumberFree(b.invoices, op.seller, "")
    ensures Created(b, op) == b.(invoices := b.invoices[op.id := row])
    ensures InvoiceSound(row, b.txs) && Numbered(row, b.counters)
      && row.seller == op.seller && row.number == "" && row.tx.None?
    ensures row.totals == ComputeTotals(row.lines, row.rate)
  {
    hide ComputeTotals, NumberFree;
    row := Invoice(op.seller, "", Draft, op.lines, op.rate, ComputeTotals(op.lines, op.rate), op.due, None);
    assert Priced(row);
  }

  lemma AddedUnique(invoices: map<InvoiceId, Invoice>, id: InvoiceId, row: Invoice)
    requires Unique(invoices) && id !in invoices && row.tx.None? && NumberFree(invoices, row.seller, row.number)
    ensures Unique(invoices[id := row])
  {
  }

  lemma AddedCounting(invoices: map<InvoiceId, Invoice>, id: InvoiceId, row: Invoice, counters: map<UserId, nat>)
    requires Counting(invoices, counters) && id !in invoices
    ensures Counting(invoices[id := row], counters)
  {
    hide Allocated, NumberText;
    forall s, n | Allocated(counters, s, n) ensures !NumberFree(invoices[id := row], s, NumberText(n)) {
      var i :| i in invoices && invoices[i].seller == s && invoices[i].number == NumberText(n);
      assert invoices[id := row][i] == invoices[i];
    }
  }

  lemma CreateKeeps(b: Books, op: Op)
    requires Coupled(b) && op.CreateDraft? && Enabled(b, op)
    ensures Coupled(Created(b, op))
  {
    if NumberFree(b.invoices, op.seller, "") {
      var row := CreatedRow(b, op);
      hide Created, InvoiceSound, Numbered, Unique, Counting, TxsSound, NumberFree;
      AddedUnique(b.invoices, op.id, row);
      AddedCounting(b.invoices, op.id, row, b.counters);
    }
  }

  lemma EditKeeps(b: Books, op: Op)
    requires Coupled(b) && op.Edit?
    ensures Coupled(Edited(b, op))
  {
    hide AllNumbered, Unique, Counting, TxsSound;
    if op.id in b.invoices && b.invoices[op.id].seller == op.seller && b.invoices[op.id].status.Draft? {
      EditedSound(b.invoices[op.id], b.txs, op);
      RowMoved(b, op.id, EditedRow(b.invoices[op.id], op));
    }
  }

  lemma EditedSound(inv: Invoice, txs: map<TxId, Tx>, op: Op)
    requires op.Edit? && InvoiceSound(inv, txs) && inv.status.Draft?
    ensures SameIdentity(inv, EditedRow(inv, op)) && InvoiceSound(EditedRow(inv, op), txs)
  {
    hide ComputeTotals;
    var row := EditedRow(inv, op);
    if Reprices(op) {
      assert row.totals == ComputeTotals(row.lines, op.newRate.Over(inv.rate));
    } else {
      var rate :| inv.totals == ComputeTotals(inv.lines, rate);
      assert row.totals == ComputeTotals(row.lines, rate);
    }
  }

  // --- Sending -------------------------------------------------------------------------------------

  /** The next number of a seller is not in use. */
  lemma NextNumberFree(b: Books, seller: UserId)
    requires Coupled(b)
    ensures NumberFree(b.invoices, seller, NumberText(NextSeq(b.counters, seller)))
      && NumberText(NextSeq(b.counters, seller)) != ""
  {
    hide AllSound, TxsSound, Unique, Counting;
    forall id | id in b.invoices && b.invoices[id].seller == seller && b.invoices[id].number != ""
      ensures b.invoices[id].number != NumberText(NextSeq(b.counters, seller))
    {
      assert Numbered(b.invoices[id], b.counters);
      var n :| Allocated(b.counters, b.invoices[id].seller, n) && b.invoices[id].number == NumberText(n);
      if NumberText(n) == NumberText(NextSeq(b.counters, seller)) {
        NumberTextInjective(n, NextSeq(b.counters, seller));
      }
    }
  }

  lemma SentRow(b: Books, seller: UserId, id: InvoiceId, tx: TxId) returns (row: Invoice)
    requires Coupled(b) && tx !in b.txs && Sendable(b, seller, id)
    ensures var n := NextSeq(b.counters, seller); var minted := Tx(row.totals.total, Machine.LinkActive, false, false);
      && row == b.invoices[id].(status := Sent, number := NumberText(n), tx := Some(tx))
      && SentBooks(b, seller, id, tx) == Books(b.invoices[id := row], b.txs[tx := minted], b.counters[seller := n + 1])
      && InvoiceSound(row, b.txs[tx := minted]) && Numbered(row, b.counters[seller := n + 1])
  {
    hide AllNumbered, Unique, Counting, TxsSound, NumberText;
    NextNumberFree(b, seller);
    var n := NextSeq(b.counters, seller);
    row := b.invoices[id].(status := Sent, number := NumberText(n), tx := Some(tx));
    assert InvoiceSound(b.invoices[id], b.txs);
    assert Priced(row) by {
      var rate :| b.invoices[id].totals == ComputeTotals(b.invoices[id].lines, rate);
      assert row.totals == ComputeTotals(row.lines, rate);
    }
    CounterPositive(b, seller);
    assert Allocated(b.counters[seller := n + 1], seller, n);
  }

  lemma CounterPositive(b: Books, seller: UserId)
    requires Coupled(b)
    ensures NextSeq(b.counters, seller) >= 1
  {
    hide AllSound, AllNumbered, Unique, TxsSound, Allocated;
  }

  lemma SentSound(invoices: map<InvoiceId, Invoice>, txs: map<TxId, Tx>,
      id: InvoiceId, row: Invoice, tx: TxId, minted: Tx)
    requires AllSound(invoices, txs) && tx !in txs && id in invoices && InvoiceSound(row, txs[tx := minted])
    ensures AllSound(invoices[id := row], txs[tx := minted])
    ensures forall i :: i in invoices ==> invoices[i].tx != Some(tx)
  {
    hide Priced;
    forall i | i in invoices ensures InvoiceSound(invoices[i], txs[tx := minted]) && invoices[i].tx != Some(tx) {
      assert InvoiceSound(invoices[i], txs);
    }
  }

  lemma SentNumbered(invoices: map<InvoiceId, Invoice>, counters: map<UserId,
      nat>, id: InvoiceId, row: Invoice, seller: UserId)
    requires AllNumbered(invoices, counters) && id in invoices
    requires Numbered(row, counters[seller := NextSeq(counters, seller) + 1])
    ensures AllNumbered(invoices[id := row], counters[seller := NextSeq(counters, seller) + 1])
  {
    hide NumberText;
    var counters' := counters[seller := NextSeq(counters, seller) + 1];
    forall i | i in invoices && i != id ensures Numbered(invoices[i], counters') {
      assert Numbered(invoices[i], counters);
      if invoices[i].number != "" {
        var n :| Allocated(counters, invoices[i].seller, n) && invoices[i].number == NumberText(n);
        assert Allocated(counters', invoices[i].seller, n);
      }
    }
  }

  lemma SentUnique(invoices: map<InvoiceId, Invoice>, id: InvoiceId, row: Invoice)
    requires Unique(invoices) && id in invoices && row.tx.Some? && NumberFree(invoices, row.seller, row.number)
    requires forall i :: i in invoices ==> invoices[i].tx != row.tx
    ensures Unique(invoices[id := row])
  {
  }

  /** The replaced row carried no number, so every number handed out is still carried, and the new one too. */
  lemma SentCounting(invoices: map<InvoiceId, Invoice>, counters: map<UserId, nat>, id: InvoiceId, row: Invoice)
    requires Counting(invoices, counters) && id in invoices && invoices[id].number == ""
    requires row.number == NumberText(NextSeq(counters, row.seller))
    ensures Counting(invoices[id := row], counters[row.seller := NextSeq(counters, row.seller) + 1])
  {
    var counters' := counters[row.seller := NextSeq(counters, row.seller) + 1];
    forall s, n | Allocated(counters', s, n) ensures !NumberFree(invoices[id := row], s, NumberText(n)) {
      if s == row.seller && n == NextSeq(counters, s) {
        assert invoices[id := row][id] == row;
      } else {
        assert Allocated(counters, s, n);
        var i :| i in invoices && invoices[i].seller == s && invoices[i].number == NumberText(n);
        assert i != id && invoices[id := row][i] == invoices[i];
      }
    }
  }

  lemma SendKeeps(b: Books, seller: UserId, id: InvoiceId, tx: TxId)
    requires Coupled(b) && tx !in b.txs
    ensures Coupled(SentBooks(b, seller, id, tx))
  {
    if Sendable(b, seller, id) {
      var row := SentRow(b, seller, id, tx);
      NextNumberFree(b, seller);
      assert Numbered(b.invoices[id], b.counters);
      hide SentBooks, AllSound, AllNumbered, Unique, Counting, InvoiceSound, NumberFree, NumberText;
      SentSound(b.invoices, b.txs, id, row, tx, Tx(row.totals.total, Machine.LinkActive, false, false));
      SentNumbered(b.invoices, b.counters, id, row, seller);
      SentUnique(b.invoices, id, row);
      DraftUnnumbered(b, id);
      SentCounting(b.invoices, b.counters, id, row);
    }
  }

  lemma DraftUnnumbered(b: Books, id: InvoiceId)
    requires Coupled(b) && id in b.invoices && b.invoices[id].status.Draft?
    ensures b.invoices[id].number == "" && b.invoices[id].tx.None?
  {
    hide Unique, Counting, TxsSound, Priced;
    assert InvoiceSound(b.invoices[id], b.txs) && Numbered(b.invoices[id], b.counters);
  }

  // --- The other operations ---------------------------------------------------------------------------

  lemma VoidKeeps(b: Books, seller: UserId, id: InvoiceId)
    requires Coupled(b)
    ensures Coupled(Voided(b, seller, id))
  {
    hide AllNumbered, Unique, Counting;
    if CanVoid(b, seller, id) {
      var inv := b.invoices[id];
      assert InvoiceSound(inv, b.txs);
      if inv.tx.Some? {
        var t := inv.tx.value;
        var moved := TxStep(b.txs[t], Machine.Cancel, CALM);
        assert moved.status.Cancelled?;
        StepIsKept(b.txs[t], Machine.Cancel, CALM);
        TxMoved(b, t, moved);
        VoidRow(b.(txs := b.txs[t := moved]), id);
      } else {
        VoidRow(b, id);
      }
    }
  }

  lemma VoidRow(b: Books, id: InvoiceId)
    requires Coupled(b) && id in b.invoices && Voidable(b.invoices[id].status)
    requires var inv := b.invoices[id]; inv.tx.Some? ==> inv.tx.value in b.txs && b.txs[inv.tx.value].status.Cancelled?
    ensures Coupled(b.(invoices := b.invoices[id := b.invoices[id].(status := Void)]))
  {
    hide AllNumbered, Unique, Counting, TxsSound;
    assert InvoiceSound(b.invoices[id], b.txs);
    RepricedStatus(b.invoices[id], Void);
    RowMoved(b, id, b.invoices[id].(status := Void));
  }

  lemma RepricedStatus(inv: Invoice, status: InvoiceStatus)
    ensures Priced(inv.(status := status)) <==> Priced(inv)
  {
    hide ComputeTotals;
    if rate :| inv.totals == ComputeTotals(inv.lines, rate) {
      assert inv.(status := status).totals == ComputeTotals(inv.(status := status).lines, rate);
    }
    if rate :| inv.(status := status).totals == ComputeTotals(inv.(status := status).lines, rate) {
      assert inv.totals == ComputeTotals(inv.lines, rate);
    }
  }

  lemma ViewKeeps(b: Books, id: InvoiceId)
    requires Coupled(b)
    ensures Coupled(ViewedBooks(b, id))
  {
    hide AllNumbered, Unique, Counting, TxsSound;
    if id in b.invoices && b.invoices[id].status.Sent? {
      assert InvoiceSound(b.invoices[id], b.txs);
      RepricedStatus(b.invoices[id], Viewed);
      RowMoved(b, id, b.invoices[id].(status := Viewed));
    }
  }

  lemma ScanKeeps(b: Books, now: int)
    requires Coupled(b)
    ensures Coupled(b.(invoices := Scanned(b.invoices, now)))
  {
    hide AllNumbered, Unique, Counting, TxsSound, Priced;
    forall id | id in b.invoices
      ensures SameIdentity(b.invoices[id], Scanned(b.invoices, now)[id])
        && InvoiceSound(Scanned(b.invoices, now)[id], b.txs)
    {
      assert InvoiceSound(b.invoices[id], b.txs);
      RepricedStatus(b.invoices[id], Overdue);
    }
    RowsMoved(b, Scanned(b.invoices, now));
  }

  lemma MarkPaidKeeps(b: Books, tx: TxId)
    requires Coupled(b) && tx in b.txs && b.txs[tx].paid
    ensures Coupled(b.(invoices := MarkedPaid(b.invoices, tx)))
  {
    hide AllNumbered, Unique, Counting, TxsSound, Priced;
    forall id | id in b.invoices
      ensures SameIdentity(b.invoices[id], MarkedPaid(b.invoices, tx)[id])
        && InvoiceSound(MarkedPaid(b.invoices, tx)[id], b.txs)
    {
      assert InvoiceSound(b.invoices[id], b.txs);
      RepricedStatus(b.invoices[id], Paid);
    }
    RowsMoved(b, MarkedPaid(b.invoices, tx));
  }

  lemma ProtectKeeps(b: Books, tx: TxId, source: Machine.PaymentSource)
    requires Coupled(b) && tx in b.txs && b.txs[tx].requested && !source.Client?
    ensures Coupled(Protected(b, tx, source))
  {
    hide AllSound, AllNumbered, Unique, Counting, Machine.Transition, MarkedPaid;
    assert TxSound(b.txs[tx]);
    if b.txs[tx].paid {
      MarkPaidKeeps(b, tx);
    } else {
      var moved := TxStep(b.txs[tx].(paid := true), Machine.PaymentVerified(source), CALM);
      StepIsKept(b.txs[tx].(paid := true), Machine.PaymentVerified(source), CALM);
      TxMoved(b, tx, moved);
      MarkPaidKeeps(b.(txs := b.txs[tx := moved]), tx);
    }
  }

  lemma CheckoutKeeps(b: Books, tx: TxId)
    requires Coupled(b) && tx in b.txs
    ensures Coupled(CheckedOut(b, tx))
  {
    hide AllSound, AllNumbered, Unique, Counting;
    assert TxSound(b.txs[tx]);
    StepIsKept(b.txs[tx], Machine.BuyerInitiateCheckout, CALM);
    if Machine.Transition(b.txs[tx].status, Machine.BuyerInitiateCheckout, CALM).Accept? {
      TxMoved(b, tx, TxStep(b.txs[tx], Machine.BuyerInitiateCheckout, CALM).(requested := true));
    }
  }

  lemma TxEventKeeps(b: Books, tx: TxId, event: Machine.Event, context: Machine.Context)
    requires Coupled(b) && tx in b.txs && Machine.Shipped(event)
    ensures Coupled(b.(txs := b.txs[tx := TxStep(b.txs[tx], event, context)]))
  {
    hide AllSound, AllNumbered, Unique, Counting, TxStep, Machine.Shipped;
    StepIsKept(b.txs[tx], event, context);
    assert TxSound(b.txs[tx]);
    TxMoved(b, tx, TxStep(b.txs[tx], event, context));
  }

  lemma OpKeeps(b: Books, op: Op)
    requires Coupled(b) && Enabled(b, op)
    ensures Coupled(Do(b, op))
  {
    hide Coupled, Created, Edited, SentBooks, Voided, ViewedBooks, CheckedOut, Protected, Scanned;
    match op
    case CreateDraft(_, _, _, _, _) => CreateKeeps(b, op);
    case Edit(_, _, _, _, _) => EditKeeps(b, op);
    case Send(seller, id, tx) => SendKeeps(b, seller, id, tx);
    case VoidInvoice(seller, id) => VoidKeeps(b, seller, id);
    case View(id) => ViewKeeps(b, id);
    case ScanOverdue(now) => ScanKeeps(b, now);
    case Checkout(tx) => CheckoutKeeps(b, tx);
    case Protect(tx, source) => ProtectKeeps(b, tx, source);
    case TxEvent(tx, event, context) => TxEventKeeps(b, tx, event, context);
  }
}
