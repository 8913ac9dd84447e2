/** The life of one invoice row: which operation changes what, and when. */
module InvoiceLife {
  import opened Wrappers
  import opened InvoiceTotals
  import opened Invoices
  import opened InvoiceCoupling
  import opened InvoiceRuns
  import Machine

  // --- One operation --------------------------------------------------------------------------------

  predicate Sends(b: Books, op: Op, id: InvoiceId)
    requires id in b.invoices
  {
    var was := b.invoices[id];
    op.Send? && op.id == id && op.seller == was.seller && was.status == Draft && was.totals.total > 0
  }

  predicate Looks(b: Books, op: Op, id: InvoiceId)
    requires id in b.invoices
  {
    op.View? && op.id == id && b.invoices[id].status == Sent
  }

  predicate FallsDue(b: Books, op: Op, id: InvoiceId)
    requires id in b.invoices
  {
    var was := b.invoices[id];
    op.ScanOverdue? && (was.status == Sent || was.status == Viewed) && was.due.Some? && was.due.value < op.now
  }

  predicate Voids(b: Books, op: Op, id: InvoiceId)
    requires id in b.invoices
  {
    var was := b.invoices[id];
    && op.VoidInvoice? && op.id == id && op.seller == was.seller && was.status != Paid && was.status != Void
    && (was.tx.None? || (was.tx.value in b.txs
          && (b.txs[was.tx.value].status == Machine.Draft || b.txs[was.tx.value].status == Machine.LinkActive)))
  }

  predicate Pays(b: Books, op: Op, id: InvoiceId)
    requires id in b.invoices
  {
    var was := b.invoices[id];
    && op.Protect? && was.tx == Some(op.tx) && (was.status == Sent || was.status == Viewed || was.status == Overdue)
    && op.tx in b.txs && (b.txs[op.tx].paid || b.txs[op.tx].status == Machine.PaymentPending)
  }

  /** The status of an invoice after any operation. */
  lemma StatusAfter(b: Books, op: Op, id: InvoiceId)
    requires Coupled(b) && Enabled(b, op) && id in b.invoices
    ensures id in Do(b, op).invoices && Do(b, op).invoices[id].status ==
      if Sends(b, op, id) then Sent
      else if Looks(b, op, id) then Viewed
      else if FallsDue(b, op, id) then Overdue
      else if Voids(b, op, id) then Void
      else if Pays(b, op, id) then Paid
      else b.invoices[id].status
  {
    hide Coupled, ComputeTotals, NumberText, NumberFree, Machine.Transition, Machine.Onward;
    if op.VoidInvoice? && op.id == id && b.invoices[id].tx.Some? && b.invoices[id].tx.value in b.txs {
      CancelsIff(b.txs[b.invoices[id].tx.value].status);
    }
    if op.Protect? {
      VerifiesIff(b.txs[op.tx].status, op.source);
    }
    if op.Send? && Sendable(b, op.seller, op.id) {
      NextNumberFree(b, op.seller);
    }
  }

  lemma CancelsIff(s: Machine.Status)
    ensures Machine.Transition(s, Machine.Cancel, CALM).Accept? <==> s == Machine.Draft || s == Machine.LinkActive
  {
  }

  lemma VerifiesIff(s: Machine.Status, source: Machine.PaymentSource)
    requires !source.Client?
    ensures Machine.Transition(s, Machine.PaymentVerified(source), CALM).Accept? <==> s == Machine.PaymentPending
  {
  }

  /** A sent invoice has the seller's next number and a published, unpaid transaction for its total. */
  lemma SentRow(b: Books, op: Op, id: InvoiceId)
    requires Coupled(b) && Enabled(b, op) && id in b.invoices && Sends(b, op, id)
    ensures var now := Do(b, op);
      && id in now.invoices && now.invoices[id].tx == Some(op.tx) && op.tx in now.txs
      && now.txs[op.tx] == Tx(b.invoices[id].totals.total, Machine.LinkActive, false, false)
      && now.invoices[id].number == NumberText(if op.seller in b.counters then b.counters[op.seller] else 1)
      && (op.seller !in b.counters ==> now.invoices[id].number == "INV-0001")
  {
    hide Coupled, ComputeTotals, NumberText, NumberFree;
    NextNumberFree(b, op.seller);
    FirstNumber();
  }

  lemma FirstNumber()
    ensures NumberText(1) == "INV-0001"
  {
    assert "0" + "1" == "01" && "0" + "01" == "001" && "0" + "001" == "0001";
    assert Padded("001") == "0001" && Padded("01") == "0001" && Padded("1") == "0001";
  }

  /** Field by field what an applied edit stores; the rest of the row stays. */
  lemma EditedFields(b: Books, op: Op)
    requires op.Edit? && op.id in b.invoices
    requires b.invoices[op.id].seller == op.seller && b.invoices[op.id].status == Draft
    ensures var was, e := b.invoices[op.id], Edited(b, op).invoices;
      && op.id in e && var now := e[op.id];
      && now.number == was.number && now.status == Draft && now.tx == was.tx && now.seller == was.seller
      && now.lines == (if op.newLines.Given? then op.newLines.value else was.lines)
      && now.rate == (if op.newRate.Given? then Some(op.newRate.value) else if op.newRate.Null? then None else was.rate)
      && now.due == (if op.newDue.Given? then Some(op.newDue.value) else if op.newDue.Null? then Some(0) else was.due)
  {
  }

  // --- Runs -----------------------------------------------------------------------------------------

  /** Collected means protected or later; asked for and not collected means waiting for the payment. */
  predicate TxTells(tx: Tx) {
    if tx.paid then Machine.Onward(Machine.PaymentProtected, tx.status)
    else if tx.requested then tx.status == Machine.PaymentPending
    else tx.status == Machine.Draft || tx.status == Machine.LinkActive || tx.status == Machine.Cancelled
  }

  predicate PaidTogether(inv: Invoice, txs: map<TxId, Tx>) {
    inv.tx.Some? && inv.tx.value in txs ==> (inv.status.Paid? <==> txs[inv.tx.value].paid)
  }

  ghost predicate InStep(b: Books) {
    && (forall t :: t in b.txs ==> TxTells(b.txs[t]))
    && forall id :: id in b.invoices ==> PaidTogether(b.invoices[id], b.txs)
  }

  lemma EventTells(tx: Tx, event: Machine.Event, context: Machine.Context)
    requires TxTells(tx) && Machine.Shipped(event) && !event.PaymentVerified? && !event.BuyerInitiateCheckout?
    ensures TxTells(TxStep(tx, event, context)) && TxStep(tx, event, context).paid == tx.paid
  {
  }

  lemma CheckoutTells(tx: Tx)
    requires TxTells(tx) && Machine.Transition(tx.status, Machine.BuyerInitiateCheckout, CALM).Accept?
    ensures !tx.paid && TxTells(TxStep(tx, Machine.BuyerInitiateCheckout, CALM).(requested := true))
  {
  }

  lemma ProtectTells(tx: Tx, source: Machine.PaymentSource)
    requires TxTells(tx) && tx.requested && !tx.paid && !source.Client?
    ensures TxTells(TxStep(tx.(paid := true), Machine.PaymentVerified(source), CALM))
    ensures Machine.Transition(tx.status, Machine.PaymentVerified(source), CALM).Accept?
  {
  }

  lemma TxsInStep(b: Books, op: Op)
    requires Enabled(b, op) && InStep(b)
    ensures forall t :: t in Do(b, op).txs ==> TxTells(Do(b, op).txs[t])
  {
    match op {
      case TxEvent(tx, event, context) => EventTells(b.txs[tx], event, context);
      case Checkout(tx) =>
        if Machine.Transition(b.txs[tx].status, Machine.BuyerInitiateCheckout, CALM).Accept? {
          CheckoutTells(b.txs[tx]);
        }
      case Protect(tx, source) => if !b.txs[tx].paid { ProtectTells(b.txs[tx], source); }
      case VoidInvoice(seller, id) =>
        if CanVoid(b, seller, id) && b.invoices[id].tx.Some? {
          EventTells(b.txs[b.invoices[id].tx.value], Machine.Cancel, CALM);
        }
      case _ =>
    }
    hide Machine.Transition, Machine.Onward, TxStep, TxTells, NumberFree, ComputeTotals, NumberText, PaidTogether;
  }

  /** Who else is paid: the transaction of an operation that collects, no other. */
  lemma PaidAfter(b: Books, op: Op, t: TxId)
    requires Enabled(b, op) && InStep(b) && t in b.txs
    ensures t in Do(b, op).txs && (Do(b, op).txs[t].paid <==> b.txs[t].paid || (op.Protect? && op.tx == t))
  {
    hide Machine.Transition, NumberFree, ComputeTotals, NumberText, InStep;
  }

  lemma LinkAfter(b: Books, op: Op, id: InvoiceId)
    requires Coupled(b) && Enabled(b, op) && id in Do(b, op).invoices
    ensures id !in b.invoices ==> Do(b, op).invoices[id].tx.None?
    ensures id in b.invoices && !Sends(b, op, id) ==> Do(b, op).invoices[id].tx == b.invoices[id].tx
  {
    hide Machine.Transition, NumberFree, ComputeTotals, NumberText, Coupled;
    if op.Send? && Sendable(b, op.seller, op.id) {
      NextNumberFree(b, op.seller);
    }
  }

  lemma CollectsPays(b: Books, op: Op, id: InvoiceId)
    requires Coupled(b) && Enabled(b, op) && InStep(b) && id in b.invoices
    requires op.Protect? && b.invoices[id].tx == Some(op.tx)
    ensures b.invoices[id].status == Paid || Pays(b, op, id)
  {
    hide Machine.Transition, ComputeTotals, Priced, AllNumbered, Unique, TxsSound, Counting;
    assert InvoiceSound(b.invoices[id], b.txs) && TxTells(b.txs[op.tx]);
  }

  lemma RowInStep(b: Books, op: Op, id: InvoiceId)
    requires Coupled(b) && Enabled(b, op) && InStep(b) && id in Do(b, op).invoices
    ensures PaidTogether(Do(b, op).invoices[id], Do(b, op).txs)
  {
    hide Coupled, Do, Enabled;
    LinkAfter(b, op, id);
    if id in b.invoices && !Sends(b, op, id) && b.invoices[id].tx.Some? {
      var t := b.invoices[id].tx.value;
      LinkedExists(b, id);
      StatusAfter(b, op, id);
      PaidAfter(b, op, t);
      assert PaidTogether(b.invoices[id], b.txs);
      if op.Protect? && op.tx == t {
        CollectsPays(b, op, id);
      }
    } else if id in b.invoices && Sends(b, op, id) {
      StatusAfter(b, op, id);
      SentRow(b, op, id);
    }
  }

  lemma LinkedExists(b: Books, id: InvoiceId)
    requires Coupled(b) && id in b.invoices && b.invoices[id].tx.Some?
    ensures b.invoices[id].tx.value in b.txs
  {
    hide ComputeTotals, Priced, AllNumbered, Unique, TxsSound, Counting;
    assert InvoiceSound(b.invoices[id], b.txs);
  }

  lemma {:induction false} RunInStep(ops: seq<Op>)
    requires AfterOps(ops).Some?
    ensures InStep(AfterOps(ops).value)
  {
    hide Coupled, Do, Enabled, TxTells, PaidTogether;
    if ops != [] {
      var b, op := AfterOps(ops[..|ops| - 1]).value, ops[|ops| - 1];
      RunInStep(ops[..|ops| - 1]);
      RunCoupled(ops[..|ops| - 1]);
      TxsInStep(b, op);
      forall id | id in Do(b, op).invoices ensures PaidTogether(Do(b, op).invoices[id], Do(b, op).txs) {
        RowInStep(b, op, id);
      }
    }
  }

  /**
   In every run a sent invoice is PAID exactly when its transaction's payment was collected, which is exactly
   when the transaction has reached PAYMENT_PROTECTED.
   */
  lemma PaidIffProtected(ops: seq<Op>, id: InvoiceId)
    requires AfterOps(ops).Some? && id in AfterOps(ops).value.invoices && AfterOps(ops).value.invoices[id].tx.Some?
    ensures var b := AfterOps(ops).value; var inv := b.invoices[id];
      && inv.tx.value in b.txs
      && (inv.status.Paid? <==> b.txs[inv.tx.value].paid)
      && (inv.status.Paid? <==> Machine.Onward(Machine.PaymentProtected, b.txs[inv.tx.value].status))
  {
    hide AfterOps, Coupled;
    RunCoupled(ops);
    RunInStep(ops);
    var b := AfterOps(ops).value;
    LinkedExists(b, id);
    assert PaidTogether(b.invoices[id], b.txs) && TxTells(b.txs[b.invoices[id].tx.value]);
  }

  /** In every run a seller's invoices carry the numbers from 1 up to the last one handed out, without a gap. */
  lemma NumbersAreGapless(ops: seq<Op>, seller: UserId, n: nat)
    requires AfterOps(ops).Some?
    ensures var b := AfterOps(ops).value;
      1 <= n < (if seller in b.counters then b.counters[seller] else 1) <==>
        exists id :: id in b.invoices && b.invoices[id].seller == seller && b.invoices[id].number == NumberText(n)
  {
    hide AfterOps, AllSound, Unique, TxsSound, NumberText;
    RunCoupled(ops);
    var b := AfterOps(ops).value;
    if Allocated(b.counters, seller, n) {
      assert !NumberFree(b.invoices, seller, NumberText(n));
    }
    if id :| id in b.invoices && b.invoices[id].seller == seller && b.invoices[id].number == NumberText(n) {
      NumberTextReads(n);
      assert Numbered(b.invoices[id], b.counters);
      var m :| Allocated(b.counters, seller, m) && b.invoices[id].number == NumberText(m);
      NumberTextInjective(m, n);
    }
  }

  // --- Amounts ----------------------------------------------------------------------------------------

  /** Sent, without a rate, and not mispriced as a draft. */
  predicate SentUntaxed(ops: seq<Op>, id: InvoiceId) {
    && AfterOps(ops).Some? && id in AfterOps(ops).value.invoices && AfterOps(ops).value.invoices[id].tx.Some?
    && AfterOps(ops).value.invoices[id].rate.None? && !Mispriced(ops, id)
  }

  function LinesOf(ops: seq<Op>, id: InvoiceId): seq<Line>
    requires SentUntaxed(ops, id)
  {
    AfterOps(ops).value.invoices[id].lines
  }

  ghost function AmountOf(ops: seq<Op>, id: InvoiceId): int
    requires SentUntaxed(ops, id)
  {
    var b := AfterOps(ops).value;
    if b.invoices[id].tx.value in b.txs then b.txs[b.invoices[id].tx.value].amount else 0
  }

  lemma AmountIsSubtotal(ops: seq<Op>, id: InvoiceId)
    requires SentUntaxed(ops, id)
    ensures AfterOps(ops).value.invoices[id].tx.value in AfterOps(ops).value.txs
    ensures AmountOf(ops, id) == Subtotal(LinesOf(ops, id))
  {
    hide AfterOps, Subtotal, Mispriced;
    assert ops[..|ops|] == ops;
    SentTotalsAgree(ops, |ops|, id);
  }

  /** One line of `q` pieces at `p`: the escrow holds `q` times `p`. */
  lemma AmountOfOneLine(ops: seq<Op>, id: InvoiceId, q: int, p: int)
    requires SentUntaxed(ops, id) && LinesOf(ops, id) == [Line(q, p)]
    ensures AmountOf(ops, id) == q * p
  {
    AmountIsSubtotal(ops, id);
    SubtotalOfOne(Line(q, p));
  }

  /** One piece more of any line: the escrow of the sent invoice holds its price more. */
  lemma AmountGrowsByPiece(
    ops: seq<Op>, id: InvoiceId, ops': seq<Op>, id': InvoiceId, front: seq<Line>, q: int, p: int, back: seq<Line>)
    requires SentUntaxed(ops, id) && LinesOf(ops, id) == front + [Line(q, p)] + back
    requires SentUntaxed(ops', id') && LinesOf(ops', id') == front + [Line(q + 1, p)] + back
    ensures AmountOf(ops', id') == AmountOf(ops, id) + p
  {
    hide SentUntaxed, AmountOf, LinesOf, Subtotal;
    AmountIsSubtotal(ops, id);
    AmountIsSubtotal(ops', id');
    Between(front, [Line(q, p)], back);
    Between(front, [Line(q + 1, p)], back);
    SplitPieces(q, 1, p);
    SubtotalOfTwo(Line(q, p), Line(1, p));
    SubtotalOfOne(Line(q, p));
  }
}
