/** Invoices over whole runs: what stays, what it means, and the one edit that makes totals and rate disagree. */
module InvoiceRuns {
  import opened Wrappers
  import opened InvoiceTotals
  import opened Invoices
  import opened InvoiceCoupling
  import Machine

  // --- Runs ---------------------------------------------------------------------------------------

  /** A sent invoice keeps its lines, totals, number and transaction; a paid or void one keeps everything. */
  predicate InvoiceKept(a: Invoice, c: Invoice) {
    && c.seller == a.seller
    && (a.tx.Some? ==> SameIdentity(a, c) && c.lines == a.lines && c.rate == a.rate && c.totals == a.totals)
    && (a.status.Paid? || a.status.Void? ==> c == a)
  }

  ghost predicate OnlyForward(b: Books, b': Books) {
    && (forall id :: id in b.invoices ==> id in b'.invoices && InvoiceKept(b.invoices[id], b'.invoices[id]))
    && (forall t :: t in b.txs ==> t in b'.txs && TxKept(b.txs[t], b'.txs[t]))
  }

  lemma ForwardTransitive(a: Books, b: Books, c: Books)
    requires OnlyForward(a, b) && OnlyForward(b, c)
    ensures OnlyForward(a, c)
  {
    forall id | id in a.invoices ensures id in c.invoices && InvoiceKept(a.invoices[id], c.invoices[id]) {
      assert InvoiceKept(a.invoices[id], b.invoices[id]) && InvoiceKept(b.invoices[id], c.invoices[id]);
    }
    forall t | t in a.txs ensures t in c.txs && TxKept(a.txs[t], c.txs[t]) {
      assert TxKept(a.txs[t], b.txs[t]) && TxKept(b.txs[t], c.txs[t]);
    }
  }

  lemma ForwardReflexive(b: Books)
    ensures OnlyForward(b, b)
  {
  }

  /** Operations on invoices alone. */
  lemma DraftOpForward(b: Books, op: Op)
    requires Coupled(b) && Enabled(b, op) && (op.CreateDraft? || op.Edit?)
    ensures OnlyForward(b, Do(b, op))
  {
    hide Priced, ComputeTotals, NumberText, Machine.Transition, Machine.Onward, Numbered, TxSound;
    var b' := Do(b, op);
    assert b'.txs == b.txs;
    forall id | id in b.invoices ensures id in b'.invoices && InvoiceKept(b.invoices[id], b'.invoices[id]) {
      assert InvoiceSound(b.invoices[id], b.txs);
    }
    TxsSame(b);
  }

  lemma TxsSame(b: Books)
    ensures forall t :: t in b.txs ==> TxKept(b.txs[t], b.txs[t])
  {
  }

  lemma SendForward(b: Books, seller: UserId, id: InvoiceId, tx: TxId)
    requires Coupled(b) && tx !in b.txs
    ensures OnlyForward(b, SentBooks(b, seller, id, tx))
  {
    hide Priced, ComputeTotals, NumberText, Machine.Onward, Numbered, TxSound;
    var b' := SentBooks(b, seller, id, tx);
    forall i | i in b.invoices ensures i in b'.invoices && InvoiceKept(b.invoices[i], b'.invoices[i]) {
      assert InvoiceSound(b.invoices[i], b.txs);
    }
    TxsSame(b);
  }

  lemma DisplayForward(b: Books, op: Op)
    requires Enabled(b, op) && (op.View? || op.ScanOverdue?)
    ensures OnlyForward(b, Do(b, op))
  {
    hide Machine.Onward;
    var b' := Do(b, op);
    forall id | id in b.invoices ensures id in b'.invoices && InvoiceKept(b.invoices[id], b'.invoices[id]) {
    }
    TxsSame(b);
  }

  /** One transaction moved on, and invoices marked paid at most. */
  lemma TxForward(b: Books, b': Books, t: TxId)
    requires t in b.txs && t in b'.txs && TxKept(b.txs[t], b'.txs[t]) && b'.txs == b.txs[t := b'.txs[t]]
    requires b'.invoices == b.invoices || b'.invoices == MarkedPaid(b.invoices, t)
    ensures OnlyForward(b, b')
  {
    TxsSame(b);
    hide Machine.Onward, TxKept;
    forall id | id in b.invoices ensures id in b'.invoices && InvoiceKept(b.invoices[id], b'.invoices[id]) {
    }
  }

  lemma TxOpForward(b: Books, op: Op)
    requires Coupled(b) && Enabled(b, op)
    requires op.Checkout? || op.Protect? || op.TxEvent?
    ensures OnlyForward(b, Do(b, op))
  {
    hide Coupled, OnlyForward, MarkedPaid;
    var row := b.txs[op.tx];
    match op {
      case Checkout(_) => StepIsKept(row, Machine.BuyerInitiateCheckout, CALM);
      case Protect(_, source) => StepIsKept(row.(paid := true), Machine.PaymentVerified(source), CALM);
      case TxEvent(_, event, context) => StepIsKept(row, event, context);
    }
    hide Machine.Transition, Machine.Shipped, TxStep;
    TxsSame(b);
    assert b.txs[op.tx := b.txs[op.tx]] == b.txs;
    TxForward(b, Do(b, op), op.tx);
  }

  lemma VoidForward(b: Books, seller: UserId, id: InvoiceId)
    requires Coupled(b)
    ensures OnlyForward(b, Voided(b, seller, id))
  {
    var b' := Voided(b, seller, id);
    if CanVoid(b, seller, id) && b.invoices[id].tx.Some? {
      StepIsKept(b.txs[b.invoices[id].tx.value], Machine.Cancel, CALM);
    }
    hide Priced, ComputeTotals, NumberText, Machine.Transition, Numbered, InvoiceSound, TxStep;
    forall i | i in b.invoices ensures i in b'.invoices && InvoiceKept(b.invoices[i], b'.invoices[i]) {
    }
    forall t | t in b.txs ensures t in b'.txs && TxKept(b.txs[t], b'.txs[t]) {
    }
  }

  lemma OpForward(b: Books, op: Op)
    requires Coupled(b) && Enabled(b, op)
    ensures OnlyForward(b, Do(b, op))
  {
    hide Coupled, OnlyForward, Created, Edited, SentBooks, Voided, ViewedBooks, CheckedOut, Protected, Scanned;
    match op
    case VoidInvoice(seller, id) => VoidForward(b, seller, id);
    case Checkout(_) => TxOpForward(b, op);
    case Protect(_, _) => TxOpForward(b, op);
    case TxEvent(_, _, _) => TxOpForward(b, op);
    case CreateDraft(_, _, _, _, _) => DraftOpForward(b, op);
    case Edit(_, _, _, _, _) => DraftOpForward(b, op);
    case Send(seller, id, tx) => SendForward(b, seller, id, tx);
    case View(_) => DisplayForward(b, op);
    case ScanOverdue(_) => DisplayForward(b, op);
  }

  function AfterOps(ops: seq<Op>): Option<Books> {
    if ops == [] then Some(Books(map[], map[], map[]))
    else
      var before := AfterOps(ops[..|ops| - 1]);
      var op := ops[|ops| - 1];
      if before.Some? && Enabled(before.value, op) then Some(Do(before.value, op)) else None
  }

  /** In every run invoices and transactions stay coupled. */
  lemma {:induction false} RunCoupled(ops: seq<Op>)
    requires AfterOps(ops).Some?
    ensures Coupled(AfterOps(ops).value)
  {
    hide Coupled, Do, Enabled;
    if ops == [] {
      EmptyCoupled();
    } else {
      RunCoupled(ops[..|ops| - 1]);
      OpKeeps(AfterOps(ops[..|ops| - 1]).value, ops[|ops| - 1]);
    }
  }

  lemma EmptyCoupled()
    ensures Coupled(Books(map[], map[], map[]))
  {
  }

  lemma {:induction false} RunForward(ops: seq<Op>, i: nat)
    requires i <= |ops| && AfterOps(ops).Some?
    ensures AfterOps(ops[..i]).Some? && OnlyForward(AfterOps(ops[..i]).value, AfterOps(ops).value)
    decreases |ops|
  {
    hide Coupled, OnlyForward, Do, Enabled;
    if i == |ops| {
      assert ops[..i] == ops;
      ForwardReflexive(AfterOps(ops).value);
    } else {
      var shorter := ops[..|ops| - 1];
      assert shorter[..i] == ops[..i];
      RunForward(shorter, i);
      RunCoupled(shorter);
      OpForward(AfterOps(shorter).value, ops[|ops| - 1]);
      ForwardTransitive(AfterOps(ops[..i]).value, AfterOps(shorter).value, AfterOps(ops).value);
    }
  }

  // --- Totals and rate ---------------------------------------------------------------------------------

  /** An applied edit that sends an explicit null for a rate that taxes the resulting lines. */
  predicate Misprices(b: Books, op: Op) {
    && op.Edit? && op.id in b.invoices && b.invoices[op.id].seller == op.seller && b.invoices[op.id].status.Draft?
    && op.newRate.Null? && !Taxless(op.newLines.Over(Some(b.invoices[op.id].lines)).value, b.invoices[op.id].rate)
  }

  /**
   One edit, of any draft: a repricing edit leaves agreement exactly when it is not such an edit; any
   other changes nothing.
   */
  lemma EditAgreesIff(inv: Invoice, op: Op)
    requires op.Edit?
    ensures Agrees(EditedRow(inv, op)) <==>
      if !Reprices(op) then Agrees(inv)
      else op.newRate.Null? ==> Taxless(op.newLines.Over(Some(inv.lines)).value, inv.rate)
  {
    hide Subtotal;
  }

  predicate AllAgree(b: Books) {
    forall id :: id in b.invoices ==> Agrees(b.invoices[id])
  }

  lemma AgreementElsewhere(b: Books, op: Op, id: InvoiceId)
    requires Coupled(b) && Enabled(b, op) && id in Do(b, op).invoices && !(op.Edit? && op.id == id)
    ensures if id in b.invoices then Agrees(Do(b, op).invoices[id]) == Agrees(b.invoices[id])
      else Agrees(Do(b, op).invoices[id])
  {
    hide Coupled, ComputeTotals, NumberText, Machine.Transition, NumberFree;
  }

  lemma EditAgreement(b: Books, op: Op)
    requires op.Edit? && op.id in b.invoices
    ensures op.id in Edited(b, op).invoices
    ensures Agrees(Edited(b, op).invoices[op.id]) <==>
      if b.invoices[op.id].seller == op.seller && b.invoices[op.id].status.Draft? && Reprices(op)
      then !Misprices(b, op) else Agrees(b.invoices[op.id])
  {
    hide Agrees, EditedRow;
    EditAgreesIff(b.invoices[op.id], op);
  }

  /** From books in which all totals agree, an operation leads to disagreement exactly when it is such an edit. */
  lemma OpKeepsAgreementIff(b: Books, op: Op)
    requires Coupled(b) && Enabled(b, op) && AllAgree(b)
    ensures AllAgree(Do(b, op)) <==> !Misprices(b, op)
  {
    hide Coupled, Agrees, EditedRow, Created, SentBooks, Voided,
      ViewedBooks, CheckedOut, Protected, Scanned, Misprices, Edited;
    if op.Edit? && op.id in b.invoices {
      EditAgreement(b, op);
      assert Do(b, op) == Edited(b, op);
    }
    MispricesNeedsRow(b, op);
    forall id | id in Do(b, op).invoices && !(op.Edit? && op.id == id) ensures Agrees(Do(b, op).invoices[id]) {
      AgreementElsewhere(b, op, id);
    }
    EditedKeys(b, op);
  }

  lemma MispricesNeedsRow(b: Books, op: Op)
    ensures Misprices(b, op) ==> op.Edit? && op.id in b.invoices && Reprices(op) && b.invoices[op.id].status.Draft?
    ensures Misprices(b, op) ==> b.invoices[op.id].seller == op.seller
  {
  }

  lemma EditedKeys(b: Books, op: Op)
    ensures op.Edit? ==> Edited(b, op).invoices.Keys == b.invoices.Keys
  {
  }

  /** The last repricing edit of the invoice, if any, was one that made its totals and rate disagree. */
  predicate Mispriced(ops: seq<Op>, id: InvoiceId)
    requires AfterOps(ops).Some?
  {
    if ops == [] then false
    else
      var b, op := AfterOps(ops[..|ops| - 1]).value, ops[|ops| - 1];
      if op.Edit? && op.id == id && id in b.invoices
        && b.invoices[id].seller == op.seller && b.invoices[id].status.Draft? && Reprices(op)
      then Misprices(b, op)
      else Mispriced(ops[..|ops| - 1], id)
  }

  lemma {:induction false} MispricedNeedsRow(ops: seq<Op>, id: InvoiceId)
    requires AfterOps(ops).Some? && id !in AfterOps(ops).value.invoices
    ensures !Mispriced(ops, id)
  {
    hide Coupled, Do, Enabled, Misprices, OnlyForward;
    if ops != [] {
      RunForward(ops, |ops| - 1);
      StaysIn(AfterOps(ops[..|ops| - 1]).value, AfterOps(ops).value, id);
      MispricedNeedsRow(ops[..|ops| - 1], id);
    }
  }

  lemma StaysIn(b: Books, b': Books, id: InvoiceId)
    requires OnlyForward(b, b') && id !in b'.invoices
    ensures id !in b.invoices
  {
  }

  /** In every run: the totals of an invoice are those of its lines and rate exactly when it is not mispriced. */
  lemma {:induction false} AgreesIff(ops: seq<Op>, id: InvoiceId)
    requires AfterOps(ops).Some? && id in AfterOps(ops).value.invoices
    ensures Agrees(AfterOps(ops).value.invoices[id]) <==> !Mispriced(ops, id)
  {
    hide Coupled, Do, Enabled, Misprices, Agrees;
    if ops != [] {
      var shorter, op := ops[..|ops| - 1], ops[|ops| - 1];
      var b := AfterOps(shorter).value;
      RunCoupled(shorter);
      if id in b.invoices {
        AgreesIff(shorter, id);
      } else {
        MispricedNeedsRow(shorter, id);
      }
      AgreementStep(b, op, id);
    }
  }

  lemma AgreementStep(b: Books, op: Op, id: InvoiceId)
    requires Coupled(b) && Enabled(b, op) && id in Do(b, op).invoices
    ensures if id !in b.invoices then Agrees(Do(b, op).invoices[id])
      else if op.Edit? && op.id == id && b.invoices[id].seller == op.seller
        && b.invoices[id].status.Draft? && Reprices(op)
      then Agrees(Do(b, op).invoices[id]) <==> !Misprices(b, op)
      else Agrees(Do(b, op).invoices[id]) == Agrees(b.invoices[id])
    ensures id !in b.invoices ==> !(op.Edit? && op.id == id)
  {
    hide Coupled, Misprices, Agrees, Created, Edited, SentBooks, Voided, ViewedBooks, CheckedOut, Protected, Scanned;
    if op.Edit? {
      EditedKeys(b, op);
    }
    if op.Edit? && op.id == id {
      EditAgreement(b, op);
    } else {
      AgreementElsewhere(b, op, id);
    }
  }

  /**
   From `send` on, lines, rate, total and the amount of the one linked transaction are frozen together,
   and totals and rate agree for ever exactly when the draft was not mispriced.
   */
  lemma SentTotalsAgree(ops: seq<Op>, i: nat, id: InvoiceId)
    requires i <= |ops| && AfterOps(ops).Some? && AfterOps(ops[..i]).Some?
    requires id in AfterOps(ops[..i]).value.invoices && AfterOps(ops[..i]).value.invoices[id].tx.Some?
    ensures var sent := AfterOps(ops[..i]).value.invoices[id];
      && id in AfterOps(ops).value.invoices
      && var now := AfterOps(ops).value.invoices[id];
      && now.tx == sent.tx && now.number == sent.number && now.totals == sent.totals
           && now.lines == sent.lines && now.rate == sent.rate
      && now.tx.value in AfterOps(ops).value.txs && AfterOps(ops).value.txs[now.tx.value].amount == now.totals.total
      && (Agrees(now) <==> !Mispriced(ops[..i], id))
  {
    hide AfterOps, OnlyForward, Coupled, Agrees, Mispriced;
    RunForward(ops, i);
    RunCoupled(ops);
    AgreesIff(ops[..i], id);
    SentStays(AfterOps(ops[..i]).value, AfterOps(ops).value, id);
  }

  lemma SentStays(b: Books, b': Books, id: InvoiceId)
    requires OnlyForward(b, b') && Coupled(b') && id in b.invoices && b.invoices[id].tx.Some?
    ensures id in b'.invoices && InvoiceKept(b.invoices[id], b'.invoices[id])
    ensures Agrees(b'.invoices[id]) == Agrees(b.invoices[id])
    ensures b'.invoices[id].tx.value in b'.txs && b'.txs[b'.invoices[id].tx.value].amount ==
      b'.invoices[id].totals.total
  {
    hide Priced, ComputeTotals, Unique, Counting, TxsSound, AllNumbered, Machine.Onward;
    assert InvoiceKept(b.invoices[id], b'.invoices[id]);
    assert InvoiceSound(b'.invoices[id], b'.txs);
  }

  /** Whatever is edited, subtotal and total follow from the lines and the tax. */
  lemma SubtotalAlwaysAgrees(ops: seq<Op>, id: InvoiceId)
    requires AfterOps(ops).Some? && id in AfterOps(ops).value.invoices
    ensures var inv := AfterOps(ops).value.invoices[id];
      inv.totals.subtotal == Subtotal(inv.lines) && inv.totals.total == inv.totals.subtotal + inv.totals.tax
  {
    hide AfterOps, Unique, Counting, TxsSound, AllNumbered, Subtotal;
    RunCoupled(ops);
    var b := AfterOps(ops).value;
    assert InvoiceSound(b.invoices[id], b.txs);
  }

  /** One line of 100 naira at 7.5 percent; the rate nulled; sent. */
  function NulledRate(seller: UserId): seq<Op> {
    [ CreateDraft(0, seller, [Line(1, 10_000)], Some(750), None),
      Edit(seller, 0, Absent, Null, Absent),
      Send(seller, 0, 0) ]
  }

  /** The null rate does reach a sent invoice: no rate, and tax for 750 basis points. */
  lemma NullRateIsSent(seller: UserId)
    ensures AfterOps(NulledRate(seller)).Some? && 0 in AfterOps(NulledRate(seller)).value.invoices
    ensures var inv := AfterOps(NulledRate(seller)).value.invoices[0];
      inv.status.Sent? && inv.rate == None && inv.totals == Totals(10_000, 750, 10_750) && !Agrees(inv)
  {
    var lines := [Line(1, 10_000)];
    assert lines[..0] == [] && Subtotal(lines) == 10_000;
    var totals := Totals(10_000, 750, 10_750);
    assert ComputeTotals(lines, Some(750)) == totals;
    hide Subtotal, ComputeTotals, NumberText;
    var ops := NulledRate(seller);
    assert ops[..2] == [ops[0], ops[1]] && [ops[0], ops[1]][..1] == [ops[0]] && [ops[0]][..0] == [];
    var draft := Invoice(seller, "", Draft, lines, Some(750), totals, None, None);
    assert AfterOps([]) == Some(Books(map[], map[], map[]));
    assert AfterOps([ops[0]]) == Some(Books(map[0 := draft], map[], map[]));
    var nulled := draft.(rate := None);
    assert EditedRow(draft, ops[1]) == nulled;
    assert map[0 := draft][0 := nulled] == map[0 := nulled];
    assert Do(Books(map[0 := draft], map[], map[]), ops[1]) == Books(map[0 := nulled], map[], map[]);
    assert AfterOps([ops[0], ops[1]]) == Some(Books(map[0 := nulled], map[], map[]));
    NullSend(Books(map[0 := nulled], map[], map[]), seller, nulled);
    NoTaxWithoutRate(lines);
  }

  lemma NullSend(b: Books, seller: UserId, row: Invoice)
    requires b == Books(map[0 := row], map[], map[]) && row.seller == seller
      && row.number == "" && row.status.Draft? && row.totals.total > 0
    ensures 0 in SentBooks(b, seller, 0, 0).invoices
    ensures SentBooks(b, seller, 0, 0).invoices[0] == row.(status := Sent, number := NumberText(1), tx := Some(0))
  {
    assert NumberText(1)[0] == 'I';
  }

  lemma NoTaxWithoutRate(lines: seq<Line>)
    ensures ComputeTotals(lines, None).tax == 0
  {
  }

  // --- What statuses, numbers and drafts mean -----------------------------------------------------------

  /** PAID and VOID are final: the row never changes again. */
  lemma PaidAndVoidAreFinal(ops: seq<Op>, i: nat, id: InvoiceId)
    requires i <= |ops| && AfterOps(ops).Some? && AfterOps(ops[..i]).Some?
    requires id in AfterOps(ops[..i]).value.invoices
    requires AfterOps(ops[..i]).value.invoices[id].status.Paid? || AfterOps(ops[..i]).value.invoices[id].status.Void?
    ensures id in AfterOps(ops).value.invoices && AfterOps(ops).value.invoices[id] ==
      AfterOps(ops[..i]).value.invoices[id]
  {
    RunForward(ops, i);
    hide AfterOps;
    assert InvoiceKept(AfterOps(ops[..i]).value.invoices[id], AfterOps(ops).value.invoices[id]);
  }

  /** A paid invoice rests on a successful payment of a transaction not cancelled; a void one's transaction was. */
  lemma PaidAndVoidMean(ops: seq<Op>, id: InvoiceId)
    requires AfterOps(ops).Some? && id in AfterOps(ops).value.invoices
    ensures var b := AfterOps(ops).value; var inv := b.invoices[id];
      && (inv.tx.Some? ==> inv.tx.value in b.txs)
      && (inv.status.Paid? ==> inv.tx.Some? && b.txs[inv.tx.value].paid && !b.txs[inv.tx.value].status.Cancelled?)
      && (inv.status.Void? && inv.tx.Some? ==> b.txs[inv.tx.value].status.Cancelled?)
  {
    RunCoupled(ops);
    hide AfterOps, Numbered, Priced, ComputeTotals;
    var b := AfterOps(ops).value;
    assert InvoiceSound(b.invoices[id], b.txs);
    if b.invoices[id].status.Paid? {
      assert TxSound(b.txs[b.invoices[id].tx.value]);
    }
  }

  /** No two invoices share a number of one seller, or a transaction. */
  lemma NumbersAndTransactionsAreUnique(ops: seq<Op>, i: InvoiceId, j: InvoiceId)
    requires AfterOps(ops).Some? && i in AfterOps(ops).value.invoices && j in AfterOps(ops).value.invoices
    requires var m := AfterOps(ops).value.invoices; SameNumber(m[i], m[j]) || SameTx(m[i], m[j])
    ensures i == j
  {
    RunCoupled(ops);
    hide AfterOps, Numbered, InvoiceSound;
  }

  /**
   Exactly when a new draft is refused. Every draft is stored under the empty number, and numbers
   are unique per seller, so a seller with one unsent invoice, voided or not, cannot create another.
   */
  lemma DraftRefusedIff(b: Books, op: Op)
    requires Coupled(b) && op.CreateDraft? && Enabled(b, op)
    ensures op.id !in Created(b, op).invoices
      <==> exists id :: id in b.invoices && b.invoices[id].seller == op.seller && b.invoices[id].tx.None?
  {
    hide InvoiceSound, TxSound;
    forall id | id in b.invoices ensures b.invoices[id].tx.None? <==> b.invoices[id].number == "" {
      assert Numbered(b.invoices[id], b.counters);
    }
    hide Numbered;
  }

  /** A draft voided before it was sent blocks its seller's new drafts for good. */
  lemma VoidedDraftBlocks(ops: seq<Op>, i: nat, id: InvoiceId, op: Op)
    requires i <= |ops| && AfterOps(ops).Some? && AfterOps(ops[..i]).Some? && id in AfterOps(ops[..i]).value.invoices
    requires AfterOps(ops[..i]).value.invoices[id].status.Void? && AfterOps(ops[..i]).value.invoices[id].tx.None?
    requires op.CreateDraft? && op.seller == AfterOps(ops[..i]).value.invoices[id].seller
      && Enabled(AfterOps(ops).value, op)
    ensures Created(AfterOps(ops).value, op) == AfterOps(ops).value
  {
    hide AfterOps, Coupled;
    PaidAndVoidAreFinal(ops, i, id);
    RunCoupled(ops);
    assert AfterOps(ops).value.invoices[id].tx.None?;
    DraftRefusedIff(AfterOps(ops).value, op);
  }
}
