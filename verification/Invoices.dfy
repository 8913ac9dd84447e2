/** The invoice lifecycle and its coupling to the escrow status machine. */
module Invoices {
  import opened Wrappers
  import opened Decimal
  import opened InvoiceTotals
  import Machine

  type InvoiceId = nat
  type TxId = nat
  type UserId = string

  datatype InvoiceStatus = Draft | Sent | Viewed | Overdue | Paid | Void

  datatype Invoice = Invoice(
    seller: UserId, number: string, status: InvoiceStatus, lines: seq<Line>, rate: Option<int>,
    totals: Totals, due: Option<int>, tx: Option<TxId>)

  /** A transaction as far as invoices depend on it. `paid`: its payment row is SUCCESS. */
  datatype Tx = Tx(amount: int, status: Machine.Status, requested: bool, paid: bool)

  datatype Books = Books(invoices: map<InvoiceId, Invoice>, txs: map<TxId, Tx>, counters: map<UserId, nat>)

  datatype InvoiceError =
    | NotFound | NotOwner | NotEditable | ZeroTotal | NotVoidable | NumberTaken
    | TransitionRejected(reason: Machine.Rejection)

  // --- Numbers -----------------------------------------------------------------------------

  function Padded(s: string): string
    decreases 4 - |s|
  {
    if |s| >= 4 then s else Padded("0" + s)
  }

  function NumberText(seqNo: nat): string { "INV-" + Padded(Digits(seqNo)) }

  lemma {:induction false} PaddedValue(s: string)
    requires AllDigits(s)
    ensures AllDigits(Padded(s)) && Value(Padded(s)) == Value(s)
    decreases 4 - |s|
  {
    if |s| < 4 {
      ValueOfAppend("0", s);
      assert Value("0") == 0 by { assert "0"[..0] == ""; }
      PaddedValue("0" + s);
    }
  }

  /** Two sequence numbers never print alike, with or without padding. */
  lemma NumberTextInjective(a: nat, b: nat)
    requires NumberText(a) == NumberText(b)
    ensures a == b
  {
    assert NumberText(a)[4..] == Padded(Digits(a)) && NumberText(b)[4..] == Padded(Digits(b));
    PaddedValue(Digits(a));
    PaddedValue(Digits(b));
    ValueOfDigits(a);
    ValueOfDigits(b);
  }

  /** Four digits at least: exactly four below ten thousand, and no leading zero from there on. */
  lemma NumberTextReads(n: nat)
    ensures NumberText(n)[..4] == "INV-" && AllDigits(NumberText(n)[4..]) && Value(NumberText(n)[4..]) == n
    ensures n < 10_000 ==> |NumberText(n)| == 8
    ensures n >= 10_000 ==> |NumberText(n)| > 8 && NumberText(n)[4] != '0'
  {
    var text := NumberText(n);
    assert text[..4] == "INV-" && text[4..] == Padded(Digits(n));
    ValueOfDigits(n);
    PaddedValue(Digits(n));
    DigitsShortIff(n);
    PaddedLength(Digits(n));
    if n >= 10_000 {
      NoLeadingZero(n);
    }
  }

  lemma {:induction false} PaddedLength(s: string)
    ensures |Padded(s)| == if |s| < 4 then 4 else |s|
    decreases 4 - |s|
  {
    if |s| < 4 {
      PaddedLength("0" + s);
    }
  }

  /** A number has at most four digits exactly below ten thousand. */
  lemma DigitsShortIff(n: nat)
    ensures |Digits(n)| <= 4 <==> n < 10_000
  {
    var a, b, c := n / 10, n / 100, n / 1_000;
    assert a / 10 == b && b / 10 == c && c / 10 == n / 10_000;
    assert |Digits(n)| == if n < 10 then 1 else |Digits(a)| + 1;
    assert |Digits(a)| == if a < 10 then 1 else |Digits(b)| + 1;
    assert |Digits(b)| == if b < 10 then 1 else |Digits(c)| + 1;
    assert |Digits(c)| == if c < 10 then 1 else |Digits(c / 10)| + 1;
    assert |Digits(c / 10)| >= 1;
  }

  // --- What each operation does ----------------------------------------------------------------

  predicate Unpaid(s: InvoiceStatus) { s.Sent? || s.Viewed? || s.Overdue? }

  predicate Voidable(s: InvoiceStatus) { s.Draft? || Unpaid(s) }

  /** The (seller, number) pair is unique in the table. */
  predicate NumberFree(invoices: map<InvoiceId, Invoice>, seller: UserId, number: string) {
    forall id :: id in invoices ==> !(invoices[id].seller == seller && invoices[id].number == number)
  }

  const CALM := Machine.Context(Machine.BuyerConfirmation, false, false)

  function TxStep(tx: Tx, event: Machine.Event, context: Machine.Context): Tx {
    match Machine.Transition(tx.status, event, context)
    case Reject(_) => tx
    case Accept(to) => tx.(status := to)
  }

  predicate CanCancel(b: Books, inv: Invoice) {
    inv.tx.None? || (inv.tx.value in b.txs
      && Machine.Transition(b.txs[inv.tx.value].status, Machine.Cancel, CALM).Accept?)
  }

  function NextSeq(counters: map<UserId, nat>, seller: UserId): nat {
    if seller in counters then counters[seller] else 1
  }

  function MarkedPaid(invoices: map<InvoiceId, Invoice>, tx: TxId): map<InvoiceId, Invoice> {
    map id | id in invoices ::
      if invoices[id].tx == Some(tx) && Unpaid(invoices[id].status) then invoices[id].(status := Paid) else invoices[id]
  }

  /** The date that a null due date turns into. */
  const EPOCH := 0

  predicate IsOverdue(inv: Invoice, now: int) {
    (inv.status.Sent? || inv.status.Viewed?) && inv.due.Some? && inv.due.value < now
  }

  function Scanned(invoices: map<InvoiceId, Invoice>, now: int): map<InvoiceId, Invoice> {
    map id | id in invoices :: if IsOverdue(invoices[id], now) then invoices[id].(status := Overdue) else invoices[id]
  }

  datatype Op =
    | CreateDraft(id: InvoiceId, seller: UserId, lines: seq<Line>, rate: Option<int>, due: Option<int>)
    | Edit(seller: UserId, id: InvoiceId, newLines: Field<seq<Line>>, newRate: Field<int>, newDue: Field<int>)
    | Send(seller: UserId, id: InvoiceId, tx: TxId)
    | VoidInvoice(seller: UserId, id: InvoiceId)
    | View(id: InvoiceId)
    | ScanOverdue(now: int)
    | Checkout(tx: TxId)
    | Protect(tx: TxId, source: Machine.PaymentSource)
    | TxEvent(tx: TxId, event: Machine.Event, context: Machine.Context)

  /** Ids of new rows are fresh; other parties raise shipped events only. */
  predicate Enabled(b: Books, op: Op) {
    match op
    case CreateDraft(id, _, _, _, _) => id !in b.invoices
    case Send(_, _, tx) => tx !in b.txs
    case Checkout(tx) => tx in b.txs
    case Protect(tx, source) => tx in b.txs && b.txs[tx].requested && !source.Client?
    case TxEvent(tx, event, _) =>
      tx in b.txs && Machine.Shipped(event) && !event.PaymentVerified? && !event.BuyerInitiateCheckout?
    case _ => true
  }

  function Created(b: Books, op: Op): Books
    requires op.CreateDraft?
  {
    if !NumberFree(b.invoices, op.seller, "") then b
    else b.(invoices := b.invoices[op.id :=
      Invoice(op.seller, "", Draft, op.lines, op.rate, ComputeTotals(op.lines, op.rate), op.due, None)])
  }

  /** The totals are recomputed when lines or rate are mentioned, be it as null. */
  predicate Reprices(op: Op)
    requires op.Edit?
  {
    !op.newLines.Absent? || !op.newRate.Absent?
  }

  /** A null rate is stored as no rate, but the totals are computed with the rate stored before. */
  function EditedRow(inv: Invoice, op: Op): Invoice
    requires op.Edit?
  {
    var lines := op.newLines.Over(Some(inv.lines)).value;
    inv.(lines := lines,
         rate := if op.newRate.Null? then None else op.newRate.Over(inv.rate),
         due := if op.newDue.Null? then Some(EPOCH) else op.newDue.Over(inv.due),
         totals := if Reprices(op) then ComputeTotals(lines, op.newRate.Over(inv.rate)) else inv.totals)
  }

  function Edited(b: Books, op: Op): Books
    requires op.Edit?
  {
    if op.id !in b.invoices || b.invoices[op.id].seller != op.seller || !b.invoices[op.id].status.Draft? then b
    else b.(invoices := b.invoices[op.id := EditedRow(b.invoices[op.id], op)])
  }

  predicate Sendable(b: Books, seller: UserId, id: InvoiceId) {
    id in b.invoices && b.invoices[id].seller == seller
      && b.invoices[id].status.Draft? && b.invoices[id].totals.total > 0
  }

  /**
   Mint and publish one transaction for the total, allocate a number, then update the invoice: a taken
   number fails there.
   */
  function SentBooks(b: Books, seller: UserId, id: InvoiceId, tx: TxId): Books {
    if !Sendable(b, seller, id) then b
    else
      var inv := b.invoices[id];
      var n := NextSeq(b.counters, seller);
      Books(if NumberFree(b.invoices, seller, NumberText(n))
              then b.invoices[id := inv.(status := Sent, number := NumberText(n), tx := Some(tx))] else b.invoices,
            b.txs[tx := Tx(inv.totals.total, Machine.LinkActive, false, false)],
            b.counters[seller := n + 1])
  }

  predicate CanVoid(b: Books, seller: UserId, id: InvoiceId) {
    && id in b.invoices && b.invoices[id].seller == seller
    && Voidable(b.invoices[id].status) && CanCancel(b, b.invoices[id])
  }

  function Voided(b: Books, seller: UserId, id: InvoiceId): Books {
    if !CanVoid(b, seller, id) then b
    else
      var inv := b.invoices[id];
      b.(invoices := b.invoices[id := inv.(status := Void)],
         txs := if inv.tx.None? then b.txs
           else b.txs[inv.tx.value := TxStep(b.txs[inv.tx.value], Machine.Cancel, CALM)])
  }

  function ViewedBooks(b: Books, id: InvoiceId): Books {
    if id in b.invoices && b.invoices[id].status.Sent?
    then b.(invoices := b.invoices[id := b.invoices[id].(status := Viewed)]) else b
  }

  function CheckedOut(b: Books, tx: TxId): Books
    requires tx in b.txs
  {
    if Machine.Transition(b.txs[tx].status, Machine.BuyerInitiateCheckout, CALM).Reject? then b
    else b.(txs := b.txs[tx := TxStep(b.txs[tx], Machine.BuyerInitiateCheckout, CALM).(requested := true)])
  }

  /** The payment is SUCCESS, the transaction protected if the machine agrees, then the invoice PAID. */
  function Protected(b: Books, tx: TxId, source: Machine.PaymentSource): Books
    requires tx in b.txs
  {
    var row := b.txs[tx];
    if row.paid then b.(invoices := MarkedPaid(b.invoices, tx))
    else
      var moved := TxStep(row.(paid := true), Machine.PaymentVerified(source), CALM);
      var invoices := if Machine.Transition(row.status, Machine.PaymentVerified(source), CALM).Accept?
                      then MarkedPaid(b.invoices, tx) else b.invoices;
      b.(invoices := invoices, txs := b.txs[tx := moved])
  }

  function Do(b: Books, op: Op): Books
    requires Enabled(b, op)
  {
    match op
    case CreateDraft(_, _, _, _, _) => Created(b, op)
    case Edit(_, _, _, _, _) => Edited(b, op)
    case Send(seller, id, tx) => SentBooks(b, seller, id, tx)
    case VoidInvoice(seller, id) => Voided(b, seller, id)
    case View(id) => ViewedBooks(b, id)
    case ScanOverdue(now) => b.(invoices := Scanned(b.invoices, now))
    case Checkout(tx) => CheckedOut(b, tx)
    case Protect(tx, source) => Protected(b, tx, source)
    case TxEvent(tx, event, context) => b.(txs := b.txs[tx := TxStep(b.txs[tx], event, context)])
  }

  // --- Coupling ------------------------------------------------------------------------------------

  /** The stored totals are those of the stored lines and the stored rate. */
  predicate Agrees(inv: Invoice) { inv.totals == ComputeTotals(inv.lines, inv.rate) }

  /** The stored totals are those of the stored lines at some rate. */
  ghost predicate Priced(inv: Invoice) { exists rate :: inv.totals == ComputeTotals(inv.lines, rate) }

  /** Totals come from the lines, and the linked transaction is for the total. */
  ghost predicate InvoiceSound(inv: Invoice, txs: map<TxId, Tx>) {
    && Priced(inv)
    && (inv.status.Draft? ==> inv.tx.None?)
    && (Unpaid(inv.status) || inv.status.Paid? ==> inv.tx.Some?)
    && (inv.tx.Some? ==>
      && inv.tx.value in txs && txs[inv.tx.value].amount == inv.totals.total > 0
      && Machine.Onward(Machine.LinkActive, txs[inv.tx.value].status)
      && (inv.status.Void? ==> txs[inv.tx.value].status.Cancelled?)
      && (inv.status.Paid? ==> txs[inv.tx.value].paid))
  }

  ghost predicate TxSound(tx: Tx) {
    && (tx.paid ==> tx.requested)
    && (tx.requested ==> Machine.Onward(Machine.PaymentPending, tx.status))
  }

  /** An invoice is numbered exactly when it was sent, from its seller's own sequence. */
  ghost predicate Numbered(inv: Invoice, counters: map<UserId, nat>) {
    && (inv.tx.None? <==> inv.number == "")
    && (inv.number != "" ==> exists n :: Allocated(counters, inv.seller, n) && inv.number == NumberText(n))
  }

  /** The sequence number has been handed out to the seller. */
  predicate Allocated(counters: map<UserId, nat>, seller: UserId, n: nat) { 1 <= n < NextSeq(counters, seller) }

  predicate SameNumber(a: Invoice, b: Invoice) { a.seller == b.seller && a.number == b.number }
  predicate SameTx(a: Invoice, b: Invoice) { a.tx.Some? && a.tx == b.tx }

  ghost predicate AllSound(invoices: map<InvoiceId, Invoice>, txs: map<TxId, Tx>) {
    forall id :: id in invoices ==> InvoiceSound(invoices[id], txs)
  }

  ghost predicate AllNumbered(invoices: map<InvoiceId, Invoice>, counters: map<UserId, nat>) {
    forall id :: id in invoices ==> Numbered(invoices[id], counters)
  }

  /** The two unique constraints. */
  ghost predicate Unique(invoices: map<InvoiceId, Invoice>) {
    && (forall i, j :: i in invoices && j in invoices && SameNumber(invoices[i], invoices[j]) ==> i == j)
    && (forall i, j :: i in invoices && j in invoices && SameTx(invoices[i], invoices[j]) ==> i == j)
  }

  ghost predicate TxsSound(txs: map<TxId, Tx>) {
    forall t :: t in txs ==> TxSound(txs[t])
  }

  /** Counters start at 1, and every number handed out is carried by an invoice. */
  ghost predicate Counting(invoices: map<InvoiceId, Invoice>, counters: map<UserId, nat>) {
    && (forall s :: s in counters ==> counters[s] >= 1)
    && (forall s, n :: Allocated(counters, s, n) ==> !NumberFree(invoices, s, NumberText(n)))
  }

  ghost predicate Coupled(b: Books) {
    && AllSound(b.invoices, b.txs) && AllNumbered(b.invoices, b.counters) && Unique(b.invoices)
    && TxsSound(b.txs) && Counting(b.invoices, b.counters)
  }
}
