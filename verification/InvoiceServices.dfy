/** The invoice service as it is written: guards, then updates of the rows in place. */
module InvoiceServices {
  import opened Wrappers
  import opened InvoiceTotals
  import opened Invoices
  import opened InvoiceCoupling
  import opened InvoiceRuns
  import Machine

  class InvoiceService {
    var invoices: map<InvoiceId, Invoice>
    var txs: map<TxId, Tx>
    var counters: map<UserId, nat>

    ghost function State(): Books
      reads this
    {
      Books(invoices, txs, counters)
    }

    ghost predicate Valid()
      reads this
    {
      Coupled(State())
    }

    constructor ()
      ensures State() == Books(map[], map[], map[]) && Valid()
    {
      invoices, txs, counters := map[], map[], map[];
      new;
      EmptyCoupled();
    }

    /** Every money field is computed here. The empty number is taken until the invoice is sent. */
    method CreateDraft(id: InvoiceId, seller: UserId, lines: seq<Line>, rate: Option<int>, due: Option<int>)
      returns (r: Result<Invoice, InvoiceError>)
      requires Valid() && id !in invoices
      modifies this`invoices
      ensures Valid() && State() == Created(old(State()), Op.CreateDraft(id, seller, lines, rate, due))
      ensures r.Ok? <==> NumberFree(old(invoices), seller, "")
      ensures r.Ok? ==> id in invoices && r.value == invoices[id]
    {
      hide Coupled, ComputeTotals;
      OpKeeps(State(), Op.CreateDraft(id, seller, lines, rate, due));
      var totals := ComputeTotals(lines, rate);
      if exists i :: i in invoices && invoices[i].seller == seller && invoices[i].number == "" {
        return Err(NumberTaken);
      }
      var row := Invoice(seller, "", Draft, lines, rate, totals, due, None);
      invoices := invoices[id := row];
      return Ok(row);
    }

    method LoadOwned(seller: UserId, id: InvoiceId) returns (r: Result<Invoice, InvoiceError>)
      ensures r.Ok? <==> id in invoices && invoices[id].seller == seller
      ensures r.Ok? ==> r.value == invoices[id]
      ensures r.Err? ==> r.error == if id !in invoices then NotFound else NotOwner
    {
      if id !in invoices {
        return Err(NotFound);
      }
      if invoices[id].seller != seller {
        return Err(NotOwner);
      }
      return Ok(invoices[id]);
    }

    /**
     New lines replace the old ones; mentioning lines or rate recomputes the totals. A field may be left
     out, null, or given, and a null rate is stored as null while the totals use the rate stored before.
     */
    method Edit(seller: UserId, id: InvoiceId, newLines: Field<seq<Line>>, newRate: Field<int>, newDue: Field<int>)
      returns (r: Result<Invoice, InvoiceError>)
      requires Valid()
      modifies this`invoices
      ensures Valid() && State() == Edited(old(State()), Op.Edit(seller, id, newLines, newRate, newDue))
      ensures r.Ok? <==> id in old(invoices) && old(invoices)[id].seller == seller && old(invoices)[id].status.Draft?
      ensures r.Ok? ==> id in invoices && r.value == invoices[id]
    {
      hide Coupled, ComputeTotals;
      OpKeeps(State(), Op.Edit(seller, id, newLines, newRate, newDue));
      var loaded := LoadOwned(seller, id);
      if loaded.Err? {
        return Err(loaded.error);
      }
      var stored := loaded.value;
      if !stored.status.Draft? {
        return Err(NotEditable);
      }
      var row := stored;
      if !newDue.Absent? {
        row := row.(due := if newDue.Given? then Some(newDue.value) else Some(EPOCH));
      }
      if !newRate.Absent? {
        row := row.(rate := if newRate.Given? then Some(newRate.value) else None);
      }
      if !newLines.Absent? || !newRate.Absent? {
        var rate := if newRate.Given? then Some(newRate.value) else stored.rate;
        var lines := if newLines.Given? then newLines.value else stored.lines;
        row := row.(totals := ComputeTotals(lines, rate));
        if newLines.Given? {
          row := row.(lines := lines);
        }
      }
      invoices := invoices[id := row];
      return Ok(row);
    }

    /** Increment and return: the allocated number is the one before the new `nextSeq`. */
    method AllocateNumber(seller: UserId) returns (number: string)
      modifies this`counters
      ensures number == NumberText(NextSeq(old(counters), seller))
      ensures counters == old(counters)[seller := NextSeq(old(counters), seller) + 1]
    {
      var next := if seller in counters then counters[seller] + 1 else 2;
      counters := counters[seller := next];
      return NumberText(next - 1);
    }

    /**
     A second call on a sent invoice hands back the row and mints nothing. The transaction is published
     and the counter advanced before the row is updated, so a taken number leaves both behind.
     */
    method Send(seller: UserId, id: InvoiceId, tx: TxId) returns (r: Result<Invoice, InvoiceError>)
      requires tx !in txs
      modifies this
      ensures old(Valid()) ==> Valid() && r != Err(NumberTaken)
      ensures State() == SentBooks(old(State()), seller, id, tx)
      ensures r == Err(ZeroTotal) <==>
        id in old(invoices) && old(invoices)[id].seller == seller
          && old(invoices)[id].status.Draft? && old(invoices)[id].totals.total <= 0
      ensures r == Err(NumberTaken) <==>
        Sendable(old(State()), seller, id)
          && !NumberFree(old(invoices), seller, NumberText(NextSeq(old(counters), seller)))
      ensures r.Ok? ==> id in invoices && r.value == invoices[id] && !r.value.status.Draft?
    {
      hide Coupled, ComputeTotals, NumberText;
      ghost var before := State();
      SendIsSound(before, seller, id, tx);
      var loaded := LoadOwned(seller, id);
      if loaded.Err? {
        return Err(loaded.error);
      }
      var row := loaded.value;
      if !row.status.Draft? {
        return Ok(row);
      }
      if row.totals.total <= 0 {
        return Err(ZeroTotal);
      }
      txs := txs[tx := Tx(row.totals.total, Machine.Draft, false, false)];
      txs := txs[tx := TxStep(txs[tx], Machine.SellerPublish, CALM)];
      assert txs == old(txs)[tx := Tx(row.totals.total, Machine.LinkActive, false, false)];
      var number := AllocateNumber(seller);
      if exists i :: i in invoices && invoices[i].seller == seller && invoices[i].number == number {
        return Err(NumberTaken);
      }
      row := row.(status := Sent, number := number, tx := Some(tx));
      invoices := invoices[id := row];
      return Ok(row);
    }

    /** Cancel the linked transaction first: what the machine refuses to cancel is not voided. */
    method VoidInvoice(seller: UserId, id: InvoiceId) returns (r: Result<Invoice, InvoiceError>)
      requires Valid()
      modifies this`invoices, this`txs
      ensures Valid() && State() == Voided(old(State()), seller, id)
      ensures r.Ok? <==> CanVoid(old(State()), seller, id)
      ensures r.Ok? ==> id in invoices && r.value == invoices[id] && r.value.status.Void?
    {
      hide Coupled, ComputeTotals, Machine.Transition;
      LinkExists(State());
      OpKeeps(State(), Op.VoidInvoice(seller, id));
      var loaded := LoadOwned(seller, id);
      if loaded.Err? {
        return Err(loaded.error);
      }
      var row := loaded.value;
      if !Voidable(row.status) {
        return Err(NotVoidable);
      }
      if row.tx.Some? {
        var tx := row.tx.value;
        match Machine.Transition(txs[tx].status, Machine.Cancel, CALM) {
          case Reject(reason) =>
            return Err(TransitionRejected(reason));
          case Accept(to) =>
            txs := txs[tx := txs[tx].(status := to)];
        }
      }
      row := row.(status := Void);
      invoices := invoices[id := row];
      return Ok(row);
    }

    /** The buyer's first look marks a sent invoice viewed; a draft is not shown. */
    method GetPublicView(id: InvoiceId) returns (r: Result<Invoice, InvoiceError>)
      requires Valid()
      modifies this`invoices
      ensures Valid() && State() == ViewedBooks(old(State()), id)
      ensures r == Err(NotFound) <==> id !in old(invoices) || old(invoices)[id].status.Draft?
      ensures r.Ok? ==> id in invoices && r.value == invoices[id] && !r.value.status.Sent?
    {
      hide Coupled;
      OpKeeps(State(), Op.View(id));
      if id !in invoices || invoices[id].status.Draft? {
        return Err(NotFound);
      }
      if invoices[id].status.Sent? {
        invoices := invoices[id := invoices[id].(status := Viewed)];
      }
      return Ok(invoices[id]);
    }

    method ScanOverdue(now: int) returns (flipped: nat)
      requires Valid()
      modifies this`invoices
      ensures Valid() && invoices == Scanned(old(invoices), now) && State() == Do(old(State()), Op.ScanOverdue(now))
      ensures flipped == |set id | id in old(invoices) && IsOverdue(old(invoices)[id], now)|
    {
      hide Coupled;
      OpKeeps(State(), Op.ScanOverdue(now));
      flipped := |set id | id in invoices && IsOverdue(invoices[id], now)|;
      invoices := Scanned(invoices, now);
    }

    /** Called by the protect path once the payment is SUCCESS. At most one invoice is linked. */
    method MarkPaidByTransaction(tx: TxId) returns (flipped: nat)
      requires Valid() && tx in txs && txs[tx].paid
      modifies this`invoices
      ensures Valid() && State() == old(State()).(invoices := MarkedPaid(old(invoices), tx))
      ensures flipped <= 1
      ensures flipped == 0 <==> State() == old(State())
    {
      hide Coupled;
      MarkPaidKeeps(State(), tx);
      ghost var before := invoices;
      var due := set id | id in invoices && invoices[id].tx == Some(tx) && Unpaid(invoices[id].status);
      flipped := |due|;
      AtMostOneLinked(State(), tx, due);
      invoices := MarkedPaid(invoices, tx);
      if due != {} {
        var id :| id in due;
        assert invoices[id] != before[id];
      } else {
        forall id | id in before ensures invoices[id] == before[id] {
          assert id !in due;
        }
        assert invoices == before;
      }
    }
  }

  lemma SendIsSound(b: Books, seller: UserId, id: InvoiceId, tx: TxId)
    requires tx !in b.txs
    ensures Coupled(b) ==>
      && Coupled(SentBooks(b, seller, id, tx))
      && NumberFree(b.invoices, seller, NumberText(NextSeq(b.counters, seller)))
  {
    hide Coupled, NumberText;
    if Coupled(b) {
      SendKeeps(b, seller, id, tx);
      NextNumberFree(b, seller);
    }
  }

  lemma LinkExists(b: Books)
    requires Coupled(b)
    ensures forall id :: id in b.invoices && b.invoices[id].tx.Some? ==> b.invoices[id].tx.value in b.txs
  {
    hide ComputeTotals, Numbered, TxSound;
    forall id | id in b.invoices && b.invoices[id].tx.Some? ensures b.invoices[id].tx.value in b.txs {
      assert InvoiceSound(b.invoices[id], b.txs);
    }
  }

  lemma AtMostOneLinked(b: Books, tx: TxId, due: set<InvoiceId>)
    requires Coupled(b) && forall id :: id in due ==> id in b.invoices && b.invoices[id].tx == Some(tx)
    ensures |due| <= 1
  {
    hide InvoiceSound, Numbered, TxSound;
    if id :| id in due {
      assert forall j :: j in due ==> SameTx(b.invoices[id], b.invoices[j]);
      assert due == {id};
    }
  }
}
