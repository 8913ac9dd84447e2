/**
 What an account merge does to invoice numbering. Invoices move to the surviving seller and keep
 their numbers; the per-seller counters stay where they are.
 */
module MergedInvoices {
  import opened Wrappers
  import opened Invoices
  import opened InvoiceCoupling
  import Machine
  import Accounts = AccountMerge

  /** The invoices of `s` handed over to `t`. */
  function HandedOver(invoices: map<InvoiceId, Invoice>, s: UserId, t: UserId): map<InvoiceId, Invoice> {
    map id | id in invoices :: invoices[id].(seller := Accounts.Subst(invoices[id].seller, s, t))
  }

  function AfterMerge(b: Books, s: UserId, t: UserId): Books { b.(invoices := HandedOver(b.invoices, s, t)) }

  /** The invoices as the merge sees them. */
  function Bills(invoices: map<InvoiceId, Invoice>): map<InvoiceId, Accounts.Bill> {
    map id | id in invoices :: Accounts.Bill(Accounts.Deal(invoices[id].seller, None, ""), invoices[id].number)
  }

  /** Handing over is what the merge does to them. */
  lemma BillsHandedOver(invoices: map<InvoiceId, Invoice>, s: UserId, t: UserId)
    ensures Bills(HandedOver(invoices, s, t)) == Accounts.BillsMoved(Bills(invoices), s, t)
  {
  }

  /** The seller has an invoice that was never sent. */
  predicate HasUnsent(invoices: map<InvoiceId, Invoice>, u: UserId) { !NumberFree(invoices, u, "") }

  predicate HasSent(counters: map<UserId, nat>, u: UserId) { NextSeq(counters, u) > 1 }

  lemma BillsUnique(b: Books)
    requires Coupled(b)
    ensures Accounts.NumbersUnique(Bills(b.invoices))
  {
    hide AllSound, AllNumbered, TxsSound, Counting;
    forall i, j | i in b.invoices && j in b.invoices && Accounts.SameNumber(Bills(b.invoices)[i], Bills(b.invoices)[j])
      ensures i == j {
      assert SameNumber(b.invoices[i], b.invoices[j]);
    }
  }

  lemma UsesNumber(b: Books, u: UserId, n: nat) returns (id: InvoiceId)
    requires Coupled(b) && Allocated(b.counters, u, n)
    ensures id in b.invoices && b.invoices[id].seller == u && b.invoices[id].number == NumberText(n)
  {
    hide AllSound, AllNumbered, TxsSound, Unique, NumberText;
    id :| id in b.invoices && b.invoices[id].seller == u && b.invoices[id].number == NumberText(n);
  }

  lemma NumberedMeansSent(b: Books, id: InvoiceId) returns (n: nat)
    requires Coupled(b) && id in b.invoices && b.invoices[id].number != ""
    ensures Allocated(b.counters, b.invoices[id].seller, n) && b.invoices[id].number == NumberText(n)
  {
    hide AllSound, Unique, TxsSound, Counting, NumberText;
    assert Numbered(b.invoices[id], b.counters);
    n :| Allocated(b.counters, b.invoices[id].seller, n) && b.invoices[id].number == NumberText(n);
  }

  /**
   Exactly which sellers can be merged: they share an invoice number, and the merge fails, when both
   have an unsent invoice or when both have ever sent one, because every sequence starts with the same
   number.
   */
  lemma SellersMeetIff(b: Books, s: UserId, t: UserId)
    requires Coupled(b) && s != t
    ensures Accounts.NumbersMeet(Bills(b.invoices), s, t)
      <==> || (HasUnsent(b.invoices, s) && HasUnsent(b.invoices, t))
           || (HasSent(b.counters, s) && HasSent(b.counters, t))
  {
    hide Coupled, NumberText;
    var bills := Bills(b.invoices);
    if HasSent(b.counters, s) && HasSent(b.counters, t) {
      var i := UsesNumber(b, s, 1);
      var j := UsesNumber(b, t, 1);
      assert bills[i].deal.seller == s && bills[j].deal.seller == t && bills[i].number == bills[j].number;
    }
    if HasUnsent(b.invoices, s) && HasUnsent(b.invoices, t) {
      var i :| i in b.invoices && b.invoices[i].seller == s && b.invoices[i].number == "";
      var j :| j in b.invoices && b.invoices[j].seller == t && b.invoices[j].number == "";
      assert bills[i].deal.seller == s && bills[j].deal.seller == t && bills[i].number == bills[j].number;
    }
    if i, j :|
      && i in bills && j in bills && bills[i].deal.seller == s && bills[j].deal.seller == t
      && bills[i].number == bills[j].number
    {
      if bills[i].number != "" {
        var n := NumberedMeansSent(b, i);
        var m := NumberedMeansSent(b, j);
      }
    }
  }

  /** So the merge's update of the invoices goes through in exactly the remaining cases. */
  lemma HandingOverKeepsUniqueIff(b: Books, s: UserId, t: UserId)
    requires Coupled(b) && s != t
    ensures Accounts.NumbersUnique(Bills(HandedOver(b.invoices, s, t)))
      <==> && !(HasUnsent(b.invoices, s) && HasUnsent(b.invoices, t))
           && !(HasSent(b.counters, s) && HasSent(b.counters, t))
  {
    hide Coupled, Bills, HandedOver, NumberFree;
    BillsUnique(b);
    BillsHandedOver(b.invoices, s, t);
    Accounts.NumbersStayUniqueIff(Bills(b.invoices), s, t);
    SellersMeetIff(b, s, t);
  }

  /** A number that a merged seller would get is taken exactly when an absorbed invoice has it. */
  lemma NumberTakenIff(b: Books, s: UserId, t: UserId, n: nat)
    requires Coupled(b) && s != t && !Accounts.NumbersMeet(Bills(b.invoices), s, t)
      && n >= NextSeq(b.counters, t) && n >= 1
    ensures !NumberFree(HandedOver(b.invoices, s, t), t, NumberText(n)) <==> Allocated(b.counters, s, n)
  {
    hide Coupled;
    var merged := HandedOver(b.invoices, s, t);
    if Allocated(b.counters, s, n) {
      var id := UsesNumber(b, s, n);
      assert merged[id].seller == t && merged[id].number == NumberText(n);
    }
    if id :| id in merged && merged[id].seller == t && merged[id].number == NumberText(n) {
      assert NumberText(n)[0] == 'I';
      var m := NumberedMeansSent(b, id);
      NumberTextInjective(m, n);
    }
  }

  /** Repeated attempts to send one draft, each minting its own transaction. */
  function Resent(b: Books, seller: UserId, id: InvoiceId, txs: seq<TxId>): Books {
    if txs == [] then b else SentBooks(Resent(b, seller, id, txs[..|txs| - 1]), seller, id, txs[|txs| - 1])
  }

  /**
   The survivor's counter starts over under the absorbed numbers. A survivor that never sent an invoice
   itself fails to send as many times as invoices were absorbed with a number, and every failure leaves
   a published transaction behind.
   */
  lemma {:induction false} AbsorbedNumbersBlock(b: Books, s: UserId, t: UserId, id: InvoiceId, txs: seq<TxId>)
    requires Coupled(b) && s != t && !Accounts.NumbersMeet(Bills(b.invoices), s, t) && NextSeq(b.counters, t) == 1
    requires Sendable(AfterMerge(b, s, t), t, id) && |txs| < NextSeq(b.counters, s)
    ensures var r := Resent(AfterMerge(b, s, t), t, id, txs);
      && r.invoices == HandedOver(b.invoices, s, t) && NextSeq(r.counters, t) == 1 + |txs|
      && forall tx :: tx in txs ==> tx in r.txs && r.txs[tx].status.LinkActive?
  {
    hide Coupled, NumberText, HandedOver, NumberFree;
    if txs != [] {
      var shorter := txs[..|txs| - 1];
      AbsorbedNumbersBlock(b, s, t, id, shorter);
      NumberTakenIff(b, s, t, |txs|);
    }
  }

  /** After that many failures, and not before, the next attempt is numbered. */
  lemma SendsAfterAbsorbedNumbers(b: Books, s: UserId, t: UserId, id: InvoiceId, txs: seq<TxId>)
    requires Coupled(b) && s != t && !Accounts.NumbersMeet(Bills(b.invoices), s, t) && NextSeq(b.counters, t) == 1
    requires Sendable(AfterMerge(b, s, t), t, id) && 0 < |txs| <= NextSeq(b.counters, s)
    ensures var r := Resent(AfterMerge(b, s, t), t, id, txs);
      id in r.invoices && (r.invoices[id].status.Sent? <==> |txs| == NextSeq(b.counters, s))
  {
    hide Coupled, NumberText, HandedOver, NumberFree;
    AbsorbedNumbersBlock(b, s, t, id, txs[..|txs| - 1]);
    NumberTakenIff(b, s, t, |txs|);
  }

  /** Exactly when a merged seller's next send fails: it never sent before, and the absorbed seller did. */
  lemma NextSendFailsIff(b: Books, s: UserId, t: UserId)
    requires Coupled(b) && s != t && !Accounts.NumbersMeet(Bills(b.invoices), s, t)
    ensures var m := AfterMerge(b, s, t);
      !NumberFree(m.invoices, t, NumberText(NextSeq(m.counters, t))) <==>
        HasSent(b.counters, s) && !HasSent(b.counters, t)
  {
    hide Coupled, NumberText, NumberFree;
    CounterPositive(b, t);
    SellersMeetIff(b, s, t);
    NumberTakenIff(b, s, t, NextSeq(b.counters, t));
  }
}
