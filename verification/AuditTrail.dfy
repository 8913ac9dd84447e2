/**
 What the three logs tell, read from the ends of the committed edge: which row a merchant gets, which
 kind of line the timeline shows, and that nothing is told twice.
 */
module AuditTrail {
  import opened Wrappers
  import opened Machine
  import opened EscrowProtocol
  import opened EscrowInvariant
  import Runs = EscrowRuns

  /** What a kind of outbound event announces. */
  predicate Announces(kind: OutboundKind, from: Status, to: Status) {
    match kind
    case TransactionProtected => to.PaymentProtected?
    case TransactionCancelled => to.Cancelled?
    case DisputeOpened => to.Disputed?
    case DisputeResolved => from.Disputed?
    case FundsReleased => to.Completed?
  }

  predicate Told(rows: seq<OutboxRow>, kind: OutboundKind) { exists row :: row in rows && row.kind == kind }

  /** A permitted edge of a shipped event. */
  predicate Permitted(edge: Edge) {
    Shipped(edge.event) && Transition(edge.from, edge.event, edge.context) == Accept(edge.to)
  }

  /** An edge announces one thing at most, and a merchant's row says exactly that. */
  lemma RowAnnounces(t: Terms, edge: Edge)
    requires Permitted(edge)
    ensures |OutboxRows(t, edge)| <= 1
    ensures forall kind :: Told(OutboxRows(t, edge), kind) <==> t.merchant.Some? && Announces(kind, edge.from, edge.to)
    ensures forall row :: row in OutboxRows(t, edge) ==>
      && Some(row.merchant) == t.merchant && row.status == edge.to
      && row.amount == t.amount && row.currency == t.currency && row.title == t.title
  {
    var rows := OutboxRows(t, edge);
    forall kind ensures Told(rows, kind) <==> t.merchant.Some? && Announces(kind, edge.from, edge.to) {
      if rows != [] {
        assert rows[0] in rows;
      }
    }
  }

  /** The line an edge leaves in the timeline and in the audit log. */
  lemma LineTells(edge: Edge)
    requires Permitted(edge)
    ensures TypeOf(edge.event) == SELLER_PUBLISH <==> edge.to.LinkActive?
    ensures TypeOf(edge.event) == CANCEL <==> edge.to.Cancelled?
    ensures TypeOf(edge.event) == BUYER_INITIATE_CHECKOUT <==> edge.to.PaymentPending?
    ensures TypeOf(edge.event) == PAYMENT_VERIFIED <==> edge.to.PaymentProtected?
    ensures TypeOf(edge.event) == SELLER_START_DELIVERY <==> edge.to.DeliveryInProgress?
    ensures TypeOf(edge.event) == SELLER_MARK_DELIVERED <==> edge.to.ConfirmationPending?
    ensures TypeOf(edge.event) == RAISE_DISPUTE <==> edge.to.Disputed?
    ensures TypeOf(edge.event) == RESOLVE_DISPUTE_FOR_SELLER <==> edge.from.Disputed? && edge.to.ReleaseProcessing?
    ensures TypeOf(edge.event) == RESOLVE_DISPUTE_FOR_BUYER <==> edge.to.Refunded?
    ensures TypeOf(edge.event) == PAYOUT_SUCCEEDED <==> edge.to.Completed?
    ensures TypeOf(edge.event) == AUTO_CONFIRM ==>
      edge.context.releaseRule.AutoAfterWindow? && edge.context.autoConfirmWindowElapsed
    ensures TypeOf(edge.event) in {BUYER_CONFIRM, AUTO_CONFIRM} <==>
      edge.from.ConfirmationPending? && edge.to.ReleaseProcessing?
    ensures TypeOf(edge.event) == AUTO_CONFIRM <==> edge.event.AutoConfirm?
  {
  }

  /** And the lines of the events without a caller, should they get one. */
  lemma UnshippedLineTells(edge: Edge)
    requires Transition(edge.from, edge.event, edge.context) == Accept(edge.to)
    ensures TypeOf(edge.event) == EXPIRE <==> edge.to.Expired?
    ensures TypeOf(edge.event) == PAYMENT_ABANDONED <==> edge.from.PaymentPending? && edge.to.LinkActive?
    ensures TypeOf(edge.event) == REFUND <==> edge.from.PaymentProtected? && edge.to.Refunded?
    ensures TypeOf(edge.event) == WITHDRAW_DISPUTE <==> edge.from.Disputed? && edge.to.PaymentProtected?
    ensures TypeOf(edge.event) == PAYOUT_RETRY <==> edge.from == edge.to
    ensures TypeOf(edge.event) == ADMIN_INTERVENTION <==> edge.from.ReleaseProcessing? && edge.to.Disputed?
  {
  }

  // --- Over a whole history ------------------------------------------------------------------------

  ghost predicate ShippedPath(es: seq<Edge>) { PathFromDraft(es) && Uses(es, Shipped) }

  predicate AnnouncedBy(es: seq<Edge>, kind: OutboundKind, i: nat)
    requires i < |es|
  {
    Announces(kind, es[i].from, es[i].to)
  }

  predicate Announced(es: seq<Edge>, kind: OutboundKind) {
    exists i :: 0 <= i < |es| && AnnouncedBy(es, kind, i)
  }

  lemma AnnouncedGrows(es: seq<Edge>, kind: OutboundKind)
    requires es != []
    ensures Announced(es, kind) <==> Announced(es[..|es| - 1], kind) || AnnouncedBy(es, kind, |es| - 1)
  {
    var shorter := es[..|es| - 1];
    if i :| 0 <= i < |shorter| && AnnouncedBy(shorter, kind, i) {
      assert AnnouncedBy(es, kind, i);
    }
    if i :| 0 <= i < |es| && AnnouncedBy(es, kind, i) {
      assert i < |es| - 1 ==> AnnouncedBy(shorter, kind, i);
    }
  }

  /** A merchant is told of something exactly when it happened; nobody else is told anything. */
  lemma {:induction false} ToldIff(t: Terms, es: seq<Edge>, kind: OutboundKind)
    requires ShippedPath(es)
    ensures Told(OutboxOf(t, es), kind) <==> t.merchant.Some? && Announced(es, kind)
  {
    hide Transition, Announces, OutboxRows, PathFromDraft, Shipped;
    if es != [] {
      var shorter, last := es[..|es| - 1], es[|es| - 1];
      PrefixIsShipped(es);
      assert Permitted(last) by { LastIsPermitted(es); }
      ToldIff(t, shorter, kind);
      RowAnnounces(t, last);
      AnnouncedGrows(es, kind);
      assert Told(OutboxOf(t, es), kind) <==> Told(OutboxOf(t, shorter), kind) || Told(OutboxRows(t, last), kind) by {
        ToldEither(OutboxOf(t, shorter), OutboxRows(t, last), kind);
      }
    }
  }

  lemma ToldEither(a: seq<OutboxRow>, b: seq<OutboxRow>, kind: OutboundKind)
    ensures Told(a + b, kind) <==> Told(a, kind) || Told(b, kind)
  {
    if row :| row in a && row.kind == kind { assert row in a + b; }
    if row :| row in b && row.kind == kind { assert row in a + b; }
  }

  lemma PrefixIsShipped(es: seq<Edge>)
    requires ShippedPath(es) && es != []
    ensures ShippedPath(es[..|es| - 1])
  {
    hide Transition, Shipped;
  }

  lemma LastIsPermitted(es: seq<Edge>)
    requires ShippedPath(es) && es != []
    ensures Permitted(es[|es| - 1])
  {
    hide Transition, Shipped;
  }

  /** The rows tell different things. */
  predicate KindsDiffer(rows: seq<OutboxRow>) {
    forall i, j :: 0 <= i < j < |rows| ==> rows[i].kind != rows[j].kind
  }

  /** What was announced before is not announced again: its status would recur. */
  lemma NeverAgain(es: seq<Edge>, kind: OutboundKind)
    requires ShippedPath(es) && es != [] && AnnouncedBy(es, kind, |es| - 1)
    ensures !Announced(es[..|es| - 1], kind)
  {
    hide Transition, Shipped, Onward;
    var n := |es| - 1;
    if i :| 0 <= i < n && AnnouncedBy(es[..n], kind, i) {
      assert AnnouncedBy(es, kind, i);
      NoRewinding(es);
      NoRevisit(es);
      StatusAtPrefix(es, i);
      StatusAtPrefix(es, i + 1);
      StatusAtPrefix(es, n);
      StatusAtPrefix(es, n + 1);
    }
  }

  lemma NoRewinding(es: seq<Edge>)
    requires ShippedPath(es)
    ensures forall k :: 0 <= k < |es| ==> !Rewinds(es[k].event)
  {
    hide Transition;
  }

  /** No merchant is told the same thing twice. */
  lemma {:induction false} ToldOnce(t: Terms, es: seq<Edge>)
    requires ShippedPath(es)
    ensures KindsDiffer(OutboxOf(t, es))
  {
    hide Transition, Announces, OutboxRows, PathFromDraft, Shipped;
    if es != [] {
      var shorter, last := es[..|es| - 1], es[|es| - 1];
      PrefixIsShipped(es);
      assert Permitted(last) by { LastIsPermitted(es); }
      ToldOnce(t, shorter);
      RowAnnounces(t, last);
      forall row | row in OutboxRows(t, last) ensures !Told(OutboxOf(t, shorter), row.kind) {
        assert AnnouncedBy(es, row.kind, |es| - 1);
        NeverAgain(es, row.kind);
        ToldIff(t, shorter, row.kind);
      }
    }
  }

  /** Each row carries the merchant, the terms and the status its edge led to. */
  lemma {:induction false} RowsAreTrue(t: Terms, es: seq<Edge>, row: OutboxRow)
    requires ShippedPath(es) && row in OutboxOf(t, es)
    ensures Some(row.merchant) == t.merchant && row.amount == t.amount
    ensures row.currency == t.currency && row.title == t.title
    ensures exists i :: 0 <= i < |es| && AnnouncedBy(es, row.kind, i) && es[i].to == row.status
  {
    hide Transition, Announces, OutboxRows, PathFromDraft, Shipped;
    var shorter, last := es[..|es| - 1], es[|es| - 1];
    PrefixIsShipped(es);
    assert Permitted(last) by { LastIsPermitted(es); }
    RowAnnounces(t, last);
    if row in OutboxOf(t, shorter) {
      RowsAreTrue(t, shorter, row);
      var i :| 0 <= i < |shorter| && AnnouncedBy(shorter, row.kind, i) && shorter[i].to == row.status;
      assert AnnouncedBy(es, row.kind, i) && es[i].to == row.status;
    } else {
      assert row in OutboxRows(t, last);
      assert AnnouncedBy(es, row.kind, |es| - 1);
    }
  }

  /**
   In every run a merchant's outbox tells exactly what happened, once, with the terms of the transaction and
   the status reached; the timeline and the audit log show for every commit the line its two ends call for.
   */
  lemma RunTells(t: Terms, e: Escrow)
    requires Runs.Reachable(Drafted(t), e, true)
    ensures forall kind :: Told(e.logs.outbox, kind) <==> t.merchant.Some? && Announced(e.logs.commits, kind)
    ensures KindsDiffer(e.logs.outbox)
    ensures forall row :: row in e.logs.outbox ==>
      && Some(row.merchant) == t.merchant && row.amount == t.amount
      && row.currency == t.currency && row.title == t.title
      && exists i :: 0 <= i < |e.logs.commits| && AnnouncedBy(e.logs.commits, row.kind, i)
                     && e.logs.commits[i].to == row.status
  {
    hide Runs.Reachable, PathFromDraft, Shipped, Announced, Told, KindsDiffer, OutboxOf,
      PaymentsSound, DisputesSound, PayoutSound, ProcessesSound;
    Runs.ReachableIsSound(t, e);
    var es := e.logs.commits;
    assert ShippedPath(es);
    forall kind ensures Told(e.logs.outbox, kind) <==> t.merchant.Some? && Announced(es, kind) {
      ToldIff(t, es, kind);
    }
    ToldOnce(t, es);
    forall row | row in e.logs.outbox
      ensures Some(row.merchant) == t.merchant && row.amount == t.amount
      ensures row.currency == t.currency && row.title == t.title
      ensures exists i :: 0 <= i < |es| && AnnouncedBy(es, row.kind, i) && es[i].to == row.status
    {
      RowsAreTrue(t, es, row);
    }
  }

  /** Which payments, disputes and payouts the timeline speaks of, commit by commit. */
  lemma TimelineTells(t: Terms, e: Escrow, i: nat)
    requires Runs.Reachable(Drafted(t), e, true) && i < |e.logs.commits|
    ensures i < |e.logs.timeline| && i < |e.logs.audit|
    ensures var edge, line, entry := e.logs.commits[i], e.logs.timeline[i], e.logs.audit[i];
      && line.oldState == entry.from == edge.from && line.newState == entry.to == edge.to && line.kind == entry.event
      && (line.kind == PAYMENT_VERIFIED <==> line.newState.PaymentProtected?)
      && (line.kind == CANCEL <==> line.newState.Cancelled?)
      && (line.kind == RAISE_DISPUTE <==> line.newState.Disputed?)
      && (line.kind == RESOLVE_DISPUTE_FOR_SELLER <==> line.oldState.Disputed? && line.newState.ReleaseProcessing?)
      && (line.kind == RESOLVE_DISPUTE_FOR_BUYER <==> line.newState.Refunded?)
      && (line.kind == PAYOUT_SUCCEEDED <==> line.newState.Completed?)
      && (line.kind == SELLER_PUBLISH <==> line.newState.LinkActive?)
      && (line.kind == BUYER_INITIATE_CHECKOUT <==> line.newState.PaymentPending?)
      && (line.kind == SELLER_START_DELIVERY <==> line.newState.DeliveryInProgress?)
      && (line.kind == SELLER_MARK_DELIVERED <==> line.newState.ConfirmationPending?)
      && (line.kind == AUTO_CONFIRM <==> edge.event.AutoConfirm?)
      && (line.kind == BUYER_CONFIRM <==>
            line.oldState.ConfirmationPending? && line.newState.ReleaseProcessing? && !edge.event.AutoConfirm?)
  {
    hide Runs.Reachable, TypeOf, OutboxOf, Transition, Shipped;
    hide PaymentsSound, DisputesSound, PayoutSound, ProcessesSound;
    Runs.ReachableIsSound(t, e);
    assert RowsReplay(e.logs.commits[i], e.logs.timeline[i], e.logs.audit[i]);
    LineTells(e.logs.commits[i]);
  }
}
