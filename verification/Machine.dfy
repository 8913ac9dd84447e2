/**
 The pure status machine of one escrow transaction, and what every path through it
 has in common.
 */
module Machine {

  datatype Status =
    | Draft | LinkActive | PaymentPending | PaymentProtected | DeliveryInProgress
    | ConfirmationPending | Disputed | ReleaseProcessing
    | Completed | Refunded | Cancelled | Expired

  datatype ReleaseRule = BuyerConfirmation | AutoAfterWindow | AdminOnly

  datatype PaymentSource = Webhook | ServerVerify | Client

  datatype Event =
    | SellerPublish | Cancel | BuyerInitiateCheckout | Expire
    | PaymentVerified(source: PaymentSource) | PaymentAbandoned
    | SellerStartDelivery | RaiseDispute | Refund | SellerMarkDelivered
    | BuyerConfirm | AutoConfirm
    | ResolveDisputeForSeller | ResolveDisputeForBuyer | WithdrawDispute
    | PayoutSucceeded | PayoutRetry | AdminIntervention

  datatype Context = Context(
    releaseRule: ReleaseRule, hasOpenDispute: bool, autoConfirmWindowElapsed: bool)

  datatype Rejection =
    | TerminalState | IllegalTransition | ClientSourceForbidden | DisputeOpen
    | ReleaseRuleForbidsAutoConfirm | AutoConfirmWindowNotElapsed

  datatype Outcome = Accept(next: Status) | Reject(reason: Rejection)

  predicate IsTerminal(s: Status) {
    s.Completed? || s.Refunded? || s.Cancelled? || s.Expired?
  }

  /** The only way into ReleaseProcessing: an open dispute freezes it. */
  function EnterReleaseProcessing(context: Context): Outcome {
    if context.hasOpenDispute then Reject(DisputeOpen) else Accept(ReleaseProcessing)
  }

  function ConfirmAutomatically(context: Context): Outcome {
    if context.releaseRule != AutoAfterWindow then Reject(ReleaseRuleForbidsAutoConfirm)
    else if !context.autoConfirmWindowElapsed then Reject(AutoConfirmWindowNotElapsed)
    else EnterReleaseProcessing(context)
  }

  function Transition(from: Status, event: Event, context: Context): Outcome {
    match from
    case Draft => (
      match event
      case SellerPublish => Accept(LinkActive)
      case Cancel => Accept(Cancelled)
      case _ => Reject(IllegalTransition))
    case LinkActive => (
      match event
      case BuyerInitiateCheckout => Accept(PaymentPending)
      case Cancel => Accept(Cancelled)
      case Expire => Accept(Expired)
      case _ => Reject(IllegalTransition))
    case PaymentPending => (
      match event
      case PaymentVerified(source) =>
        if source.Client? then Reject(ClientSourceForbidden) else Accept(PaymentProtected)
      case PaymentAbandoned => Accept(LinkActive)
      case Expire => Accept(Expired)
      case _ => Reject(IllegalTransition))
    case PaymentProtected => (
      match event
      case SellerStartDelivery => Accept(DeliveryInProgress)
      case RaiseDispute => Accept(Disputed)
      case Refund => Accept(Refunded)
      case _ => Reject(IllegalTransition))
    case DeliveryInProgress => (
      match event
      case SellerMarkDelivered => Accept(ConfirmationPending)
      case RaiseDispute => Accept(Disputed)
      case _ => Reject(IllegalTransition))
    case ConfirmationPending => (
      match event
      case BuyerConfirm => EnterReleaseProcessing(context)
      case AutoConfirm => ConfirmAutomatically(context)
      case RaiseDispute => Accept(Disputed)
      case _ => Reject(IllegalTransition))
    case Disputed => (
      match event
      case ResolveDisputeForSeller => EnterReleaseProcessing(context)
      case ResolveDisputeForBuyer => Accept(Refunded)
      case WithdrawDispute => Accept(PaymentProtected)
      case _ => Reject(IllegalTransition))
    case ReleaseProcessing => (
      match event
      case PayoutSucceeded => Accept(Completed)
      case PayoutRetry => EnterReleaseProcessing(context)
      case AdminIntervention => Accept(Disputed)
      case _ => Reject(IllegalTransition))
    case Completed => Reject(TerminalState)
    case Refunded => Reject(TerminalState)
    case Cancelled => Reject(TerminalState)
    case Expired => Reject(TerminalState)
  }

  // --- Events that some caller in the shipped code raises -------------------------------

  predicate Shipped(event: Event) {
    match event
    case PaymentVerified(source) => !source.Client?
    case Expire => false
    case PaymentAbandoned => false
    case Refund => false
    case WithdrawDispute => false
    case PayoutRetry => false
    case AdminIntervention => false
    case _ => true
  }

  /** Events whose edge leads back to a status the transaction has already been in. */
  predicate Rewinds(event: Event) {
    event.PaymentAbandoned? || event.WithdrawDispute? || event.PayoutRetry? || event.AdminIntervention?
  }

  function Rank(s: Status): nat {
    match s
    case Draft => 0
    case LinkActive => 1
    case PaymentPending => 2
    case PaymentProtected => 3
    case DeliveryInProgress => 4
    case ConfirmationPending => 5
    case Disputed => 6
    case ReleaseProcessing => 7
    case _ => 8
  }

  /** `b` is `a`, or can be reached from it by shipped events. */
  predicate Onward(a: Status, b: Status) {
    || a == b
    || (&& Rank(a) < Rank(b)
        && !b.Expired?
        && (b.Cancelled? ==> Rank(a) <= Rank(LinkActive))
        && (b.Refunded? ==> Rank(a) <= Rank(Disputed)))
  }

  // --- Where each event is accepted -----------------------------------------------------------

  /** `to` is where `event` leads from `from`. */
  predicate Leads(from: Status, event: Event, context: Context, to: Status) {
    Transition(from, event, context) == Accept(to)
  }

  /**
   Event by event, where the shipped ones up to delivery are accepted: a cancellation until checkout, every
   other one in one status only.
   */
  lemma TradeAcceptedIff(from: Status, context: Context, to: Status)
    ensures Leads(from, SellerPublish, context, to) <==> from.Draft? && to.LinkActive?
    ensures Leads(from, Cancel, context, to) <==> Rank(from) < Rank(PaymentPending) && to.Cancelled?
    ensures Leads(from, BuyerInitiateCheckout, context, to) <==> from.LinkActive? && to.PaymentPending?
    ensures forall source ::
      Leads(from, PaymentVerified(source), context, to) <==>
        from.PaymentPending? && !source.Client? && to.PaymentProtected?
    ensures Leads(from, SellerStartDelivery, context, to) <==> from.PaymentProtected? && to.DeliveryInProgress?
    ensures Leads(from, SellerMarkDelivered, context, to) <==> from.DeliveryInProgress? && to.ConfirmationPending?
  {
  }

  /** And from there on: a dispute from protection until the ruling, every other event in one status only. */
  lemma RulingAcceptedIff(from: Status, context: Context, to: Status)
    ensures Leads(from, RaiseDispute, context, to) <==>
      Onward(PaymentProtected, from) && Rank(from) < Rank(Disputed) && to.Disputed?
    ensures Leads(from, BuyerConfirm, context, to) <==>
      from.ConfirmationPending? && !context.hasOpenDispute && to.ReleaseProcessing?
    ensures Leads(from, AutoConfirm, context, to) <==>
      && from.ConfirmationPending? && !context.hasOpenDispute && to.ReleaseProcessing?
      && context.releaseRule.AutoAfterWindow? && context.autoConfirmWindowElapsed
    ensures Leads(from, ResolveDisputeForSeller, context, to) <==>
      from.Disputed? && !context.hasOpenDispute && to.ReleaseProcessing?
    ensures Leads(from, ResolveDisputeForBuyer, context, to) <==> from.Disputed? && to.Refunded?
    ensures Leads(from, PayoutSucceeded, context, to) <==> from.ReleaseProcessing? && to.Completed?
  {
  }

  /** And where the events without a caller would be. */
  lemma UnshippedAcceptedIff(from: Status, context: Context, to: Status)
    ensures Leads(from, Expire, context, to) <==> (from.LinkActive? || from.PaymentPending?) && to.Expired?
    ensures Leads(from, PaymentAbandoned, context, to) <==> from.PaymentPending? && to.LinkActive?
    ensures Leads(from, Refund, context, to) <==> from.PaymentProtected? && to.Refunded?
    ensures Leads(from, WithdrawDispute, context, to) <==> from.Disputed? && to.PaymentProtected?
    ensures Leads(from, PayoutRetry, context, to) <==>
      from.ReleaseProcessing? && !context.hasOpenDispute && to.ReleaseProcessing?
    ensures Leads(from, AdminIntervention, context, to) <==> from.ReleaseProcessing? && to.Disputed?
  {
  }

  predicate AcceptedFrom(from: Status, event: Event, source: PaymentSource, context: Context) {
    Transition(from, if event.PaymentVerified? then PaymentVerified(source) else event, context).Accept?
  }

  /** The event would be accepted here in some context and from some source. */
  ghost predicate Possible(from: Status, event: Event) {
    exists context, source :: AcceptedFrom(from, event, source, context)
  }

  /** Why an event is refused: the status first, then the source, the rule, the window, and last the open dispute. */
  lemma RefusedBecause(from: Status, event: Event, context: Context, reason: Rejection)
    ensures Transition(from, event, context) == Reject(reason) <==>
      match reason
      case TerminalState => IsTerminal(from)
      case IllegalTransition => !IsTerminal(from) && !Possible(from, event)
      case ClientSourceForbidden => from.PaymentPending? && event == PaymentVerified(Client)
      case ReleaseRuleForbidsAutoConfirm =>
        from.ConfirmationPending? && event.AutoConfirm? && !context.releaseRule.AutoAfterWindow?
      case AutoConfirmWindowNotElapsed =>
        from.ConfirmationPending? && event.AutoConfirm? && context.releaseRule.AutoAfterWindow?
          && !context.autoConfirmWindowElapsed
      case DisputeOpen =>
        && context.hasOpenDispute
        && (|| (from.ConfirmationPending? && event.BuyerConfirm?)
            || (from.Disputed? && event.ResolveDisputeForSeller?)
            || (from.ReleaseProcessing? && event.PayoutRetry?)
            || (from.ConfirmationPending? && event.AutoConfirm?
                && context.releaseRule.AutoAfterWindow? && context.autoConfirmWindowElapsed))
  {
    PossibleIff(from, event);
  }

  lemma PossibleIff(from: Status, event: Event)
    ensures Possible(from, event) <==> AcceptedFrom(from, event, Webhook, WILLING)
  {
    forall context, source | AcceptedFrom(from, event, source, context)
      ensures AcceptedFrom(from, event, Webhook, WILLING) {
    }
  }

  // --- Paths --------------------------------------------------------------------------

  /** One committed transition. */
  datatype Edge = Edge(from: Status, event: Event, context: Context, to: Status)

  ghost predicate Path(es: seq<Edge>) {
    && (forall i :: 0 <= i < |es| ==> Transition(es[i].from, es[i].event, es[i].context) == Accept(es[i].to))
    && (forall i :: 0 < i < |es| ==> es[i].from == es[i - 1].to)
  }

  ghost predicate PathFromDraft(es: seq<Edge>) {
    Path(es) && (es != [] ==> es[0].from == Draft)
  }

  function LastStatus(es: seq<Edge>): Status {
    if es == [] then Draft else es[|es| - 1].to
  }

  predicate Entered(es: seq<Edge>, s: Status) {
    exists i :: 0 <= i < |es| && es[i].to == s
  }

  /** The status held after the first `i` edges. */
  function StatusAt(es: seq<Edge>, i: nat): Status
    requires i <= |es|
  {
    LastStatus(es[..i])
  }

  lemma {:induction false} StatusAtPrefix(es: seq<Edge>, i: nat)
    requires PathFromDraft(es) && i <= |es|
    ensures i < |es| ==> StatusAt(es, i) == es[i].from
    ensures i > 0 ==> StatusAt(es, i) == es[i - 1].to
  {
    if i > 0 {
      assert es[..i][i - 1] == es[i - 1];
    }
  }

  /** Along a path without rewinding events the rank grows by at least one per edge. */
  lemma {:induction false} RankGrows(es: seq<Edge>, i: nat, j: nat)
    requires PathFromDraft(es) && i <= j <= |es|
    requires forall k :: 0 <= k < |es| ==> !Rewinds(es[k].event)
    ensures Rank(StatusAt(es, i)) + (j - i) <= Rank(StatusAt(es, j))
    decreases j - i
  {
    if i < j {
      RankGrows(es, i, j - 1);
      StatusAtPrefix(es, j - 1);
      StatusAtPrefix(es, j);
    }
  }

  ghost predicate Revisits(es: seq<Edge>) {
    exists i, j :: 0 <= i < j <= |es| && StatusAt(es, i) == StatusAt(es, j)
  }

  /** Without a rewinding event no status recurs, and a transaction commits at most eight times. */
  lemma {:induction false} NoRevisit(es: seq<Edge>)
    requires PathFromDraft(es)
    requires forall k :: 0 <= k < |es| ==> !Rewinds(es[k].event)
    ensures !Revisits(es)
    ensures |es| <= 8
  {
    RankGrows(es, 0, |es|);
    if i, j :| 0 <= i < j <= |es| && StatusAt(es, i) == StatusAt(es, j) {
      RankGrows(es, i, j);
    }
  }

  /** Context in which every guarded edge is open. */
  const WILLING := Context(AutoAfterWindow, false, true)

  /** The straight path from Draft to ReleaseProcessing, through a dispute when asked. */
  function Road(disputed: bool): seq<Edge> {
    [ Edge(Draft, SellerPublish, WILLING, LinkActive),
      Edge(LinkActive, BuyerInitiateCheckout, WILLING, PaymentPending),
      Edge(PaymentPending, PaymentVerified(Webhook), WILLING, PaymentProtected) ]
    + (if disputed
       then [ Edge(PaymentProtected, RaiseDispute, WILLING, Disputed),
              Edge(Disputed, ResolveDisputeForSeller, WILLING, ReleaseProcessing) ]
       else [ Edge(PaymentProtected, SellerStartDelivery, WILLING, DeliveryInProgress),
              Edge(DeliveryInProgress, SellerMarkDelivered, WILLING, ConfirmationPending),
              Edge(ConfirmationPending, BuyerConfirm, WILLING, ReleaseProcessing) ])
  }

  function RewindingPath(event: Event): seq<Edge> {
    match event
    case PaymentAbandoned => Road(false)[..2] + [Edge(PaymentPending, event, WILLING, LinkActive)]
    case WithdrawDispute => Road(true)[..4] + [Edge(Disputed, event, WILLING, PaymentProtected)]
    case PayoutRetry => Road(false) + [Edge(ReleaseProcessing, event, WILLING, ReleaseProcessing)]
    case _ => Road(true) + [Edge(ReleaseProcessing, event, WILLING, Disputed)]
  }

  lemma RoadIsPath(disputed: bool)
    ensures PathFromDraft(Road(disputed)) && |Road(disputed)| == if disputed then 5 else 6
  {
  }

  /** A path extended by an event that leads back to the status before its edge `i`. */
  lemma TurnBack(es: seq<Edge>, last: Edge, i: nat)
    requires PathFromDraft(es) && es != [] && i < |es|
    requires last.from == es[|es| - 1].to && Transition(last.from, last.event, last.context) == Accept(last.to)
    requires last.to == es[i].from || last.to == es[i].to
    ensures PathFromDraft(es + [last]) && Revisits(es + [last])
  {
    hide Transition;
    var all := es + [last];
    assert forall k :: 0 <= k < |es| ==> all[k] == es[k];
    var k := if last.to == es[i].from then i else i + 1;
    StatusAtPrefix(all, k);
    StatusAtPrefix(all, |all|);
    assert StatusAt(all, k) == StatusAt(all, |all|);
  }

  lemma PrefixIsPath(es: seq<Edge>, n: nat)
    requires PathFromDraft(es) && 0 < n <= |es|
    ensures PathFromDraft(es[..n])
  {
    hide Transition;
  }

  lemma RewindingPathRevisits(event: Event)
    requires Rewinds(event)
    ensures PathFromDraft(RewindingPath(event)) && Revisits(RewindingPath(event))
    ensures forall k :: 0 <= k < |RewindingPath(event)| ==>
      Shipped(RewindingPath(event)[k].event) || RewindingPath(event)[k].event == event
  {
    hide Revisits, PathFromDraft;
    RoadIsPath(false);
    RoadIsPath(true);
    match event
    case PaymentAbandoned =>
      PrefixIsPath(Road(false), 2);
      TurnBack(Road(false)[..2], Edge(PaymentPending, event, WILLING, LinkActive), 1);
    case WithdrawDispute =>
      PrefixIsPath(Road(true), 4);
      TurnBack(Road(true)[..4], Edge(Disputed, event, WILLING, PaymentProtected), 3);
    case PayoutRetry => TurnBack(Road(false), Edge(ReleaseProcessing, event, WILLING, ReleaseProcessing), 5);
    case AdminIntervention => TurnBack(Road(true), Edge(ReleaseProcessing, event, WILLING, Disputed), 4);
    case _ =>
  }

  ghost predicate Uses(es: seq<Edge>, allowed: Event -> bool) {
    forall k :: 0 <= k < |es| ==> allowed(es[k].event)
  }

  /**
   Exactly which callers make a status recur. Given callers for the shipped events and
   possibly more, some path revisits a status if and only if one of the callers raises
   one of the four rewinding events. Status-only compare-and-set is sound in the other
   case only.
   */
  lemma StatusRecursIff(allowed: Event -> bool)
    requires forall e :: Shipped(e) ==> allowed(e)
    ensures (exists es :: PathFromDraft(es) && Uses(es, allowed) && Revisits(es))
       <==> (exists e :: Rewinds(e) && allowed(e))
  {
    if e :| Rewinds(e) && allowed(e) {
      RewindingPathRevisits(e);
      assert Uses(RewindingPath(e), allowed);
    }
    if es: seq<Edge> :| PathFromDraft(es) && Uses(es, allowed) && Revisits(es) {
      if forall k :: 0 <= k < |es| ==> !Rewinds(es[k].event) {
        NoRevisit(es);
      } else {
        var k :| 0 <= k < |es| && Rewinds(es[k].event);
        assert Rewinds(es[k].event) && allowed(es[k].event);
      }
    }
  }

  /** Exactly what enters ReleaseProcessing: never past an open dispute, and automatically only in time. */
  lemma EntersReleaseIff(from: Status, event: Event, context: Context)
    ensures Transition(from, event, context) == Accept(ReleaseProcessing)
      <==> && !context.hasOpenDispute
           && (|| (from.ConfirmationPending? && event.BuyerConfirm?)
               || (from.ConfirmationPending? && event.AutoConfirm?
                   && context.releaseRule.AutoAfterWindow? && context.autoConfirmWindowElapsed)
               || (from.Disputed? && event.ResolveDisputeForSeller?)
               || (from.ReleaseProcessing? && event.PayoutRetry?))
  {
  }

  /** A terminal status accepts nothing, and every other status accepts some shipped event. */
  lemma StuckIffTerminal(from: Status)
    ensures IsTerminal(from) <==> forall event, context :: Shipped(event) ==> Transition(from, event, context).Reject?
  {
    if !IsTerminal(from) {
      var event := match from
        case Draft => SellerPublish
        case LinkActive => BuyerInitiateCheckout
        case PaymentPending => PaymentVerified(Webhook)
        case PaymentProtected => RaiseDispute
        case DeliveryInProgress => RaiseDispute
        case ConfirmationPending => RaiseDispute
        case Disputed => ResolveDisputeForBuyer
        case _ => PayoutSucceeded;
      assert Shipped(event) && Transition(from, event, WILLING).Accept?;
    }
  }

  /** Shipped events go onward only. */
  lemma {:induction false} ShippedPathIsOnward(es: seq<Edge>, i: nat, j: nat)
    requires PathFromDraft(es) && i <= j <= |es|
    requires forall k :: 0 <= k < |es| ==> Shipped(es[k].event)
    ensures Onward(StatusAt(es, i), StatusAt(es, j))
    decreases j - i
  {
    if i < j {
      ShippedPathIsOnward(es, i, j - 1);
      StatusAtPrefix(es, j - 1);
      StatusAtPrefix(es, j);
    }
  }

  function Hop(a: Status, b: Status): Event {
    match a
    case Draft => if b.Cancelled? then Cancel else SellerPublish
    case LinkActive => if b.Cancelled? then Cancel else BuyerInitiateCheckout
    case PaymentPending => PaymentVerified(Webhook)
    case PaymentProtected => if Rank(b) <= Rank(ConfirmationPending) then SellerStartDelivery else RaiseDispute
    case DeliveryInProgress => if b.ConfirmationPending? then SellerMarkDelivered else RaiseDispute
    case ConfirmationPending => RaiseDispute
    case Disputed => if b.Refunded? then ResolveDisputeForBuyer else ResolveDisputeForSeller
    case _ => PayoutSucceeded
  }

  /** And everything onward can be reached by them: some shipped path leads from `a` to `b`. */
  lemma {:induction false} OnwardIsWalkable(a: Status, b: Status) returns (es: seq<Edge>)
    requires Onward(a, b)
    ensures Path(es) && Uses(es, Shipped)
    ensures if es == [] then a == b else es[0].from == a && es[|es| - 1].to == b
    decreases 8 - Rank(a)
  {
    if a == b {
      es := [];
    } else {
      var next := Transition(a, Hop(a, b), WILLING).next;
      var rest := OnwardIsWalkable(next, b);
      es := [Edge(a, Hop(a, b), WILLING, next)] + rest;
      assert forall i :: 0 < i < |es| ==> es[i] == rest[i - 1];
    }
  }

  // --- Milestones ---------------------------------------------------------------------

  /** Statuses a transaction must have entered by the time it enters `s`. */
  function Milestones(s: Status): set<Status> {
    match s
    case Draft => {}
    case LinkActive => {LinkActive}
    case PaymentPending => {LinkActive, PaymentPending}
    case PaymentProtected => {LinkActive, PaymentPending, PaymentProtected}
    case DeliveryInProgress => {LinkActive, PaymentPending, PaymentProtected, DeliveryInProgress}
    case ConfirmationPending =>
      {LinkActive, PaymentPending, PaymentProtected, DeliveryInProgress, ConfirmationPending}
    case Disputed => {LinkActive, PaymentPending, PaymentProtected, Disputed}
    case ReleaseProcessing => {LinkActive, PaymentPending, PaymentProtected, ReleaseProcessing}
    case Completed => {LinkActive, PaymentPending, PaymentProtected, ReleaseProcessing, Completed}
    case Refunded => {LinkActive, PaymentPending, PaymentProtected, Refunded}
    case Cancelled => {Cancelled}
    case Expired => {LinkActive, Expired}
  }

  /** On any path of the whole machine, every milestone of an entered status was entered too. */
  lemma {:induction false} MilestonesEntered(es: seq<Edge>, i: nat, m: Status)
    requires PathFromDraft(es) && i < |es| && m in Milestones(es[i].to)
    ensures exists j :: 0 <= j <= i && es[j].to == m
  {
    if m == es[i].to {
    } else {
      assert i > 0;
      assert m in Milestones(es[i - 1].to);
      MilestonesEntered(es, i - 1, m);
      var j :| 0 <= j <= i - 1 && es[j].to == m;
      assert 0 <= j <= i && es[j].to == m;
    }
  }

  /** A release without delivery: the seller wins a dispute raised right after protection. */
  lemma CompletedWithoutDelivery()
    ensures exists es ::
      && PathFromDraft(es) && Uses(es, Shipped)
      && Entered(es, Completed) && !Entered(es, ConfirmationPending)
  {
    var es := Road(true) + [Edge(ReleaseProcessing, PayoutSucceeded, WILLING, Completed)];
    assert PathFromDraft(es) && Uses(es, Shipped);
    assert es[5].to == Completed;
    assert !Entered(es, ConfirmationPending);
  }

  /** A dispute that was raised before delivery and ruled for the seller. */
  ghost predicate RuledBeforeDelivery(es: seq<Edge>) {
    exists i, j :: 0 <= i < j < |es| && RaisedEarly(es[i]) && es[j].event.ResolveDisputeForSeller?
  }

  predicate RaisedEarly(edge: Edge) { edge.event.RaiseDispute? && Rank(edge.from) <= Rank(DeliveryInProgress) }

  /** Going back from a release that no delivery preceded, one comes to the ruling and to its dispute. */
  lemma {:induction false} TraceRelease(es: seq<Edge>, k: nat) returns (i: nat, j: nat)
    requires PathFromDraft(es) && Uses(es, Shipped) && !Entered(es, ConfirmationPending)
    requires k < |es| && (es[k].to.Completed? || es[k].to.ReleaseProcessing?)
    ensures i < j <= k && RaisedEarly(es[i]) && es[j].event.ResolveDisputeForSeller?
  {
    assert k > 0 && es[k].from == es[k - 1].to;
    assert es[k - 1].to != ConfirmationPending;
    if es[k].to.Completed? {
      i, j := TraceRelease(es, k - 1);
    } else {
      assert es[k].from.Disputed? && k > 1 && es[k - 1].from == es[k - 2].to;
      assert es[k - 2].to != ConfirmationPending;
      i, j := k - 1, k;
    }
  }

  /** A dispute raised early closes the way to a delivery. */
  lemma EarlyDisputeUndelivered(es: seq<Edge>, i: nat)
    requires PathFromDraft(es) && Uses(es, Shipped) && i < |es| && RaisedEarly(es[i])
    ensures !Entered(es, ConfirmationPending)
  {
    EarlyLeadsToDisputed(es[i]);
    hide Transition, Shipped, PathFromDraft, Uses;
    if k: nat :| k < |es| && es[k].to == ConfirmationPending {
      if k < i {
        EdgesAreOnward(es, k, i);
      } else {
        EdgesAreOnward(es, i, k);
      }
    }
  }

  /** From one edge of a shipped path to a later one, both its ends are onward. */
  lemma EdgesAreOnward(es: seq<Edge>, i: nat, j: nat)
    requires PathFromDraft(es) && Uses(es, Shipped) && i <= j < |es|
    ensures Onward(es[i].to, es[j].to) && (i < j ==> Onward(es[i].to, es[j].from))
  {
    hide Transition, Shipped, Onward, PathFromDraft, LastStatus;
    StatusAtPrefix(es, i + 1);
    StatusAtPrefix(es, j);
    StatusAtPrefix(es, j + 1);
    ShippedPathIsOnward(es, i + 1, j + 1);
    if i < j {
      ShippedPathIsOnward(es, i + 1, j);
    }
  }

  lemma EarlyLeadsToDisputed(edge: Edge)
    requires RaisedEarly(edge) && Transition(edge.from, edge.event, edge.context) == Accept(edge.to)
    ensures edge.to == Disputed
  {
  }

  /** Exactly which shipped histories are released without a delivery. */
  lemma UndeliveredReleaseIff(es: seq<Edge>)
    requires PathFromDraft(es) && Uses(es, Shipped) && Entered(es, Completed)
    ensures !Entered(es, ConfirmationPending) <==> RuledBeforeDelivery(es)
  {
    hide Transition;
    if RuledBeforeDelivery(es) {
      var i, j :| 0 <= i < j < |es| && RaisedEarly(es[i]) && es[j].event.ResolveDisputeForSeller?;
      EarlyDisputeUndelivered(es, i);
    } else if !Entered(es, ConfirmationPending) {
      var k: nat :| k < |es| && es[k].to == Completed;
      var i, j := TraceRelease(es, k);
    }
  }
}
