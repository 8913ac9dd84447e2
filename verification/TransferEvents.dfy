/** Transfer outcomes from the provider's payload to the payout row: webhook, dispatch and protocol together. */
module TransferEvents {
  import opened Wrappers
  import opened Machine
  import opened EscrowProtocol
  import opened EscrowInvariant
  import opened EscrowCalls
  import opened TransferReferences
  import opened Webhooks

  /** The event the provider sends about a decided transfer. */
  function OutcomeEventName(state: TransferState): string
    requires !state.Pending?
  {
    match state
    case Succeeded => "transfer.success"
    case Failed => "transfer.failed"
    case Reversed => "transfer.reversed"
  }

  /** A payload about attempt `a` of transaction `tx`: kind, reference and transfer code; anything else may be there. */
  predicate ReportsOutcome(p: Payload, tx: string, a: Attempt, state: TransferState) {
    && !state.Pending? && p.event == OutcomeEventName(state)
    && p.reference == Some(Reference(tx, a)) && Truthy(p.transferCode)
  }

  /** The payout service of one transaction, as `route` calls it. */
  function PayoutHandler(tx: string): Handler<Escrow> {
    (e: Escrow, d: Dispatch) =>
      match d
      case TransferPaid(reference, _) =>
        if reference != ReleaseKey(tx) || e.payout.None? then Reaction(e, Result.Err("not found"))
        else Reaction(MarkedPaid(e, Base), Ok(true))
      case TransferLost(reference, reversed, _) =>
        if reference != ReleaseKey(tx) || e.payout.None? then Reaction(e, Result.Err("not found"))
        else Reaction(MarkedFailed(e, if reversed then Reversed else TransferState.Failed), Ok(true))
      case _ => Reaction(e, Ok(false))
  }

  lemma KeysDiffer(tx: string, a: Attempt)
    requires PlainId(tx)
    ensures Reference(tx, a) == ReleaseKey(tx) <==> a == Base
    ensures Reference(tx, a) != ""
  {
    if a.Retry? {
      RetryReferenceIsNoKey(tx, tx, a.n);
    }
  }

  /**
   The payload of a provider outcome, routed, has exactly the effect the protocol gives that outcome event:
   success settles, failure and reversal are recorded as such, and a retry's outcome reaches no row.
   */
  lemma OutcomeHasItsEffect(tx: string, e: Escrow, a: Attempt, p: Payload)
    requires PlainId(tx) && Inv(e) && a in e.transfers && a !in e.seen
    requires ReportsOutcome(p, tx, a, e.transfers[a].state)
    ensures React(e, p, PayoutHandler(tx)).state.(seen := e.seen + {a}) == OutcomeHandled(e, a)
    ensures React(e, p, PayoutHandler(tx)).outcome.Ok? <==> a == Base
  {
    hide Inv, Route, Applied, Reference;
    KeysDiffer(tx, a);
    HasRow(e, a);
    var reference, state := Reference(tx, a), e.transfers[a].state;
    var d := match state
      case Succeeded => TransferPaid(reference, p.transferCode.value)
      case Failed => TransferLost(reference, false, Or(p.reason, p.status).GetOr("Paystack reported " + p.event))
      case _ => TransferLost(reference, true, Or(p.reason, p.status).GetOr("Paystack reported " + p.event));
    RouteIff(p, d);
    SeenElsewhere(e, a);
  }

  lemma HasRow(e: Escrow, a: Attempt)
    requires Inv(e) && a in e.transfers
    ensures e.payout.Some?
  {
    hide LogsAgree, PaymentsSound, DisputesSound, ProcessesSound;
  }

  /** Settling and failing do not look at the recorded events. */
  lemma SeenElsewhere(e: Escrow, a: Attempt)
    ensures MarkedPaid(e, Base).(seen := e.seen + {a}) == MarkedPaid(e.(seen := e.seen + {a}), Base)
    ensures forall outcome ::
      MarkedFailed(e, outcome).(seen := e.seen + {a}) == MarkedFailed(e.(seen := e.seen + {a}), outcome)
  {
    SameFreezing(e, e.(seen := e.seen + {a}));
    hide AnyFreezing, Transition, Appended;
  }

  /** What the outcome does to the row, in the row's own words. */
  lemma OutcomeOnRow(e: Escrow)
    requires Inv(e) && Base in e.transfers && Base !in e.seen && !e.transfers[Base].state.Pending? && Unsettled(e)
    ensures var e' := OutcomeHandled(e, Base);
      && e'.payout.Some?
      && (e.transfers[Base].state.Succeeded? <==> e'.payout.value.status.Success?)
      && (e.transfers[Base].state.Succeeded? ==> e'.payout.value.code == Some(Base))
      && (e.transfers[Base].state.Failed? ==> e'.payout.value.status.Failure? && e'.status == e.status)
      && (e.transfers[Base].state.Reversed? ==> e'.payout.value.status.Reversal? && e'.status == e.status)
    ensures e.status.ReleaseProcessing? ==>
      (OutcomeHandled(e, Base).status.Completed? <==> e.transfers[Base].state.Succeeded?)
  {
    hide Inv, Appended, AnyFreezing;
  }

  /** Two transfers' events are never taken for one another, whatever they report. */
  lemma OutcomesAreTold(tx: string, tx': string, a: Attempt, b: Attempt, p: Payload, q: Payload)
    requires PlainId(tx) && PlainId(tx') && p.id.None? && q.id.None?
    requires exists state :: ReportsOutcome(p, tx, a, state)
    requires exists state :: ReportsOutcome(q, tx', b, state)
    ensures EventId(p) == EventId(q) ==> tx == tx' && a == b && p.event == q.event
  {
    hide Reference;
    if EventId(p) == EventId(q) {
      SameEventIdIff(p, q);
      ReferenceInjective(tx, tx', a, b);
    }
  }
}
