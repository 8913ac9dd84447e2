/**
 The processor of signed provider events: an age check, a record per event id, then routing.
 The business state and its handlers are parameters.
 */
module Webhooks {
  import opened Wrappers

  /** The signed body. An absent or null field is None. */
  datatype Payload = Payload(
    event: string, id: Option<string>, reference: Option<string>, transferCode: Option<string>,
    customer: Option<string>, accountNumber: Option<string>, bank: Option<string>,
    reason: Option<string>, status: Option<string>,
    paidAt: Option<string>, created_at: Option<string>, createdAt: Option<string>)

  /** What a payload asks the services to do. */
  datatype Dispatch =
    | ChargeSucceeded(reference: string, customer: Option<string>)
    | AccountAssigned(owner: string, account: string, bank: string)
    | TransferPaid(reference: string, code: string)
    | TransferLost(reference: string, reversed: bool, why: string)

  /** A handler's effect on the business state. A failed handler may have changed part of it. */
  datatype Reaction<S> = Reaction(state: S, outcome: Result<bool, string>)

  datatype Processing = Handled | Unhandled | Failed(error: string)

  datatype Reply = Stale | Duplicate | Received(handled: bool)
  datatype WebhookError = BadSignature | RoutingFailed(error: string)

  type Handler<!S> = (S, Dispatch) -> Reaction<S>
  type DateParser = string -> Option<int>

  function Or(a: Option<string>, b: Option<string>): Option<string> {
    if a.Some? then a else b
  }

  /** Present and not empty. */
  predicate Truthy(s: Option<string>) { s.Some? && s.value != "" }

  function EventKey(p: Payload): string {
    Or(p.id, p.reference).GetOr("unknown")
  }

  function EventId(p: Payload): string {
    p.event + ":" + EventKey(p)
  }

  /** The first present stamp decides; without a readable one nothing is stale. */
  predicate IsStale(p: Payload, now: int, maxAge: int, parse: DateParser) {
    var stamp := Or(Or(p.paidAt, p.created_at), p.createdAt);
    Truthy(stamp) && parse(stamp.value).Some? && now - parse(stamp.value).value > maxAge
  }

  function Route(p: Payload): Option<Dispatch> {
    match p.event
    case "charge.success" =>
      if !Truthy(p.reference) then None
      else Some(ChargeSucceeded(p.reference.value, if Truthy(p.customer) then p.customer else None))
    case "dedicatedaccount.assign.success" =>
      if !Truthy(p.customer) || !Truthy(p.accountNumber) then None
      else Some(AccountAssigned(p.customer.value, p.accountNumber.value, p.bank.GetOr("bank")))
    case "transfer.success" =>
      if !Truthy(p.reference) || !Truthy(p.transferCode) then None
      else Some(TransferPaid(p.reference.value, p.transferCode.value))
    case "transfer.failed" =>
      if !Truthy(p.reference) then None
      else Some(TransferLost(p.reference.value, false,
        Or(p.reason, p.status).GetOr("Paystack reported transfer.failed")))
    case "transfer.reversed" =>
      if !Truthy(p.reference) then None
      else Some(TransferLost(p.reference.value, true,
        Or(p.reason, p.status).GetOr("Paystack reported transfer.reversed")))
    case _ => None
  }

  /** Kind by kind, which payload asks for what. */
  predicate AsksFor(p: Payload, d: Dispatch) {
    match d
    case ChargeSucceeded(reference, customer) =>
      && p.event == "charge.success" && p.reference == Some(reference) && reference != ""
      && customer == (if Truthy(p.customer) then p.customer else None)
    case AccountAssigned(owner, account, bank) =>
      && p.event == "dedicatedaccount.assign.success" && p.customer == Some(owner) && owner != ""
      && p.accountNumber == Some(account) && account != "" && bank == p.bank.GetOr("bank")
    case TransferPaid(reference, code) =>
      && p.event == "transfer.success" && p.reference == Some(reference) && reference != ""
      && p.transferCode == Some(code) && code != ""
    case TransferLost(reference, reversed, why) =>
      && p.event == (if reversed then "transfer.reversed" else "transfer.failed")
      && p.reference == Some(reference) && reference != ""
      && why == (match p.reason
                 case Some(reason) => reason
                 case None => p.status.GetOr("Paystack reported " + p.event))
  }

  lemma RouteIff(p: Payload, d: Dispatch)
    ensures Route(p) == Some(d) <==> AsksFor(p, d)
  {
    assert "Paystack reported " + "transfer.failed" == "Paystack reported transfer.failed";
    assert "Paystack reported " + "transfer.reversed" == "Paystack reported transfer.reversed";
  }

  lemma RoutesWhatIsAsked(p: Payload)
    ensures forall d :: Route(p) == Some(d) <==> AsksFor(p, d)
  {
    forall d ensures Route(p) == Some(d) <==> AsksFor(p, d) {
      RouteIff(p, d);
    }
  }

  function React<S>(state: S, p: Payload, handle: Handler<S>): Reaction<S> {
    match Route(p)
    case None => Reaction(state, Ok(false))
    case Some(d) => handle(state, d)
  }

  function Recorded(outcome: Result<bool, string>): Processing {
    match outcome
    case Ok(handled) => if handled then Handled else Unhandled
    case Err(error) => Failed(error)
  }

  // --- The processor ------------------------------------------------------------------------

  /** Configuration of one deployment. */
  datatype Setup<!S> = Setup(handle: Handler<S>, parse: DateParser, maxAge: int)

  datatype Store<S> = Store(state: S, events: map<string, Processing>)

  datatype Delivery = Delivery(payload: Payload, now: int)

  predicate Fresh<S>(c: Setup<S>, d: Delivery) { !IsStale(d.payload, d.now, c.maxAge, c.parse) }

  /** One signed delivery. */
  function Deliver<S>(c: Setup<S>, s: Store<S>, d: Delivery): Store<S> {
    if !Fresh(c, d) || EventId(d.payload) in s.events then s
    else
      var reaction := React(s.state, d.payload, c.handle);
      Store(reaction.state, s.events[EventId(d.payload) := Recorded(reaction.outcome)])
  }

  class WebhookService<S> {
    const setup: Setup<S>
    var state: S
    var events: map<string, Processing>

    constructor (c: Setup<S>, initial: S)
      ensures setup == c && state == initial && events == map[]
    {
      setup, state, events := c, initial, map[];
    }

    /** Record first, route second, then write the result: a failed event stays recorded. */
    method HandleEvent(signed: bool, p: Payload, now: int) returns (r: Result<Reply, WebhookError>)
      modifies this
      ensures !signed ==> r == Err(BadSignature) && state == old(state) && events == old(events)
      ensures signed ==> Store(state, events) == Deliver(setup, old(Store(state, events)), Delivery(p, now))
      ensures signed ==> match r
        case Ok(Stale) => IsStale(p, now, setup.maxAge, setup.parse)
        case Ok(Duplicate) => !IsStale(p, now, setup.maxAge, setup.parse) && EventId(p) in old(events)
        case Ok(Received(handled)) =>
          EventId(p) !in old(events) && EventId(p) in events
            && events[EventId(p)] == (if handled then Handled else Unhandled)
        case Err(e) =>
          EventId(p) !in old(events) && e.RoutingFailed?
            && EventId(p) in events && events[EventId(p)] == Failed(e.error)
      ensures signed && !IsStale(p, now, setup.maxAge, setup.parse) && EventId(p) !in old(events) ==>
        && (forall d :: AsksFor(p, d) ==> state == setup.handle(old(state), d).state)
        && ((forall d :: !AsksFor(p, d)) ==> state == old(state) && r == Ok(Received(false)))
    {
      RoutesWhatIsAsked(p);
      if !signed {
        return Err(BadSignature);
      }
      if IsStale(p, now, setup.maxAge, setup.parse) {
        return Ok(Stale);
      }
      var id := EventId(p);
      if id in events {
        return Ok(Duplicate);
      }
      events := events[id := Unhandled];
      var reaction := React(state, p, setup.handle);
      state := reaction.state;
      events := events[id := Recorded(reaction.outcome)];
      match reaction.outcome {
        case Ok(handled) => return Ok(Received(handled));
        case Err(error) => return Err(RoutingFailed(error));
      }
    }
  }

  // --- Runs ------------------------------------------------------------------------------------

  function DeliverAll<S>(c: Setup<S>, s: Store<S>, ds: seq<Delivery>): Store<S> {
    if ds == [] then s else Deliver(c, DeliverAll(c, s, ds[..|ds| - 1]), ds[|ds| - 1])
  }

  /** Delivery `i` is the first fresh one with its event id. */
  predicate IsFirst<S>(c: Setup<S>, ds: seq<Delivery>, i: nat)
    requires i < |ds|
  {
    && Fresh(c, ds[i])
    && forall j :: 0 <= j < i && Fresh(c, ds[j]) ==> EventId(ds[j].payload) != EventId(ds[i].payload)
  }

  /** The first fresh delivery of each event id, in order of arrival. */
  function Firsts<S>(c: Setup<S>, ds: seq<Delivery>): seq<Payload> {
    if ds == [] then []
    else Firsts(c, ds[..|ds| - 1]) + if IsFirst(c, ds, |ds| - 1) then [ds[|ds| - 1].payload] else []
  }

  /** Routing alone: no age check, no record. */
  function RouteAll<S>(c: Setup<S>, state: S, ps: seq<Payload>): S {
    if ps == [] then state
    else React(RouteAll(c, state, ps[..|ps| - 1]), ps[|ps| - 1], c.handle).state
  }

  predicate Seen<S>(c: Setup<S>, ds: seq<Delivery>, id: string) {
    exists j :: 0 <= j < |ds| && Fresh(c, ds[j]) && EventId(ds[j].payload) == id
  }

  lemma SeenGrows<S>(c: Setup<S>, ds: seq<Delivery>, id: string)
    requires ds != []
    ensures var d := ds[|ds| - 1];
      Seen(c, ds, id) <==> Seen(c, ds[..|ds| - 1], id) || (Fresh(c, d) && EventId(d.payload) == id)
  {
    var shorter := ds[..|ds| - 1];
    if Seen(c, shorter, id) {
      var j :| 0 <= j < |shorter| && Fresh(c, shorter[j]) && EventId(shorter[j].payload) == id;
      assert ds[j] == shorter[j];
    }
    if Seen(c, ds, id) {
      var j :| 0 <= j < |ds| && Fresh(c, ds[j]) && EventId(ds[j].payload) == id;
      assert j < |ds| - 1 ==> shorter[j] == ds[j];
    }
  }

  /** Recorded ids are exactly the ids of fresh deliveries. */
  lemma {:induction false} RecordedIffSeen<S>(c: Setup<S>, state: S, ds: seq<Delivery>, id: string)
    ensures id in DeliverAll(c, Store(state, map[]), ds).events <==> Seen(c, ds, id)
  {
    if ds != [] {
      RecordedIffSeen(c, state, ds[..|ds| - 1], id);
      RecordedIffSeen(c, state, ds[..|ds| - 1], EventId(ds[|ds| - 1].payload));
      SeenGrows(c, ds, id);
    }
  }

  /**
   Idempotence: whatever is repeated, reordered or late, the business state is the one obtained by
   routing only the first fresh delivery of each event id.
   */
  lemma {:induction false} OnlyFirstsCount<S>(c: Setup<S>, state: S, ds: seq<Delivery>)
    ensures DeliverAll(c, Store(state, map[]), ds).state == RouteAll(c, state, Firsts(c, ds))
  {
    if ds != [] {
      var shorter, last := ds[..|ds| - 1], ds[|ds| - 1];
      OnlyFirstsCount(c, state, shorter);
      RecordedIffSeen(c, state, shorter, EventId(last.payload));
      assert forall j :: 0 <= j < |shorter| ==> shorter[j] == ds[j];
      assert IsFirst(c, ds, |ds| - 1) <==> Fresh(c, last) && !Seen(c, shorter, EventId(last.payload));
      if IsFirst(c, ds, |ds| - 1) {
        var ps := Firsts(c, shorter) + [last.payload];
        assert ps[..|ps| - 1] == Firsts(c, shorter);
      } else {
        assert Firsts(c, ds) == Firsts(c, shorter);
      }
    }
  }

  /** Clock readings never go back. */
  predicate Ticking(ds: seq<Delivery>) {
    forall i, j :: 0 <= i <= j < |ds| ==> ds[i].now <= ds[j].now
  }

  predicate WasDelivered(ds: seq<Delivery>, p: Payload) {
    exists i :: 0 <= i < |ds| && ds[i].payload == p
  }

  /** Replaying payloads that were all delivered before changes nothing at all. */
  lemma {:induction false} ReplayChangesNothing<S>(c: Setup<S>, state: S, ds: seq<Delivery>, again: seq<Delivery>)
    requires Ticking(ds + again)
    requires forall k :: 0 <= k < |again| ==> WasDelivered(ds, again[k].payload)
    ensures DeliverAll(c, Store(state, map[]), ds + again) == DeliverAll(c, Store(state, map[]), ds)
  {
    if again == [] {
      assert ds + again == ds;
    } else {
      var all, shorter, d := ds + again, again[..|again| - 1], again[|again| - 1];
      assert all[..|all| - 1] == ds + shorter;
      assert Ticking(ds + shorter) by {
        assert forall i :: 0 <= i < |ds + shorter| ==> (ds + shorter)[i] == all[i];
      }
      ReplayChangesNothing(c, state, ds, shorter);
      var i :| 0 <= i < |ds| && ds[i].payload == d.payload;
      assert all[i] == ds[i] && all[|all| - 1] == d && ds[i].now <= d.now;
      if Fresh(c, d) {
        assert Fresh(c, ds[i]);
        RecordedIffSeen(c, state, ds, EventId(d.payload));
      }
    }
  }

  /** The one routing an event ever gets: that of its first fresh delivery, on the state it met. */
  function FirstRouting<S>(c: Setup<S>, state: S, ds: seq<Delivery>, i: nat): Result<bool, string>
    requires i < |ds|
  {
    React(RouteAll(c, state, Firsts(c, ds[..i])), ds[i].payload, c.handle).outcome
  }

  /**
   Over a whole stream, with failures, repeats and retries in any order, the record of an event is the
   outcome of routing its first fresh delivery, and no later delivery changes it.
   */
  lemma {:induction false} FirstRoutingDecides<S>(c: Setup<S>, state: S, ds: seq<Delivery>, i: nat)
    requires i < |ds| && IsFirst(c, ds, i)
    ensures EventId(ds[i].payload) in DeliverAll(c, Store(state, map[]), ds).events
    ensures DeliverAll(c, Store(state, map[]), ds).events[EventId(ds[i].payload)] ==
      Recorded(FirstRouting(c, state, ds, i))
  {
    var shorter, last := ds[..|ds| - 1], ds[|ds| - 1];
    assert forall j :: 0 <= j < |shorter| ==> shorter[j] == ds[j];
    if i == |ds| - 1 {
      OnlyFirstsCount(c, state, shorter);
      RecordedIffSeen(c, state, shorter, EventId(last.payload));
    } else {
      assert shorter[..i] == ds[..i];
      FirstRoutingDecides(c, state, shorter, i);
    }
  }

  /** An event ends up processed if and only if the routing of its first fresh delivery succeeded. */
  lemma ProcessedIff<S>(c: Setup<S>, state: S, ds: seq<Delivery>, id: string)
    ensures id in DeliverAll(c, Store(state, map[]), ds).events
      && !DeliverAll(c, Store(state, map[]), ds).events[id].Failed?
      <==> exists i ::
        0 <= i < |ds| && IsFirst(c, ds, i) && EventId(ds[i].payload) == id && FirstRouting(c, state, ds, i).Ok?
  {
    hide FirstRouting, DeliverAll, IsStale;
    RecordedIffSeen(c, state, ds, id);
    if Seen(c, ds, id) {
      var i := FirstOf(c, ds, id);
      FirstRoutingDecides(c, state, ds, i);
    }
    forall i | 0 <= i < |ds| && IsFirst(c, ds, i) && EventId(ds[i].payload) == id
      ensures id in DeliverAll(c, Store(state, map[]), ds).events
      ensures DeliverAll(c, Store(state, map[]), ds).events[id] == Recorded(FirstRouting(c, state, ds, i))
    {
      FirstRoutingDecides(c, state, ds, i);
    }
  }

  lemma {:induction false} FirstOf<S>(c: Setup<S>, ds: seq<Delivery>, id: string) returns (i: nat)
    requires Seen(c, ds, id)
    ensures i < |ds| && IsFirst(c, ds, i) && EventId(ds[i].payload) == id
  {
    var shorter := ds[..|ds| - 1];
    assert forall j :: 0 <= j < |shorter| ==> shorter[j] == ds[j];
    SeenGrows(c, ds, id);
    if Seen(c, shorter, id) {
      i := FirstOf(c, shorter, id);
    } else {
      i := |ds| - 1;
    }
  }

  /** An event whose routing failed stays recorded, so its redelivery is not routed again. */
  lemma FailedEventIsNotRouted<S>(c: Setup<S>, s: Store<S>, d: Delivery, later: Delivery)
    requires Fresh(c, d) && EventId(d.payload) !in s.events && later.payload == d.payload
    requires React(s.state, d.payload, c.handle).outcome.Err?
    ensures var s' := Deliver(c, s, d);
      s'.events[EventId(d.payload)].Failed? && Deliver(c, s', later) == s'
  {
  }

  predicate NoColon(s: string) { forall i :: 0 <= i < |s| ==> s[i] != ':' }

  /**
   Exactly which events are taken for one another: same kind and same key. Two events of one kind
   that carry neither an id nor a reference share the key `unknown`, so only the first is routed.
   */
  lemma SameEventIdIff(p: Payload, q: Payload)
    requires NoColon(p.event) && NoColon(q.event)
    ensures EventId(p) == EventId(q) <==> p.event == q.event && EventKey(p) == EventKey(q)
  {
    if EventId(p) == EventId(q) {
      assert EventId(p)[|p.event|] == ':' && EventId(q)[|q.event|] == ':';
      assert forall i :: 0 <= i < |p.event| ==> EventId(p)[i] == p.event[i];
      assert forall i :: 0 <= i < |q.event| ==> EventId(q)[i] == q.event[i];
      assert |p.event| == |q.event|;
      assert EventId(p)[..|p.event|] == p.event && EventId(q)[..|q.event|] == q.event;
      assert EventId(p)[|p.event| + 1..] == EventKey(p) && EventId(q)[|q.event| + 1..] == EventKey(q);
    }
  }

  // --- What a stream asks of the services ----------------------------------------------------------

  /** A deployment whose services only take notes. */
  function Recorder(parse: DateParser, maxAge: int): Setup<seq<Dispatch>> {
    Setup((log, d) => Reaction(log + [d], Ok(true)), parse, maxAge)
  }

  function Notes(parse: DateParser, maxAge: int, ds: seq<Delivery>): seq<Dispatch> {
    DeliverAll(Recorder(parse, maxAge), Store([], map[]), ds).state
  }

  /** The notes replayed on real handlers. */
  function Replayed<S>(handle: Handler<S>, state: S, log: seq<Dispatch>): S {
    if log == [] then state else handle(Replayed(handle, state, log[..|log| - 1]), log[|log| - 1]).state
  }

  predicate AskedAt<S>(c: Setup<S>, ds: seq<Delivery>, d: Dispatch, i: nat)
    requires i < |ds|
  {
    IsFirst(c, ds, i) && AsksFor(ds[i].payload, d)
  }

  /** One delivery more: the state as it was, unless it is the first fresh one of its event. */
  lemma StreamStep<S>(c: Setup<S>, state: S, ds: seq<Delivery>)
    requires ds != []
    ensures var before := DeliverAll(c, Store(state, map[]), ds[..|ds| - 1]).state;
      DeliverAll(c, Store(state, map[]), ds).state ==
        if IsFirst(c, ds, |ds| - 1) then React(before, ds[|ds| - 1].payload, c.handle).state else before
  {
    hide Route, IsFirst, DeliverAll;
    var shorter := ds[..|ds| - 1];
    OnlyFirstsCount(c, state, ds);
    OnlyFirstsCount(c, state, shorter);
    var ps := Firsts(c, ds);
    if IsFirst(c, ds, |ds| - 1) {
      assert ps[..|ps| - 1] == Firsts(c, shorter);
    } else {
      assert ps == Firsts(c, shorter);
    }
  }

  lemma NotesAre(parse: DateParser, maxAge: int, ds: seq<Delivery>)
    requires ds != []
    ensures var c, last := Recorder(parse, maxAge), ds[|ds| - 1].payload;
      Notes(parse, maxAge, ds) == Notes(parse, maxAge, ds[..|ds| - 1]) +
        if IsFirst(c, ds, |ds| - 1) && Route(last).Some? then [Route(last).value] else []
  {
    hide Route, DeliverAll, IsFirst;
    StreamStep(Recorder(parse, maxAge), [], ds);
  }

  /**
   Over any stream, repeated, late and reordered as it may be, the services are asked for exactly what the
   first fresh delivery of some event asks for.
   */
  lemma {:induction false} AskedIff(parse: DateParser, maxAge: int, ds: seq<Delivery>, d: Dispatch)
    ensures d in Notes(parse, maxAge, ds) <==>
      exists i :: 0 <= i < |ds| && AskedAt(Recorder(parse, maxAge), ds, d, i)
  {
    hide Route, AsksFor, Recorder;
    var c := Recorder(parse, maxAge);
    if ds == [] {
      NothingNoted(parse, maxAge);
    } else {
      var shorter, n := ds[..|ds| - 1], |ds| - 1;
      AskedIff(parse, maxAge, shorter, d);
      NotesAre(parse, maxAge, ds);
      RouteIff(ds[n].payload, d);
      assert forall j :: 0 <= j < n ==> shorter[j] == ds[j];
      assert forall j :: 0 <= j < n ==> AskedAt(c, shorter, d, j) == AskedAt(c, ds, d, j);
      assert AskedAt(c, ds, d, n) <==> IsFirst(c, ds, n) && Route(ds[n].payload) == Some(d);
    }
  }

  lemma NothingNoted(parse: DateParser, maxAge: int)
    ensures Notes(parse, maxAge, []) == []
  {
  }

  /** Whatever the services do, they do it by working through these notes in order. */
  lemma {:induction false} NotesDecide<S>(c: Setup<S>, state: S, ds: seq<Delivery>)
    ensures DeliverAll(c, Store(state, map[]), ds).state == Replayed(c.handle, state, Notes(c.parse, c.maxAge, ds))
  {
    if ds == [] {
      NothingNoted(c.parse, c.maxAge);
    } else {
      hide Route, DeliverAll, IsFirst, Notes;
      var shorter, n := ds[..|ds| - 1], |ds| - 1;
      NotesDecide(c, state, shorter);
      NotesAre(c.parse, c.maxAge, ds);
      StreamStep(c, state, ds);
      SameFirst(c, Recorder(c.parse, c.maxAge), ds, n);
      if IsFirst(c, ds, n) && Route(ds[n].payload).Some? {
        var log := Notes(c.parse, c.maxAge, ds);
        assert log[..|log| - 1] == Notes(c.parse, c.maxAge, shorter);
      } else {
        assert Notes(c.parse, c.maxAge, ds) == Notes(c.parse, c.maxAge, shorter);
      }
    }
  }

  /** Which delivery is the first fresh one does not depend on the handlers. */
  lemma SameFirst<S, T>(c: Setup<S>, c': Setup<T>, ds: seq<Delivery>, i: nat)
    requires i < |ds| && c.parse == c'.parse && c.maxAge == c'.maxAge
    ensures IsFirst(c, ds, i) == IsFirst(c', ds, i)
  {
  }

  predicate FirstWith(parse: DateParser, maxAge: int, ds: seq<Delivery>, event: string, reference: string, i: nat)
    requires i < |ds|
  {
    && IsFirst(Recorder(parse, maxAge), ds, i)
    && ds[i].payload.event == event && ds[i].payload.reference == Some(reference) && reference != ""
  }

  /** A payout is paid only by a `transfer.success` with its reference and a transfer code. */
  lemma PaidIff(parse: DateParser, maxAge: int, ds: seq<Delivery>, reference: string, code: string)
    ensures TransferPaid(reference, code) in Notes(parse, maxAge, ds) <==>
      exists i ::
        && 0 <= i < |ds| && FirstWith(parse, maxAge, ds, "transfer.success", reference, i)
        && ds[i].payload.transferCode == Some(code) && code != ""
  {
    var d := TransferPaid(reference, code);
    AskedIff(parse, maxAge, ds, d);
    hide Notes, IsFirst;
    forall i | 0 <= i < |ds| ensures AskedAt(Recorder(parse, maxAge), ds, d, i) <==>
      FirstWith(parse, maxAge, ds, "transfer.success", reference, i)
        && ds[i].payload.transferCode == Some(code) && code != ""
    {
    }
  }

  ghost predicate LossNoted(log: seq<Dispatch>, reference: string, reversed: bool) {
    exists why :: TransferLost(reference, reversed, why) in log
  }

  /** A loss is recorded exactly for `transfer.failed` and `transfer.reversed` with the reference. */
  lemma LostIff(parse: DateParser, maxAge: int, ds: seq<Delivery>, reference: string, reversed: bool)
    ensures var event := if reversed then "transfer.reversed" else "transfer.failed";
      LossNoted(Notes(parse, maxAge, ds), reference, reversed) <==>
        exists i :: 0 <= i < |ds| && FirstWith(parse, maxAge, ds, event, reference, i)
  {
    hide Notes, IsFirst;
    var event := if reversed then "transfer.reversed" else "transfer.failed";
    if why :| TransferLost(reference, reversed, why) in Notes(parse, maxAge, ds) {
      AskedIff(parse, maxAge, ds, TransferLost(reference, reversed, why));
      var i :| 0 <= i < |ds| && AskedAt(Recorder(parse, maxAge), ds, TransferLost(reference, reversed, why), i);
      assert FirstWith(parse, maxAge, ds, event, reference, i);
    }
    if i :| 0 <= i < |ds| && FirstWith(parse, maxAge, ds, event, reference, i) {
      var p := ds[i].payload;
      var why := match p.reason case Some(reason) => reason case None => p.status.GetOr("Paystack reported " + p.event);
      AskedIff(parse, maxAge, ds, TransferLost(reference, reversed, why));
      assert AskedAt(Recorder(parse, maxAge), ds, TransferLost(reference, reversed, why), i);
    }
  }

  ghost predicate ChargeNoted(log: seq<Dispatch>, reference: string) {
    exists customer :: ChargeSucceeded(reference, customer) in log
  }

  /** A charge is looked up exactly for `charge.success` with its reference. */
  lemma ChargedIff(parse: DateParser, maxAge: int, ds: seq<Delivery>, reference: string)
    ensures ChargeNoted(Notes(parse, maxAge, ds), reference) <==>
      exists i :: 0 <= i < |ds| && FirstWith(parse, maxAge, ds, "charge.success", reference, i)
  {
    hide Notes, IsFirst;
    if customer :| ChargeSucceeded(reference, customer) in Notes(parse, maxAge, ds) {
      AskedIff(parse, maxAge, ds, ChargeSucceeded(reference, customer));
      var i :| 0 <= i < |ds| && AskedAt(Recorder(parse, maxAge), ds, ChargeSucceeded(reference, customer), i);
      assert FirstWith(parse, maxAge, ds, "charge.success", reference, i);
    }
    if i :| 0 <= i < |ds| && FirstWith(parse, maxAge, ds, "charge.success", reference, i) {
      var customer := if Truthy(ds[i].payload.customer) then ds[i].payload.customer else None;
      AskedIff(parse, maxAge, ds, ChargeSucceeded(reference, customer));
      assert AskedAt(Recorder(parse, maxAge), ds, ChargeSucceeded(reference, customer), i);
    }
  }

  // --- Keys and ages ------------------------------------------------------------------------------------

  /** An event is known by its id, else by its reference; with neither all events of a kind are one. */
  lemma SameEventOf(p: Payload, q: Payload)
    requires p.event == q.event && NoColon(p.event)
    ensures p.id.Some? && q.id.Some? ==> (EventId(p) == EventId(q) <==> p.id == q.id)
    ensures p.id.None? && q.id.None? && p.reference.Some? && q.reference.Some? ==>
      (EventId(p) == EventId(q) <==> p.reference == q.reference)
    ensures p.id.None? && q.id.None? && p.reference.None? && q.reference.None? ==> EventId(p) == EventId(q)
  {
    SameEventIdIff(p, q);
  }

  /** The stamp that counts: `paid_at`, else `created_at`, else `createdAt`; more than the maximum age old is stale. */
  lemma StaleIff(p: Payload, now: int, maxAge: int, parse: DateParser, stamp: string, at: int)
    requires stamp != "" && parse(stamp) == Some(at)
    requires
      || p.paidAt == Some(stamp)
      || (p.paidAt.None? && p.created_at == Some(stamp))
      || (p.paidAt.None? && p.created_at.None? && p.createdAt == Some(stamp))
    ensures IsStale(p, now, maxAge, parse) <==> at + maxAge < now
  {
  }

  /** Without a stamp that can be read nothing is too old. */
  lemma UnstampedIsFresh(p: Payload, now: int, maxAge: int, parse: DateParser)
    requires p.paidAt.None? && p.created_at.None?
    requires p.createdAt.None? || p.createdAt == Some("") || parse(p.createdAt.value).None?
    ensures !IsStale(p, now, maxAge, parse)
  {
  }
}
