/** Funnel metrics over cohorts of transactions: counts of recorded facts, per origin and in total. */
module Analytics {
  import opened Wrappers
  import opened Machine

  datatype Origin = Web | Telegram | WhatsApp | Instagram | Messenger | X | Eaas

  const ALL_ORIGINS: seq<Origin> := [Web, Telegram, WhatsApp, Instagram, Messenger, X, Eaas]

  /** A transaction with the committed transitions behind its timeline. */
  datatype Record = Record(
    createdAt: int, origin: Origin, seller: string, buyer: Option<string>, amount: int, fee: int, history: seq<Edge>)

  function Cohort(all: seq<Record>, from: int, until: int): seq<Record> {
    if all == [] then []
    else
      var last := all[|all| - 1];
      Cohort(all[..|all| - 1], from, until) + if from <= last.createdAt < until then [last] else []
  }

  /** Ever reached, at any time. */
  predicate Reached(r: Record, s: Status) { Entered(r.history, s) }

  // --- Aggregation -----------------------------------------------------------------------------

  predicate InGroup(r: Record, origin: Option<Origin>) { origin == None || origin == Some(r.origin) }

  /** The sum of a weight over the records of one origin, or over all. */
  function Tally(rs: seq<Record>, origin: Option<Origin>, weight: Record -> int): int {
    if rs == [] then 0
    else
      var last := rs[|rs| - 1];
      Tally(rs[..|rs| - 1], origin, weight) + if InGroup(last, origin) then weight(last) else 0
  }

  function One(): Record -> int { r => 1 }
  function If(s: Status): Record -> int { r => if Reached(r, s) then 1 else 0 }
  function AmountIf(s: Status): Record -> int { r => if Reached(r, s) then r.amount else 0 }
  function FeeIf(s: Status): Record -> int { r => if Reached(r, s) then r.fee else 0 }

  datatype Side = Selling | Buying

  /** The account on one side; a record may have no buyer. */
  function PersonOf(r: Record, side: Side): Option<string> {
    match side
    case Selling => Some(r.seller)
    case Buying => r.buyer
  }

  /** The distinct accounts on one side of the records of one origin, or of all. */
  function People(rs: seq<Record>, origin: Option<Origin>, side: Side): set<string> {
    set r | r in rs && InGroup(r, origin) && PersonOf(r, side).Some? :: PersonOf(r, side).value
  }

  datatype Metrics = Metrics(
    sellers: int, buyers: int, created: int, published: int, paymentStarted: int, secured: int,
    delivered: int, released: int, disputed: int, securedVolume: int, releasedVolume: int, fees: int)

  const ZERO := Metrics(0, 0, 0, 0, 0, 0, 0, 0, 0, 0, 0, 0)

  function MetricsOf(rs: seq<Record>, origin: Option<Origin>): Metrics {
    Metrics(
      |People(rs, origin, Selling)|, |People(rs, origin, Buying)|, Tally(rs, origin, One()),
      Tally(rs, origin, If(LinkActive)), Tally(rs, origin, If(PaymentPending)), Tally(rs, origin, If(PaymentProtected)),
      Tally(rs, origin, If(ConfirmationPending)), Tally(rs, origin, If(Completed)), Tally(rs, origin, If(Disputed)),
      Tally(rs, origin, AmountIf(PaymentProtected)), Tally(rs, origin, AmountIf(Completed)),
      Tally(rs, origin, FeeIf(PaymentProtected)))
  }

  /** GROUP BY returns a row for each origin that occurs. */
  function Rows(rs: seq<Record>): map<Origin, Metrics> {
    map o | o in (set r | r in rs :: r.origin) :: MetricsOf(rs, Some(o))
  }

  /** A rate in units of 1/10000, truncated; 0 over an empty denominator. */
  function Rate(part: int, whole: int): int
    requires whole >= 0
  {
    if whole == 0 then 0 else part * 10_000 / whole
  }

  function Plus(a: Metrics, b: Metrics): Metrics {
    Metrics(a.sellers + b.sellers, a.buyers + b.buyers, a.created + b.created, a.published + b.published,
            a.paymentStarted + b.paymentStarted, a.secured + b.secured, a.delivered + b.delivered,
            a.released + b.released, a.disputed + b.disputed, a.securedVolume + b.securedVolume,
            a.releasedVolume + b.releasedVolume, a.fees + b.fees)
  }

  function Summed(rows: seq<Metrics>): Metrics {
    if rows == [] then ZERO else Plus(Summed(rows[..|rows| - 1]), rows[|rows| - 1])
  }

  /** One row per origin, zero-filled, in the fixed order. */
  function Platforms(rows: map<Origin, Metrics>): (ps: seq<Metrics>)
    ensures |ps| == 7
  {
    seq(7, i requires 0 <= i < 7 => if ALL_ORIGINS[i] in rows then rows[ALL_ORIGINS[i]] else ZERO)
  }

  function Totals(rs: seq<Record>): Metrics { Summed(Platforms(Rows(rs))) }

  // --- Laws --------------------------------------------------------------------------------------

  /** Histories that the whole machine can produce, shipped events or not. */
  ghost predicate Lawful(rs: seq<Record>) {
    forall i :: 0 <= i < |rs| ==> PathFromDraft(rs[i].history)
  }

  lemma EarlierStage(r: Record, s: Status, m: Status)
    requires PathFromDraft(r.history) && m in Milestones(s)
    ensures Reached(r, s) ==> Reached(r, m)
  {
    hide Transition, Milestones;
    if Reached(r, s) {
      var i :| 0 <= i < |r.history| && r.history[i].to == s;
      MilestonesEntered(r.history, i, m);
    }
  }

  lemma {:induction false} TallyMonotone(rs: seq<Record>, origin: Option<Origin>, w: Record -> int, v: Record -> int)
    requires forall i :: 0 <= i < |rs| ==> w(rs[i]) <= v(rs[i])
    ensures Tally(rs, origin, w) <= Tally(rs, origin, v)
  {
    if rs != [] {
      TallyMonotone(rs[..|rs| - 1], origin, w, v);
    }
  }

  lemma StageCounts(rs: seq<Record>, origin: Option<Origin>, s: Status, m: Status)
    requires Lawful(rs) && m in Milestones(s)
    ensures Tally(rs, origin, If(s)) <= Tally(rs, origin, If(m))
  {
    hide Tally, Milestones;
    forall i | 0 <= i < |rs| ensures If(s)(rs[i]) <= If(m)(rs[i]) {
      EarlierStage(rs[i], s, m);
    }
    TallyMonotone(rs, origin, If(s), If(m));
  }

  predicate FunnelShaped(m: Metrics) {
    && m.created >= m.published >= m.paymentStarted >= m.secured
    && m.secured >= m.delivered >= 0 && m.secured >= m.released >= 0 && m.secured >= m.disputed >= 0
  }

  lemma MilestonePairs()
    ensures LinkActive in Milestones(PaymentPending) && PaymentPending in Milestones(PaymentProtected)
    ensures PaymentProtected in Milestones(ConfirmationPending) && PaymentProtected in Milestones(Completed)
    ensures PaymentProtected in Milestones(Disputed)
  {
  }

  /** For any cohort of lawful histories the stages of each origin, and of the whole, form a funnel. */
  lemma FunnelHolds(rs: seq<Record>, origin: Option<Origin>)
    requires Lawful(rs)
    ensures FunnelShaped(MetricsOf(rs, origin))
  {
    hide Tally, Milestones, Lawful, People;
    MilestonePairs();
    StageCounts(rs, origin, PaymentPending, LinkActive);
    StageCounts(rs, origin, PaymentProtected, PaymentPending);
    StageCounts(rs, origin, ConfirmationPending, PaymentProtected);
    StageCounts(rs, origin, Completed, PaymentProtected);
    StageCounts(rs, origin, Disputed, PaymentProtected);
    TallyMonotone(rs, origin, If(LinkActive), One());
    CountsNonNegative(rs, origin, ConfirmationPending);
    CountsNonNegative(rs, origin, Completed);
    CountsNonNegative(rs, origin, Disputed);
  }

  lemma {:induction false} CountsNonNegative(rs: seq<Record>, origin: Option<Origin>, s: Status)
    ensures Tally(rs, origin, If(s)) >= 0
  {
    if rs != [] {
      CountsNonNegative(rs[..|rs| - 1], origin, s);
    }
  }

  lemma TallyOfOne(r: Record, weight: Record -> int)
    ensures Tally([r], None, weight) == weight(r)
  {
    assert [r][..0] == [];
    assert Tally([r][..0], None, weight) == 0;
  }

  /** A release without a delivery does occur, so the last two columns are not ordered. */
  lemma ReleasedCanExceedDelivered()
    ensures exists rs :: Lawful(rs) && MetricsOf(rs, None).released > MetricsOf(rs, None).delivered
  {
    CompletedWithoutDelivery();
    var es :| PathFromDraft(es) && Uses(es, Shipped) && Entered(es, Completed) && !Entered(es, ConfirmationPending);
    hide Entered, PathFromDraft;
    var r := Record(0, Web, "", None, 0, 0, es);
    var rs := [r];
    TallyOfOne(r, If(Completed));
    TallyOfOne(r, If(ConfirmationPending));
    hide Tally;
    assert Reached(r, Completed) && !Reached(r, ConfirmationPending);
    assert If(Completed)(r) == 1 && If(ConfirmationPending)(r) == 0;
    assert Tally(rs, None, If(Completed)) == 1 && Tally(rs, None, If(ConfirmationPending)) == 0;
    assert Lawful(rs);
  }

  /** Histories that the shipped callers can produce. */
  ghost predicate ShippedOnly(rs: seq<Record>) {
    Lawful(rs) && forall i :: 0 <= i < |rs| ==> Uses(rs[i].history, Shipped)
  }

  ghost function RuledEarly(): Record -> int {
    r => if Reached(r, Completed) && RuledBeforeDelivery(r.history) then 1 else 0
  }

  ghost function Unreleased(): Record -> int {
    r => if Reached(r, ConfirmationPending) && !Reached(r, Completed) then 1 else 0
  }

  lemma {:induction false} TalliesAdd(rs: seq<Record>, origin: Option<Origin>,
      a: Record -> int, b: Record -> int, c: Record -> int, d: Record -> int)
    requires forall i :: 0 <= i < |rs| ==> a(rs[i]) + b(rs[i]) == c(rs[i]) + d(rs[i])
    ensures Tally(rs, origin, a) + Tally(rs, origin, b) == Tally(rs, origin, c) + Tally(rs, origin, d)
  {
    if rs != [] {
      TalliesAdd(rs[..|rs| - 1], origin, a, b, c, d);
    }
  }

  /**
   By exactly how much the released exceed the delivered: by the releases that were ruled for the seller in
   a dispute raised before delivery, less the deliveries that are not released.
   */
  lemma ReleasedAgainstDelivered(rs: seq<Record>, origin: Option<Origin>)
    requires ShippedOnly(rs)
    ensures MetricsOf(rs, origin).released + Tally(rs, origin, Unreleased())
      == MetricsOf(rs, origin).delivered + Tally(rs, origin, RuledEarly())
  {
    hide Tally, People, RuledBeforeDelivery, Uses, PathFromDraft;
    forall i | 0 <= i < |rs|
      ensures If(Completed)(rs[i]) + Unreleased()(rs[i]) == If(ConfirmationPending)(rs[i]) + RuledEarly()(rs[i])
    {
      if Reached(rs[i], Completed) {
        UndeliveredReleaseIff(rs[i].history);
      }
    }
    TalliesAdd(rs, origin, If(Completed), Unreleased(), If(ConfirmationPending), RuledEarly());
  }

  // --- Records and cohorts ---------------------------------------------------------------------------

  lemma TallyStep(rs: seq<Record>, r: Record, origin: Option<Origin>, w: Record -> int)
    ensures Tally(rs + [r], origin, w) ==
      Tally(rs, origin, w) + if origin == None || origin == Some(r.origin) then w(r) else 0
  {
    assert (rs + [r])[..|rs|] == rs;
  }

  /** Some record of the group has this account on this side. */
  predicate Knows(rs: seq<Record>, origin: Option<Origin>, side: Side, who: string) {
    exists i :: 0 <= i < |rs| && (origin == None || origin == Some(rs[i].origin))
      && (if side.Selling? then rs[i].seller == who else rs[i].buyer == Some(who))
  }

  lemma KnowsIff(rs: seq<Record>, origin: Option<Origin>, side: Side, who: string)
    ensures who in People(rs, origin, side) <==> Knows(rs, origin, side, who)
  {
    if who in People(rs, origin, side) {
      var q :| q in rs && InGroup(q, origin) && PersonOf(q, side) == Some(who);
      var i :| 0 <= i < |rs| && rs[i] == q;
    }
    if Knows(rs, origin, side, who) {
      var i :| 0 <= i < |rs| && (origin == None || origin == Some(rs[i].origin))
        && (if side.Selling? then rs[i].seller == who else rs[i].buyer == Some(who));
      assert rs[i] in rs && InGroup(rs[i], origin) && PersonOf(rs[i], side) == Some(who);
    }
  }

  lemma KnowsStep(rs: seq<Record>, r: Record, origin: Option<Origin>, side: Side, x: string)
    ensures Knows(rs + [r], origin, side, x) <==>
      (Knows(rs, origin, side, x)
        || ((origin == None || origin == Some(r.origin))
            && Some(x) == if side.Selling? then Some(r.seller) else r.buyer))
  {
    assert (rs + [r])[|rs|] == r && forall i :: 0 <= i < |rs| ==> (rs + [r])[i] == rs[i];
  }

  lemma PeopleStep(rs: seq<Record>, r: Record, origin: Option<Origin>, side: Side)
    ensures var who := if side.Selling? then Some(r.seller) else r.buyer;
      |People(rs + [r], origin, side)| == |People(rs, origin, side)| +
        if (origin == None || origin == Some(r.origin)) && who.Some? && !Knows(rs, origin, side, who.value)
        then 1 else 0
  {
    hide People, Knows;
    var who := if side.Selling? then Some(r.seller) else r.buyer;
    var before, after := People(rs, origin, side), People(rs + [r], origin, side);
    var news := if (origin == None || origin == Some(r.origin)) && who.Some? then {who.value} else {};
    forall x ensures x in after <==> x in before + news {
      KnowsIff(rs, origin, side, x);
      KnowsIff(rs + [r], origin, side, x);
      KnowsStep(rs, r, origin, side, x);
    }
    assert after == before + news;
    if news == {} {
      assert after == before;
    } else {
      KnowsIff(rs, origin, side, who.value);
      OneMoreElement(before, who.value);
    }
  }

  lemma OneMoreElement(s: set<string>, x: string)
    ensures |s + {x}| == |s| + if x in s then 0 else 1
  {
    if x in s {
      assert s + {x} == s;
    }
  }

  function Bit(b: bool): int { if b then 1 else 0 }

  predicate Ever(r: Record, s: Status) { exists i :: 0 <= i < |r.history| && r.history[i].to == s }

  lemma EverIsReached(r: Record, s: Status)
    ensures Reached(r, s) <==> Ever(r, s)
  {
  }

  /** What one more record adds to its own row and to the row of the whole. */
  lemma OneMoreRecord(rs: seq<Record>, r: Record, origin: Option<Origin>)
    requires origin == None || origin == Some(r.origin)
    ensures var was, now := MetricsOf(rs, origin), MetricsOf(rs + [r], origin);
      && now.created == was.created + 1
      && now.published == was.published + Bit(Ever(r, LinkActive))
      && now.paymentStarted == was.paymentStarted + Bit(Ever(r, PaymentPending))
      && now.secured == was.secured + Bit(Ever(r, PaymentProtected))
      && now.delivered == was.delivered + Bit(Ever(r, ConfirmationPending))
      && now.released == was.released + Bit(Ever(r, Completed))
      && now.disputed == was.disputed + Bit(Ever(r, Disputed))
      && now.securedVolume == was.securedVolume + (if Ever(r, PaymentProtected) then r.amount else 0)
      && now.releasedVolume == was.releasedVolume + (if Ever(r, Completed) then r.amount else 0)
      && now.fees == was.fees + (if Ever(r, PaymentProtected) then r.fee else 0)
      && now.sellers == was.sellers + Bit(!Knows(rs, origin, Selling, r.seller))
      && now.buyers == was.buyers + Bit(r.buyer.Some? && !Knows(rs, origin, Buying, r.buyer.value))
  {
    hide Tally, Reached, People, Knows, Ever;
    EverIsReached(r, LinkActive); EverIsReached(r, PaymentPending); EverIsReached(r, PaymentProtected);
    EverIsReached(r, ConfirmationPending); EverIsReached(r, Completed); EverIsReached(r, Disputed);
    TallyStep(rs, r, origin, One());
    TallyStep(rs, r, origin, If(LinkActive));
    TallyStep(rs, r, origin, If(PaymentPending));
    TallyStep(rs, r, origin, If(PaymentProtected));
    TallyStep(rs, r, origin, If(ConfirmationPending));
    TallyStep(rs, r, origin, If(Completed));
    TallyStep(rs, r, origin, If(Disputed));
    TallyStep(rs, r, origin, AmountIf(PaymentProtected));
    TallyStep(rs, r, origin, AmountIf(Completed));
    TallyStep(rs, r, origin, FeeIf(PaymentProtected));
    PeopleStep(rs, r, origin, Selling);
    PeopleStep(rs, r, origin, Buying);
  }

  /** A row without records is all zeros, and a record of another origin does not change the row. */
  lemma OtherRecords(rs: seq<Record>, r: Record, origin: Origin)
    requires r.origin != origin
    ensures MetricsOf(rs + [r], Some(origin)) == MetricsOf(rs, Some(origin))
    ensures MetricsOf([], Some(origin)) == Metrics(0, 0, 0, 0, 0, 0, 0, 0, 0, 0, 0, 0)
  {
    AbsentIsZero([], origin);
    assert People(rs + [r], Some(origin), Selling) == People(rs, Some(origin), Selling);
    assert People(rs + [r], Some(origin), Buying) == People(rs, Some(origin), Buying);
    hide Tally, Reached;
    forall w: Record -> int ensures Tally(rs + [r], Some(origin), w) == Tally(rs, Some(origin), w) {
      TallyStep(rs, r, Some(origin), w);
    }
  }

  /** With amounts that are not negative, no more is released than was secured. */
  lemma ReleasedWithinSecured(rs: seq<Record>, origin: Option<Origin>)
    requires Lawful(rs) && forall i :: 0 <= i < |rs| ==> rs[i].amount >= 0
    ensures 0 <= MetricsOf(rs, origin).releasedVolume <= MetricsOf(rs, origin).securedVolume
  {
    hide Tally, Reached, Milestones, People;
    MilestonePairs();
    var nothing: Record -> int := r => 0;
    forall i | 0 <= i < |rs|
      ensures nothing(rs[i]) <= AmountIf(Completed)(rs[i]) <= AmountIf(PaymentProtected)(rs[i])
    {
      EarlierStage(rs[i], Completed, PaymentProtected);
    }
    TallyMonotone(rs, origin, AmountIf(Completed), AmountIf(PaymentProtected));
    TallyMonotone(rs, origin, nothing, AmountIf(Completed));
    TallyOfNothing(rs, origin, nothing);
  }

  lemma {:induction false} TallyOfNothing(rs: seq<Record>, origin: Option<Origin>, w: Record -> int)
    requires forall i :: 0 <= i < |rs| ==> w(rs[i]) == 0
    ensures Tally(rs, origin, w) == 0
  {
    if rs != [] {
      TallyOfNothing(rs[..|rs| - 1], origin, w);
    }
  }

  /** A cohort holds exactly the records created in its range, the start included and the end not. */
  lemma {:induction false} CohortIs(all: seq<Record>, from: int, until: int, r: Record)
    ensures multiset(Cohort(all, from, until))[r] == if from <= r.createdAt < until then multiset(all)[r] else 0
  {
    if all != [] {
      CohortIs(all[..|all| - 1], from, until, r);
      assert all == all[..|all| - 1] + [all[|all| - 1]];
    }
  }

  /** Adjacent ranges share no transaction and miss none: the rows of the two add up to the row of the whole. */
  lemma CohortMetricsAdd(all: seq<Record>, from: int, mid: int, until: int, origin: Option<Origin>)
    requires from <= mid <= until
    ensures var whole := MetricsOf(Cohort(all, from, until), origin);
      whole == Plus(MetricsOf(Cohort(all, from, mid), origin), MetricsOf(Cohort(all, mid, until), origin))
        .(sellers := whole.sellers, buyers := whole.buyers)
  {
    hide Tally, Reached, People, Cohort;
    CohortsAdd(all, from, mid, until, origin, One());
    CohortsAdd(all, from, mid, until, origin, If(LinkActive));
    CohortsAdd(all, from, mid, until, origin, If(PaymentPending));
    CohortsAdd(all, from, mid, until, origin, If(PaymentProtected));
    CohortsAdd(all, from, mid, until, origin, If(ConfirmationPending));
    CohortsAdd(all, from, mid, until, origin, If(Completed));
    CohortsAdd(all, from, mid, until, origin, If(Disputed));
    CohortsAdd(all, from, mid, until, origin, AmountIf(PaymentProtected));
    CohortsAdd(all, from, mid, until, origin, AmountIf(Completed));
    CohortsAdd(all, from, mid, until, origin, FeeIf(PaymentProtected));
  }

  lemma {:induction false} CohortsAdd(
    all: seq<Record>, from: int, mid: int, until: int, origin: Option<Origin>, w: Record -> int)
    requires from <= mid <= until
    ensures Tally(Cohort(all, from, until), origin, w) ==
      Tally(Cohort(all, from, mid), origin, w) + Tally(Cohort(all, mid, until), origin, w)
  {
    hide Tally, Cohort;
    if all == [] {
      NoCohort(from, until, origin, w);
      NoCohort(from, mid, origin, w);
      NoCohort(mid, until, origin, w);
    } else {
      var front, last := all[..|all| - 1], all[|all| - 1];
      CohortsAdd(front, from, mid, until, origin, w);
      CohortStep(front, last, from, until, origin, w);
      CohortStep(front, last, from, mid, origin, w);
      CohortStep(front, last, mid, until, origin, w);
      assert all == front + [last];
    }
  }

  lemma NoCohort(from: int, until: int, origin: Option<Origin>, w: Record -> int)
    ensures Tally(Cohort([], from, until), origin, w) == 0
  {
  }

  lemma CohortStep(front: seq<Record>, last: Record, from: int, until: int, origin: Option<Origin>, w: Record -> int)
    ensures Tally(Cohort(front + [last], from, until), origin, w) == Tally(Cohort(front, from, until), origin, w)
      + if from <= last.createdAt < until && (origin == None || origin == Some(last.origin)) then w(last) else 0
  {
    hide Tally;
    var before := Cohort(front, from, until);
    assert (front + [last])[..|front|] == front;
    assert Cohort(front + [last], from, until) == if from <= last.createdAt < until then before + [last] else before;
    TallyStep(before, last, origin, w);
  }

  // --- Totals ----------------------------------------------------------------------------------------

  function OverOrigins(rs: seq<Record>, w: Record -> int): int {
    Tally(rs, Some(Web), w) + Tally(rs, Some(Telegram), w) + Tally(rs, Some(WhatsApp), w)
    + Tally(rs, Some(Instagram), w) + Tally(rs, Some(Messenger), w) + Tally(rs, Some(X), w) + Tally(rs, Some(Eaas), w)
  }

  lemma {:induction false} TallySplits(rs: seq<Record>, w: Record -> int)
    ensures OverOrigins(rs, w) == Tally(rs, None, w)
  {
    if rs != [] {
      TallySplits(rs[..|rs| - 1], w);
      match rs[|rs| - 1].origin {
        case Web =>
        case Telegram =>
        case WhatsApp =>
        case Instagram =>
        case Messenger =>
        case X =>
        case Eaas =>
      }
    }
  }

  /** An origin that does not occur has zeros anyway. */
  lemma {:induction false} AbsentIsZero(rs: seq<Record>, o: Origin)
    requires forall i :: 0 <= i < |rs| ==> rs[i].origin != o
    ensures MetricsOf(rs, Some(o)) == ZERO
  {
    hide Reached;
    assert People(rs, Some(o), Selling) == {} && People(rs, Some(o), Buying) == {};
    forall w: Record -> int ensures Tally(rs, Some(o), w) == 0 {
      AbsentTally(rs, o, w);
    }
  }

  lemma {:induction false} AbsentTally(rs: seq<Record>, o: Origin, w: Record -> int)
    requires forall i :: 0 <= i < |rs| ==> rs[i].origin != o
    ensures Tally(rs, Some(o), w) == 0
  {
    if rs != [] {
      AbsentTally(rs[..|rs| - 1], o, w);
    }
  }

  lemma PlatformsAre(rs: seq<Record>, i: nat)
    requires i < 7
    ensures Platforms(Rows(rs))[i] == MetricsOf(rs, Some(ALL_ORIGINS[i]))
  {
    hide MetricsOf;
    var o := ALL_ORIGINS[i];
    if o !in Rows(rs) {
      forall k | 0 <= k < |rs| ensures rs[k].origin != o {
        assert rs[k] in rs;
        assert rs[k].origin in (set r | r in rs :: r.origin);
      }
      AbsentIsZero(rs, o);
    }
  }

  lemma SummedSeven(ps: seq<Metrics>)
    requires |ps| == 7
    ensures Summed(ps) == Plus(Plus(Plus(Plus(Plus(Plus(ps[0], ps[1]), ps[2]), ps[3]), ps[4]), ps[5]), ps[6])
  {
    var p6, p5, p4 := ps[..6], ps[..5], ps[..4];
    var p3, p2, p1 := ps[..3], ps[..2], ps[..1];
    assert p6[..5] == p5 && p5[..4] == p4 && p4[..3] == p3 && p3[..2] == p2 && p2[..1] == p1 && p1[..0] == [];
    hide Plus;
    assert Summed(ps) == Plus(Summed(p6), ps[6]);
    assert Summed(p6) == Plus(Summed(p5), ps[5]);
    assert Summed(p5) == Plus(Summed(p4), ps[4]);
    assert Summed(p4) == Plus(Summed(p3), ps[3]);
    assert Summed(p3) == Plus(Summed(p2), ps[2]);
    assert Summed(p2) == Plus(Summed(p1), ps[1]);
    assert Summed(p1) == Plus(ZERO, ps[0]);
    assert Plus(ZERO, ps[0]) == ps[0] by { ZeroPlus(ps[0]); }
  }

  lemma ZeroPlus(m: Metrics)
    ensures Plus(ZERO, m) == m
  {
  }

  /** The totals row is the cohort counted as a whole, in every column but the two distinct counts. */
  lemma TotalsAreTheCohort(rs: seq<Record>)
    ensures Totals(rs) == MetricsOf(rs, None).(sellers := Totals(rs).sellers, buyers := Totals(rs).buyers)
  {
    hide Tally, Reached, People, Platforms, Rows, Summed;
    var ps := Platforms(Rows(rs));
    PlatformsAre(rs, 0); PlatformsAre(rs, 1); PlatformsAre(rs, 2); PlatformsAre(rs, 3);
    PlatformsAre(rs, 4); PlatformsAre(rs, 5); PlatformsAre(rs, 6);
    SummedSeven(ps);
    TallySplits(rs, One());
    TallySplits(rs, If(LinkActive));
    TallySplits(rs, If(PaymentPending));
    TallySplits(rs, If(PaymentProtected));
    TallySplits(rs, If(ConfirmationPending));
    TallySplits(rs, If(Completed));
    TallySplits(rs, If(Disputed));
    TallySplits(rs, AmountIf(PaymentProtected));
    TallySplits(rs, AmountIf(Completed));
    TallySplits(rs, FeeIf(PaymentProtected));
  }

  lemma TotalsFunnelHolds(rs: seq<Record>)
    requires Lawful(rs)
    ensures FunnelShaped(Totals(rs))
  {
    hide Totals, MetricsOf, Lawful;
    TotalsAreTheCohort(rs);
    FunnelHolds(rs, None);
  }

  // --- Distinct people -----------------------------------------------------------------------------

  function Union(gs: seq<set<string>>): set<string> {
    if gs == [] then {} else Union(gs[..|gs| - 1]) + gs[|gs| - 1]
  }

  function Sizes(gs: seq<set<string>>): int {
    if gs == [] then 0 else Sizes(gs[..|gs| - 1]) + |gs[|gs| - 1]|
  }

  predicate Overlapping(gs: seq<set<string>>) {
    exists i, j :: 0 <= i < j < |gs| && gs[i] * gs[j] != {}
  }

  lemma {:induction false} InUnion(gs: seq<set<string>>, x: string)
    ensures x in Union(gs) <==> exists i :: 0 <= i < |gs| && x in gs[i]
  {
    if gs != [] {
      InUnion(gs[..|gs| - 1], x);
      assert x in gs[|gs| - 1] ==> exists i :: 0 <= i < |gs| && x in gs[i];
    }
  }

  lemma OverlapGrows(gs: seq<set<string>>)
    requires gs != []
    ensures Overlapping(gs) <==> Overlapping(gs[..|gs| - 1]) || Union(gs[..|gs| - 1]) * gs[|gs| - 1] != {}
  {
    var front, last := gs[..|gs| - 1], gs[|gs| - 1];
    if i, j :| 0 <= i < j < |gs| && gs[i] * gs[j] != {} {
      if j < |front| {
        assert front[i] * front[j] != {};
      } else {
        var x :| x in gs[i] * gs[j];
        InUnion(front, x);
        assert x in front[i] && x in Union(front) * last;
      }
    }
    if i, j :| 0 <= i < j < |front| && front[i] * front[j] != {} {
      assert gs[i] * gs[j] != {};
    }
    if x :| x in Union(front) * last {
      InUnion(front, x);
      var i :| 0 <= i < |front| && x in front[i];
      assert x in gs[i] * gs[|gs| - 1];
    }
  }

  /** Set sizes add up to at least the size of the union, and to no more exactly when nothing is shared. */
  lemma {:induction false} SizesOfUnion(gs: seq<set<string>>)
    ensures Sizes(gs) >= |Union(gs)|
    ensures Sizes(gs) == |Union(gs)| <==> !Overlapping(gs)
  {
    if gs != [] {
      var front, last := gs[..|gs| - 1], gs[|gs| - 1];
      SizesOfUnion(front);
      OverlapGrows(gs);
      assert |Union(front) + last| == |Union(front)| + |last| - |Union(front) * last|;
    }
  }

  function Groups(rs: seq<Record>, side: Side): seq<set<string>> {
    seq(7, i requires 0 <= i < 7 => People(rs, Some(ALL_ORIGINS[i]), side))
  }

  function Distincts(m: Metrics, side: Side): int { if side.Selling? then m.sellers else m.buyers }

  /** Some account is on this side of records of two origins. */
  ghost predicate CrossesOrigins(rs: seq<Record>, side: Side) {
    exists i, j :: 0 <= i < |rs| && 0 <= j < |rs| && SamePerson(rs[i], rs[j], side) && rs[i].origin != rs[j].origin
  }

  predicate SamePerson(a: Record, b: Record, side: Side) {
    PersonOf(a, side).Some? && PersonOf(a, side) == PersonOf(b, side)
  }

  lemma SizesOfSeven(gs: seq<set<string>>)
    requires |gs| == 7
    ensures Sizes(gs) == |gs[0]| + |gs[1]| + |gs[2]| + |gs[3]| + |gs[4]| + |gs[5]| + |gs[6]|
  {
    var p6, p5, p4 := gs[..6], gs[..5], gs[..4];
    var p3, p2, p1 := gs[..3], gs[..2], gs[..1];
    assert p6[..5] == p5 && p5[..4] == p4 && p4[..3] == p3 && p3[..2] == p2 && p2[..1] == p1 && p1[..0] == [];
    assert Sizes(gs) == Sizes(p6) + |gs[6]| && Sizes(p6) == Sizes(p5) + |gs[5]|;
    assert Sizes(p5) == Sizes(p4) + |gs[4]| && Sizes(p4) == Sizes(p3) + |gs[3]|;
    assert Sizes(p3) == Sizes(p2) + |gs[2]| && Sizes(p2) == Sizes(p1) + |gs[1]|;
  }

  /**
   The totals row adds the distinct sellers of each origin, and likewise the buyers, so it never
   undercounts, and it is the number of distinct accounts exactly when nobody appears under two origins.
   */
  lemma TotalPeopleIff(rs: seq<Record>, side: Side)
    ensures Distincts(Totals(rs), side) >= |People(rs, None, side)|
    ensures Distincts(Totals(rs), side) == |People(rs, None, side)| <==> !CrossesOrigins(rs, side)
  {
    hide Tally, Reached, Platforms, Rows, Summed, CrossesOrigins;
    var ps, gs := Platforms(Rows(rs)), Groups(rs, side);
    PlatformsAre(rs, 0); PlatformsAre(rs, 1); PlatformsAre(rs, 2); PlatformsAre(rs, 3);
    PlatformsAre(rs, 4); PlatformsAre(rs, 5); PlatformsAre(rs, 6);
    SummedSeven(ps);
    SizesOfSeven(gs);
    assert Distincts(Totals(rs), side) == Sizes(gs);
    SizesOfUnion(gs);
    UnionOfGroups(rs, side);
    OverlapIff(rs, side);
  }

  lemma OriginIndex(o: Origin) returns (i: nat)
    ensures i < 7 && ALL_ORIGINS[i] == o
  {
    i := match o
      case Web => 0 case Telegram => 1 case WhatsApp => 2 case Instagram => 3
      case Messenger => 4 case X => 5 case Eaas => 6;
  }

  lemma UnionOfGroups(rs: seq<Record>, side: Side)
    ensures Union(Groups(rs, side)) == People(rs, None, side)
  {
    var gs := Groups(rs, side);
    forall x ensures x in Union(gs) <==> x in People(rs, None, side) {
      InUnion(gs, x);
      if x in People(rs, None, side) {
        var r :| r in rs && PersonOf(r, side) == Some(x);
        var i := OriginIndex(r.origin);
        assert x in gs[i];
      }
    }
  }

  lemma InGroupOf(rs: seq<Record>, side: Side, a: nat, x: string) returns (i: nat)
    requires a < 7 && x in Groups(rs, side)[a]
    ensures i < |rs| && rs[i].origin == ALL_ORIGINS[a] && PersonOf(rs[i], side) == Some(x)
  {
    var r :| r in rs && r.origin == ALL_ORIGINS[a] && PersonOf(r, side) == Some(x);
    i :| 0 <= i < |rs| && rs[i] == r;
  }

  lemma OverlapIff(rs: seq<Record>, side: Side)
    ensures Overlapping(Groups(rs, side)) <==> CrossesOrigins(rs, side)
  {
    var gs := Groups(rs, side);
    if Overlapping(gs) {
      hide People;
      var a, b :| 0 <= a < b < |gs| && gs[a] * gs[b] != {};
      var x :| x in gs[a] * gs[b];
      var i := InGroupOf(rs, side, a, x);
      var j := InGroupOf(rs, side, b, x);
      assert SamePerson(rs[i], rs[j], side) && rs[i].origin != rs[j].origin;
    }
    if CrossesOrigins(rs, side) {
      var i, j :| 0 <= i < |rs| && 0 <= j < |rs| && SamePerson(rs[i], rs[j], side) && rs[i].origin != rs[j].origin;
      var a := OriginIndex(rs[i].origin);
      var b := OriginIndex(rs[j].origin);
      var x := PersonOf(rs[i], side).value;
      assert x in gs[a] && x in gs[b];
      assert x in gs[a] * gs[b] && x in gs[b] * gs[a];
      assert a < b || b < a;
    }
  }

  /** The rate lies between 0 and 1 and falls short of the true ratio by less than one part in 10000. */
  lemma RateBounds(m: Metrics)
    requires FunnelShaped(m)
    ensures 0 <= Rate(m.disputed, m.secured) <= 10_000
    ensures m.secured == 0 ==> Rate(m.disputed, m.secured) == 0
    ensures m.secured > 0 ==>
      Rate(m.disputed, m.secured) * m.secured <= m.disputed * 10_000 < (Rate(m.disputed, m.secured) + 1) * m.secured
  {
    if m.secured > 0 {
      QuotientBounds(m.disputed * 10_000, m.secured, 10_000);
    }
  }

  lemma QuotientBounds(n: int, d: int, c: int)
    requires d > 0 && 0 <= n <= c * d
    ensures (n / d) * d <= n < (n / d + 1) * d
    ensures 0 <= n / d <= c
  {
    SameFactor(n / d, c, d);
    SameFactor(0, n / d + 1, d);
  }

  lemma SameFactor(a: int, b: int, d: int)
    requires d > 0
    ensures a * d <= b * d ==> a <= b
    ensures a * d < b * d ==> a < b
  {
  }
}
