/** Absorbing one account into another: every owner column rewritten in one database transaction. */
module AccountMerge {
  import opened Wrappers
  import Protocol = EscrowProtocol

  type UserId = string
  type RowId = nat

  /** A row with one owner column; `rest` is everything the merge does not look at. */
  datatype Owned = Owned(owner: UserId, rest: string)

  /** The two sides of a transaction or an invoice: `rest` holds status, amounts and history. */
  datatype Deal = Deal(seller: UserId, buyer: Option<UserId>, rest: string)

  /** An invoice also has a number, which is unique per seller. */
  datatype Bill = Bill(deal: Deal, number: string)

  datatype PayoutRow = PayoutRow(seller: UserId, status: Protocol.PayoutStatus, rest: string)

  datatype Profile = Profile(
    country: Option<string>, city: Option<string>, avatar: Option<string>, bio: Option<string>, links: Option<string>)

  datatype SellerProfile = SellerProfile(recipientCode: Option<string>, rest: string)

  datatype UserStatus = Live | Deactivated
  datatype User = User(roles: seq<string>, phone: Option<string>,
    status: UserStatus, mergedInto: Option<UserId>, rest: string)

  datatype Report = Report(
    identities: nat, sold: nat, bought: nat, payouts: nat, invoicesSold: nat, invoicesBought: nat,
    notifications: nat, disputes: nat, evidence: nat, profileMerged: bool, sellerProfileMoved: bool)

  datatype AuditEntry = AccountLinked(source: UserId, target: UserId, report: Report)

  /** The tables a merge can see. Profiles are keyed by their unique user id. */
  datatype Tables = Tables(
    identities: map<RowId, Owned>, transactions: map<RowId, Deal>, payouts: map<RowId, PayoutRow>,
    invoices: map<RowId, Bill>, notifications: map<RowId, Owned>, disputes: map<RowId, Owned>,
    evidence: map<RowId, Owned>, profiles: map<UserId, Profile>, sellers: map<UserId, SellerProfile>,
    users: map<UserId, User>, audit: seq<AuditEntry>)

  datatype Collision = SellerProfileConflict | SelfTransactionConflict
  datatype MergeError = CollisionFound(kind: Collision) | PayoutInFlight | UserNotFound | NumberTaken

  // --- The substitution -----------------------------------------------------------------------

  function Subst(u: UserId, s: UserId, t: UserId): UserId { if u == s then t else u }

  function SubstBuyer(b: Option<UserId>, s: UserId, t: UserId): Option<UserId> {
    if b.Some? then Some(Subst(b.value, s, t)) else None
  }

  function OwnedMoved(rows: map<RowId, Owned>, s: UserId, t: UserId): map<RowId, Owned> {
    map id | id in rows :: rows[id].(owner := Subst(rows[id].owner, s, t))
  }

  function SellerMoved(rows: map<RowId, Deal>, s: UserId, t: UserId): map<RowId, Deal> {
    map id | id in rows :: rows[id].(seller := Subst(rows[id].seller, s, t))
  }

  function BuyerMoved(rows: map<RowId, Deal>, s: UserId, t: UserId): map<RowId, Deal> {
    map id | id in rows :: rows[id].(buyer := SubstBuyer(rows[id].buyer, s, t))
  }

  function DealMoved(row: Deal, s: UserId, t: UserId): Deal {
    Deal(Subst(row.seller, s, t), SubstBuyer(row.buyer, s, t), row.rest)
  }

  /** Both sides of every deal substituted. */
  function DealsMoved(rows: map<RowId, Deal>, s: UserId, t: UserId): map<RowId, Deal> {
    map id | id in rows :: DealMoved(rows[id], s, t)
  }

  function BillsMoved(rows: map<RowId, Bill>, s: UserId, t: UserId): map<RowId, Bill> {
    map id | id in rows :: rows[id].(deal := DealMoved(rows[id].deal, s, t))
  }

  function Deals(bills: map<RowId, Bill>): map<RowId, Deal> {
    map id | id in bills :: bills[id].deal
  }

  lemma DealsOfBills(bills: map<RowId, Bill>, s: UserId, t: UserId)
    ensures Deals(BillsMoved(bills, s, t)) == DealsMoved(Deals(bills), s, t)
  {
  }

  function PayoutsMoved(rows: map<RowId, PayoutRow>, s: UserId, t: UserId): map<RowId, PayoutRow> {
    map id | id in rows :: rows[id].(seller := Subst(rows[id].seller, s, t))
  }

  function OwnedBy(rows: map<RowId, Owned>, u: UserId): set<RowId> { set id | id in rows && rows[id].owner == u }
  function SoldBy(rows: map<RowId, Deal>, u: UserId): set<RowId> { set id | id in rows && rows[id].seller == u }
  function BoughtBy(rows: map<RowId, Deal>, u: UserId): set<RowId> { set id | id in rows && rows[id].buyer == Some(u) }
  function PaidTo(rows: map<RowId, PayoutRow>, u: UserId): set<RowId> { set id | id in rows && rows[id].seller == u }

  function Or(a: Option<string>, b: Option<string>): Option<string> { if a.Some? then a else b }

  /** The surviving profile: the winner's values, with its gaps filled. */
  function FoldedProfile(winner: Profile, loser: Profile): Profile {
    Profile(Or(winner.country, loser.country), Or(winner.city, loser.city), Or(winner.avatar, loser.avatar),
            Or(winner.bio, loser.bio), Or(winner.links, loser.links))
  }

  function ProfilesMerged(ps: map<UserId, Profile>, s: UserId, t: UserId, keepSource: bool): map<UserId, Profile> {
    if s !in ps then ps
    else if t !in ps then (ps - {s})[t := ps[s]]
    else ps[t := if keepSource then FoldedProfile(ps[s], ps[t]) else FoldedProfile(ps[t], ps[s])] - {s}
  }

  function SellersMerged(ps: map<UserId, SellerProfile>, s: UserId, t: UserId): map<UserId, SellerProfile> {
    if s !in ps then ps
    else if t in ps then ps - {s}
    else (ps - {s})[t := ps[s]]
  }

  /** First occurrences only, in order. */
  function Dedup(xs: seq<string>): (r: seq<string>)
    ensures forall x :: x in r <==> x in xs
    ensures forall i, j :: 0 <= i < j < |r| ==> r[i] != r[j]
  {
    if xs == [] then []
    else
      var front := Dedup(xs[..|xs| - 1]);
      if xs[|xs| - 1] in front then front else front + [xs[|xs| - 1]]
  }

  function Survivor(target: User, source: User): User {
    var phone := Or(target.phone, source.phone);
    target.(roles := Dedup(target.roles + source.roles),
            phone := if phone.Some? && phone.value != "" then phone else target.phone)
  }

  function Tombstone(source: User, t: UserId): User {
    source.(status := Deactivated, mergedInto := Some(t))
  }

  function ReportOf(d: Tables, s: UserId, t: UserId): Report {
    Report(|OwnedBy(d.identities, s)|, |SoldBy(d.transactions, s)|,
      |BoughtBy(d.transactions, s)|, |PaidTo(d.payouts, s)|,
           |SoldBy(Deals(d.invoices), s)|, |BoughtBy(Deals(d.invoices), s)|, |OwnedBy(d.notifications, s)|,
           |OwnedBy(d.disputes, s)|, |OwnedBy(d.evidence, s)|, s in d.profiles, s in d.sellers && t !in d.sellers)
  }

  /** What a successful merge leaves behind. */
  function Merged(d: Tables, s: UserId, t: UserId, keepSource: bool): Tables
    requires s in d.users && t in d.users
  {
    Tables(OwnedMoved(d.identities, s, t), DealsMoved(d.transactions, s, t), PayoutsMoved(d.payouts, s, t),
           BillsMoved(d.invoices, s, t), OwnedMoved(d.notifications, s, t), OwnedMoved(d.disputes, s, t),
           OwnedMoved(d.evidence, s, t), ProfilesMerged(d.profiles, s, t, keepSource), SellersMerged(d.sellers, s, t),
           d.users[t := Survivor(d.users[t], d.users[s])][s := Tombstone(d.users[s], t)],
           d.audit + [AccountLinked(s, t, ReportOf(d, s, t))])
  }

  // --- The guards -------------------------------------------------------------------------------

  predicate Between(row: Deal, s: UserId, t: UserId) {
    (row.seller == s && row.buyer == Some(t)) || (row.seller == t && row.buyer == Some(s))
  }

  predicate AnyBetween(rows: map<RowId, Deal>, s: UserId, t: UserId) {
    exists id :: id in rows && Between(rows[id], s, t)
  }

  /** The two accounts are the two sides of some transaction or invoice. */
  predicate Shared(d: Tables, s: UserId, t: UserId) {
    AnyBetween(d.transactions, s, t) || AnyBetween(Deals(d.invoices), s, t)
  }

  predicate TwoSellers(d: Tables, s: UserId, t: UserId) { s in d.sellers && t in d.sellers }

  predicate InFlight(row: PayoutRow) { row.status.Queued? || row.status.Processing? }

  predicate AnyInFlight(rows: map<RowId, PayoutRow>, s: UserId, t: UserId) {
    exists id :: id in rows && (rows[id].seller == s || rows[id].seller == t) && InFlight(rows[id])
  }

  predicate SameNumber(a: Bill, b: Bill) { a.deal.seller == b.deal.seller && a.number == b.number }

  /** The unique constraint on seller and number. */
  predicate NumbersUnique(bills: map<RowId, Bill>) {
    forall i, j :: i in bills && j in bills && SameNumber(bills[i], bills[j]) ==> i == j
  }

  /** A merge fails for the first reason that applies; the last one is the database's, half way through. */
  function Refusal(d: Tables, s: UserId, t: UserId, overridden: bool): Option<MergeError> {
    match Listed(d, s, t, overridden)
    case Some(e) => Some(e)
    case None => if NumbersUnique(BillsMoved(d.invoices, s, t)) then None else Some(NumberTaken)
  }

  // --- The service --------------------------------------------------------------------------------

  class AccountMergeService {
    var identities: map<RowId, Owned>
    var transactions: map<RowId, Deal>
    var payouts: map<RowId, PayoutRow>
    var invoices: map<RowId, Bill>
    var notifications: map<RowId, Owned>
    var disputes: map<RowId, Owned>
    var evidence: map<RowId, Owned>
    var profiles: map<UserId, Profile>
    var sellers: map<UserId, SellerProfile>
    var users: map<UserId, User>
    var audit: seq<AuditEntry>

    ghost function State(): Tables
      reads this
    {
      Tables(identities, transactions, payouts, invoices, notifications,
        disputes, evidence, profiles, sellers, users, audit)
    }

    constructor (d: Tables)
      ensures State() == d
    {
      identities, transactions, payouts, invoices := d.identities, d.transactions, d.payouts, d.invoices;
      notifications, disputes, evidence := d.notifications, d.disputes, d.evidence;
      profiles, sellers, users, audit := d.profiles, d.sellers, d.users, d.audit;
    }

    /** The seller-profile conflict is looked for first and hides a shared escrow. */
    method DetectCollision(s: UserId, t: UserId) returns (found: Option<Collision>)
      ensures found == if TwoSellers(State(), s, t) then Some(SellerProfileConflict)
                       else if Shared(State(), s, t) then Some(SelfTransactionConflict) else None
    {
      if s in sellers && t in sellers {
        return Some(SellerProfileConflict);
      }
      if AnyBetween(transactions, s, t) {
        return Some(SelfTransactionConflict);
      }
      if AnyBetween(Deals(invoices), s, t) {
        return Some(SelfTransactionConflict);
      }
      return None;
    }

    /**
     Two named accounts only: the callers compare them before they ask for a merge. Everything runs in
     one database transaction, so a violated constraint takes back what was already written.
     */
    method Merge(s: UserId, t: UserId, keepSource: bool, overridden: bool) returns (r: Result<Report, MergeError>)
      requires s != t
      modifies this
      ensures Refusal(old(State()), s, t, overridden).Some? ==>
        r == Err(Refusal(old(State()), s, t, overridden).value) && State() == old(State())
      ensures Refusal(old(State()), s, t, overridden).None? ==>
        && s in old(users) && t in old(users)
        && r == Ok(ReportOf(old(State()), s, t)) && State() == Merged(old(State()), s, t, keepSource)
    {
      hide Refusal, Listed, Merged, ReportOf, BillsMoved, NumbersUnique;
      RefusalIs(State(), s, t, overridden);
      var refused := Guard(s, t, overridden);
      if refused.Some? {
        return Err(refused.value);
      }
      r := Perform(s, t, keepSource);
    }

    /** The writes, once the guards have passed. */
    method Perform(s: UserId, t: UserId, keepSource: bool) returns (r: Result<Report, MergeError>)
      requires s != t && s in users && t in users
      modifies this
      ensures !NumbersUnique(BillsMoved(old(invoices), s, t)) ==> r == Err(NumberTaken) && State() == old(State())
      ensures NumbersUnique(BillsMoved(old(invoices), s, t)) ==>
        r == Ok(ReportOf(old(State()), s, t)) && State() == Merged(old(State()), s, t, keepSource)
    {
      hide OwnedMoved, DealsMoved, BillsMoved, PayoutsMoved, ProfilesMerged,
        SellersMerged, Survivor, Tombstone, ReportOf, NumbersUnique;
      ghost var before := State();
      ReportFlags(before, s, t);
      var savedIdentities, savedTransactions, savedPayouts := identities, transactions, payouts;
      var moved := MoveOwnership(s, t);
      if moved.Err? {
        identities, transactions, payouts := savedIdentities, savedTransactions, savedPayouts;
        return Err(NumberTaken);
      }
      var report := MergeAccounts(s, t, keepSource, moved.value);
      assert report == ReportOf(before, s, t);
      return Ok(report);
    }

    /** Profiles, seller profiles, the two user rows, and the audit entry with the counts. */
    method MergeAccounts(s: UserId, t: UserId, keepSource: bool, moved: Report) returns (report: Report)
      requires s in users && t in users && s != t
      modifies this`profiles, this`sellers, this`users, this`audit
      ensures profiles == ProfilesMerged(old(profiles), s, t, keepSource)
        && sellers == SellersMerged(old(sellers), s, t)
      ensures users == old(users)[t := Survivor(old(users)[t], old(users)[s])][s := Tombstone(old(users)[s], t)]
      ensures report == moved.(profileMerged := s in old(profiles), sellerProfileMoved := s in old(sellers)
        && t !in old(sellers))
      ensures audit == old(audit) + [AccountLinked(s, t, report)]
    {
      hide ProfilesMerged, SellersMerged, Survivor, Tombstone;
      var profileMerged := MergeProfile(s, t, keepSource);
      var sellerMoved := MoveSellerProfile(s, t);
      MergeUsers(s, t);
      report := moved.(profileMerged := profileMerged, sellerProfileMoved := sellerMoved);
      audit := audit + [AccountLinked(s, t, report)];
    }

    /** The guards run inside the merge's own transaction, before anything is written. */
    method Guard(s: UserId, t: UserId, overridden: bool) returns (refused: Option<MergeError>)
      ensures refused == Listed(State(), s, t, overridden)
      ensures refused.None? ==> s in users && t in users
    {
      hide AnyBetween, AnyInFlight;
      var collision := DetectCollision(s, t);
      if collision.Some? && !(overridden && collision == Some(SellerProfileConflict)) {
        return Some(CollisionFound(collision.value));
      }
      if AnyInFlight(payouts, s, t) {
        return Some(PayoutInFlight);
      }
      if s !in users || t !in users {
        return Some(UserNotFound);
      }
      return None;
    }

    /** Every table with an owner column, one after the other; invoices are the fourth. */
    method MoveOwnership(s: UserId, t: UserId) returns (r: Result<Report, MergeError>)
      requires s != t
      modifies this`identities, this`transactions, this`payouts,
        this`invoices, this`notifications, this`disputes, this`evidence
      ensures r.Ok? <==> NumbersUnique(BillsMoved(old(invoices), s, t))
      ensures r.Err? ==>
        invoices == old(invoices) && notifications == old(notifications)
          && disputes == old(disputes) && evidence == old(evidence)
      ensures r.Ok? ==>
        && identities == OwnedMoved(old(identities), s, t) && notifications == OwnedMoved(old(notifications), s, t)
        && transactions == DealsMoved(old(transactions), s, t) && invoices == BillsMoved(old(invoices), s, t)
        && payouts == PayoutsMoved(old(payouts), s, t)
        && disputes == OwnedMoved(old(disputes), s, t) && evidence == OwnedMoved(old(evidence), s, t)
        && r.value == ReportOf(old(State()), s, t).(profileMerged := false, sellerProfileMoved := false)
    {
      hide OwnedMoved, DealsMoved, BillsMoved, PayoutsMoved, OwnedBy, SoldBy, BoughtBy, PaidTo, NumbersUnique;
      var movedIdentities := |OwnedBy(identities, s)|;
      identities := OwnedMoved(identities, s, t);
      var sold, bought := MoveTransactions(s, t);
      var paid := |PaidTo(payouts, s)|;
      payouts := PayoutsMoved(payouts, s, t);
      var ok, billed, received := MoveInvoices(s, t);
      if !ok {
        return Err(NumberTaken);
      }
      var notified := |OwnedBy(notifications, s)|;
      notifications := OwnedMoved(notifications, s, t);
      var raised := |OwnedBy(disputes, s)|;
      disputes := OwnedMoved(disputes, s, t);
      var uploaded := |OwnedBy(evidence, s)|;
      evidence := OwnedMoved(evidence, s, t);
      return Ok(Report(movedIdentities, sold, bought, paid, billed,
        received, notified, raised, uploaded, false, false));
    }

    /** The survivor keeps its own values and fills its gaps; the absorbed account becomes a tombstone. */
    method MergeUsers(s: UserId, t: UserId)
      requires s in users && t in users && s != t
      modifies this`users
      ensures users == old(users)[t := Survivor(old(users)[t], old(users)[s])][s := Tombstone(old(users)[s], t)]
    {
      var source, target := users[s], users[t];
      users := users[t := Survivor(target, source)];
      users := users[s := Tombstone(source, t)];
    }

    /** Seller column first, buyer column second. */
    method MoveTransactions(s: UserId, t: UserId) returns (sold: nat, bought: nat)
      modifies this`transactions
      requires s != t
      ensures transactions == DealsMoved(old(transactions), s, t)
      ensures sold == |SoldBy(old(transactions), s)| && bought == |BoughtBy(old(transactions), s)|
    {
      sold := |SoldBy(transactions, s)|;
      ghost var before := transactions;
      transactions := SellerMoved(transactions, s, t);
      assert BoughtBy(transactions, s) == BoughtBy(before, s);
      bought := |BoughtBy(transactions, s)|;
      transactions := BuyerMoved(transactions, s, t);
    }

    /** The update of the seller column fails as a whole when it would give a seller one number twice. */
    method MoveInvoices(s: UserId, t: UserId) returns (ok: bool, sold: nat, bought: nat)
      modifies this`invoices
      requires s != t
      ensures ok <==> NumbersUnique(BillsMoved(old(invoices), s, t))
      ensures invoices == if ok then BillsMoved(old(invoices), s, t) else old(invoices)
      ensures ok ==> sold == |SoldBy(Deals(old(invoices)), s)| && bought == |BoughtBy(Deals(old(invoices)), s)|
    {
      ghost var before := invoices;
      ok, sold, bought := true, |SoldBy(Deals(invoices), s)|, 0;
      var updated := map id | id in invoices :: invoices[id].(deal :=
        invoices[id].deal.(seller := Subst(invoices[id].deal.seller, s, t)));
      ConstraintIsOnSellers(invoices, updated, s, t);
      if !NumbersUnique(updated) {
        ok := false;
        return;
      }
      invoices := updated;
      assert BoughtBy(Deals(invoices), s) == BoughtBy(Deals(before), s);
      bought := |BoughtBy(Deals(invoices), s)|;
      invoices := map id | id in invoices :: invoices[id].(deal :=
        invoices[id].deal.(buyer := SubstBuyer(invoices[id].deal.buyer, s, t)));
    }

    /** Move the only profile, or fold two into the target's and delete the source's. */
    method MergeProfile(s: UserId, t: UserId, keepSource: bool) returns (merged: bool)
      modifies this`profiles
      ensures profiles == ProfilesMerged(old(profiles), s, t, keepSource)
      ensures merged <==> s in old(profiles)
    {
      if s !in profiles {
        return false;
      }
      var source := profiles[s];
      if t !in profiles {
        profiles := (profiles - {s})[t := source];
        return true;
      }
      var winner, loser := profiles[t], source;
      if keepSource {
        winner, loser := loser, winner;
      }
      profiles := profiles[t := FoldedProfile(winner, loser)];
      profiles := profiles - {s};
      return true;
    }

    method MoveSellerProfile(s: UserId, t: UserId) returns (moved: bool)
      modifies this`sellers
      ensures sellers == SellersMerged(old(sellers), s, t)
      ensures moved <==> s in old(sellers) && t !in old(sellers)
    {
      moved := false;
      if s in sellers {
        var source := sellers[s];
        if t in sellers {
          sellers := sellers - {s};
        } else {
          sellers := (sellers - {s})[t := source];
          moved := true;
        }
      }
    }
  }

  /** The reasons the service itself looks for. */
  function Listed(d: Tables, s: UserId, t: UserId, overridden: bool): Option<MergeError> {
    if TwoSellers(d, s, t) && !overridden then Some(CollisionFound(SellerProfileConflict))
    else if !TwoSellers(d, s, t) && Shared(d, s, t) then Some(CollisionFound(SelfTransactionConflict))
    else if AnyInFlight(d.payouts, s, t) then Some(PayoutInFlight)
    else if s !in d.users || t !in d.users then Some(UserNotFound)
    else None
  }

  lemma ReportFlags(d: Tables, s: UserId, t: UserId)
    ensures ReportOf(d, s, t).profileMerged == (s in d.profiles)
    ensures ReportOf(d, s, t).sellerProfileMoved == (s in d.sellers && t !in d.sellers)
  {
  }

  lemma RefusalIs(d: Tables, s: UserId, t: UserId, overridden: bool)
    ensures Listed(d, s, t, overridden).Some? ==> Refusal(d, s, t, overridden) == Listed(d, s, t, overridden)
    ensures Listed(d, s, t, overridden).None? ==>
      && s in d.users && t in d.users
      && Refusal(d, s, t, overridden) == if NumbersUnique(BillsMoved(d.invoices, s, t)) then None else Some(NumberTaken)
  {
  }

  lemma ConstraintIsOnSellers(bills: map<RowId, Bill>, updated: map<RowId, Bill>, s: UserId, t: UserId)
    requires updated == map id | id in bills :: bills[id].(deal :=
      bills[id].deal.(seller := Subst(bills[id].deal.seller, s, t)))
    ensures NumbersUnique(updated) <==> NumbersUnique(BillsMoved(bills, s, t))
  {
    hide Subst, SubstBuyer;
    forall i, j | i in bills && j in bills
      ensures SameNumber(updated[i], updated[j]) == SameNumber(BillsMoved(bills, s, t)[i], BillsMoved(bills, s, t)[j])
    {
    }
    hide BillsMoved, SameNumber;
    assert BillsMoved(bills, s, t).Keys == bills.Keys by { SameBills(bills, s, t); }
  }

  lemma SameBills(bills: map<RowId, Bill>, s: UserId, t: UserId)
    ensures BillsMoved(bills, s, t).Keys == bills.Keys
  {
  }

  // --- What a merge means -----------------------------------------------------------------------

  /** One account on both sides of one deal. */
  predicate SelfDealing(row: Deal) { row.buyer == Some(row.seller) }

  predicate AnySelfDealing(rows: map<RowId, Deal>) {
    exists id :: id in rows && SelfDealing(rows[id])
  }

  predicate SelfDealingIn(d: Tables) { AnySelfDealing(d.transactions) || AnySelfDealing(Deals(d.invoices)) }

  lemma DealsCollapseIff(rows: map<RowId, Deal>, s: UserId, t: UserId)
    requires s != t
    ensures AnySelfDealing(DealsMoved(rows, s, t)) <==> AnySelfDealing(rows) || AnyBetween(rows, s, t)
  {
    var moved := DealsMoved(rows, s, t);
    if id :| id in moved && SelfDealing(moved[id]) {
      assert SelfDealing(rows[id]) || Between(rows[id], s, t);
    }
    if id :| id in rows && SelfDealing(rows[id]) {
      assert SelfDealing(moved[id]);
    }
    if id :| id in rows && Between(rows[id], s, t) {
      assert SelfDealing(moved[id]);
    }
  }

  /**
   Exactly when a completed merge makes an account its own counterparty: an administrator overrode
   the conflict of two seller profiles, and the two accounts also share an escrow or an invoice. The
   profile conflict is found first, so the shared deal is never looked for.
   */
  lemma CreatesSelfDealingIff(d: Tables, s: UserId, t: UserId, keepSource: bool, overridden: bool)
    requires s != t && Refusal(d, s, t, overridden).None? && !SelfDealingIn(d)
    ensures SelfDealingIn(Merged(d, s, t, keepSource)) <==> overridden && TwoSellers(d, s, t) && Shared(d, s, t)
  {
    hide DealsMoved, AnySelfDealing, AnyBetween, AnyInFlight, Survivor, ReportOf;
    DealsCollapseIff(d.transactions, s, t);
    DealsCollapseIff(Deals(d.invoices), s, t);
    DealsOfBills(d.invoices, s, t);
  }

  /** Without an override no merge creates self-dealing. */
  lemma NoSelfDealing(d: Tables, s: UserId, t: UserId, keepSource: bool)
    requires s != t && Refusal(d, s, t, false).None? && !SelfDealingIn(d)
    ensures !SelfDealingIn(Merged(d, s, t, keepSource))
  {
    hide Refusal, SelfDealingIn, Merged, TwoSellers, Shared;
    CreatesSelfDealingIff(d, s, t, keepSource, false);
  }

  /** Two accounts with a seller profile each and one escrow between them. */
  function SharedEscrow(s: UserId, t: UserId): Tables {
    var user := User([], None, Live, None, "");
    var seller := SellerProfile(None, "");
    Tables(map[], map[0 := Deal(s, Some(t), "")], map[], map[], map[], map[], map[], map[],
           map[s := seller, t := seller], map[s := user, t := user], [])
  }

  /** The override does reach that case. */
  lemma OverrideReachesSelfDealing(s: UserId, t: UserId, keepSource: bool)
    requires s != t
    ensures var d := SharedEscrow(s, t);
      && !SelfDealingIn(d) && Refusal(d, s, t, true).None?
      && SelfDealingIn(Merged(d, s, t, keepSource))
      && Refusal(d, s, t, false) == Some(CollisionFound(SellerProfileConflict))
  {
    var d := SharedEscrow(s, t);
    assert 0 in d.transactions && Between(d.transactions[0], s, t);
    CreatesSelfDealingIff(d, s, t, keepSource, true);
  }

  /** An invoice number of one account is a number of the other: drafts have none and share the empty one. */
  predicate NumbersMeet(bills: map<RowId, Bill>, s: UserId, t: UserId) {
    exists i, j :: i in bills && j in bills && bills[i].deal.seller == s
      && bills[j].deal.seller == t && bills[i].number == bills[j].number
  }

  /** Moving the invoices keeps every seller's numbers unique exactly when the two accounts have none in common. */
  lemma NumbersStayUniqueIff(bills: map<RowId, Bill>, s: UserId, t: UserId)
    requires s != t && NumbersUnique(bills)
    ensures NumbersUnique(BillsMoved(bills, s, t)) <==> !NumbersMeet(bills, s, t)
  {
    hide SubstBuyer;
    var moved := BillsMoved(bills, s, t);
    if i, j :|
      && i in bills && j in bills && bills[i].deal.seller == s && bills[j].deal.seller == t
      && bills[i].number == bills[j].number
    {
      assert SameNumber(moved[i], moved[j]);
    }
    forall i, j | i in moved && j in moved && SameNumber(moved[i], moved[j]) && !NumbersMeet(bills, s, t)
      ensures i == j {
      assert SameNumber(bills[i], bills[j]);
    }
  }

  /** Exactly when a merge completes: no listed reason applies, and the two accounts share no invoice number. */
  lemma MergeCompletesIff(d: Tables, s: UserId, t: UserId, overridden: bool)
    requires s != t && NumbersUnique(d.invoices)
    ensures Refusal(d, s, t, overridden).None? <==> Listed(d, s, t, overridden).None? && !NumbersMeet(d.invoices, s, t)
  {
    hide Listed, NumbersUnique, NumbersMeet, BillsMoved;
    NumbersStayUniqueIff(d.invoices, s, t);
  }

  /** The two accounts are seller and buyer of one deal, whichever is which. */
  predicate Opposite(row: Deal, s: UserId, t: UserId) {
    row.buyer.Some? && {row.seller, row.buyer.value} == {s, t}
  }

  predicate SharedDeal(d: Tables, s: UserId, t: UserId) {
    || (exists id :: id in d.transactions && Opposite(d.transactions[id], s, t))
    || (exists id :: id in d.invoices && Opposite(d.invoices[id].deal, s, t))
  }

  lemma SharedIff(d: Tables, s: UserId, t: UserId)
    requires s != t
    ensures Shared(d, s, t) <==> SharedDeal(d, s, t)
  {
    OppositeIff(d.transactions, s, t);
    OppositeIff(Deals(d.invoices), s, t);
    assert forall id :: id in d.invoices ==> Deals(d.invoices)[id] == d.invoices[id].deal;
  }

  lemma OppositeIff(rows: map<RowId, Deal>, s: UserId, t: UserId)
    requires s != t
    ensures AnyBetween(rows, s, t) <==> exists id :: id in rows && Opposite(rows[id], s, t)
  {
    forall id | id in rows ensures Between(rows[id], s, t) <==> Opposite(rows[id], s, t) {
      SidesDiffer(rows[id], s, t);
    }
  }

  lemma SidesDiffer(row: Deal, s: UserId, t: UserId)
    requires s != t
    ensures Between(row, s, t) <==> Opposite(row, s, t)
  {
    if Opposite(row, s, t) {
      assert s in {row.seller, row.buyer.value} && t in {row.seller, row.buyer.value};
    }
  }

  /** A payout of either account on its way. */
  predicate PayoutUnderWay(d: Tables, s: UserId, t: UserId) {
    exists id :: id in d.payouts && d.payouts[id].seller in {s, t}
      && (d.payouts[id].status == Protocol.Queued || d.payouts[id].status == Protocol.Processing)
  }

  /** Why a merge is refused, in the order of the reasons; the database's own reason comes last. */
  lemma RefusedBecause(d: Tables, s: UserId, t: UserId, overridden: bool)
    requires s != t && NumbersUnique(d.invoices)
    ensures Refusal(d, s, t, overridden) ==
      if s in d.sellers && t in d.sellers && !overridden then Some(CollisionFound(SellerProfileConflict))
      else if !(s in d.sellers && t in d.sellers) && SharedDeal(d, s, t)
      then Some(CollisionFound(SelfTransactionConflict))
      else if PayoutUnderWay(d, s, t) then Some(PayoutInFlight)
      else if s !in d.users || t !in d.users then Some(UserNotFound)
      else if NumbersMeet(d.invoices, s, t) then Some(NumberTaken)
      else None
  {
    hide NumbersUnique, NumbersMeet, BillsMoved, Shared, SharedDeal, AnyInFlight, PayoutUnderWay;
    SharedIff(d, s, t);
    NumbersStayUniqueIff(d.invoices, s, t);
    UnderWayIff(d, s, t);
  }

  lemma UnderWayIff(d: Tables, s: UserId, t: UserId)
    ensures AnyInFlight(d.payouts, s, t) <==> PayoutUnderWay(d, s, t)
  {
  }

  /** What the report counts: the absorbed account's rows, column by column, as they were before the merge. */
  lemma ReportCounts(d: Tables, s: UserId, t: UserId)
    ensures var r := ReportOf(d, s, t);
      && r.identities == |set id | id in d.identities && d.identities[id].owner == s|
      && r.sold == |set id | id in d.transactions && d.transactions[id].seller == s|
      && r.bought == |set id | id in d.transactions && d.transactions[id].buyer == Some(s)|
      && r.payouts == |set id | id in d.payouts && d.payouts[id].seller == s|
      && r.invoicesSold == |set id | id in d.invoices && d.invoices[id].deal.seller == s|
      && r.invoicesBought == |set id | id in d.invoices && d.invoices[id].deal.buyer == Some(s)|
      && r.notifications == |set id | id in d.notifications && d.notifications[id].owner == s|
      && r.disputes == |set id | id in d.disputes && d.disputes[id].owner == s|
      && r.evidence == |set id | id in d.evidence && d.evidence[id].owner == s|
      && (r.profileMerged <==> s in d.profiles) && (r.sellerProfileMoved <==> s in d.sellers && t !in d.sellers)
  {
    assert OwnedBy(d.identities, s) == set id | id in d.identities && d.identities[id].owner == s;
    assert OwnedBy(d.notifications, s) == set id | id in d.notifications && d.notifications[id].owner == s;
    assert OwnedBy(d.disputes, s) == set id | id in d.disputes && d.disputes[id].owner == s;
    assert OwnedBy(d.evidence, s) == set id | id in d.evidence && d.evidence[id].owner == s;
    assert SoldBy(d.transactions, s) == set id | id in d.transactions && d.transactions[id].seller == s;
    assert BoughtBy(d.transactions, s) == set id | id in d.transactions && d.transactions[id].buyer == Some(s);
    assert PaidTo(d.payouts, s) == set id | id in d.payouts && d.payouts[id].seller == s;
    assert SoldBy(Deals(d.invoices), s) == set id | id in d.invoices && d.invoices[id].deal.seller == s;
    assert BoughtBy(Deals(d.invoices), s) == set id | id in d.invoices && d.invoices[id].deal.buyer == Some(s);
  }

  /** A completed merge leaves every seller's numbers unique. */
  lemma MergeKeepsNumbersUnique(d: Tables, s: UserId, t: UserId, keepSource: bool, overridden: bool)
    requires s != t && Refusal(d, s, t, overridden).None?
    ensures s in d.users && t in d.users && NumbersUnique(Merged(d, s, t, keepSource).invoices)
  {
    hide NumbersUnique, BillsMoved, AnyBetween, AnyInFlight, Survivor, ReportOf, ProfilesMerged, SellersMerged;
  }

  /** Two accounts with an unsent invoice each, and nothing else. */
  function TwoDrafts(s: UserId, t: UserId): Tables {
    var user := User([], None, Live, None, "");
    Tables(map[], map[], map[], map[0 := Bill(Deal(s, None, ""), ""), 1 := Bill(Deal(t, None, ""), "")],
           map[], map[], map[], map[], map[], map[s := user, t := user], [])
  }

  /** Their merge passes every listed check and still fails. */
  lemma TwoDraftsCannotMerge(s: UserId, t: UserId, overridden: bool)
    requires s != t
    ensures var d := TwoDrafts(s, t);
      NumbersUnique(d.invoices) && Listed(d, s, t, overridden).None?
        && Refusal(d, s, t, overridden) == Some(NumberTaken)
  {
    var bills := TwoDrafts(s, t).invoices;
    assert bills[0].deal.seller == s && bills[1].deal.seller == t && bills[0].number == bills[1].number;
    assert NumbersMeet(bills, s, t);
    NumbersStayUniqueIff(bills, s, t);
  }

  /** The absorbed account owns nothing, the survivor owns what both did, everyone else owns the same. */
  lemma OwnershipUnited(rows: map<RowId, Owned>, s: UserId, t: UserId, u: UserId)
    requires s != t
    ensures OwnedMoved(rows, s, t).Keys == rows.Keys
    ensures OwnedBy(OwnedMoved(rows, s, t), u) ==
      if u == s then {} else if u == t then OwnedBy(rows, s) + OwnedBy(rows, t) else OwnedBy(rows, u)
    ensures |OwnedBy(OwnedMoved(rows, s, t), t)| == |OwnedBy(rows, s)| + |OwnedBy(rows, t)|
  {
    assert OwnedBy(OwnedMoved(rows, s, t), t) == OwnedBy(rows, s) + OwnedBy(rows, t);
    assert OwnedBy(rows, s) !! OwnedBy(rows, t);
  }

  lemma SalesUnited(rows: map<RowId, Deal>, s: UserId, t: UserId, u: UserId)
    requires s != t
    ensures SoldBy(DealsMoved(rows, s, t), u) ==
      if u == s then {} else if u == t then SoldBy(rows, s) + SoldBy(rows, t) else SoldBy(rows, u)
    ensures |SoldBy(DealsMoved(rows, s, t), t)| == |SoldBy(rows, s)| + |SoldBy(rows, t)|
  {
    hide SubstBuyer;
    assert SoldBy(DealsMoved(rows, s, t), t) == SoldBy(rows, s) + SoldBy(rows, t);
    assert SoldBy(rows, s) !! SoldBy(rows, t);
  }

  lemma PurchasesUnited(rows: map<RowId, Deal>, s: UserId, t: UserId, u: UserId)
    requires s != t
    ensures BoughtBy(DealsMoved(rows, s, t), u) ==
      if u == s then {} else if u == t then BoughtBy(rows, s) + BoughtBy(rows, t) else BoughtBy(rows, u)
    ensures |BoughtBy(DealsMoved(rows, s, t), t)| == |BoughtBy(rows, s)| + |BoughtBy(rows, t)|
  {
    BuyersAfter(rows, s, t, u);
    BuyersAfter(rows, s, t, t);
    hide DealsMoved;
    assert BoughtBy(rows, s) !! BoughtBy(rows, t);
  }

  lemma BuyersAfter(rows: map<RowId, Deal>, s: UserId, t: UserId, u: UserId)
    requires s != t
    ensures BoughtBy(DealsMoved(rows, s, t), u) ==
      if u == s then {} else if u == t then BoughtBy(rows, s) + BoughtBy(rows, t) else BoughtBy(rows, u)
  {
  }

  /** Absorbing `a` into `b` and `b` into `c` owns the same as absorbing both into `c`, in either order. */
  lemma MergesCompose(rows: map<RowId, Deal>, a: UserId, b: UserId, c: UserId)
    requires a != b && b != c && a != c
    ensures DealsMoved(DealsMoved(rows, a, b), b, c) == DealsMoved(DealsMoved(rows, a, c), b, c)
    ensures DealsMoved(DealsMoved(rows, a, b), b, c) == DealsMoved(DealsMoved(rows, b, c), a, c)
  {
    hide DealsMoved;
    BothAbsorbed(rows, a, b, c);
    AbsorbedBefore(rows, a, b, c);
  }

  lemma BothAbsorbed(rows: map<RowId, Deal>, a: UserId, b: UserId, c: UserId)
    requires a != b && b != c && a != c
    ensures DealsMoved(DealsMoved(rows, a, b), b, c) == DealsMoved(DealsMoved(rows, a, c), b, c)
  {
    hide DealMoved;
    forall row ensures DealMoved(DealMoved(row, a, b), b, c) == DealMoved(DealMoved(row, a, c), b, c) {
      DealAbsorbed(row, a, b, c);
    }
    MovedAlike(rows, a, b, b, c, a, c, b, c);
  }

  lemma AbsorbedBefore(rows: map<RowId, Deal>, a: UserId, b: UserId, c: UserId)
    requires a != b && b != c && a != c
    ensures DealsMoved(DealsMoved(rows, a, b), b, c) == DealsMoved(DealsMoved(rows, b, c), a, c)
  {
    hide DealMoved;
    forall row ensures DealMoved(DealMoved(row, a, b), b, c) == DealMoved(DealMoved(row, b, c), a, c) {
      DealAbsorbed(row, a, b, c);
    }
    MovedAlike(rows, a, b, b, c, b, c, a, c);
  }

  lemma DealAbsorbed(row: Deal, a: UserId, b: UserId, c: UserId)
    requires a != b && b != c && a != c
    ensures DealMoved(DealMoved(row, a, b), b, c) == DealMoved(DealMoved(row, a, c), b, c)
    ensures DealMoved(DealMoved(row, a, b), b, c) == DealMoved(DealMoved(row, b, c), a, c)
  {
  }

  /** What holds of every row moved twice holds of the table. */
  lemma MovedAlike(rows: map<RowId, Deal>,
      s: UserId, t: UserId, s': UserId, t': UserId, v: UserId, w: UserId, v': UserId, w': UserId)
    requires forall row :: DealMoved(DealMoved(row, s, t), s', t') == DealMoved(DealMoved(row, v, w), v', w')
    ensures DealsMoved(DealsMoved(rows, s, t), s', t') == DealsMoved(DealsMoved(rows, v, w), v', w')
  {
    hide DealMoved;
  }

  /** No payout changes hands while its transfer may be under way. */
  lemma MovedPayoutsAreSettled(d: Tables, s: UserId, t: UserId, keepSource: bool, overridden: bool, id: RowId)
    requires s != t && Refusal(d, s, t, overridden).None? && id in d.payouts
    ensures id in Merged(d, s, t, keepSource).payouts
    ensures Merged(d, s, t, keepSource).payouts[id] != d.payouts[id] ==>
      && d.payouts[id].seller == s
      && (d.payouts[id].status.Success? || d.payouts[id].status.Failure? || d.payouts[id].status.Reversal?)
      && Merged(d, s, t, keepSource).payouts[id] == d.payouts[id].(seller := t)
  {
    hide AnyBetween, Survivor, ReportOf, ProfilesMerged, SellersMerged;
  }

  /** Payouts go with their seller, and nothing else about them changes. */
  lemma PayoutsUnited(rows: map<RowId, PayoutRow>, s: UserId, t: UserId, u: UserId)
    requires s != t
    ensures PaidTo(PayoutsMoved(rows, s, t), u) ==
      if u == s then {} else if u == t then PaidTo(rows, s) + PaidTo(rows, t) else PaidTo(rows, u)
    ensures forall id :: id in rows ==>
      && id in PayoutsMoved(rows, s, t)
      && PayoutsMoved(rows, s, t)[id].status == rows[id].status && PayoutsMoved(rows, s, t)[id].rest == rows[id].rest
  {
  }

  /** Owner columns aside, no row of any other table changes. */
  lemma RestUntouched(owned: map<RowId, Owned>, deals: map<RowId, Deal>, bills: map<RowId, Bill>, s: UserId, t: UserId)
    ensures OwnedMoved(owned, s, t).Keys == owned.Keys && DealsMoved(deals, s, t).Keys == deals.Keys
    ensures BillsMoved(bills, s, t).Keys == bills.Keys
    ensures forall id :: id in owned ==> OwnedMoved(owned, s, t)[id].rest == owned[id].rest
    ensures forall id :: id in deals ==> DealsMoved(deals, s, t)[id].rest == deals[id].rest
    ensures forall id :: id in bills ==>
      && BillsMoved(bills, s, t)[id].number == bills[id].number
      && BillsMoved(bills, s, t)[id].deal.rest == bills[id].deal.rest
  {
  }

  /** What a completed merge makes of the accounts: the absorbed one is retired and points to the survivor. */
  lemma AbsorbedIsRetired(d: Tables, s: UserId, t: UserId, keepSource: bool, overridden: bool)
    requires s != t && Refusal(d, s, t, overridden).None?
    ensures s in d.users && t in d.users && Merged(d, s, t, keepSource).users.Keys == d.users.Keys
    ensures var was, now := d.users[s], Merged(d, s, t, keepSource).users[s];
      && now.status == Deactivated && now.mergedInto == Some(t)
      && now.roles == was.roles && now.phone == was.phone && now.rest == was.rest
    ensures var was, now := d.users[t], Merged(d, s, t, keepSource).users[t];
      now.status == was.status && now.mergedInto == was.mergedInto && now.rest == was.rest
    ensures forall u :: u in d.users && u != s && u != t ==> Merged(d, s, t, keepSource).users[u] == d.users[u]
  {
    hide AnyBetween, AnyInFlight, ReportOf, ProfilesMerged, SellersMerged, NumbersUnique, BillsMoved, Dedup;
  }

  /** One profile at most is left between the two, one exactly if there was any; likewise seller profiles. */
  lemma OneProfileLeft(d: Tables, s: UserId, t: UserId, keepSource: bool)
    requires s != t
    ensures ProfilesMerged(d.profiles, s, t, keepSource).Keys
      == (d.profiles.Keys - {s}) + if s in d.profiles then {t} else {}
    ensures SellersMerged(d.sellers, s, t).Keys == (d.sellers.Keys - {s}) + if s in d.sellers then {t} else {}
    ensures t in d.sellers ==> SellersMerged(d.sellers, s, t)[t] == d.sellers[t]
    ensures t !in d.sellers && s in d.sellers ==> SellersMerged(d.sellers, s, t)[t] == d.sellers[s]
    ensures t !in d.profiles && s in d.profiles ==> ProfilesMerged(d.profiles, s, t, keepSource)[t] == d.profiles[s]
    ensures forall u :: u in d.sellers && u != s && u != t ==> SellersMerged(d.sellers, s, t)[u] == d.sellers[u]
    ensures forall u :: u in d.profiles && u != s && u != t ==>
      ProfilesMerged(d.profiles, s, t, keepSource)[u] == d.profiles[u]
  {
  }

  /** The chosen profile loses nothing, and a gap is filled exactly when the other side can fill it. */
  lemma ProfileFolded(d: Tables, s: UserId, t: UserId, keepSource: bool)
    requires s != t && s in d.profiles && t in d.profiles
    ensures t in ProfilesMerged(d.profiles, s, t, keepSource)
    ensures var r := ProfilesMerged(d.profiles, s, t, keepSource)[t];
      var w := d.profiles[if keepSource then s else t];
      var l := d.profiles[if keepSource then t else s];
      && (w.country.Some? ==> r.country == w.country) && (r.country.Some? <==> w.country.Some? || l.country.Some?)
      && (w.city.Some? ==> r.city == w.city) && (r.city.Some? <==> w.city.Some? || l.city.Some?)
      && (w.avatar.Some? ==> r.avatar == w.avatar) && (r.avatar.Some? <==> w.avatar.Some? || l.avatar.Some?)
      && (w.bio.Some? ==> r.bio == w.bio) && (r.bio.Some? <==> w.bio.Some? || l.bio.Some?)
      && (w.links.Some? ==> r.links == w.links) && (r.links.Some? <==> w.links.Some? || l.links.Some?)
  {
  }

  /** The survivor has every role of either account once, its own first, and keeps a phone it had. */
  lemma {:induction false} SurvivorKeepsItsOwn(target: User, source: User)
    ensures forall r :: r in Survivor(target, source).roles <==> r in target.roles || r in source.roles
    ensures Distinct(Survivor(target, source).roles)
    ensures Distinct(target.roles) ==> target.roles <= Survivor(target, source).roles
    ensures target.phone.Some? ==> Survivor(target, source).phone == target.phone
    ensures target.phone.None? ==>
      Survivor(target, source).phone == if source.phone == Some("") then None else source.phone
    ensures Survivor(target, source).status == target.status && Survivor(target, source).mergedInto == target.mergedInto
  {
    if Distinct(target.roles) {
      DedupKeepsPrefix(target.roles, source.roles);
    }
  }

  predicate Distinct(xs: seq<string>) { forall i, j :: 0 <= i < j < |xs| ==> xs[i] != xs[j] }

  lemma {:induction false} DedupKeepsPrefix(xs: seq<string>, ys: seq<string>)
    requires Distinct(xs)
    ensures xs <= Dedup(xs + ys)
    decreases |ys|, |xs|
  {
    if ys != [] {
      assert (xs + ys)[..|xs + ys| - 1] == xs + ys[..|ys| - 1];
      DedupKeepsPrefix(xs, ys[..|ys| - 1]);
    } else if xs != [] {
      assert xs + ys == xs;
      var front := xs[..|xs| - 1];
      DedupKeepsPrefix(front, []);
      assert front + [] == front;
      DedupOfDistinct(xs);
    }
  }

  lemma {:induction false} DedupOfDistinct(xs: seq<string>)
    requires Distinct(xs)
    ensures Dedup(xs) == xs
  {
    if xs != [] {
      DedupOfDistinct(xs[..|xs| - 1]);
    }
  }
}
