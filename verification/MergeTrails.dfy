/**
 Chains of merges. An absorbed account points to the account that absorbed it; following the links is
 meant to lead to the account that owns its rows now.
 */
module MergeTrails {
  import opened Wrappers
  import opened AccountMerge

  type Users = map<UserId, User>

  /** A trail of links, to an account that was never absorbed. */
  predicate Trail(users: Users, p: seq<UserId>) {
    && p != [] && (forall i :: 0 <= i < |p| ==> p[i] in users)
    && (forall i :: 0 <= i < |p| - 1 ==> users[p[i]].mergedInto == Some(p[i + 1]))
    && users[p[|p| - 1]].mergedInto.None?
  }

  predicate TrailFrom(users: Users, p: seq<UserId>, u: UserId, v: UserId) {
    Trail(users, p) && p[0] == u && p[|p| - 1] == v
  }

  ghost predicate Ends(users: Users, u: UserId, v: UserId) { exists p :: TrailFrom(users, p, u, v) }

  lemma TailOfTrail(users: Users, p: seq<UserId>, i: nat)
    requires Trail(users, p) && i < |p|
    ensures TrailFrom(users, p[i..], p[i], p[|p| - 1])
  {
  }

  /** There is one trail from each account at most. */
  lemma {:induction false} TrailUnique(users: Users, p: seq<UserId>, q: seq<UserId>)
    requires Trail(users, p) && Trail(users, q) && p[0] == q[0]
    ensures p == q
  {
    assert |p| > 1 ==> users[p[0]].mergedInto == Some(p[1]);
    assert |q| > 1 ==> users[q[0]].mergedInto == Some(q[1]);
    if |p| > 1 {
      TailOfTrail(users, p, 1);
      TailOfTrail(users, q, 1);
      TrailUnique(users, p[1..], q[1..]);
      assert p == [p[0]] + p[1..] && q == [q[0]] + q[1..];
    }
  }

  /** A trail never comes back. */
  lemma TrailForward(users: Users, p: seq<UserId>, i: nat, j: nat)
    requires Trail(users, p) && i < j < |p|
    ensures p[i] != p[j]
  {
    if p[i] == p[j] {
      TailOfTrail(users, p, i);
      TailOfTrail(users, p, j);
      TrailUnique(users, p[i..], p[j..]);
    }
  }

  /** The link of `s` now leads to `t`; no other link has changed. */
  predicate Repointed(users: Users, now: Users, s: UserId, t: UserId) {
    && now.Keys == users.Keys && s in users && t in users && now[s].mergedInto == Some(t)
    && forall u :: u in users && u != s ==> now[u].mergedInto == users[u].mergedInto
  }

  /** Every account's trail ends at the owner of its rows. */
  ghost predicate Tracks(users: Users, owner: map<UserId, UserId>) {
    owner.Keys == users.Keys && forall u :: u in users ==> Ends(users, u, owner[u])
  }

  function Moved(owner: map<UserId, UserId>, s: UserId, t: UserId): map<UserId, UserId> {
    map u | u in owner :: Subst(owner[u], s, t)
  }

  /** A trail that avoids `s` is not affected. */
  lemma Elsewhere(users: Users, now: Users, s: UserId, t: UserId, p: seq<UserId>)
    requires Repointed(users, now, s, t) && s !in p
    ensures Trail(users, p) <==> Trail(now, p)
  {
  }

  /** The part of a trail before its first `s`, continued by another trail. */
  lemma Rerouted(users: Users, now: Users, s: UserId, t: UserId, p: seq<UserId>, i: nat, q: seq<UserId>)
    requires Repointed(users, now, s, t) && Trail(users, p) && i < |p| && p[i] == s
    requires Trail(now, q) && q[0] == t
    ensures Trail(now, p[..i + 1] + q) && (p[..i + 1] + q)[0] == p[0]
  {
    forall k | 0 <= k < i ensures p[k] != s {
      TrailForward(users, p, k, i);
    }
    var r := p[..i + 1] + q;
    forall k | 0 <= k < |r| - 1 ensures now[r[k]].mergedInto == Some(r[k + 1]) {
      if k < i {
        assert r[k] == p[k] && r[k + 1] == p[k + 1];
      }
    }
  }

  /** When the trails stay right: the absorbed account was live and so is the target, or nothing really moves. */
  ghost predicate MayAbsorb(users: Users, owner: map<UserId, UserId>, s: UserId, t: UserId)
    requires s in users && t in users && s in owner
  {
    if users[s].mergedInto.None? then users[t].mergedInto.None?
    else exists q :: TrailFrom(users, q, t, owner[s]) && s !in q
  }

  lemma TargetTrail(users: Users, now: Users, owner: map<UserId, UserId>, s: UserId, t: UserId) returns (q: seq<UserId>)
    requires s != t && Tracks(users, owner) && Repointed(users, now, s, t) && MayAbsorb(users, owner, s, t)
    ensures TrailFrom(now, q, t, Subst(owner[s], s, t))
  {
    var p :| TrailFrom(users, p, s, owner[s]);
    if users[s].mergedInto.None? {
      TrailUnique(users, p, [s]);
      q := [t];
    } else {
      q :| TrailFrom(users, q, t, owner[s]) && s !in q;
      Elsewhere(users, now, s, t, q);
      assert q[|q| - 1] in q;
    }
  }

  lemma AbsorbTracks(users: Users, now: Users, owner: map<UserId, UserId>, s: UserId, t: UserId)
    requires s != t && Tracks(users, owner) && Repointed(users, now, s, t) && MayAbsorb(users, owner, s, t)
    ensures Tracks(now, Moved(owner, s, t))
  {
    var q := TargetTrail(users, now, owner, s, t);
    forall u | u in users ensures Ends(now, u, Subst(owner[u], s, t)) {
      var p :| TrailFrom(users, p, u, owner[u]);
      if i: nat :| i < |p| && p[i] == s {
        Rerouted(users, now, s, t, p, i, q);
        SameEnd(users, owner, p, i, s);
        assert TrailFrom(now, p[..i + 1] + q, u, Subst(owner[u], s, t));
      } else {
        assert s !in p && p[|p| - 1] in p;
        Elsewhere(users, now, s, t, p);
        assert TrailFrom(now, p, u, Subst(owner[u], s, t));
      }
    }
  }

  /** Who passes through `s` ends where `s` ends. */
  lemma SameEnd(users: Users, owner: map<UserId, UserId>, p: seq<UserId>, i: nat, s: UserId)
    requires Tracks(users, owner) && Trail(users, p) && i < |p| && p[i] == s && s in owner
    ensures p[|p| - 1] == owner[s]
  {
    var q :| TrailFrom(users, q, s, owner[s]);
    TailOfTrail(users, p, i);
    TrailUnique(users, p[i..], q);
  }

  lemma LiveSourceNeedsLiveTarget(users: Users, now: Users, owner: map<UserId, UserId>, s: UserId, t: UserId)
    requires s != t && Tracks(users, owner) && Repointed(users, now, s, t) && Tracks(now, Moved(owner, s, t))
    requires users[s].mergedInto.None?
    ensures users[t].mergedInto.None?
  {
    hide Trail;
    assert Ends(users, s, owner[s]) && Ends(now, s, Moved(owner, s, t)[s]);
    var p :| TrailFrom(users, p, s, owner[s]);
    FirstStep(users, p);
    var r :| TrailFrom(now, r, s, t);
    LastIsLive(now, r);
  }

  lemma FirstStep(users: Users, p: seq<UserId>)
    requires Trail(users, p)
    ensures p != [] && p[0] in users && (|p| > 1 ==> users[p[0]].mergedInto == Some(p[1]))
  {
  }

  lemma LastIsLive(users: Users, p: seq<UserId>)
    requires Trail(users, p)
    ensures p != [] && p[|p| - 1] in users && users[p[|p| - 1]].mergedInto.None?
  {
  }

  lemma AbsorbedSourceNeedsTrail(
    users: Users, now: Users, owner: map<UserId, UserId>, s: UserId, t: UserId, p: seq<UserId>, r: seq<UserId>)
    requires s != t && s in owner && Repointed(users, now, s, t) && users[s].mergedInto.Some?
    requires TrailFrom(users, p, s, owner[s]) && TrailFrom(now, r, s, Subst(owner[s], s, t))
    ensures |r| > 1 && TrailFrom(users, r[1..], t, owner[s]) && s !in r[1..]
  {
    TrailForward(users, p, 0, |p| - 1);
    TailOfTrail(now, r, 1);
    var q := r[1..];
    forall k | 0 <= k < |q| ensures q[k] != s {
      TrailForward(now, r, 0, k + 1);
    }
    Elsewhere(users, now, s, t, q);
  }

  lemma TracksMayAbsorb(users: Users, now: Users, owner: map<UserId, UserId>, s: UserId, t: UserId)
    requires s != t && Tracks(users, owner) && Repointed(users, now, s, t) && Tracks(now, Moved(owner, s, t))
    ensures MayAbsorb(users, owner, s, t)
  {
    hide Trail;
    if users[s].mergedInto.None? {
      LiveSourceNeedsLiveTarget(users, now, owner, s, t);
    } else {
      assert Ends(users, s, owner[s]) && Ends(now, s, Moved(owner, s, t)[s]);
      var p :| TrailFrom(users, p, s, owner[s]);
      var r :| TrailFrom(now, r, s, Subst(owner[s], s, t));
      AbsorbedSourceNeedsTrail(users, now, owner, s, t, p, r);
      assert TrailFrom(users, r[1..], t, owner[s]);
    }
  }

  /**
   Exactly when a merge keeps the links right: it absorbs an account that was never absorbed into one
   that was never absorbed; or, absorbing an account a second time, into one that already leads to its owner.
   */
  lemma TrailsStayRightIff(
    d: Tables, s: UserId, t: UserId, keepSource: bool, overridden: bool, owner: map<UserId, UserId>)
    requires s != t && Refusal(d, s, t, overridden).None? && Tracks(d.users, owner)
    ensures s in d.users && t in d.users && s in owner
    ensures Tracks(Merged(d, s, t, keepSource).users, Moved(owner, s, t)) <==> MayAbsorb(d.users, owner, s, t)
  {
    hide Refusal, Merged, Tracks, MayAbsorb;
    AbsorbedIsRetired(d, s, t, keepSource, overridden);
    var now := Merged(d, s, t, keepSource).users;
    assert Repointed(d.users, now, s, t);
    TracksKeys(d.users, owner);
    if MayAbsorb(d.users, owner, s, t) {
      AbsorbTracks(d.users, now, owner, s, t);
    }
    if Tracks(now, Moved(owner, s, t)) {
      TracksMayAbsorb(d.users, now, owner, s, t);
    }
  }

  lemma TracksKeys(users: Users, owner: map<UserId, UserId>)
    requires Tracks(users, owner)
    ensures owner.Keys == users.Keys
  {
  }

  // --- Chains ----------------------------------------------------------------------------------------

  datatype Absorption = Absorption(source: UserId, target: UserId, keepSource: bool, overridden: bool)

  /** The tables after a chain of completed merges. */
  ghost function AfterMerges(d: Tables, ms: seq<Absorption>): Option<Tables> {
    if ms == [] then Some(d)
    else
      var before, m := AfterMerges(d, ms[..|ms| - 1]), ms[|ms| - 1];
      if before.Some? && m.source != m.target && Refusal(before.value, m.source, m.target, m.overridden).None?
      then
        AbsorbedIsRetired(before.value, m.source, m.target, m.keepSource, m.overridden);
        Some(Merged(before.value, m.source, m.target, m.keepSource))
      else None
  }

  predicate Absorbed(ms: seq<Absorption>, u: UserId) { exists i :: 0 <= i < |ms| && ms[i].source == u }

  lemma AbsorbedGrows(ms: seq<Absorption>, u: UserId)
    requires ms != []
    ensures Absorbed(ms, u) <==> Absorbed(ms[..|ms| - 1], u) || ms[|ms| - 1].source == u
  {
    var shorter := ms[..|ms| - 1];
    if i :| 0 <= i < |shorter| && shorter[i].source == u { assert ms[i].source == u; }
    if i :| 0 <= i < |ms| && ms[i].source == u { assert i < |ms| - 1 ==> shorter[i].source == u; }
  }

  /** After any chain exactly the live accounts that were never absorbed are live. */
  lemma {:induction false} LiveIff(d: Tables, ms: seq<Absorption>, u: UserId)
    requires AfterMerges(d, ms).Some? && u in d.users
    ensures u in AfterMerges(d, ms).value.users
    ensures AfterMerges(d, ms).value.users[u].status.Live? <==> d.users[u].status.Live? && !Absorbed(ms, u)
    ensures Absorbed(ms, u) ==> AfterMerges(d, ms).value.users[u].mergedInto.Some?
    ensures !Absorbed(ms, u) ==> AfterMerges(d, ms).value.users[u].mergedInto == d.users[u].mergedInto
  {
    hide Refusal, Merged;
    if ms != [] {
      var m := ms[|ms| - 1];
      LiveIff(d, ms[..|ms| - 1], u);
      AbsorbedGrows(ms, u);
      AbsorbedIsRetired(AfterMerges(d, ms[..|ms| - 1]).value, m.source, m.target, m.keepSource, m.overridden);
    }
  }

  /** Who owns now what `u` owned before the chain. */
  function OwnerAfter(ms: seq<Absorption>, u: UserId): UserId {
    if ms == [] then u else Subst(OwnerAfter(ms[..|ms| - 1], u), ms[|ms| - 1].source, ms[|ms| - 1].target)
  }

  /** Through any chain, an owner column moves to the owner so computed. */
  lemma {:induction false} OwnedThrough(d: Tables, ms: seq<Absorption>, id: RowId)
    requires AfterMerges(d, ms).Some?
    ensures var now := AfterMerges(d, ms).value;
      && (id in d.identities ==>
            id in now.identities && now.identities[id].owner == OwnerAfter(ms, d.identities[id].owner))
      && (id in d.transactions ==>
            id in now.transactions && now.transactions[id].seller == OwnerAfter(ms, d.transactions[id].seller))
      && (id in d.payouts ==> id in now.payouts && now.payouts[id].seller == OwnerAfter(ms, d.payouts[id].seller))
  {
    hide Refusal, ReportOf, ProfilesMerged, SellersMerged, Survivor, Tombstone, Subst, SubstBuyer;
    if ms != [] {
      OwnedThrough(d, ms[..|ms| - 1], id);
    }
  }

  /** Each merge of the chain absorbs an account never absorbed before into another such account. */
  predicate LiveEnds(ms: seq<Absorption>) {
    forall i, j :: 0 <= i < j < |ms| ==> ms[i].source != ms[j].source && ms[i].source != ms[j].target
  }

  function Owners(d: Tables, ms: seq<Absorption>): map<UserId, UserId> {
    map u | u in d.users :: OwnerAfter(ms, u)
  }

  lemma OwnersStep(d: Tables, ms: seq<Absorption>)
    requires ms != []
    ensures Owners(d, ms) == Moved(Owners(d, ms[..|ms| - 1]), ms[|ms| - 1].source, ms[|ms| - 1].target)
  {
  }

  lemma {:induction false} LiveChainTracks(d: Tables, ms: seq<Absorption>)
    requires AfterMerges(d, ms).Some? && LiveEnds(ms) && NeverAbsorbed(d.users)
    ensures Tracks(AfterMerges(d, ms).value.users, Owners(d, ms))
  {
    hide Merged, Tracks, Refusal, Owners;
    if ms == [] {
      NobodyAbsorbed(d, ms);
    } else {
      var shorter, m := ms[..|ms| - 1], ms[|ms| - 1];
      EndsShorter(ms);
      LiveChainTracks(d, shorter);
      var before := AfterMerges(d, shorter).value;
      AbsorbedIsRetired(before, m.source, m.target, m.keepSource, m.overridden);
      TracksKeys(before.users, Owners(d, shorter));
      LiveTargets(d, shorter, m);
      TrailsStayRightIff(before, m.source, m.target, m.keepSource, m.overridden, Owners(d, shorter));
      OwnersStep(d, ms);
    }
  }

  predicate NeverAbsorbed(users: Users) { forall u :: u in users ==> users[u].mergedInto.None? }

  lemma EndsShorter(ms: seq<Absorption>)
    requires LiveEnds(ms) && ms != []
    ensures LiveEnds(ms[..|ms| - 1])
    ensures !Absorbed(ms[..|ms| - 1], ms[|ms| - 1].source) && !Absorbed(ms[..|ms| - 1], ms[|ms| - 1].target)
  {
    assert forall i :: 0 <= i < |ms| - 1 ==> ms[..|ms| - 1][i] == ms[i];
  }

  lemma LiveTargets(d: Tables, ms: seq<Absorption>, m: Absorption)
    requires AfterMerges(d, ms).Some? && NeverAbsorbed(d.users)
    requires m.source in AfterMerges(d, ms).value.users && m.target in AfterMerges(d, ms).value.users
    requires Tracks(AfterMerges(d, ms).value.users, Owners(d, ms)) && m.source in Owners(d, ms)
    requires m.target in Owners(d, ms) && !Absorbed(ms, m.source) && !Absorbed(ms, m.target)
    ensures MayAbsorb(AfterMerges(d, ms).value.users, Owners(d, ms), m.source, m.target)
  {
    hide AfterMerges, Tracks, Absorbed;
    LiveIff(d, ms, m.source);
    LiveIff(d, ms, m.target);
  }

  lemma NobodyAbsorbed(d: Tables, ms: seq<Absorption>)
    requires NeverAbsorbed(d.users) && ms == []
    ensures Tracks(d.users, Owners(d, ms))
  {
    forall u | u in d.users ensures Ends(d.users, u, u) {
      assert TrailFrom(d.users, [u], u, u);
    }
  }

  lemma EndsAtOwner(d: Tables, ms: seq<Absorption>, users: Users, u: UserId)
    requires Tracks(users, Owners(d, ms)) && u in d.users
    ensures Ends(users, u, OwnerAfter(ms, u))
  {
    hide Ends;
    assert u in Owners(d, ms) && Owners(d, ms)[u] == OwnerAfter(ms, u);
  }

  /**
   Following the links from an account after a chain of merges between accounts not absorbed before ends at
   the account that owns its identities, its sales and its payouts.
   */
  lemma LinksFindTheOwner(d: Tables, ms: seq<Absorption>, id: RowId)
    requires AfterMerges(d, ms).Some? && LiveEnds(ms) && NeverAbsorbed(d.users)
    ensures var now := AfterMerges(d, ms).value;
      && (id in d.identities && d.identities[id].owner in d.users ==>
            id in now.identities && Ends(now.users, d.identities[id].owner, now.identities[id].owner))
      && (id in d.transactions && d.transactions[id].seller in d.users ==>
            id in now.transactions && Ends(now.users, d.transactions[id].seller, now.transactions[id].seller))
      && (id in d.payouts && d.payouts[id].seller in d.users ==>
            id in now.payouts && Ends(now.users, d.payouts[id].seller, now.payouts[id].seller))
  {
    hide AfterMerges, Ends, Tracks, Owners, OwnerAfter;
    LiveChainTracks(d, ms);
    OwnedThrough(d, ms, id);
    var now := AfterMerges(d, ms).value.users;
    forall u | u in d.users ensures Ends(now, u, OwnerAfter(ms, u)) {
      EndsAtOwner(d, ms, now, u);
    }
  }

  /** An account with no seller profile and no part in any deal or payout. */
  predicate Uninvolved(d: Tables, u: UserId) {
    && u in d.users && u !in d.sellers
    && (forall id :: id in d.transactions ==> d.transactions[id].seller != u && d.transactions[id].buyer != Some(u))
    && (forall id :: id in d.invoices ==> d.invoices[id].deal.seller != u && d.invoices[id].deal.buyer != Some(u))
    && forall id :: id in d.payouts ==> d.payouts[id].seller != u
  }

  /**
   A parked request does not look at what happened since: when its source has been absorbed elsewhere in the
   meantime, completing it points the source away from the account that owns its rows.
   */
  lemma ParkedMergeLosesTheOwner(d: Tables, a: UserId, b: UserId, c: UserId, id: RowId)
    requires a != b && b != c && a != c && Uninvolved(d, a) && Uninvolved(d, b) && Uninvolved(d, c)
    requires NumbersUnique(d.invoices) && d.users[c].mergedInto.None?
    requires id in d.identities && d.identities[id].owner == a
    ensures var ms := [Absorption(a, b, false, false), Absorption(a, c, false, true)];
      var now := AfterMerges(d, ms);
      && now.Some? && id in now.value.identities && now.value.identities[id].owner == b
      && a in now.value.users && Ends(now.value.users, a, c) && !Ends(now.value.users, a, b)
  {
    hide Refusal, ReportOf, ProfilesMerged, SellersMerged, Survivor, Tombstone, Uninvolved, NumbersUnique;
    hide BillsMoved, DealsMoved, PayoutsMoved, Trail;
    var first, second := Absorption(a, b, false, false), Absorption(a, c, false, true);
    var ms := [first, second];
    assert ms[..1] == [first] && [first][..0] == [];
    NothingRefused(d, a, b, false);
    var e := Merged(d, a, b, false);
    assert AfterMerges(d, []) == Some(d) && AfterMerges(d, [first]) == Some(e);
    AbsorbedIsRetired(d, a, b, false, false);
    NothingMoves(d, a, b);
    UninvolvedStays(d, a, b, a);
    UninvolvedStays(d, a, b, c);
    NothingRefused(e, a, c, true);
    AbsorbedIsRetired(e, a, c, false, true);
    var now := Merged(e, a, c, false);
    assert AfterMerges(d, ms) == Some(now);
    assert TrailFrom(now.users, [a, c], a, c) by { LinksStraight(now.users, a, c); }
    if p :| TrailFrom(now.users, p, a, b) {
      TrailUnique(now.users, p, [a, c]);
      assert false;
    }
  }

  lemma LinksStraight(users: Users, u: UserId, v: UserId)
    requires u in users && v in users && users[u].mergedInto == Some(v) && users[v].mergedInto.None?
    ensures Trail(users, [u, v])
  {
  }

  /** Accounts without deals can be merged. */
  lemma NothingRefused(d: Tables, s: UserId, t: UserId, overridden: bool)
    requires s != t && Uninvolved(d, s) && Uninvolved(d, t) && NumbersUnique(d.invoices)
    ensures s in d.users && t in d.users && Refusal(d, s, t, overridden).None?
  {
    hide NumbersUnique;
    assert BillsMoved(d.invoices, s, t) == d.invoices;
    NobodyBetween(d, s, t);
  }

  lemma NobodyBetween(d: Tables, s: UserId, t: UserId)
    requires Uninvolved(d, s)
    ensures !Shared(d, s, t)
  {
  }

  lemma UninvolvedStays(d: Tables, s: UserId, t: UserId, u: UserId)
    requires s != t && Uninvolved(d, s) && Uninvolved(d, t) && Uninvolved(d, u)
    ensures Uninvolved(Merged(d, s, t, false), u)
  {
    hide ReportOf, ProfilesMerged, Survivor, Tombstone, BillsMoved, DealsMoved, PayoutsMoved;
    NothingMoves(d, s, t);
  }

  lemma NothingMoves(d: Tables, s: UserId, t: UserId)
    requires Uninvolved(d, s)
    ensures BillsMoved(d.invoices, s, t) == d.invoices && DealsMoved(d.transactions, s, t) == d.transactions
    ensures PayoutsMoved(d.payouts, s, t) == d.payouts
  {
  }
}
