/** One-time codes that stand for the buyer's confirmation of a delivery. */
module Otp {
  import opened Wrappers

  type Hash = string

  /** A row of otp_codes. Rows are kept in the order they were created. */
  datatype Code = Code(tx: string, purpose: string, hash: Hash, expiresAt: int, attempts: nat, consumed: bool)

  datatype OtpError = NotIssuable | NoActiveCode | Expired | Locked | Mismatch

  datatype Setup = Setup(hash: string -> Hash, ttl: int, maxAttempts: nat)

  predicate Keyed(c: Code, tx: string, purpose: string) { c.tx == tx && c.purpose == purpose }

  predicate SameKey(c: Code, d: Code) { Keyed(c, d.tx, d.purpose) }

  predicate Active(c: Code, tx: string, purpose: string) { Keyed(c, tx, purpose) && !c.consumed }

  /** Every active code of the key marked consumed. */
  function Retired(codes: seq<Code>, tx: string, purpose: string): (r: seq<Code>)
    ensures |r| == |codes|
    ensures forall i :: 0 <= i < |r| ==>
      r[i] == codes[i].(consumed := codes[i].consumed || Keyed(codes[i], tx, purpose))
  {
    if codes == [] then []
    else
      var last := codes[|codes| - 1];
      Retired(codes[..|codes| - 1], tx, purpose) + [last.(consumed := last.consumed || Keyed(last, tx, purpose))]
  }

  /** The newest active code of the key. */
  function Newest(codes: seq<Code>, tx: string, purpose: string): (found: Option<nat>)
    ensures found.Some? ==> found.value < |codes| && Active(codes[found.value], tx, purpose)
    ensures found.Some? ==> forall j :: found.value < j < |codes| ==> !Active(codes[j], tx, purpose)
    ensures found.None? ==> forall j :: 0 <= j < |codes| ==> !Active(codes[j], tx, purpose)
  {
    if codes == [] then None
    else if Active(codes[|codes| - 1], tx, purpose) then Some(|codes| - 1)
    else Newest(codes[..|codes| - 1], tx, purpose)
  }

  function Judge(c: Setup, codes: seq<Code>, tx: string, purpose: string, guess: string, now: int): Result<nat,
      OtpError> {
    match Newest(codes, tx, purpose)
    case None => Err(NoActiveCode)
    case Some(id) =>
      if codes[id].expiresAt <= now then Err(Expired)
      else if codes[id].attempts >= c.maxAttempts then Err(Locked)
      else if c.hash(guess) != codes[id].hash then Err(Mismatch)
      else Ok(id)
  }

  class OtpService {
    const setup: Setup
    var codes: seq<Code>

    constructor (c: Setup)
      ensures setup == c && codes == []
    {
      setup, codes := c, [];
    }

    /** Only a transaction waiting for confirmation gets a code; earlier codes of the key are retired. */
    method Issue(tx: string, purpose: string, confirmationPending: bool, code: string, now: int)
      returns (r: Result<nat, OtpError>)
      modifies this
      ensures !confirmationPending ==> r == Err(NotIssuable) && codes == old(codes)
      ensures confirmationPending ==>
        && r == Ok(|old(codes)|)
        && codes == Retired(old(codes), tx, purpose) + [Code(tx, purpose, setup.hash(code), now + setup.ttl, 0, false)]
    {
      if !confirmationPending {
        return Err(NotIssuable);
      }
      ghost var before := codes;
      var retired := Retired(before, tx, purpose);
      for i := 0 to |codes|
        invariant |codes| == |before|
        invariant forall j :: 0 <= j < i ==> codes[j] == retired[j]
        invariant forall j :: i <= j < |codes| ==> codes[j] == before[j]
      {
        if Active(codes[i], tx, purpose) {
          codes := codes[i := codes[i].(consumed := true)];
        }
      }
      assert codes == retired;
      codes := codes + [Code(tx, purpose, setup.hash(code), now + setup.ttl, 0, false)];
      return Ok(|codes| - 1);
    }

    /** Consume the newest active code on a match; count a wrong guess against it. */
    method Verify(tx: string, purpose: string, guess: string, now: int) returns (r: Result<nat, OtpError>)
      modifies this
      ensures r == Judge(setup, old(codes), tx, purpose, guess, now)
      ensures r.Ok? ==> codes == old(codes)[r.value := old(codes)[r.value].(consumed := true)]
      ensures r == Err(Mismatch) ==>
        var id := Newest(old(codes), tx, purpose).value;
        codes == old(codes)[id := old(codes)[id].(attempts := old(codes)[id].attempts + 1)]
      ensures r.Err? && r.error != Mismatch ==> codes == old(codes)
    {
      var id := |codes|;
      while id > 0 && !Active(codes[id - 1], tx, purpose)
        invariant 0 <= id <= |codes|
        invariant Newest(codes, tx, purpose) == Newest(codes[..id], tx, purpose)
      {
        id := id - 1;
        assert codes[..id + 1][..id] == codes[..id];
      }
      if id == 0 {
        return Err(NoActiveCode);
      }
      id := id - 1;
      var row := codes[id];
      assert codes[..id + 1][id] == row;
      if row.expiresAt <= now {
        return Err(Expired);
      }
      if row.attempts >= setup.maxAttempts {
        return Err(Locked);
      }
      if setup.hash(guess) != row.hash {
        codes := codes[id := row.(attempts := row.attempts + 1)];
        return Err(Mismatch);
      }
      codes := codes[id := row.(consumed := true)];
      return Ok(id);
    }
  }

  // --- Runs ------------------------------------------------------------------------------------

  datatype Call =
    | Issue(tx: string, purpose: string, code: string, now: int)
    | Verify(tx: string, purpose: string, guess: string, now: int)

  /** What a verification did to the code it looked at, and how many codes existed then. */
  datatype Entry = Accepted(id: nat, guess: string, now: int, issued: nat) | Refused(id: nat)

  /** The rows, with the plain text of each code and the history of guesses. */
  datatype Ledger = Ledger(codes: seq<Code>, plain: seq<string>, log: seq<Entry>)

  function Do(c: Setup, l: Ledger, call: Call): Ledger {
    match call
    case Issue(tx, purpose, code, now) =>
      Ledger(Retired(l.codes, tx, purpose) + [Code(tx, purpose, c.hash(code), now + c.ttl, 0, false)],
             l.plain + [code], l.log)
    case Verify(tx, purpose, guess, now) =>
      match Judge(c, l.codes, tx, purpose, guess, now)
      case Ok(id) =>
        l.(codes := l.codes[id := l.codes[id].(consumed := true)],
           log := l.log + [Accepted(id, guess, now, |l.codes|)])
      case Err(e) =>
        if e != Mismatch then l
        else
          var id := Newest(l.codes, tx, purpose).value;
          l.(codes := l.codes[id := l.codes[id].(attempts := l.codes[id].attempts + 1)], log := l.log + [Refused(id)])
  }

  function DoAll(c: Setup, calls: seq<Call>): Ledger {
    if calls == [] then Ledger([], [], [])
    else Do(c, DoAll(c, calls[..|calls| - 1]), calls[|calls| - 1])
  }

  /** Wrong guesses made on code `id`. */
  function Wrong(log: seq<Entry>, id: nat): nat {
    if log == [] then 0
    else Wrong(log[..|log| - 1], id) + if log[|log| - 1] == Refused(id) then 1 else 0
  }

  /** Entry `k` is a fair success: the right text of the newest code, in time, within the attempts, once. */
  ghost predicate FairAt(c: Setup, l: Ledger, k: nat)
    requires k < |l.log| && |l.plain| == |l.codes|
  {
    var e := l.log[k];
    e.Accepted? ==>
      && e.id < e.issued <= |l.codes|
      && e.guess == l.plain[e.id]
      && e.now < l.codes[e.id].expiresAt
      && (forall j :: e.id < j < e.issued ==> !SameKey(l.codes[j], l.codes[e.id]))
      && Wrong(l.log[..k], e.id) < c.maxAttempts
      && (forall m :: k < m < |l.log| ==> l.log[m].id != e.id)
  }

  ghost predicate Sound(c: Setup, l: Ledger) {
    && |l.plain| == |l.codes|
    && (forall i :: 0 <= i < |l.codes| ==> l.codes[i].hash == c.hash(l.plain[i]))
    && (forall i, j :: 0 <= i < j < |l.codes| && SameKey(l.codes[i], l.codes[j]) ==> l.codes[i].consumed)
    && (forall i :: 0 <= i < |l.codes| ==> l.codes[i].attempts == Wrong(l.log, i) <= c.maxAttempts)
    && (forall k :: 0 <= k < |l.log| ==> l.log[k].id < |l.codes|)
    && (forall k :: 0 <= k < |l.log| && l.log[k].Accepted? ==> l.codes[l.log[k].id].consumed)
    && (forall k :: 0 <= k < |l.log| ==> FairAt(c, l, k))
  }

  ghost predicate Injective(c: Setup) {
    forall a, b :: c.hash(a) == c.hash(b) ==> a == b
  }

  lemma {:induction false} WrongOfNobody(log: seq<Entry>, id: nat)
    requires forall k :: 0 <= k < |log| ==> log[k].id < id
    ensures Wrong(log, id) == 0
  {
    if log != [] {
      WrongOfNobody(log[..|log| - 1], id);
    }
  }

  lemma IssueSound(c: Setup, l: Ledger, call: Call)
    requires Sound(c, l) && call.Issue?
    ensures Sound(c, Do(c, l, call))
  {
    var l' := Do(c, l, call);
    WrongOfNobody(l.log, |l.codes|);
    forall k | 0 <= k < |l.log| ensures FairAt(c, l', k) {
      assert FairAt(c, l, k);
    }
  }

  /** Appending one entry about an unconsumed code keeps the fairness of the earlier ones. */
  lemma StillFair(c: Setup, l: Ledger, l': Ledger, k: nat)
    requires Sound(c, l) && k < |l.log| && l'.plain == l.plain
    requires |l'.log| == |l.log| + 1 && l'.log[..|l.log|] == l.log
    requires |l'.codes| == |l.codes|
    requires forall i :: 0 <= i < |l.codes| ==>
      l'.codes[i].expiresAt == l.codes[i].expiresAt && SameKey(l'.codes[i], l.codes[i])
    requires l'.log[|l.log|].id < |l.codes| && !l.codes[l'.log[|l.log|].id].consumed
    ensures FairAt(c, l', k)
  {
    assert FairAt(c, l, k);
    assert l'.log[k] == l.log[k];
    assert l'.log[..k] == l.log[..k];
    assert forall m :: 0 <= m < |l.log| ==> l'.log[m] == l.log[m];
  }

  /** One more entry, about an unconsumed code whose row takes note of it. */
  lemma NotedSound(c: Setup, l: Ledger, l': Ledger, id: nat, row: Code, e: Entry)
    requires Sound(c, l) && id < |l.codes| && !l.codes[id].consumed && e.id == id
    requires l' == l.(codes := l.codes[id := row], log := l.log + [e])
    requires row.hash == l.codes[id].hash && row.expiresAt == l.codes[id].expiresAt && SameKey(row, l.codes[id])
    requires row.attempts == l.codes[id].attempts + (if e == Refused(id) then 1 else 0) <= c.maxAttempts
    requires e.Accepted? ==> row.consumed && FairAt(c, l', |l.log|)
    ensures Sound(c, l')
  {
    assert l'.log[..|l.log|] == l.log;
    forall k | 0 <= k < |l'.log| ensures FairAt(c, l', k) {
      if k < |l.log| {
        StillFair(c, l, l', k);
      }
    }
    hide FairAt;
    forall i | 0 <= i < |l'.codes| ensures l'.codes[i].attempts == Wrong(l'.log, i) <= c.maxAttempts {
      assert l.codes[i].attempts == Wrong(l.log, i);
    }
  }

  lemma VerifySound(c: Setup, l: Ledger, call: Call)
    requires Sound(c, l) && call.Verify? && Injective(c)
    ensures Sound(c, Do(c, l, call))
  {
    hide Wrong, Newest;
    var l' := Do(c, l, call);
    if l' != l {
      var id := Newest(l.codes, call.tx, call.purpose).value;
      var row := l.codes[id];
      var verdict := Judge(c, l.codes, call.tx, call.purpose, call.guess, call.now);
      if verdict.Ok? {
        assert l'.log[..|l.log|] == l.log;
        assert forall j :: id < j < |l.codes| ==> !SameKey(l.codes[j], row);
        assert FairAt(c, l', |l.log|);
        NotedSound(c, l, l', id, row.(consumed := true), Accepted(id, call.guess, call.now, |l.codes|));
      } else {
        NotedSound(c, l, l', id, row.(attempts := row.attempts + 1), Refused(id));
      }
    }
  }

  /** Over every run of issues and verifications the ledger is sound. */
  lemma {:induction false} RunSound(c: Setup, calls: seq<Call>)
    requires Injective(c)
    ensures Sound(c, DoAll(c, calls))
  {
    hide Sound, Do;
    if calls == [] {
      EmptySound(c);
    } else {
      RunSound(c, calls[..|calls| - 1]);
      var call := calls[|calls| - 1];
      if call.Issue? {
        IssueSound(c, DoAll(c, calls[..|calls| - 1]), call);
      } else {
        VerifySound(c, DoAll(c, calls[..|calls| - 1]), call);
      }
    }
  }

  lemma EmptySound(c: Setup)
    ensures Sound(c, Ledger([], [], []))
  {
  }

  /** At most one code per transaction and purpose is unconsumed, and it is the newest one. */
  lemma OneActiveCode(c: Setup, calls: seq<Call>, i: nat, j: nat)
    requires Injective(c)
    requires i < |DoAll(c, calls).codes| && j < |DoAll(c, calls).codes|
    requires SameKey(DoAll(c, calls).codes[i], DoAll(c, calls).codes[j])
    requires !DoAll(c, calls).codes[i].consumed
    ensures j <= i && (!DoAll(c, calls).codes[j].consumed ==> i == j)
  {
    hide DoAll, FairAt, Wrong;
    RunSound(c, calls);
  }

  /** A code is accepted at most once in a whole run. */
  lemma AcceptedOnce(c: Setup, calls: seq<Call>, k: nat, m: nat)
    requires Injective(c) && k <= m < |DoAll(c, calls).log|
    requires DoAll(c, calls).log[k].Accepted? && DoAll(c, calls).log[m].id == DoAll(c, calls).log[k].id
    ensures k == m
  {
    hide DoAll, Wrong;
    RunSound(c, calls);
    assert FairAt(c, DoAll(c, calls), k);
  }

  /** The code a transaction and purpose can still be confirmed with, if any. */
  ghost predicate Opens(c: Setup, l: Ledger, id: nat, tx: string, purpose: string, guess: string, now: int)
    requires |l.plain| == |l.codes|
  {
    && id < |l.codes| && Active(l.codes[id], tx, purpose)
    && guess == l.plain[id] && now < l.codes[id].expiresAt && Wrong(l.log, id) < c.maxAttempts
  }

  /** A guess is accepted exactly when it is the text of an unconsumed, unexpired, unlocked code of the key. */
  lemma AcceptedIff(c: Setup, calls: seq<Call>, tx: string, purpose: string, guess: string, now: int)
    requires Injective(c)
    ensures |DoAll(c, calls).plain| == |DoAll(c, calls).codes|
    ensures Judge(c, DoAll(c, calls).codes, tx, purpose, guess, now).Ok?
       <==> exists id: nat :: Opens(c, DoAll(c, calls), id, tx, purpose, guess, now)
  {
    hide DoAll, FairAt;
    RunSound(c, calls);
    var l := DoAll(c, calls);
    var newest := Newest(l.codes, tx, purpose);
    if id: nat :| Opens(c, l, id, tx, purpose, guess, now) {
      assert newest == Some(id);
    }
    if Judge(c, l.codes, tx, purpose, guess, now).Ok? {
      assert Opens(c, l, newest.value, tx, purpose, guess, now);
    }
  }

  // --- What the rows mean --------------------------------------------------------------------------

  /** The codes asked for, in order. */
  function Issues(calls: seq<Call>): seq<Call> {
    if calls == [] then []
    else Issues(calls[..|calls| - 1]) + if calls[|calls| - 1].Issue? then [calls[|calls| - 1]] else []
  }

  /** The row of the code: its key and text as asked for, good for the time to live. */
  predicate RowOf(c: Setup, l: Ledger, id: nat, call: Call)
    requires id < |l.codes| && id < |l.plain|
  {
    && call.Issue? && l.codes[id].tx == call.tx && l.codes[id].purpose == call.purpose
    && l.plain[id] == call.code && l.codes[id].expiresAt == call.now + c.ttl
  }

  ghost predicate Rows(c: Setup, l: Ledger, issues: seq<Call>) {
    && |l.codes| == |l.plain| == |issues|
    && forall id :: 0 <= id < |issues| ==> RowOf(c, l, id, issues[id])
  }

  lemma RowsStep(c: Setup, l: Ledger, call: Call, issues: seq<Call>)
    requires Rows(c, l, issues)
    ensures Rows(c, Do(c, l, call), issues + if call.Issue? then [call] else [])
  {
    var now, l' := issues + (if call.Issue? then [call] else []), Do(c, l, call);
    forall id | 0 <= id < |now| ensures RowOf(c, l', id, now[id]) {
      assert id < |issues| ==> RowOf(c, l, id, issues[id]);
    }
  }

  /** In every run there is one row for each code asked for, and it says what was asked for. */
  lemma {:induction false} RowsAreIssued(c: Setup, calls: seq<Call>)
    ensures Rows(c, DoAll(c, calls), Issues(calls))
  {
    hide Rows, Do;
    if calls == [] {
      NoRows(c);
    } else {
      RowsAreIssued(c, calls[..|calls| - 1]);
      RowsStep(c, DoAll(c, calls[..|calls| - 1]), calls[|calls| - 1], Issues(calls[..|calls| - 1]));
    }
  }

  lemma NoRows(c: Setup)
    ensures Rows(c, Ledger([], [], []), [])
  {
  }

  /** Accepted, or superseded by a later code for the same transaction and purpose. */
  predicate Used(l: Ledger, id: nat)
    requires id < |l.codes|
  {
    || (exists k :: 0 <= k < |l.log| && l.log[k].Accepted? && l.log[k].id == id)
    || (exists j :: id < j < |l.codes| && l.codes[j].tx == l.codes[id].tx && l.codes[j].purpose == l.codes[id].purpose)
  }

  ghost predicate ConsumedAsUsed(l: Ledger) {
    && (forall k :: 0 <= k < |l.log| ==> l.log[k].id < |l.codes|)
    && forall id :: 0 <= id < |l.codes| ==> (l.codes[id].consumed <==> Used(l, id))
  }

  lemma IssueUses(c: Setup, l: Ledger, call: Call, id: nat)
    requires call.Issue? && id < |l.codes| && |l.plain| == |l.codes|
    ensures Used(Do(c, l, call), id) <==>
      Used(l, id) || (l.codes[id].tx == call.tx && l.codes[id].purpose == call.purpose)
  {
    var l' := Do(c, l, call);
    assert l'.codes[|l.codes|].tx == call.tx && l'.codes[|l.codes|].purpose == call.purpose;
    assert forall j :: 0 <= j < |l.codes| ==>
      l'.codes[j].tx == l.codes[j].tx && l'.codes[j].purpose == l.codes[j].purpose;
  }

  /** One more entry about code `m`, whose row keeps its key. */
  lemma EntryUses(l: Ledger, l': Ledger, m: nat, row: Code, e: Entry, id: nat)
    requires id < |l.codes| && m < |l.codes| && e.id == m
    requires row.tx == l.codes[m].tx && row.purpose == l.codes[m].purpose
    requires l'.codes == l.codes[m := row] && l'.log == l.log + [e]
    ensures Used(l', id) <==> Used(l, id) || (e.Accepted? && m == id)
  {
    assert l'.log[|l.log|] == e && forall k :: 0 <= k < |l.log| ==> l'.log[k] == l.log[k];
    assert forall j :: 0 <= j < |l.codes| ==>
      l'.codes[j].tx == l.codes[j].tx && l'.codes[j].purpose == l.codes[j].purpose;
  }

  lemma ConsumedStep(c: Setup, l: Ledger, call: Call, id: nat)
    requires ConsumedAsUsed(l) && |l.plain| == |l.codes| && id < |Do(c, l, call).codes|
    ensures Do(c, l, call).codes[id].consumed <==> Used(Do(c, l, call), id)
  {
    var l' := Do(c, l, call);
    if call.Issue? {
      if id < |l.codes| {
        IssueUses(c, l, call, id);
      }
    } else if l' != l {
      var m := Newest(l.codes, call.tx, call.purpose).value;
      hide Used, Newest;
      EntryUses(l, l', m, l'.codes[m], l'.log[|l.log|], id);
    }
  }

  lemma {:induction false} ConsumedInRun(c: Setup, calls: seq<Call>)
    ensures |DoAll(c, calls).plain| == |DoAll(c, calls).codes| && ConsumedAsUsed(DoAll(c, calls))
  {
    hide Used, Newest, Retired;
    if calls == [] {
      assert DoAll(c, calls) == Ledger([], [], []);
    } else {
      var l, call := DoAll(c, calls[..|calls| - 1]), calls[|calls| - 1];
      ConsumedInRun(c, calls[..|calls| - 1]);
      forall id | 0 <= id < |Do(c, l, call).codes|
        ensures Do(c, l, call).codes[id].consumed <==> Used(Do(c, l, call), id) {
        ConsumedStep(c, l, call, id);
      }
    }
  }

  /** In every run a code is consumed exactly when it was accepted or superseded. */
  lemma ConsumedIff(c: Setup, calls: seq<Call>, id: nat)
    requires id < |DoAll(c, calls).codes|
    ensures DoAll(c, calls).codes[id].consumed <==> Used(DoAll(c, calls), id)
  {
    hide DoAll, Used;
    ConsumedInRun(c, calls);
  }

  /** No code of this transaction and purpose is left to guess at. */
  predicate NoneLeft(l: Ledger, tx: string, purpose: string) {
    forall id :: 0 <= id < |l.codes| ==> l.codes[id].tx != tx || l.codes[id].purpose != purpose || Used(l, id)
  }

  /**
   In every run, why a guess is refused: no code is left; else its time is over; else too many wrong guesses
   were counted against it; else it is not the text of the code.
   */
  lemma RefusedBecause(c: Setup, calls: seq<Call>, tx: string, purpose: string, guess: string, now: int)
    requires Injective(c)
    ensures |DoAll(c, calls).plain| == |DoAll(c, calls).codes|
    ensures var l := DoAll(c, calls); var verdict := Judge(c, l.codes, tx, purpose, guess, now);
      && (verdict == Err(NoActiveCode) <==> NoneLeft(l, tx, purpose))
      && (forall id :: 0 <= id < |l.codes| && l.codes[id].tx == tx && l.codes[id].purpose == purpose && !Used(l, id) ==>
            verdict == (if now >= l.codes[id].expiresAt then Err(Expired)
                        else if Wrong(l.log, id) >= c.maxAttempts then Err(Locked)
                        else if guess != l.plain[id] then Err(Mismatch) else Ok(id)))
  {
    hide DoAll, FairAt, Wrong, Used;
    RunSound(c, calls);
    ConsumedInRun(c, calls);
    var l := DoAll(c, calls);
    var newest := Newest(l.codes, tx, purpose);
    forall id | 0 <= id < |l.codes| ensures Used(l, id) == l.codes[id].consumed {
    }
    forall id | 0 <= id < |l.codes| && l.codes[id].tx == tx && l.codes[id].purpose == purpose && !Used(l, id)
      ensures newest == Some(id)
    {
      assert Active(l.codes[id], tx, purpose);
    }
  }
}
