/** The periodic scan that confirms deliveries whose window has elapsed and enqueues their release. */
module AutoRelease {
  import opened Wrappers
  import opened Machine
  import Protocol = EscrowProtocol
  import Invariant = EscrowInvariant
  import Runs = EscrowRuns

  type TxId = string

  datatype Stamp = Stamp(newState: Status, at: int)

  /** What the scan sees of a transaction; `frozen` says whether it has a freezing dispute. */
  datatype Row = Row(status: Status, rule: ReleaseRule, frozen: bool, timeline: seq<Stamp>)

  predicate Candidate(row: Row) { row.status.ConfirmationPending? && row.rule.AutoAfterWindow? }

  /** The newest timeline row that entered `s`. */
  function LastEntry(timeline: seq<Stamp>, s: Status): (found: Option<int>)
    ensures found.Some? <==> exists i :: 0 <= i < |timeline| && timeline[i].newState == s
  {
    if timeline == [] then None
    else if timeline[|timeline| - 1].newState == s then Some(timeline[|timeline| - 1].at)
    else LastEntry(timeline[..|timeline| - 1], s)
  }

  predicate Due(row: Row, now: int, window: int) {
    && Candidate(row)
    && LastEntry(row.timeline, ConfirmationPending).Some?
    && now - LastEntry(row.timeline, ConfirmationPending).value >= window
  }

  /** Rows the scan confirms: due, and not refused by the machine. */
  predicate Confirmable(row: Row, now: int, window: int) { Due(row, now, window) && !row.frozen }

  function Confirmed(row: Row, now: int): Row {
    row.(status := ReleaseProcessing, timeline := row.timeline + [Stamp(ReleaseProcessing, now)])
  }

  function AfterScan(row: Row, now: int, window: int): Row {
    if Confirmable(row, now, window) then Confirmed(row, now) else row
  }

  /** The jobs a scan of `ids` adds to the queue; `down` are the ids whose enqueue fails. */
  function Jobs(table: map<TxId, Row>, ids: seq<TxId>, now: int, window: int, down: set<TxId>): seq<TxId> {
    if ids == [] then []
    else
      var id := ids[|ids| - 1];
      Jobs(table, ids[..|ids| - 1], now, window, down)
        + if id in table && Confirmable(table[id], now, window) && id !in down then [id] else []
  }

  predicate Distinct(ids: seq<TxId>) { forall i, j :: 0 <= i < j < |ids| ==> ids[i] != ids[j] }

  class AutoReleaseService {
    const window: int
    var table: map<TxId, Row>
    var queue: seq<TxId>

    constructor (window: int, table: map<TxId, Row>)
      ensures this.window == window && this.table == table && queue == []
    {
      this.window, this.table, queue := window, table, [];
    }

    method FindCandidates() returns (ids: seq<TxId>)
      ensures Distinct(ids) && forall id :: id in ids <==> id in table && Candidate(table[id])
      ensures forall id :: id in table ==>
        (id in ids <==> table[id].status == ConfirmationPending && table[id].rule == AutoAfterWindow)
    {
      var todo := set id | id in table && Candidate(table[id]);
      ghost var all := todo;
      ids := [];
      while todo != {}
        invariant Distinct(ids) && todo <= all
        invariant forall id :: id in ids <==> id in all && id !in todo
      {
        var id :| id in todo;
        todo := todo - {id};
        ids := ids + [id];
      }
    }

    /** `apply` with AUTO_CONFIRM: refused while frozen or when the row has moved on. */
    method ApplyAutoConfirm(id: TxId, now: int) returns (ok: bool)
      requires id in table
      modifies this`table
      ensures ok <==> Transition(old(table)[id].status, AutoConfirm,
        Context(old(table)[id].rule, old(table)[id].frozen, true)).Accept?
      ensures table == if ok then old(table)[id := Confirmed(old(table)[id], now)] else old(table)
    {
      var row := table[id];
      match Transition(row.status, AutoConfirm, Context(row.rule, row.frozen, true)) {
        case Reject(_) =>
          ok := false;
        case Accept(to) =>
          table := table[id := row.(status := to, timeline := row.timeline + [Stamp(to, now)])];
          ok := true;
      }
    }

    /** One candidate: confirm it when due, then enqueue its release. Refusals and failures end here. */
    method Visit(id: TxId, now: int, down: set<TxId>) returns (enqueued: bool)
      requires id in table && Candidate(table[id])
      modifies this
      ensures table == old(table)[id := AfterScan(old(table)[id], now, window)]
      ensures enqueued <==> Confirmable(old(table)[id], now, window) && id !in down
      ensures queue == old(queue) + if enqueued then [id] else []
    {
      hide LastEntry;
      enqueued := false;
      var entered := LastEntry(table[id].timeline, ConfirmationPending);
      if entered.None? || now - entered.value < window {
        return;
      }
      var ok := ApplyAutoConfirm(id, now);
      if ok && id !in down {
        queue := queue + [id];
        enqueued := true;
      }
    }

    /**
     The scan confirms exactly the confirmable rows, touches no other row, and reports how many
     jobs it put on the queue. A refused candidate or a failed enqueue does not stop it.
     */
    method ScanAndRelease(now: int, down: set<TxId>) returns (released: nat)
      modifies this
      ensures table.Keys == old(table.Keys)
      ensures forall id :: id in table ==> table[id] == AfterScan(old(table)[id], now, window)
      ensures old(queue) <= queue && released == |queue| - |old(queue)|
      ensures Distinct(queue[|old(queue)|..])
      ensures forall id :: id in queue[|old(queue)|..] <==>
        id in old(table) && Confirmable(old(table)[id], now, window) && id !in down
    {
      hide LastEntry, Confirmed, Transition, AfterScan, Confirmable, Candidate, Due, Swept, Jobs;
      ghost var before, jobs := table, queue;
      var candidates := FindCandidates();
      assert candidates[..0] == [];
      NothingSwept(before, now, window, down);
      released := 0;
      for i := 0 to |candidates|
        invariant Swept(before, table, candidates[..i], now, window)
        invariant queue == jobs + Jobs(before, candidates[..i], now, window, down)
        invariant released == |queue| - |jobs|
      {
        var id := candidates[i];
        SweepOne(before, table, candidates, i, now, window, down);
        var enqueued := Visit(id, now, down);
        if enqueued {
          released := released + 1;
        }
      }
      assert candidates[..|candidates|] == candidates;
      SweptAll(before, table, candidates, now, window);
      JobsAre(before, candidates, now, window, down);
      assert queue[|jobs|..] == Jobs(before, candidates, now, window, down);
    }
  }

  /** The rows in `visited` have been scanned, the others are as before. */
  ghost predicate Swept(before: map<TxId, Row>, table: map<TxId, Row>, visited: seq<TxId>, now: int, window: int) {
    && table.Keys == before.Keys
    && forall id :: id in before ==> table[id] == if id in visited
         then AfterScan(before[id], now, window) else before[id]
  }

  lemma NothingSwept(table: map<TxId, Row>, now: int, window: int, down: set<TxId>)
    ensures Swept(table, table, [], now, window) && Jobs(table, [], now, window, down) == []
  {
  }

  lemma SweepOne(before: map<TxId, Row>, table: map<TxId, Row>,
      ids: seq<TxId>, i: nat, now: int, window: int, down: set<TxId>)
    requires i < |ids| && Distinct(ids) && Swept(before, table, ids[..i], now, window)
    requires forall id :: id in ids <==> id in before && Candidate(before[id])
    ensures ids[i] in table && Candidate(table[ids[i]]) && table[ids[i]] == before[ids[i]]
    ensures Swept(before, table[ids[i] := AfterScan(table[ids[i]], now, window)], ids[..i + 1], now, window)
    ensures Jobs(before, ids[..i + 1], now, window, down) == Jobs(before, ids[..i], now, window, down)
      + if Confirmable(table[ids[i]], now, window) && ids[i] !in down then [ids[i]] else []
  {
    hide AfterScan, Confirmable, Candidate;
    assert ids[..i + 1] == ids[..i] + [ids[i]] && ids[..i + 1][..i] == ids[..i];
    assert ids[i] in ids && ids[i] !in ids[..i];
  }

  lemma SweptAll(before: map<TxId, Row>, table: map<TxId, Row>, ids: seq<TxId>, now: int, window: int)
    requires Swept(before, table, ids, now, window)
    requires forall id :: id in ids <==> id in before && Candidate(before[id])
    ensures table.Keys == before.Keys && forall id :: id in table ==> table[id] == AfterScan(before[id], now, window)
    ensures forall id :: id in before && Confirmable(before[id], now, window) ==> id in ids
  {
    hide Transition, LastEntry;
  }

  lemma {:induction false} JobsAre(table: map<TxId, Row>, ids: seq<TxId>, now: int, window: int, down: set<TxId>)
    requires Distinct(ids)
    ensures var jobs := Jobs(table, ids, now, window, down);
      && Distinct(jobs)
      && forall id :: id in jobs <==> id in ids && id in table && Confirmable(table[id], now, window) && id !in down
  {
    if ids != [] {
      var shorter, id := ids[..|ids| - 1], ids[|ids| - 1];
      JobsAre(table, shorter, now, window, down);
      assert ids == shorter + [id];
      assert id !in shorter;
    }
  }

  // --- What the window means --------------------------------------------------------------------

  /** The timeline replays the status and its stamps do not go back, as `apply` leaves them. */
  ghost predicate Replays(row: Row) {
    && (row.timeline == [] ==> row.status.Draft?)
    && (row.timeline != [] ==> row.status == row.timeline[|row.timeline| - 1].newState)
    && (forall i, j :: 0 <= i <= j < |row.timeline| ==> row.timeline[i].at <= row.timeline[j].at)
  }

  /** The status a timeline shows at time `at`. */
  function StatusAtTime(timeline: seq<Stamp>, at: int): Status {
    if timeline == [] then Draft
    else if timeline[|timeline| - 1].at <= at then timeline[|timeline| - 1].newState
    else StatusAtTime(timeline[..|timeline| - 1], at)
  }

  /**
   A confirmed row follows the automatic rule, has no freezing dispute, and has been waiting for
   confirmation at every moment of the last window.
   */
  lemma ConfirmedHasWaited(row: Row, now: int, window: int, at: int)
    requires Replays(row) && AfterScan(row, now, window) != row
    requires now - window <= at
    ensures row.rule.AutoAfterWindow? && !row.frozen
    ensures StatusAtTime(row.timeline, at).ConfirmationPending?
  {
    assert row.timeline[|row.timeline| - 1].newState == ConfirmationPending;
  }

  /** And only if: an unfrozen automatic row that entered confirmation a full window ago is confirmed. */
  lemma WaitedIsConfirmed(row: Row, now: int, window: int)
    requires Replays(row) && row.status.ConfirmationPending? && row.rule.AutoAfterWindow? && !row.frozen
    requires row.timeline[|row.timeline| - 1].at <= now - window
    ensures AfterScan(row, now, window) == Confirmed(row, now)
  {
  }

  /** What the scan reads of a transaction: its timeline rows, stamped in the order in which they were written. */
  function RowOf(e: Protocol.Escrow, times: seq<int>): Row
    requires |times| == |e.logs.timeline|
  {
    Row(e.status, e.terms.releaseRule, Protocol.AnyFreezing(e),
        seq(|times|, i requires 0 <= i < |times| => Stamp(e.logs.timeline[i].newState, times[i])))
  }

  predicate Ordered(times: seq<int>) { forall i, j :: 0 <= i <= j < |times| ==> times[i] <= times[j] }

  /** In every run of the protocol the timeline replays the status. */
  lemma RunReplays(t: Protocol.Terms, e: Protocol.Escrow, times: seq<int>)
    requires Runs.Reachable(Protocol.Drafted(t), e, true) && |times| == |e.logs.timeline| && Ordered(times)
    ensures Replays(RowOf(e, times))
  {
    hide Runs.Reachable, Invariant.PaymentsSound, Invariant.DisputesSound,
      Invariant.PayoutSound, Invariant.ProcessesSound;
    Runs.ReachableIsSound(t, e);
    var n := |times|;
    if n > 0 {
      assert Invariant.RowsReplay(e.logs.commits[n - 1], e.logs.timeline[n - 1], e.logs.audit[n - 1]);
    }
  }

  /** A scan leaves it so. */
  lemma ScanKeepsReplay(row: Row, now: int, window: nat)
    requires Replays(row)
    ensures Replays(AfterScan(row, now, window))
  {
    if AfterScan(row, now, window) != row {
      var n := |row.timeline|;
      assert row.timeline[n - 1].newState == ConfirmationPending;
      assert forall i :: 0 <= i < n ==> row.timeline[i].at <= row.timeline[n - 1].at;
    }
  }

  /** So a transaction confirmed by the scan in any run had been waiting for the whole window. */
  lemma ConfirmedRunHasWaited(t: Protocol.Terms, e: Protocol.Escrow, times: seq<int>, now: int, window: int, at: int)
    requires Runs.Reachable(Protocol.Drafted(t), e, true) && |times| == |e.logs.timeline| && Ordered(times)
    requires AfterScan(RowOf(e, times), now, window) != RowOf(e, times) && now - window <= at
    ensures t.releaseRule.AutoAfterWindow? && !Protocol.AnyFreezing(e)
    ensures StatusAtTime(RowOf(e, times).timeline, at).ConfirmationPending?
  {
    hide Runs.Reachable, Invariant.Inv, AfterScan, Replays, StatusAtTime;
    RunReplays(t, e, times);
    ConfirmedHasWaited(RowOf(e, times), now, window, at);
    Runs.ReachableIsSound(t, e);
  }

  /** Repeated scans, each with its own time. */
  function AfterScans(row: Row, times: seq<int>, window: int): Row {
    if times == [] then row
    else AfterScan(AfterScans(row, times[..|times| - 1], window), times[|times| - 1], window)
  }

  /**
   A confirmed row whose enqueue failed is past confirmation for good: no later scan selects it
   again, so its release job is never enqueued by a scan.
   */
  lemma {:induction false} FailedEnqueueIsNotRetried(row: Row, now: int, window: int, times: seq<int>, later: int)
    requires Confirmable(row, now, window)
    ensures !Candidate(AfterScans(AfterScan(row, now, window), times, window))
    ensures !Confirmable(AfterScans(AfterScan(row, now, window), times, window), later, window)
  {
    if times != [] {
      FailedEnqueueIsNotRetried(row, now, window, times[..|times| - 1], later);
    }
  }
}
