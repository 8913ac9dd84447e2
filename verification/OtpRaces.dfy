/** Issues and verifications of one-time codes interleaved statement by statement. */
module OtpRaces {
  import opened Wrappers
  import opened Otp

  datatype Process =
    | Inserting(tx: string, purpose: string, code: string, now: int)   // earlier codes retired, own code not stored yet
    | Counting(id: nat)                                                 // a wrong guess not counted yet
    | Consuming(id: nat)                                                // a right guess not redeemed yet

  /** The rows and the running processes, with the history of redeemed codes, wrong guesses and lost counts. */
  datatype Shared = Shared(codes: seq<Code>, procs: map<nat, Process>, wins: seq<nat>, wrong: seq<nat>, lost: seq<nat>)

  datatype Step =
    | BeginIssue(p: nat, tx: string, purpose: string, code: string, now: int)
    | BeginVerify(p: nat, tx: string, purpose: string, guess: string, now: int)
    | Finish(p: nat)
    | Crash(p: nat)

  const EMPTY := Shared([], map[], [], [], [])

  predicate Enabled(s: Shared, step: Step) {
    if step.BeginIssue? || step.BeginVerify? then step.p !in s.procs else step.p in s.procs
  }

  function Begin(s: Shared, p: nat, x: Process): Shared { s.(procs := s.procs[p := x]) }

  function Advance(c: Setup, s: Shared, p: nat): Shared
    requires p in s.procs
  {
    var ended := s.(procs := s.procs - {p});
    match s.procs[p]
    case Inserting(tx, purpose, code, now) =>
      ended.(codes := s.codes + [Code(tx, purpose, c.hash(code), now + c.ttl, 0, false)])
    case Counting(id) =>
      if id >= |s.codes| then ended
        else ended.(codes := s.codes[id := s.codes[id].(attempts := s.codes[id].attempts + 1)])
    case Consuming(id) =>
      if id >= |s.codes| || s.codes[id].consumed then ended
      else ended.(codes := s.codes[id := s.codes[id].(consumed := true)], wins := s.wins + [id])
  }

  function Perform(c: Setup, s: Shared, step: Step): Shared
    requires Enabled(s, step)
  {
    match step
    case BeginIssue(p, tx, purpose, code, now) =>
      Begin(s.(codes := Retired(s.codes, tx, purpose)), p, Inserting(tx, purpose, code, now))
    case BeginVerify(p, tx, purpose, guess, now) => (
      match Judge(c, s.codes, tx, purpose, guess, now)
      case Ok(id) => Begin(s, p, Consuming(id))
      case Err(e) =>
        if e != Mismatch then s
        else
          var id := Newest(s.codes, tx, purpose).value;
          Begin(s, p, Counting(id)).(wrong := s.wrong + [id]))
    case Finish(p) => Advance(c, s, p)
    case Crash(p) =>
      s.(procs := s.procs - {p}, lost := if s.procs[p].Counting? then s.lost + [s.procs[p].id] else s.lost)
  }

  predicate InsertsFor(x: Process, tx: string, purpose: string) {
    x.Inserting? && x.tx == tx && x.purpose == purpose
  }

  predicate SameInsert(x: Process, y: Process) { x.Inserting? && InsertsFor(y, x.tx, x.purpose) }

  /** No two issues for one transaction and purpose overlap. */
  predicate Serialized(s: Shared, step: Step) {
    step.BeginIssue? ==> forall p :: p in s.procs ==> !InsertsFor(s.procs[p], step.tx, step.purpose)
  }

  function RunFrom(c: Setup, from: Shared, steps: seq<Step>, serial: bool): Option<Shared> {
    if steps == [] then Some(from)
    else
      var before := RunFrom(c, from, steps[..|steps| - 1], serial);
      var step := steps[|steps| - 1];
      if before.Some? && Enabled(before.value, step) && (serial ==> Serialized(before.value, step))
      then Some(Perform(c, before.value, step)) else None
  }

  function Run(c: Setup, steps: seq<Step>, serial: bool): Option<Shared> { RunFrom(c, EMPTY, steps, serial) }

  ghost predicate WinsSound(s: Shared) {
    && (forall k :: 0 <= k < |s.wins| ==> s.wins[k] < |s.codes| && s.codes[s.wins[k]].consumed)
    && (forall k, m :: 0 <= k < m < |s.wins| ==> s.wins[k] != s.wins[m])
  }

  lemma WinsKept(c: Setup, s: Shared, step: Step)
    requires WinsSound(s) && Enabled(s, step)
    ensures WinsSound(Perform(c, s, step))
  {
    hide Judge, Newest;
  }

  /** However issues and verifications interleave, each code is redeemed at most once. */
  lemma {:induction false} RedeemedOnce(c: Setup, steps: seq<Step>, serial: bool)
    requires Run(c, steps, serial).Some?
    ensures WinsSound(Run(c, steps, serial).value)
  {
    hide Perform, WinsSound;
    if steps == [] {
      NothingWon();
    } else {
      RedeemedOnce(c, steps[..|steps| - 1], serial);
      WinsKept(c, Run(c, steps[..|steps| - 1], serial).value, steps[|steps| - 1]);
    }
  }

  lemma NothingWon()
    ensures WinsSound(EMPTY)
  {
  }

  ghost predicate OneActive(s: Shared) {
    && (forall i, j :: 0 <= i < j < |s.codes| && SameKey(s.codes[i], s.codes[j]) ==> s.codes[i].consumed)
    && (forall p, i ::
          p in s.procs && 0 <= i < |s.codes| && InsertsFor(s.procs[p], s.codes[i].tx, s.codes[i].purpose) ==>
          s.codes[i].consumed)
    && (forall p, q :: p in s.procs && q in s.procs && SameInsert(s.procs[p], s.procs[q]) ==> p == q)
  }

  lemma OneActiveKept(c: Setup, s: Shared, step: Step)
    requires OneActive(s) && Enabled(s, step) && Serialized(s, step)
    ensures OneActive(Perform(c, s, step))
  {
    hide Advance, Judge, Newest, Retired;
    if step.Finish? {
      FinishKeepsOne(c, s, step.p);
    }
  }

  lemma FinishKeepsOne(c: Setup, s: Shared, p: nat)
    requires OneActive(s) && p in s.procs
    ensures OneActive(Advance(c, s, p))
  {
  }

  lemma {:induction false} SerialIssuesKeepOne(c: Setup, from: Shared, steps: seq<Step>)
    requires OneActive(from) && RunFrom(c, from, steps, true).Some?
    ensures OneActive(RunFrom(c, from, steps, true).value)
  {
    hide Perform, OneActive, Serialized;
    if steps != [] {
      SerialIssuesKeepOne(c, from, steps[..|steps| - 1]);
      OneActiveKept(c, RunFrom(c, from, steps[..|steps| - 1], true).value, steps[|steps| - 1]);
    }
  }

  /** While issues of one key do not overlap, verifications may: only the newest code of a key can be unconsumed. */
  lemma SerialIssuesLeaveOne(c: Setup, steps: seq<Step>)
    requires Run(c, steps, true).Some?
    ensures OneActive(Run(c, steps, true).value)
  {
    hide RunFrom, OneActive;
    NothingActive();
    SerialIssuesKeepOne(c, EMPTY, steps);
  }

  lemma NothingActive()
    ensures OneActive(EMPTY)
  {
  }

  lemma OneMore(c: Setup, steps: seq<Step>, step: Step, s: Shared)
    requires Run(c, steps, false) == Some(s) && Enabled(s, step)
    ensures Run(c, steps + [step], false) == Some(Perform(c, s, step))
  {
    assert (steps + [step])[..|steps|] == steps;
  }

  predicate TwoActive(codes: seq<Code>, tx: string, purpose: string) {
    exists i, j :: 0 <= i < j < |codes| && Active(codes[i], tx, purpose) && Active(codes[j], tx, purpose)
  }

  /** Two issues of one key that have both retired the older codes: whoever they are, both finishing leaves two. */
  lemma BothInsertsStay(c: Setup, s: Shared, p: nat, q: nat, tx: string, purpose: string)
    requires p in s.procs && q in s.procs && p != q
      && InsertsFor(s.procs[p], tx, purpose) && InsertsFor(s.procs[q], tx, purpose)
    ensures q in Advance(c, s, p).procs && TwoActive(Advance(c, Advance(c, s, p), q).codes, tx, purpose)
  {
    var codes := Advance(c, Advance(c, s, p), q).codes;
    assert Active(codes[|s.codes|], tx, purpose) && Active(codes[|s.codes| + 1], tx, purpose);
  }

  ghost predicate Leads(c: Setup, from: Shared, s: Shared) {
    exists steps :: RunFrom(c, from, steps, true) == Some(s)
  }

  lemma LeadsBothFinish(c: Setup, s: Shared, p: nat, q: nat)
    requires p in s.procs && q in s.procs && p != q && q in Advance(c, s, p).procs
    ensures Leads(c, s, Advance(c, Advance(c, s, p), q))
  {
    var steps := [Finish(p), Finish(q)];
    hide Advance;
    assert steps[..1] == [Finish(p)] && [Finish(p)][..0] == [];
    assert RunFrom(c, s, [], true) == Some(s);
    assert RunFrom(c, s, [Finish(p)], true) == Some(Advance(c, s, p));
    assert RunFrom(c, s, steps, true) == Some(Advance(c, Advance(c, s, p), q));
  }

  lemma OneIsNotTwo(s: Shared, tx: string, purpose: string)
    requires OneActive(s)
    ensures !TwoActive(s.codes, tx, purpose)
  {
    forall i, j | 0 <= i < j < |s.codes| && Active(s.codes[i], tx, purpose) ensures !Active(s.codes[j], tx, purpose) {
      assert !SameKey(s.codes[i], s.codes[j]);
    }
  }

  /** An issue that starts while another one of its key is under way. */
  lemma OverlapLeavesTwo(c: Setup, s: Shared, step: Step) returns (s': Shared)
    requires Enabled(s, step) && step.BeginIssue? && !Serialized(s, step)
    ensures Leads(c, Perform(c, s, step), s') && TwoActive(s'.codes, step.tx, step.purpose)
  {
    var p :| p in s.procs && InsertsFor(s.procs[p], step.tx, step.purpose);
    var s1 := Perform(c, s, step);
    BothInsertsStay(c, s1, p, step.p, step.tx, step.purpose);
    LeadsBothFinish(c, s1, p, step.p);
    s' := Advance(c, Advance(c, s1, p), step.p);
  }

  /**
   Only the newest code is said ever to be valid. Exactly when an issue keeps that true: no other issue of
   its key is between retiring the older codes and storing its own. Otherwise two codes can stay active.
   */
  lemma IssueIsSafeIff(c: Setup, steps: seq<Step>, step: Step)
    requires Run(c, steps, true).Some? && Enabled(Run(c, steps, true).value, step) && step.BeginIssue?
    ensures var s := Run(c, steps, true).value;
      (forall s' :: Leads(c, Perform(c, s, step), s') ==> !TwoActive(s'.codes, step.tx, step.purpose)) <==>
        Serialized(s, step)
  {
    hide Run, RunFrom, Perform, OneActive, TwoActive, Leads;
    var s := Run(c, steps, true).value;
    if Serialized(s, step) {
      SerialIssuesLeaveOne(c, steps);
      OneActiveKept(c, s, step);
      forall s' | Leads(c, Perform(c, s, step), s') ensures !TwoActive(s'.codes, step.tx, step.purpose) {
        LeadsKeepOne(c, Perform(c, s, step), s');
        OneIsNotTwo(s', step.tx, step.purpose);
      }
    } else {
      var s' := OverlapLeavesTwo(c, s, step);
    }
  }

  lemma LeadsKeepOne(c: Setup, from: Shared, s: Shared)
    requires OneActive(from) && Leads(c, from, s)
    ensures OneActive(s)
  {
    hide OneActive, RunFrom;
    var steps :| RunFrom(c, from, steps, true) == Some(s);
    SerialIssuesKeepOne(c, from, steps);
  }

  /** Two issues of one key, both past their retiring update. */
  lemma TwoBegun(c: Setup, tx: string, purpose: string, a: string, b: string)
    ensures var steps := [BeginIssue(0, tx, purpose, a, 0), BeginIssue(1, tx, purpose, b, 0)];
      Run(c, steps, false)
        == Some(EMPTY.(procs := map[0 := Inserting(tx, purpose, a, 0), 1 := Inserting(tx, purpose, b, 0)]))
  {
    var s0, s1 := BeginIssue(0, tx, purpose, a, 0), BeginIssue(1, tx, purpose, b, 0);
    var one := EMPTY.(procs := map[0 := Inserting(tx, purpose, a, 0)]);
    assert Run(c, [], false) == Some(EMPTY);
    hide Run;
    assert [] + [s0] == [s0] && [s0] + [s1] == [s0, s1];
    assert Retired([], tx, purpose) == [];
    OneMore(c, [], s0, EMPTY);
    assert Run(c, [s0], false) == Some(one);
    OneMore(c, [s0], s1, one);
  }

  /** Overlapping issues of one key do leave two unconsumed codes: both retire first, both insert after. */
  lemma OverlappingIssuesLeaveTwo(c: Setup, tx: string, purpose: string, a: string, b: string)
    ensures exists steps ::
      && Run(c, steps, false).Some?
      && var codes := Run(c, steps, false).value.codes;
         |codes| == 2 && Active(codes[0], tx, purpose) && Active(codes[1], tx, purpose)
  {
    TwoBegun(c, tx, purpose, a, b);
    var begun := [BeginIssue(0, tx, purpose, a, 0), BeginIssue(1, tx, purpose, b, 0)];
    hide Run;
    var two := Run(c, begun, false).value;
    OneMore(c, begun, Finish(0), two);
    var three := Advance(c, two, 0);
    OneMore(c, begun + [Finish(0)], Finish(1), three);
    var codes := Run(c, begun + [Finish(0)] + [Finish(1)], false).value.codes;
    assert |codes| == 2 && Active(codes[0], tx, purpose) && Active(codes[1], tx, purpose);
  }

  // --- What a redemption rests on ------------------------------------------------------------------

  /** Step `i` looked the code up and found it active, in time, not locked, and the guess right. */
  predicate JudgedAt(c: Setup, steps: seq<Step>, serial: bool, i: nat, id: nat)
    requires i < |steps|
  {
    && steps[i].BeginVerify? && Run(c, steps[..i], serial).Some?
    && Judge(c, Run(c, steps[..i], serial).value.codes, steps[i].tx, steps[i].purpose, steps[i].guess, steps[i].now) ==
         Ok(id)
  }

  ghost predicate Judged(c: Setup, steps: seq<Step>, serial: bool, id: nat) {
    exists i :: 0 <= i < |steps| && JudgedAt(c, steps, serial, i, id)
  }

  lemma JudgedStays(c: Setup, steps: seq<Step>, serial: bool, id: nat)
    requires steps != [] && Judged(c, steps[..|steps| - 1], serial, id)
    ensures Judged(c, steps, serial, id)
  {
    hide Judge, Run;
    var shorter := steps[..|steps| - 1];
    var i :| 0 <= i < |shorter| && JudgedAt(c, shorter, serial, i, id);
    assert shorter[..i] == steps[..i];
    assert JudgedAt(c, steps, serial, i, id);
  }

  /** Redeemed codes, and codes about to be redeemed, have been judged. */
  ghost predicate AllJudged(c: Setup, steps: seq<Step>, serial: bool, s: Shared) {
    && (forall k :: 0 <= k < |s.wins| ==> Judged(c, steps, serial, s.wins[k]))
    && (forall p :: p in s.procs && s.procs[p].Consuming? ==> Judged(c, steps, serial, s.procs[p].id))
  }

  /** Where a redemption, or a process about to make one, comes from. */
  lemma ConsumesFrom(c: Setup, s: Shared, step: Step)
    requires Enabled(s, step)
    ensures var s' := Perform(c, s, step);
      && (s'.wins == s.wins || (step.Finish? && s.procs[step.p].Consuming? && s'.wins == s.wins + [s.procs[step.p].id]))
      && forall p :: p in s'.procs && s'.procs[p].Consuming? ==>
           || (p in s.procs && s'.procs[p] == s.procs[p])
           || (step.BeginVerify? && Judge(c, s.codes, step.tx, step.purpose, step.guess, step.now) ==
                Ok(s'.procs[p].id))
  {
    hide Judge, Newest;
  }

  lemma {:induction false} RunJudged(c: Setup, steps: seq<Step>, serial: bool)
    requires Run(c, steps, serial).Some?
    ensures AllJudged(c, steps, serial, Run(c, steps, serial).value)
  {
    hide Perform, Judge, Serialized, Judged;
    if steps == [] {
      assert Run(c, steps, serial) == Some(EMPTY);
    } else {
      var shorter, step := steps[..|steps| - 1], steps[|steps| - 1];
      RunJudged(c, shorter, serial);
      var s := Run(c, shorter, serial).value;
      var s' := Perform(c, s, step);
      assert Run(c, steps, serial) == Some(s');
      ConsumesFrom(c, s, step);
      forall id | Judged(c, shorter, serial, id) ensures Judged(c, steps, serial, id) {
        JudgedStays(c, steps, serial, id);
      }
      forall id | step.BeginVerify? && Judge(c, s.codes, step.tx, step.purpose, step.guess, step.now) == Ok(id)
        ensures Judged(c, steps, serial, id)
      {
        JudgedNow(c, steps, serial, id);
      }
    }
  }

  lemma JudgedNow(c: Setup, steps: seq<Step>, serial: bool, id: nat)
    requires steps != [] && JudgedAt(c, steps, serial, |steps| - 1, id)
    ensures Judged(c, steps, serial, id)
  {
  }

  /**
   However issues and verifications interleave, a redeemed code was found active, unexpired and not locked
   under its own text, and it was the newest of its key when issues of one key do not overlap.
   */
  lemma RedeemedWasValid(c: Setup, steps: seq<Step>, serial: bool, k: nat) returns (i: nat)
    requires Run(c, steps, serial).Some? && k < |Run(c, steps, serial).value.wins|
    ensures i < |steps| && steps[i].BeginVerify? && Run(c, steps[..i], serial).Some?
    ensures var codes, id := Run(c, steps[..i], serial).value.codes, Run(c, steps, serial).value.wins[k];
      && id < |codes| && Active(codes[id], steps[i].tx, steps[i].purpose)
      && steps[i].now < codes[id].expiresAt && codes[id].attempts < c.maxAttempts
           && c.hash(steps[i].guess) == codes[id].hash
      && (serial ==> forall j :: id < j < |codes| ==> !Keyed(codes[j], steps[i].tx, steps[i].purpose))
  {
    RunJudged(c, steps, serial);
    hide Run;
    var id := Run(c, steps, serial).value.wins[k];
    assert Judged(c, steps, serial, id);
    i :| 0 <= i < |steps| && JudgedAt(c, steps, serial, i, id);
    if serial {
      var s := Run(c, steps[..i], true).value;
      SerialIssuesLeaveOne(c, steps[..i]);
      assert forall j :: id < j < |s.codes| ==> !SameKey(s.codes[id], s.codes[j]);
    }
  }

  // --- The attempt limit ---------------------------------------------------------------------------

  function Count(ids: seq<nat>, id: nat): nat {
    if ids == [] then 0 else Count(ids[..|ids| - 1], id) + if ids[|ids| - 1] == id then 1 else 0
  }

  /** Wrong guesses on the code that are judged but not counted yet. */
  function InFlight(s: Shared, id: nat): set<nat> {
    set p | p in s.procs && s.procs[p] == Counting(id)
  }

  lemma CountMore(ids: seq<nat>, last: nat, id: nat)
    ensures Count(ids + [last], id) == Count(ids, id) + if last == id then 1 else 0
  {
    assert (ids + [last])[..|ids|] == ids;
  }

  /** Every wrong guess is counted in the row, on its way there, or lost in a crash. */
  ghost predicate GuessesAccounted(s: Shared) {
    && (forall p :: p in s.procs && s.procs[p].Counting? ==> s.procs[p].id < |s.codes|)
    && (forall id :: 0 <= id < |s.codes| ==>
         Count(s.wrong, id) == s.codes[id].attempts + |InFlight(s, id)| + Count(s.lost, id))
    && (forall k :: 0 <= k < |s.wrong| ==> s.wrong[k] < |s.codes|)
    && (forall k :: 0 <= k < |s.lost| ==> s.lost[k] < |s.codes|)
  }

  lemma {:induction false} CountOfNobody(ids: seq<nat>, id: nat)
    requires forall k :: 0 <= k < |ids| ==> ids[k] < id
    ensures Count(ids, id) == 0
  {
    if ids != [] {
      CountOfNobody(ids[..|ids| - 1], id);
    }
  }

  /** Starting or ending one process moves the number of guesses in flight by that process. */
  lemma FlightWith(s: Shared, p: nat, x: Process, id: nat)
    requires p !in s.procs
    ensures |InFlight(Begin(s, p, x), id)| == |InFlight(s, id)| + if x == Counting(id) then 1 else 0
  {
    assert InFlight(Begin(s, p, x), id) == InFlight(s, id) + if x == Counting(id) then {p} else {};
  }

  lemma FlightWithout(s: Shared, p: nat, id: nat)
    requires p in s.procs
    ensures |InFlight(s, id)|
      == |InFlight(s.(procs := s.procs - {p}), id)| + if s.procs[p] == Counting(id) then 1 else 0
  {
    assert InFlight(s, id) == InFlight(s.(procs := s.procs - {p}), id) + if s.procs[p] == Counting(id) then {p} else {};
  }

  lemma SameFlight(s: Shared, s': Shared, id: nat)
    requires s.procs == s'.procs
    ensures InFlight(s, id) == InFlight(s', id)
  {
  }

  lemma BeginAccounted(c: Setup, s: Shared, step: Step)
    requires GuessesAccounted(s) && Enabled(s, step) && (step.BeginIssue? || step.BeginVerify?)
    ensures GuessesAccounted(Perform(c, s, step))
  {
    hide Count, InFlight, Newest;
    var s' := Perform(c, s, step);
    assert |s'.codes| == |s.codes| && forall id :: 0 <= id < |s.codes| ==>
      s'.codes[id].attempts == s.codes[id].attempts;
    if s' != s {
      var x := s'.procs[step.p];
      forall id | 0 <= id < |s.codes|
        ensures Count(s'.wrong, id) == s'.codes[id].attempts + |InFlight(s', id)| + Count(s'.lost, id)
      {
        FlightWith(s, step.p, x, id);
        SameFlight(Begin(s, step.p, x), s', id);
        if x.Counting? { CountMore(s.wrong, x.id, id); }
      }
    }
  }

  lemma FinishAccounted(c: Setup, s: Shared, step: Step)
    requires GuessesAccounted(s) && Enabled(s, step) && (step.Finish? || step.Crash?)
    ensures GuessesAccounted(Perform(c, s, step))
  {
    hide Count, InFlight;
    var s' := Perform(c, s, step);
    var x := s.procs[step.p];
    var ended := s.(procs := s.procs - {step.p});
    forall id | 0 <= id < |s'.codes|
      ensures Count(s'.wrong, id) == s'.codes[id].attempts + |InFlight(s', id)| + Count(s'.lost, id)
    {
      FlightWithout(s, step.p, id);
      SameFlight(ended, s', id);
      if x.Counting? { CountMore(s.lost, x.id, id); }
      if id == |s.codes| { NewCodeIsUnguessed(s, id); }
    }
  }

  lemma NewCodeIsUnguessed(s: Shared, id: nat)
    requires GuessesAccounted(s) && id == |s.codes|
    ensures Count(s.wrong, id) == 0 && Count(s.lost, id) == 0 && InFlight(s, id) == {}
  {
    CountOfNobody(s.wrong, id);
    CountOfNobody(s.lost, id);
  }

  /** In every interleaving the wrong guesses on a code add up. */
  lemma {:induction false} RunAccounted(c: Setup, steps: seq<Step>, serial: bool)
    requires Run(c, steps, serial).Some?
    ensures GuessesAccounted(Run(c, steps, serial).value)
  {
    hide Perform, GuessesAccounted;
    if steps == [] {
      NothingGuessed();
    } else {
      RunAccounted(c, steps[..|steps| - 1], serial);
      var s, step := Run(c, steps[..|steps| - 1], serial).value, steps[|steps| - 1];
      if step.BeginIssue? || step.BeginVerify? {
        BeginAccounted(c, s, step);
      } else {
        FinishAccounted(c, s, step);
      }
    }
  }

  lemma NothingGuessed()
    ensures GuessesAccounted(EMPTY)
  {
  }

  /**
   What the limit does bound: whenever a guess on a code is judged wrong, the wrong guesses so far are at
   most the limit less one, plus those in flight, this one included, and those lost in crashes.
   */
  lemma WrongGuessesBounded(c: Setup, steps: seq<Step>, serial: bool, step: Step, id: nat)
    requires Run(c, steps, serial).Some? && Enabled(Run(c, steps, serial).value, step) && step.BeginVerify?
    requires Perform(c, Run(c, steps, serial).value, step).wrong == Run(c, steps, serial).value.wrong + [id]
    ensures var s' := Perform(c, Run(c, steps, serial).value, step);
      Count(s'.wrong, id) <= c.maxAttempts - 1 + |InFlight(s', id)| + Count(s'.lost, id)
  {
    hide Count, InFlight, Run;
    RunAccounted(c, steps, serial);
    var s := Run(c, steps, serial).value;
    var s' := Perform(c, s, step);
    BeginAccounted(c, s, step);
    assert s'.wrong[|s.wrong|] == id;
  }

  /**
   Exactly when the limit holds at a guess judged wrong: the wrong guesses before it, counted, in flight or
   lost, are fewer than the limit. A guess in flight does no harm as long as that is so.
   */
  lemma GuessesCappedIff(c: Setup, steps: seq<Step>, serial: bool, step: Step, id: nat)
    requires Run(c, steps, serial).Some? && Enabled(Run(c, steps, serial).value, step) && step.BeginVerify?
    requires Perform(c, Run(c, steps, serial).value, step).wrong == Run(c, steps, serial).value.wrong + [id]
    ensures var s := Run(c, steps, serial).value;
      && id < |s.codes|
      && (Count(Perform(c, s, step).wrong, id) <= c.maxAttempts
          <==> s.codes[id].attempts + |InFlight(s, id)| + Count(s.lost, id) < c.maxAttempts)
  {
    hide Count, InFlight, Run;
    RunAccounted(c, steps, serial);
    var s := Run(c, steps, serial).value;
    var s' := Perform(c, s, step);
    assert s'.wrong[|s.wrong|] == id;
    CountMore(s.wrong, id, id);
  }

  function Guess(tx: string, purpose: string, guess: string, p: nat): Step { BeginVerify(p, tx, purpose, guess, 0) }

  /** One code issued, then `n` wrong guesses judged before the first of them is counted. */
  function Crowd(tx: string, purpose: string, code: string, guess: string, n: nat): seq<Step> {
    if n == 0 then [BeginIssue(0, tx, purpose, code, 0), Finish(0)]
    else Crowd(tx, purpose, code, guess, n - 1) + [Guess(tx, purpose, guess, n)]
  }

  lemma IssuedOnce(c: Setup, tx: string, purpose: string, code: string)
    ensures Run(c, [BeginIssue(0, tx, purpose, code, 0), Finish(0)], true)
      == Some(EMPTY.(codes := [Code(tx, purpose, c.hash(code), c.ttl, 0, false)]))
  {
    var begin := BeginIssue(0, tx, purpose, code, 0);
    var steps := [begin, Finish(0)];
    assert steps[..1] == [begin] && [begin][..0] == [];
    assert Run(c, [], true) == Some(EMPTY);
    var one := EMPTY.(procs := map[0 := Inserting(tx, purpose, code, 0)]);
    assert Retired([], tx, purpose) == [];
    assert Run(c, [begin], true) == Some(one);
    assert one.procs - {0} == map[];
    assert [] + [Code(tx, purpose, c.hash(code), 0 + c.ttl, 0, false)] ==
      [Code(tx, purpose, c.hash(code), c.ttl, 0, false)];
  }

  /** The limit is not one on overlapping guesses: for every `n`, some run judges `n` wrong guesses on one code. */
  lemma {:induction false} OverlappingGuessesExceed(c: Setup, tx: string,
      purpose: string, code: string, guess: string, n: nat)
    requires 0 < c.maxAttempts && 0 < c.ttl && c.hash(guess) != c.hash(code)
    ensures var s := Run(c, Crowd(tx, purpose, code, guess, n), true);
      && s.Some? && Count(s.value.wrong, 0) == n
      && s.value.codes == [Code(tx, purpose, c.hash(code), c.ttl, 0, false)]
           && forall p :: p in s.value.procs ==> p <= n
  {
    if n == 0 {
      IssuedOnce(c, tx, purpose, code);
    } else {
      OverlappingGuessesExceed(c, tx, purpose, code, guess, n - 1);
      var steps, step := Crowd(tx, purpose, code, guess, n - 1), Guess(tx, purpose, guess, n);
      var s := Run(c, steps, true).value;
      assert (steps + [step])[..|steps|] == steps;
      assert Newest(s.codes, tx, purpose) == Some(0);
      assert Perform(c, s, step) == Begin(s, n, Counting(0)).(wrong := s.wrong + [0]);
      CountMore(s.wrong, 0, 0);
    }
  }
}
