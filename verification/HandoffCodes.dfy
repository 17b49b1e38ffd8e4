/** One-time handoff codes of one order: issuing supersedes, checking locks out. */
module HandoffCodes {
  import opened Wrappers

  datatype CodeKind = RiderPickup | RiderArrival | ReceiverCollection | SenderCollection

  /** A handoff_codes row. Codes are compared by their hash; rows are kept in the
      order they were inserted. */
  datatype Code = Code(kind: CodeKind, hash: nat, expiresAt: int, used: bool, failedAttempts: nat)

  const MAX_ATTEMPTS := 5

  /** The rows that survive issuing a new code of this kind. */
  function WithoutUnused(codes: seq<Code>, kind: CodeKind): seq<Code> {
    if codes == [] then []
    else
      var last := codes[|codes| - 1];
      WithoutUnused(codes[..|codes| - 1], kind) + (if last.kind == kind && !last.used then [] else [last])
  }

  /** The newest unused row of this kind. */
  function LatestUnused(codes: seq<Code>, kind: CodeKind): (r: Option<nat>)
    ensures r.Some? ==> r.value < |codes| && codes[r.value].kind == kind && !codes[r.value].used
    ensures forall i :: 0 <= i < |codes| && codes[i].kind == kind && !codes[i].used ==> r.Some? && i <= r.value
  {
    if codes == [] then None
    else
      var last := codes[|codes| - 1];
      if last.kind == kind && !last.used then Some(|codes| - 1)
      else LatestUnused(codes[..|codes| - 1], kind)
  }

  function Issue(codes: seq<Code>, kind: CodeKind, hash: nat, expiresAt: int): seq<Code> {
    WithoutUnused(codes, kind) + [Code(kind, hash, expiresAt, false, 0)]
  }

  predicate IsValid(code: Code, hash: nat, now: int) {
    code.expiresAt > now && code.failedAttempts < MAX_ATTEMPTS && hash == code.hash
  }

  /** The rows after a successful check, None if the check fails. */
  function Validate(codes: seq<Code>, kind: CodeKind, hash: nat, now: int): Option<seq<Code>> {
    var latest := LatestUnused(codes, kind);
    if latest.Some? && IsValid(codes[latest.value], hash, now) then
      Some(codes[latest.value := codes[latest.value].(used := true)])
    else
      None
  }

  /** What a failed check leaves behind, whatever is rolled back around it. */
  function CountFailure(codes: seq<Code>, kind: CodeKind): seq<Code> {
    var latest := LatestUnused(codes, kind);
    if latest.None? then codes
    else codes[latest.value := codes[latest.value].(failedAttempts := codes[latest.value].failedAttempts + 1)]
  }

  ghost predicate OneUnusedPerKind(codes: seq<Code>) {
    forall i, j :: 0 <= i < j < |codes| && !codes[i].used && !codes[j].used ==> codes[i].kind != codes[j].kind
  }

  /** The one row of a kind that can still be used. */
  function LiveRow(codes: seq<Code>, kind: CodeKind): Option<Code> {
    var latest := LatestUnused(codes, kind);
    if latest.None? then None else Some(codes[latest.value])
  }

  lemma LiveRowOfAppend(front: seq<Code>, last: Code, kind: CodeKind)
    ensures LiveRow(front + [last], kind) ==
            if last.kind == kind && !last.used then Some(last) else LiveRow(front, kind)
  {
    assert (front + [last])[..|front|] == front;
  }

  lemma OneUnusedOfAppend(front: seq<Code>, last: Code)
    requires OneUnusedPerKind(front)
    requires last.used || forall c :: c in front && c.kind == last.kind ==> c.used
    ensures OneUnusedPerKind(front + [last])
  {
    forall i | 0 <= i < |front| && !front[i].used && !last.used
      ensures front[i].kind != last.kind
    {
      assert front[i] in front;
    }
  }

  lemma {:induction false} WithoutUnusedKeeps(codes: seq<Code>, kind: CodeKind)
    requires OneUnusedPerKind(codes)
    ensures OneUnusedPerKind(WithoutUnused(codes, kind))
    ensures forall c :: c in WithoutUnused(codes, kind) ==> c in codes && (c.kind == kind ==> c.used)
    ensures forall k :: k != kind ==> LiveRow(WithoutUnused(codes, kind), k) == LiveRow(codes, k)
  {
    if codes != [] {
      var front, last := codes[..|codes| - 1], codes[|codes| - 1];
      assert codes == front + [last];
      WithoutUnusedKeeps(front, kind);
      var rest := WithoutUnused(front, kind);
      var kept := !(last.kind == kind && !last.used);
      assert WithoutUnused(codes, kind) == if kept then rest + [last] else rest;
      if kept {
        forall c | c in rest && c.kind == last.kind && !last.used
          ensures c.used
        {
          var i :| 0 <= i < |front| && front[i] == c;
          assert codes[i] == c && codes[|front|] == last;
        }
        OneUnusedOfAppend(rest, last);
      }
      forall k | k != kind
        ensures LiveRow(WithoutUnused(codes, kind), k) == LiveRow(codes, k)
      {
        LiveRowOfAppend(front, last, k);
        LiveRowOfAppend(rest, last, k);
      }
    }
  }

  /** Issuing replaces the live code of its kind and touches no other kind. */
  lemma IssueReplaces(codes: seq<Code>, kind: CodeKind, hash: nat, expiresAt: int)
    requires OneUnusedPerKind(codes)
    ensures OneUnusedPerKind(Issue(codes, kind, hash, expiresAt))
    ensures LiveRow(Issue(codes, kind, hash, expiresAt), kind) == Some(Code(kind, hash, expiresAt, false, 0))
    ensures forall k :: k != kind ==> LiveRow(Issue(codes, kind, hash, expiresAt), k) == LiveRow(codes, k)
  {
    WithoutUnusedKeeps(codes, kind);
    var rest, row := WithoutUnused(codes, kind), Code(kind, hash, expiresAt, false, 0);
    OneUnusedOfAppend(rest, row);
    forall k {
      LiveRowOfAppend(rest, row, k);
    }
  }

  /** A successful check uses up the live code of its kind and touches no other. */
  lemma ValidateConsumes(codes: seq<Code>, kind: CodeKind, hash: nat, now: int)
    requires OneUnusedPerKind(codes) && Validate(codes, kind, hash, now).Some?
    ensures OneUnusedPerKind(Validate(codes, kind, hash, now).value)
    ensures LiveRow(codes, kind).Some? && IsValid(LiveRow(codes, kind).value, hash, now)
    ensures LiveRow(Validate(codes, kind, hash, now).value, kind) == None
    ensures forall k :: k != kind ==> LiveRow(Validate(codes, kind, hash, now).value, k) == LiveRow(codes, k)
  {
    var i := LatestUnused(codes, kind).value;
    UpdateTouchesOneKind(codes, i, codes[i].(used := true));
  }

  lemma UpdateTouchesOneKind(codes: seq<Code>, i: nat, row: Code)
    requires i < |codes| && row.kind == codes[i].kind
    ensures forall k :: k != row.kind ==> LiveRow(codes[i := row], k) == LiveRow(codes, k)
  {
    var codes' := codes[i := row];
    forall k | k != row.kind
      ensures LiveRow(codes', k) == LiveRow(codes, k)
    {
      var a, b := LatestUnused(codes, k), LatestUnused(codes', k);
      assert a.Some? ==> codes'[a.value] == codes[a.value];
      assert b.Some? ==> codes'[b.value] == codes[b.value];
    }
  }

  /** A failed check only raises the live code's counter. */
  lemma FailureCounts(codes: seq<Code>, kind: CodeKind)
    requires OneUnusedPerKind(codes)
    ensures OneUnusedPerKind(CountFailure(codes, kind))
    ensures LiveRow(CountFailure(codes, kind), kind) ==
            match LiveRow(codes, kind) case None => None
                                       case Some(c) => Some(c.(failedAttempts := c.failedAttempts + 1))
    ensures forall k :: k != kind ==> LiveRow(CountFailure(codes, kind), k) == LiveRow(codes, k)
  {
    var latest := LatestUnused(codes, kind);
    if latest.Some? {
      var i := latest.value;
      var row := codes[i].(failedAttempts := codes[i].failedAttempts + 1);
      UpdateTouchesOneKind(codes, i, row);
      assert codes[i := row][i] == row;
      assert LatestUnused(codes[i := row], kind) == latest;
    }
  }

  /** What can happen to an order's codes, in any order, any number of times. */
  datatype CodeStep =
    | IssueStep(kind: CodeKind, hash: nat, expiresAt: int)
    | CheckStep(kind: CodeKind, hash: nat, now: int)

  function AfterCodeStep(codes: seq<Code>, step: CodeStep): seq<Code> {
    match step
    case IssueStep(kind, hash, expiresAt) => Issue(codes, kind, hash, expiresAt)
    case CheckStep(kind, hash, now) =>
      match Validate(codes, kind, hash, now)
      case Some(codes') => codes'
      case None => CountFailure(codes, kind)
  }

  function TableAfter(history: seq<CodeStep>): seq<Code> {
    if history == [] then [] else AfterCodeStep(TableAfter(history[..|history| - 1]), history[|history| - 1])
  }

  /** What one step does to the live code of one kind. */
  function LiveAfter(live: Option<Code>, step: CodeStep, kind: CodeKind): Option<Code> {
    if step.kind != kind then live
    else
      match step
      case IssueStep(_, hash, expiresAt) => Some(Code(kind, hash, expiresAt, false, 0))
      case CheckStep(_, hash, now) =>
        match live
        case None => None
        case Some(c) => if IsValid(c, hash, now) then None else Some(c.(failedAttempts := c.failedAttempts + 1))
  }

  lemma StepOnLive(codes: seq<Code>, step: CodeStep, kind: CodeKind)
    requires OneUnusedPerKind(codes)
    ensures OneUnusedPerKind(AfterCodeStep(codes, step))
    ensures LiveRow(AfterCodeStep(codes, step), kind) == LiveAfter(LiveRow(codes, kind), step, kind)
  {
    match step {
      case IssueStep(k, hash, expiresAt) => IssueReplaces(codes, k, hash, expiresAt);
      case CheckStep(k, hash, now) =>
        if Validate(codes, k, hash, now).Some? {
          ValidateConsumes(codes, k, hash, now);
        } else {
          FailureCounts(codes, k);
        }
    }
  }

  /** Would this check, made after `history`, succeed? */
  predicate WouldAccept(history: seq<CodeStep>, kind: CodeKind, hash: nat, now: int) {
    Validate(TableAfter(history), kind, hash, now).Some?
  }

  /** Where the code of this kind was last issued. */
  function LastIssue(history: seq<CodeStep>, kind: CodeKind): (at: Option<nat>)
    ensures at.Some? ==> at.value < |history| && history[at.value].IssueStep? && history[at.value].kind == kind
  {
    if history == [] then None
    else
      var last := history[|history| - 1];
      if last.IssueStep? && last.kind == kind then Some(|history| - 1)
      else LastIssue(history[..|history| - 1], kind)
  }

  /** How many checks of this kind were made after `at`. */
  function ChecksAfter(history: seq<CodeStep>, kind: CodeKind, at: nat): nat {
    if |history| <= at + 1 then 0
    else
      var last := history[|history| - 1];
      ChecksAfter(history[..|history| - 1], kind, at) + (if last.CheckStep? && last.kind == kind then 1 else 0)
  }

  /** No check of this kind made after `at` succeeded. */
  ghost predicate UnusedSince(history: seq<CodeStep>, kind: CodeKind, at: nat) {
    forall j :: at < j < |history| && history[j].CheckStep? && history[j].kind == kind ==>
      !WouldAccept(history[..j], kind, history[j].hash, history[j].now)
  }

  /** The declarative meaning of the table: the live code of a kind is the last one
      issued, unless a check has succeeded since, with one failed attempt for every
      check since. */
  ghost function ExpectedLive(history: seq<CodeStep>, kind: CodeKind): Option<Code> {
    var at := LastIssue(history, kind);
    if at.Some? && UnusedSince(history, kind, at.value) then
      var issue := history[at.value];
      Some(Code(kind, issue.hash, issue.expiresAt, false, ChecksAfter(history, kind, at.value)))
    else
      None
  }

  lemma {:induction false} OneUnusedAlways(history: seq<CodeStep>)
    ensures OneUnusedPerKind(TableAfter(history))
  {
    if history != [] {
      var front := history[..|history| - 1];
      OneUnusedAlways(front);
      StepOnLive(TableAfter(front), history[|history| - 1], RiderPickup);
    }
  }

  lemma UnusedSinceAppend(front: seq<CodeStep>, last: CodeStep, kind: CodeKind, at: nat)
    requires at < |front|
    ensures UnusedSince(front + [last], kind, at) <==>
              && UnusedSince(front, kind, at)
              && !(last.CheckStep? && last.kind == kind && WouldAccept(front, kind, last.hash, last.now))
  {
    var all := front + [last];
    assert all[..|front|] == front;
    assert forall j :: 0 <= j < |front| ==> all[..j] == front[..j] && all[j] == front[j];
    if UnusedSince(all, kind, at) {
      assert all[|front|] == last;
      forall j | at < j < |front| && front[j].CheckStep? && front[j].kind == kind
        ensures !WouldAccept(front[..j], kind, front[j].hash, front[j].now)
      {
        assert all[j] == front[j];
      }
    }
  }

  /** Issuing a code makes it the expected live code. */
  lemma ExpectedAfterIssue(front: seq<CodeStep>, last: CodeStep)
    requires last.IssueStep?
    ensures ExpectedLive(front + [last], last.kind) == Some(Code(last.kind, last.hash, last.expiresAt, false, 0))
  {
    var history := front + [last];
    assert history[|front|] == last;
    assert LastIssue(history, last.kind) == Some(|front|);
    assert ChecksAfter(history, last.kind, |front|) == 0;
  }

  /** Any other step leaves the last issue where it was, and counts if it is a check. */
  lemma LastIssueStays(front: seq<CodeStep>, last: CodeStep, kind: CodeKind)
    requires !(last.IssueStep? && last.kind == kind)
    ensures LastIssue(front + [last], kind) == LastIssue(front, kind)
    ensures LastIssue(front, kind).Some? ==>
              var at := LastIssue(front, kind).value;
              && (front + [last])[at] == front[at]
              && ChecksAfter(front + [last], kind, at) == ChecksAfter(front, kind, at)
                 + if last.CheckStep? && last.kind == kind then 1 else 0
  {
    assert (front + [last])[..|front|] == front;
  }

  /** A check meets the live code that the history up to it has left. */
  lemma CheckMeetsLive(front: seq<CodeStep>, check: CodeStep)
    requires check.CheckStep?
    ensures WouldAccept(front, check.kind, check.hash, check.now) <==>
              LiveRow(TableAfter(front), check.kind).Some?
              && IsValid(LiveRow(TableAfter(front), check.kind).value, check.hash, check.now)
  {
  }

  lemma ExpectedAfterOther(front: seq<CodeStep>, last: CodeStep, kind: CodeKind)
    requires !(last.IssueStep? && last.kind == kind)
    requires LiveRow(TableAfter(front), kind) == ExpectedLive(front, kind)
    ensures ExpectedLive(front + [last], kind) == LiveAfter(ExpectedLive(front, kind), last, kind)
  {
    hide LastIssue, ChecksAfter, UnusedSince, LiveRow, WouldAccept, TableAfter;
    LastIssueStays(front, last, kind);
    var at := LastIssue(front, kind);
    if at.Some? {
      UnusedSinceAppend(front, last, kind, at.value);
      if last.CheckStep? && last.kind == kind {
        CheckMeetsLive(front, last);
      }
    }
  }

  /** Over every history the table and its declarative meaning agree. */
  lemma {:induction false} TableMeansHistory(history: seq<CodeStep>, kind: CodeKind)
    ensures LiveRow(TableAfter(history), kind) == ExpectedLive(history, kind)
  {
    if history != [] {
      var front, last := history[..|history| - 1], history[|history| - 1];
      assert history == front + [last];
      TableMeansHistory(front, kind);
      OneUnusedAlways(front);
      StepOnLive(TableAfter(front), last, kind);
      if last.IssueStep? && last.kind == kind {
        ExpectedAfterIssue(front, last);
      } else {
        ExpectedAfterOther(front, last, kind);
      }
    }
  }

  /** The code last issued, unexpired, not used since, and with fewer than five checks
      made since it was issued. */
  ghost predicate LatestLive(history: seq<CodeStep>, kind: CodeKind, hash: nat, now: int) {
    && LastIssue(history, kind).Some?
    && var at := LastIssue(history, kind).value;
    && history[at].hash == hash
    && now < history[at].expiresAt
    && UnusedSince(history, kind, at)
    && ChecksAfter(history, kind, at) < MAX_ATTEMPTS
  }

  /** Over every history of issues and checks, a check succeeds exactly when it carries
      the latest live code: so an old code never works, a code works at most once, and
      after five failures nothing works until the next issue. */
  lemma AcceptedExactlyWhen(history: seq<CodeStep>, kind: CodeKind, hash: nat, now: int)
    ensures WouldAccept(history, kind, hash, now) <==> LatestLive(history, kind, hash, now)
    ensures OneUnusedPerKind(TableAfter(history))
  {
    TableMeansHistory(history, kind);
    OneUnusedAlways(history);
  }
}
