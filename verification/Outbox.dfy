/** The outbox: several pollers claim due events for the length of a lease, handle them
    one by one, and put failed ones off for longer and longer. */
module Outbox {

  type EventId = nat
  type PollerId = nat

  datatype OutboxStatus = Waiting | Sent | GivenUp

  /** An outbox_events row. Times are in milliseconds. */
  datatype Row = Row(createdAt: int, status: OutboxStatus, attempts: nat, nextAttemptAt: int)

  const BATCH_SIZE := 10
  const MAX_ATTEMPTS := 5
  const CLAIM_LEASE_MS := 5 * 60_000
  const BASE_BACKOFF_MS := 30_000
  const MAX_BACKOFF_MS := 15 * 60_000

  function PowerOfTwo(n: nat): nat {
    if n == 0 then 1 else 2 * PowerOfTwo(n - 1)
  }

  function BackoffMs(attempts: nat): nat
    requires attempts > 0
  {
    var backoff := BASE_BACKOFF_MS * PowerOfTwo(attempts - 1);
    if backoff < MAX_BACKOFF_MS then backoff else MAX_BACKOFF_MS
  }

  lemma {:induction false} PowerGrows(m: nat, n: nat)
    requires m <= n
    ensures 1 <= PowerOfTwo(m) <= PowerOfTwo(n)
    decreases n
  {
    if m < n {
      PowerGrows(m, n - 1);
    } else if m > 0 {
      PowerGrows(m - 1, n - 1);
    }
  }

  /** Waits never get shorter, from half a minute up to a quarter of an hour; and an
      event that is retried at all never waits longer than four minutes, because the
      attempts run out before the cap is reached. */
  lemma BackoffGrows(m: nat, n: nat)
    requires 1 <= m <= n
    ensures BASE_BACKOFF_MS <= BackoffMs(m) <= BackoffMs(n) <= MAX_BACKOFF_MS
    ensures n < MAX_ATTEMPTS ==> BackoffMs(n) == BASE_BACKOFF_MS * PowerOfTwo(n - 1) <= 4 * 60_000
  {
    PowerGrows(m - 1, n - 1);
    if n < MAX_ATTEMPTS {
      PowerGrows(n - 1, 3);
      assert PowerOfTwo(3) == 8;
    }
  }

  predicate Due(row: Row, now: int) {
    row.status == Waiting && row.nextAttemptAt <= now
  }

  predicate Distinct(ids: seq<EventId>) {
    forall i, j :: 0 <= i < j < |ids| ==> ids[i] != ids[j]
  }

  /** What the claiming statement may return: due events, oldest first, up to a batch
      of them, and none left out that is older than one taken. */
  ghost predicate IsClaim(rows: map<EventId, Row>, ids: seq<EventId>, now: int) {
    && |ids| <= BATCH_SIZE && Distinct(ids)
    && (forall id :: id in ids ==> id in rows && Due(rows[id], now))
    && (forall i, j :: 0 <= i < j < |ids| ==> rows[ids[i]].createdAt <= rows[ids[j]].createdAt)
    && (forall id :: id in rows && Due(rows[id], now) && id !in ids ==>
          |ids| == BATCH_SIZE && forall other :: other in ids ==> rows[other].createdAt <= rows[id].createdAt)
  }

  function Leased(row: Row, now: int): Row {
    row.(nextAttemptAt := now + CLAIM_LEASE_MS)
  }

  function Claimed(rows: map<EventId, Row>, ids: seq<EventId>, now: int): map<EventId, Row> {
    map id | id in rows :: if id in ids then Leased(rows[id], now) else rows[id]
  }

  /** The copy of a claimed event after its handler returned, or threw at `now`. */
  function AfterHandling(copy: Row, success: bool, now: int): Row {
    if success then copy.(status := Sent)
    else
      var failed := copy.(attempts := copy.attempts + 1);
      if failed.attempts >= MAX_ATTEMPTS then failed.(status := GivenUp)
      else failed.(nextAttemptAt := now + BackoffMs(failed.attempts))
  }

  /** A claimed event, as it was read by the claim. */
  datatype Copy = Copy(id: EventId, row: Row)

  /** A poller is idle or works through the rest of a batch; the head is the event it
      is handling. */
  datatype Poller = Idle | Busy(claimedAt: int, batch: seq<Copy>)

  datatype State = State(rows: map<EventId, Row>, pollers: map<PollerId, Poller>)

  datatype Step =
    | Enqueue(id: EventId, createdAt: int, dueAt: int)
    | Claim(p: PollerId, ids: seq<EventId>, now: int)
    | Handle(p: PollerId, success: bool, now: int)
    | Crash(p: PollerId)

  function PollerOf(s: State, p: PollerId): Poller {
    if p in s.pollers then s.pollers[p] else Idle
  }

  function Copies(rows: map<EventId, Row>, ids: seq<EventId>, now: int): seq<Copy>
    requires forall id :: id in ids ==> id in rows
  {
    if ids == [] then []
    else
      assert ids[0] in ids && forall id :: id in ids[1..] ==> id in ids;
      [Copy(ids[0], Leased(rows[ids[0]], now))] + Copies(rows, ids[1..], now)
  }

  /** What can happen in a state. A poller that is busy does not poll again. */
  ghost predicate Enabled(s: State, step: Step) {
    match step
    case Enqueue(id, _, _) => id !in s.rows
    case Claim(p, ids, now) => PollerOf(s, p).Idle? && ids != [] && IsClaim(s.rows, ids, now)
    case Handle(p, _, _) => PollerOf(s, p).Busy? && PollerOf(s, p).batch != []
    case Crash(_) => true
  }

  /** Every claim finds every other batch still within its lease. */
  predicate WithinLease(s: State, step: Step) {
    step.Claim? ==> forall p :: p in s.pollers && s.pollers[p].Busy? ==>
      step.now < s.pollers[p].claimedAt + CLAIM_LEASE_MS
  }

  function Rest(poller: Poller): Poller
    requires poller.Busy? && poller.batch != []
  {
    if |poller.batch| == 1 then Idle else Busy(poller.claimedAt, poller.batch[1..])
  }

  function Next(s: State, step: Step): State
    requires Enabled(s, step)
  {
    match step
    case Enqueue(id, createdAt, dueAt) => s.(rows := s.rows[id := Row(createdAt, Waiting, 0, dueAt)])
    case Claim(p, ids, now) =>
      State(Claimed(s.rows, ids, now), s.pollers[p := Busy(now, Copies(s.rows, ids, now))])
    case Handle(p, success, now) =>
      var poller := s.pollers[p];
      var copy := poller.batch[0];
      State(s.rows[copy.id := AfterHandling(copy.row, success, now)], s.pollers[p := Rest(poller)])
    case Crash(p) => s.(pollers := s.pollers[p := Idle])
  }

  // ----- What holds between any two steps ----------------------------------

  /** Attempts never exceed the maximum, and an event is given up exactly at it. */
  predicate RowOk(row: Row) {
    && row.attempts <= MAX_ATTEMPTS
    && (row.status == GivenUp <==> row.attempts == MAX_ATTEMPTS)
  }

  /** A busy poller's copies are the rows themselves, leased to it. */
  ghost predicate HoldsLease(s: State, p: PollerId)
    requires p in s.pollers
  {
    s.pollers[p].Busy? ==>
      var batch := s.pollers[p].batch;
      && batch != []
      && (forall i, j :: 0 <= i < j < |batch| ==> batch[i].id != batch[j].id)
      && forall k :: 0 <= k < |batch| ==>
           && batch[k].id in s.rows && s.rows[batch[k].id] == batch[k].row
           && batch[k].row.status == Waiting && batch[k].row.nextAttemptAt == s.pollers[p].claimedAt + CLAIM_LEASE_MS
  }

  /** The poller has claimed the event and not finished with it. */
  ghost predicate Holds(s: State, p: PollerId, id: EventId) {
    PollerOf(s, p).Busy? && exists k :: 0 <= k < |PollerOf(s, p).batch| && PollerOf(s, p).batch[k].id == id
  }

  ghost predicate Apart(s: State, p: PollerId, q: PollerId) {
    p != q ==> forall id {:trigger Holds(s, p, id)} {:trigger Holds(s, q, id)} :: !(Holds(s, p, id) && Holds(s, q, id))
  }

  ghost predicate Inv(s: State) {
    && (forall id {:trigger s.rows[id]} :: id in s.rows ==> RowOk(s.rows[id]))
    && (forall p {:trigger HoldsLease(s, p)} :: p in s.pollers ==> HoldsLease(s, p))
    && (forall p, q {:trigger Apart(s, p, q)} :: Apart(s, p, q))
  }

  lemma {:induction false} CopiesOf(rows: map<EventId, Row>, ids: seq<EventId>, now: int)
    requires forall id :: id in ids ==> id in rows
    ensures |Copies(rows, ids, now)| == |ids|
    ensures forall k :: 0 <= k < |ids| ==> Copies(rows, ids, now)[k] == Copy(ids[k], Leased(rows[ids[k]], now))
  {
    if ids != [] {
      assert ids[0] in ids && forall id :: id in ids[1..] ==> id in ids;
      CopiesOf(rows, ids[1..], now);
    }
  }

  lemma HandlingKeepsRowOk(copy: Row, success: bool, now: int)
    requires RowOk(copy) && copy.status == Waiting
    ensures RowOk(AfterHandling(copy, success, now))
    ensures AfterHandling(copy, success, now).attempts == copy.attempts + if success then 0 else 1
  {
  }

  /** A held event comes due again exactly when its holder's lease has lapsed. */
  lemma HeldIsDueOnceLapsed(s: State, q: PollerId, id: EventId, now: int)
    requires Inv(s) && Holds(s, q, id)
    ensures id in s.rows && s.rows[id].status == Waiting && PollerOf(s, q).Busy?
    ensures Due(s.rows[id], now) <==> PollerOf(s, q).claimedAt + 300_000 <= now
  {
    assert HoldsLease(s, q);
    var k :| 0 <= k < |s.pollers[q].batch| && s.pollers[q].batch[k].id == id;
  }

  /** Holding less keeps two pollers apart. */
  lemma StayApart(s: State, s': State, p: PollerId, q: PollerId)
    requires Apart(s, p, q)
    requires forall id :: Holds(s', p, id) ==> Holds(s, p, id)
    requires forall id :: Holds(s', q, id) ==> Holds(s, q, id)
    ensures Apart(s', p, q)
  {
  }

  /** A poller whose events and copies are as they were still has its lease. */
  lemma KeepsLease(s: State, s': State, q: PollerId)
    requires q in s.pollers && HoldsLease(s, q) && q in s'.pollers && s'.pollers[q] == s.pollers[q]
    requires forall id :: Holds(s, q, id) && id in s.rows ==> id in s'.rows && s'.rows[id] == s.rows[id]
    ensures HoldsLease(s', q)
  {
    forall k | s.pollers[q].Busy? && 0 <= k < |s.pollers[q].batch|
      ensures Holds(s, q, s.pollers[q].batch[k].id)
    {
    }
  }

  /** A poller whose batch is the same holds the same. */
  lemma SameHolds(s: State, s': State, q: PollerId, id: EventId)
    requires PollerOf(s', q) == PollerOf(s, q)
    ensures Holds(s', q, id) <==> Holds(s, q, id)
  {
  }

  lemma OthersHold(s: State, s': State, p: PollerId)
    requires forall q :: q != p ==> PollerOf(s', q) == PollerOf(s, q)
    ensures forall q, id :: q != p ==> (Holds(s', q, id) <==> Holds(s, q, id))
  {
    forall q, id | q != p
      ensures Holds(s', q, id) <==> Holds(s, q, id)
    {
      SameHolds(s, s', q, id);
    }
  }

  lemma ClaimKeepsInv(s: State, p: PollerId, ids: seq<EventId>, now: int)
    requires Inv(s) && Enabled(s, Claim(p, ids, now)) && WithinLease(s, Claim(p, ids, now))
    ensures Inv(Next(s, Claim(p, ids, now)))
  {
    var s' := Next(s, Claim(p, ids, now));
    CopiesOf(s.rows, ids, now);
    OthersHold(s, s', p);
    forall q, id | Holds(s, q, id)
      ensures id !in ids
    {
      HeldIsDueOnceLapsed(s, q, id, now);
    }
    forall id | Holds(s', p, id)
      ensures id in ids
    {
    }
    forall q | q in s'.pollers
      ensures HoldsLease(s', q)
    {
      if q != p {
        assert HoldsLease(s, q);
        KeepsLease(s, s', q);
      }
    }
    forall q, r
      ensures Apart(s', q, r)
    {
      assert Apart(s, q, r);
    }
    forall id | id in s'.rows
      ensures RowOk(s'.rows[id])
    {
      assert RowOk(s.rows[id]);
    }
  }

  /** A poller that has handled its head holds the rest, apart from the head. */
  lemma HoldsRest(s: State, s': State, p: PollerId)
    requires p in s.pollers && HoldsLease(s, p) && s.pollers[p].Busy?
    requires p in s'.pollers && s'.pollers[p] == Rest(s.pollers[p])
    ensures forall id :: Holds(s', p, id) <==> Holds(s, p, id) && id != s.pollers[p].batch[0].id
    ensures Holds(s, p, s.pollers[p].batch[0].id)
  {
    var batch := s.pollers[p].batch;
    forall id
      ensures Holds(s', p, id) <==> Holds(s, p, id) && id != batch[0].id
    {
      if Holds(s, p, id) && id != batch[0].id {
        var k :| 0 <= k < |batch| && batch[k].id == id;
        assert batch[1..][k - 1] == batch[k] && PollerOf(s', p).batch == batch[1..];
        assert PollerOf(s', p).batch[k - 1].id == id;
      }
      if Holds(s', p, id) {
        var k :| 0 <= k < |PollerOf(s', p).batch| && PollerOf(s', p).batch[k].id == id;
        assert PollerOf(s, p).batch[k + 1].id == id;
      }
    }
  }

  lemma HandleKeepsInv(s: State, p: PollerId, success: bool, now: int)
    requires Inv(s) && Enabled(s, Handle(p, success, now))
    ensures Inv(Next(s, Handle(p, success, now)))
  {
    var s' := Next(s, Handle(p, success, now));
    var batch := s.pollers[p].batch;
    assert HoldsLease(s, p);
    HoldsRest(s, s', p);
    HandlingKeepsRowOk(batch[0].row, success, now);
    OthersHold(s, s', p);
    forall q | q in s'.pollers
      ensures HoldsLease(s', q)
    {
      if q == p {
        RestHoldsLease(s, s', p);
      } else {
        assert HoldsLease(s, q) && Apart(s, p, q);
        KeepsLease(s, s', q);
      }
    }
    forall q, r
      ensures Apart(s', q, r)
    {
      assert Apart(s, q, r);
      StayApart(s, s', q, r);
    }
  }

  lemma RestHoldsLease(s: State, s': State, p: PollerId)
    requires p in s.pollers && HoldsLease(s, p) && s.pollers[p].Busy?
    requires p in s'.pollers && s'.pollers[p] == Rest(s.pollers[p])
    requires forall id :: id in s.rows && id != s.pollers[p].batch[0].id ==> id in s'.rows && s'.rows[id] == s.rows[id]
    ensures HoldsLease(s', p)
  {
    var batch := s.pollers[p].batch;
    assert forall k :: 0 <= k < |batch| - 1 ==> batch[1..][k] == batch[k + 1];
  }

  lemma StepKeepsInv(s: State, step: Step)
    requires Inv(s) && Enabled(s, step) && WithinLease(s, step)
    ensures Inv(Next(s, step))
  {
    match step {
      case Claim(p, ids, now) => ClaimKeepsInv(s, p, ids, now);
      case Handle(p, success, now) => HandleKeepsInv(s, p, success, now);
      case Enqueue(id, createdAt, dueAt) =>
        var s' := Next(s, step);
        forall q | q in s'.pollers
          ensures HoldsLease(s', q)
        {
          assert HoldsLease(s, q);
        }
        assert forall t, id :: Holds(s', t, id) <==> Holds(s, t, id);
        forall q, r
          ensures Apart(s', q, r)
        {
          assert Apart(s, q, r);
        }
      case Crash(p) =>
        var s' := Next(s, step);
        forall q | q in s'.pollers
          ensures HoldsLease(s', q)
        {
          assert q != p ==> HoldsLease(s, q);
        }
        assert forall t, id :: Holds(s', t, id) ==> Holds(s, t, id);
        forall q, r
          ensures Apart(s', q, r)
        {
          assert Apart(s, q, r);
          StayApart(s, s', q, r);
        }
    }
  }

  // ----- Whole runs --------------------------------------------------------

  /** Every step can happen, and every batch finishes (or its poller is gone) before its
      lease lapses. */
  ghost predicate Timely(s: State, steps: seq<Step>)
    decreases |steps|
  {
    steps == [] || (Enabled(s, steps[0]) && WithinLease(s, steps[0]) && Timely(Next(s, steps[0]), steps[1..]))
  }

  ghost function Run(s: State, steps: seq<Step>): State
    requires Timely(s, steps)
    decreases |steps|
  {
    if steps == [] then s else Run(Next(s, steps[0]), steps[1..])
  }

  const EMPTY := State(map[], map[])

  lemma {:induction false} RunKeepsInv(s: State, steps: seq<Step>)
    requires Timely(s, steps) && Inv(s)
    ensures Inv(Run(s, steps))
    decreases |steps|
  {
    if steps != [] {
      StepKeepsInv(s, steps[0]);
      hide Inv, Next;
      RunKeepsInv(Next(s, steps[0]), steps[1..]);
    }
  }

  /** With any number of pollers, no event is ever with two of them at once. */
  lemma NeverHandledTwiceAtOnce(steps: seq<Step>, p: PollerId, q: PollerId, id: EventId)
    requires Timely(EMPTY, steps) && p != q
    ensures var s := Run(EMPTY, steps);
            !(Holds(s, p, id) && Holds(s, q, id))
  {
    RunKeepsInv(EMPTY, steps);
    assert Apart(Run(EMPTY, steps), p, q);
  }

  /** The event the step handles. */
  predicate Handles(s: State, step: Step, id: EventId)
    requires step.Handle? ==> Enabled(s, step)
  {
    step.Handle? && s.pollers[step.p].batch[0].id == id
  }

  /** How often an event is handled in a run with this outcome. */
  ghost function Handlings(s: State, steps: seq<Step>, id: EventId, success: bool): nat
    requires Timely(s, steps)
    decreases |steps|
  {
    if steps == [] then 0
    else (if Handles(s, steps[0], id) && steps[0].success == success then 1 else 0)
         + Handlings(Next(s, steps[0]), steps[1..], id, success)
  }

  /** One step on one row: only its handler changes what has become of an event, and
      only while it waits; a failure puts it off by exactly the backoff. */
  lemma StepOnRow(s: State, step: Step, id: EventId)
    requires Inv(s) && Enabled(s, step) && id in s.rows
    ensures id in Next(s, step).rows
    ensures var before, after := s.rows[id], Next(s, step).rows[id];
            if Handles(s, step, id) then
              && before.status == Waiting && after == AfterHandling(before, step.success, step.now)
            else after.status == before.status && after.attempts == before.attempts
    ensures s.rows[id].status != Waiting ==> Next(s, step).rows[id] == s.rows[id]
  {
    if step.Handle? {
      assert HoldsLease(s, step.p);
    }
  }

  /** A new event waits with all its attempts before it, due from the time it is given. */
  lemma EnqueuedIsFresh(s: State, id: EventId, createdAt: int, dueAt: int)
    requires Inv(s) && Enabled(s, Enqueue(id, createdAt, dueAt))
    ensures var s' := Next(s, Enqueue(id, createdAt, dueAt));
            && id in s'.rows && s'.rows[id].attempts == 0 && s'.rows[id].createdAt == createdAt
            && (forall now :: Due(s'.rows[id], now) <==> dueAt <= now)
            && Unheld(s', id)
            && forall other :: other in s.rows ==> other in s'.rows && s'.rows[other] == s.rows[other]
  {
    var s' := Next(s, Enqueue(id, createdAt, dueAt));
    forall p
      ensures !Holds(s', p, id)
    {
      assert p in s.pollers ==> HoldsLease(s, p);
    }
  }

  /** What the handling of a held event leaves of its row. Success sends it. The n-th failure
      puts a waiting event off by half a minute, doubled for every failure before, and it is
      due from then on and not before; the fifth gives it up. */
  lemma HandlingMeans(s: State, p: PollerId, success: bool, now: int, id: EventId)
    requires Inv(s) && Enabled(s, Handle(p, success, now)) && s.pollers[p].batch[0].id == id
    ensures id in s.rows && id in Next(s, Handle(p, success, now)).rows
    ensures var before, after := s.rows[id], Next(s, Handle(p, success, now)).rows[id];
            && before.status == Waiting && before.attempts < 5 && after.createdAt == before.createdAt
            && if success then after.status == Sent && after.attempts == before.attempts
               else
                 && after.attempts == before.attempts + 1
                 && if after.attempts == 5 then after.status == GivenUp
                    else
                      && after.status == Waiting
                      && after.nextAttemptAt == now + 30_000 * PowerOfTwo(after.attempts - 1)
                      && forall later :: Due(after, later) <==> now + 30_000 * PowerOfTwo(after.attempts - 1) <= later
    ensures forall other :: other in s.rows && other != id ==>
              && other in Next(s, Handle(p, success, now)).rows
              && Next(s, Handle(p, success, now)).rows[other] == s.rows[other]
  {
    assert HoldsLease(s, p);
    StepOnRow(s, Handle(p, success, now), id);
    assert RowOk(s.rows[id]);
    var attempts := s.rows[id].attempts + 1;
    if attempts < 5 {
      BackoffGrows(attempts, attempts);
    }
  }

  lemma {:induction false} HandlingsAccount(s: State, steps: seq<Step>, id: EventId)
    requires Timely(s, steps) && Inv(s) && id in s.rows
    ensures id in Run(s, steps).rows
    ensures var before, after := s.rows[id], Run(s, steps).rows[id];
            && after.attempts == before.attempts + Handlings(s, steps, id, false)
            && (if after.status == Sent then 1 else 0) ==
              (if before.status == Sent then 1 else 0) + Handlings(s, steps, id, true)
            && (before.status != Waiting ==> after == before)
    decreases |steps|
  {
    if steps != [] {
      StepKeepsInv(s, steps[0]);
      StepOnRow(s, steps[0], id);
      hide Inv, Next;
      HandlingsAccount(Next(s, steps[0]), steps[1..], id);
    }
  }

  /** Over any run, from when an event is enqueued: it is handled successfully at most
      once and fails at most five times; it is SENT exactly when it has succeeded, given
      up exactly when it has failed five times, and after either nothing changes it. */
  lemma EventIsHandledInBounds(steps: seq<Step>, later: seq<Step>, id: EventId)
    requires Timely(EMPTY, steps) && id in Run(EMPTY, steps).rows
    requires Run(EMPTY, steps).rows[id].status == Waiting && Run(EMPTY, steps).rows[id].attempts == 0
    requires Timely(Run(EMPTY, steps), later)
    ensures var s := Run(EMPTY, steps);
            && id in Run(s, later).rows
            && var row := Run(s, later).rows[id];
            && Handlings(s, later, id, true) <= 1 && Handlings(s, later, id, false) <= MAX_ATTEMPTS
            && (row.status == Sent <==> Handlings(s, later, id, true) == 1)
            && (row.status == GivenUp <==> Handlings(s, later, id, false) == MAX_ATTEMPTS)
            && row.attempts == Handlings(s, later, id, false)
  {
    RunKeepsInv(EMPTY, steps);
    RunKeepsInv(Run(EMPTY, steps), later);
    HandlingsAccount(Run(EMPTY, steps), later, id);
    assert RowOk(Run(Run(EMPTY, steps), later).rows[id]);
  }

  /** No poller has the event. */
  ghost predicate Unheld(s: State, id: EventId) {
    forall p :: !Holds(s, p, id)
  }

  predicate ClaimsEvent(step: Step, id: EventId) {
    step.Claim? && id in step.ids
  }

  /** An event that no poller has stays as it is until one claims it. */
  lemma UnheldStays(s: State, step: Step, id: EventId)
    requires Inv(s) && Enabled(s, step) && id in s.rows && Unheld(s, id) && !ClaimsEvent(step, id)
    ensures id in Next(s, step).rows && Next(s, step).rows[id] == s.rows[id] && Unheld(Next(s, step), id)
  {
    var s' := Next(s, step);
    match step {
      case Claim(p, ids, now) =>
        CopiesOf(s.rows, ids, now);
        OthersHold(s, s', p);
      case Handle(p, success, now) =>
        assert HoldsLease(s, p);
        HoldsRest(s, s', p);
        OthersHold(s, s', p);
      case Enqueue(_, _, _) =>
        forall q
          ensures !Holds(s', q, id)
        {
          SameHolds(s, s', q, id);
        }
      case Crash(p) => OthersHold(s, s', p);
    }
  }

  lemma {:induction false} UnheldStaysInRun(s: State, steps: seq<Step>, id: EventId)
    requires Inv(s) && Timely(s, steps) && id in s.rows && Unheld(s, id)
    requires forall step :: step in steps ==> !ClaimsEvent(step, id)
    ensures id in Run(s, steps).rows && Run(s, steps).rows[id] == s.rows[id] && Unheld(Run(s, steps), id)
    decreases |steps|
  {
    if steps != [] {
      assert steps[0] in steps && forall step :: step in steps[1..] ==> step in steps;
      StepKeepsInv(s, steps[0]);
      UnheldStays(s, steps[0], id);
      hide Inv, Next, Unheld;
      UnheldStaysInRun(Next(s, steps[0]), steps[1..], id);
    }
  }

  /** A poller that has handled an event has let go of it, and nobody else has it. */
  lemma HandledIsUnheld(s: State, p: PollerId, success: bool, now: int, id: EventId)
    requires Inv(s) && Enabled(s, Handle(p, success, now)) && s.pollers[p].batch[0].id == id
    ensures Unheld(Next(s, Handle(p, success, now)), id)
  {
    var s' := Next(s, Handle(p, success, now));
    assert HoldsLease(s, p);
    HoldsRest(s, s', p);
    OthersHold(s, s', p);
    forall q | q != p
      ensures !Holds(s', q, id)
    {
      assert Apart(s, p, q);
    }
  }

  /** Over any run: after its n-th failure an event is not claimed again before half a
      minute, doubled n - 1 times, has gone by, and never after the fifth or a success. */
  lemma RetryWaits(s: State, p: PollerId, success: bool, now: int, id: EventId, between: seq<Step>, again: Step)
    requires Inv(s) && Enabled(s, Handle(p, success, now)) && s.pollers[p].batch[0].id == id
    requires Timely(Next(s, Handle(p, success, now)), between)
    requires forall step :: step in between ==> !ClaimsEvent(step, id)
    requires Enabled(Run(Next(s, Handle(p, success, now)), between), again) && ClaimsEvent(again, id)
    ensures id in s.rows && !success && s.rows[id].attempts + 1 < 5
    ensures now + 30_000 * PowerOfTwo(s.rows[id].attempts) <= again.now
  {
    var s1 := Next(s, Handle(p, success, now));
    HandlingMeans(s, p, success, now, id);
    StepKeepsInv(s, Handle(p, success, now));
    HandledIsUnheld(s, p, success, now, id);
    hide Inv, Next;
    UnheldStaysInRun(s1, between, id);
    assert Due(s1.rows[id], again.now);
  }

  /** SENT and FAILED are final. */
  lemma FinishedIsFinal(steps: seq<Step>, later: seq<Step>, id: EventId)
    requires Timely(EMPTY, steps) && id in Run(EMPTY, steps).rows && Run(EMPTY, steps).rows[id].status != Waiting
    requires Timely(Run(EMPTY, steps), later)
    ensures id in Run(Run(EMPTY, steps), later).rows
    ensures Run(Run(EMPTY, steps), later).rows[id] == Run(EMPTY, steps).rows[id]
  {
    RunKeepsInv(EMPTY, steps);
    HandlingsAccount(Run(EMPTY, steps), later, id);
  }

  // ----- When a lease lapses -----------------------------------------------

  const OVERDUE := State(map[1 := Row(0, Waiting, 0, CLAIM_LEASE_MS)],
                         map[7 := Busy(0, [Copy(1, Row(0, Waiting, 0, CLAIM_LEASE_MS))])])

  /** A handler that is still at work when its lease lapses: another poller claims the
      event and sends it, and the first one's failure then undoes that, so the event
      waits again and will be sent twice. */
  lemma LapsedLeaseUndoesSent()
    ensures Timely(EMPTY, [Enqueue(1, 0, 0)] + [Claim(7, [1], 0)])
              && Run(EMPTY, [Enqueue(1, 0, 0)] + [Claim(7, [1], 0)]) == OVERDUE
    ensures var claim := Claim(8, [1], CLAIM_LEASE_MS);
            && Enabled(OVERDUE, claim) && !WithinLease(OVERDUE, claim)
            && var s1 := Next(OVERDUE, claim);
            && Enabled(s1, Handle(8, true, CLAIM_LEASE_MS + 1))
            && var s2 := Next(s1, Handle(8, true, CLAIM_LEASE_MS + 1));
            && s2.rows[1].status == Sent
            && Enabled(s2, Handle(7, false, CLAIM_LEASE_MS + 2))
            && Next(s2, Handle(7, false, CLAIM_LEASE_MS + 2)).rows[1].status == Waiting
  {
    var s0 := Next(EMPTY, Enqueue(1, 0, 0));
    assert s0.rows == map[1 := Row(0, Waiting, 0, 0)];
    CopiesOf(s0.rows, [1], 0);
    var claim0 := Claim(7, [1], 0);
    assert Copies(s0.rows, [1], 0) == [Copy(1, Row(0, Waiting, 0, CLAIM_LEASE_MS))];
    assert Next(s0, claim0).rows == OVERDUE.rows;
    assert Next(s0, claim0) == OVERDUE;
    var steps := [Enqueue(1, 0, 0)] + [claim0];
    assert steps[1..] == [claim0] && [claim0][1..] == [];
    assert Timely(OVERDUE, []) && Run(OVERDUE, []) == OVERDUE;
    assert Timely(s0, [claim0]) && Run(s0, [claim0]) == OVERDUE;
    assert Timely(EMPTY, steps) && Run(EMPTY, steps) == Run(s0, [claim0]);
    CopiesOf(OVERDUE.rows, [1], CLAIM_LEASE_MS);
  }
}
