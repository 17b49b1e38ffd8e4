/** Courier webhooks: stored once and queued once, but applied by jobs that look at the
    mark first and set it later, so that overlapping runs of a job can apply it twice. */
module CourierWebhooks {
  import opened Wrappers
  import opened Routing

  /** A provider's event, by the provider and the id it gave it. */
  datatype EventKey = EventKey(provider: ProviderKey, eventId: nat)

  /** A logistics_inbound_events row. */
  datatype Inbound = Inbound(externalId: nat, processed: bool)

  /** What arrives: pings and events that are about no delivery carry no external id. */
  datatype Notification = Notification(key: EventKey, externalId: Option<nat>)

  /** One run of a queued job, between its look at the row and its transaction:
      `readAt` is when it looked, as a position in the history. */
  datatype Job = Job(key: EventKey, readAt: nat)

  type RunId = nat

  datatype Inbox = Inbox(stored: map<EventKey, Inbound>, queued: seq<EventKey>, running: map<RunId, Job>)

  const EMPTY := Inbox(map[], [], map[])

  /** A webhook comes in; a run of a job looks whether there is anything to do; its
      transaction commits, or the run fails or dies. Between the last two the provider is
      asked, and anything else may happen. */
  datatype InboxStep =
    | Receive(notification: Notification)
    | Read(run: RunId, key: EventKey)
    | Commit(run: RunId, success: bool)

  predicate ToProcess(stored: map<EventKey, Inbound>, key: EventKey) {
    key in stored && !stored[key].processed
  }

  predicate Processed(stored: map<EventKey, Inbound>, key: EventKey) {
    key in stored && stored[key].processed
  }

  function Marked(stored: map<EventKey, Inbound>, key: EventKey): map<EventKey, Inbound> {
    if key in stored then stored[key := stored[key].(processed := true)] else stored
  }

  function AfterReceive(inbox: Inbox, notification: Notification): Inbox {
    var key := notification.key;
    if notification.externalId.None? || key in inbox.stored then inbox
    else
      inbox.(stored := inbox.stored[key := Inbound(notification.externalId.value, false)],
             queued := inbox.queued + [key])
  }

  /** The transaction applies the snapshot and sets the mark without looking again. */
  function AfterCommit(inbox: Inbox, run: RunId, success: bool): Inbox {
    if run !in inbox.running then inbox
    else
      inbox.(stored := if success then Marked(inbox.stored, inbox.running[run].key) else inbox.stored,
             running := inbox.running - {run})
  }

  function AfterStep(inbox: Inbox, step: InboxStep, at: nat): Inbox {
    match step
    case Receive(notification) => AfterReceive(inbox, notification)
    case Read(run, key) =>
      if run in inbox.running || !ToProcess(inbox.stored, key) then inbox
      else inbox.(running := inbox.running[run := Job(key, at)])
    case Commit(run, success) => AfterCommit(inbox, run, success)
  }

  function After(history: seq<InboxStep>): Inbox {
    if history == [] then EMPTY
    else
      var last := |history| - 1;
      AfterStep(After(history[..last]), history[last], last)
  }

  /** The step commits a run of this event's job: what the provider said of the delivery is
      applied, and the mark is set. */
  predicate Applies(inbox: Inbox, step: InboxStep, key: EventKey) {
    step.Commit? && step.success && step.run in inbox.running && inbox.running[step.run].key == key
  }

  /** How often an event is applied in a history. */
  function TimesApplied(history: seq<InboxStep>, key: EventKey): nat {
    if history == [] then 0
    else
      var last := |history| - 1;
      TimesApplied(history[..last], key) + if Applies(After(history[..last]), history[last], key) then 1 else 0
  }

  ghost predicate AppliedAt(history: seq<InboxStep>, c: nat, key: EventKey) {
    c < |history| && Applies(After(history[..c]), history[c], key)
  }

  /** Another run of the job has committed between this one's look and its commit. */
  ghost predicate Overtaken(history: seq<InboxStep>, c: nat, key: EventKey)
    requires AppliedAt(history, c, key)
  {
    exists d: nat :: After(history[..c]).running[history[c].run].readAt < d < c && AppliedAt(history, d, key)
  }

  // ----- Stored once, queued once ------------------------------------------

  ghost predicate QueuedOnce(inbox: Inbox) {
    && (forall i, j :: 0 <= i < j < |inbox.queued| ==> inbox.queued[i] != inbox.queued[j])
    && (forall key :: key in inbox.queued <==> key in inbox.stored)
  }

  lemma StepKeepsQueue(inbox: Inbox, step: InboxStep, at: nat)
    requires QueuedOnce(inbox)
    ensures QueuedOnce(AfterStep(inbox, step, at))
  {
  }

  /** However often a webhook is delivered, the event is stored once and has one job. */
  lemma {:induction false} StoredIsQueuedOnce(history: seq<InboxStep>)
    ensures QueuedOnce(After(history))
  {
    if history != [] {
      var last := |history| - 1;
      StoredIsQueuedOnce(history[..last]);
      StepKeepsQueue(After(history[..last]), history[last], last);
    }
  }

  /** The first delivery of each event that is about a delivery, in the order they came. */
  function Arrivals(history: seq<InboxStep>): (arrivals: seq<Notification>)
    ensures forall n :: n in arrivals ==> n.externalId.Some?
  {
    if history == [] then []
    else
      var before, last := Arrivals(history[..|history| - 1]), history[|history| - 1];
      if last.Receive? && last.notification.externalId.Some?
         && (forall n :: n in before ==> n.key != last.notification.key)
      then before + [last.notification]
      else before
  }

  /** Events are stored with what their first delivery said, and their jobs are queued in
      the order in which they came. */
  lemma {:induction false} QueuedAsArrived(history: seq<InboxStep>)
    ensures var inbox, arrivals := After(history), Arrivals(history);
            && |inbox.queued| == |arrivals|
            && (forall k :: 0 <= k < |arrivals| ==>
                  && inbox.queued[k] == arrivals[k].key && arrivals[k].key in inbox.stored
                  && inbox.stored[arrivals[k].key].externalId == arrivals[k].externalId.value)
  {
    if history != [] {
      var front := history[..|history| - 1];
      QueuedAsArrived(front);
      StoredIsQueuedOnce(front);
      var before, arrivals, last := After(front), Arrivals(front), history[|history| - 1];
      if last.Receive? {
        var key := last.notification.key;
        if key in before.stored {
          var k :| 0 <= k < |before.queued| && before.queued[k] == key;
          assert arrivals[k] in arrivals && arrivals[k].key == key;
        } else {
          forall n | n in arrivals
            ensures n.key != key
          {
            var k :| 0 <= k < |arrivals| && arrivals[k] == n;
            assert before.queued[k] == n.key && n.key in before.queued;
          }
        }
      }
    }
  }

  // ----- Applied once, exactly when ----------------------------------------

  /** A run in progress has looked at the row, and it was not marked then. */
  lemma {:induction false} RunningHasLooked(history: seq<InboxStep>, run: RunId)
    requires run in After(history).running
    ensures var job := After(history).running[run];
            && job.readAt < |history| && history[job.readAt] == Read(run, job.key)
            && ToProcess(After(history[..job.readAt]).stored, job.key)
  {
    var last := |history| - 1;
    var before := After(history[..last]);
    if run in before.running {
      RunningHasLooked(history[..last], run);
      assert history[..last][..before.running[run].readAt] == history[..before.running[run].readAt];
    }
  }

  /** The mark says whether the event has been applied at all. */
  lemma {:induction false} MarkSaysApplied(history: seq<InboxStep>, key: EventKey)
    ensures Processed(After(history).stored, key) <==> TimesApplied(history, key) > 0
  {
    if history != [] {
      var last := |history| - 1;
      MarkSaysApplied(history[..last], key);
      if history[last].Commit? && history[last].run in After(history[..last]).running {
        CommitMarks(history[..last], history[last].run);
      }
    }
  }

  /** A run commits to a row that is there. */
  lemma CommitMarks(history: seq<InboxStep>, run: RunId)
    requires run in After(history).running
    ensures After(history).running[run].key in After(history).stored
  {
    RunningHasLooked(history, run);
    var job := After(history).running[run];
    StoredStays(history, job.readAt, job.key);
  }

  lemma {:induction false} StoredStays(history: seq<InboxStep>, n: nat, key: EventKey)
    requires n <= |history| && key in After(history[..n]).stored
    ensures key in After(history).stored
    decreases |history|
  {
    if n == |history| {
      assert history[..n] == history;
    } else {
      var last := |history| - 1;
      assert history[..last][..n] == history[..n];
      StoredStays(history[..last], n, key);
    }
  }

  lemma {:induction false} TimesGrow(history: seq<InboxStep>, n: nat, key: EventKey)
    requires n <= |history|
    ensures TimesApplied(history[..n], key) <= TimesApplied(history, key)
    decreases |history|
  {
    if n == |history| {
      assert history[..n] == history;
    } else {
      var last := |history| - 1;
      assert history[..last][..n] == history[..n];
      TimesGrow(history[..last], n, key);
    }
  }

  lemma AppliedAtCounts(history: seq<InboxStep>, d: nat, n: nat, key: EventKey)
    requires d < n <= |history| && AppliedAt(history, d, key)
    ensures TimesApplied(history[..n], key) >= 1 + TimesApplied(history[..d], key)
  {
    assert history[..d + 1][..d] == history[..d] && history[..n][..d + 1] == history[..d + 1];
    TimesGrow(history[..n], d + 1, key);
  }

  /** Where the last of the applications counted was made. */
  lemma {:induction false} LastApplication(history: seq<InboxStep>, key: EventKey) returns (c: nat)
    requires TimesApplied(history, key) > 0
    ensures AppliedAt(history, c, key)
    ensures TimesApplied(history[..c], key) == TimesApplied(history, key) - 1
  {
    var last := |history| - 1;
    if Applies(After(history[..last]), history[last], key) {
      c := last;
    } else {
      c := LastApplication(history[..last], key);
      assert history[..last][..c] == history[..c];
    }
  }

  /** Over any history of deliveries, redeliveries and overlapping runs, an event's
      snapshot is applied at most once if and only if no run of its job is overtaken: no
      other run of it commits between its look at the mark and its commit. */
  lemma AppliedAtMostOnceExactlyWhen(history: seq<InboxStep>, key: EventKey)
    ensures TimesApplied(history, key) <= 1 <==>
              forall c: nat :: AppliedAt(history, c, key) ==> !Overtaken(history, c, key)
  {
    if TimesApplied(history, key) > 1 {
      var c := LastApplication(history, key);
      var d := LastApplication(history[..c], key);
      assert history[..c][..d] == history[..d];
      assert AppliedAt(history, d, key);
      RunningHasLooked(history[..c], history[c].run);
      var readAt := After(history[..c]).running[history[c].run].readAt;
      assert history[..c][..readAt] == history[..readAt];
      if d < readAt {
        AppliedAtCounts(history, d, readAt, key);
        MarkSaysApplied(history[..readAt], key);
      }
      assert readAt < d < c;
      assert Overtaken(history, c, key);
    }
    forall c: nat | AppliedAt(history, c, key) && Overtaken(history, c, key)
      ensures TimesApplied(history, key) > 1
    {
      var d: nat :| After(history[..c]).running[history[c].run].readAt < d < c && AppliedAt(history, d, key);
      AppliedAtCounts(history, d, c, key);
      AppliedAtCounts(history, c, |history|, key);
      assert history[..|history|] == history;
    }
  }

  /** Two runs of one job that both look before either commits, as they may once the
      first has outlived its lease: the snapshot is applied twice. */
  lemma OverlapAppliesTwice(key: EventKey)
    ensures var history := [Receive(Notification(key, Some(1)))] + [Read(7, key)] + [Read(8, key)]
                           + [Commit(7, true)] + [Commit(8, true)];
            TimesApplied(history, key) == 2
  {
    var h1 := [Receive(Notification(key, Some(1)))];
    var h2 := h1 + [Read(7, key)];
    var h3 := h2 + [Read(8, key)];
    var h4 := h3 + [Commit(7, true)];
    var h5 := h4 + [Commit(8, true)];
    assert h1[..0] == [] && h2[..1] == h1 && h3[..2] == h2 && h4[..3] == h3 && h5[..4] == h4;
    assert After(h1) == Inbox(map[key := Inbound(1, false)], [] + [key], map[]);
    assert TimesApplied(h1, key) == 0;
    assert After(h2).running == map[7 := Job(key, 1)];
    assert TimesApplied(h2, key) == 0;
    assert After(h3).running == map[7 := Job(key, 1), 8 := Job(key, 2)];
    assert TimesApplied(h3, key) == 0;
    assert TimesApplied(h4, key) == 1 && 8 in After(h4).running;
  }
}
