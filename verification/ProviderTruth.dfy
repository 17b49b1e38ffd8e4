/** A courier's word is the truth about its leg, in any run: whatever else happens to
    this and other orders between its snapshots, the leg is where the newest one says. */
module ProviderTruth {
  import opened Wrappers
  import opened DeliveryLeg
  import opened Routing
  import opened Model
  import opened DeliveryDispatch
  import opened DeliveryEvents
  import opened Invariants
  import opened LegSteps
  import opened LegFrames
  import opened Convergence
  import opened Runs

  /** Which report a sequence number belongs to, 0 for none. */
  function ReportOf(history: seq<Report>, sequence: Option<int>): (n: nat)
    ensures n <= |history|
  {
    if history == [] then 0
    else if Some(history[|history| - 1].sequence) == sequence then |history|
    else ReportOf(history[..|history| - 1], sequence)
  }

  lemma {:induction false} ReportOfSequence(history: seq<Report>, d: nat)
    requires 1 <= d <= |history|
    requires forall j, k :: 0 <= j < k < |history| ==> history[j].sequence < history[k].sequence
    ensures ReportOf(history, SequenceAt(history, d)) == d
  {
    if d < |history| {
      ReportOfSequence(history[..|history| - 1], d);
    }
  }

  /** The step brings a snapshot of this leg. */
  predicate Reports(step: Step, o: OrderId, i: nat, key: ProviderKey, externalId: nat) {
    step.SyncLeg? && step.o == o && step.i == i && step.snapshot.providerKey == key
      && step.snapshot.externalId == externalId
  }

  /** What the step may do to the leg: bring a genuine report, but not cancel it from
      our side. */
  ghost predicate Genuine(step: Step, o: OrderId, i: nat, key: ProviderKey, externalId: nat, history: seq<Report>) {
    && !(step.Cancel? && step.o == o && step.i == i)
    && (step.Cancel? ==> step.routeTo in {None, Some(InHouse)})
    && (Reports(step, o, i, key, externalId) ==>
          exists d :: 1 <= d <= |history|
            && step.snapshot == Snapshot(key, externalId, StatusAt(history, d), SequenceAt(history, d)))
  }

  /** The newest report among those the steps bring. */
  function NewestReport(steps: seq<Step>, o: OrderId, i: nat, key: ProviderKey, externalId: nat,
                        history: seq<Report>): (n: nat)
    ensures n <= |history|
  {
    if steps == [] then 0
    else
      var rest := NewestReport(steps[1..], o, i, key, externalId, history);
      if Reports(steps[0], o, i, key, externalId) then
        Max(ReportOf(history, steps[0].snapshot.sequence), rest)
      else rest
  }

  /** The leg stands where its courier's `n`-th report put it. */
  predicate StandsAt(s: State, o: OrderId, i: nat, key: ProviderKey, externalId: nat, history: seq<Report>, n: nat)
    requires n <= |history|
  {
    && HasLeg(s, o, i)
    && var leg := s.orders[o].legs[i];
    && key != InHouse && leg.providerKey == key && leg.externalId == Some(externalId)
    && leg.status == StatusAt(history, n) && leg.providerSequence == SequenceAt(history, n)
  }

  lemma ActiveLegIsUnderWay(s: State, o: OrderId, i: nat)
    requires Inv(s) && HasLeg(s, o, i) && !IsTerminal(s.orders[o].legs[i].status)
    requires s.orders[o].legs[i].providerKey != InHouse
    ensures i == LastIndex(s.orders[o]) && UnderWay(s.orders[o])
  {
    About(s, o);
  }

  /** A report, early, late or repeated, leaves the leg at the newest seen. */
  lemma ReportStands(s: State, step: Step, o: OrderId, i: nat, key: ProviderKey, externalId: nat,
                     history: seq<Report>, n: nat, d: nat)
    requires Inv(s) && ProviderHistory(history) && n <= |history| && 1 <= d <= |history|
    requires StandsAt(s, o, i, key, externalId, history, n)
    requires Reports(step, o, i, key, externalId)
    requires step.snapshot == Snapshot(key, externalId, StatusAt(history, d), SequenceAt(history, d))
    ensures StandsAt(Next(s, step), o, i, key, externalId, history, Max(n, d))
  {
    hide Inv;
    if n < d {
      MoreToCome(history, n, d);
      LaterIsReachable(history, n, d);
      ActiveLegIsUnderWay(s, o, i);
      hide ProviderHistory;
      SnapshotLands(s, o, step.snapshot, step.env);
      LandedLeg(s, Next(s, step), o, step.snapshot.status, step.snapshot.sequence, step.env);
      hide Lands;
    } else {
      assert d == n || history[d - 1].sequence < history[n - 1].sequence;
    }
  }

  /** A submission of a leg that has been submitted does nothing. */
  lemma SubmittedStays(s: State, step: Step)
    requires step.SubmitLeg? && HasLeg(s, step.o, step.i) && s.orders[step.o].legs[step.i].externalId.Some?
    ensures Next(s, step) == s
  {
  }

  lemma OtherSnapshotStays(s: State, step: Step)
    requires step.SyncLeg? && HasLeg(s, step.o, step.i) && !Matches(s.orders[step.o].legs[step.i], step.snapshot)
    ensures Next(s, step) == s
  {
  }

  /** Any other step leaves the leg's row alone. */
  lemma OtherStepStands(s: State, step: Step, o: OrderId, i: nat, key: ProviderKey, externalId: nat,
                        history: seq<Report>, n: nat)
    requires Inv(s) && n <= |history| && StandsAt(s, o, i, key, externalId, history, n)
    requires Genuine(step, o, i, key, externalId, history) && !Reports(step, o, i, key, externalId)
    ensures StandsAt(Next(s, step), o, i, key, externalId, history, n)
  {
    if step.SubmitLeg? && step.o == o && step.i == i {
      SubmittedStays(s, step);
    } else if step.SyncLeg? && step.o == o && step.i == i {
      OtherSnapshotStays(s, step);
    } else {
      var configs := if EnvOf(step).Some? then EnvOf(step).value.configs else [];
      StepFrames(s, step, configs);
      RowKept(s, Next(s, step), o, i, OrderOfStep(step), RowOfStep(s, step), configs, FallsBack(s, step));
    }
    hide Inv, Next, FallsBack, Frames;
  }

  lemma RowKept(s: State, s': State, o: OrderId, i: nat, p: OrderId, j: int, configs: seq<ProviderConfig>,
                fallback: Fallback)
    requires HasLeg(s, o, i) && Frames(s, s', p, j, configs, fallback) && !(o == p && i == j)
    ensures HasLeg(s', o, i) && s'.orders[o].legs[i] == s.orders[o].legs[i]
  {
    hide Appended, Covered, InHouseStands;
  }

  lemma {:induction false} RunStands(s: State, steps: seq<Step>, o: OrderId, i: nat, key: ProviderKey, externalId: nat,
                                     history: seq<Report>, n: nat)
    requires Inv(s) && ValidSteps(steps) && ProviderHistory(history) && n <= |history|
    requires StandsAt(s, o, i, key, externalId, history, n)
    requires forall step :: step in steps ==> Genuine(step, o, i, key, externalId, history)
    ensures StandsAt(Run(s, steps), o, i, key, externalId, history,
                     Max(n, NewestReport(steps, o, i, key, externalId, history)))
    decreases |steps|
  {
    hide Inv, Next, StandsAt, ProviderHistory;
    if steps != [] {
      assert steps[0] in steps && forall step :: step in steps[1..] ==> step in steps;
      StepKeepsInv(s, steps[0]);
      var n' := n;
      if Reports(steps[0], o, i, key, externalId) {
        var d :| 1 <= d <= |history|
          && steps[0].snapshot == Snapshot(key, externalId, StatusAt(history, d), SequenceAt(history, d));
        SequencesGrow(history);
        ReportOfSequence(history, d);
        ReportStands(s, steps[0], o, i, key, externalId, history, n, d);
        n' := Max(n, d);
      } else {
        OtherStepStands(s, steps[0], o, i, key, externalId, history, n);
      }
      RunStands(Next(s, steps[0]), steps[1..], o, i, key, externalId, history, n');
    }
  }

  lemma SequencesGrow(history: seq<Report>)
    requires ProviderHistory(history)
    ensures forall j, k :: 0 <= j < k < |history| ==> history[j].sequence < history[k].sequence
  {
  }

  /** In any run, with any other transactions in between, a submitted leg that is not
      cancelled from our side ends at the status of the newest report that came in,
      however many were lost, repeated or overtaken; and the order agrees with it. */
  lemma LegFollowsProvider(s: State, steps: seq<Step>, o: OrderId, i: nat, key: ProviderKey, externalId: nat,
                           history: seq<Report>)
    requires Reachable(s) && ValidSteps(steps) && ProviderHistory(history)
    requires StandsAt(s, o, i, key, externalId, history, 0)
    requires forall step :: step in steps ==> Genuine(step, o, i, key, externalId, history)
    ensures var n := NewestReport(steps, o, i, key, externalId, history);
            var s' := Run(s, steps);
            && HasLeg(s', o, i)
            && s'.orders[o].legs[i].status == StatusAt(history, n)
            && s'.orders[o].legs[i].providerSequence == SequenceAt(history, n)
            && (StatusAt(history, n) != Cancelled ==>
                  i == LastIndex(s'.orders[o]) && StatusesAgree(s'.orders[o].status, Some(StatusAt(history, n))))
  {
    ReachableIsConsistent(s);
    RunStands(s, steps, o, i, key, externalId, history, 0);
    RunKeepsInv(s, steps);
    About(Run(s, steps), o);
  }
}
