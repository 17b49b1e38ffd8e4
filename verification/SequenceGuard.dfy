/** What protects the tables from a snapshot that is applied twice, or late: the number
    its courier gave it. */
module SequenceGuard {
  import opened Wrappers
  import opened DeliveryLeg
  import opened Routing
  import opened Model
  import opened DeliveryDispatch
  import opened DeliveryEvents
  import opened Handoffs
  import opened Invariants
  import opened LegProtocol
  import opened LegSteps
  import opened LegTransactions
  import opened LegFrames
  import opened Convergence
  import opened ProviderTruth
  import opened Runs

  /** The leg is this delivery's, and a snapshot with number `n` or more has been taken. */
  predicate TakenUpTo(s: State, o: OrderId, i: nat, key: ProviderKey, externalId: nat, n: int) {
    && HasLeg(s, o, i)
    && var leg := s.orders[o].legs[i];
    && key != InHouse && leg.providerKey == key && leg.externalId == Some(externalId)
    && leg.providerSequence.Some? && leg.providerSequence.value >= n
  }

  predicate SameDelivery(a: Leg, b: Leg) {
    a.providerKey == b.providerKey && a.externalId == b.externalId && a.providerSequence == b.providerSequence
  }

  /** Replaying skipped events leaves the number on the leg, and takes it where it should. */
  lemma {:induction false} CatchUpKeepsNumber(s: State, o: OrderId, i: nat, target: LegStatus, env: RoutingEnv)
    requires Inv(s) && HasLeg(s, o, i) && s.orders[o].legs[i].providerKey != InHouse
    ensures var result := ApplyAll(s, o, i, CatchUp(s.orders[o].legs[i].status, target), env);
            && result.Success? && HasLeg(result.value, o, i)
            && SameDelivery(result.value.orders[o].legs[i], s.orders[o].legs[i])
            && (CanGet(s.orders[o].legs[i].status, target) ==> result.value.orders[o].legs[i].status == target)
    decreases |CatchUp(s.orders[o].legs[i].status, target)|
  {
    hide Inv;
    var status := s.orders[o].legs[i].status;
    var steps := CatchUp(status, target);
    if steps != [] {
      CatchUpUnfolds(status, target);
      CatchUpStep(s, o, i, steps[0], env);
      if steps[0] == LegCancelled {
        assert steps[1..] == [];
      } else {
        CatchUpKeepsNumber(Apply(s, o, i, steps[0], None, env).value, o, i, target, env);
      }
    }
  }

  lemma SyncUnfolds(s: State, o: OrderId, i: nat, snapshot: Snapshot, env: RoutingEnv)
    requires HasLeg(s, o, i) && Matches(s.orders[o].legs[i], snapshot)
    ensures var leg := s.orders[o].legs[i];
            Next(s, SyncLeg(o, i, snapshot, env)) ==
              if Stale(leg, snapshot) then s
              else Committed(s, ApplyAll(SetLeg(s, o, i, leg.(providerSequence := snapshot.sequence)), o, i,
                                         CatchUp(leg.status, snapshot.status), env))
  {
    hide ApplyAll, CatchUp;
  }

  /** A snapshot that is not stale is taken and leaves its number on the leg; with no
      number it takes the leg's number away. */
  lemma SnapshotNumbers(s: State, o: OrderId, i: nat, snapshot: Snapshot, env: RoutingEnv)
    requires Inv(s) && HasLeg(s, o, i) && Matches(s.orders[o].legs[i], snapshot)
    ensures var leg, s' := s.orders[o].legs[i], Next(s, SyncLeg(o, i, snapshot, env));
            && HasLeg(s', o, i)
            && SameDelivery(s'.orders[o].legs[i],
                            if Stale(leg, snapshot) then leg else leg.(providerSequence := snapshot.sequence))
            && (!Stale(leg, snapshot) && CanGet(leg.status, snapshot.status) ==>
                  s'.orders[o].legs[i].status == snapshot.status)
  {
    hide Inv, Next, ApplyAll, CatchUp;
    var leg := s.orders[o].legs[i];
    var noted := SetLeg(s, o, i, leg.(providerSequence := snapshot.sequence));
    SyncUnfolds(s, o, i, snapshot, env);
    if !Stale(leg, snapshot) {
      MatchedIsExternal(s, o, i, snapshot);
      NoteOnLegKeepsInv(s, o, i, leg.externalId, snapshot.sequence);
      CatchUpKeepsNumber(noted, o, i, snapshot.status, env);
    }
  }

  lemma EventKeepsRows(s: State, s1: State, p: OrderId, event: LegEvent, o: OrderId, i: nat)
    requires p in s.orders && LegAccepts(s.orders[p], event) && HasLeg(s, o, i)
    requires s1.orders == s.orders[p := AfterEvent(s.orders[p], event)]
    ensures HasLeg(s1, o, i) && SameDelivery(s1.orders[o].legs[i], s.orders[o].legs[i])
  {
  }

  /** A cancellation, wherever it is routed to, leaves every leg's number. */
  lemma CancelKeepsNumber(s: State, p: OrderId, j: nat, routeTo: Option<ProviderKey>, env: RoutingEnv, o: OrderId,
                          i: nat)
    requires Inv(s) && HasLeg(s, o, i)
    ensures var s' := Next(s, Cancel(p, j, routeTo, env));
            HasLeg(s', o, i) && SameDelivery(s'.orders[o].legs[i], s.orders[o].legs[i])
  {
    hide Inv, Move, Next, Dispatch, NodesFollow, ShelfFree;
    CancelUnfolds(s, p, j, routeTo, env);
    if HasLeg(s, p, j) && NextLegStatus(s.orders[p].legs[j].status, LegCancelled).Some? {
      OnlyLastMovesIn(s, p, j, LegCancelled);
      EventKeepsInv(s, p, LegCancelled);
      var s1 := Move(s, p, j, LegCancelled).value;
      EventKeepsRows(s, s1, p, LegCancelled, o, i);
      hide AfterEvent;
      DispatchKeepsRows(s1, p, routeTo, env, o, i);
    }
  }

  /** Whatever the step, the number on the leg never falls, as long as every snapshot of
      the delivery carries one. */
  lemma StepKeepsNumber(s: State, step: Step, o: OrderId, i: nat, key: ProviderKey, externalId: nat, n: int)
    requires Inv(s) && TakenUpTo(s, o, i, key, externalId, n)
    requires Reports(step, o, i, key, externalId) ==> step.snapshot.sequence.Some?
    ensures TakenUpTo(Next(s, step), o, i, key, externalId, n)
  {
    hide Inv, Next, FallsBack, Frames;
    if step.SubmitLeg? && step.o == o && step.i == i {
      SubmittedStays(s, step);
    } else if step.SyncLeg? && step.o == o && step.i == i {
      if Reports(step, o, i, key, externalId) {
        SnapshotNumbers(s, o, i, step.snapshot, step.env);
      } else {
        OtherSnapshotStays(s, step);
      }
    } else if step.Cancel? {
      CancelKeepsNumber(s, step.o, step.i, step.routeTo, step.env, o, i);
    } else {
      var configs := if EnvOf(step).Some? then EnvOf(step).value.configs else [];
      StepFrames(s, step, configs);
      RowKept(s, Next(s, step), o, i, OrderOfStep(step), RowOfStep(s, step), configs, FallsBack(s, step));
    }
  }

  lemma {:induction false} RunKeepsNumber(s: State, steps: seq<Step>, o: OrderId, i: nat, key: ProviderKey,
                                          externalId: nat, n: int)
    requires Inv(s) && ValidSteps(steps) && TakenUpTo(s, o, i, key, externalId, n)
    requires forall step :: step in steps && Reports(step, o, i, key, externalId) ==> step.snapshot.sequence.Some?
    ensures TakenUpTo(Run(s, steps), o, i, key, externalId, n)
    decreases |steps|
  {
    hide Inv, Next, TakenUpTo, Reports;
    if steps != [] {
      assert steps[0] in steps && forall step :: step in steps[1..] ==> step in steps;
      StepKeepsInv(s, steps[0]);
      StepKeepsNumber(s, steps[0], o, i, key, externalId, n);
      RunKeepsNumber(Next(s, steps[0]), steps[1..], o, i, key, externalId, n);
    }
  }

  /** A numbered snapshot that is applied again, or after a newer one, changes nothing,
      whatever has happened in between: jobs that overlap and webhooks and polls that
      repeat each other do no harm, as long as the delivery's snapshots are numbered. */
  lemma SecondApplicationChangesNothing(s: State, o: OrderId, i: nat, first: Snapshot, between: seq<Step>,
                                        second: Snapshot, env: RoutingEnv, later: RoutingEnv)
    requires Reachable(s) && ValidSteps(between) && HasLeg(s, o, i) && Matches(s.orders[o].legs[i], first)
    requires second.providerKey == first.providerKey && second.externalId == first.externalId
    requires first.sequence.Some? && second.sequence.Some? && second.sequence.value <= first.sequence.value
    requires forall step :: step in between && Reports(step, o, i, first.providerKey, first.externalId) ==>
                              step.snapshot.sequence.Some?
    ensures var s' := Run(Next(s, SyncLeg(o, i, first, env)), between);
            Next(s', SyncLeg(o, i, second, later)) == s'
  {
    ReachableIsConsistent(s);
    MatchedIsExternal(s, o, i, first);
    SnapshotNumbers(s, o, i, first, env);
    var s1 := Next(s, SyncLeg(o, i, first, env));
    StepKeepsInv(s, SyncLeg(o, i, first, env));
    hide Inv;
    RunKeepsNumber(s1, between, o, i, first.providerKey, first.externalId, first.sequence.value);
  }

  /** Without numbers it does harm: a courier says Assigned, then that it is looking for
      another rider, and the first snapshot applied again assigns the leg once more. */
  lemma UnnumberedIsAppliedAgain(s: State, o: OrderId, i: nat, first: Snapshot, second: Snapshot, env: RoutingEnv)
    requires Inv(s) && HasLeg(s, o, i) && s.orders[o].legs[i].status == Requested
    requires Matches(s.orders[o].legs[i], first) && second == first.(status := Requested)
    requires first.status == Assigned && first.sequence.None?
    ensures var step, back := SyncLeg(o, i, first, env), SyncLeg(o, i, second, env);
            var s2 := Next(Next(s, step), back);
            && HasLeg(s2, o, i) && s2.orders[o].legs[i].status == Requested
            && HasLeg(Next(s2, step), o, i) && Next(s2, step).orders[o].legs[i].status == Assigned
  {
    var step, back := SyncLeg(o, i, first, env), SyncLeg(o, i, second, env);
    hide Inv, Next;
    SnapshotNumbers(s, o, i, first, env);
    StepKeepsInv(s, step);
    SnapshotNumbers(Next(s, step), o, i, second, env);
    StepKeepsInv(Next(s, step), back);
    SnapshotNumbers(Next(Next(s, step), back), o, i, first, env);
  }
}
