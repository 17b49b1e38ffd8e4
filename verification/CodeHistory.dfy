/** Every order's handoff codes, over whole runs, are the outcome of a history of issues
    and checks: so what is proved about such histories holds at every counter. */
module CodeHistory {
  import opened Wrappers
  import opened DeliveryLeg
  import opened OrderRules
  import opened Routing
  import opened HandoffCodes
  import opened Money
  import opened Model
  import opened Capacity
  import opened Shelves
  import opened DeliveryDispatch
  import opened DeliveryEvents
  import opened Handoffs
  import opened Invariants
  import opened LegProtocol
  import opened HandoffSteps
  import opened LegSteps
  import opened InHouseSteps
  import opened Progress
  import opened Growth
  import opened LegFrames
  import opened Runs

  /** The check that a step with a code makes: it counts if it was accepted and the rest
      of the transaction went through, or if it failed; anything else is rolled back. */
  function CheckOf(result: Result<State>, check: CodeStep): seq<CodeStep> {
    if result.Success? || result.error == InvalidCode then [check] else []
  }

  /** What a step does to the codes of an order: one issue, one check, or nothing. */
  function CodeSteps(s: State, step: Step, o: OrderId): seq<CodeStep> {
    if o !in s.orders || OrderOfStep(step) != o then []
    else
      match step
      case RequestCode(_, rider, kind, hash, expiresAt) =>
        if s.orders[o].riderId == Some(rider) then [IssueStep(kind, hash, expiresAt)] else []
      case Resend(_, hash, expiresAt) =>
        if s.orders[o].status == ReadyForSenderCollection then [IssueStep(SenderCollection, hash, expiresAt)]
        else if s.orders[o].status == ReadyForCollection then [IssueStep(ReceiverCollection, hash, expiresAt)]
        else []
      case IssueLate(_, kind, hash, expiresAt) => [IssueStep(kind, hash, expiresAt)]
      case Intake(_, hash, expiresAt) =>
        if !AlreadyProcessed(s, o, IntakeScope) && s.orders[o].status == ArrivedAtDestination then
          [IssueStep(ReceiverCollection, hash, expiresAt)]
        else []
      case ReturnIntake(_, hash, expiresAt) =>
        if !AlreadyProcessed(s, o, ReturnIntakeScope) && s.orders[o].status == ReturnedToOrigin then
          [IssueStep(SenderCollection, hash, expiresAt)]
        else []
      case Handoff(_, handover, hash, now) =>
        if AlreadyProcessed(s, o, ScopeOf(handover)) then []
        else CheckOf(ConfirmHandoff(s, o, handover, hash, now), CheckStep(KindOf(handover), hash, now))
      case Collect(_, hash, now) =>
        if AlreadyProcessed(s, o, CollectionScope) then []
        else CheckOf(ConfirmCollection(s, o, hash, now), CheckStep(ReceiverCollection, hash, now))
      case ReturnCollect(_, hash, now) =>
        if AlreadyProcessed(s, o, ReturnCollectScope) then []
        else CheckOf(ConfirmReturnCollection(s, o, hash, now), CheckStep(SenderCollection, hash, now))
      case _ => []
  }

  function AfterCodeSteps(codes: seq<Code>, steps: seq<CodeStep>): seq<Code> {
    if steps == [] then codes else AfterCodeStep(AfterCodeSteps(codes, steps[..|steps| - 1]), steps[|steps| - 1])
  }

  lemma IssueStepIs(codes: seq<Code>, kind: CodeKind, hash: nat, expiresAt: int)
    ensures AfterCodeSteps(codes, [IssueStep(kind, hash, expiresAt)]) == Issue(codes, kind, hash, expiresAt)
    ensures AfterCodeSteps(codes, []) == codes
  {
    assert AfterCodeSteps(codes, [IssueStep(kind, hash, expiresAt)][..0]) == codes;
  }

  lemma IntakesIssue(s: State, step: Step, o: OrderId)
    requires o in s.orders && OrderOfStep(step) == o && (step.Intake? || step.ReturnIntake?)
    ensures o in Next(s, step).orders
    ensures Next(s, step).orders[o].codes == AfterCodeSteps(s.orders[o].codes, CodeSteps(s, step, o))
  {
    var kind := if step.Intake? then ReceiverCollection else SenderCollection;
    IssueStepIs(s.orders[o].codes, kind, step.hash, step.expiresAt);
    hide Issue, LowestFree, AfterCodeSteps;
  }

  lemma RequestsIssue(s: State, step: Step, o: OrderId)
    requires o in s.orders && OrderOfStep(step) == o && (step.RequestCode? || step.Resend? || step.IssueLate?)
    ensures o in Next(s, step).orders
    ensures Next(s, step).orders[o].codes == AfterCodeSteps(s.orders[o].codes, CodeSteps(s, step, o))
  {
    if step.RequestCode? || step.IssueLate? {
      IssueStepIs(s.orders[o].codes, step.kind, step.hash, step.expiresAt);
    } else {
      IssueStepIs(s.orders[o].codes, SenderCollection, step.hash, step.expiresAt);
      IssueStepIs(s.orders[o].codes, ReceiverCollection, step.hash, step.expiresAt);
    }
    hide Issue, AfterCodeSteps;
  }

  lemma DoneHandoffStays(s: State, o: OrderId, handover: Handover, hash: nat, now: int)
    requires AlreadyProcessed(s, o, ScopeOf(handover))
    ensures ConfirmHandoff(s, o, handover, hash, now) == Success(s)
  {
  }

  lemma HandoffCheckIs(s: State, step: Step, o: OrderId)
    requires Inv(s) && o in s.orders && step.Handoff? && step.o == o
    ensures o in Next(s, step).orders
    ensures Next(s, step).orders[o].codes == AfterCodeSteps(s.orders[o].codes, CodeSteps(s, step, o))
  {
    hide ConfirmHandoff, Inv, CountFailure, Validate, AfterEvent, HandoverDue;
    if AlreadyProcessed(s, o, ScopeOf(step.handover)) {
      DoneHandoffStays(s, o, step.handover, step.hash, step.now);
    } else {
      HandoffKeepsInv(s, o, step.handover, step.hash, step.now);
      HandoffFailsOnCode(s, o, step.handover, step.hash, step.now);
      if ConfirmHandoff(s, o, step.handover, step.hash, step.now).Success? {
        EventKeepsCodes(Proved(s.orders[o], step.handover,
                               Validate(s.orders[o].codes, KindOf(step.handover), step.hash, step.now).value),
                        EventOf(step.handover));
      }
      assert AfterCodeStep(s.orders[o].codes, CheckStep(KindOf(step.handover), step.hash, step.now)) ==
             match Validate(s.orders[o].codes, KindOf(step.handover), step.hash, step.now)
             case Some(codes') => codes' case None => CountFailure(s.orders[o].codes, KindOf(step.handover));
    }
  }

  lemma EventKeepsCodes(order: Order, event: LegEvent)
    requires LegAccepts(order, event)
    ensures AfterEvent(order, event).codes == order.codes
  {
  }

  /** A handover is told that the code is wrong exactly when it is. */
  lemma HandoffFailsOnCode(s: State, o: OrderId, handover: Handover, hash: nat, now: int)
    requires Inv(s) && o in s.orders && !AlreadyProcessed(s, o, ScopeOf(handover))
    ensures ConfirmHandoff(s, o, handover, hash, now) == Failure(InvalidCode) <==>
              Validate(s.orders[o].codes, KindOf(handover), hash, now).None?
  {
    if Validate(s.orders[o].codes, KindOf(handover), hash, now).Some? {
      About(s, o);
      ProvedResult(s, o, handover, hash, now);
      var codes := Validate(s.orders[o].codes, KindOf(handover), hash, now).value;
      HandoverNeverBlamesCode(SetCodes(InsertKey(s, o, ScopeOf(handover)), o, codes), o, EventOf(handover));
    }
    hide Inv, OrderOk, RecordInHouseHandover, Validate;
  }

  lemma CollectCheckIs(s: State, step: Step, o: OrderId)
    requires o in s.orders && step.Collect? && step.o == o
    ensures o in Next(s, step).orders
    ensures Next(s, step).orders[o].codes == AfterCodeSteps(s.orders[o].codes, CodeSteps(s, step, o))
  {
    hide Validate, CountFailure, SplitEntries;
  }

  lemma ReturnCollectCheckIs(s: State, step: Step, o: OrderId)
    requires o in s.orders && step.ReturnCollect? && step.o == o
    ensures o in Next(s, step).orders
    ensures Next(s, step).orders[o].codes == AfterCodeSteps(s.orders[o].codes, CodeSteps(s, step, o))
  {
    hide Validate, CountFailure, ReleaseCapacitySlot;
    var result := ConfirmReturnCollection(s, o, step.hash, step.now);
    if !AlreadyProcessed(s, o, ReturnCollectScope) {
      if result.Success? {
        ReturnCollectionResult(s, o, step.hash, step.now);
        ReleaseKeepsOrders(s.(orders := s.orders[o := CollectedBack(s.orders[o],
          Validate(s.orders[o].codes, SenderCollection, step.hash, step.now).value)]), s.orders[o].originNodeId);
      }
      assert result.Failure? && result.error == InvalidCode ==>
          Validate(s.orders[o].codes, SenderCollection, step.hash, step.now).None?;
      hide ConfirmReturnCollection;
    }
  }

  /** The Node counter is none of the orders' business. */
  lemma ReleaseKeepsOrders(s: State, node: NodeId)
    ensures ReleaseCapacitySlot(s, node).orders == s.orders
  {
  }

  // ----- Everything else leaves codes alone --------------------------------

  ghost predicate SameCodes(s: State, s': State) {
    && s.orders.Keys <= s'.orders.Keys
    && (forall o {:trigger s'.orders[o]} :: o in s.orders ==> s'.orders[o].codes == s.orders[o].codes)
    && (forall o {:trigger s'.orders[o]} :: o in s'.orders && o !in s.orders ==> s'.orders[o].codes == [])
  }

  lemma SameCodesTwice(a: State, b: State, c: State)
    requires SameCodes(a, b) && SameCodes(b, c)
    ensures SameCodes(a, c)
  {
    forall o | o in a.orders
      ensures o in c.orders && c.orders[o].codes == a.orders[o].codes
    {
      assert b.orders[o].codes == a.orders[o].codes;
    }
    forall o | o in c.orders && o !in a.orders
      ensures c.orders[o].codes == []
    {
      assert o in b.orders ==> b.orders[o].codes == [];
    }
  }

  lemma OneOrderSameCodes(s: State, s': State, o: OrderId)
    requires o in s.orders && o in s'.orders && s'.orders == s.orders[o := s'.orders[o]]
    requires s'.orders[o].codes == s.orders[o].codes
    ensures SameCodes(s, s')
  {
  }

  lemma MoveKeepsCodes(s: State, o: OrderId, i: nat, event: LegEvent)
    requires HasLeg(s, o, i)
    ensures Move(s, o, i, event).Success? ==> SameCodes(s, Move(s, o, i, event).value)
  {
    var leg := s.orders[o].legs[i];
    if NextLegStatus(leg.status, event).Some? {
      var moved := Moved(leg, event, NextLegStatus(leg.status, event).value);
      ListenerKeepsLegs(SetLeg(s, o, i, moved), o, event, moved.courierUserId);
      hide OnDeliveryEvent, SameCodes;
      if Move(s, o, i, event).Success? {
        OneOrderSameCodes(s, Move(s, o, i, event).value, o);
      }
    }
  }

  lemma ApplyKeepsCodes(s: State, o: OrderId, i: nat, event: LegEvent, routeTo: Option<ProviderKey>, env: RoutingEnv)
    requires HasLeg(s, o, i)
    ensures Apply(s, o, i, event, routeTo, env).Success? ==> SameCodes(s, Apply(s, o, i, event, routeTo, env).value)
  {
    MoveKeepsCodes(s, o, i, event);
    hide Move, Destination, ActiveLeg;
  }

  lemma {:induction false} ApplyAllKeepsCodes(s: State, o: OrderId, i: nat, steps: seq<LegEvent>, env: RoutingEnv)
    requires HasLeg(s, o, i)
    ensures ApplyAll(s, o, i, steps, env).Success? ==> SameCodes(s, ApplyAll(s, o, i, steps, env).value)
    decreases |steps|
  {
    if steps == [] {
      assert SameCodes(s, s);
    } else {
      hide Apply, SameCodes;
      ApplyKeepsCodes(s, o, i, steps[0], None, env);
      var first := Apply(s, o, i, steps[0], None, env);
      if first.Success? && HasLeg(first.value, o, i) {
        ApplyAllKeepsCodes(first.value, o, i, steps[1..], env);
        if ApplyAll(first.value, o, i, steps[1..], env).Success? {
          SameCodesTwice(s, first.value, ApplyAll(first.value, o, i, steps[1..], env).value);
        }
      }
    }
  }

  lemma SyncKeepsCodes(s: State, o: OrderId, i: nat, snapshot: Snapshot, env: RoutingEnv)
    ensures SameCodes(s, Committed(s, SyncFromSnapshot(s, o, i, snapshot, env)))
  {
    if HasLeg(s, o, i) && Matches(s.orders[o].legs[i], snapshot) && !Stale(s.orders[o].legs[i], snapshot) {
      var leg := s.orders[o].legs[i];
      var noted := SetLeg(s, o, i, leg.(providerSequence := snapshot.sequence));
      assert SameCodes(s, noted) && SameCodes(s, s);
      hide SameCodes, ApplyAll, CatchUp;
      ApplyAllKeepsCodes(noted, o, i, CatchUp(leg.status, snapshot.status), env);
      if SyncFromSnapshot(s, o, i, snapshot, env).Success? {
        SameCodesTwice(s, noted, SyncFromSnapshot(s, o, i, snapshot, env).value);
      }
    }
  }

  lemma ClaimKeepsCodes(order: Order, rider: UserId)
    requires Claimable(order).legs != [] && LegAccepts(WithCourier(Claimable(order), rider), CourierAssigned)
    ensures AfterEvent(WithCourier(Claimable(order), rider), CourierAssigned).codes == order.codes
  {
    EventKeepsCodes(WithCourier(Claimable(order), rider), CourierAssigned);
    hide AfterEvent, ActiveLeg;
  }

  lemma AcceptKeepsCodes(s: State, o: OrderId, rider: UserId)
    requires Inv(s)
    ensures SameCodes(s, Committed(s, AcceptOrder(s, o, rider)))
  {
    AcceptKeepsInv(s, o, rider);
    assert SameCodes(s, s);
    hide Inv, SameCodes, InPool, AcceptOrder, AfterEvent;
    if AcceptOrder(s, o, rider).Success? {
      ClaimKeepsCodes(s.orders[o], rider);
      OneOrderSameCodes(s, AcceptOrder(s, o, rider).value, o);
    }
  }

  lemma SubmitKeepsCodes(s: State, o: OrderId, i: nat, reply: SubmitReply, env: RoutingEnv)
    ensures SameCodes(s, Submit(s, o, i, reply, env))
  {
    hide Destination, ActiveLeg;
  }

  lemma DropOffKeepsCodes(s: State, o: OrderId, env: RoutingEnv)
    ensures SameCodes(s, Committed(s, ConfirmDropOff(s, o, env)))
  {
    hide Destination, ActiveLeg;
  }

  lemma CancelKeepsCodes(s: State, o: OrderId, i: nat, routeTo: Option<ProviderKey>, env: RoutingEnv)
    ensures SameCodes(s, Committed(s, CancelLeg(s, o, i, routeTo, env)))
  {
    if HasLeg(s, o, i) {
      ApplyKeepsCodes(s, o, i, LegCancelled, routeTo, env);
    }
    hide Apply;
  }

  lemma LegStepKeepsCodes(s: State, step: Step)
    requires step.Accept? || step.SubmitLeg? || step.SyncLeg? || step.Cancel? || step.DropOff?
    requires Inv(s)
    ensures SameCodes(s, Next(s, step))
  {
    hide SameCodes, Inv;
    match step {
      case Accept(o, rider) => AcceptKeepsCodes(s, o, rider);
      case SyncLeg(o, i, snapshot, env) => SyncKeepsCodes(s, o, i, snapshot, env);
      case Cancel(o, i, routeTo, env) => CancelKeepsCodes(s, o, i, routeTo, env);
      case SubmitLeg(o, i, answer, env) => SubmitKeepsCodes(s, o, i, answer, env);
      case DropOff(o, env) => DropOffKeepsCodes(s, o, env);
    }
  }

  lemma PaymentKeepsCodes(s: State, step: Step)
    requires PaymentSide(step)
    ensures SameCodes(s, Next(s, step))
  {
    hide Next;
    PaymentOrders(s, step);
  }

  /** Steps at a counter leave every other order alone. */
  lemma OtherOrdersKept(s: State, step: Step, o: OrderId)
    requires Inv(s) && o in s.orders && OrderOfStep(step) != o
    requires CounterSide(step) || step.Handoff?
    ensures o in Next(s, step).orders && Next(s, step).orders[o] == s.orders[o]
    ensures Next(s, step).orders.Keys == s.orders.Keys
  {
    hide Next, Inv, ConfirmHandoff, AfterEvent, Validate, HandoverDue;
    if CounterSide(step) {
      StepAtCounter(s, step);
    } else {
      HandoffEnds(s, step.o, step.handover, step.hash, step.now);
      if step.o in s.orders && !AlreadyProcessed(s, step.o, ScopeOf(step.handover)) {
        HandoffKeepsInv(s, step.o, step.handover, step.hash, step.now);
      }
    }
  }

  // ----- Any step, any run -------------------------------------------------

  lemma StepOnCodes(s: State, step: Step, o: OrderId)
    requires Inv(s) && o in s.orders
    ensures o in Next(s, step).orders
    ensures Next(s, step).orders[o].codes == AfterCodeSteps(s.orders[o].codes, CodeSteps(s, step, o))
  {
    if CounterSide(step) || step.Handoff? {
      if OrderOfStep(step) != o {
        OtherOrdersKept(s, step, o);
      } else {
        match step {
          case Handoff(_, _, _, _) => HandoffCheckIs(s, step, o);
          case Collect(_, _, _) => CollectCheckIs(s, step, o);
          case ReturnCollect(_, _, _) => ReturnCollectCheckIs(s, step, o);
          case Intake(_, _, _) => IntakesIssue(s, step, o);
          case ReturnIntake(_, _, _) => IntakesIssue(s, step, o);
          case _ => RequestsIssue(s, step, o);
        }
      }
    } else if PaymentSide(step) {
      PaymentKeepsCodes(s, step);
    } else {
      LegStepKeepsCodes(s, step);
    }
    hide Next, Inv, AfterCodeStep;
  }

  /** An order's codes; none before there is an order. */
  function CodesOf(s: State, o: OrderId): seq<Code> {
    if o in s.orders then s.orders[o].codes else []
  }

  /** New orders have no codes. */
  lemma NewOrdersHaveNone(s: State, step: Step, o: OrderId)
    requires Inv(s) && o !in s.orders
    ensures CodesOf(Next(s, step), o) == []
  {
    if PaymentSide(step) {
      PaymentKeepsCodes(s, step);
    } else if CounterSide(step) {
      StepAtCounter(s, step);
    } else if step.Handoff? {
      HandoffEnds(s, step.o, step.handover, step.hash, step.now);
      if step.o in s.orders && !AlreadyProcessed(s, step.o, ScopeOf(step.handover)) {
        HandoffKeepsInv(s, step.o, step.handover, step.hash, step.now);
      }
    } else {
      LegStepKeepsCodes(s, step);
    }
    hide Next, Inv, ConfirmHandoff, AfterEvent;
  }

  /** What has happened to an order's codes in a run. */
  function CodeHistoryOf(s: State, steps: seq<Step>, o: OrderId): seq<CodeStep>
    decreases |steps|
  {
    if steps == [] then [] else CodeSteps(s, steps[0], o) + CodeHistoryOf(Next(s, steps[0]), steps[1..], o)
  }

  lemma {:induction false} CodeStepsConcat(codes: seq<Code>, a: seq<CodeStep>, b: seq<CodeStep>)
    ensures AfterCodeSteps(AfterCodeSteps(codes, a), b) == AfterCodeSteps(codes, a + b)
    decreases |b|
  {
    if b == [] {
      assert a + b == a;
    } else {
      assert (a + b)[..|a + b| - 1] == a + b[..|b| - 1];
      CodeStepsConcat(codes, a, b[..|b| - 1]);
    }
  }

  lemma {:induction false} FromNothing(history: seq<CodeStep>)
    ensures AfterCodeSteps([], history) == TableAfter(history)
  {
    if history != [] {
      FromNothing(history[..|history| - 1]);
    }
  }

  lemma {:induction false} RunOnCodes(s: State, steps: seq<Step>, o: OrderId)
    requires Inv(s) && ValidSteps(steps)
    ensures CodesOf(Run(s, steps), o) == AfterCodeSteps(CodesOf(s, o), CodeHistoryOf(s, steps, o))
    decreases |steps|
  {
    if steps != [] {
      assert steps[0] in steps && forall step :: step in steps[1..] ==> step in steps;
      StepKeepsInv(s, steps[0]);
      if o in s.orders {
        StepOnCodes(s, steps[0], o);
      } else {
        NewOrdersHaveNone(s, steps[0], o);
      }
      hide Inv, Next, AfterCodeSteps, CodeSteps;
      NoSteps(s, steps[0], o);
      RunOnCodes(Next(s, steps[0]), steps[1..], o);
      CodeStepsConcat(CodesOf(s, o), CodeSteps(s, steps[0], o), CodeHistoryOf(Next(s, steps[0]), steps[1..], o));
    }
  }

  lemma NoSteps(s: State, step: Step, o: OrderId)
    ensures o !in s.orders ==> AfterCodeSteps(CodesOf(s, o), CodeSteps(s, step, o)) == []
  {
  }

  /** In any run from an empty system an order's codes are what its issues and checks
      leave of an empty table. */
  lemma CodesAreTheirHistory(start: State, steps: seq<Step>, o: OrderId)
    requires Initial(start) && ValidSteps(steps)
    ensures CodesOf(Run(start, steps), o) == TableAfter(CodeHistoryOf(start, steps, o))
  {
    InitialIsConsistent(start);
    RunOnCodes(start, steps, o);
    FromNothing(CodeHistoryOf(start, steps, o));
  }

  /** So a parcel that is ready is handed to the receiver exactly when the code is the one
      issued last, not expired, not used since, and checked fewer than five times. */
  lemma ReceiverNeedsLatestCode(start: State, steps: seq<Step>, o: OrderId, hash: nat, now: int)
    requires Initial(start) && ValidSteps(steps) && o in Run(start, steps).orders
    requires Run(start, steps).orders[o].status == ReadyForCollection
    ensures ConfirmCollection(Run(start, steps), o, hash, now).Success? <==>
              Run(start, steps).splitRules != []
              && LatestLive(CodeHistoryOf(start, steps, o), ReceiverCollection, hash, now)
  {
    var s, history := Run(start, steps), CodeHistoryOf(start, steps, o);
    CodesAreTheirHistory(start, steps, o);
    AcceptedExactlyWhen(history, ReceiverCollection, hash, now);
    InitialIsConsistent(start);
    RunKeepsInv(start, steps);
    About(s, o);
    NotCollectedYet(s.orders[o], s.splitRules);
    hide Inv, OrderOk, Run, CodeHistoryOf, TableAfter, LatestLive;
    CollectsExactlyWhen(s, o, hash, now);
  }

  /** And a returned parcel to its sender. */
  lemma SenderNeedsLatestCode(start: State, steps: seq<Step>, o: OrderId, hash: nat, now: int)
    requires Initial(start) && ValidSteps(steps) && o in Run(start, steps).orders
    requires Run(start, steps).orders[o].status == ReadyForSenderCollection
    ensures ConfirmReturnCollection(Run(start, steps), o, hash, now).Success? <==>
              LatestLive(CodeHistoryOf(start, steps, o), SenderCollection, hash, now)
  {
    var s, history := Run(start, steps), CodeHistoryOf(start, steps, o);
    CodesAreTheirHistory(start, steps, o);
    AcceptedExactlyWhen(history, SenderCollection, hash, now);
    InitialIsConsistent(start);
    RunKeepsInv(start, steps);
    About(s, o);
    NotCollectedBackYet(s.orders[o], s.splitRules);
    hide Inv, OrderOk, Run, CodeHistoryOf, TableAfter, LatestLive;
    CollectsBackExactlyWhen(s, o, hash, now);
  }

  /** And between rider and Node: a pickup or arrival that has not been confirmed yet is,
      exactly when it is due and the rider's code is the latest, live one. */
  lemma HandoverNeedsLatestCode(start: State, steps: seq<Step>, o: OrderId, handover: Handover, hash: nat, now: int)
    requires Initial(start) && ValidSteps(steps) && o in Run(start, steps).orders
    requires !AlreadyProcessed(Run(start, steps), o, ScopeOf(handover))
    ensures ConfirmHandoff(Run(start, steps), o, handover, hash, now).Success? <==>
              HandoverDue(Run(start, steps).orders[o], handover)
              && LatestLive(CodeHistoryOf(start, steps, o), KindOf(handover), hash, now)
  {
    var s, history := Run(start, steps), CodeHistoryOf(start, steps, o);
    CodesAreTheirHistory(start, steps, o);
    AcceptedExactlyWhen(history, KindOf(handover), hash, now);
    InitialIsConsistent(start);
    RunKeepsInv(start, steps);
    hide Inv, Run, CodeHistoryOf, TableAfter, LatestLive, ConfirmHandoff, HandoverDue;
    HandoffKeepsInv(s, o, handover, hash, now);
  }

  lemma NotCollectedYet(order: Order, rules: seq<SplitRule>)
    requires OrderOk(order, rules) && order.status == ReadyForCollection
    ensures CollectionScope !in order.keys
  {
    EndsStay(order.log, LogCollected);
  }

  lemma NotCollectedBackYet(order: Order, rules: seq<SplitRule>)
    requires OrderOk(order, rules) && order.status == ReadyForSenderCollection
    ensures ReturnCollectScope !in order.keys
  {
    EndsStay(order.log, LogCollectedBySender);
  }

  /** An order that has been collected, or collected back, has nowhere else to go. */
  lemma {:induction false} EndsStay(log: seq<OrderEvent>, end: OrderEvent)
    requires end in {LogCollected, LogCollectedBySender}
    requires ReplayLog(log).Some? && ReplayLog(log).value != EnteredBy(end)
    ensures end !in log
  {
    if |log| > 1 {
      EndsStay(log[..|log| - 1], end);
      assert log == log[..|log| - 1] + [log[|log| - 1]];
    }
  }

  lemma CollectsExactlyWhen(s: State, o: OrderId, hash: nat, now: int)
    requires o in s.orders && s.orders[o].status == ReadyForCollection && CollectionScope !in s.orders[o].keys
    ensures ConfirmCollection(s, o, hash, now).Success? <==>
              s.splitRules != [] && Validate(s.orders[o].codes, ReceiverCollection, hash, now).Some?
  {
    hide Validate, SplitEntries;
  }

  lemma CollectsBackExactlyWhen(s: State, o: OrderId, hash: nat, now: int)
    requires o in s.orders && s.orders[o].status == ReadyForSenderCollection && ReturnCollectScope !in s.orders[o].keys
    ensures ConfirmReturnCollection(s, o, hash, now).Success? <==>
              Validate(s.orders[o].codes, SenderCollection, hash, now).Some?
  {
    hide Validate;
  }
}
