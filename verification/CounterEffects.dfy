/** What each step at a counter, or between a counter and a rider, leaves behind, told in
    the tables' own fields. */
module CounterEffects {
  import opened Wrappers
  import opened Counting
  import opened DeliveryLeg
  import opened OrderRules
  import opened Routing
  import opened HandoffCodes
  import opened Money
  import opened Model
  import opened Capacity
  import opened Shelves
  import opened Orders
  import opened DeliveryDispatch
  import opened DeliveryEvents
  import opened Handoffs
  import opened Invariants
  import opened LegProtocol
  import opened LegSteps
  import opened HandoffSteps
  import opened InHouseSteps
  import opened Idempotence
  import opened LegEffects
  import opened Runs

  // ----- Codes -------------------------------------------------------------

  /** The `i`-th row is the newest unused code of its kind and accepts the hash. */
  ghost predicate Opens(codes: seq<Code>, i: nat, kind: CodeKind, hash: nat, now: int) {
    && i < |codes| && codes[i].kind == kind && !codes[i].used
    && (forall j :: i < j < |codes| && codes[j].kind == kind ==> codes[j].used)
    && now < codes[i].expiresAt && codes[i].failedAttempts < 5 && codes[i].hash == hash
  }

  lemma ValidateOpens(codes: seq<Code>, kind: CodeKind, hash: nat, now: int)
    ensures Validate(codes, kind, hash, now).Some? <==> exists i: nat :: Opens(codes, i, kind, hash, now)
    ensures forall i: nat :: Opens(codes, i, kind, hash, now) ==>
              Validate(codes, kind, hash, now) == Some(codes[i := codes[i].(used := true)])
  {
    var latest := LatestUnused(codes, kind);
    if Validate(codes, kind, hash, now).Some? {
      assert Opens(codes, latest.value, kind, hash, now);
    }
    forall i: nat | Opens(codes, i, kind, hash, now)
      ensures latest == Some(i)
    {
    }
  }

  /** The new code is there, every unused one of its kind is gone, and all others are kept. */
  ghost predicate Reissued(before: seq<Code>, after: seq<Code>, code: Code) {
    && after != [] && after[|after| - 1] == code
    && forall c ::
         multiset(after[..|after| - 1])[c] == if c.kind == code.kind && !c.used then 0 else multiset(before)[c]
  }

  lemma {:induction false} WithoutUnusedMeans(codes: seq<Code>, kind: CodeKind)
    ensures forall c :: multiset(WithoutUnused(codes, kind))[c] ==
                        if c.kind == kind && !c.used then 0 else multiset(codes)[c]
  {
    if codes != [] {
      WithoutUnusedMeans(codes[..|codes| - 1], kind);
      assert codes == codes[..|codes| - 1] + [codes[|codes| - 1]];
    }
  }

  lemma IssueReissues(codes: seq<Code>, kind: CodeKind, hash: nat, expiresAt: int)
    ensures Reissued(codes, Issue(codes, kind, hash, expiresAt), Code(kind, hash, expiresAt, false, 0))
  {
    WithoutUnusedMeans(codes, kind);
    assert Issue(codes, kind, hash, expiresAt)[..|Issue(codes, kind, hash, expiresAt)| - 1] ==
      WithoutUnused(codes, kind);
  }

  /** A code of one kind has been issued for the order, and nothing else has happened. */
  ghost predicate OnlyIssued(s: State, s': State, o: OrderId, code: Code)
    requires o in s.orders
  {
    && o in s'.orders && s' == s.(orders := s.orders[o := s.orders[o].(codes := s'.orders[o].codes)])
    && Reissued(s.orders[o].codes, s'.orders[o].codes, code)
  }

  /** Only the order's own rider is given a code; a collection code is sent again only to
      whoever the parcel waits for; a late request issues what was asked for. */
  lemma CodeRequestsMean(s: State, o: OrderId, rider: UserId, kind: CodeKind, hash: nat, expiresAt: int)
    ensures var s' := Next(s, RequestCode(o, rider, kind, hash, expiresAt));
            if o in s.orders && s.orders[o].riderId == Some(rider) then
              OnlyIssued(s, s', o, Code(kind, hash, expiresAt, false, 0))
            else s' == s
    ensures var s' := Next(s, Resend(o, hash, expiresAt));
            if o in s.orders && s.orders[o].status == ReadyForCollection then
              OnlyIssued(s, s', o, Code(ReceiverCollection, hash, expiresAt, false, 0))
            else if o in s.orders && s.orders[o].status == ReadyForSenderCollection then
              OnlyIssued(s, s', o, Code(SenderCollection, hash, expiresAt, false, 0))
            else s' == s
    ensures var s' := Next(s, IssueLate(o, kind, hash, expiresAt));
            if o in s.orders then OnlyIssued(s, s', o, Code(kind, hash, expiresAt, false, 0)) else s' == s
  {
    hide IssueCode, OnlyIssued;
    if o in s.orders {
      IssuingMeans(s, o, kind, hash, expiresAt);
      IssuingMeans(s, o, SenderCollection, hash, expiresAt);
      IssuingMeans(s, o, ReceiverCollection, hash, expiresAt);
    }
  }

  lemma IssuingMeans(s: State, o: OrderId, kind: CodeKind, hash: nat, expiresAt: int)
    requires o in s.orders
    ensures OnlyIssued(s, IssueCode(s, o, kind, hash, expiresAt), o, Code(kind, hash, expiresAt, false, 0))
  {
    hide Issue, Reissued;
    IssueReissues(s.orders[o].codes, kind, hash, expiresAt);
  }

  // ----- Taking a parcel in ------------------------------------------------

  /** The parcel is on the Node's shelf, the order has moved on with its key and log line,
      and whoever may collect the parcel there has a fresh code. */
  ghost predicate CheckedIn(s: State, s': State, o: OrderId, node: NodeId, scope: Scope, status: OrderStatus,
                          event: OrderEvent, code: Code)
    requires o in s.orders
  {
    var order := s.orders[o];
    && o in s'.orders && s' == s.(orders := s.orders[o := s'.orders[o]])
    && Reissued(order.codes, s'.orders[o].codes, code)
    && exists number :: LowestPlace(s.orders, node, number)
         && s'.orders[o] == order.(status := status, log := order.log + [event], keys := order.keys + {scope},
                                   shelf := Some(Shelf(node, number)), codes := s'.orders[o].codes)
  }

  /** Keys go with the status: a step whose parcel is there has not been done yet. */
  lemma KeysByStatus(s: State, o: OrderId)
    requires Inv(s) && o in s.orders
    ensures var keys, status := s.orders[o].keys, s.orders[o].status;
            && (DropOffScope in keys <==> status != AwaitingDropOff)
            && (IntakeScope in keys <==> status in {ReadyForCollection, Completed})
            && (CollectionScope in keys <==> status == Completed)
            && (ReturnIntakeScope in keys <==> status in {ReadyForSenderCollection, ReturnCompleted})
            && (ReturnCollectScope in keys <==> status == ReturnCompleted)
  {
    About(s, o);
    LogSaysHowFar(s.orders[o].log);
    hide Inv, ReplayLog;
  }

  lemma FirstIntake(s: State, o: OrderId, hash: nat, expiresAt: int)
    requires o in s.orders && s.orders[o].status == ArrivedAtDestination && IntakeScope !in s.orders[o].keys
    ensures CheckedIn(s, Next(s, Intake(o, hash, expiresAt)), o, s.orders[o].destinationNodeId, IntakeScope,
                    ReadyForCollection, LogReady, Code(ReceiverCollection, hash, expiresAt, false, 0))
  {
    hide LowestFree, LowestPlace, Issue, Reissued;
    var s0 := Transition(InsertKey(s, o, IntakeScope), o, ArrivedAtDestination, ReadyForCollection, LogReady).value;
    assert s0.orders == s.orders[o := s0.orders[o]];
    LowestFreePlace(s.orders, s0.orders, o, s.orders[o].destinationNodeId);
    IssueReissues(s.orders[o].codes, ReceiverCollection, hash, expiresAt);
    var s' := Next(s, Intake(o, hash, expiresAt));
    assert s'.orders == s.orders[o := s'.orders[o]];
  }

  /** Intake at the destination happens to a parcel that has arrived, and to no other. */
  lemma IntakeMeans(s: State, o: OrderId, hash: nat, expiresAt: int)
    requires Inv(s)
    ensures var s' := Next(s, Intake(o, hash, expiresAt));
            if o in s.orders && s.orders[o].status == ArrivedAtDestination then
              CheckedIn(s, s', o, s.orders[o].destinationNodeId, IntakeScope, ReadyForCollection, LogReady,
                      Code(ReceiverCollection, hash, expiresAt, false, 0))
            else s' == s
  {
    hide Inv, CheckedIn, Issue, LowestFree;
    if o in s.orders {
      KeysByStatus(s, o);
      if s.orders[o].status == ArrivedAtDestination {
        FirstIntake(s, o, hash, expiresAt);
      }
    }
  }

  lemma FirstReturnIntake(s: State, o: OrderId, hash: nat, expiresAt: int)
    requires o in s.orders && s.orders[o].status == ReturnedToOrigin && ReturnIntakeScope !in s.orders[o].keys
    ensures CheckedIn(s, Next(s, ReturnIntake(o, hash, expiresAt)), o, s.orders[o].originNodeId, ReturnIntakeScope,
                    ReadyForSenderCollection, LogReadyForSender, Code(SenderCollection, hash, expiresAt, false, 0))
  {
    hide LowestFree, LowestPlace, Issue, Reissued;
    var s0 := Transition(InsertKey(s, o, ReturnIntakeScope), o, ReturnedToOrigin, ReadyForSenderCollection,
                         LogReadyForSender).value;
    assert s0.orders == s.orders[o := s0.orders[o]];
    LowestFreePlace(s.orders, s0.orders, o, s.orders[o].originNodeId);
    IssueReissues(s.orders[o].codes, SenderCollection, hash, expiresAt);
    var s' := Next(s, ReturnIntake(o, hash, expiresAt));
    assert s'.orders == s.orders[o := s'.orders[o]];
  }

  /** And at the origin, to a parcel that has come back. */
  lemma ReturnIntakeMeans(s: State, o: OrderId, hash: nat, expiresAt: int)
    requires Inv(s)
    ensures var s' := Next(s, ReturnIntake(o, hash, expiresAt));
            if o in s.orders && s.orders[o].status == ReturnedToOrigin then
              CheckedIn(s, s', o, s.orders[o].originNodeId, ReturnIntakeScope, ReadyForSenderCollection,
                        LogReadyForSender, Code(SenderCollection, hash, expiresAt, false, 0))
            else s' == s
  {
    hide Inv, CheckedIn, Issue, LowestFree;
    if o in s.orders {
      KeysByStatus(s, o);
      if s.orders[o].status == ReturnedToOrigin {
        FirstReturnIntake(s, o, hash, expiresAt);
      }
    }
  }

  // ----- Handing a parcel out ----------------------------------------------

  /** The four entries of a completed order, in full: rider's and Node's percentages of the
      delivery fee rounded down, the destination fee, and the rest. */
  ghost predicate PaidOut(order: Order, rule: SplitRule, ruleId: nat, e: seq<Entry>) {
    var deliveryFee := order.amountKobo - order.destinationFeeKobo;
    var riderShare, nodeShare := deliveryFee * rule.riderPercent / 100, deliveryFee * rule.nodePercent / 100;
    e == [ if order.riderId.Some? then Entry(RiderParty, order.riderId, riderShare, ruleId, true)
           else Entry(CourierAllocation, None, riderShare, ruleId, false),
           Entry(OriginNode, Some(order.originNodeId), nodeShare, ruleId, true),
           Entry(DestinationNode, Some(order.destinationNodeId), order.destinationFeeKobo, ruleId, true),
           Entry(Platform, None, deliveryFee - riderShare - nodeShare, ruleId, true)]
  }

  /** The receiver gets the parcel for an accepted code once it is ready and a split rule
      exists: the code is used up, the shelf cleared, and the newest rule pays everybody. */
  lemma CollectMeans(s: State, o: OrderId, hash: nat, now: int, i: nat)
    requires Inv(s) && o in s.orders && s.orders[o].status == ReadyForCollection && s.splitRules != []
    requires Opens(s.orders[o].codes, i, ReceiverCollection, hash, now)
    ensures var order, s', ruleId := s.orders[o], Next(s, Collect(o, hash, now)), |s.splitRules| - 1;
            && o in s'.orders
            && s' == s.(orders := s.orders[o :=
                 order.(status := Completed, log := order.log + [LogCollected], keys := order.keys + {CollectionScope},
                        shelf := None, codes := order.codes[i := order.codes[i].(used := true)],
                        entries := s'.orders[o].entries)])
            && PaidOut(order, s.splitRules[ruleId], ruleId, s'.orders[o].entries)
  {
    hide Inv, OrderOk, ConfirmCollection, Validate;
    KeysByStatus(s, o);
    About(s, o);
    EntriesOnlyWhenCompleted(s.orders[o], s.splitRules);
    ValidateOpens(s.orders[o].codes, ReceiverCollection, hash, now);
    hide Opens;
    CollectionGoesThrough(s, o, hash, now);
    CollectionResult(s, o, hash, now);
  }

  lemma CollectionGoesThrough(s: State, o: OrderId, hash: nat, now: int)
    requires o in s.orders && s.orders[o].status == ReadyForCollection && CollectionScope !in s.orders[o].keys
    requires Validate(s.orders[o].codes, ReceiverCollection, hash, now).Some? && s.splitRules != []
    ensures ConfirmCollection(s, o, hash, now).Success?
  {
    hide Validate, SplitEntries;
  }

  /** The sender gets a returned parcel for an accepted code, and its slot is free again. */
  lemma ReturnCollectMeans(s: State, o: OrderId, hash: nat, now: int, i: nat)
    requires Inv(s) && o in s.orders && s.orders[o].status == ReadyForSenderCollection
    requires Opens(s.orders[o].codes, i, SenderCollection, hash, now)
    ensures var order, s', n := s.orders[o], Next(s, ReturnCollect(o, hash, now)), s.orders[o].originNodeId;
            && n in s.nodes && s.nodes[n].currentCount > 0
            && s' == s.(nodes := s.nodes[n := NodeRow(s.nodes[n].capacity, s.nodes[n].currentCount - 1)],
                        orders := s.orders[o :=
                          order.(status := ReturnCompleted, log := order.log + [LogCollectedBySender],
                                 keys := order.keys + {ReturnCollectScope}, shelf := None,
                                 codes := order.codes[i := order.codes[i].(used := true)])])
  {
    hide Inv, OrderOk, ConfirmReturnCollection, Validate;
    KeysByStatus(s, o);
    ValidateOpens(s.orders[o].codes, SenderCollection, hash, now);
    hide Opens;
    ReturnGoesThrough(s, o, hash, now);
    ReturnCollectionResult(s, o, hash, now);
    SlotIsTaken(s, o);
  }

  lemma ReturnGoesThrough(s: State, o: OrderId, hash: nat, now: int)
    requires o in s.orders && s.orders[o].status == ReadyForSenderCollection && ReturnCollectScope !in s.orders[o].keys
    requires Validate(s.orders[o].codes, SenderCollection, hash, now).Some?
    ensures ConfirmReturnCollection(s, o, hash, now).Success?
  {
    hide Validate;
  }

  /** An order held at its origin has a slot there. */
  lemma SlotIsTaken(s: State, o: OrderId)
    requires Inv(s) && o in s.orders && (BeforePickup(s.orders[o].status) || BackAtOrigin(s.orders[o].status))
    ensures s.orders[o].originNodeId in s.nodes && s.nodes[s.orders[o].originNodeId].currentCount > 0
  {
    About(s, o);
    assert IntentOk(s, s.orders[o].paymentIntentId) && NodeOk(s, s.orders[o].originNodeId);
    CountHas(s.orders, HeldAt(s.orders[o].originNodeId), o);
  }

  // ----- Riders ------------------------------------------------------------

  /** A rider can take the order: it waits at its origin, in the pool or with nobody. */
  predicate WaitsForRider(order: Order) {
    && order.status == ReceivedAtOrigin
    && (order.legs == []
        || var last := order.legs[|order.legs| - 1];
           last.status == Cancelled || (last.status == Requested && last.providerKey == InHouse))
  }

  /** The order's legs once a rider has it: the pool leg is theirs, or a new one is. */
  function ClaimedLegs(legs: seq<Leg>, rider: UserId): seq<Leg> {
    if legs == [] || legs[|legs| - 1].status == Cancelled then
      legs + [Leg(InHouse, Assigned, |legs| + 1, false, None, None, Some(rider))]
    else legs[|legs| - 1 := legs[|legs| - 1].(status := Assigned, courierUserId := Some(rider))]
  }

  lemma ClaimedOrder(order: Order, rider: UserId, rules: seq<SplitRule>)
    requires OrderOk(order, rules) && InPool(order)
    ensures Claimable(order).legs != []
    ensures var claimed := WithCourier(Claimable(order), rider);
            && LegAccepts(claimed, CourierAssigned)
            && AfterEvent(claimed, CourierAssigned) ==
                 order.(status := RiderAssigned, riderId := Some(rider), log := order.log + [LogRiderAssigned],
                        legs := ClaimedLegs(order.legs, rider))
  {
    var claimed := WithCourier(Claimable(order), rider);
    var after := AfterEvent(claimed, CourierAssigned);
    if ActiveLeg(order.legs).Some? {
      ActiveIsLast(order, rules);
    }
    assert after.legs == ClaimedLegs(order.legs, rider);
  }

  lemma ClaimedWhole(s: State, o: OrderId, rider: UserId)
    requires Inv(s) && ReserveDeliverySlot(s, rider).Success? && o in s.orders && InPool(s.orders[o])
    ensures var order := s.orders[o];
            AcceptOrder(s, o, rider) ==
              Success(ReserveDeliverySlot(s, rider).value.(orders := s.orders[o :=
                order.(status := RiderAssigned, riderId := Some(rider), log := order.log + [LogRiderAssigned],
                       legs := ClaimedLegs(order.legs, rider))]))
  {
    hide Inv, InPool, AssignInHouseRider, AfterEvent, OrderOk, Move, InStep, ClaimedLegs;
    About(s, o);
    var s1 := ReserveDeliverySlot(s, rider).value;
    ClaimResult(s1, o, rider);
    ClaimedIsOk(s.orders[o], rider, s.splitRules);
    ClaimedOrder(s.orders[o], rider, s.splitRules);
    var claimed := WithCourier(Claimable(s.orders[o]), rider);
    ListenerAccepts(s1.(orders := s.orders[o := claimed]), o, CourierAssigned);
    Overwrite(s.orders, o, claimed, AfterEvent(claimed, CourierAssigned));
  }

  /** An active rider with fewer than three deliveries takes an order that waits: one more
      delivery, the order assigned and its leg theirs. Anything else changes nothing. */
  lemma AcceptMeans(s: State, o: OrderId, rider: UserId)
    requires Inv(s)
    ensures var s' := Next(s, Accept(o, rider));
            if rider in s.riders && s.riders[rider].active && s.riders[rider].currentActiveOrderCount < 3
               && o in s.orders && WaitsForRider(s.orders[o]) then
              var order := s.orders[o];
              s' == s.(riders := s.riders[rider := RiderRow(true, s.riders[rider].currentActiveOrderCount + 1)],
                       orders := s.orders[o := order.(status := RiderAssigned, riderId := Some(rider),
                                                      log := order.log + [LogRiderAssigned],
                                                      legs := ClaimedLegs(order.legs, rider))])
            else s' == s
  {
    hide Inv, AcceptOrder, AfterEvent, OrderOk;
    AcceptKeepsInv(s, o, rider);
    if ReserveDeliverySlot(s, rider).Success? && o in s.orders && InPool(s.orders[o]) {
      ClaimedWhole(s, o, rider);
    }
  }

  /** A due handover with an accepted code comes down to the leg's event on the order. */
  lemma DueHandover(s: State, o: OrderId, handover: Handover, hash: nat, now: int, i: nat)
    requires Inv(s) && o in s.orders && HandoverDue(s.orders[o], handover)
    requires Opens(s.orders[o].codes, i, KindOf(handover), hash, now)
    ensures var proved := Proved(s.orders[o], handover, s.orders[o].codes[i := s.orders[o].codes[i].(used := true)]);
            && LegAccepts(proved, EventOf(handover))
            && var after := AfterEvent(proved, EventOf(handover));
            Next(s, Handoff(o, handover, hash, now)) ==
              CountersAfter(s.(orders := s.orders[o := after]), proved.originNodeId, EventOf(handover),
                            after.legs[LastIndex(proved)].courierUserId)
  {
    hide Inv, OrderOk, ConfirmHandoff, Validate, Move, AfterEvent, CountersAfter, Coupled, LegsOk, OneUnusedPerKind;
    var order := s.orders[o];
    ValidateOpens(order.codes, KindOf(handover), hash, now);
    hide Opens;
    About(s, o);
    HandoverNotDone(order, handover, s.splitRules);
    ProvedResult(s, o, handover, hash, now);
    var codes := order.codes[i := order.codes[i].(used := true)];
    ValidateConsumes(order.codes, KindOf(handover), hash, now);
    HandoverKeepsOrder(order, handover, codes, s.splitRules);
    var proved := Proved(order, handover, codes);
    ListenerAccepts(s.(orders := s.orders[o := proved]), o, EventOf(handover));
    Overwrite(s.orders, o, proved, AfterEvent(proved, EventOf(handover)));
    hide HandoverDue;
  }

  lemma HandoverNotDone(order: Order, handover: Handover, rules: seq<SplitRule>)
    requires OrderOk(order, rules) && HandoverDue(order, handover)
    ensures ScopeOf(handover) !in order.keys && LegsOk(order.legs) && Coupled(order)
  {
  }

  /** The order's latest leg is a rider's and has come this far. */
  predicate RiderHasLeg(order: Order, status: LegStatus) {
    order.legs != []
    && order.legs[|order.legs| - 1].providerKey == InHouse && order.legs[|order.legs| - 1].status == status
  }

  /** The rider picks the parcel up: it leaves the shelf and its slot at the origin. */
  lemma PickupMeans(s: State, o: OrderId, hash: nat, now: int, i: nat)
    requires Inv(s) && o in s.orders && RiderHasLeg(s.orders[o], Assigned)
    requires Opens(s.orders[o].codes, i, RiderPickup, hash, now)
    ensures var order, n, last := s.orders[o], s.orders[o].originNodeId, |s.orders[o].legs| - 1;
            && n in s.nodes && s.nodes[n].currentCount > 0
            && Next(s, Handoff(o, PickupHandover, hash, now)) ==
                 s.(nodes := s.nodes[n := NodeRow(s.nodes[n].capacity, s.nodes[n].currentCount - 1)],
                    orders := s.orders[o :=
                      order.(status := InTransit, shelf := None, log := order.log + [LogPickedUp],
                             keys := order.keys + {PickupScope},
                             codes := order.codes[i := order.codes[i].(used := true)],
                             legs := order.legs[last := order.legs[last].(status := PickedUp)])])
  {
    hide Inv, OrderOk, Next, ConfirmHandoff;
    DueHandover(s, o, PickupHandover, hash, now, i);
    OrderWithLeg(s, o);
    SlotIsTaken(s, o);
    assert !s.orders[o].legs[|s.orders[o].legs| - 1].ended;
  }

  /** A leg under way has its order where it belongs and is not over. */
  lemma OrderWithLeg(s: State, o: OrderId)
    requires Inv(s) && o in s.orders && s.orders[o].legs != []
    ensures var leg := s.orders[o].legs[|s.orders[o].legs| - 1];
            && leg.ended == IsTerminal(leg.status)
            && (leg.status == Assigned ==> s.orders[o].status == RiderAssigned)
            && (leg.status == PickedUp ==> s.orders[o].status == InTransit && s.orders[o].shelf.None?)
            && (leg.status in {Assigned, PickedUp} && leg.providerKey == InHouse ==>
                  leg.courierUserId.Some? && s.orders[o].riderId == leg.courierUserId
                  && leg.courierUserId.value in s.riders)
  {
    About(s, o);
    assert CourierOk(s.orders[o].legs[|s.orders[o].legs| - 1]);
  }

  /** The rider arrives: the leg is over and the rider has a delivery less. */
  lemma ArrivalMeans(s: State, o: OrderId, hash: nat, now: int, i: nat)
    requires Inv(s) && o in s.orders && RiderHasLeg(s.orders[o], PickedUp)
    requires Opens(s.orders[o].codes, i, RiderArrival, hash, now)
    ensures var order, last := s.orders[o], |s.orders[o].legs| - 1;
            && order.riderId.Some? && order.riderId.value in s.riders
            && var rider, row := order.riderId.value, s.riders[order.riderId.value];
            Next(s, Handoff(o, ArrivalHandover, hash, now)) ==
              s.(riders := s.riders[rider := row.(currentActiveOrderCount :=
                   if row.currentActiveOrderCount > 0 then row.currentActiveOrderCount - 1 else 0)],
                 orders := s.orders[o :=
                   order.(status := ArrivedAtDestination, log := order.log + [LogArrived],
                          keys := order.keys + {ArrivalScope},
                          codes := order.codes[i := order.codes[i].(used := true)],
                          legs := order.legs[last := order.legs[last].(status := Delivered, ended := true)])])
  {
    hide Inv, OrderOk, Next, ConfirmHandoff;
    DueHandover(s, o, ArrivalHandover, hash, now, i);
    OrderWithLeg(s, o);
  }

  // ----- Otherwise ---------------------------------------------------------

  /** The parcel is where the coded step expects it, and the code opens it. */
  ghost predicate DueWithCode(s: State, step: Step)
    requires CodeOf(step).Some? && step.o in s.orders
  {
    var order := s.orders[step.o];
    match step
    case Collect(_, hash, now) =>
      order.status == ReadyForCollection && s.splitRules != []
      && exists i: nat :: Opens(order.codes, i, ReceiverCollection, hash, now)
    case ReturnCollect(_, hash, now) =>
      order.status == ReadyForSenderCollection && exists i: nat :: Opens(order.codes, i, SenderCollection, hash, now)
    case Handoff(_, PickupHandover, hash, now) =>
      RiderHasLeg(order, Assigned) && exists i: nat :: Opens(order.codes, i, RiderPickup, hash, now)
    case Handoff(_, ArrivalHandover, hash, now) =>
      RiderHasLeg(order, PickedUp) && exists i: nat :: Opens(order.codes, i, RiderArrival, hash, now)
    case _ => false
  }

  lemma DoneOnlyWhenDue(s: State, step: Step)
    requires Inv(s) && CodeOf(step).Some? && step.o in s.orders && ServiceResult(s, step).Success?
    requires !AlreadyProcessed(s, step.o, CodeOf(step).value.scope)
    ensures DueWithCode(s, step)
  {
    hide Inv, Validate, ConfirmHandoff, ConfirmCollection, ConfirmReturnCollection, Opens, OrderOk;
    var code := CodeOf(step).value;
    ValidateOpens(s.orders[step.o].codes, code.kind, code.hash, code.now);
    match step {
      case Collect(o, hash, now) =>
        About(s, o);
        EntriesOnlyWhenCompleted(s.orders[o], s.splitRules);
        CollectionResult(s, o, hash, now);
      case ReturnCollect(o, hash, now) => ReturnCollectionResult(s, o, hash, now);
      case Handoff(o, handover, hash, now) => HandoffKeepsInv(s, o, handover, hash, now);
    }
  }

  /** A coded step at any other time leaves nothing behind but, if its code is the wrong
      one, one more failed attempt. */
  lemma OtherwiseNothing(s: State, step: Step)
    requires Inv(s) && CodeOf(step).Some? && (step.o in s.orders ==> !DueWithCode(s, step))
    ensures var s' := Next(s, step);
            || s' == s
            || (&& WrongCode(s, step) && step.o in s'.orders
                && s' == s.(orders := s.orders[step.o := s.orders[step.o].(codes := s'.orders[step.o].codes)])
                && OneMoreFailure(s.orders[step.o].codes, s'.orders[step.o].codes, CodeOf(step).value.kind))
  {
    hide Inv, DueWithCode, ServiceResult, WrongCode, OneMoreFailure;
    FailedCallChangesOneCounter(s, step);
    if step.o in s.orders && ServiceResult(s, step).Success? {
      if AlreadyProcessed(s, step.o, CodeOf(step).value.scope) {
        DoneStepStays(s, step);
      } else {
        DoneOnlyWhenDue(s, step);
      }
    } else if step.o !in s.orders {
      UnknownOrderStays(s, step);
    }
    hide Next;
  }

  lemma DoneStepStays(s: State, step: Step)
    requires CodeOf(step).Some? && AlreadyProcessed(s, step.o, CodeOf(step).value.scope)
    ensures Next(s, step) == s
  {
  }

  lemma UnknownOrderStays(s: State, step: Step)
    requires CodeOf(step).Some? && step.o !in s.orders
    ensures Next(s, step) == s
  {
  }
}
