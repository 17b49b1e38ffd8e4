/** Every way a leg can move keeps the invariant, and what it does to the rider's
    counter. */
module LegSteps {
  import opened Wrappers
  import opened Counting
  import opened DeliveryLeg
  import opened OrderRules
  import opened Routing
  import opened Money
  import opened Model
  import opened Capacity
  import opened DeliveryEvents
  import opened Invariants
  import opened LegProtocol

  function LastIndex(order: Order): nat
    requires order.legs != []
  {
    |order.legs| - 1
  }

  /** The events that can reach a leg: an in-house one is only claimed, handed over
      with a code, or cancelled; an external one follows its courier. */
  predicate CanReach(leg: Leg, event: LegEvent) {
    leg.providerKey == InHouse ==> event in {ParcelPickedUp, ParcelDelivered, LegCancelled}
  }

  predicate LegAccepts(order: Order, event: LegEvent) {
    order.legs != [] && NextLegStatus(order.legs[|order.legs| - 1].status, event).Some?
  }

  lemma LegsAfterEvent(order: Order, event: LegEvent)
    requires LegAccepts(order, event) && LegsOk(order.legs) && CanReach(order.legs[LastIndex(order)], event)
    ensures LegsOk(AfterEvent(order, event).legs)
  {
  }

  lemma LogAfterEvent(order: Order, event: LegEvent)
    requires LegAccepts(order, event) && InStep(order) && ReplayLog(order.log) == Some(order.status)
    ensures ReplayLog(AfterEvent(order, event).log) == Some(AfterEvent(order, event).status)
  {
    match event {
      case CourierAssigned => ReplayAppend(order.log, LogRiderAssigned);
      case CourierReleased => ReplayAppend(order.log, LogCourierReleased);
      case ParcelPickedUp => ReplayAppend(order.log, LogPickedUp);
      case AttemptFailed =>
      case ParcelDelivered => ReplayAppend(order.log, LogArrived);
      case ReturnStarted =>
        ReplayAppend(order.log, LogReturnInitiated);
        ReplayAppend(order.log + [LogReturnInitiated], LogReturnInTransit);
      case ParcelReturned => ReplayAppend(order.log, LogReturned);
      case LegCancelled =>
        if order.status == RiderAssigned {
          ReplayAppend(order.log, LogCourierReleased);
        }
    }
  }

  /** An accepted event keeps an order's own invariant, idempotency keys aside. */
  lemma EventKeepsCore(order: Order, event: LegEvent, rules: seq<SplitRule>)
    requires OrderCore(order, rules) && LegAccepts(order, event)
    requires CanReach(order.legs[LastIndex(order)], event)
    ensures OrderCore(AfterEvent(order, event), rules)
  {
    LegsAfterEvent(order, event);
    LogAfterEvent(order, event);
  }

  /** A rider's claim keeps it too. */
  lemma ClaimKeepsCore(order: Order, rider: UserId, rules: seq<SplitRule>)
    requires OrderCore(order, rules) && order.status == ReceivedAtOrigin && order.legs != []
    requires order.legs[LastIndex(order)].providerKey == InHouse && order.legs[LastIndex(order)].status == Requested
    ensures var claimed := order.(legs := order.legs[LastIndex(order) :=
                             order.legs[LastIndex(order)].(courierUserId := Some(rider))]);
            && InStep(claimed) && LegAccepts(claimed, CourierAssigned)
            && OrderCore(AfterEvent(claimed, CourierAssigned), rules)
            && AfterEvent(claimed, CourierAssigned).riderId == Some(rider)
  {
    var last := LastIndex(order);
    var claimed := order.(legs := order.legs[last := order.legs[last].(courierUserId := Some(rider))]);
    LogAfterEvent(claimed, CourierAssigned);
  }

  /** Keys follow along unless the event is an in-house handover, which brings its own. */
  lemma EventKeepsKeys(order: Order, event: LegEvent)
    requires KeysOk(order) && LegAccepts(order, event)
    requires order.legs[LastIndex(order)].providerKey == InHouse ==> event in {CourierAssigned, LegCancelled}
    ensures KeysOk(AfterEvent(order, event))
  {
  }

  /** Giving up the origin's slot follows an order that is held and then is not. */
  lemma ReleaseFollows(s: State, o: OrderId, before: Order, after: Order)
    requires NodesOk(s) && o in s.orders && s.orders[o] == before && SameParcel(before, after)
    requires HeldAt(before.originNodeId)(before) && !HeldAt(before.originNodeId)(after)
    ensures NodesFollow(s, ReleaseCapacitySlot(s, before.originNodeId), before, after)
  {
    if before.originNodeId in s.nodes {
      assert NodeOk(s, before.originNodeId);
    }
    CountHas(s.orders, HeldAt(before.originNodeId), o);
  }

  /** Taking a slot for a returned parcel follows an order that was not held and is. */
  lemma HoldFollows(s: State, before: Order, after: Order)
    requires SameParcel(before, after)
    requires !HeldAt(before.originNodeId)(before) && HeldAt(before.originNodeId)(after)
    ensures NodesFollow(s, HoldReturnedParcel(s, before.originNodeId), before, after)
  {
  }

  /** Only a pickup ends an order's hold on its origin, and only a return renews it. */
  lemma HoldAfterEvent(order: Order, event: LegEvent)
    requires LegAccepts(order, event) && InStep(order)
    ensures var held, after := HeldAt(order.originNodeId)(order), HeldAt(order.originNodeId)(AfterEvent(order, event));
            match event
            case ParcelPickedUp => held && !after
            case ParcelReturned => !held && after
            case _ => held == after
    ensures BeforePickup(AfterEvent(order, event).status) ==> BeforePickup(order.status)
    ensures SameParcel(order, AfterEvent(order, event)) && AfterEvent(order, event).shelf in {None, order.shelf}
  {
  }

  lemma SameHoldFollows(s: State, before: Order, after: Order)
    requires SameParcel(before, after)
    requires HeldAt(before.originNodeId)(before) == HeldAt(before.originNodeId)(after)
    ensures NodesFollow(s, s, before, after)
  {
    assert forall n :: HeldAt(n)(before) == HeldAt(n)(after);
  }

  /** The counters of the Nodes move as the order's hold on its origin does, and the
      clamp at zero never fires. */
  lemma CountersFollow(s: State, o: OrderId, event: LegEvent, courier: Option<UserId>)
    requires NodesOk(s) && o in s.orders && LegAccepts(s.orders[o], event) && InStep(s.orders[o])
    ensures var after := AfterEvent(s.orders[o], event);
            NodesFollow(s, CountersAfter(s.(orders := s.orders[o := after]), after.originNodeId, event, courier),
                        s.orders[o], after)
  {
    hide AfterEvent, InStep, NodesOk, BeforePickup, BackAtOrigin;
    var before, after := s.orders[o], AfterEvent(s.orders[o], event);
    HoldAfterEvent(before, event);
    match event {
      case ParcelPickedUp => ReleaseFollows(s, o, before, after);
      case ParcelReturned => HoldFollows(s, before, after);
      case _ => SameHoldFollows(s, before, after);
    }
  }

  /** Outside the two counter tables the declared counter effect changes nothing. */
  lemma CountersOnly(s: State, origin: NodeId, event: LegEvent, courier: Option<UserId>)
    ensures var s' := CountersAfter(s, origin, event, courier);
            && s'.orders == s.orders && s'.intents == s.intents && s'.splitRules == s.splitRules
            && s'.paymentKeys == s.paymentKeys && s'.riders.Keys == s.riders.Keys
  {
  }

  /** How many of a rider's orders an accepted event adds or takes away. */
  function LoadChange(order: Order, event: LegEvent, rider: UserId): int
    requires LegAccepts(order, event)
  {
    match event
    case CourierAssigned => One(order.legs[LastIndex(order)].courierUserId == Some(rider))
    case ParcelPickedUp => 0
    case AttemptFailed => 0
    case ParcelReturned => 0
    case _ => 0 - One(CarriedBy(rider)(order))
  }

  /** What it does to the rider's counter: the end of custody frees a slot. */
  function CounterChange(order: Order, event: LegEvent, rider: UserId): int
    requires LegAccepts(order, event)
  {
    if event in {ParcelDelivered, ParcelReturned} then
      0 - One(order.legs[LastIndex(order)].courierUserId == Some(rider))
    else 0
  }

  lemma LoadAfterEvent(order: Order, event: LegEvent, rider: UserId)
    requires LegAccepts(order, event) && InStep(order)
    ensures One(CarriedBy(rider)(AfterEvent(order, event))) ==
              One(CarriedBy(rider)(order)) + LoadChange(order, event, rider)
  {
  }

  lemma CounterAfterEvent(s: State, order: Order, event: LegEvent, rider: UserId)
    requires LegAccepts(order, event) && rider in s.riders
    requires CounterChange(order, event, rider) != 0 ==> s.riders[rider].currentActiveOrderCount > 0
    ensures var s' := CountersAfter(s, order.originNodeId, event, order.legs[LastIndex(order)].courierUserId);
            && rider in s'.riders
            && s'.riders[rider].currentActiveOrderCount ==
                 s.riders[rider].currentActiveOrderCount + CounterChange(order, event, rider)
  {
  }

  /** An accepted event changes a rider's drift by exactly the difference between what
      it does to their counter and what it does to their load. */
  lemma MoveDrift(s: State, o: OrderId, event: LegEvent, rider: UserId)
    requires o in s.orders && LegAccepts(s.orders[o], event) && InStep(s.orders[o])
    requires rider in s.riders
    requires CounterChange(s.orders[o], event, rider) != 0 ==> s.riders[rider].currentActiveOrderCount > 0
    ensures Move(s, o, LastIndex(s.orders[o]), event).Success?
    ensures var s' := Move(s, o, LastIndex(s.orders[o]), event).value;
            && rider in s'.riders
            && Drift(s', rider) == Drift(s, rider)
                 + CounterChange(s.orders[o], event, rider) - LoadChange(s.orders[o], event, rider)
  {
    var order := s.orders[o];
    ListenerAccepts(s, o, event);
    var after := AfterEvent(order, event);
    var s1 := s.(orders := s.orders[o := after]);
    var s' := Move(s, o, LastIndex(order), event).value;
    CountersOnly(s1, order.originNodeId, event, after.legs[LastIndex(order)].courierUserId);
    CounterAfterEvent(s1, order, event, rider);
    LoadAfterEvent(order, event, rider);
    DriftAfterChange(s, s', o, after, rider);
  }
}
