/** The in-house pool: a rider's claim, pickup and arrival keep every table's
    invariant, and succeed exactly when they should. */
module InHouseSteps {
  import opened Wrappers
  import opened DeliveryLeg
  import opened OrderRules
  import opened Routing
  import opened HandoffCodes
  import opened Money
  import opened Model
  import opened Capacity
  import opened DeliveryDispatch
  import opened DeliveryEvents
  import opened Handoffs
  import opened Invariants
  import opened LegProtocol
  import opened LegSteps
  import opened LegTransactions

  /** The order whose leg a claim is for: one that waits without a leg gets one. */
  function Claimable(order: Order): Order {
    if ActiveLeg(order.legs).Some? then order else WithNewLeg(order, InHouse)
  }

  function WithCourier(order: Order, rider: UserId): Order
    requires order.legs != []
  {
    order.(legs := order.legs[LastIndex(order) := order.legs[LastIndex(order)].(courierUserId := Some(rider))])
  }

  /** Waits at its origin, in the in-house pool or with no courier at all. */
  predicate InPool(order: Order) {
    && order.status == ReceivedAtOrigin
    && (LastLeg(order).None? || LastLeg(order).value.status == Cancelled
        || (LastLeg(order).value.status == Requested && LastLeg(order).value.providerKey == InHouse))
  }

  lemma ActiveIsLastOf(legs: seq<Leg>)
    requires LegsOk(legs) && ActiveLeg(legs).Some?
    ensures ActiveLeg(legs).value == |legs| - 1
  {
  }

  lemma ActiveIsLast(order: Order, rules: seq<SplitRule>)
    requires OrderOk(order, rules) && ActiveLeg(order.legs).Some?
    ensures ActiveLeg(order.legs).value == LastIndex(order)
  {
  }

  lemma ClaimWithoutLeg(s: State, o: OrderId, rider: UserId)
    requires o in s.orders && ActiveLeg(s.orders[o].legs).None?
    ensures var claimed := WithCourier(WithNewLeg(s.orders[o], InHouse), rider);
            AssignInHouseRider(s, o, rider) ==
              Move(s.(orders := s.orders[o := claimed]), o, LastIndex(claimed), CourierAssigned)
  {
    var claimable := WithNewLeg(s.orders[o], InHouse);
    Overwrite(s.orders, o, claimable, WithCourier(claimable, rider));
  }

  lemma ClaimOfActiveLeg(s: State, o: OrderId, rider: UserId)
    requires o in s.orders && ActiveLeg(s.orders[o].legs) == Some(|s.orders[o].legs| - 1)
    ensures var claimed := WithCourier(s.orders[o], rider);
            var leg := s.orders[o].legs[|s.orders[o].legs| - 1];
            AssignInHouseRider(s, o, rider) ==
              if leg.providerKey == InHouse && leg.status == Requested then
                Move(s.(orders := s.orders[o := claimed]), o, LastIndex(claimed), CourierAssigned)
              else Failure(NotClaimable)
  {
  }

  /** Only an order that waits at its origin can be given to a rider. */
  lemma ClaimNeedsWaiting(s: State, o: OrderId)
    requires o in s.orders && LegAccepts(s.orders[o], CourierAssigned)
    requires s.orders[o].legs[LastIndex(s.orders[o])].courierUserId.Some?
    ensures Move(s, o, LastIndex(s.orders[o]), CourierAssigned).Success? ==> s.orders[o].status == ReceivedAtOrigin
  {
  }

  /** An order with no leg in progress can be claimed exactly if it waits at its origin. */
  lemma ClaimResultWithoutLeg(s: State, o: OrderId, rider: UserId)
    requires o in s.orders && OrderOk(s.orders[o], s.splitRules) && ActiveLeg(s.orders[o].legs).None?
    ensures AssignInHouseRider(s, o, rider).Success? ==> InPool(s.orders[o])
    ensures var claimed := WithCourier(WithNewLeg(s.orders[o], InHouse), rider);
            && LegAccepts(claimed, CourierAssigned)
            && AssignInHouseRider(s, o, rider) ==
                 Move(s.(orders := s.orders[o := claimed]), o, LastIndex(claimed), CourierAssigned)
  {
    var claimed := WithCourier(WithNewLeg(s.orders[o], InHouse), rider);
    ClaimWithoutLeg(s, o, rider);
    ClaimNeedsWaiting(s.(orders := s.orders[o := claimed]), o);
    hide AssignInHouseRider, Move;
  }

  /** What a claim amounts to: the rider is put on the latest in-house leg of an order
      in the pool, and that leg is then assigned. Any other order is refused. */
  lemma ClaimResult(s: State, o: OrderId, rider: UserId)
    requires o in s.orders && OrderOk(s.orders[o], s.splitRules)
    ensures AssignInHouseRider(s, o, rider).Success? ==> InPool(s.orders[o])
    ensures InPool(s.orders[o]) ==>
              && Claimable(s.orders[o]).legs != []
              && var claimed := WithCourier(Claimable(s.orders[o]), rider);
              && LegAccepts(claimed, CourierAssigned)
              && AssignInHouseRider(s, o, rider) ==
                   Move(s.(orders := s.orders[o := claimed]), o, LastIndex(claimed), CourierAssigned)
  {
    hide AssignInHouseRider, Move;
    if ActiveLeg(s.orders[o].legs).Some? {
      ActiveIsLast(s.orders[o], s.splitRules);
      ClaimOfActiveLeg(s, o, rider);
    } else {
      ClaimResultWithoutLeg(s, o, rider);
    }
  }

  lemma ClaimableIsOk(order: Order, rules: seq<SplitRule>)
    requires OrderOk(order, rules) && InPool(order)
    ensures OrderOk(Claimable(order), rules) && Claimable(order).legs != []
              && Claimable(order).status == ReceivedAtOrigin
    ensures var leg := Claimable(order).legs[LastIndex(Claimable(order))];
            leg.providerKey == InHouse && leg.status == Requested
  {
    if ActiveLeg(order.legs).None? {
      NewLegKeepsOrder(order, InHouse, rules);
    }
  }

  lemma ClaimedIsOk(order: Order, rider: UserId, rules: seq<SplitRule>)
    requires OrderOk(order, rules) && InPool(order)
    ensures Claimable(order).legs != []
    ensures var claimed := WithCourier(Claimable(order), rider);
            && LegAccepts(claimed, CourierAssigned) && InStep(claimed)
            && OrderOk(AfterEvent(claimed, CourierAssigned), rules)
            && AfterEvent(claimed, CourierAssigned).riderId == Some(rider)
            && AfterEvent(claimed, CourierAssigned).status == RiderAssigned
  {
    ClaimableIsOk(order, rules);
    ClaimKeepsCore(Claimable(order), rider, rules);
    EventKeepsKeys(WithCourier(Claimable(order), rider), CourierAssigned);
  }

  /** Accepting an order succeeds exactly when the rider is active with a slot to
      spare and the order is in the pool; the tables stay consistent. */
  lemma AcceptKeepsInv(s: State, o: OrderId, rider: UserId)
    requires Inv(s)
    ensures AcceptOrder(s, o, rider).Success? <==>
              ReserveDeliverySlot(s, rider).Success? && o in s.orders && InPool(s.orders[o])
    ensures AcceptOrder(s, o, rider).Success? ==>
              var s' := AcceptOrder(s, o, rider).value;
              && Inv(s') && o in s'.orders
              && s'.orders[o].status == RiderAssigned && s'.orders[o].riderId == Some(rider)
              && Claimable(s.orders[o]).legs != []
              && LegAccepts(WithCourier(Claimable(s.orders[o]), rider), CourierAssigned)
              && s'.orders == s.orders[o := AfterEvent(WithCourier(Claimable(s.orders[o]), rider), CourierAssigned)]
              && s'.intents == s.intents && s'.splitRules == s.splitRules && s'.paymentKeys == s.paymentKeys
  {
    hide Inv, NodesOk, OneUnusedPerKind, AfterEvent;
    if ReserveDeliverySlot(s, rider).Success? && o in s.orders {
      var s1 := ReserveDeliverySlot(s, rider).value;
      About(s, o);
      ClaimResult(s1, o, rider);
      if InPool(s.orders[o]) {
        hide OrderOk, InPool, AssignInHouseRider;
        var claimed := WithCourier(Claimable(s.orders[o]), rider);
        ClaimedIsOk(s.orders[o], rider, s.splitRules);
        MoveKeepsInv(s, s1.(orders := s.orders[o := claimed]), o, CourierAssigned);
      }
    }
  }

  // ----- Handovers ---------------------------------------------------------

  function LegEventFor(handover: Handover): (Scope, LegEvent, LegStatus) {
    match handover
    case PickupHandover => (PickupScope, ParcelPickedUp, Assigned)
    case ArrivalHandover => (ArrivalScope, ParcelDelivered, PickedUp)
  }

  /** The order has a rider's in-house leg at the point this handover is about. */
  predicate HandoverDue(order: Order, handover: Handover) {
    && LastLeg(order).Some? && LastLeg(order).value.providerKey == InHouse
    && LastLeg(order).value.status == LegEventFor(handover).2
  }

  /** The order once the handover's key is in and its code used. */
  function Proved(order: Order, handover: Handover, codes: seq<Code>): Order {
    order.(keys := order.keys + {ScopeOf(handover)}, codes := codes)
  }

  lemma HandoverKeepsKeys(order: Order, handover: Handover, codes: seq<Code>)
    requires KeysOk(order) && InStep(order) && HandoverDue(order, handover)
    ensures LegAccepts(Proved(order, handover, codes), EventOf(handover))
    ensures KeysOk(AfterEvent(Proved(order, handover, codes), EventOf(handover)))
  {
  }

  lemma HandoverKeepsOrder(order: Order, handover: Handover, codes: seq<Code>, rules: seq<SplitRule>)
    requires OrderOk(order, rules) && HandoverDue(order, handover) && OneUnusedPerKind(codes)
    ensures LegAccepts(Proved(order, handover, codes), EventOf(handover)) && InStep(Proved(order, handover, codes))
    ensures OrderOk(AfterEvent(Proved(order, handover, codes), EventOf(handover)), rules)
  {
    HandoverKeepsKeys(order, handover, codes);
    EventKeepsCore(Proved(order, handover, codes), EventOf(handover), rules);
    hide AfterEvent, KeysOk;
  }

  /** With no leg in progress there is nothing to hand over: the leg that is made on
      the spot is rolled back with the rest. */
  lemma NothingToHandOver(s: State, o: OrderId, event: LegEvent)
    requires event in {ParcelPickedUp, ParcelDelivered}
    requires o in s.orders && ActiveLeg(s.orders[o].legs).None? && InStep(s.orders[o])
    ensures RecordInHouseHandover(s, o, event).Failure?
  {
    var order := s.orders[o];
    assert LastLeg(order).Some? ==> IsTerminal(LastLeg(order).value.status);
    assert order.status !in {RiderAssigned, InTransit};
  }

  lemma HandoverResult(s: State, o: OrderId, handover: Handover, rules: seq<SplitRule>)
    requires o in s.orders && LegsOk(s.orders[o].legs) && Coupled(s.orders[o])
    ensures RecordInHouseHandover(s, o, EventOf(handover)).Success? ==> HandoverDue(s.orders[o], handover)
    ensures HandoverDue(s.orders[o], handover) ==>
              RecordInHouseHandover(s, o, EventOf(handover)) == Move(s, o, LastIndex(s.orders[o]), EventOf(handover))
  {
    if ActiveLeg(s.orders[o].legs).None? {
      hide RecordInHouseHandover, LegsOk;
      NothingToHandOver(s, o, EventOf(handover));
      assert LastLeg(s.orders[o]).Some? ==> IsTerminal(LastLeg(s.orders[o]).value.status);
    } else {
      ActiveIsLastOf(s.orders[o].legs);
      hide Move, Coupled, LegsOk, ActiveLeg;
    }
  }

  /** What a confirmation amounts to, once its code is valid: the proved order's leg is
      moved if it is due, and nothing can be done if it is not. */
  lemma ProvedResult(s: State, o: OrderId, handover: Handover, hash: nat, now: int)
    requires o in s.orders && LegsOk(s.orders[o].legs) && Coupled(s.orders[o])
    requires !AlreadyProcessed(s, o, ScopeOf(handover))
    requires Validate(s.orders[o].codes, KindOf(handover), hash, now).Some?
    ensures var proved := Proved(s.orders[o], handover, Validate(s.orders[o].codes, KindOf(handover), hash, now).value);
            var result := ConfirmHandoff(s, o, handover, hash, now);
            if HandoverDue(s.orders[o], handover) then
              result == Move(s.(orders := s.orders[o := proved]), o, LastIndex(proved), EventOf(handover))
            else result.Failure?
  {
    var codes := Validate(s.orders[o].codes, KindOf(handover), hash, now).value;
    var s1 := SetCodes(InsertKey(s, o, ScopeOf(handover)), o, codes);
    var proved := Proved(s.orders[o], handover, codes);
    assert s1.orders == s.orders[o := proved];
    HandoverResult(s1, o, handover, s.splitRules);
  }

  lemma WrongCodeFails(s: State, o: OrderId, handover: Handover, hash: nat, now: int)
    requires o in s.orders && !AlreadyProcessed(s, o, ScopeOf(handover))
    requires Validate(s.orders[o].codes, KindOf(handover), hash, now).None?
    ensures ConfirmHandoff(s, o, handover, hash, now) == Failure(InvalidCode)
  {
  }

  /** A handover that has not been confirmed yet succeeds exactly when the code is
      valid and the rider's leg is at that point; the tables stay consistent. */
  lemma HandoffKeepsInv(s: State, o: OrderId, handover: Handover, hash: nat, now: int)
    requires Inv(s) && o in s.orders && !AlreadyProcessed(s, o, ScopeOf(handover))
    ensures ConfirmHandoff(s, o, handover, hash, now).Success? <==>
              Validate(s.orders[o].codes, KindOf(handover), hash, now).Some? && HandoverDue(s.orders[o], handover)
    ensures ConfirmHandoff(s, o, handover, hash, now).Success? ==>
              var s' := ConfirmHandoff(s, o, handover, hash, now).value;
              var proved := Proved(s.orders[o], handover,
                                   Validate(s.orders[o].codes, KindOf(handover), hash, now).value);
              && Inv(s') && LegAccepts(proved, EventOf(handover))
              && s'.orders == s.orders[o := AfterEvent(proved, EventOf(handover))]
              && s'.intents == s.intents && s'.splitRules == s.splitRules && s'.paymentKeys == s.paymentKeys
  {
    hide Inv, ConfirmHandoff, Validate, AfterEvent, OneUnusedPerKind, ReplayLog, KeysOk, ShelfOk, MoneyOk, NodesOk;
    var order := s.orders[o];
    var checked := Validate(order.codes, KindOf(handover), hash, now);
    if checked.None? {
      WrongCodeFails(s, o, handover, hash, now);
    } else {
      About(s, o);
      ProvedResult(s, o, handover, hash, now);
      if HandoverDue(order, handover) {
        var proved := Proved(order, handover, checked.value);
        ValidateConsumes(order.codes, KindOf(handover), hash, now);
        HandoverKeepsOrder(order, handover, checked.value, s.splitRules);
        RiderStaysKnown(s, proved, EventOf(handover));
        hide OrderOk, Coupled, LegsOk;
        MoveKeepsInv(s, s.(orders := s.orders[o := proved]), o, EventOf(handover));
      }
    }
  }
}
