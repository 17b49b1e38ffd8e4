/** Concrete runs of the code where a promise fails; the exact condition for each is
    proved elsewhere. */
module Counterexamples {
  import opened Wrappers
  import opened Counting
  import opened DeliveryLeg
  import opened OrderRules
  import opened Routing
  import opened Money
  import opened Model
  import Capacity
  import Orders
  import opened Shelves
  import opened DeliveryDispatch
  import opened DeliveryEvents
  import opened Payments
  import opened Handoffs
  import opened RiderCounter
  import opened Rerouting
  import opened Runs

  const PRICING := PricingRule(0, 0, 0, 1.0, map[Motorbike := VehicleRate(100_000, 0)])

  const IN_HOUSE_ROW := ProviderConfig(InHouse, 0, true, 1, 1, None, None, None, [Bicycle, Motorbike, Car])

  const ENV := RoutingEnv([IN_HOUSE_ROW], {InHouse}, 1.0)

  /** One Node with room for one parcel and one active rider. */
  const START := State(map[], {}, map[], map[0 := NodeRow(1, 0)], map[7 := RiderRow(true, 0)], [])

  const BOOKED := Intent(0, 0, Some(Motorbike), 100_000, 0, Pending, None)

  const CHECKOUT := Checkout(1, 0, 0, Motorbike, PRICING, 0.0, None)

  lemma CheckoutBooks()
    ensures Next(START, CHECKOUT) == START.(intents := map[1 := BOOKED], nodes := map[0 := NodeRow(1, 1)])
  {
    assert CalculateFee(PRICING, 0.0, None, Motorbike) == FeeBreakdown(100_000, 0, 100_000);
  }

  const REFERENCED := START.(intents := map[1 := BOOKED.(providerReference := Some(1))],
                             nodes := map[0 := NodeRow(1, 1)])

  lemma ReferenceIsWritten()
    ensures Next(Next(START, CHECKOUT), WriteReference(1)) == REFERENCED
  {
    CheckoutBooks();
  }

  const CHARGE := Verification(true, 100_000)

  /** A charge that the provider first reports with another amount is lost: the key is
      spent, and the same charge reported right the next time changes nothing. */
  lemma ChargeIsLost()
    ensures REFERENCED.intents[1].status == Pending
    ensures var s1 := Next(REFERENCED, Webhook(1, Some(Verification(true, 99_999)), 5));
            Next(s1, Webhook(1, Some(CHARGE), 5)) == s1 && s1.intents[1].status == Pending && s1.orders == map[]
    ensures Next(REFERENCED, Webhook(1, Some(CHARGE), 5)).intents[1].status == Paid
  {
  }

  const PLACED := OrderOf(1, BOOKED.(providerReference := Some(1), status := Paid))

  const PAID := REFERENCED.(intents := map[1 := BOOKED.(providerReference := Some(1), status := Paid)],
                            paymentKeys := {1}, orders := map[5 := PLACED])

  lemma ChargePays()
    ensures Next(REFERENCED, Webhook(1, Some(CHARGE), 5)) == PAID
  {
  }

  /** The only parcel at a Node gets the first shelf number. */
  lemma FirstShelf(orders: map<OrderId, Order>)
    requires forall o :: o in orders ==> orders[o].shelf.None?
    ensures LowestFree(orders, 0) == 1
  {
    assert ShelvedAt(orders, 0) == {};
  }

  lemma PoolIsChosen(order: Order)
    requires order.vehicleClass == Some(Motorbike) && Attempts(order.legs, InHouse) == 0
    ensures ChooseFor(order, ENV) == Some(InHouse)
  {
    ChooseProviderIsLeast(ENV.configs, ENV.registered, ContextOf(order, ENV));
    assert IN_HOUSE_ROW in ENV.configs && Eligible(IN_HOUSE_ROW, ENV.registered, ContextOf(order, ENV));
  }

  const POOLED := NewLeg(InHouse, Requested, 1, None)

  const WAITING := PLACED.(keys := {DropOffScope}, status := ReceivedAtOrigin, log := [LogPlaced] + [LogReceived],
                           shelf := Some(Shelf(0, 1)), legs := [POOLED])

  const KEYED := PAID.(orders := map[5 := PLACED.(keys := {DropOffScope})])

  const SHELVED := PAID.(orders := map[5 := WAITING.(legs := [])])

  lemma KeyIsInserted()
    ensures InsertKey(PAID, 5, DropOffScope) == KEYED
  {
    assert PLACED.keys + {DropOffScope} == {DropOffScope};
  }

  lemma ParcelIsShelved()
    ensures Orders.MarkReceivedAtOrigin(KEYED, 5) == Success(SHELVED)
  {
    var s0 := Orders.Transition(KEYED, 5, AwaitingDropOff, ReceivedAtOrigin, LogReceived).value;
    FirstShelf(s0.orders);
    hide LowestFree;
    assert Orders.PlaceOnShelf(s0, 5, 0).orders == SHELVED.orders;
  }

  lemma LegIsAdded()
    ensures Dispatch(SHELVED, 5, None, ENV) == PAID.(orders := map[5 := WAITING])
  {
    PoolIsChosen(SHELVED.orders[5]);
    hide ChooseFor;
    var s2 := Dispatch(SHELVED, 5, None, ENV);
    assert s2.orders[5].legs == [] + [POOLED] == [POOLED];
    assert s2.orders == map[5 := WAITING];
  }

  lemma ParcelIsDroppedOff()
    ensures Next(PAID, DropOff(5, ENV)) == PAID.(orders := map[5 := WAITING])
  {
    hide Dispatch, InsertKey, Orders.MarkReceivedAtOrigin;
    KeyIsInserted();
    ParcelIsShelved();
    LegIsAdded();
  }

  const CLAIMED := WAITING.(status := RiderAssigned, riderId := Some(7), log := WAITING.log + [LogRiderAssigned],
                            legs := [POOLED.(status := Assigned, courierUserId := Some(7))])

  lemma AcceptUnfolds(s: State)
    requires Capacity.ReserveDeliverySlot(s, 7).Success?
    requires AssignInHouseRider(Capacity.ReserveDeliverySlot(s, 7).value, 5, 7).Success?
    ensures Next(s, Accept(5, 7)) == AssignInHouseRider(Capacity.ReserveDeliverySlot(s, 7).value, 5, 7).value
  {
    hide AssignInHouseRider;
  }

  lemma OrderIsClaimed()
    ensures Next(PAID.(orders := map[5 := WAITING]), Accept(5, 7)) ==
            PAID.(orders := map[5 := CLAIMED], riders := map[7 := RiderRow(true, 1)])
  {
    var s1 := Capacity.ReserveDeliverySlot(PAID.(orders := map[5 := WAITING]), 7).value;
    assert s1.riders == map[7 := RiderRow(true, 1)];
    hide AssignInHouseRider, Next;
    PoolLegIsAssigned(s1);
    AcceptUnfolds(PAID.(orders := map[5 := WAITING]));
  }

  lemma PoolLegIsAssigned(s1: State)
    requires s1.orders == map[5 := WAITING]
    ensures AssignInHouseRider(s1, 5, 7) == Success(s1.(orders := map[5 := CLAIMED]))
  {
    var s2 := s1.(orders := s1.orders[5 := WAITING.(legs := [POOLED.(courierUserId := Some(7))])]);
    assert ActiveLeg(WAITING.legs) == Some(0);
    assert [POOLED][0 := POOLED.(courierUserId := Some(7))] == [POOLED.(courierUserId := Some(7))];
    assert [POOLED.(courierUserId := Some(7))][0 := CLAIMED.legs[0]] == CLAIMED.legs;
    assert Move(s2, 5, 0, CourierAssigned).Success?;
    assert Move(s2, 5, 0, CourierAssigned).value.orders[5] == CLAIMED;
    assert Move(s2, 5, 0, CourierAssigned).value.orders == map[5 := CLAIMED];
  }

  const CLAIMED_TABLES := PAID.(orders := map[5 := CLAIMED], riders := map[7 := RiderRow(true, 1)])

  const BOOKING := [] + [CHECKOUT] + [WriteReference(1)] + [Webhook(1, Some(CHARGE), 5)]

  const CLAIM := BOOKING + [DropOff(5, ENV)] + [Accept(5, 7)]

  const CANCELLATION := Cancel(5, 0, None, ENV)

  lemma {:induction false} ClaimsAppend(s: State, steps: seq<Step>, last: Step, rider: UserId)
    ensures CancelledClaims(s, steps + [last], rider) ==
            CancelledClaims(s, steps, rider) + One(CancelsClaim(Run(s, steps), last, rider))
    decreases |steps|
  {
    if steps == [] {
      assert [last][1..] == [];
    } else {
      assert (steps + [last])[1..] == steps[1..] + [last];
      ClaimsAppend(Next(s, steps[0]), steps[1..], last, rider);
    }
    hide Next;
  }

  lemma BookingLeadsTo()
    ensures Run(START, BOOKING) == PAID && ValidSteps(BOOKING) && Initial(START)
  {
    CheckoutBooks();
    ReferenceIsWritten();
    ChargePays();
    RunAppend(START, [], CHECKOUT);
    RunAppend(START, [] + [CHECKOUT], WriteReference(1));
    RunAppend(START, [] + [CHECKOUT] + [WriteReference(1)], Webhook(1, Some(CHARGE), 5));
    hide Next;
  }

  lemma ClaimLeadsTo()
    ensures Run(START, CLAIM) == CLAIMED_TABLES && ValidSteps(CLAIM) && Initial(START)
  {
    BookingLeadsTo();
    ParcelIsDroppedOff();
    OrderIsClaimed();
    RunAppend(START, BOOKING, DropOff(5, ENV));
    RunAppend(START, BOOKING + [DropOff(5, ENV)], Accept(5, 7));
    hide Next;
  }

  /** If the in-house pool is given an assignment timeout, a rider's claim can be
      cancelled, and then the rider's counter stays above what they carry. */
  lemma CancelledClaimDrifts()
    ensures Initial(START) && ValidSteps(CLAIM + [CANCELLATION])
    ensures var s := Run(START, CLAIM + [CANCELLATION]);
            7 in s.riders && s.riders[7].currentActiveOrderCount > |AuditedLoad(s, 7)|
  {
    ClaimLeadsTo();
    ClaimsAppend(START, CLAIM, CANCELLATION, 7);
    assert CancelsClaim(CLAIMED_TABLES, CANCELLATION, 7);
    RiderCounterIsAudit(START, CLAIM + [CANCELLATION], 7);
  }

  /** And with its one attempt used up, the parcel is stranded: it waits for a courier
      and no leg is in progress. */
  lemma CancelledClaimStrands()
    ensures Run(START, CLAIM) == CLAIMED_TABLES
    ensures var s := Next(CLAIMED_TABLES, CANCELLATION);
            5 in s.orders && NeedsCourier(s.orders[5].status) && ActiveLegs(s.orders[5]) == {}
  {
    ClaimLeadsTo();
    ClaimIsCancelled();
    CancelUnfolds(CLAIMED_TABLES, 5, 0, None, ENV);
    hide Run, Next, Move;
    NoOneElse(Move(CLAIMED_TABLES, 5, 0, LegCancelled).value.orders[5]);
  }

  lemma ClaimIsCancelled()
    ensures Move(CLAIMED_TABLES, 5, 0, LegCancelled).Success?
    ensures var s := Move(CLAIMED_TABLES, 5, 0, LegCancelled).value;
            && 5 in s.orders && s.orders[5].status == ReceivedAtOrigin
            && s.orders[5].legs == [CLAIMED.legs[0].(status := Cancelled, ended := true)]
  {
    var ended := CLAIMED.legs[0].(status := Cancelled, ended := true);
    assert CLAIMED.legs[0 := ended] == [ended];
  }

  lemma NoOneElse(order: Order)
    requires Attempts(order.legs, InHouse) == 1
    ensures ChooseFor(order, ENV) == None
  {
    ChooseProviderIsLeast(ENV.configs, ENV.registered, ContextOf(order, ENV));
    assert forall c :: c in ENV.configs ==> c == IN_HOUSE_ROW;
  }
}
