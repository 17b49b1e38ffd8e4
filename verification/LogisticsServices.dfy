/** The logistics services and the listener that follows them, updating the tables in
    place: dispatching, moving legs, catching up with couriers. */
module LogisticsServices {
  import opened Wrappers
  import opened DeliveryLeg
  import opened OrderRules
  import opened Routing
  import opened Model
  import opened CapacityServices
  import opened OrdersServices
  import Dispatching = DeliveryDispatch
  import Progress
  import Events = DeliveryEvents

  class DeliveryDispatchService {
    const db: Database

    constructor (db: Database)
      ensures this.db == db
    {
      this.db := db;
    }

    /** Finds the order a courier, unless it has a leg in progress. */
    method Dispatch(o: OrderId, force: Option<ProviderKey>, env: RoutingEnv)
      requires o in db.orders
      modifies db
      ensures db.Tables() == Dispatching.Dispatch(old(db.Tables()), o, force, env)
    {
      var order := db.orders[o];
      if Dispatching.ActiveLeg(order.legs).Some? {
        return;
      }
      var choice: Option<ProviderKey>;
      if force.Some? {
        choice := if force.value in env.registered then force else None;
      } else {
        choice := Dispatching.ChooseFor(order, env);
      }
      if choice.Some? {
        var leg := Dispatching.NewLeg(choice.value, Requested, |order.legs| + 1, None);
        db.orders := db.orders[o := order.(legs := order.legs + [leg])];
      }
    }

    method SaveLeg(o: OrderId, i: nat, leg: Leg)
      requires Dispatching.HasLeg(db.Tables(), o, i)
      modifies db
      ensures db.Tables() == Dispatching.SetLeg(old(db.Tables()), o, i, leg)
    {
      db.orders := db.orders[o := db.orders[o].(legs := db.orders[o].legs[i := leg])];
    }

    /** The outbox handler that submits a leg to its courier. */
    method Submit(o: OrderId, i: nat, reply: Dispatching.SubmitReply, env: RoutingEnv)
      modifies db
      ensures db.Tables() == Dispatching.Submit(old(db.Tables()), o, i, reply, env)
    {
      if o !in db.orders || i >= |db.orders[o].legs| {
        return;
      }
      var leg := db.orders[o].legs[i];
      if leg.status != Requested || leg.externalId.Some? || !Dispatching.RemoteSubmission(leg.providerKey) {
        return;
      }
      match reply
      case Retryable =>
      case Accepted(externalId) => SaveLeg(o, i, leg.(externalId := Some(externalId)));
      case Refused =>
        SaveLeg(o, i, leg.(status := Cancelled, ended := true));
        Dispatch(o, None, env);
    }
  }

  class DeliveryProgressListener {
    const db: Database
    const ordersService: OrdersService
    const nodesService: NodesService
    const riderCapacityService: RiderCapacityService

    predicate Wired() {
      ordersService.db == db && nodesService.db == db && riderCapacityService.db == db
    }

    constructor (db: Database)
      ensures this.db == db && Wired()
    {
      this.db := db;
      ordersService := new OrdersService(db);
      nodesService := new NodesService(db);
      riderCapacityService := new RiderCapacityService(db);
    }

    method OnDeliveryEvent(o: OrderId, event: LegEvent, courier: Option<UserId>) returns (outcome: Outcome)
      requires Wired()
      modifies db
      ensures Ends(outcome, db.Tables(), Progress.OnDeliveryEvent(old(db.Tables()), o, event, courier))
    {
      outcome := Pass;
      match event
      case CourierAssigned =>
        if courier.Some? {
          outcome := ordersService.AssignRider(o, courier.value);
        } else {
          outcome := ordersService.MarkCourierAssigned(o);
        }
      case ParcelPickedUp =>
        outcome := ordersService.MarkPickedUpByRider(o);
        if outcome.Pass? {
          nodesService.ReleaseCapacitySlot(db.orders[o].originNodeId);
        }
      case ParcelDelivered =>
        outcome := ordersService.MarkArrivedAtDestination(o);
        if outcome.Pass? && courier.Some? {
          riderCapacityService.ReleaseDeliverySlot(courier.value);
        }
      case AttemptFailed =>
      case CourierReleased =>
        if o in db.orders && db.orders[o].status == RiderAssigned {
          outcome := ordersService.MarkCourierReleased(o);
        }
      case LegCancelled =>
        if o in db.orders && db.orders[o].status == RiderAssigned {
          outcome := ordersService.MarkCourierReleased(o);
        }
      case ReturnStarted =>
        outcome := ordersService.MarkReturning(o);
      case ParcelReturned =>
        outcome := ordersService.MarkReturnedToOrigin(o);
        if outcome.Pass? {
          nodesService.HoldReturnedParcel(db.orders[o].originNodeId);
          if courier.Some? {
            riderCapacityService.ReleaseDeliverySlot(courier.value);
          }
        }
    }
  }

  class DeliveryEventsService {
    const db: Database
    const listener: DeliveryProgressListener
    const dispatchService: DeliveryDispatchService

    predicate Wired() {
      listener.db == db && listener.Wired() && dispatchService.db == db
    }

    constructor (db: Database)
      ensures this.db == db && Wired()
    {
      this.db := db;
      listener := new DeliveryProgressListener(db);
      dispatchService := new DeliveryDispatchService(db);
    }

    /** Moves a leg if the event applies, saves it and publishes the event. */
    method Move(o: OrderId, i: nat, event: LegEvent) returns (outcome: Outcome)
      requires Wired() && Dispatching.HasLeg(db.Tables(), o, i)
      modifies db
      ensures Ends(outcome, db.Tables(), Events.Move(old(db.Tables()), o, i, event))
    {
      var leg := db.orders[o].legs[i];
      var next := NextLegStatus(leg.status, event);
      if next.None? {
        return Pass;
      }
      if event == CourierReleased {
        leg := leg.(courierUserId := None);
      }
      leg := leg.(status := next.value);
      if IsTerminal(next.value) {
        leg := leg.(ended := true);
      }
      dispatchService.SaveLeg(o, i, leg);
      outcome := listener.OnDeliveryEvent(o, event, leg.courierUserId);
    }

    method Apply(o: OrderId, i: nat, event: LegEvent, routeTo: Option<ProviderKey>, env: RoutingEnv)
      returns (outcome: Outcome)
      requires Wired() && Dispatching.HasLeg(db.Tables(), o, i)
      modifies db
      ensures Ends(outcome, db.Tables(), Events.Apply(old(db.Tables()), o, i, event, routeTo, env))
    {
      var applies := NextLegStatus(db.orders[o].legs[i].status, event).Some?;
      outcome := Move(o, i, event);
      if outcome.Pass? && applies && event == LegCancelled && o in db.orders {
        dispatchService.Dispatch(o, routeTo, env);
      }
    }

    /** The order's leg in progress, or an in-house one made on the spot. */
    method LegToMove(o: OrderId, status: LegStatus, courier: Option<UserId>) returns (i: nat)
      requires o in db.orders
      modifies db
      ensures (db.Tables(), i) == Events.LegToMove(old(db.Tables()), o, status, courier)
      ensures Dispatching.HasLeg(db.Tables(), o, i)
    {
      var order := db.orders[o];
      var active := Dispatching.ActiveLeg(order.legs);
      if active.Some? {
        return active.value;
      }
      var leg := Dispatching.NewLeg(InHouse, status, |order.legs| + 1, courier);
      db.orders := db.orders[o := order.(legs := order.legs + [leg])];
      return |order.legs|;
    }

    method AssignInHouseRider(o: OrderId, rider: UserId) returns (outcome: Outcome)
      requires Wired()
      modifies db
      ensures Ends(outcome, db.Tables(), Events.AssignInHouseRider(old(db.Tables()), o, rider))
    {
      if o !in db.orders {
        return Fail(NotFound);
      }
      var i := LegToMove(o, Requested, None);
      var leg := db.orders[o].legs[i];
      if leg.providerKey != InHouse || leg.status != Requested {
        return Fail(NotClaimable);
      }
      dispatchService.SaveLeg(o, i, leg.(courierUserId := Some(rider)));
      outcome := Move(o, i, CourierAssigned);
    }

    method RecordInHouseHandover(o: OrderId, event: LegEvent) returns (outcome: Outcome)
      requires Wired() && event in {ParcelPickedUp, ParcelDelivered}
      modifies db
      ensures Ends(outcome, db.Tables(), Events.RecordInHouseHandover(old(db.Tables()), o, event))
    {
      if o !in db.orders {
        return Fail(NotFound);
      }
      var i := LegToMove(o, if event == ParcelPickedUp then Assigned else PickedUp, db.orders[o].riderId);
      var leg := db.orders[o].legs[i];
      if leg.providerKey != InHouse || NextLegStatus(leg.status, event).None? {
        return Fail(NotClaimable);
      }
      outcome := Move(o, i, event);
    }

    /** Brings a leg in line with a provider's snapshot, one event at a time. */
    method SyncFromSnapshot(o: OrderId, i: nat, snapshot: Events.Snapshot, env: RoutingEnv) returns (outcome: Outcome)
      requires Wired()
      modifies db
      ensures Ends(outcome, db.Tables(), Events.SyncFromSnapshot(old(db.Tables()), o, i, snapshot, env))
    {
      if o !in db.orders || i >= |db.orders[o].legs| {
        return Pass;
      }
      var leg := db.orders[o].legs[i];
      if !Events.Matches(leg, snapshot) || Events.Stale(leg, snapshot) {
        return Pass;
      }
      dispatchService.SaveLeg(o, i, leg.(providerSequence := snapshot.sequence));
      var steps := CatchUpEvents(leg.status, snapshot.status);
      ghost var goal := Events.ApplyAll(db.Tables(), o, i, steps, env);
      for k := 0 to |steps|
        invariant Dispatching.HasLeg(db.Tables(), o, i)
        invariant Events.ApplyAll(db.Tables(), o, i, steps[k..], env) == goal
      {
        ghost var before := db.Tables();
        outcome := Apply(o, i, steps[k], None, env);
        Events.ApplyKeepsLeg(before, o, i, steps[k], None, env);
        assert steps[k..][0] == steps[k] && steps[k..][1..] == steps[k + 1..];
        if outcome.Fail? {
          return;
        }
      }
      return Pass;
    }

    /** Ends a leg from our side, in a transaction of its own. */
    method CancelLeg(o: OrderId, i: nat, routeTo: Option<ProviderKey>, env: RoutingEnv) returns (outcome: Outcome)
      requires Wired()
      modifies db
      ensures EndsAtomically(outcome, old(db.Tables()), db.Tables(),
                             Events.CancelLeg(old(db.Tables()), o, i, routeTo, env))
    {
      var saved := db.Tables();
      if o !in db.orders || i >= |db.orders[o].legs| {
        return Pass;
      }
      outcome := Apply(o, i, LegCancelled, routeTo, env);
      if outcome.Fail? {
        db.Rollback(saved);
      }
    }

    /** A poll or a queued webhook: one snapshot, in a transaction of its own. */
    method ReceiveSnapshot(o: OrderId, i: nat, snapshot: Events.Snapshot, env: RoutingEnv) returns (outcome: Outcome)
      requires Wired()
      modifies db
      ensures EndsAtomically(outcome, old(db.Tables()), db.Tables(),
                             Events.SyncFromSnapshot(old(db.Tables()), o, i, snapshot, env))
    {
      var saved := db.Tables();
      outcome := SyncFromSnapshot(o, i, snapshot, env);
      if outcome.Fail? {
        db.Rollback(saved);
      }
    }
  }
}
