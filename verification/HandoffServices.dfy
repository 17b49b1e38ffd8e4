/** The counter services: each method is one HTTP request's transaction, run under its
    idempotency key and rolled back when it throws. */
module HandoffServices {
  import opened Wrappers
  import opened OrderRules
  import opened HandoffCodes
  import opened Money
  import opened Model
  import opened CapacityServices
  import opened OrdersServices
  import opened LogisticsServices
  import opened DeliveryEvents
  import opened Handoffs
  import opened Invariants
  import opened LegEffects
  import opened Runs

  class IdempotencyService {
    const db: Database

    constructor (db: Database)
      ensures this.db == db
    {
      this.db := db;
    }

    /** Inserts the key, unless it is there already. */
    method Insert(o: OrderId, scope: Scope) returns (inserted: bool)
      requires o in db.orders
      modifies db
      ensures inserted == !AlreadyProcessed(old(db.Tables()), o, scope)
      ensures db.Tables() == if inserted then InsertKey(old(db.Tables()), o, scope) else old(db.Tables())
    {
      inserted := scope !in db.orders[o].keys;
      if inserted {
        db.orders := db.orders[o := db.orders[o].(keys := db.orders[o].keys + {scope})];
      }
    }
  }

  class HandoffCodeService {
    const db: Database

    constructor (db: Database)
      ensures this.db == db
    {
      this.db := db;
    }

    /** Supersedes the unused codes of this kind and inserts the new one. */
    method IssueNew(o: OrderId, kind: CodeKind, hash: nat, expiresAt: int)
      requires o in db.orders
      modifies db
      ensures db.Tables() == IssueCode(old(db.Tables()), o, kind, hash, expiresAt)
    {
      var codes := WithoutUnused(db.orders[o].codes, kind);
      codes := codes + [Code(kind, hash, expiresAt, false, 0)];
      db.orders := db.orders[o := db.orders[o].(codes := codes)];
    }

    /** Checks a code. A success is part of the transaction; the count of a failure goes
        into `committed`, the tables as everyone else sees them, on a connection of its
        own, so that it outlives the rollback. */
    method Check(o: OrderId, kind: CodeKind, hash: nat, now: int, committed: State)
      returns (outcome: Outcome, committed': State)
      requires o in db.orders && o in committed.orders && committed.orders[o].codes == db.orders[o].codes
      modifies db
      ensures Ends(outcome, db.Tables(), ValidateCode(old(db.Tables()), o, kind, hash, now))
      ensures committed' == if outcome.Pass? then committed
                            else SetCodes(committed, o, CountFailure(committed.orders[o].codes, kind))
    {
      var codes := db.orders[o].codes;
      var latest := LatestUnused(codes, kind);
      if latest.None? {
        assert committed.orders[o := committed.orders[o]] == committed.orders;
        return Fail(InvalidCode), committed;
      }
      var row := codes[latest.value];
      if !IsValid(row, hash, now) {
        var counted := codes[latest.value := row.(failedAttempts := row.failedAttempts + 1)];
        return Fail(InvalidCode), SetCodes(committed, o, counted);
      }
      db.orders := db.orders[o := db.orders[o].(codes := codes[latest.value := row.(used := true)])];
      return Pass, committed;
    }
  }

  class RecordRevenueSplitService {
    const db: Database

    constructor (db: Database)
      ensures this.db == db
    {
      this.db := db;
    }

    /** Writes the four entries of a completed order under the newest rule. */
    method Record(o: OrderId) returns (outcome: Outcome)
      requires o in db.orders
      modifies db
      ensures EndsAtomically(outcome, old(db.Tables()), db.Tables(), RecordSplit(old(db.Tables()), o))
    {
      if db.splitRules == [] {
        return Fail(NotConfigured);
      }
      var order, ruleId := db.orders[o], |db.splitRules| - 1;
      var rule := db.splitRules[ruleId];
      var shares := CalculateSplit(order.amountKobo - order.destinationFeeKobo, rule.riderPercent, rule.nodePercent);
      var riderEntry := if order.riderId.Some? then
        Entry(RiderParty, order.riderId, shares.riderShareKobo, ruleId, true)
                        else Entry(CourierAllocation, None, shares.riderShareKobo, ruleId, false);
      var entries := [riderEntry,
                      Entry(OriginNode, Some(order.originNodeId), shares.nodeShareKobo, ruleId, true),
                      Entry(DestinationNode, Some(order.destinationNodeId), order.destinationFeeKobo, ruleId, true),
                      Entry(Platform, None, shares.platformShareKobo, ruleId, true)];
      db.orders := db.orders[o := order.(entries := order.entries + entries)];
      return Pass;
    }
  }

  lemma IssueLateUnfolds(s: State, o: OrderId, kind: CodeKind, hash: nat, expiresAt: int)
    ensures Next(s, Step.IssueLate(o, kind, hash, expiresAt)) ==
            if o in s.orders then IssueCode(s, o, kind, hash, expiresAt) else s
  {
  }

  class CounterServices {
    const db: Database
    const idempotency: IdempotencyService
    const codes: HandoffCodeService
    const orders: OrdersService
    const nodes: NodesService
    const riders: RiderCapacityService
    const deliveryEvents: DeliveryEventsService
    const revenue: RecordRevenueSplitService

    predicate Wired() {
      && idempotency.db == db && codes.db == db && orders.db == db && nodes.db == db && riders.db == db
      && deliveryEvents.db == db && deliveryEvents.Wired() && revenue.db == db
    }

    constructor (db: Database)
      ensures this.db == db && Wired()
    {
      this.db := db;
      idempotency := new IdempotencyService(db);
      codes := new HandoffCodeService(db);
      orders := new OrdersService(db);
      nodes := new NodesService(db);
      riders := new RiderCapacityService(db);
      deliveryEvents := new DeliveryEventsService(db);
      revenue := new RecordRevenueSplitService(db);
    }

    method DropOffParcel(o: OrderId, env: RoutingEnv) returns (outcome: Outcome)
      requires Wired()
      modifies db
      ensures outcome == OutcomeOf(ConfirmDropOff(old(db.Tables()), o, env))
      ensures db.Tables() == Next(old(db.Tables()), DropOff(o, env))
      ensures Inv(old(db.Tables())) && o in old(db.orders) && old(db.orders)[o].status == AwaitingDropOff ==>
                DroppedOff(old(db.Tables()), db.Tables(), o, env)
    {
      hide Inv, DroppedOff;
      if Inv(db.Tables()) {
        DropOffMeans(db.Tables(), o, env);
      }
      if o !in db.orders {
        return Fail(NotFound);
      }
      var saved := db.Tables();
      var inserted := idempotency.Insert(o, DropOffScope);
      if !inserted {
        return Pass;
      }
      outcome := orders.MarkReceivedAtOrigin(o);
      if outcome.Fail? {
        db.Rollback(saved);
        return;
      }
      deliveryEvents.dispatchService.Dispatch(o, None, env);
    }

    method AcceptFromPool(o: OrderId, rider: UserId) returns (outcome: Outcome)
      requires Wired()
      modifies db
      ensures outcome == OutcomeOf(AcceptOrder(old(db.Tables()), o, rider))
      ensures db.Tables() == Next(old(db.Tables()), Accept(o, rider))
    {
      var saved := db.Tables();
      outcome := riders.ReserveDeliverySlot(rider);
      if outcome.Fail? {
        return;
      }
      outcome := deliveryEvents.AssignInHouseRider(o, rider);
      if outcome.Fail? {
        db.Rollback(saved);
      }
    }

    method ConfirmRiderHandover(o: OrderId, handover: Handover, hash: nat, now: int) returns (outcome: Outcome)
      requires Wired()
      modifies db
      ensures outcome == OutcomeOf(ConfirmHandoff(old(db.Tables()), o, handover, hash, now))
      ensures db.Tables() == Next(old(db.Tables()), Handoff(o, handover, hash, now))
    {
      hide RecordInHouseHandover, Validate, CountFailure;
      if o !in db.orders {
        return Fail(NotFound);
      }
      var saved := db.Tables();
      var inserted := idempotency.Insert(o, ScopeOf(handover));
      if !inserted {
        return Pass;
      }
      outcome, saved := codes.Check(o, KindOf(handover), hash, now, saved);
      if outcome.Pass? {
        HandoverNeverBlamesCode(db.Tables(), o, EventOf(handover));
        outcome := deliveryEvents.RecordInHouseHandover(o, EventOf(handover));
      }
      if outcome.Fail? {
        db.Rollback(saved);
      }
    }

    /** The transaction of a code request: nothing is looked at again. */
    method IssueLate(o: OrderId, kind: CodeKind, hash: nat, expiresAt: int)
      requires Wired()
      modifies db
      ensures db.Tables() == Next(old(db.Tables()), Step.IssueLate(o, kind, hash, expiresAt))
    {
      hide Next, IssueCode;
      IssueLateUnfolds(db.Tables(), o, kind, hash, expiresAt);
      if o in db.orders {
        codes.IssueNew(o, kind, hash, expiresAt);
      }
    }

    /** The guard and the transaction with nothing in between. */
    method GiveRiderCode(o: OrderId, rider: UserId, kind: CodeKind, hash: nat, expiresAt: int)
      returns (outcome: Outcome)
      requires Wired()
      modifies db
      ensures outcome == OutcomeOf(RequestHandoffCode(old(db.Tables()), o, rider, kind, hash, expiresAt))
      ensures db.Tables() == Next(old(db.Tables()), RequestCode(o, rider, kind, hash, expiresAt))
    {
      if o !in db.orders || db.orders[o].riderId != Some(rider) {
        return Fail(NotFound);
      }
      IssueLate(o, kind, hash, expiresAt);
      return Pass;
    }

    method ResendCode(o: OrderId, hash: nat, expiresAt: int) returns (outcome: Outcome)
      requires Wired()
      modifies db
      ensures outcome == OutcomeOf(ResendCollectionCode(old(db.Tables()), o, hash, expiresAt))
      ensures db.Tables() == Next(old(db.Tables()), Resend(o, hash, expiresAt))
    {
      if o !in db.orders {
        return Fail(NotFound);
      }
      var status := db.orders[o].status;
      if status == ReadyForSenderCollection {
        IssueLate(o, SenderCollection, hash, expiresAt);
      } else if status == ReadyForCollection {
        IssueLate(o, ReceiverCollection, hash, expiresAt);
      } else {
        return Fail(NotReady);
      }
      return Pass;
    }

    method TakeIn(o: OrderId, hash: nat, expiresAt: int) returns (outcome: Outcome)
      requires Wired()
      modifies db
      ensures outcome == OutcomeOf(ConfirmIntake(old(db.Tables()), o, hash, expiresAt))
      ensures db.Tables() == Next(old(db.Tables()), Intake(o, hash, expiresAt))
    {
      if o !in db.orders {
        return Fail(NotFound);
      }
      var saved := db.Tables();
      var inserted := idempotency.Insert(o, IntakeScope);
      if !inserted {
        return Pass;
      }
      outcome := orders.MarkReadyForCollection(o);
      if outcome.Fail? {
        db.Rollback(saved);
        return;
      }
      codes.IssueNew(o, ReceiverCollection, hash, expiresAt);
    }

    method HandToReceiver(o: OrderId, hash: nat, now: int) returns (outcome: Outcome)
      requires Wired()
      modifies db
      ensures outcome == OutcomeOf(ConfirmCollection(old(db.Tables()), o, hash, now))
      ensures db.Tables() == Next(old(db.Tables()), Collect(o, hash, now))
    {
      if o !in db.orders {
        return Fail(NotFound);
      }
      var saved := db.Tables();
      var inserted := idempotency.Insert(o, CollectionScope);
      if !inserted {
        return Pass;
      }
      outcome, saved := codes.Check(o, ReceiverCollection, hash, now, saved);
      if outcome.Pass? {
        outcome := orders.MarkCollected(o);
        if outcome.Pass? {
          outcome := revenue.Record(o);
        }
      }
      if outcome.Fail? {
        db.Rollback(saved);
      }
    }

    method TakeBack(o: OrderId, hash: nat, expiresAt: int) returns (outcome: Outcome)
      requires Wired()
      modifies db
      ensures outcome == OutcomeOf(ConfirmReturnIntake(old(db.Tables()), o, hash, expiresAt))
      ensures db.Tables() == Next(old(db.Tables()), ReturnIntake(o, hash, expiresAt))
    {
      if o !in db.orders {
        return Fail(NotFound);
      }
      var saved := db.Tables();
      var inserted := idempotency.Insert(o, ReturnIntakeScope);
      if !inserted {
        return Pass;
      }
      outcome := orders.MarkReadyForSenderCollection(o);
      if outcome.Fail? {
        db.Rollback(saved);
        return;
      }
      codes.IssueNew(o, SenderCollection, hash, expiresAt);
    }

    method HandToSender(o: OrderId, hash: nat, now: int) returns (outcome: Outcome)
      requires Wired()
      modifies db
      ensures outcome == OutcomeOf(ConfirmReturnCollection(old(db.Tables()), o, hash, now))
      ensures db.Tables() == Next(old(db.Tables()), ReturnCollect(o, hash, now))
    {
      if o !in db.orders {
        return Fail(NotFound);
      }
      var saved := db.Tables();
      var inserted := idempotency.Insert(o, ReturnCollectScope);
      if !inserted {
        return Pass;
      }
      outcome, saved := codes.Check(o, SenderCollection, hash, now, saved);
      if outcome.Pass? {
        outcome := orders.MarkCollectedBySender(o);
        if outcome.Pass? {
          nodes.ReleaseCapacitySlot(db.orders[o].originNodeId);
        }
      }
      if outcome.Fail? {
        db.Rollback(saved);
      }
    }
  }
}
