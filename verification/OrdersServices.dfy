/** The orders service: guarded transitions that update the orders table and append to
    the log, one statement after the other. */
module OrdersServices {
  import opened Wrappers
  import opened OrderRules
  import opened Routing
  import opened Model
  import opened LegProtocol
  import Shelves
  import Orders

  class OrdersService {
    const db: Database

    constructor (db: Database)
      ensures this.db == db
    {
      this.db := db;
    }

    method AppendEvent(o: OrderId, event: OrderEvent)
      requires o in db.orders
      modifies db
      ensures db.Tables() == old(db.Tables()).(orders :=
                old(db.orders)[o := old(db.orders)[o].(log := old(db.orders)[o].log + [event])])
    {
      db.orders := db.orders[o := db.orders[o].(log := db.orders[o].log + [event])];
    }

    method Transition(o: OrderId, from: OrderStatus, to: OrderStatus, event: OrderEvent) returns (outcome: Outcome)
      modifies db
      ensures EndsAtomically(outcome, old(db.Tables()), db.Tables(),
                             Orders.Transition(old(db.Tables()), o, from, to, event))
    {
      if !LegalTransition(from, to) {
        return Fail(IllegalTransition);
      }
      if o !in db.orders || db.orders[o].status != from {
        return Fail(IllegalTransition);
      }
      ghost var before, order := db.orders, db.orders[o];
      db.orders := db.orders[o := db.orders[o].(status := to)];
      AppendEvent(o, event);
      Overwrite(before, o, order.(status := to), db.orders[o]);
      return Pass;
    }

    method AssignRider(o: OrderId, rider: UserId) returns (outcome: Outcome)
      modifies db
      ensures EndsAtomically(outcome, old(db.Tables()), db.Tables(), Orders.AssignRider(old(db.Tables()), o, rider))
    {
      if o !in db.orders || db.orders[o].status != ReceivedAtOrigin || db.orders[o].riderId.Some? {
        return Fail(IllegalTransition);
      }
      ghost var before, order := db.orders, db.orders[o];
      db.orders := db.orders[o := db.orders[o].(status := RiderAssigned, riderId := Some(rider))];
      AppendEvent(o, LogRiderAssigned);
      Overwrite(before, o, order.(status := RiderAssigned, riderId := Some(rider)), db.orders[o]);
      return Pass;
    }

    method MarkCourierAssigned(o: OrderId) returns (outcome: Outcome)
      modifies db
      ensures EndsAtomically(outcome, old(db.Tables()), db.Tables(), Orders.MarkCourierAssigned(old(db.Tables()), o))
    {
      outcome := Transition(o, ReceivedAtOrigin, RiderAssigned, LogRiderAssigned);
    }

    method MarkCourierReleased(o: OrderId) returns (outcome: Outcome)
      modifies db
      ensures EndsAtomically(outcome, old(db.Tables()), db.Tables(), Orders.MarkCourierReleased(old(db.Tables()), o))
    {
      if o !in db.orders || db.orders[o].status != RiderAssigned {
        return Fail(IllegalTransition);
      }
      ghost var before, order := db.orders, db.orders[o];
      db.orders := db.orders[o := db.orders[o].(status := ReceivedAtOrigin, riderId := None)];
      AppendEvent(o, LogCourierReleased);
      Overwrite(before, o, order.(status := ReceivedAtOrigin, riderId := None), db.orders[o]);
      return Pass;
    }

    method PlaceOnShelf(o: OrderId, node: NodeId)
      requires o in db.orders
      modifies db
      ensures db.Tables() == Orders.PlaceOnShelf(old(db.Tables()), o, node)
    {
      var number := Shelves.LowestFree(db.orders, node);
      db.orders := db.orders[o := db.orders[o].(shelf := Some(Shelf(node, number)))];
    }

    method ClearShelf(o: OrderId)
      requires o in db.orders
      modifies db
      ensures db.Tables() == Orders.ClearShelf(old(db.Tables()), o)
    {
      db.orders := db.orders[o := db.orders[o].(shelf := None)];
    }

    method MarkReceivedAtOrigin(o: OrderId) returns (outcome: Outcome)
      modifies db
      ensures EndsAtomically(outcome, old(db.Tables()), db.Tables(), Orders.MarkReceivedAtOrigin(old(db.Tables()), o))
    {
      outcome := Transition(o, AwaitingDropOff, ReceivedAtOrigin, LogReceived);
      if outcome.Pass? {
        PlaceOnShelf(o, db.orders[o].originNodeId);
      }
    }

    method MarkPickedUpByRider(o: OrderId) returns (outcome: Outcome)
      modifies db
      ensures EndsAtomically(outcome, old(db.Tables()), db.Tables(), Orders.MarkPickedUpByRider(old(db.Tables()), o))
    {
      outcome := Transition(o, RiderAssigned, InTransit, LogPickedUp);
      if outcome.Pass? {
        ClearShelf(o);
      }
    }

    method MarkArrivedAtDestination(o: OrderId) returns (outcome: Outcome)
      modifies db
      ensures EndsAtomically(outcome, old(db.Tables()), db.Tables(),
                             Orders.MarkArrivedAtDestination(old(db.Tables()), o))
    {
      outcome := Transition(o, InTransit, ArrivedAtDestination, LogArrived);
    }

    method MarkReadyForCollection(o: OrderId) returns (outcome: Outcome)
      modifies db
      ensures EndsAtomically(outcome, old(db.Tables()), db.Tables(), Orders.MarkReadyForCollection(old(db.Tables()), o))
    {
      outcome := Transition(o, ArrivedAtDestination, ReadyForCollection, LogReady);
      if outcome.Pass? {
        PlaceOnShelf(o, db.orders[o].destinationNodeId);
      }
    }

    method MarkCollected(o: OrderId) returns (outcome: Outcome)
      modifies db
      ensures EndsAtomically(outcome, old(db.Tables()), db.Tables(), Orders.MarkCollected(old(db.Tables()), o))
    {
      outcome := Transition(o, ReadyForCollection, Completed, LogCollected);
      if outcome.Pass? {
        ClearShelf(o);
      }
    }

    method MarkReturning(o: OrderId) returns (outcome: Outcome)
      modifies db
      ensures Ends(outcome, db.Tables(), Orders.MarkReturning(old(db.Tables()), o))
    {
      outcome := Transition(o, InTransit, ReturnInitiated, LogReturnInitiated);
      if outcome.Pass? {
        outcome := Transition(o, ReturnInitiated, ReturnInTransit, LogReturnInTransit);
      }
    }

    method MarkReturnedToOrigin(o: OrderId) returns (outcome: Outcome)
      modifies db
      ensures EndsAtomically(outcome, old(db.Tables()), db.Tables(), Orders.MarkReturnedToOrigin(old(db.Tables()), o))
    {
      outcome := Transition(o, ReturnInTransit, ReturnedToOrigin, LogReturned);
    }

    method MarkReadyForSenderCollection(o: OrderId) returns (outcome: Outcome)
      modifies db
      ensures EndsAtomically(outcome, old(db.Tables()), db.Tables(),
                             Orders.MarkReadyForSenderCollection(old(db.Tables()), o))
    {
      outcome := Transition(o, ReturnedToOrigin, ReadyForSenderCollection, LogReadyForSender);
      if outcome.Pass? {
        PlaceOnShelf(o, db.orders[o].originNodeId);
      }
    }

    method MarkCollectedBySender(o: OrderId) returns (outcome: Outcome)
      modifies db
      ensures EndsAtomically(outcome, old(db.Tables()), db.Tables(), Orders.MarkCollectedBySender(old(db.Tables()), o))
    {
      outcome := Transition(o, ReadyForSenderCollection, ReturnCompleted, LogCollectedBySender);
      if outcome.Pass? {
        ClearShelf(o);
      }
    }
  }
}
