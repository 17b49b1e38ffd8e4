/** The guarded moves of an order: status, rider, shelf and log change together. */
module Orders {
  import opened Wrappers
  import opened OrderRules
  import opened Routing
  import opened Model
  import opened Shelves

  /** The guarded transition every step uses: the edge must be in the graph and the
      order must be where the caller says it is. */
  function Transition(s: State, o: OrderId, from: OrderStatus, to: OrderStatus, event: OrderEvent): Result<State> {
    if !LegalTransition(from, to) || o !in s.orders || s.orders[o].status != from then Failure(IllegalTransition)
    else
      var order := s.orders[o];
      Success(s.(orders := s.orders[o := order.(status := to, log := order.log + [event])]))
  }

  /** A Locoomo rider claims the order: only one can. */
  function AssignRider(s: State, o: OrderId, rider: UserId): Result<State> {
    if o !in s.orders || s.orders[o].status != ReceivedAtOrigin || s.orders[o].riderId.Some? then
      Failure(IllegalTransition)
    else
      var order := s.orders[o];
      Success(s.(orders := s.orders[o := order.(status := RiderAssigned, riderId := Some(rider),
                                                log := order.log + [LogRiderAssigned])]))
  }

  /** The courier let the order go before pickup. */
  function MarkCourierReleased(s: State, o: OrderId): Result<State> {
    if o !in s.orders || s.orders[o].status != RiderAssigned then Failure(IllegalTransition)
    else
      var order := s.orders[o];
      Success(s.(orders := s.orders[o := order.(status := ReceivedAtOrigin, riderId := None,
                                                log := order.log + [LogCourierReleased])]))
  }

  /** Gives the parcel the lowest free number on the Node's shelf. */
  function PlaceOnShelf(s: State, o: OrderId, node: NodeId): State
    requires o in s.orders
  {
    s.(orders := s.orders[o := s.orders[o].(shelf := Some(Shelf(node, LowestFree(s.orders, node))))])
  }

  function ClearShelf(s: State, o: OrderId): State
    requires o in s.orders
  {
    s.(orders := s.orders[o := s.orders[o].(shelf := None)])
  }

  function MarkReceivedAtOrigin(s: State, o: OrderId): Result<State> {
    var s1 :- Transition(s, o, AwaitingDropOff, ReceivedAtOrigin, LogReceived);
    Success(PlaceOnShelf(s1, o, s1.orders[o].originNodeId))
  }

  function MarkCourierAssigned(s: State, o: OrderId): Result<State> {
    Transition(s, o, ReceivedAtOrigin, RiderAssigned, LogRiderAssigned)
  }

  function MarkPickedUpByRider(s: State, o: OrderId): Result<State> {
    var s1 :- Transition(s, o, RiderAssigned, InTransit, LogPickedUp);
    Success(ClearShelf(s1, o))
  }

  function MarkArrivedAtDestination(s: State, o: OrderId): Result<State> {
    Transition(s, o, InTransit, ArrivedAtDestination, LogArrived)
  }

  function MarkReadyForCollection(s: State, o: OrderId): Result<State> {
    var s1 :- Transition(s, o, ArrivedAtDestination, ReadyForCollection, LogReady);
    Success(PlaceOnShelf(s1, o, s1.orders[o].destinationNodeId))
  }

  function MarkCollected(s: State, o: OrderId): Result<State> {
    var s1 :- Transition(s, o, ReadyForCollection, Completed, LogCollected);
    Success(ClearShelf(s1, o))
  }

  /** Both steps of a return: decided, then under way. */
  function MarkReturning(s: State, o: OrderId): Result<State> {
    var s1 :- Transition(s, o, InTransit, ReturnInitiated, LogReturnInitiated);
    Transition(s1, o, ReturnInitiated, ReturnInTransit, LogReturnInTransit)
  }

  function MarkReturnedToOrigin(s: State, o: OrderId): Result<State> {
    Transition(s, o, ReturnInTransit, ReturnedToOrigin, LogReturned)
  }

  function MarkReadyForSenderCollection(s: State, o: OrderId): Result<State> {
    var s1 :- Transition(s, o, ReturnedToOrigin, ReadyForSenderCollection, LogReadyForSender);
    Success(PlaceOnShelf(s1, o, s1.orders[o].originNodeId))
  }

  function MarkCollectedBySender(s: State, o: OrderId): Result<State> {
    var s1 :- Transition(s, o, ReadyForSenderCollection, ReturnCompleted, LogCollectedBySender);
    Success(ClearShelf(s1, o))
  }
}
