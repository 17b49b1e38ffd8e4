/** The counter steps of an order's life. Each is one transaction; most run under
    an idempotency key so that a repeat does nothing. */
module Handoffs {
  import opened Wrappers
  import opened DeliveryLeg
  import opened OrderRules
  import opened HandoffCodes
  import opened Money
  import opened Model
  import opened Capacity
  import opened Orders
  import opened DeliveryDispatch
  import opened DeliveryEvents

  /** Inserting an order's idempotency key. */
  function InsertKey(s: State, o: OrderId, scope: Scope): State
    requires o in s.orders
  {
    s.(orders := s.orders[o := s.orders[o].(keys := s.orders[o].keys + {scope})])
  }

  predicate AlreadyProcessed(s: State, o: OrderId, scope: Scope) {
    o in s.orders && scope in s.orders[o].keys
  }

  function SetCodes(s: State, o: OrderId, codes: seq<Code>): State
    requires o in s.orders
  {
    s.(orders := s.orders[o := s.orders[o].(codes := codes)])
  }

  function IssueCode(s: State, o: OrderId, kind: CodeKind, hash: nat, expiresAt: int): State
    requires o in s.orders
  {
    SetCodes(s, o, Issue(s.orders[o].codes, kind, hash, expiresAt))
  }

  function ValidateCode(s: State, o: OrderId, kind: CodeKind, hash: nat, now: int): Result<State>
    requires o in s.orders
  {
    match Validate(s.orders[o].codes, kind, hash, now)
    case None => Failure(InvalidCode)
    case Some(codes) => Success(SetCodes(s, o, codes))
  }

  /** What a rolled-back transaction that checked a code leaves behind: the lockout
      counter is written on its own connection. */
  function AfterCodeCheck(s: State, o: OrderId, kind: CodeKind, result: Result<State>): State {
    match result
    case Success(s') => s'
    case Failure(error) =>
      if error == InvalidCode && o in s.orders then SetCodes(s, o, CountFailure(s.orders[o].codes, kind)) else s
  }

  /** What a transaction leaves behind. */
  function Committed(s: State, result: Result<State>): State {
    if result.Success? then result.value else s
  }

  /** The origin counter takes the parcel in, and a courier is found straight away. */
  function ConfirmDropOff(s: State, o: OrderId, env: RoutingEnv): Result<State> {
    if o !in s.orders then Failure(NotFound)
    else if AlreadyProcessed(s, o, DropOffScope) then Success(s)
    else
      var s1 :- MarkReceivedAtOrigin(InsertKey(s, o, DropOffScope), o);
      Success(Dispatch(s1, o, None, env))
  }

  /** A rider takes an order from the pool: slot and leg in one transaction. */
  function AcceptOrder(s: State, o: OrderId, rider: UserId): Result<State> {
    var s1 :- ReserveDeliverySlot(s, rider);
    AssignInHouseRider(s1, o, rider)
  }

  /** Only the order's own rider is given a handover code. */
  function RequestHandoffCode(s: State, o: OrderId, rider: UserId, kind: CodeKind, hash: nat,
                              expiresAt: int): Result<State> {
    if o !in s.orders || s.orders[o].riderId != Some(rider) then Failure(NotFound)
    else Success(IssueCode(s, o, kind, hash, expiresAt))
  }

  datatype Handover = PickupHandover | ArrivalHandover

  function ScopeOf(handover: Handover): Scope {
    match handover case PickupHandover => PickupScope case ArrivalHandover => ArrivalScope
  }

  function KindOf(handover: Handover): CodeKind {
    match handover case PickupHandover => RiderPickup case ArrivalHandover => RiderArrival
  }

  function EventOf(handover: Handover): (e: LegEvent)
    ensures e in {ParcelPickedUp, ParcelDelivered}
  {
    match handover case PickupHandover => ParcelPickedUp case ArrivalHandover => ParcelDelivered
  }

  /** A rider's pickup or arrival, proved with their code. */
  function ConfirmHandoff(s: State, o: OrderId, handover: Handover, hash: nat, now: int): Result<State> {
    if o !in s.orders then Failure(NotFound)
    else if AlreadyProcessed(s, o, ScopeOf(handover)) then Success(s)
    else
      var s1 :- ValidateCode(InsertKey(s, o, ScopeOf(handover)), o, KindOf(handover), hash, now);
      RecordInHouseHandover(s1, o, EventOf(handover))
  }

  /** The destination counter takes the parcel in and the receiver gets a code. */
  function ConfirmIntake(s: State, o: OrderId, hash: nat, expiresAt: int): Result<State> {
    if o !in s.orders then Failure(NotFound)
    else if AlreadyProcessed(s, o, IntakeScope) then Success(s)
    else
      var s1 :- MarkReadyForCollection(InsertKey(s, o, IntakeScope), o);
      Success(IssueCode(s1, o, ReceiverCollection, hash, expiresAt))
  }

  /** Records the four revenue entries under the newest split rule. */
  function RecordSplit(s: State, o: OrderId): Result<State>
    requires o in s.orders
  {
    if s.splitRules == [] then Failure(NotConfigured)
    else
      var order, ruleId := s.orders[o], |s.splitRules| - 1;
      Success(s.(orders := s.orders[o := order.(entries := order.entries +
        SplitEntries(order.amountKobo, order.destinationFeeKobo, order.riderId,
                     order.originNodeId, order.destinationNodeId, s.splitRules[ruleId], ruleId))]))
  }

  /** The receiver collects: the order completes and the revenue is split. */
  function ConfirmCollection(s: State, o: OrderId, hash: nat, now: int): Result<State> {
    if o !in s.orders then Failure(NotFound)
    else if AlreadyProcessed(s, o, CollectionScope) then Success(s)
    else
      var s1 :- ValidateCode(InsertKey(s, o, CollectionScope), o, ReceiverCollection, hash, now);
      var s2 :- MarkCollected(s1, o);
      RecordSplit(s2, o)
  }

  /** A fresh collection code, while the parcel waits for its receiver or sender. */
  function ResendCollectionCode(s: State, o: OrderId, hash: nat, expiresAt: int): Result<State> {
    if o !in s.orders then Failure(NotFound)
    else if s.orders[o].status == ReadyForSenderCollection then
      Success(IssueCode(s, o, SenderCollection, hash, expiresAt))
    else if s.orders[o].status == ReadyForCollection then Success(IssueCode(s, o, ReceiverCollection, hash, expiresAt))
    else Failure(NotReady)
  }

  /** The origin counter shelves a returned parcel and the sender gets a code. */
  function ConfirmReturnIntake(s: State, o: OrderId, hash: nat, expiresAt: int): Result<State> {
    if o !in s.orders then Failure(NotFound)
    else if AlreadyProcessed(s, o, ReturnIntakeScope) then Success(s)
    else
      var s1 :- MarkReadyForSenderCollection(InsertKey(s, o, ReturnIntakeScope), o);
      Success(IssueCode(s1, o, SenderCollection, hash, expiresAt))
  }

  /** The sender collects the returned parcel and its slot is freed. */
  function ConfirmReturnCollection(s: State, o: OrderId, hash: nat, now: int): Result<State> {
    if o !in s.orders then Failure(NotFound)
    else if AlreadyProcessed(s, o, ReturnCollectScope) then Success(s)
    else
      var s1 :- ValidateCode(InsertKey(s, o, ReturnCollectScope), o, SenderCollection, hash, now);
      var s2 :- MarkCollectedBySender(s1, o);
      Success(ReleaseCapacitySlot(s2, s2.orders[o].originNodeId))
  }
}
