/** The tables of the parcel-delivery core and the rows they hold. */
module Model {
  import opened Wrappers
  import opened DeliveryLeg
  import opened OrderRules
  import opened Routing
  import opened HandoffCodes
  import opened Money

  type IntentId = nat
  type OrderId = nat
  type UserId = nat

  datatype IntentStatus = Pending | Paid | Failed | Expired

  /** A payment_intents row. The provider reference is the intent's own id, written
      by a second statement after the row is inserted. */
  datatype Intent = Intent(
    originNodeId: NodeId,
    destinationNodeId: NodeId,
    vehicleClass: Option<VehicleClass>,
    amountKobo: int,
    destinationFeeKobo: int,
    status: IntentStatus,
    providerReference: Option<IntentId>)

  /** A delivery_legs row of an order. */
  datatype Leg = Leg(
    providerKey: ProviderKey,
    status: LegStatus,
    attemptNumber: nat,
    ended: bool, // endedAt is set
    externalId: Option<nat>,
    providerSequence: Option<int>,
    courierUserId: Option<UserId>)

  datatype Shelf = Shelf(nodeId: NodeId, number: nat)

  /** The scopes of the idempotency keys of the handoff steps. */
  datatype Scope =
    | DropOffScope
    | PickupScope
    | ArrivalScope
    | IntakeScope
    | CollectionScope
    | ReturnIntakeScope
    | ReturnCollectScope

  /** An orders row together with the rows keyed by its id: its event log and legs
      in insertion order, its idempotency keys, handoff codes and revenue entries. */
  datatype Order = Order(
    paymentIntentId: IntentId,
    originNodeId: NodeId,
    destinationNodeId: NodeId,
    vehicleClass: Option<VehicleClass>,
    amountKobo: int,
    destinationFeeKobo: int,
    status: OrderStatus,
    riderId: Option<UserId>,
    shelf: Option<Shelf>,
    log: seq<OrderEvent>,
    legs: seq<Leg>,
    keys: set<Scope>,
    codes: seq<Code>,
    entries: seq<Entry>)

  datatype NodeRow = NodeRow(capacity: nat, currentCount: nat)

  datatype RiderRow = RiderRow(active: bool, currentActiveOrderCount: nat)

  const MAX_ACTIVE_ORDERS_PER_RIDER := 3

  /** Every modelled table. */
  datatype State = State(
    intents: map<IntentId, Intent>,
    paymentKeys: set<IntentId>, // idempotency keys of scope payments.webhook
    orders: map<OrderId, Order>,
    nodes: map<NodeId, NodeRow>,
    riders: map<UserId, RiderRow>,
    splitRules: seq<SplitRule>)

  /** What routing reads when it runs: the provider rows, which adapters are
      registered, and the straight-line distance. */
  datatype RoutingEnv = RoutingEnv(
    configs: seq<ProviderConfig>,
    registered: set<ProviderKey>,
    distanceKm: real)

  /** The live tables, which the services' transactions update in place. */
  class Database {
    var intents: map<IntentId, Intent>
    var paymentKeys: set<IntentId>
    var orders: map<OrderId, Order>
    var nodes: map<NodeId, NodeRow>
    var riders: map<UserId, RiderRow>
    var splitRules: seq<SplitRule>

    constructor (initial: State)
      ensures Tables() == initial
    {
      intents, paymentKeys, orders := initial.intents, initial.paymentKeys, initial.orders;
      nodes, riders, splitRules := initial.nodes, initial.riders, initial.splitRules;
    }

    /** The contents of all tables. */
    function Tables(): State
      reads this
    {
      State(intents, paymentKeys, orders, nodes, riders, splitRules)
    }

    /** Rolls every table back to what a transaction started from. */
    method Rollback(saved: State)
      modifies this
      ensures Tables() == saved
    {
      intents, paymentKeys, orders := saved.intents, saved.paymentKeys, saved.orders;
      nodes, riders, splitRules := saved.nodes, saved.riders, saved.splitRules;
    }
  }

  /** How a step inside a transaction ends: as specified. What a step that throws has
      written by then does not matter, since the transaction around it rolls back. */
  predicate Ends(outcome: Outcome, after: State, spec: Result<State>) {
    outcome == OutcomeOf(spec) && (spec.Success? ==> after == spec.value)
  }

  /** How a whole transaction ends: as specified, or with nothing changed. */
  predicate EndsAtomically(outcome: Outcome, before: State, after: State, spec: Result<State>) {
    outcome == OutcomeOf(spec) && after == if spec.Success? then spec.value else before
  }
}
