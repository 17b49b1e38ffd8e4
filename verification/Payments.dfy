/** Payment intents: booking, the webhook, and the expiry sweep that races it. */
module Payments {
  import opened Wrappers
  import opened OrderRules
  import opened Routing
  import opened Money
  import opened Model
  import opened Capacity

  /** Books a slot at the origin Node and inserts the PENDING intent, together. */
  function CreateIntent(s: State, id: IntentId, origin: NodeId, destination: NodeId,
                        vehicle: Option<VehicleClass>, fee: FeeBreakdown): Result<State>
  {
    if id in s.intents then Failure(DuplicateId)
    else
      var s1 :- ReserveCapacitySlot(s, origin);
      Success(s1.(intents := s1.intents[id :=
        Intent(origin, destination, vehicle, fee.totalKobo, fee.destinationFeeKobo, Pending, None)]))
  }

  /** The separate statement that gives an intent its own id as provider reference. */
  function SetReference(s: State, id: IntentId): State {
    if id !in s.intents then s
    else s.(intents := s.intents[id := s.intents[id].(providerReference := Some(id))])
  }

  function OrderOf(id: IntentId, intent: Intent): Order {
    Order(id, intent.originNodeId, intent.destinationNodeId, intent.vehicleClass,
          intent.amountKobo, intent.destinationFeeKobo, AwaitingDropOff, None, None,
          [LogPlaced], [], {}, [], [])
  }

  /** Moves an intent to PAID and creates its order, with a freshly generated id. */
  function ConfirmPaid(s: State, id: IntentId, order: OrderId): Result<State>
    requires id in s.intents
  {
    if order in s.orders then Failure(DuplicateId)
    else
      var intent := s.intents[id];
      Success(s.(intents := s.intents[id := intent.(status := Paid)],
                 orders := s.orders[order := OrderOf(id, intent)]))
  }

  /** The provider's answer to a server-to-server verification. */
  datatype Verification = Verification(success: bool, amountKobo: int)

  /** A charge.success webhook. `reply` is None when the verification call throws. */
  function HandleWebhook(s: State, reference: IntentId, reply: Option<Verification>, order: OrderId): Result<State> {
    if reference in s.paymentKeys then Success(s)
    else
      var s1 := s.(paymentKeys := s.paymentKeys + {reference});
      if reference !in s.intents || s.intents[reference].providerReference != Some(reference) then Success(s1)
      else if s.intents[reference].status != Pending then Success(s1)
      else
        match reply
        case None => Failure(ProviderUnavailable)
        case Some(v) =>
          if !v.success || v.amountKobo != s.intents[reference].amountKobo then Success(s1)
          else ConfirmPaid(s1, reference, order)
  }

  /** An intent as the sweep's batch query read it, at some earlier moment. */
  datatype StaleIntent = StaleIntent(id: IntentId, providerReference: Option<IntentId>, amountKobo: int)

  /** Expires an intent that is still PENDING now, and gives its slot back. */
  function Expire(s: State, id: IntentId): State {
    if id !in s.intents || s.intents[id].status != Pending then s
    else
      ReleaseCapacitySlot(s.(intents := s.intents[id := s.intents[id].(status := Expired)]),
                          s.intents[id].originNodeId)
  }

  /** The sweep found that the provider was paid after all. */
  function Recover(s: State, stale: StaleIntent, reference: IntentId, order: OrderId): Result<State> {
    if reference in s.paymentKeys then Success(s)
    else
      var s1 := s.(paymentKeys := s.paymentKeys + {reference});
      if stale.id !in s.intents || s.intents[stale.id].status != Pending then Success(s1)
      else ConfirmPaid(s1, stale.id, order)
  }

  /** One stale intent of the sweep. Whatever the provider says, at most one
      transaction commits: the recovery or the expiry. */
  function ProcessStaleIntent(s: State, stale: StaleIntent, reply: Option<Verification>,
                              order: OrderId): Result<State> {
    match stale.providerReference
    case None => Success(Expire(s, stale.id))
    case Some(reference) =>
      match reply
      case None => Success(s) // provider unreachable: retried by the next sweep
      case Some(v) =>
        if !v.success || v.amountKobo != stale.amountKobo then Success(Expire(s, stale.id))
        else Recover(s, stale, reference, order)
  }

  /** An admin adds a revenue split rule; it takes effect for later completions. */
  function AddSplitRule(s: State, rule: SplitRule): Result<State> {
    if !ValidSplit(rule) then Failure(InvalidRule)
    else Success(s.(splitRules := s.splitRules + [rule]))
  }
}
