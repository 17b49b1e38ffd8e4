/** The two capacity counters: parcels held at a Node, deliveries held by a rider. */
module Capacity {
  import opened Wrappers
  import opened Routing
  import opened Model

  /** Takes a slot at a Node that has one free; throws when it is full or unknown. */
  function ReserveCapacitySlot(s: State, node: NodeId): Result<State> {
    if node !in s.nodes then Failure(NotFound)
    else
      var row := s.nodes[node];
      if row.currentCount >= row.capacity then Failure(NodeFull)
      else Success(s.(nodes := s.nodes[node := row.(currentCount := row.currentCount + 1)]))
  }

  /** A returned parcel is back at the counter whether or not the Node is full. */
  function HoldReturnedParcel(s: State, node: NodeId): State {
    if node !in s.nodes then s
    else
      var row := s.nodes[node];
      s.(nodes := s.nodes[node := row.(currentCount := row.currentCount + 1)])
  }

  /** Gives a slot back; the counter is clamped at zero. */
  function ReleaseCapacitySlot(s: State, node: NodeId): State {
    if node !in s.nodes then s
    else
      var row := s.nodes[node];
      s.(nodes := s.nodes[node := row.(currentCount := if row.currentCount > 0 then row.currentCount - 1 else 0)])
  }

  /** Takes one of a rider's delivery slots; throws when the rider is unknown, not
      active, or already carries as many as allowed. */
  function ReserveDeliverySlot(s: State, rider: UserId): Result<State> {
    if rider !in s.riders then Failure(NotFound)
    else
      var row := s.riders[rider];
      if !row.active then Failure(RiderNotActive)
      else if row.currentActiveOrderCount >= MAX_ACTIVE_ORDERS_PER_RIDER then Failure(RiderFull)
      else Success(s.(riders := s.riders[rider := row.(currentActiveOrderCount := row.currentActiveOrderCount + 1)]))
  }

  /** Gives a delivery slot back; the counter is clamped at zero. */
  function ReleaseDeliverySlot(s: State, rider: UserId): State {
    if rider !in s.riders then s
    else
      var row := s.riders[rider];
      s.(riders := s.riders[rider := row.(currentActiveOrderCount :=
           if row.currentActiveOrderCount > 0 then row.currentActiveOrderCount - 1 else 0)])
  }
}
