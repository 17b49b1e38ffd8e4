/** The services that keep the two capacity counters, updating their tables in place. */
module CapacityServices {
  import opened Wrappers
  import opened Routing
  import opened Model
  import Capacity

  class NodesService {
    const db: Database

    constructor (db: Database)
      ensures this.db == db
    {
      this.db := db;
    }

    method ReserveCapacitySlot(node: NodeId) returns (outcome: Outcome)
      modifies db
      ensures EndsAtomically(outcome, old(db.Tables()), db.Tables(),
                             Capacity.ReserveCapacitySlot(old(db.Tables()), node))
    {
      if node !in db.nodes {
        return Fail(NotFound);
      }
      var row := db.nodes[node];
      if row.currentCount >= row.capacity {
        return Fail(NodeFull);
      }
      db.nodes := db.nodes[node := row.(currentCount := row.currentCount + 1)];
      return Pass;
    }

    method HoldReturnedParcel(node: NodeId)
      modifies db
      ensures db.Tables() == Capacity.HoldReturnedParcel(old(db.Tables()), node)
    {
      if node in db.nodes {
        var row := db.nodes[node];
        db.nodes := db.nodes[node := row.(currentCount := row.currentCount + 1)];
      }
    }

    method ReleaseCapacitySlot(node: NodeId)
      modifies db
      ensures db.Tables() == Capacity.ReleaseCapacitySlot(old(db.Tables()), node)
    {
      if node in db.nodes {
        var row := db.nodes[node];
        var count := if row.currentCount > 0 then row.currentCount - 1 else 0;
        db.nodes := db.nodes[node := row.(currentCount := count)];
      }
    }
  }

  class RiderCapacityService {
    const db: Database

    constructor (db: Database)
      ensures this.db == db
    {
      this.db := db;
    }

    method ReserveDeliverySlot(rider: UserId) returns (outcome: Outcome)
      modifies db
      ensures EndsAtomically(outcome, old(db.Tables()), db.Tables(),
                             Capacity.ReserveDeliverySlot(old(db.Tables()), rider))
    {
      if rider !in db.riders {
        return Fail(NotFound);
      }
      var row := db.riders[rider];
      if !row.active {
        return Fail(RiderNotActive);
      }
      if row.currentActiveOrderCount >= MAX_ACTIVE_ORDERS_PER_RIDER {
        return Fail(RiderFull);
      }
      db.riders := db.riders[rider := row.(currentActiveOrderCount := row.currentActiveOrderCount + 1)];
      return Pass;
    }

    method ReleaseDeliverySlot(rider: UserId)
      modifies db
      ensures db.Tables() == Capacity.ReleaseDeliverySlot(old(db.Tables()), rider)
    {
      if rider in db.riders {
        var row := db.riders[rider];
        var count := if row.currentActiveOrderCount > 0 then row.currentActiveOrderCount - 1 else 0;
        db.riders := db.riders[rider := row.(currentActiveOrderCount := count)];
      }
    }
  }
}
