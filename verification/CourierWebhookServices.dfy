/** The courier webhook service over its two tables: stored events and queued jobs. */
module CourierWebhookServices {
  import opened Wrappers
  import opened Model
  import opened LogisticsServices
  import opened DeliveryEvents
  import opened CourierWebhooks

  class CourierWebhookService {
    const db: Database
    const deliveryEvents: DeliveryEventsService
    var stored: map<EventKey, Inbound>
    var queued: seq<EventKey>

    predicate Wired() {
      deliveryEvents.db == db && deliveryEvents.Wired()
    }

    /** The tables, whatever runs are in progress. */
    function Contents(running: map<RunId, Job>): Inbox
      reads this
    {
      Inbox(stored, queued, running)
    }

    constructor (db: Database)
      ensures this.db == db && Wired() && Contents(map[]) == EMPTY
    {
      this.db := db;
      deliveryEvents := new DeliveryEventsService(db);
      stored, queued := map[], [];
    }

    /** Stores and queues an event the first time it comes. */
    method ReceiveOnce(notification: Notification)
      modifies this
      ensures forall running :: Contents(running) == AfterReceive(old(Contents(running)), notification)
    {
      if notification.externalId.Some? && notification.key !in stored {
        stored := stored[notification.key := Inbound(notification.externalId.value, false)];
        queued := queued + [notification.key];
      }
    }

    /** The first half of the queued job: the row is read, outside any transaction. */
    method ReadJob(key: EventKey) returns (job: Option<Inbound>)
      ensures job.Some? <==> ToProcess(stored, key)
      ensures job.Some? ==> job.value == stored[key]
    {
      if key !in stored || stored[key].processed {
        return None;
      }
      return Some(stored[key]);
    }

    /** The second half, after the provider has answered: its snapshot, if it gave one,
        goes to leg `i` of order `o`, and the mark is set, in one transaction and
        whatever has become of the row by then. */
    method CommitJob(key: EventKey, o: OrderId, i: nat, snapshot: Option<Snapshot>, env: RoutingEnv)
      returns (outcome: Outcome)
      requires Wired()
      modifies this, db
      ensures queued == old(queued)
      ensures stored == if outcome.Pass? then Marked(old(stored), key) else old(stored)
      ensures match snapshot
              case Some(state) =>
                EndsAtomically(outcome, old(db.Tables()), db.Tables(),
                               SyncFromSnapshot(old(db.Tables()), o, i, state, env))
              case None => outcome == Pass && db.Tables() == old(db.Tables())
    {
      outcome := Pass;
      if snapshot.Some? {
        outcome := deliveryEvents.ReceiveSnapshot(o, i, snapshot.value, env);
      }
      if outcome.Pass? && key in stored {
        stored := stored[key := stored[key].(processed := true)];
      }
    }
  }
}
