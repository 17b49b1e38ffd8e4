/** The outbox poller's statements, updating the outbox_events table in place. */
module OutboxServices {
  import opened Outbox

  class OutboxTable {
    var rows: map<EventId, Row>

    constructor (rows: map<EventId, Row>)
      ensures this.rows == rows
    {
      this.rows := rows;
    }
  }

  class OutboxPollerService {
    const table: OutboxTable
    var isPolling: bool

    constructor (table: OutboxTable)
      ensures this.table == table && !isPolling
    {
      this.table := table;
      isPolling := false;
    }

    /** Leases the rows that the query found and returns them as they are now. */
    method ClaimDueEvents(ids: seq<EventId>, now: int) returns (batch: seq<Copy>)
      requires IsClaim(table.rows, ids, now)
      modifies table
      ensures table.rows == Claimed(old(table.rows), ids, now)
      ensures batch == Copies(old(table.rows), ids, now)
    {
      batch := [];
      CopiesOf(table.rows, ids, now);
      for k := 0 to |ids|
        invariant table.rows.Keys == old(table.rows).Keys && |batch| == k
        invariant forall id :: id in old(table.rows) ==>
                    table.rows[id] == if id in ids[..k] then Leased(old(table.rows)[id], now) else old(table.rows)[id]
        invariant forall i :: 0 <= i < k ==> batch[i] == Copy(ids[i], Leased(old(table.rows)[ids[i]], now))
      {
        assert ids[k] in ids;
        assert ids[k] !in ids[..k];
        var leased := Leased(table.rows[ids[k]], now);
        table.rows := table.rows[ids[k] := leased];
        batch := batch + [Copy(ids[k], leased)];
        assert ids[..k + 1] == ids[..k] + [ids[k]];
      }
      assert ids[..|ids|] == ids;
    }

    method RegisterFailure(copy: Copy, now: int)
      modifies table
      ensures table.rows == old(table.rows)[copy.id := AfterHandling(copy.row, false, now)]
      ensures copy.row.attempts + 1 < 5 ==>
                table.rows[copy.id] == copy.row.(attempts := copy.row.attempts + 1,
                                                 nextAttemptAt := now + 30_000 * PowerOfTwo(copy.row.attempts))
      ensures copy.row.attempts + 1 >= 5 ==>
                table.rows[copy.id] == copy.row.(attempts := copy.row.attempts + 1, status := GivenUp)
    {
      if copy.row.attempts + 1 < MAX_ATTEMPTS {
        BackoffGrows(copy.row.attempts + 1, copy.row.attempts + 1);
      }
      var attempts := copy.row.attempts + 1;
      var row := copy.row.(attempts := attempts);
      if attempts >= MAX_ATTEMPTS {
        row := row.(status := GivenUp);
      } else {
        row := row.(nextAttemptAt := now + BackoffMs(attempts));
      }
      table.rows := table.rows[copy.id := row];
    }

    /** Handles one claimed event; `success` is whether its handler returned. */
    method ProcessEvent(copy: Copy, success: bool, now: int)
      modifies table
      ensures table.rows == old(table.rows)[copy.id := AfterHandling(copy.row, success, now)]
    {
      if success {
        table.rows := table.rows[copy.id := copy.row.(status := Sent)];
      } else {
        RegisterFailure(copy, now);
      }
    }
  }
}
