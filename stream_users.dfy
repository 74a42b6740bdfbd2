/**
  Row-at-a-time streaming: `connect_to_prodev` yields a connection, or
  `None` when connecting fails, and `stream_users` reads the selected rows
  with `fetchone()` until it returns `None`, yielding each row.
 */
module StreamUsers {
  import opened Tables

  /** `cursor.fetchone()` on a buffered result positioned at row `position`. */
  function FetchOne<T>(rows: seq<T>, position: nat): (row: Option<T>)
    ensures row.None? <==> position >= |rows|
    ensures row.Some? ==> row.value == rows[position]
  {
    if position < |rows| then Some(rows[position]) else None
  }

  /**
    `stream_users`: every selected row exactly once, in cursor order, or
    nothing when no connection was obtained. `cursorClosed` reports the
    `finally` that closes the cursor, which exists only with a connection.
   */
  method StreamUsers<T>(rows: seq<T>, connected: bool) returns (yielded: seq<T>, cursorClosed: bool)
    ensures yielded == if connected then rows else []
    ensures cursorClosed == connected
  {
    yielded, cursorClosed := [], false;
    if !connected {
      return;
    }
    var position: nat := 0;
    while true
      invariant position <= |rows|
      invariant yielded == rows[..position]
      decreases |rows| - position
    {
      var row := FetchOne(rows, position);
      if row.None? {
        break;
      }
      yielded := yielded + [row.value];
      position := position + 1;
    }
    assert rows[..|rows|] == rows;
    cursorClosed := true;
  }
}
