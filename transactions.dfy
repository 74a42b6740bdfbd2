/**
  The `transactional` decorator and its use under `with_db_connection`.
  `transactional` runs the wrapped function on the connection, commits when
  it returns, and on any exception (from the function or from the commit)
  rolls back and re-raises it. `with_db_connection` opens a connection,
  passes it to the wrapped function, re-raises whatever that raises, and
  closes the connection in its `finally`.

  The wrapped function is given by its outcome, and each connection step
  that can fail by the exception it raises (None when it succeeds).
 */
module Transactions {
  import opened Tables
  import opened Sqlite

  /** The events `transactional` leaves after the wrapped call. */
  function TransactionEnd<V>(result: Outcome<V>, commitFailure: Option<Error>): seq<Event>
  {
    if result.Raised? then [RolledBack]
    else if commitFailure.Some? then [CommitFailed, RolledBack]
    else [Committed]
  }

  /** What the decorated function returns or raises. */
  function TransactionResult<V>(result: Outcome<V>, commitFailure: Option<Error>): (r: Outcome<V>)
    ensures r.Returned? <==> result.Returned? && commitFailure.None?
    ensures r.Returned? ==> r == result
    ensures result.Raised? ==> r == result
    ensures result.Returned? && commitFailure.Some? ==> r == Raised(commitFailure.value)
  {
    if result.Raised? then result
    else if commitFailure.Some? then Raised(commitFailure.value)
    else result
  }

  /** `transactional`'s wrapper on an open connection. */
  method Transactional<V>(conn: Connection, result: Outcome<V>, commitFailure: Option<Error>) returns (r: Outcome<V>)
    modifies conn
    ensures conn.events == old(conn.events) + [Called] + TransactionEnd(result, commitFailure)
    ensures conn.isOpen == old(conn.isOpen)
    ensures r == TransactionResult(result, commitFailure)
  {
    conn.Call();
    if result.Raised? {
      conn.Rollback();
      return result;
    }
    conn.Commit(commitFailure);
    if commitFailure.Some? {
      conn.Rollback();
      return Raised(commitFailure.value);
    }
    r := result;
  }

  /**
    After the call, exactly one of commit and rollback ends the transaction
    for good: the decorated function returns iff a commit happened, and a
    commit is never followed by a rollback.
   */
  lemma TransactionEndsOnce<V>(result: Outcome<V>, commitFailure: Option<Error>)
    ensures var t := [Called] + TransactionEnd(result, commitFailure);
      && (Committed in t <==> TransactionResult(result, commitFailure).Returned?)
      && (RolledBack in t <==> TransactionResult(result, commitFailure).Raised?)
      && (forall i, j :: 0 <= i < j < |t| && t[i] == Committed ==> t[j] != RolledBack)
      && (forall i :: 0 <= i < |t| && t[i] == Committed ==> t[0] == Called && i > 0)
  {
  }

  /** A connection's whole life under `with_db_connection`: opened first, closed last, and only then. */
  ghost predicate Bracketed(t: seq<Event>)
  {
    && |t| >= 2
    && t[0] == Opened
    && t[|t| - 1] == Closed
    && forall i :: 0 < i < |t| - 1 ==> t[i] != Opened && t[i] != Closed
  }

  /**
    `update_user_email`, decorated with `with_db_connection` over
    `transactional`: a failed connect re-raises its error and no connection
    exists; otherwise the connection is opened, the transaction runs, and
    the connection is closed after its commit or rollback on every path.
   */
  method UpdateUserEmail<V>(connectFailure: Option<Error>, result: Outcome<V>, commitFailure: Option<Error>)
    returns (r: Outcome<V>, conn: Connection?)
    ensures connectFailure.Some? ==> r == Raised(connectFailure.value) && conn == null
    ensures connectFailure.None? ==>
      && conn != null && fresh(conn) && !conn.isOpen
      && conn.events == [Opened, Called] + TransactionEnd(result, commitFailure) + [Closed]
      && r == TransactionResult(result, commitFailure)
  {
    if connectFailure.Some? {
      return Raised(connectFailure.value), null;
    }
    conn := new Connection.Open();
    r := Transactional(conn, result, commitFailure);
    conn.Close();
  }

  lemma UpdateUserEmailBracketed<V>(result: Outcome<V>, commitFailure: Option<Error>)
    ensures Bracketed([Opened, Called] + TransactionEnd(result, commitFailure) + [Closed])
  {
  }
}
