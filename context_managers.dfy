/**
  The two class-based context managers over a SQLite connection.

  `DatabaseConnection` opens the connection in `__enter__` and hands it to
  the `with` block; `ExecuteQuery` opens it, runs its query (with the
  parameters only when they are truthy), fetches every row and hands the
  rows to the block. Both `__exit__` methods do the same: when a
  connection exists they roll back if the block raised and commit
  otherwise, then close it; they return None, so an exception of the block
  propagates.

  Python calls `__exit__` only when `__enter__` returned. A connect error
  therefore propagates with no connection, and a query error raised inside
  `ExecuteQuery.__enter__` propagates with the connection still open.

  Connect failures, query answers and the block's own exception are
  parameters; what the block does on the connection is one `Called` event.
 */
module ContextManagers {
  import opened Tables
  import opened Sqlite

  /** What `__exit__` does to an existing connection: roll back after an exception, commit otherwise, then close. */
  function ExitEvents(blockRaised: bool): seq<Event>
  {
    [if blockRaised then RolledBack else Committed, Closed]
  }

  /**
    `__exit__` settles the transaction exactly once, the way the block
    ended, and closing is the last thing it does.
   */
  lemma ExitSettlesOnce(blockRaised: bool)
    ensures var t := ExitEvents(blockRaised);
      && (Committed in t <==> !blockRaised)
      && (RolledBack in t <==> blockRaised)
      && t[|t| - 1] == Closed
      && Closed !in t[..|t| - 1]
  {
  }

  class DatabaseConnection {
    const dbName: string
    var conn: Connection?

    constructor (dbName: string)
      ensures this.dbName == dbName && conn == null
    {
      this.dbName := dbName;
      conn := null;
    }

    /** `__enter__`: the connection it opens is both stored and returned; a connect error propagates. */
    method Enter(connectFailure: Option<Error>) returns (r: Outcome<Connection>)
      modifies this
      ensures connectFailure.Some? ==> r == Raised(connectFailure.value) && conn == old(conn)
      ensures connectFailure.None? ==>
        && r.Returned? && conn == r.value && fresh(conn)
        && conn.isOpen && conn.events == [Opened]
    {
      if connectFailure.Some? {
        return Raised(connectFailure.value);
      }
      conn := new Connection.Open();
      r := Returned(conn);
    }

    /** `__exit__`: nothing without a connection; otherwise rollback or commit, then close. */
    method Exit(blockRaised: bool)
      modifies conn
      ensures conn == old(conn)
      ensures conn != null ==> conn.events == old(conn.events) + ExitEvents(blockRaised) && !conn.isOpen
    {
      if conn != null {
        if blockRaised {
          conn.Rollback();
        } else {
          conn.Commit(None);
        }
        conn.Close();
      }
    }
  }

  /**
    A `with DatabaseConnection(dbName) as conn:` statement whose block ends
    as `block` says. A connect error propagates and `__exit__` never runs;
    otherwise the block's value or exception is the statement's, and the
    connection's life is open, the block, commit or rollback, close.
   */
  method WithDatabaseConnection<V>(dbName: string, connectFailure: Option<Error>, block: Outcome<V>)
    returns (r: Outcome<V>, cm: DatabaseConnection)
    ensures fresh(cm) && cm.dbName == dbName
    ensures connectFailure.Some? ==> r == Raised(connectFailure.value) && cm.conn == null
    ensures connectFailure.None? ==>
      && r == block
      && cm.conn != null && fresh(cm.conn) && !cm.conn.isOpen
      && cm.conn.events == [Opened, Called] + ExitEvents(block.Raised?)
  {
    cm := new DatabaseConnection(dbName);
    var entered := cm.Enter(connectFailure);
    if entered.Raised? {
      return Raised(entered.error), cm;
    }
    var conn := entered.value;
    conn.Call();
    r := block;
    cm.Exit(block.Raised?);
  }

  /** `if self.params:` picks the two-argument `execute` only for a present, non-empty parameter sequence. */
  function ChooseExecute(query: string, params: Option<seq<string>>): (call: ExecuteCall)
    ensures call.query == query
    ensures call.WithParams? <==> params.Some? && params.value != []
    ensures call.WithParams? ==> call.params == params.value
  {
    if params.Some? && params.value != [] then WithParams(query, params.value) else Plain(query)
  }

  class ExecuteQuery {
    const dbName: string
    const query: string
    const params: Option<seq<string>>
    var conn: Connection?
    /** Whether `self.cursor` has been set. */
    var hasCursor: bool
    var results: seq<Row>

    constructor (dbName: string, query: string, params: Option<seq<string>>)
      ensures this.dbName == dbName && this.query == query && this.params == params
      ensures conn == null && !hasCursor && results == []
    {
      this.dbName := dbName;
      this.query := query;
      this.params := params;
      conn := null;
      hasCursor := false;
      results := [];
    }

    /**
      `__enter__`: connect, take a cursor, execute, fetch all rows, store
      and return them. `answer` is what executing and fetching return or
      raise; every error is re-raised, and once connected the connection
      stays stored whether or not the query succeeded.
     */
    method Enter(connectFailure: Option<Error>, answer: Outcome<seq<Row>>) returns (r: Outcome<seq<Row>>)
      modifies this
      ensures connectFailure.Some? ==>
        && r == Raised(connectFailure.value)
        && conn == old(conn) && hasCursor == old(hasCursor) && results == old(results)
      ensures connectFailure.None? ==>
        && r == answer
        && conn != null && fresh(conn) && conn.isOpen && hasCursor
        && conn.events == [Opened, Executed(ChooseExecute(query, params))]
        && results == (if answer.Returned? then answer.value else old(results))
    {
      if connectFailure.Some? {
        return Raised(connectFailure.value);
      }
      conn := new Connection.Open();
      hasCursor := true;
      conn.Execute(ChooseExecute(query, params));
      if answer.Raised? {
        return answer;
      }
      results := answer.value;
      r := Returned(results);
    }

    /** `__exit__`: nothing without a connection; otherwise rollback or commit, then close. */
    method Exit(blockRaised: bool)
      modifies conn
      ensures conn == old(conn)
      ensures conn != null ==> conn.events == old(conn.events) + ExitEvents(blockRaised) && !conn.isOpen
    {
      if conn != null {
        if blockRaised {
          conn.Rollback();
        } else {
          conn.Commit(None);
        }
        conn.Close();
      }
    }
  }

  /**
    A `with ExecuteQuery(dbName, query, params) as results:` statement
    whose block raises `blockFailure`, if anything. When the query itself
    raises, `__exit__` never runs and the opened connection is left open;
    once the rows are fetched, the block's exception or the rows are the
    statement's result, and the connection is committed or rolled back and
    closed.
   */
  method WithExecuteQuery(dbName: string, query: string, params: Option<seq<string>>,
                          connectFailure: Option<Error>, answer: Outcome<seq<Row>>, blockFailure: Option<Error>)
    returns (r: Outcome<seq<Row>>, cm: ExecuteQuery)
    ensures fresh(cm) && cm.query == query && cm.params == params
    ensures connectFailure.Some? ==> r == Raised(connectFailure.value) && cm.conn == null
    ensures connectFailure.None? && answer.Raised? ==>
      && r == answer
      && cm.conn != null && cm.conn.isOpen
      && cm.conn.events == [Opened, Executed(ChooseExecute(query, params))]
    ensures connectFailure.None? && answer.Returned? ==>
      && r == (if blockFailure.Some? then Raised(blockFailure.value) else answer)
      && cm.results == answer.value
      && cm.conn != null && fresh(cm.conn) && !cm.conn.isOpen
      && cm.conn.events == [Opened, Executed(ChooseExecute(query, params))] + ExitEvents(blockFailure.Some?)
  {
    cm := new ExecuteQuery(dbName, query, params);
    var entered := cm.Enter(connectFailure, answer);
    if entered.Raised? {
      return entered, cm;
    }
    r := if blockFailure.Some? then Raised(blockFailure.value) else entered;
    cm.Exit(blockFailure.Some?);
  }
}
