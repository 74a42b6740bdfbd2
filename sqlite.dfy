/**
  An abstract SQLite connection for the decorator and context-manager
  exercises. The connection records what is done to it as a trace of
  events, so that commit, rollback and close order can be stated; query
  answers come from the callers as parameters.

  Exceptions follow the `sqlite3` class tree: every class below derives from
  `sqlite3.Error`, and all but `Error` itself and `InterfaceError` derive
  from `sqlite3.DatabaseError` (`OperationalError` and `IntegrityError`
  among them).
 */
module Sqlite {
  import opened Tables

  datatype SqliteClass =
    | BaseError
    | InterfaceError
    | DatabaseError
    | OperationalError
    | IntegrityError
    | ProgrammingError
    | DataError
    | InternalError
    | NotSupportedError

  datatype Error = SqliteError(cls: SqliteClass, message: string) | OtherError(message: string)

  /** `except (sqlite3.OperationalError, sqlite3.DatabaseError)` catches exactly the DatabaseError subtree. */
  predicate IsDatabaseError(e: Error)
  {
    e.SqliteError? && e.cls != BaseError && e.cls != InterfaceError
  }

  /** The result of a Python call: a value, or the exception it raised. */
  datatype Outcome<V> = Returned(value: V) | Raised(error: Error)

  /** A row as a tuple of column values. */
  type Row = seq<string>

  /** `cursor.execute(query, params)` or `cursor.execute(query)`. */
  datatype ExecuteCall = WithParams(query: string, params: seq<string>) | Plain(query: string)

  datatype Event =
    | Opened
    | Called
    | Executed(call: ExecuteCall)
    | Committed
    | CommitFailed
    | RolledBack
    | Closed

  class Connection {
    var events: seq<Event>
    var isOpen: bool

    /** `sqlite3.connect(...)` when it succeeds. */
    constructor Open()
      ensures events == [Opened] && isOpen
    {
      events, isOpen := [Opened], true;
    }

    /** The wrapped function ran on this connection. */
    method Call()
      modifies this
      ensures events == old(events) + [Called] && isOpen == old(isOpen)
    {
      events := events + [Called];
    }

    method Execute(call: ExecuteCall)
      modifies this
      ensures events == old(events) + [Executed(call)] && isOpen == old(isOpen)
    {
      events := events + [Executed(call)];
    }

    /** `conn.commit()`; `failure` is the exception it raises, if any. */
    method Commit(failure: Option<Error>)
      modifies this
      ensures events == old(events) + [if failure.None? then Committed else CommitFailed]
      ensures isOpen == old(isOpen)
    {
      events := events + [if failure.None? then Committed else CommitFailed];
    }

    method Rollback()
      modifies this
      ensures events == old(events) + [RolledBack] && isOpen == old(isOpen)
    {
      events := events + [RolledBack];
    }

    method Close()
      modifies this
      ensures events == old(events) + [Closed] && !isOpen
    {
      events, isOpen := events + [Closed], false;
    }
  }
}
