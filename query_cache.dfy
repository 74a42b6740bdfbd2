/**
  The `cache_query` decorator: a module-level dictionary from SQL text to
  result rows. A query already in the dictionary is answered from it
  without running the wrapped function; otherwise the function runs once
  and, if it returns, its rows (as a tuple) are stored under the query and
  returned. Entries are never removed. `fetch_users_with_cache` stacks
  `with_db_connection` on top, so every call opens and closes a connection.

  What running a query returns or raises is the parameter `answer`; the
  execution is recorded on the connection.
 */
module QueryCache {
  import opened Tables
  import opened Sqlite

  /** The result of one call of the wrapper, the dictionary after it, and whether the query ran. */
  datatype CacheStep = CacheStep(result: Outcome<seq<Row>>, entries: map<string, seq<Row>>, executed: bool)

  /** One call of `cache_query`'s wrapper, keyed by the query text alone. */
  function CacheQuery(entries: map<string, seq<Row>>, query: string, answer: Outcome<seq<Row>>): (step: CacheStep)
    ensures step.executed <==> query !in entries
    ensures !step.executed ==> step.result == Returned(entries[query]) && step.entries == entries
    ensures step.executed ==> step.result == answer
    ensures step.result.Returned? ==> query in step.entries && step.entries[query] == step.result.value
    ensures step.result.Raised? ==> step.entries == entries
    ensures entries.Keys <= step.entries.Keys
    ensures forall k :: k in entries && k != query ==> step.entries[k] == entries[k]
  {
    if query in entries then CacheStep(Returned(entries[query]), entries, false)
    else if answer.Raised? then CacheStep(answer, entries, true)
    else CacheStep(answer, entries[query := answer.value], true)
  }

  /**
    A second call with the same query is a hit: it returns what the first
    call returned, runs nothing, and leaves the dictionary alone, whatever
    the database would answer now.
   */
  lemma SecondCallHits(entries: map<string, seq<Row>>, query: string, first: Outcome<seq<Row>>, later: Outcome<seq<Row>>)
    requires CacheQuery(entries, query, first).result.Returned?
    ensures var step1 := CacheQuery(entries, query, first);
      var step2 := CacheQuery(step1.entries, query, later);
      && !step2.executed
      && step2.result == step1.result
      && step2.entries == step1.entries
  {
  }

  /** Any run of calls only adds keys and never changes a stored entry. */
  lemma {:induction false} NeverEvicted(entries: map<string, seq<Row>>, queries: seq<string>, answers: seq<Outcome<seq<Row>>>)
    requires |answers| == |queries|
    ensures entries.Keys <= Replay(entries, queries, answers).Keys
    ensures forall k :: k in entries ==> Replay(entries, queries, answers)[k] == entries[k]
    decreases |queries|
  {
    if queries != [] {
      var next := CacheQuery(entries, queries[0], answers[0]).entries;
      NeverEvicted(next, queries[1..], answers[1..]);
    }
  }

  /** The dictionary after a run of calls. */
  function Replay(entries: map<string, seq<Row>>, queries: seq<string>, answers: seq<Outcome<seq<Row>>>): map<string, seq<Row>>
    requires |answers| == |queries|
    decreases |queries|
  {
    if queries == [] then entries
    else Replay(CacheQuery(entries, queries[0], answers[0]).entries, queries[1..], answers[1..])
  }

  /** The module-level `query_cache`. */
  class Cache {
    var entries: map<string, seq<Row>>

    constructor ()
      ensures entries == map[]
    {
      entries := map[];
    }

    /** `cache_query`'s wrapper on an open connection. */
    method Query(conn: Connection, query: string, answer: Outcome<seq<Row>>) returns (result: Outcome<seq<Row>>)
      modifies this, conn
      ensures var step := CacheQuery(old(entries), query, answer);
        && result == step.result
        && entries == step.entries
        && conn.events == old(conn.events) + (if step.executed then [Executed(Plain(query))] else [])
      ensures conn.isOpen == old(conn.isOpen)
    {
      if query in entries {
        return Returned(entries[query]);
      }
      conn.Execute(Plain(query));
      result := answer;
      if result.Returned? {
        var cached := result.value;
        entries := entries[query := cached];
        result := Returned(cached);
      }
    }
  }

  /**
    `fetch_users_with_cache`: a failed connect raises with no connection;
    otherwise the cached query runs on a fresh connection, which is closed
    afterwards on every path.
   */
  method FetchUsersWithCache(cache: Cache, query: string, connectFailure: Option<Error>, answer: Outcome<seq<Row>>)
    returns (result: Outcome<seq<Row>>, conn: Connection?)
    modifies cache
    ensures connectFailure.Some? ==> result == Raised(connectFailure.value) && conn == null && cache.entries == old(cache.entries)
    ensures connectFailure.None? ==>
      var step := CacheQuery(old(cache.entries), query, answer);
      && conn != null && fresh(conn) && !conn.isOpen
      && result == step.result && cache.entries == step.entries
      && conn.events == [Opened] + (if step.executed then [Executed(Plain(query))] else []) + [Closed]
  {
    if connectFailure.Some? {
      return Raised(connectFailure.value), null;
    }
    conn := new Connection.Open();
    result := cache.Query(conn, query, answer);
    conn.Close();
  }

  /**
    The script's two calls with the same query on an empty cache: when the
    first returns, the second returns the same rows whatever the database
    would answer by then (`laterAnswer`), and runs nothing. The script
    stops when the first call raises; the last clause describes the
    decorator, which would then query the database again on a second call.
   */
  method TwoCalls(query: string, answer: Outcome<seq<Row>>, laterAnswer: Outcome<seq<Row>>)
    returns (users: Outcome<seq<Row>>, usersAgain: Outcome<seq<Row>>)
    ensures users == answer
    ensures users.Returned? ==> usersAgain == users
    ensures users.Raised? ==> usersAgain == laterAnswer
  {
    var cache := new Cache();
    var first, second;
    users, first := FetchUsersWithCache(cache, query, None, answer);
    usersAgain, second := FetchUsersWithCache(cache, query, None, laterAnswer);
  }
}
