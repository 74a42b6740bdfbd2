/**
  The `retry_on_failure(retries, delay)` decorator: attempts 1 to `retries`
  call the wrapped function; a value ends the loop, an exception of the
  `sqlite3.DatabaseError` family is followed by a sleep unless it came from
  the last attempt, which re-raises it, and any other exception propagates
  at once. With `retries <= 0` the loop body never runs and the wrapper
  returns None.

  `outcomes(k)` is what the k-th attempt (counting from 1) returns or
  raises; sleeping is counted, not performed.
 */
module Retry {
  import opened Tables
  import opened Sqlite

  datatype RetryOutcome<V> = Value(value: V) | Reraised(error: Error) | NoneReturned

  /** What a run of the wrapper comes to: its outcome, how many calls and how many sleeps. */
  datatype RetryRun<V> = RetryRun(outcome: RetryOutcome<V>, calls: nat, sleeps: nat)

  /** The loop from attempt `attempt` on. */
  function RunFrom<V>(retries: int, attempt: nat, outcomes: nat -> Outcome<V>): RetryRun<V>
    requires attempt >= 1
    decreases if attempt <= retries then retries - attempt + 1 else 0
  {
    if attempt > retries then RetryRun(NoneReturned, 0, 0)
    else match outcomes(attempt)
      case Returned(v) => RetryRun(Value(v), 1, 0)
      case Raised(e) =>
        if !IsDatabaseError(e) then RetryRun(Reraised(e), 1, 0)
        else if attempt < retries then
          var rest := RunFrom(retries, attempt + 1, outcomes);
          RetryRun(rest.outcome, rest.calls + 1, rest.sleeps + 1)
        else RetryRun(Reraised(e), 1, 0)
  }

  function Run<V>(retries: int, outcomes: nat -> Outcome<V>): RetryRun<V>
  {
    RunFrom(retries, 1, outcomes)
  }

  /** The wrapper's loop; each attempt calls the wrapped function on `conn`. */
  method RetryOnFailure<V>(conn: Connection, retries: int, outcomes: nat -> Outcome<V>)
    returns (outcome: RetryOutcome<V>, calls: nat, sleeps: nat)
    modifies conn
    ensures RetryRun(outcome, calls, sleeps) == Run(retries, outcomes)
    ensures conn.events == old(conn.events) + seq(calls, _ => Called) && conn.isOpen == old(conn.isOpen)
  {
    calls, sleeps := 0, 0;
    var attempt: nat := 1;
    while attempt <= retries
      invariant attempt >= 1
      invariant retries >= 1 ==> attempt <= retries
      invariant calls == attempt - 1 && sleeps == attempt - 1
      invariant var rest := RunFrom(retries, attempt, outcomes);
        RetryRun(rest.outcome, rest.calls + calls, rest.sleeps + sleeps) == Run(retries, outcomes)
      invariant conn.events == old(conn.events) + seq(calls, _ => Called) && conn.isOpen == old(conn.isOpen)
      decreases retries - attempt
    {
      conn.Call();
      assert seq(calls + 1, _ => Called) == seq(calls, _ => Called) + [Called];
      calls := calls + 1;
      match outcomes(attempt)
      case Returned(v) =>
        return Value(v), calls, sleeps;
      case Raised(e) =>
        if !IsDatabaseError(e) {
          return Reraised(e), calls, sleeps;
        }
        if attempt < retries {
          sleeps := sleeps + 1;
        } else {
          return Reraised(e), calls, sleeps;
        }
      attempt := attempt + 1;
    }
    outcome := NoneReturned;
  }

  /** Attempts from `attempt` on: at most the ones left, and one sleep between each two. */
  lemma {:induction false} RunFromBounds<V>(retries: int, attempt: nat, outcomes: nat -> Outcome<V>)
    requires attempt >= 1
    ensures var run := RunFrom(retries, attempt, outcomes);
      && run.calls <= (if attempt <= retries then retries - attempt + 1 else 0)
      && (attempt <= retries ==> run.calls >= 1 && run.sleeps == run.calls - 1)
      && (attempt > retries ==> run.calls == 0 && run.sleeps == 0)
    decreases if attempt <= retries then retries - attempt + 1 else 0
  {
    if attempt <= retries && outcomes(attempt).Raised? && IsDatabaseError(outcomes(attempt).error) && attempt < retries {
      RunFromBounds(retries, attempt + 1, outcomes);
    }
  }

  /**
    The wrapped function is called at most `retries` times (at least once
    when `retries >= 1`), and a sleep happens only between two attempts.
   */
  lemma CallsBounded<V>(retries: int, outcomes: nat -> Outcome<V>)
    ensures Run(retries, outcomes).calls <= (if retries > 0 then retries else 0)
    ensures retries >= 1 ==> Run(retries, outcomes).calls >= 1
    ensures Run(retries, outcomes).sleeps == (if Run(retries, outcomes).calls > 0 then Run(retries, outcomes).calls - 1 else 0)
  {
    RunFromBounds(retries, 1, outcomes);
  }

  /** Attempts before `k` all raised a DatabaseError. */
  ghost predicate TransientUntil<V>(outcomes: nat -> Outcome<V>, k: nat)
  {
    forall i :: 1 <= i < k ==> outcomes(i).Raised? && IsDatabaseError(outcomes(i).error)
  }

  lemma {:induction false} FirstSuccessFrom<V>(retries: int, attempt: nat, k: nat, outcomes: nat -> Outcome<V>)
    requires 1 <= attempt <= k <= retries
    requires forall i :: attempt <= i < k ==> outcomes(i).Raised? && IsDatabaseError(outcomes(i).error)
    requires outcomes(k).Returned?
    ensures RunFrom(retries, attempt, outcomes) == RetryRun(Value(outcomes(k).value), k - attempt + 1, k - attempt)
    decreases k - attempt
  {
    if attempt < k {
      FirstSuccessFrom(retries, attempt + 1, k, outcomes);
    }
  }

  /** The first attempt that returns ends the loop with its value; no attempt follows it. */
  lemma FirstSuccess<V>(retries: int, k: nat, outcomes: nat -> Outcome<V>)
    requires 1 <= k <= retries && TransientUntil(outcomes, k) && outcomes(k).Returned?
    ensures Run(retries, outcomes) == RetryRun(Value(outcomes(k).value), k, k - 1)
  {
    FirstSuccessFrom(retries, 1, k, outcomes);
  }

  lemma {:induction false} AllTransientFrom<V>(retries: int, attempt: nat, outcomes: nat -> Outcome<V>)
    requires 1 <= attempt <= retries
    requires forall i :: attempt <= i <= retries ==> outcomes(i).Raised? && IsDatabaseError(outcomes(i).error)
    ensures RunFrom(retries, attempt, outcomes)
         == RetryRun(Reraised(outcomes(retries).error), retries - attempt + 1, retries - attempt)
    decreases retries - attempt
  {
    if attempt < retries {
      AllTransientFrom(retries, attempt + 1, outcomes);
    }
  }

  /** When every attempt raises a DatabaseError, the last one is re-raised after `retries - 1` sleeps. */
  lemma AllTransient<V>(retries: int, outcomes: nat -> Outcome<V>)
    requires retries >= 1 && TransientUntil(outcomes, retries + 1)
    ensures Run(retries, outcomes) == RetryRun(Reraised(outcomes(retries).error), retries, retries - 1)
  {
    AllTransientFrom(retries, 1, outcomes);
  }

  lemma {:induction false} FatalFrom<V>(retries: int, attempt: nat, k: nat, outcomes: nat -> Outcome<V>)
    requires 1 <= attempt <= k <= retries
    requires forall i :: attempt <= i < k ==> outcomes(i).Raised? && IsDatabaseError(outcomes(i).error)
    requires outcomes(k).Raised? && !IsDatabaseError(outcomes(k).error)
    ensures RunFrom(retries, attempt, outcomes) == RetryRun(Reraised(outcomes(k).error), k - attempt + 1, k - attempt)
    decreases k - attempt
  {
    if attempt < k {
      FatalFrom(retries, attempt + 1, k, outcomes);
    }
  }

  /** An exception outside the DatabaseError family propagates from the attempt that raised it, with no retry. */
  lemma FatalNotRetried<V>(retries: int, k: nat, outcomes: nat -> Outcome<V>)
    requires 1 <= k <= retries && TransientUntil(outcomes, k)
    requires outcomes(k).Raised? && !IsDatabaseError(outcomes(k).error)
    ensures Run(retries, outcomes) == RetryRun(Reraised(outcomes(k).error), k, k - 1)
  {
    FatalFrom(retries, 1, k, outcomes);
  }

  /** With `retries <= 0` nothing is called and the wrapper returns None. */
  lemma NoAttempts<V>(retries: int, outcomes: nat -> Outcome<V>)
    requires retries <= 0
    ensures Run(retries, outcomes) == RetryRun(NoneReturned, 0, 0)
  {
  }

  /** The session of `fetch_users_with_retry`: `with_db_connection` over the retry loop. */
  function RetrySession(calls: nat): (t: seq<Event>)
    ensures |t| == calls + 2 && t[0] == Opened && t[|t| - 1] == Closed
    ensures forall i :: 0 < i < |t| - 1 ==> t[i] == Called
  {
    [Opened] + seq(calls, _ => Called) + [Closed]
  }

  /**
    `fetch_users_with_retry`: a failed connect raises with no connection;
    otherwise the retry loop runs on the opened connection, which is closed
    afterwards whatever the loop's outcome.
   */
  method FetchUsersWithRetry<V>(connectFailure: Option<Error>, retries: int, outcomes: nat -> Outcome<V>)
    returns (outcome: RetryOutcome<V>, conn: Connection?)
    ensures connectFailure.Some? ==> outcome == Reraised(connectFailure.value) && conn == null
    ensures connectFailure.None? ==>
      && conn != null && fresh(conn) && !conn.isOpen
      && outcome == Run(retries, outcomes).outcome
      && conn.events == RetrySession(Run(retries, outcomes).calls)
  {
    if connectFailure.Some? {
      return Reraised(connectFailure.value), null;
    }
    conn := new Connection.Open();
    var calls, sleeps;
    outcome, calls, sleeps := RetryOnFailure(conn, retries, outcomes);
    conn.Close();
  }
}
