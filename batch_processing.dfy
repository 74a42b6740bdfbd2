/**
  Batch processing of `user_data`: `stream_users_in_batches` runs
  `SELECT * FROM user_data` once and yields `fetchmany(batch_size)` batches
  until one is empty; `batch_processing` yields, batch by batch, the users
  whose age is a number that `int()` turns into something above 25.

  Whether `connect_to_prodev` returns a connection is the parameter
  `connected`; the generators are modelled by the lists they yield.
 */
module BatchProcessing {
  import opened Tables

  /** A value of the `age` column as the driver returns it (absent keys read as `Null`). */
  datatype Cell = Null | IntCell(i: int) | FloatCell(f: real) | DecimalCell(d: real) | TextCell(s: string)

  datatype UserRow = UserRow(userId: string, name: string, email: string, age: Cell)

  /** Python's `int()` on a number: truncation toward zero. */
  function Trunc(r: real): int
  {
    if r >= 0.0 then r.Floor else -((-r).Floor)
  }

  /** The test on line 63: not None, an int/float/Decimal, and `int(age) > 25`. */
  predicate Over25(age: Cell)
  {
    match age
    case IntCell(i) => i > 25
    case FloatCell(f) => Trunc(f) > 25
    case DecimalCell(d) => Trunc(d) > 25
    case _ => false
  }

  /** The users `batch_processing` keeps, in their original order. */
  function Adults(rows: seq<UserRow>): seq<UserRow>
  {
    if rows == [] then []
    else Adults(rows[..|rows| - 1]) + (if Over25(rows[|rows| - 1].age) then [rows[|rows| - 1]] else [])
  }

  /** A fractional age is kept exactly when it is at least 26: 25.9 truncates to 25 and is dropped. */
  lemma Over25Threshold(age: Cell)
    ensures Over25(age) <==>
      match age
      case IntCell(i) => i >= 26
      case FloatCell(f) => f >= 26.0
      case DecimalCell(d) => d >= 26.0
      case _ => false
  {
    match age
    case FloatCell(f) => TruncAbove25(f);
    case DecimalCell(d) => TruncAbove25(d);
    case _ =>
  }

  lemma TruncAbove25(r: real)
    ensures Trunc(r) > 25 <==> r >= 26.0
  {
    if r >= 0.0 {
      assert r.Floor as real <= r < r.Floor as real + 1.0;
    } else {
      assert Trunc(r) <= 0;
    }
  }

  /** A user is yielded exactly when they are in the table and pass the age test. */
  lemma {:induction false} AdultsMembers(rows: seq<UserRow>, u: UserRow)
    ensures u in Adults(rows) <==> u in rows && Over25(u.age)
  {
    if rows != [] {
      var init := rows[..|rows| - 1];
      AdultsMembers(init, u);
      assert rows == init + [rows[|rows| - 1]];
    }
  }

  lemma AdultsAppend(rows: seq<UserRow>, u: UserRow)
    ensures Adults(rows + [u]) == Adults(rows) + (if Over25(u.age) then [u] else [])
  {
    assert (rows + [u])[..|rows|] == rows;
  }

  /**
    `stream_users_in_batches`: the cursor's batches, each non-empty and at
    most `batchSize` long. `closed` reports the `finally` that closes the
    cursor and the connection, which both exist only after a connect.
   */
  method StreamUsersInBatches<T>(table: seq<T>, connected: bool, batchSize: nat) returns (batches: seq<seq<T>>, closed: bool)
    requires batchSize > 0
    ensures batches == if connected then PagesFrom(table, batchSize, 0) else []
    ensures Flatten(batches) == if connected then table else []
    ensures forall k :: 0 <= k < |batches| ==> 0 < |batches[k]| <= batchSize
    ensures closed == connected
  {
    batches, closed := [], false;
    if connected {
      var cursor: nat := 0;
      while true
        invariant ScanFrom(table, batchSize, batches, cursor) == ScanFrom(table, batchSize, [], 0)
        decreases |table| - cursor
      {
        var batch := Window(table, cursor, batchSize);
        if |batch| == 0 {
          break;
        }
        ScanAfter(table, batchSize, batches + [batch], cursor);
        batches := batches + [batch];
        cursor := cursor + |batch|;
      }
      ScanAll(table, batchSize);
      AllPagesCover(table, batchSize);
      PagesBounded(table, batchSize, 0);
      closed := true;
    }
  }

  /** One more user of a batch read: the kept users grow by that user exactly when they pass the test. */
  lemma AdultsStep(before: seq<UserRow>, batch: seq<UserRow>, j: nat)
    requires j < |batch|
    ensures Adults(before + batch[..j + 1])
         == Adults(before + batch[..j]) + (if Over25(batch[j].age) then [batch[j]] else [])
  {
    assert before + batch[..j + 1] == (before + batch[..j]) + [batch[j]];
    AdultsAppend(before + batch[..j], batch[j]);
  }

  /** The inner loop of `batch_processing` over one batch. */
  method KeepAdults(users: seq<UserRow>, ghost before: seq<UserRow>, batch: seq<UserRow>) returns (out: seq<UserRow>)
    requires users == Adults(before)
    ensures out == Adults(before + batch)
  {
    out := users;
    assert before + batch[..0] == before;
    for j := 0 to |batch|
      invariant out == Adults(before + batch[..j])
    {
      AdultsStep(before, batch, j);
      if Over25(batch[j].age) {
        out := out + [batch[j]];
      }
    }
    assert batch[..|batch|] == batch;
  }

  /** `batch_processing`: exactly the users over 25, in table order; nothing without a connection. */
  method BatchProcessing(table: seq<UserRow>, connected: bool, batchSize: nat) returns (users: seq<UserRow>)
    requires batchSize > 0
    ensures users == Adults(if connected then table else [])
  {
    var batches, _ := StreamUsersInBatches(table, connected, batchSize);
    users := [];
    for i := 0 to |batches|
      invariant users == Adults(Flatten(batches[..i]))
    {
      FlattenPrefixStep(batches, i);
      users := KeepAdults(users, Flatten(batches[..i]), batches[i]);
    }
    assert batches[..|batches|] == batches;
  }
}
