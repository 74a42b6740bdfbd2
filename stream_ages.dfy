/**
  Aggregation over the `age` column: `stream_user_ages` runs
  `SELECT age FROM user_data LIMIT batch_size OFFSET offset` for
  offset = 0, batch_size, 2 * batch_size, ... and yields each non-empty
  batch of first-column values; `calculate_average_age` adds up, batch by
  batch, `int(sum(batch))` into `total_age` and `len(batch)` into `count`.

  Ages are the column's DECIMAL values, taken as reals. Whether a connection
  is obtained is the parameter `connected`.
 */
module StreamAges {
  import opened Tables

  /** Python's `int()` on a number: truncation toward zero. */
  function Trunc(r: real): int
  {
    if r >= 0.0 then r.Floor else -((-r).Floor)
  }

  function Sum(ages: seq<real>): real
  {
    if ages == [] then 0.0 else ages[0] + Sum(ages[1..])
  }

  /** `total_age` after the given batches: each batch's sum truncated, then added up. */
  function TruncatedTotal(batches: seq<seq<real>>): int
  {
    if batches == [] then 0 else TruncatedTotal(batches[..|batches| - 1]) + Trunc(Sum(batches[|batches| - 1]))
  }

  predicate Whole(r: real)
  {
    r == r.Floor as real
  }

  /** What `calculate_average_age` returns for a total and a count; 0.0 when nothing was read. */
  function Average(totalAge: int, count: nat): (avg: real)
    ensures count == 0 ==> avg == 0.0
    ensures count > 0 ==> avg * count as real == totalAge as real
  {
    if count > 0 then totalAge as real / count as real else 0.0
  }

  /**
    `stream_user_ages`: the LIMIT/OFFSET batches, non-empty, in order; none
    without a connection. `closed` reports the `finally` that closes the
    cursor and the connection, which both exist only after a connect.
   */
  method StreamUserAges(ages: seq<real>, connected: bool, batchSize: nat) returns (batches: seq<seq<real>>, closed: bool)
    ensures batches == if connected then AllPages(ages, batchSize) else []
    ensures closed == connected
  {
    batches, closed := [], false;
    if !connected {
      return;
    }
    var offset: nat := 0;
    while true
      invariant ScanFrom(ages, batchSize, batches, offset) == ScanFrom(ages, batchSize, [], 0)
      decreases |ages| - offset
    {
      var batch := Window(ages, offset, batchSize);
      if |batch| == 0 {
        break;
      }
      batches := batches + [batch];
      offset := offset + batchSize;
    }
    ScanAll(ages, batchSize);
    closed := true;
  }

  /**
    `calculate_average_age`: `count` is the number of ages read, `totalAge`
    the truncated batch sums added up, and the result their quotient.
   */
  method CalculateAverageAge(ages: seq<real>, connected: bool, batchSize: nat)
    returns (totalAge: int, count: nat, average: real)
    ensures count == if connected && batchSize > 0 then |ages| else 0
    ensures totalAge == TruncatedTotal(if connected then AllPages(ages, batchSize) else [])
    ensures average == Average(totalAge, count)
  {
    var batches, _ := StreamUserAges(ages, connected, batchSize);
    totalAge, count := 0, 0;
    for i := 0 to |batches|
      invariant totalAge == TruncatedTotal(batches[..i])
      invariant count == |Flatten(batches[..i])|
    {
      var batch := batches[i];
      assert batches[..i + 1] == batches[..i] + [batch];
      FlattenAppend(batches[..i], batch);
      totalAge := totalAge + Trunc(Sum(batch));
      count := count + |batch|;
    }
    assert batches[..|batches|] == batches;
    if connected && batchSize > 0 {
      AllPagesCover(ages, batchSize);
    }
    average := if count > 0 then totalAge as real / count as real else 0.0;
  }

  lemma {:induction false} SumAppend(a: seq<real>, b: seq<real>)
    ensures Sum(a + b) == Sum(a) + Sum(b)
  {
    if a == [] {
      assert a + b == b;
    } else {
      assert (a + b)[1..] == a[1..] + b;
      SumAppend(a[1..], b);
    }
  }

  lemma TruncWhole(r: real)
    requires Whole(r)
    ensures Trunc(r) as real == r
  {
    if r < 0.0 {
      var n := r.Floor;
      assert -r == (-n) as real;
      assert (-r).Floor == -n;
    }
  }

  /** A sum of whole numbers is a whole number, so truncating it loses nothing. */
  lemma {:induction false} WholeSum(ages: seq<real>)
    requires forall i :: 0 <= i < |ages| ==> Whole(ages[i])
    ensures Whole(Sum(ages))
  {
    if ages != [] {
      WholeSum(ages[1..]);
      var a, b := ages[0].Floor, Sum(ages[1..]).Floor;
      assert Sum(ages) == (a + b) as real;
    }
  }

  /**
    For whole-number ages (the column is an integer DECIMAL), `totalAge` is
    exactly the sum of all ages read.
   */
  lemma {:induction false} TruncatedTotalOfWholeAges(batches: seq<seq<real>>)
    requires forall x :: x in Flatten(batches) ==> Whole(x)
    ensures TruncatedTotal(batches) as real == Sum(Flatten(batches))
  {
    if batches != [] {
      var init, last := batches[..|batches| - 1], batches[|batches| - 1];
      assert batches == init + [last];
      FlattenAppend(init, last);
      TruncatedTotalOfWholeAges(init);
      assert forall i :: 0 <= i < |last| ==> last[i] in Flatten(batches);
      WholeSum(last);
      TruncWhole(Sum(last));
      SumAppend(Flatten(init), last);
    }
  }

  /** With a connection and whole-number ages, the average is the sum of all ages over their number. */
  lemma AverageOfWholeAges(ages: seq<real>, batchSize: nat)
    requires batchSize > 0 && |ages| > 0
    requires forall i :: 0 <= i < |ages| ==> Whole(ages[i])
    ensures Average(TruncatedTotal(AllPages(ages, batchSize)), |ages|) * |ages| as real == Sum(ages)
  {
    var batches := AllPages(ages, batchSize);
    AllPagesCover(ages, batchSize);
    TruncatedTotalOfWholeAges(batches);
  }
}
