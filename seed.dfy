/**
  Seeding and streaming the users table. `insert_data` reads CSV rows, gives
  each a new uuid4 `user_id`, converts its age with `int()`, and INSERTs it;
  an IntegrityError (the UNIQUE email or the primary key already present)
  skips that row, while a failing `int()` ends the whole import before its
  single commit. `stream_rows` yields the table's rows, fetching
  `batch_size` at a time until a batch is empty. `get_sql_credentials`
  reads the connection settings from a .env file or the environment.

  The CSV file, the uuid4 generator and Python's `int()` grammar are
  outside the model: each CSV row carries the outcome of `int()` on its age
  text, and the uuids are a parameter, one per CSV row.

  The two scripts differ in how the UNIQUE email column compares: SQLite's
  default BINARY collation compares exactly, MySQL's default collation
  ignores case (and, under utf8mb4_0900_ai_ci, accents). The model takes
  that comparison as a parameter `collate`: two emails clash exactly when
  their `collate` keys are equal.
 */
module Seed {
  import opened Tables

  datatype UserRecord = UserRecord(userId: string, name: string, email: string, age: int)

  /** One CSV line; `age` is `int()` of its age text, or None when `int()` raises. */
  datatype CsvRow = CsvRow(name: string, email: string, age: Option<int>)

  /** The collation keys of the table's emails. */
  function Emails(rows: seq<UserRecord>, collate: string -> string): set<string>
  {
    set r | r in rows :: collate(r.email)
  }

  function Ids(rows: seq<UserRecord>): set<string>
  {
    set r | r in rows :: r.userId
  }

  /** The table's constraints: `email` is UNIQUE and `user_id` is the PRIMARY KEY. */
  ghost predicate Keyed(rows: seq<UserRecord>, collate: string -> string)
  {
    forall i, j :: 0 <= i < j < |rows| ==> collate(rows[i].email) != collate(rows[j].email) && rows[i].userId != rows[j].userId
  }

  /** The INSERT succeeds unless it would break a constraint (then it raises IntegrityError). */
  predicate Accepted(rows: seq<UserRecord>, rec: UserRecord, collate: string -> string)
  {
    collate(rec.email) !in Emails(rows, collate) && rec.userId !in Ids(rows)
  }

  datatype ImportResult = ImportResult(rows: seq<UserRecord>, aborted: bool)

  /** The loop of `insert_data`: the rows the connection holds afterwards, and whether `int()` raised. */
  function Import(rows: seq<UserRecord>, csv: seq<CsvRow>, uuids: seq<string>, collate: string -> string): ImportResult
    requires |uuids| == |csv|
    decreases |csv|
  {
    if csv == [] then ImportResult(rows, false)
    else match csv[0].age
      case None => ImportResult(rows, true)
      case Some(age) =>
        var rec := UserRecord(uuids[0], csv[0].name, csv[0].email, age);
        Import(if Accepted(rows, rec, collate) then rows + [rec] else rows, csv[1..], uuids[1..], collate)
  }

  lemma AppendKeyed(rows: seq<UserRecord>, rec: UserRecord, collate: string -> string)
    requires Keyed(rows, collate) && Accepted(rows, rec, collate)
    ensures Keyed(rows + [rec], collate)
  {
    forall i | 0 <= i < |rows|
      ensures collate(rows[i].email) != collate(rec.email) && rows[i].userId != rec.userId
    {
      assert rows[i] in rows;
    }
  }

  /** After any import, emails (under the collation) and ids in the table are pairwise distinct. */
  lemma {:induction false} ImportKeyed(rows: seq<UserRecord>, csv: seq<CsvRow>, uuids: seq<string>, collate: string -> string)
    requires |uuids| == |csv| && Keyed(rows, collate)
    ensures Keyed(Import(rows, csv, uuids, collate).rows, collate)
    decreases |csv|
  {
    if csv != [] && csv[0].age.Some? {
      var rec := UserRecord(uuids[0], csv[0].name, csv[0].email, csv[0].age.value);
      if Accepted(rows, rec, collate) {
        AppendKeyed(rows, rec, collate);
        ImportKeyed(rows + [rec], csv[1..], uuids[1..], collate);
      } else {
        ImportKeyed(rows, csv[1..], uuids[1..], collate);
      }
    }
  }

  /**
    The import never removes or changes a row, and it aborts exactly when
    some CSV age is not an integer.
   */
  lemma {:induction false} ImportExtends(rows: seq<UserRecord>, csv: seq<CsvRow>, uuids: seq<string>, collate: string -> string)
    requires |uuids| == |csv|
    ensures rows <= Import(rows, csv, uuids, collate).rows
    ensures Import(rows, csv, uuids, collate).aborted <==> exists i :: 0 <= i < |csv| && csv[i].age.None?
    decreases |csv|
  {
    if csv != [] && csv[0].age.Some? {
      var rec := UserRecord(uuids[0], csv[0].name, csv[0].email, csv[0].age.value);
      var next := if Accepted(rows, rec, collate) then rows + [rec] else rows;
      ImportExtends(next, csv[1..], uuids[1..], collate);
      if exists i :: 0 <= i < |csv| && csv[i].age.None? {
        var i :| 0 <= i < |csv| && csv[i].age.None?;
        assert csv[1..][i - 1].age.None?;
      }
    }
  }

  /**
    A duplicate email is skipped and the import goes on: with fresh uuids,
    every CSV row before the first bad age has its email, up to the
    collation, in the table afterwards: inserted by that row, or already
    present in a spelling that collates equal.
   */
  lemma {:induction false} ImportCoversEmails(rows: seq<UserRecord>, csv: seq<CsvRow>, uuids: seq<string>, collate: string -> string, k: nat)
    requires |uuids| == |csv| && k < |csv|
    requires forall i :: 0 <= i <= k ==> csv[i].age.Some?
    requires forall i :: 0 <= i < |uuids| ==> uuids[i] !in Ids(rows)
    requires forall i, j :: 0 <= i < j < |uuids| ==> uuids[i] != uuids[j]
    ensures exists r :: r in Import(rows, csv, uuids, collate).rows && collate(r.email) == collate(csv[k].email)
    decreases |csv|
  {
    var rec := UserRecord(uuids[0], csv[0].name, csv[0].email, csv[0].age.value);
    var next := if Accepted(rows, rec, collate) then rows + [rec] else rows;
    assert Ids(next) <= Ids(rows) + {uuids[0]};
    if k == 0 {
      ImportExtends(next, csv[1..], uuids[1..], collate);
      var after := Import(next, csv[1..], uuids[1..], collate).rows;
      assert after[..|next|] == next;
      if Accepted(rows, rec, collate) {
        assert rec == next[|rows|] == after[|rows|];
      } else {
        assert uuids[0] !in Ids(rows);
        var r :| r in rows && collate(r.email) == collate(rec.email);
        assert forall i :: 0 <= i < |rows| ==> rows[i] == after[i];
      }
    } else {
      forall i | 0 <= i < |uuids[1..]|
        ensures uuids[1..][i] !in Ids(next)
      {
        assert uuids[1..][i] == uuids[i + 1] != uuids[0];
      }
      ImportCoversEmails(next, csv[1..], uuids[1..], collate, k - 1);
    }
  }

  /**
    Two CSV rows whose emails collate equal: the second INSERT raises
    IntegrityError and only the first row is stored. Under MySQL's
    case-insensitive collation this holds for `alice@x.com` and
    `Alice@x.com`; under SQLite's BINARY collation it does not apply.
   */
  lemma CollidingEmailSkipped(csv: seq<CsvRow>, uuids: seq<string>, collate: string -> string)
    requires |csv| == |uuids| == 2 && csv[0].age.Some? && csv[1].age.Some?
    requires collate(csv[0].email) == collate(csv[1].email)
    ensures Import([], csv, uuids, collate)
         == ImportResult([UserRecord(uuids[0], csv[0].name, csv[0].email, csv[0].age.value)], false)
  {
    var first := UserRecord(uuids[0], csv[0].name, csv[0].email, csv[0].age.value);
    var second := UserRecord(uuids[1], csv[1].name, csv[1].email, csv[1].age.value);
    assert Emails([], collate) == {} && Ids([]) == {};
    assert csv != [] && [] + [first] == [first];
    assert Import([], csv, uuids, collate) == Import([first], csv[1..], uuids[1..], collate);
    assert first in [first];
    assert !Accepted([first], second, collate);
    assert csv[1..][0] == csv[1] && uuids[1..][0] == uuids[1];
    assert Import([first], csv[1..], uuids[1..], collate) == Import([first], csv[1..][1..], uuids[1..][1..], collate);
    assert csv[1..][1..] == [];
  }

  /**
    The users table as seen through the importing connection (`rows`) and as
    committed (`committed`).
   */
  class UserTable {
    /** How the UNIQUE email column compares: the identity for SQLite, a case fold for MySQL. */
    const collate: string -> string
    var rows: seq<UserRecord>
    var committed: seq<UserRecord>

    ghost predicate Valid()
      reads this
    {
      Keyed(rows, collate)
    }

    constructor (collate: string -> string)
      ensures Valid() && this.collate == collate && rows == [] && committed == []
    {
      this.collate := collate;
      rows, committed := [], [];
    }

    /** One INSERT: appended, or refused with IntegrityError and the table unchanged. */
    method Insert(rec: UserRecord) returns (inserted: bool)
      requires Valid()
      modifies this`rows
      ensures Valid()
      ensures inserted == Accepted(old(rows), rec, collate)
      ensures rows == if inserted then old(rows) + [rec] else old(rows)
    {
      inserted := Accepted(rows, rec, collate);
      if inserted {
        AppendKeyed(rows, rec, collate);
        rows := rows + [rec];
      }
    }

    method Commit()
      modifies this`committed
      ensures committed == rows
    {
      committed := rows;
    }

    /**
      `insert_data`: the rows are those `Import` describes; the commit happens
      only when every age converted, otherwise the committed table is as before.
     */
    method InsertData(csv: seq<CsvRow>, uuids: seq<string>)
      requires Valid() && |uuids| == |csv|
      modifies this
      ensures Valid()
      ensures rows == Import(old(rows), csv, uuids, collate).rows
      ensures committed == if Import(old(rows), csv, uuids, collate).aborted then old(committed) else rows
    {
      var i := 0;
      while i < |csv|
        invariant 0 <= i <= |csv| && Valid()
        invariant Import(old(rows), csv, uuids, collate) == Import(rows, csv[i..], uuids[i..], collate)
        invariant committed == old(committed)
      {
        assert csv[i..][1..] == csv[i + 1..] && uuids[i..][1..] == uuids[i + 1..];
        var row := csv[i];
        if row.age.None? {
          return;
        }
        var inserted := Insert(UserRecord(uuids[i], row.name, row.email, row.age.value));
        i := i + 1;
      }
      Commit();
    }
  }

  /** `for row in batch: yield row`: the rows yielded so far, then the batch's rows in order. */
  method YieldEach<T>(yielded: seq<T>, batch: seq<T>) returns (out: seq<T>)
    ensures out == yielded + batch
  {
    out := yielded;
    for j := 0 to |batch|
      invariant out == yielded + batch[..j]
    {
      assert batch[..j + 1] == batch[..j] + [batch[j]];
      out := out + [batch[j]];
    }
    assert batch[..|batch|] == batch;
  }

  /**
    `stream_rows`: the batches `fetchmany(batchSize)` returns, and the rows
    yielded from them, which are the whole table in order.
   */
  method StreamRows<T>(table: seq<T>, batchSize: nat) returns (batches: seq<seq<T>>, yielded: seq<T>)
    requires batchSize > 0
    ensures batches == PagesFrom(table, batchSize, 0)
    ensures yielded == table
  {
    batches, yielded := [], [];
    var cursor: nat := 0;
    while true
      invariant ScanFrom(table, batchSize, batches, cursor) == ScanFrom(table, batchSize, [], 0)
      invariant yielded == Flatten(batches)
      decreases |table| - cursor
    {
      var batch := Window(table, cursor, batchSize);
      if |batch| == 0 {
        break;
      }
      yielded := YieldEach(yielded, batch);
      FlattenAppend(batches, batch);
      ScanAfter(table, batchSize, batches + [batch], cursor);
      batches := batches + [batch];
      cursor := cursor + |batch|;
    }
    ScanAll(table, batchSize);
    AllPagesCover(table, batchSize);
  }

  datatype Credentials = Credentials(host: Option<string>, user: Option<string>, password: Option<string>, port: Option<string>)

  datatype CredentialsResult = Found(credentials: Credentials) | ValueError(message: string)

  /** `os.getenv`: the variable's value, or None when it is unset. */
  function Getenv(env: map<string, string>, name: string): Option<string>
  {
    if name in env then Some(env[name]) else None
  }

  /** The text of the ValueError `get_sql_credentials` raises. */
  const MissingEnvMessage: string := "\U{274C} .env file not found in the same folder as seep.py, or create env variables with HOST_DB, MYSQL_USER and MYSQL_ROOT_PASSWORD"

  /**
    `get_sql_credentials`: `dotenvLoaded` is what `load_dotenv` returned and
    `env` the environment afterwards. ValueError exactly when no .env was
    loaded and `HOST_DB` is unset or empty.
   */
  function GetSqlCredentials(dotenvLoaded: bool, env: map<string, string>): (r: CredentialsResult)
    ensures r.ValueError? <==> !dotenvLoaded && ("HOST_DB" !in env || env["HOST_DB"] == "")
    ensures r.ValueError? ==> r.message == MissingEnvMessage
    ensures r.Found? ==>
      && r.credentials.host == Getenv(env, "HOST_DB")
      && r.credentials.user == Getenv(env, "MYSQL_ROOT_USER")
      && r.credentials.password == Getenv(env, "MYSQL_ROOT_PASSWORD")
      && r.credentials.port == Getenv(env, "HOST_PORT")
  {
    var host := Getenv(env, "HOST_DB");
    var hostGiven := host.Some? && host.value != "";
    if !dotenvLoaded && !hostGiven then
      ValueError(MissingEnvMessage)
    else
      Found(Credentials(host, Getenv(env, "MYSQL_ROOT_USER"), Getenv(env, "MYSQL_ROOT_PASSWORD"), Getenv(env, "HOST_PORT")))
  }
}
