/** The connection the client borrows from ActiveRecord: it sends one statement
    to the server and hands back the result, wrapping any driver exception in
    ActiveRecord::StatementInvalid with the driver exception as its cause. */
module Adapter {
  import opened Wrappers
  import opened Errors
  import opened Postgres

  /** ActiveRecord's exception translation: a driver failure of class `c`
      surfaces as StatementInvalid whose cause is of class `c`. */
  function Wrapped<T>(raw: Result<T, string>): (r: Result<T, Exception>)
    ensures raw.Ok? ==> r == Ok(raw.value)
    ensures raw.Err? ==> r == Err(StatementInvalid(raw.error))
  {
    match raw
    case Ok(v) => Ok(v)
    case Err(c) => Err(StatementInvalid(c))
  }

  /** The outcome of a call whose value the caller ignores. */
  function Discarded<T>(r: Result<T, Exception>): (d: Result<(), Exception>)
    ensures d.Ok? <==> r.Ok?
    ensures r.Err? ==> d == Err(r.error)
  {
    match r
    case Ok(_) => Ok(())
    case Err(e) => Err(e)
  }

  class Connection {
    /** What this session sees of the server. */
    var db: Database
    /** Every statement sent, oldest first. */
    var log: seq<string>

    constructor (db: Database)
      ensures this.db == db && log == []
    {
      this.db := db;
      log := [];
    }

    /** connection.execute(sql): runs a statement, discarding its rows. */
    method Execute(sql: string) returns (r: Result<(), Exception>)
      modifies this
      ensures log == old(log) + [sql]
      ensures db == Run(old(db), sql).1
      ensures r == Discarded(Wrapped(Run(old(db), sql).0))
    {
      var (raw, after) := Run(db, sql);
      db := after;
      log := log + [sql];
      r := Discarded(Wrapped(raw));
    }

    /** connection.select_value(sql): the first column of the first row, nil
        (None) when the statement returns no row. */
    method SelectValue(sql: string) returns (r: Result<Option<int>, Exception>)
      modifies this
      ensures log == old(log) + [sql]
      ensures db == Run(old(db), sql).1
      ensures r == Wrapped(Run(old(db), sql).0)
    {
      var (raw, after) := Run(db, sql);
      db := after;
      log := log + [sql];
      r := Wrapped(raw);
    }
  }
}
