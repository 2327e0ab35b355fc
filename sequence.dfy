/** ActiveRecord::Sequence (lib/active_record/sequence.rb): a handle on a named
    PostgreSQL sequence. Class-level create and drop issue DDL; next and peek call
    nextval and currval; every call goes through handle_postgres_errors with the
    error table of its operation. */
module ActiveRecordSequence {
  import opened Wrappers
  import opened Errors
  import opened Text
  import opened SqlBuilder
  import opened Postgres
  import opened Adapter

  // The four frozen tables: driver exception class name to the error raised instead.

  const CreateErrors: map<string, ErrorClass> := map[DuplicateTable := AlreadyExist]

  const DropErrors: map<string, ErrorClass> := map[UndefinedTable := NotExist]

  const NextErrors: map<string, ErrorClass> := map[
    ObjectNotInPrerequisiteState := StopIteration,
    SequenceGeneratorLimitExceeded := StopIteration,
    UndefinedTable := NotExist]

  const PeekErrors: map<string, ErrorClass> := map[
    ObjectNotInPrerequisiteState := CurrentValueUndefined,
    UndefinedTable := NotExist]

  /** handle_postgres_errors: the block's outcome, except that a StatementInvalid
      whose cause's class is in the table becomes the table's error. Anything else
      (success, an unlisted cause, any other exception) passes through unchanged. */
  function HandlePostgresErrors<T>(mappings: map<string, ErrorClass>, outcome: Result<T, Exception>): (r: Result<T, Exception>)
    ensures outcome.Ok? ==> r == outcome
    ensures r != outcome <==> outcome.Err? && outcome.error.StatementInvalid? && outcome.error.cause in mappings
    ensures r != outcome ==> r == Err(Raised(mappings[outcome.error.cause]))
  {
    match outcome
    case Ok(_) => outcome
    case Err(StatementInvalid(cause)) =>
      if cause in mappings then Err(Raised(mappings[cause])) else outcome
    case Err(_) => outcome
  }

  /** CREATE_ERRORS: a duplicate relation is AlreadyExist, and nothing else is translated. */
  lemma CreateTable()
    ensures CreateErrors.Keys == {DuplicateTable} && CreateErrors[DuplicateTable] == AlreadyExist
  {
  }

  /** DROP_ERRORS: a missing relation is NotExist, and nothing else is translated. */
  lemma DropTable()
    ensures DropErrors.Keys == {UndefinedTable} && DropErrors[UndefinedTable] == NotExist
  {
  }

  /** NEXT_ERRORS: both ways a sequence can refuse a value end the iteration; a
      missing relation is NotExist. */
  lemma NextTable()
    ensures NextErrors.Keys == {ObjectNotInPrerequisiteState, SequenceGeneratorLimitExceeded, UndefinedTable}
    ensures NextErrors[ObjectNotInPrerequisiteState] == StopIteration
    ensures NextErrors[SequenceGeneratorLimitExceeded] == StopIteration
    ensures NextErrors[UndefinedTable] == NotExist
  {
  }

  /** PEEK_ERRORS: no current value is CurrentValueUndefined; a missing relation is NotExist. */
  lemma PeekTable()
    ensures PeekErrors.Keys == {ObjectNotInPrerequisiteState, UndefinedTable}
    ensures PeekErrors[ObjectNotInPrerequisiteState] == CurrentValueUndefined
    ensures PeekErrors[UndefinedTable] == NotExist
  {
  }

  /** Where a driver outcome ends up for the caller of an operation: a value is
      returned as is, a failure whose class the table lists becomes the table's
      error, and any other failure reaches the caller as StatementInvalid. */
  lemma TranslateDriverOutcome<T>(m: map<string, ErrorClass>, raw: Result<T, string>)
    ensures HandlePostgresErrors(m, Wrapped(raw)) ==
      match raw
      case Ok(v) => Ok(v)
      case Err(c) => if c in m then Err(Raised(m[c])) else Err(StatementInvalid(c))
  {
  }

  /** Likewise for execute, whose value create and drop ignore. */
  lemma TranslateExecuteOutcome<T>(m: map<string, ErrorClass>, raw: Result<T, string>)
    ensures HandlePostgresErrors(m, Discarded(Wrapped(raw))) ==
      match raw
      case Ok(_) => Ok(())
      case Err(c) => if c in m then Err(Raised(m[c])) else Err(StatementInvalid(c))
  {
  }

  /** A driver failure of class `cause`, as the adapter reports it. */
  function DriverFailure(cause: string): Result<int, Exception> {
    Err(StatementInvalid(cause))
  }

  /** The same driver error means different things to different operations:
      "not in prerequisite state" ends an iteration in next but means no current
      value in peek, and a missing relation is NotExist everywhere but create. */
  lemma TranslationsByOperation()
    ensures HandlePostgresErrors(CreateErrors, DriverFailure(DuplicateTable)) == Err(Raised(AlreadyExist))
    ensures HandlePostgresErrors(CreateErrors, DriverFailure(UndefinedTable)) == DriverFailure(UndefinedTable)
    ensures HandlePostgresErrors(DropErrors, DriverFailure(UndefinedTable)) == Err(Raised(NotExist))
    ensures HandlePostgresErrors(DropErrors, DriverFailure(DuplicateTable)) == DriverFailure(DuplicateTable)
    ensures HandlePostgresErrors(NextErrors, DriverFailure(ObjectNotInPrerequisiteState)) == Err(Raised(StopIteration))
    ensures HandlePostgresErrors(NextErrors, DriverFailure(SequenceGeneratorLimitExceeded)) == Err(Raised(StopIteration))
    ensures HandlePostgresErrors(NextErrors, DriverFailure(UndefinedTable)) == Err(Raised(NotExist))
    ensures HandlePostgresErrors(PeekErrors, DriverFailure(ObjectNotInPrerequisiteState)) == Err(Raised(CurrentValueUndefined))
    ensures HandlePostgresErrors(PeekErrors, DriverFailure(UndefinedTable)) == Err(Raised(NotExist))
    ensures HandlePostgresErrors(PeekErrors, DriverFailure(SequenceGeneratorLimitExceeded)) == DriverFailure(SequenceGeneratorLimitExceeded)
  {
  }

  /** Every table translates into one of the library's three kinds or into
      StopIteration, never into the base Error, and has no other entries. */
  lemma TablesRaiseDomainErrors(m: map<string, ErrorClass>)
    requires m == CreateErrors || m == DropErrors || m == NextErrors || m == PeekErrors
    ensures forall cause :: cause in m ==> m[cause] in {AlreadyExist, NotExist, CurrentValueUndefined, StopIteration}
    ensures forall cause :: cause in m ==> (IsLibraryError(m[cause]) <==> m[cause] != StopIteration)
    ensures forall cause :: cause in m ==> cause in {DuplicateTable, UndefinedTable, ObjectNotInPrerequisiteState, SequenceGeneratorLimitExceeded}
  {
    forall c | c in {AlreadyExist, NotExist, CurrentValueUndefined, StopIteration}
      ensures IsLibraryError(c) <==> c != StopIteration
    {
      LibraryErrorKinds(c);
    }
  }

  /** The templates of next and peek, "SELECT nextval(%s)" and "SELECT currval(%s)". */
  const NextSql := "SELECT nextval(" + "%s" + ")"
  const CurrentSql := "SELECT currval(" + "%s" + ")"

  function QuoteAll(args: seq<string>): (quoted: seq<string>)
    ensures |quoted| == |args|
    ensures forall i :: 0 <= i < |args| ==> quoted[i] == Quote(args[i])
  {
    if |args| == 0 then [] else [Quote(args[0])] + QuoteAll(args[1..])
  }

  /** prepare_query: every argument quoted as a string literal, then substituted
      for the template's %s directives in order. */
  function PrepareQuery(sql: string, args: seq<string>): (query: string)
    requires IsTemplate(sql) && Directives(sql) <= |args|
  {
    Format(sql, QuoteAll(args))
  }

  /** The statements next and peek send for a name. */
  lemma PrepareSelects(name: string)
    ensures IsTemplate(NextSql) && Directives(NextSql) == 1
    ensures IsTemplate(CurrentSql) && Directives(CurrentSql) == 1
    ensures PrepareQuery(NextSql, [name]) == "SELECT nextval(" + Quote(name) + ")"
    ensures PrepareQuery(CurrentSql, [name]) == "SELECT currval(" + Quote(name) + ")"
  {
    PrepareQueryOne("SELECT nextval(", name, ")");
    PrepareQueryOne("SELECT currval(", name, ")");
  }

  /** prepare_query on a template with one %s: the argument goes in as a quoted
      literal, and the text around the directive is kept. */
  lemma PrepareQueryOne(prefix: string, arg: string, suffix: string)
    requires '%' !in prefix && '%' !in suffix
    ensures IsTemplate(prefix + "%s" + suffix) && Directives(prefix + "%s" + suffix) == 1
    ensures PrepareQuery(prefix + "%s" + suffix, [arg]) == prefix + Quote(arg) + suffix
  {
    assert QuoteAll([arg]) == [Quote(arg)];
    FormatOne(prefix, Quote(arg), suffix);
  }

  /** prepare_query on a template without directives returns it unchanged,
      whatever the arguments. */
  lemma PrepareQueryLiteral(sql: string, args: seq<string>)
    requires '%' !in sql
    ensures IsTemplate(sql) && Directives(sql) == 0 && PrepareQuery(sql, args) == sql
  {
    FormatLiteral(sql, QuoteAll(args));
  }

  /** format("DROP SEQUENCE %s", name): the name goes in unquoted. */
  function DropSql(name: string): (sql: string)
    ensures sql == "DROP SEQUENCE " + name
  {
    FormatOne("DROP SEQUENCE ", name, "");
    Format("DROP SEQUENCE " + "%s" + "", [name])
  }

  /** select_value(...).to_i: nil becomes 0. */
  function ToInteger(r: Result<Option<int>, Exception>): (i: Result<int, Exception>)
    ensures i.Err? <==> r.Err?
    ensures r.Err? ==> i.error == r.error
    ensures r.Ok? ==> i.value == r.value.GetOr(0)
  {
    match r
    case Ok(v) => Ok(v.GetOr(0))
    case Err(e) => Err(e)
  }

  /** Where a select's outcome ends up for the caller of next or peek: the
      server's integer is returned, no row at all reads as 0, a failure whose
      class the table lists becomes the table's error, and any other failure
      reaches the caller as StatementInvalid. */
  lemma TranslateSelectOutcome(m: map<string, ErrorClass>, raw: Result<Option<int>, string>)
    ensures HandlePostgresErrors(m, ToInteger(Wrapped(raw))) ==
      match raw
      case Ok(v) => Ok(v.GetOr(0))
      case Err(c) => if c in m then Err(Raised(m[c])) else Err(StatementInvalid(c))
  {
  }

  // What each operation returns and leaves behind, as a function of the
  // database it starts from; the methods below are proved to do exactly this.

  function CreateOutcome(db: Database, name: string, o: CreateOptions): (Result<(), Exception>, Database) {
    var (raw, after) := Run(db, CreateSql(name, o));
    (HandlePostgresErrors(CreateErrors, Discarded(Wrapped(raw))), after)
  }

  function DropOutcome(db: Database, name: string): (Result<(), Exception>, Database) {
    var (raw, after) := Run(db, DropSql(name));
    (HandlePostgresErrors(DropErrors, Discarded(Wrapped(raw))), after)
  }

  function NextOutcome(db: Database, name: string): (Result<int, Exception>, Database) {
    PrepareSelects(name);
    var (raw, after) := Run(db, PrepareQuery(NextSql, [name]));
    (HandlePostgresErrors(NextErrors, ToInteger(Wrapped(raw))), after)
  }

  function PeekOutcome(db: Database, name: string): (Result<int, Exception>, Database) {
    PrepareSelects(name);
    var (raw, after) := Run(db, PrepareQuery(CurrentSql, [name]));
    (HandlePostgresErrors(PeekErrors, ToInteger(Wrapped(raw))), after)
  }

  class Sequence {
    const name: string

    constructor (name: string)
      ensures this.name == name
    {
      this.name := name;
    }

    /** Sequence.create: executes the builder's statement once; on success a new
        handle for `name`, otherwise the translated (or original) exception. */
    static method Create(conn: Connection, name: string, options: CreateOptions) returns (r: Result<Sequence, Exception>)
      modifies conn
      ensures conn.log == old(conn.log) + [CreateSql(name, options)]
      ensures conn.db == CreateOutcome(old(conn.db), name, options).1
      ensures r.Ok? <==> CreateOutcome(old(conn.db), name, options).0.Ok?
      ensures r.Err? ==> r.error == CreateOutcome(old(conn.db), name, options).0.error
      ensures r.Ok? ==> fresh(r.value) && r.value.name == name
    {
      var builder := new SequenceSqlBuilder(name, options);
      var createSql := builder.ToSql();
      var executed := conn.Execute(createSql);
      var handled := HandlePostgresErrors(CreateErrors, executed);
      if handled.Err? {
        return Err(handled.error);
      }
      var sequence := new Sequence(name);
      r := Ok(sequence);
    }

    /** Sequence.drop: executes DROP SEQUENCE <name>, translating through DROP_ERRORS. */
    static method Drop(conn: Connection, name: string) returns (r: Result<(), Exception>)
      modifies conn
      ensures conn.log == old(conn.log) + ["DROP SEQUENCE " + name]
      ensures (r, conn.db) == DropOutcome(old(conn.db), name)
    {
      var dropSql := DropSql(name);
      var executed := conn.Execute(dropSql);
      r := HandlePostgresErrors(DropErrors, executed);
    }

    /** next: SELECT nextval(<quoted name>), translating through NEXT_ERRORS. */
    method Next(conn: Connection) returns (r: Result<int, Exception>)
      modifies conn
      ensures conn.log == old(conn.log) + ["SELECT nextval(" + Quote(name) + ")"]
      ensures (r, conn.db) == NextOutcome(old(conn.db), name)
    {
      PrepareSelects(name);
      var value := Execute(conn, NextSql, [name]);
      r := HandlePostgresErrors(NextErrors, value);
    }

    /** peek: SELECT currval(<quoted name>), translating through PEEK_ERRORS. */
    method Peek(conn: Connection) returns (r: Result<int, Exception>)
      modifies conn
      ensures conn.log == old(conn.log) + ["SELECT currval(" + Quote(name) + ")"]
      ensures (r, conn.db) == PeekOutcome(old(conn.db), name)
    {
      PrepareSelects(name);
      var value := Execute(conn, CurrentSql, [name]);
      r := HandlePostgresErrors(PeekErrors, value);
    }

    /** execute: the prepared query's single value as an Integer. */
    method Execute(conn: Connection, sql: string, args: seq<string>) returns (r: Result<int, Exception>)
      requires IsTemplate(sql) && Directives(sql) <= |args|
      modifies conn
      ensures conn.log == old(conn.log) + [PrepareQuery(sql, args)]
      ensures conn.db == Run(old(conn.db), PrepareQuery(sql, args)).1
      ensures r == ToInteger(Wrapped(Run(old(conn.db), PrepareQuery(sql, args)).0))
    {
      var query := PrepareQuery(sql, args);
      var value := conn.SelectValue(query);
      r := ToInteger(value);
    }
  }
}

/** What the four operations do against the reference server, stated without the
    statement text: each lemma composes the statement the client sends, the
    server's reading of it, the adapter's wrapping and the operation's table. */
module SequenceSemantics {
  import opened Wrappers
  import opened Errors
  import opened SqlBuilder
  import opened Postgres
  import opened Adapter
  import opened ActiveRecordSequence

  /** create on a plain identifier: options the server rejects pass through as
      StatementInvalid, whether or not the name is taken (the server checks the
      options first); for accepted options a taken name raises AlreadyExist;
      otherwise the sequence exists, with no current value in this session. */
  lemma CreateBehaviour(db: Database, name: string, o: CreateOptions)
    requires IsSimpleName(name)
    ensures CreateOutcome(db, name, o) ==
      match DefineSequence(Emitted(o))
      case Err(e) => (Err(StatementInvalid(e)), db)
      case Ok(s) =>
        if name in db.sequences then (Err(Raised(AlreadyExist)), db)
        else (Ok(()), Database(db.sequences[name := s], db.session - {name}))
  {
    ParseCreateSql(name, o);
  }

  /** drop on a plain identifier: NotExist when there is no such sequence,
      otherwise the sequence and its current value are gone. */
  lemma DropBehaviour(db: Database, name: string)
    requires IsSimpleName(name)
    ensures DropOutcome(db, name) ==
      if name !in db.sequences then (Err(Raised(NotExist)), db)
      else (Ok(()), Database(db.sequences - {name}, db.session - {name}))
  {
    ParseDropSql(name);
  }

  /** next: NotExist for a missing sequence, StopIteration once a non-cyclic
      sequence is past its bound, otherwise the server's next value, which
      becomes the session's current value. A name the server cannot take as a
      plain identifier ends in the server's own error. */
  lemma NextBehaviour(db: Database, name: string)
    ensures NextOutcome(db, name) ==
      if !IsSimpleName(name) then (Err(StatementInvalid(SyntaxError)), db)
      else if name !in db.sequences then (Err(Raised(NotExist)), db)
      else match NextValue(db.sequences[name])
        case Err(_) => (Err(Raised(StopIteration)), db)
        case Ok((v, s)) => (Ok(v), Database(db.sequences[name := s], db.session[name := v]))
  {
    PrepareSelects(name);
    ParseNextvalCall(name);
    if IsSimpleName(name) && name in db.sequences {
      var r := NextValue(db.sequences[name]);
      assert r.Err? ==> r.error == SequenceGeneratorLimitExceeded;
    }
  }

  /** peek: NotExist for a missing sequence, CurrentValueUndefined before any
      next in this session, otherwise the session's current value; never a change. */
  lemma PeekBehaviour(db: Database, name: string)
    ensures PeekOutcome(db, name) ==
      if !IsSimpleName(name) then (Err(StatementInvalid(SyntaxError)), db)
      else if name !in db.sequences then (Err(Raised(NotExist)), db)
      else if name !in db.session then (Err(Raised(CurrentValueUndefined)), db)
      else (Ok(db.session[name]), db)
  {
    PrepareSelects(name);
    ParseCurrvalCall(name);
  }
}
