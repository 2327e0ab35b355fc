# active_record-sequence in Dafny

A model of the Ruby gem `active_record-sequence`. The gem gives ActiveRecord applications a handle on a named PostgreSQL sequence:

- `Sequence.create(name, options)` issues `CREATE SEQUENCE <name> [INCREMENT BY n] [MINVALUE n] [MAXVALUE n] [START n] (CYCLE|NO CYCLE)`. The text comes from a small builder object that appends clauses to a list and joins them with spaces.
- `Sequence.drop(name)` issues `DROP SEQUENCE <name>`.
- `Sequence#next` and `Sequence#peek` run `SELECT nextval('<name>')` and `SELECT currval('<name>')`. The name is quoted as a string literal by the connection.
- All four calls pass through `handle_postgres_errors`. It swaps an `ActiveRecord::StatementInvalid` for the library error (or `StopIteration`) that the operation's frozen table gives for the driver exception's class name. Any other exception is re-raised unchanged.

The modules follow the program's structure:

| file | module | models |
|---|---|---|
| `errors.dfy` | `Errors` | the exception classes of `error.rb`, where they sit in Ruby's hierarchy, and the ways a call can end abnormally |
| `text.dfy` | `Text` | `Integer#to_s`, `Array#join(' ')` and `Kernel#format` restricted to `%s`; also the reference server's tokenizer, which splits a statement at every single space and keeps empty fields |
| `sql_builder.dfy` | `SqlBuilder` | `SequenceSQLBuilder`: a class whose `parts` field the configure methods append to |
| `postgres.dfy` | `Postgres` | a reference server: it reads back the statements the client sends, and keeps the state of each sequence (last value, `is_called`) and the session's `currval` cache |
| `connection.dfy` | `Adapter` | the ActiveRecord connection: `execute` and `select_value` against the reference server, with driver errors wrapped in `StatementInvalid` and a log of every statement sent |
| `sequence.dfy` | `ActiveRecordSequence`, `SequenceSemantics` | the four error tables, `handle_postgres_errors`, `prepare_query`, `execute`, `create`, `drop`, `next` and `peek`; then what each operation does to the server, stated without the SQL text |
| `behaviour.dfy` | `SequenceBehaviour` | the behaviour the gem's test suite expects, as lemmas over all databases that meet each lemma's own precondition |

The client's emitted SQL is tied to its meaning by round-trip lemmas:

- the reference server parses `CreateSql(name, o)` back as a creation of `name` with exactly the options `o` (`ParseCreateSql`);
- it parses the quoted `nextval` and `currval` calls back as calls on `name` (`ParseNextvalCall`, `ParseCurrvalCall`);
- it parses `DROP SEQUENCE <name>` back as a drop of `name`.

The methods of `Sequence` are proved to produce exactly the outcome functions `CreateOutcome`, `DropOutcome`, `NextOutcome` and `PeekOutcome`. The module `SequenceSemantics` states what those outcomes are in terms of the server's state.

The server's conventions are PostgreSQL's:

- the default increment is 1;
- an ascending sequence runs from 1 to 2^63-1 by default, and a descending one from -2^63 to -1;
- the default start is the minimum for an ascending sequence and the maximum for a descending one;
- `nextval` past a bound wraps on a cyclic sequence and raises `SequenceGeneratorLimitExceeded` on any other;
- `currval` before any `nextval` in the session raises `ObjectNotInPrerequisiteState`.

The doc comment of `create` (lib/active_record/sequence.rb:28) gives the descending default minimum as -2^63-1. That is the wording of the PostgreSQL 8.1 manual it links (line 35), where it means -(2^63-1), the default before PostgreSQL 10. The reference server uses PostgreSQL 10's default of -2^63.

## Model

| member | source | states |
|---|---|---|
| Errors.Superclass | lib/active_record/sequence/error.rb:3-9 | Error and its three kinds are declared under StandardError and Error respectively. StandardError alone has no parent, and every parent sits one level higher. |
| Errors.LibraryErrorKinds | lib/active_record/sequence/error.rb:3-9 | A class is a library error (caught by `rescue Sequence::Error`) exactly when it is Error, AlreadyExist, CurrentValueUndefined or NotExist. |
| Errors.KindsAreDistinctErrors | lib/active_record/sequence/error.rb:5-9 | Each of the three kinds is an Error, and none is a kind of another one, so a rescue of one kind never catches another. |
| Errors.AllAreStandardErrors | lib/active_record/sequence/error.rb:3 | Every class involved, the library's included, is a StandardError. |
| Errors.StopIterationIsNotLibraryError | lib/active_record/sequence.rb:85-89 | The end-of-sequence signal that next raises is not a library error. |
| Text.IntToStr | lib/active_record/sequence/sequence_sql_builder.rb:26 | An interpolated integer is a nonempty word without spaces or `%`. |
| Text.ParseIntOfIntToStr | lib/active_record/sequence/sequence_sql_builder.rb:26 | Reading the decimal text of an integer gives back that integer (negative values included). |
| Text.IntToStrInjective | lib/active_record/sequence/sequence_sql_builder.rb:26 | Different option values render as different text. |
| Text.SplitOfJoin | lib/active_record/sequence/sequence_sql_builder.rb:20 | Splitting `parts.join(' ')` at spaces yields the words of every part, in order. |
| Text.FormatOne | lib/active_record/sequence.rb:129 | `format` of a template with one `%s` substitutes the argument for the directive and keeps the rest of the template unchanged. |
| Text.FormatLiteral | lib/active_record/sequence.rb:129 | A template without `%` formats to itself, whatever the arguments. |
| SqlBuilder.SequenceSqlBuilder.constructor | lib/active_record/sequence/sequence_sql_builder.rb:9-12 | A new builder keeps the options and holds exactly the one part `CREATE SEQUENCE <name>`. |
| SqlBuilder.SequenceSqlBuilder.ToSql | lib/active_record/sequence/sequence_sql_builder.rb:14-21 | to_sql appends the clauses of increment, min, max, start and cycle in that order, and returns all parts joined with spaces. A second call appends again. |
| SqlBuilder.SequenceSqlBuilder.ConfigureIncrement | lib/active_record/sequence/sequence_sql_builder.rb:25-27 | Appends `INCREMENT BY <n>` exactly when an increment is given, and nothing otherwise. |
| SqlBuilder.SequenceSqlBuilder.ConfigureMinValue | lib/active_record/sequence/sequence_sql_builder.rb:29-31 | Appends `MINVALUE <n>` exactly when a min is given. |
| SqlBuilder.SequenceSqlBuilder.ConfigureMaxValue | lib/active_record/sequence/sequence_sql_builder.rb:33-35 | Appends `MAXVALUE <n>` exactly when a max is given. |
| SqlBuilder.SequenceSqlBuilder.ConfigureStartValue | lib/active_record/sequence/sequence_sql_builder.rb:37-39 | Appends `START <n>` exactly when a start is given. |
| SqlBuilder.SequenceSqlBuilder.ConfigureCycle | lib/active_record/sequence/sequence_sql_builder.rb:41-43 | Always appends one clause: `CYCLE` when cycle is true, `NO CYCLE` when it is false or missing. |
| SqlBuilder.ClausesShape | lib/active_record/sequence/sequence_sql_builder.rb:14-43 | The parts are the base clause, then one clause per given numeric option, then exactly one cycle clause, which is last and appears nowhere else. |
| SqlBuilder.NumericClausesAreNotCycle | lib/active_record/sequence/sequence_sql_builder.rb:25-39 | No numeric clause can be mistaken for a cycle clause. |
| SqlBuilder.CreateSqlWithoutOptions | lib/active_record/sequence/sequence_sql_builder.rb:11-43 | With no options the statement is `CREATE SEQUENCE <name> NO CYCLE`. |
| SqlBuilder.CreateSqlStartsWithName | lib/active_record/sequence/sequence_sql_builder.rb:11 | Every statement begins with `CREATE SEQUENCE <name> `. |
| Postgres.UnquoteOfQuote | lib/active_record/sequence.rb:124-128 | The server reads the quoted literal of any name back as that same name. Quotes inside the name are doubled and restored. |
| Postgres.DefineSequence | lib/active_record/sequence.rb:23-33 | An accepted definition is a well-formed sequence with no value taken yet, and it cycles exactly when asked to. |
| Postgres.NextValueInBounds | lib/active_record/sequence.rb:31-33 | nextval returns a value within the bounds and records it as the last value, leaving the parameters unchanged. It fails exactly when a non-cyclic sequence would step past a bound. A cyclic one wraps to its minimum when ascending and to its maximum when descending. |
| Postgres.RunPreservesValid | lib/active_record/sequence.rb:23-33 | Every statement keeps every sequence well formed. The session holds a current value exactly for the sequences nextval was called on, and it is their last value. |
| Postgres.RunAllPreservesValid | lib/active_record/sequence.rb:23-33 | Any series of statements run in one session keeps a well-formed database well formed. |
| Postgres.ReachableIsValid | lib/active_record/sequence.rb:23-33 | Every database that a server with no sequences reaches by a series of statements is well formed. |
| Postgres.RunIsolated | spec/sequence_spec.rb:106-109 | A statement about one sequence leaves every other sequence, and its current value, untouched. |
| Postgres.ParseOptionWordsOfOptions | lib/active_record/sequence/sequence_sql_builder.rb:25-43 | The clauses after the name are read back with exactly the values given, and with one cycle setting. |
| Postgres.WordsOfCreateSql | lib/active_record/sequence/sequence_sql_builder.rb:14-21 | The statement's words are `CREATE`, `SEQUENCE`, the name, then the words of the option clauses. |
| Postgres.ParseCreateSql | lib/active_record/sequence.rb:37-40 | For a plain identifier, the server reads the builder's statement as creating that name with exactly the given options. |
| Postgres.ParseDropSql | lib/active_record/sequence.rb:53 | For a plain identifier, `DROP SEQUENCE <name>` is read as dropping that name. |
| Postgres.ParseNextvalCall | lib/active_record/sequence.rb:93-95 | The nextval call on the quoted name reaches that name's sequence. A name the server would not take as given is rejected. |
| Postgres.ParseCurrvalCall | lib/active_record/sequence.rb:106-108 | Likewise for currval. |
| Adapter.Connection.constructor | lib/active_record/sequence.rb:62-66 | The connection starts on the given database with nothing sent. |
| Adapter.Connection.Execute | lib/active_record/sequence.rb:40 | execute sends exactly one statement, moves the database to the statement's effect, and reports success or the wrapped driver error. |
| Adapter.Connection.SelectValue | lib/active_record/sequence.rb:119 | select_value sends exactly one statement and returns its single value (nil for DDL) or the wrapped driver error. |
| ActiveRecordSequence.HandlePostgresErrors | lib/active_record/sequence.rb:70-75 | Success passes through. The result changes exactly when the outcome is a StatementInvalid whose cause's class is in the table, and then it is the table's error. Anything else is re-raised unchanged. |
| ActiveRecordSequence.CreateTable | lib/active_record/sequence.rb:17-19 | CREATE_ERRORS translates only a duplicate relation, into AlreadyExist. |
| ActiveRecordSequence.DropTable | lib/active_record/sequence.rb:46-48 | DROP_ERRORS translates only a missing relation, into NotExist. |
| ActiveRecordSequence.NextTable | lib/active_record/sequence.rb:85-89 | NEXT_ERRORS translates exactly three causes. "Not in prerequisite state" and "limit exceeded" both become StopIteration, and a missing relation becomes NotExist. |
| ActiveRecordSequence.PeekTable | lib/active_record/sequence.rb:99-102 | PEEK_ERRORS translates exactly two causes. "Not in prerequisite state" becomes CurrentValueUndefined, and a missing relation becomes NotExist. |
| ActiveRecordSequence.TranslateDriverOutcome | lib/active_record/sequence.rb:70-75 | Combined with ActiveRecord's wrapping of driver errors, a value reaches the caller as is. A driver failure of class `c` becomes the table's error when the table lists `c`, and otherwise reaches the caller as StatementInvalid with cause `c`. |
| ActiveRecordSequence.TranslateExecuteOutcome | lib/active_record/sequence.rb:38-42 | Likewise for execute in create and drop: success with the value ignored, the table's error for a listed cause, StatementInvalid otherwise. |
| ActiveRecordSequence.TranslationsByOperation | lib/active_record/sequence.rb:17-102 | All seven entries of the four tables translate as listed, and three causes pass through an operation's table that does not list them. The same driver error means different things to different operations, and a cause an operation's table does not list passes through. |
| ActiveRecordSequence.TablesRaiseDomainErrors | lib/active_record/sequence.rb:17-102 | Every table maps only the four driver conditions, and only to AlreadyExist, NotExist, CurrentValueUndefined or StopIteration. Exactly the non-StopIteration targets are library errors. |
| ActiveRecordSequence.QuoteAll | lib/active_record/sequence.rb:124-128 | Each argument is replaced by its quoted literal, in order. |
| ActiveRecordSequence.PrepareSelects | lib/active_record/sequence.rb:123-130 | The templates of next and peek have one directive each. prepare_query makes them `SELECT nextval('<name>')` and `SELECT currval('<name>')` with the quoted name. |
| ActiveRecordSequence.PrepareQueryOne | lib/active_record/sequence.rb:123-130 | prepare_query on a template with one `%s` substitutes the argument as a quoted literal and keeps the text around the directive. |
| ActiveRecordSequence.PrepareQueryLiteral | lib/active_record/sequence.rb:123-130 | prepare_query on a template without directives returns it unchanged, whatever the arguments. |
| ActiveRecordSequence.TranslateSelectOutcome | lib/active_record/sequence.rb:117-121 | Where a select's outcome ends up for the caller of next or peek: the server's integer is returned, no value reads as 0, a failure the table lists becomes the table's error, and any other failure reaches the caller as StatementInvalid. |
| ActiveRecordSequence.DropSql | lib/active_record/sequence.rb:53 | `format("DROP SEQUENCE %s", name)` interpolates the name unquoted. |
| ActiveRecordSequence.Sequence.constructor | lib/active_record/sequence.rb:81-83 | The handle remembers its name and does nothing else. |
| ActiveRecordSequence.Sequence.Create | lib/active_record/sequence.rb:36-44 | create sends exactly the builder's statement once. It translates through CREATE_ERRORS, and on success returns a new handle for the name. |
| ActiveRecordSequence.Sequence.Drop | lib/active_record/sequence.rb:52-59 | drop sends exactly `DROP SEQUENCE <name>` once and translates through DROP_ERRORS. |
| ActiveRecordSequence.Sequence.Next | lib/active_record/sequence.rb:92-97 | next sends exactly the nextval call on the quoted name. It returns its value as an integer, or the error that NEXT_ERRORS gives. |
| ActiveRecordSequence.Sequence.Peek | lib/active_record/sequence.rb:105-110 | peek sends exactly the currval call on the quoted name, and translates through PEEK_ERRORS. |
| ActiveRecordSequence.Sequence.Execute | lib/active_record/sequence.rb:117-121 | execute sends the prepared query once and returns its value with `to_i` applied (nil becomes 0). |
| SequenceSemantics.CreateBehaviour | lib/active_record/sequence.rb:36-44 | Options the server rejects pass through as StatementInvalid and change nothing, whether or not the name is taken. With accepted options, a taken name raises AlreadyExist and changes nothing. Otherwise the sequence exists as defined, with no current value. |
| SequenceSemantics.DropBehaviour | lib/active_record/sequence.rb:52-59 | drop of a missing sequence raises NotExist. Otherwise the sequence and its current value are removed. |
| SequenceSemantics.NextBehaviour | lib/active_record/sequence.rb:85-97 | next on a missing sequence raises NotExist. Past the bound of a non-cyclic sequence it raises StopIteration and changes nothing. Otherwise it returns the server's next value, which becomes the current value. |
| SequenceSemantics.PeekBehaviour | lib/active_record/sequence.rb:99-110 | peek on a missing sequence raises NotExist, and before any next it raises CurrentValueUndefined. Otherwise it returns the current value. It never changes anything. |
| SequenceBehaviour.CreateThenNextCountsFromOne | spec/sequence_spec.rb:24-32 | A create with no options succeeds and defines the default sequence, then next returns 1 and then 2. |
| SequenceBehaviour.CreateWithStart | spec/sequence_spec.rb:34-37 | With `start: s`, the first next returns s. |
| SequenceBehaviour.CreateWithPositiveIncrement | spec/sequence_spec.rb:39-43 | With `increment: k` for a positive k, next returns 1 and then 1 + k. |
| SequenceBehaviour.CreateWithNegativeIncrement | spec/sequence_spec.rb:45-49 | With `increment: k` for a negative k, next returns -1 and then -1 + k. |
| SequenceBehaviour.CreateWithMinimum | spec/sequence_spec.rb:51-56 | With `min: -2, increment: -1`, next returns -1 and -2, then raises StopIteration. |
| SequenceBehaviour.CreateWithMaximum | spec/sequence_spec.rb:58-63 | With `max: 2`, next returns 1 and 2, then raises StopIteration. |
| SequenceBehaviour.CreateCyclic | spec/sequence_spec.rb:65-70 | With `max: 2, cycle: true`, next returns 1, 2 and then 1 again. |
| SequenceBehaviour.CreateTwice | spec/sequence_spec.rb:72-75 | A second create of the same name changes nothing. It raises AlreadyExist when the server accepts the second options, and passes the server's error through as StatementInvalid when it rejects them. |
| SequenceBehaviour.DropThenNext | spec/sequence_spec.rb:83-86 | After a drop, next and peek on the name raise NotExist. |
| SequenceBehaviour.DropMissing | spec/sequence_spec.rb:88-92 | A drop of a name that is no sequence raises NotExist and changes nothing. |
| SequenceBehaviour.NextIsIndependent | spec/sequence_spec.rb:106-109 | Advancing one sequence does not change what next or peek returns for another. |
| SequenceBehaviour.MissingSequence | spec/sequence_spec.rb:111-116 | next and peek on a name that was never created raise NotExist and change nothing. |
| SequenceBehaviour.PeekBeforeNext | spec/sequence_spec.rb:125-129 | peek right after a successful create raises CurrentValueUndefined. |
| SequenceBehaviour.PeekAfterNext | spec/sequence_spec.rb:131-144 | peek right after a next returns the value that next returned. |
| SequenceBehaviour.PeekChangesNothing | lib/active_record/sequence.rb:105-110 | peek leaves the database as it was, so it can be repeated. |
| SequenceBehaviour.DescendingProgression | lib/active_record/sequence.rb:24-26 | While within its minimum, a descending sequence returns an arithmetic progression with its increment, starting from its upcoming value. |
| SequenceBehaviour.DescendingSequenceCounts | spec/sequence_spec.rb:45-49 | After `create(increment: k)` with k < 0, n calls of next return -1, -1 + k, -1 + 2k, ..., while they stay within the bigint range. |
| SequenceBehaviour.AscendingProgression | lib/active_record/sequence.rb:24-26 | While within its maximum, an ascending sequence returns an arithmetic progression with its increment, starting from its upcoming value. |
| SequenceBehaviour.DefaultSequenceCounts | spec/sequence_spec.rb:101-104 | After a create with no options, k calls of next return 1, 2, ..., k. |
| SequenceBehaviour.ExhaustionIsFinal | lib/active_record/sequence.rb:85-89 | Once next has raised StopIteration nothing has changed, so every further next raises it again. |
| SequenceBehaviour.CyclicNeverStops | lib/active_record/sequence.rb:31-33 | next on an existing cyclic sequence with a plain name never fails. Past the maximum, an ascending sequence returns its minimum, and past the minimum a descending one returns its maximum. |

## Left out

- `with_connection` and the connection pool (lib/active_record/sequence.rb:62-66) are not modelled. Every operation takes one explicit `Connection`, which is one PostgreSQL session. The source runs each call of `next` and `peek` in its own `with_connection` (line 118). A thread that holds no connection may be given a different connection, and so a different session, for each call. Then `peek` after `next` can raise CurrentValueUndefined or return another session's value. The model assumes that every call runs on the same session, as the test suite's use of `ActiveRecord::Base.connection` arranges (spec/sequence_spec.rb:7, 14). SequenceBehaviour.PeekBeforeNext and SequenceBehaviour.PeekAfterNext hold only under that assumption.
- Ruby module mechanics are not modelled: `autoload`, `delegate`, `private_constant`, `attr_reader` and `freeze`. They affect visibility and loading, not behaviour.
- PostgreSQL itself is replaced by the reference server in `Postgres`. That server understands only the statement forms this client sends, with its clauses in the client's order. PostgreSQL also accepts other orders and forms.
- The reference server knows only sequences, not tables, views or other relations. In PostgreSQL, a table or view with the name makes CREATE SEQUENCE fail with DuplicateTable, which create raises as AlreadyExist. DROP SEQUENCE, nextval and currval on such a relation fail with WrongObjectType, which no table lists, so it passes through as StatementInvalid. So "no sequence" in DropMissing and MissingSequence stands for "no relation of any kind by that name".
- Identifiers are simplified. The reference server accepts only plain lower-case identifiers and rejects every other name with a syntax error. PostgreSQL would fold the case of an unquoted name and resolve schema-qualified or quoted names. Reserved words are not singled out.
- There is a single database session. `currval` is per session in PostgreSQL, and concurrent sessions advancing the same sequence are not modelled.
- `ALTER SEQUENCE`, `setval` and transactions are not modelled because the client never issues them.
- Option values are modelled as integers or nil only, and `cycle` as true, false or nil. Other Ruby values, such as strings, floats, or truthy non-booleans for `cycle`, which `format` and `fetch` would accept, are not modelled.
- The client does not check that option values fit in a bigint. The reference server rejects out-of-range values with its invalid-parameter error, which passes through as StatementInvalid. PostgreSQL's exact error class for such values is not modelled.
- `connection.quote` is modelled for string arguments only, as single-quote doubling with standard-conforming strings. Backslashes and other encodings are not modelled.
- Text.Format: only the `%s` directive is modelled, which is the only one the source's templates use.
- ActiveRecordSequence.PrepareQuery: requires at least as many arguments as `%s` directives. Ruby would raise ArgumentError otherwise, and no caller passes fewer.
- ActiveRecordSequence.Sequence.Execute: requires at least as many arguments as `%s` directives, for the same reason.
- A StatementInvalid with no cause is not modelled. There, `error.cause.class.name` would be `"NilClass"`, which no table lists, so it would pass through like any unlisted cause. In the model every cause is a driver class name.
- Exceptions other than StatementInvalid, such as a lost connection, are modelled as `OtherException` and pass through `HandlePostgresErrors` unchanged. The connection model never produces them.
- `select_value` returning text that `to_i` parses is not modelled. The server returns integers, and nil becomes 0.
- ActiveRecordSequence.ToInteger: stands for Ruby's `.to_i`, a library call whose internals are not modelled, so its contract is its definition. It has no row of its own; TranslateSelectOutcome states where it puts a select's outcome.
- SequenceSemantics.CreateBehaviour: stated only for plain identifiers. The name is interpolated unquoted, so other names change the statement itself.
- SequenceSemantics.DropBehaviour: stated only for plain identifiers, for the same reason.
- Postgres.ParseCreateSql: stated only for plain identifiers, for the same reason.
- Postgres.ParseDropSql: stated only for plain identifiers, for the same reason.
- The SequenceBehaviour lemmas about create are stated for a plain identifier that is not yet a sequence, which is what the test suite's `before` blocks set up. DropThenNext, AscendingProgression, DescendingProgression and CyclicNeverStops require the name to be an existing sequence. PeekAfterNext, PeekChangesNothing, NextIsIndependent and ExhaustionIsFinal require neither.
