/** A small reference model of the PostgreSQL server the client talks to: how it
    quotes string literals, which of the client's statements it recognizes, and
    what CREATE SEQUENCE, DROP SEQUENCE, nextval and currval do to one session's
    view of its sequences. It stands in for the database so that what the client
    sends can be checked; it is not the client's code. */
module Postgres {
  import opened Wrappers
  import opened Text
  import opened SqlBuilder

  // Driver exception classes (SQLSTATE names as the pg gem spells them).
  const DuplicateTable := "PG::DuplicateTable"
  const UndefinedTable := "PG::UndefinedTable"
  const ObjectNotInPrerequisiteState := "PG::ObjectNotInPrerequisiteState"
  const SequenceGeneratorLimitExceeded := "PG::SequenceGeneratorLimitExceeded"
  const InvalidParameterValue := "PG::InvalidParameterValue"
  const SyntaxError := "PG::SyntaxError"

  const MinBigint: int := -0x8000_0000_0000_0000
  const MaxBigint: int := 0x7fff_ffff_ffff_ffff

  predicate InBigint(n: int) {
    MinBigint <= n <= MaxBigint
  }

  // ---------------------------------------------------------------- literals

  /** Doubles every single quote, as the adapter's quote_string does with
      standard_conforming_strings on. */
  function EscapeQuotes(s: string): string {
    if |s| == 0 then ""
    else (if s[0] == '\'' then "''" else [s[0]]) + EscapeQuotes(s[1..])
  }

  /** connection.quote for a String: a single-quoted SQL string literal. */
  function Quote(s: string): string {
    "'" + EscapeQuotes(s) + "'"
  }

  function UnescapeQuotes(t: string): Option<string> {
    if |t| == 0 then Some("")
    else if t[0] != '\'' then
      match UnescapeQuotes(t[1..])
      case Some(rest) => Some([t[0]] + rest)
      case None => None
    else if |t| >= 2 && t[1] == '\'' then
      match UnescapeQuotes(t[2..])
      case Some(rest) => Some("'" + rest)
      case None => None
    else None
  }

  /** The server reading a string literal: None when it is not one. */
  function Unquote(t: string): Option<string> {
    if |t| >= 2 && t[0] == '\'' && t[|t| - 1] == '\'' then UnescapeQuotes(t[1..|t| - 1]) else None
  }

  lemma {:induction false} UnescapeOfEscape(s: string)
    ensures UnescapeQuotes(EscapeQuotes(s)) == Some(s)
  {
    if |s| > 0 {
      var e := EscapeQuotes(s);
      UnescapeOfEscape(s[1..]);
      if s[0] == '\'' {
        assert e == "''" + EscapeQuotes(s[1..]) && e[2..] == EscapeQuotes(s[1..]);
        assert "'" + s[1..] == s;
      } else {
        assert e == [s[0]] + EscapeQuotes(s[1..]) && e[1..] == EscapeQuotes(s[1..]);
        assert [s[0]] + s[1..] == s;
      }
    }
  }

  /** Whatever string the client quotes, the server reads back exactly that string. */
  lemma UnquoteOfQuote(s: string)
    ensures Unquote(Quote(s)) == Some(s)
  {
    var q := Quote(s);
    assert q[1..|q| - 1] == EscapeQuotes(s);
    UnescapeOfEscape(s);
  }

  // -------------------------------------------------------------- statements

  /** Unquoted identifiers that need no case folding: a lower-case letter or
      underscore, then lower-case letters, digits and underscores. */
  predicate IsSimpleName(n: string) {
    |n| > 0 && ('a' <= n[0] <= 'z' || n[0] == '_')
    && forall i :: 0 <= i < |n| ==> 'a' <= n[i] <= 'z' || '0' <= n[i] <= '9' || n[i] == '_'
  }

  /** The options of a CREATE SEQUENCE as the server parsed them. */
  datatype Definition = Definition(
    increment: Option<int>,
    min: Option<int>,
    max: Option<int>,
    start: Option<int>,
    cycle: bool)

  datatype Statement =
    | CreateSequence(name: string, definition: Definition)
    | DropSequence(name: string)
    | Nextval(name: string)
    | Currval(name: string)
    | Unrecognized

  /** `<head><argument>)`, e.g. SELECT nextval('s'). */
  predicate IsCall(sql: string, head: string) {
    |sql| > |head| && sql[..|head|] == head && sql[|sql| - 1] == ')'
  }

  function CallArgument(sql: string, head: string): string
    requires IsCall(sql, head)
  {
    sql[|head|..|sql| - 1]
  }

  /** An optional `<keyword words> <integer>` clause at the front of `ws`. */
  function TakeNumeric(keyword: seq<string>, ws: seq<string>): (Option<int>, seq<string>) {
    if |ws| > |keyword| && ws[..|keyword|] == keyword && ParseInt(ws[|keyword|]).Some? then
      (ParseInt(ws[|keyword|]), ws[|keyword| + 1..])
    else (None, ws)
  }

  /** The clauses after the sequence name, in the order the client writes them. */
  function ParseOptionWords(ws: seq<string>): Option<Definition> {
    var (increment, r1) := TakeNumeric(["INCREMENT", "BY"], ws);
    var (min, r2) := TakeNumeric(["MINVALUE"], r1);
    var (max, r3) := TakeNumeric(["MAXVALUE"], r2);
    var (start, r4) := TakeNumeric(["START"], r3);
    if r4 == ["CYCLE"] then Some(Definition(increment, min, max, start, true))
    else if r4 == ["NO", "CYCLE"] then Some(Definition(increment, min, max, start, false))
    else None
  }

  function ParseStatement(sql: string): Statement {
    if IsCall(sql, "SELECT nextval(") then (
      match Unquote(CallArgument(sql, "SELECT nextval("))
      case Some(n) => if IsSimpleName(n) then Nextval(n) else Unrecognized
      case None => Unrecognized)
    else if IsCall(sql, "SELECT currval(") then (
      match Unquote(CallArgument(sql, "SELECT currval("))
      case Some(n) => if IsSimpleName(n) then Currval(n) else Unrecognized
      case None => Unrecognized)
    else
      var words := Split(sql);
      if |words| == 3 && words[0] == "DROP" && words[1] == "SEQUENCE" && IsSimpleName(words[2]) then
        DropSequence(words[2])
      else if |words| >= 3 && words[0] == "CREATE" && words[1] == "SEQUENCE" && IsSimpleName(words[2]) then (
        match ParseOptionWords(words[3..])
        case Some(d) => CreateSequence(words[2], d)
        case None => Unrecognized)
      else Unrecognized
  }

  // ------------------------------------------------------------------- state

  /** One sequence: its parameters, its last value, and whether nextval has
      returned that value yet (is_called). */
  datatype SeqState = SeqState(
    increment: int,
    min: int,
    max: int,
    cycle: bool,
    last: int,
    isCalled: bool)

  predicate ValidSeq(s: SeqState) {
    s.increment != 0 && InBigint(s.increment)
    && MinBigint <= s.min < s.max <= MaxBigint
    && s.min <= s.last <= s.max
  }

  /** The sequences that exist, and this session's currval cache. */
  datatype Database = Database(sequences: map<string, SeqState>, session: map<string, int>)

  /** Every sequence is well formed, and (one session, no setval) the session has
      a current value for a sequence exactly when nextval was called on it, and
      that value is the sequence's last one. */
  predicate ValidDatabase(db: Database) {
    (forall n :: n in db.sequences ==> ValidSeq(db.sequences[n]))
    && (forall n :: n in db.session ==> n in db.sequences && db.sequences[n].isCalled)
    && (forall n :: n in db.sequences && db.sequences[n].isCalled ==> n in db.session)
    && (forall n :: n in db.session ==> db.session[n] == db.sequences[n].last)
  }

  const EmptyDatabase := Database(map[], map[])

  /** CREATE SEQUENCE with the server's defaults for what was not given:
      increment 1; ascending 1 .. 2^63-1, descending -2^63 .. -1; start at the
      bound the sequence moves away from. */
  function DefineSequence(d: Definition): (r: Result<SeqState, string>)
    ensures r.Ok? ==> ValidSeq(r.value) && !r.value.isCalled && r.value.cycle == d.cycle
  {
    var increment := d.increment.GetOr(1);
    var min := if d.min.Some? then d.min.value else if increment > 0 then 1 else MinBigint;
    var max := if d.max.Some? then d.max.value else if increment > 0 then MaxBigint else -1;
    var start := if d.start.Some? then d.start.value else if increment > 0 then min else max;
    if increment == 0 || !InBigint(increment) || !InBigint(min) || !InBigint(max) then Err(InvalidParameterValue)
    else if min >= max then Err(InvalidParameterValue)
    else if start < min || start > max then Err(InvalidParameterValue)
    else Ok(SeqState(increment, min, max, d.cycle, start, false))
  }

  /** nextval on one sequence: the start value first, then one increment further
      each time; past a bound it wraps when cyclic and fails otherwise, leaving the
      sequence as it was. */
  function NextValue(s: SeqState): (Result<(int, SeqState), string>) {
    if !s.isCalled then Ok((s.last, s.(isCalled := true)))
    else
      var next := s.last + s.increment;
      if s.increment > 0 && next > s.max then
        if s.cycle then Ok((s.min, s.(last := s.min))) else Err(SequenceGeneratorLimitExceeded)
      else if s.increment < 0 && next < s.min then
        if s.cycle then Ok((s.max, s.(last := s.max))) else Err(SequenceGeneratorLimitExceeded)
      else Ok((next, s.(last := next)))
  }

  /** A statement's effect: the value a SELECT returns (None for DDL) or the
      driver exception class, and the database afterwards. CREATE SEQUENCE
      checks its options before it looks for the name, as PostgreSQL does. */
  function Apply(db: Database, st: Statement): (Result<Option<int>, string>, Database) {
    match st
    case CreateSequence(n, d) => (
      match DefineSequence(d)
      case Err(e) => (Err(e), db)
      case Ok(s) =>
        if n in db.sequences then (Err(DuplicateTable), db)
        else (Ok(None), Database(db.sequences[n := s], db.session - {n})))
    case DropSequence(n) =>
      if n !in db.sequences then (Err(UndefinedTable), db)
      else (Ok(None), Database(db.sequences - {n}, db.session - {n}))
    case Nextval(n) =>
      if n !in db.sequences then (Err(UndefinedTable), db)
      else (
        match NextValue(db.sequences[n])
        case Err(e) => (Err(e), db)
        case Ok((v, s)) => (Ok(Some(v)), Database(db.sequences[n := s], db.session[n := v])))
    case Currval(n) =>
      if n !in db.sequences then (Err(UndefinedTable), db)
      else if n !in db.session then (Err(ObjectNotInPrerequisiteState), db)
      else (Ok(Some(db.session[n])), db)
    case Unrecognized => (Err(SyntaxError), db)
  }

  function Run(db: Database, sql: string): (Result<Option<int>, string>, Database) {
    Apply(db, ParseStatement(sql))
  }

  /** The database after running statements one after another in one session. */
  function RunAll(db: Database, sqls: seq<string>): Database
    decreases |sqls|
  {
    if |sqls| == 0 then db else RunAll(Run(db, sqls[0]).1, sqls[1..])
  }

  // ------------------------------------------------------------------ lemmas

  /** nextval returns a value within the sequence's bounds, remembers it as the
      last value, and keeps the sequence well formed; a failure means a
      non-cyclic sequence stepped past its bound. */
  lemma NextValueInBounds(s: SeqState)
    requires ValidSeq(s)
    ensures NextValue(s).Ok? ==>
      var (v, t) := NextValue(s).value;
      ValidSeq(t) && t.min <= v <= t.max && t.last == v && t.isCalled
      && t.(last := s.last, isCalled := s.isCalled) == s
    ensures NextValue(s).Err? <==>
      s.isCalled && !s.cycle && (s.last + s.increment > s.max || s.last + s.increment < s.min)
    ensures s.isCalled && s.cycle && s.increment > 0 && s.last + s.increment > s.max ==>
      NextValue(s).Ok? && NextValue(s).value.0 == s.min
    ensures s.isCalled && s.cycle && s.increment < 0 && s.last + s.increment < s.min ==>
      NextValue(s).Ok? && NextValue(s).value.0 == s.max
  {
  }

  /** Every statement keeps the database well formed. */
  lemma RunPreservesValid(db: Database, sql: string)
    requires ValidDatabase(db)
    ensures ValidDatabase(Run(db, sql).1)
  {
    match ParseStatement(sql)
    case CreateSequence(n, d) =>
    case DropSequence(n) =>
    case Nextval(n) =>
      if n in db.sequences {
        NextValueInBounds(db.sequences[n]);
      }
    case Currval(n) =>
    case Unrecognized =>
  }

  /** Any series of statements keeps a well-formed database well formed. */
  lemma {:induction false} RunAllPreservesValid(db: Database, sqls: seq<string>)
    requires ValidDatabase(db)
    ensures ValidDatabase(RunAll(db, sqls))
    decreases |sqls|
  {
    if |sqls| > 0 {
      RunPreservesValid(db, sqls[0]);
      RunAllPreservesValid(Run(db, sqls[0]).1, sqls[1..]);
    }
  }

  /** Every database a fresh server reaches is well formed. */
  lemma ReachableIsValid(sqls: seq<string>)
    ensures ValidDatabase(RunAll(EmptyDatabase, sqls))
  {
    RunAllPreservesValid(EmptyDatabase, sqls);
  }

  /** Statements about one name leave every other sequence, and its current
      value, as they were. */
  lemma RunIsolated(db: Database, sql: string, other: string)
    requires ParseStatement(sql) != Unrecognized && ParseStatement(sql).name != other
    ensures var db' := Run(db, sql).1;
      (other in db'.sequences <==> other in db.sequences)
      && (other in db.sequences ==> db'.sequences[other] == db.sequences[other])
      && (other in db'.session <==> other in db.session)
      && (other in db.session ==> db'.session[other] == db.session[other])
  {
  }

  // -------------------------------------------------- reading back statements

  function NumericWords(keyword: seq<string>, value: Option<int>): seq<string> {
    match value
    case None => []
    case Some(n) => keyword + [IntToStr(n)]
  }

  function CycleWords(cycle: Option<bool>): seq<string> {
    if cycle == Some(true) then ["CYCLE"] else ["NO", "CYCLE"]
  }

  /** What the server reads from the options the client rendered. */
  function Emitted(o: CreateOptions): Definition {
    Definition(o.increment, o.min, o.max, o.start, o.cycle == Some(true))
  }

  /** Two space-free words joined by a space split back into those words. */
  lemma SplitTwoWords(a: string, b: string)
    requires ' ' !in a && ' ' !in b
    ensures Split(a + " " + b) == [a, b]
  {
    SplitAroundSpace(a, b);
    SplitWithoutSpace(a);
    SplitWithoutSpace(b);
  }

  lemma SplitThreeWords(a: string, b: string, c: string)
    requires ' ' !in a && ' ' !in b && ' ' !in c
    ensures Split(a + " " + b + " " + c) == [a, b, c]
  {
    assert a + " " + b + " " + c == a + " " + (b + " " + c);
    SplitAroundSpace(a, b + " " + c);
    SplitWithoutSpace(a);
    SplitTwoWords(b, c);
  }

  lemma SplitSingleton(c: string)
    ensures SplitAll([c]) == Split(c)
  {
    assert [c][1..] == [];
  }

  lemma SplitNumericClause(keyword: string, words: seq<string>, value: Option<int>)
    requires |words| == 1 ==> keyword == words[0] + " " && ' ' !in words[0]
    requires |words| == 2 ==> keyword == words[0] + " " + words[1] + " " && ' ' !in words[0] && ' ' !in words[1]
    requires |words| == 1 || |words| == 2
    ensures SplitAll(NumericClause(keyword, value)) == NumericWords(words, value)
  {
    if value.Some? {
      var n := IntToStr(value.value);
      assert NumericClause(keyword, value) == [keyword + n];
      SplitSingleton(keyword + n);
      if |words| == 1 {
        assert keyword + n == words[0] + " " + n;
        SplitTwoWords(words[0], n);
      } else {
        assert keyword + n == words[0] + " " + words[1] + " " + n;
        SplitThreeWords(words[0], words[1], n);
      }
    }
  }

  function OptionWords(o: CreateOptions): seq<string> {
    NumericWords(["INCREMENT", "BY"], o.increment)
    + NumericWords(["MINVALUE"], o.min)
    + NumericWords(["MAXVALUE"], o.max)
    + NumericWords(["START"], o.start)
    + CycleWords(o.cycle)
  }

  lemma SplitCycleClause(cycle: Option<bool>)
    ensures SplitAll([CycleClause(cycle)]) == CycleWords(cycle)
  {
    SplitSingleton(CycleClause(cycle));
    if cycle == Some(true) {
      SplitWithoutSpace("CYCLE");
    } else {
      assert "NO CYCLE" == "NO" + " " + "CYCLE";
      SplitTwoWords("NO", "CYCLE");
    }
  }

  lemma SplitOptionClauses(o: CreateOptions)
    ensures SplitAll(OptionClauses(o)) == OptionWords(o)
  {
    var inc := NumericClause("INCREMENT BY ", o.increment);
    var min := NumericClause("MINVALUE ", o.min);
    var max := NumericClause("MAXVALUE ", o.max);
    var start := NumericClause("START ", o.start);
    var cycle := [CycleClause(o.cycle)];
    SplitAllAppend(inc + min + max + start, cycle);
    SplitAllAppend(inc + min + max, start);
    SplitAllAppend(inc + min, max);
    SplitAllAppend(inc, min);
    SplitKeywordClauses(o);
    SplitCycleClause(o.cycle);
  }

  lemma SplitKeywordClauses(o: CreateOptions)
    ensures SplitAll(NumericClause("INCREMENT BY ", o.increment)) == NumericWords(["INCREMENT", "BY"], o.increment)
    ensures SplitAll(NumericClause("MINVALUE ", o.min)) == NumericWords(["MINVALUE"], o.min)
    ensures SplitAll(NumericClause("MAXVALUE ", o.max)) == NumericWords(["MAXVALUE"], o.max)
    ensures SplitAll(NumericClause("START ", o.start)) == NumericWords(["START"], o.start)
  {
    assert "INCREMENT BY " == "INCREMENT" + " " + "BY" + " ";
    SplitNumericClause("INCREMENT BY ", ["INCREMENT", "BY"], o.increment);
    assert "MINVALUE " == "MINVALUE" + " ";
    SplitNumericClause("MINVALUE ", ["MINVALUE"], o.min);
    assert "MAXVALUE " == "MAXVALUE" + " ";
    SplitNumericClause("MAXVALUE ", ["MAXVALUE"], o.max);
    assert "START " == "START" + " ";
    SplitNumericClause("START ", ["START"], o.start);
  }

  lemma TakeNumericOfWords(keyword: seq<string>, value: Option<int>, rest: seq<string>)
    requires |keyword| > 0 && |rest| > 0 && rest[0] != keyword[0]
    ensures TakeNumeric(keyword, NumericWords(keyword, value) + rest) == (value, rest)
  {
    var ws := NumericWords(keyword, value) + rest;
    if value.Some? {
      assert ws[..|keyword|] == keyword;
      assert ws[|keyword|] == IntToStr(value.value);
      ParseIntOfIntToStr(value.value);
      assert ws[|keyword| + 1..] == rest;
    } else {
      assert ws == rest;
      assert |ws| > |keyword| ==> ws[..|keyword|][0] != keyword[0];
    }
  }

  /** The server reads every clause back with exactly the value the options gave,
      in the order the client wrote them, and exactly one cycle setting. */
  lemma ParseOptionWordsOfOptions(o: CreateOptions)
    ensures ParseOptionWords(OptionWords(o)) == Some(Emitted(o))
  {
    var c := CycleWords(o.cycle);
    var s := NumericWords(["START"], o.start) + c;
    var x := NumericWords(["MAXVALUE"], o.max) + s;
    var m := NumericWords(["MINVALUE"], o.min) + x;
    assert OptionWords(o) == NumericWords(["INCREMENT", "BY"], o.increment) + m;
    TakeNumericOfWords(["START"], o.start, c);
    assert |s| > 0 && s[0] in {"START", "CYCLE", "NO"};
    TakeNumericOfWords(["MAXVALUE"], o.max, s);
    assert |x| > 0 && x[0] in {"MAXVALUE", "START", "CYCLE", "NO"};
    TakeNumericOfWords(["MINVALUE"], o.min, x);
    assert |m| > 0 && m[0] in {"MINVALUE", "MAXVALUE", "START", "CYCLE", "NO"};
    TakeNumericOfWords(["INCREMENT", "BY"], o.increment, m);
  }

  lemma SimpleNameHasNoSpecials(n: string)
    requires IsSimpleName(n)
    ensures ' ' !in n && '\'' !in n && '%' !in n && ')' !in n
  {
    forall i | 0 <= i < |n| ensures n[i] != ' ' && n[i] != '\'' && n[i] != '%' && n[i] != ')' {
    }
  }

  lemma WordsOfJoin(head: string, rest: seq<string>)
    ensures Split(Join([head] + rest)) == Split(head) + SplitAll(rest)
  {
    SplitOfJoin([head] + rest);
    SplitAllAppend([head], rest);
    SplitSingleton(head);
  }

  lemma WordsOfBaseClause(name: string, clauses: seq<string>, words: seq<string>)
    requires ' ' !in name && SplitAll(clauses) == words
    ensures Split(Join([BaseClause(name)] + clauses)) == ["CREATE", "SEQUENCE", name] + words
  {
    var base := BaseClause(name);
    WordsOfJoin(base, clauses);
    assert base == "CREATE" + " " + "SEQUENCE" + " " + name;
    SplitThreeWords("CREATE", "SEQUENCE", name);
  }

  lemma WordsOfCreateSql(name: string, o: CreateOptions)
    requires ' ' !in name
    ensures Split(CreateSql(name, o)) == ["CREATE", "SEQUENCE", name] + OptionWords(o)
  {
    SplitOptionClauses(o);
    WordsOfBaseClause(name, OptionClauses(o), OptionWords(o));
  }

  /** The server reads the client's CREATE SEQUENCE statement back as a creation
      of `name` with exactly the given options. */
  lemma ParseCreateSql(name: string, o: CreateOptions)
    requires IsSimpleName(name)
    ensures ParseStatement(CreateSql(name, o)) == CreateSequence(name, Emitted(o))
  {
    var sql := CreateSql(name, o);
    CreateSqlStartsWithName(name, o);
    assert sql[0] == 'C';
    assert !IsCall(sql, "SELECT nextval(") && !IsCall(sql, "SELECT currval(") by {
      assert |sql| > 15 ==> sql[..15][0] == 'C';
    }
    SimpleNameHasNoSpecials(name);
    WordsOfCreateSql(name, o);
    var words := Split(sql);
    assert words[3..] == OptionWords(o);
    ParseOptionWordsOfOptions(o);
  }

  /** `DROP SEQUENCE <name>` is read back as dropping `name`. */
  lemma ParseDropSql(name: string)
    requires IsSimpleName(name)
    ensures ParseStatement("DROP SEQUENCE " + name) == DropSequence(name)
  {
    var sql := "DROP SEQUENCE " + name;
    assert sql[0] == 'D';
    SimpleNameHasNoSpecials(name);
    assert sql == "DROP" + " " + "SEQUENCE" + " " + name;
    SplitThreeWords("DROP", "SEQUENCE", name);
  }

  /** A call of nextval on a quoted name reaches that name's sequence; a name the
      server would fold or reject is not recognized. */
  lemma ParseNextvalCall(name: string)
    ensures ParseStatement("SELECT nextval(" + Quote(name) + ")")
      == if IsSimpleName(name) then Nextval(name) else Unrecognized
  {
    var head := "SELECT nextval(";
    var sql := head + Quote(name) + ")";
    assert sql[..|head|] == head;
    assert CallArgument(sql, head) == Quote(name);
    UnquoteOfQuote(name);
  }

  /** Likewise for currval. */
  lemma ParseCurrvalCall(name: string)
    ensures ParseStatement("SELECT currval(" + Quote(name) + ")")
      == if IsSimpleName(name) then Currval(name) else Unrecognized
  {
    var head := "SELECT currval(";
    var sql := head + Quote(name) + ")";
    assert sql[..|head|] == head;
    assert sql[..15] != "SELECT nextval(" by { assert sql[7] == 'c'; }
    assert CallArgument(sql, head) == Quote(name);
    UnquoteOfQuote(name);
  }
}
