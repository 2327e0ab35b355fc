/** SequenceSQLBuilder (lib/active_record/sequence/sequence_sql_builder.rb): renders a
    sequence name and the options hash of Sequence.create into one CREATE SEQUENCE
    statement by appending clauses to a list of parts and joining them with spaces. */
module SqlBuilder {
  import opened Wrappers
  import opened Text

  /** The options hash. None stands for a missing key or an explicit nil (Ruby
      treats both as false); every Some(n), 0 included, is truthy. */
  datatype CreateOptions = CreateOptions(
    start: Option<int>,
    increment: Option<int>,
    min: Option<int>,
    max: Option<int>,
    cycle: Option<bool>)

  /** `{}`: the default of Sequence.create. */
  const NoOptions := CreateOptions(None, None, None, None, None)

  /** format('CREATE SEQUENCE %s', name): the name is interpolated as is. */
  function BaseClause(name: string): string {
    "CREATE SEQUENCE " + name
  }

  /** The clause a numeric option adds, if set: format('<keyword> %s', value),
      where `keyword` is the template's text before %s, its space included. */
  function NumericClause(keyword: string, value: Option<int>): seq<string> {
    match value
    case None => []
    case Some(n) => [keyword + IntToStr(n)]
  }

  /** options.fetch(:cycle, false) ? 'CYCLE' : 'NO CYCLE'. */
  function CycleClause(cycle: Option<bool>): string {
    if cycle == Some(true) then "CYCLE" else "NO CYCLE"
  }

  /** Everything one to_sql call appends, in the order it calls configure_*. */
  function OptionClauses(o: CreateOptions): seq<string> {
    NumericClause("INCREMENT BY ", o.increment)
    + NumericClause("MINVALUE ", o.min)
    + NumericClause("MAXVALUE ", o.max)
    + NumericClause("START ", o.start)
    + [CycleClause(o.cycle)]
  }

  /** The parts of a fresh builder after one to_sql. */
  function Clauses(name: string, o: CreateOptions): seq<string> {
    [BaseClause(name)] + OptionClauses(o)
  }

  /** The statement Sequence.create executes. */
  function CreateSql(name: string, o: CreateOptions): string {
    Join(Clauses(name, o))
  }

  /** How many numeric options are set. */
  function SetCount(o: CreateOptions): nat {
    (if o.increment.Some? then 1 else 0) + (if o.min.Some? then 1 else 0)
    + (if o.max.Some? then 1 else 0) + (if o.start.Some? then 1 else 0)
  }

  class SequenceSqlBuilder {
    const options: CreateOptions
    var parts: seq<string>

    constructor (name: string, options: CreateOptions)
      ensures this.options == options
      ensures parts == [BaseClause(name)]
    {
      this.options := options;
      parts := [BaseClause(name)];
    }

    /** Appends every clause the options call for, then joins all parts. Each call
        appends again, so a second call does not return the same statement. */
    method ToSql() returns (sql: string)
      modifies this
      ensures parts == old(parts) + OptionClauses(options)
      ensures sql == Join(parts)
    {
      ConfigureIncrement();
      ConfigureMinValue();
      ConfigureMaxValue();
      ConfigureStartValue();
      ConfigureCycle();
      sql := Join(parts);
    }

    method ConfigureIncrement()
      modifies this
      ensures parts == old(parts) + NumericClause("INCREMENT BY ", options.increment)
    {
      if options.increment.Some? {
        parts := parts + ["INCREMENT BY " + IntToStr(options.increment.value)];
      }
    }

    method ConfigureMinValue()
      modifies this
      ensures parts == old(parts) + NumericClause("MINVALUE ", options.min)
    {
      if options.min.Some? {
        parts := parts + ["MINVALUE " + IntToStr(options.min.value)];
      }
    }

    method ConfigureMaxValue()
      modifies this
      ensures parts == old(parts) + NumericClause("MAXVALUE ", options.max)
    {
      if options.max.Some? {
        parts := parts + ["MAXVALUE " + IntToStr(options.max.value)];
      }
    }

    method ConfigureStartValue()
      modifies this
      ensures parts == old(parts) + NumericClause("START ", options.start)
    {
      if options.start.Some? {
        parts := parts + ["START " + IntToStr(options.start.value)];
      }
    }

    method ConfigureCycle()
      modifies this
      ensures parts == old(parts) + [CycleClause(options.cycle)]
    {
      var cycle := options.cycle.GetOr(false);
      parts := parts + [if cycle then "CYCLE" else "NO CYCLE"];
    }
  }

  /** The shape of the parts: the base clause first, exactly one cycle clause last,
      and one clause per set numeric option in between. */
  lemma ClausesShape(name: string, o: CreateOptions)
    ensures |Clauses(name, o)| == 2 + SetCount(o)
    ensures Clauses(name, o)[0] == "CREATE SEQUENCE " + name
    ensures Clauses(name, o)[|Clauses(name, o)| - 1] == (if o.cycle == Some(true) then "CYCLE" else "NO CYCLE")
    ensures forall i :: 0 < i < |Clauses(name, o)| - 1 ==> Clauses(name, o)[i] !in {"CYCLE", "NO CYCLE"}
  {
    var cs := Clauses(name, o);
    forall i | 0 < i < |cs| - 1 ensures cs[i] !in {"CYCLE", "NO CYCLE"} {
      var middle := NumericClause("INCREMENT BY ", o.increment) + NumericClause("MINVALUE ", o.min)
        + NumericClause("MAXVALUE ", o.max) + NumericClause("START ", o.start);
      assert cs == [BaseClause(name)] + middle + [CycleClause(o.cycle)];
      assert cs[i] == middle[i - 1];
      NumericClausesAreNotCycle(o, middle[i - 1]);
    }
  }

  lemma NumericClausesAreNotCycle(o: CreateOptions, c: string)
    requires c in NumericClause("INCREMENT BY ", o.increment) + NumericClause("MINVALUE ", o.min)
      + NumericClause("MAXVALUE ", o.max) + NumericClause("START ", o.start)
    ensures c != "CYCLE" && c != "NO CYCLE"
  {
    // each numeric clause starts with its keyword, and none of those starts with N
    if c in NumericClause("INCREMENT BY ", o.increment) {
      assert c == "INCREMENT BY " + IntToStr(o.increment.value) && c[0] == 'I';
    } else if c in NumericClause("MINVALUE ", o.min) {
      assert c == "MINVALUE " + IntToStr(o.min.value) && c[0] == 'M';
    } else if c in NumericClause("MAXVALUE ", o.max) {
      assert c == "MAXVALUE " + IntToStr(o.max.value) && c[0] == 'M';
    } else {
      assert c == "START " + IntToStr(o.start.value) && c[0] == 'S';
    }
  }

  /** Without options the statement is the base clause followed by NO CYCLE. */
  lemma CreateSqlWithoutOptions(name: string)
    ensures CreateSql(name, NoOptions) == "CREATE SEQUENCE " + name + " NO CYCLE"
  {
    assert Clauses(name, NoOptions) == ["CREATE SEQUENCE " + name, "NO CYCLE"];
    JoinHead(Clauses(name, NoOptions));
  }

  /** Every statement starts with `CREATE SEQUENCE <name> `. */
  lemma CreateSqlStartsWithName(name: string, o: CreateOptions)
    ensures |CreateSql(name, o)| > |"CREATE SEQUENCE " + name|
    ensures CreateSql(name, o)[..|"CREATE SEQUENCE " + name| + 1] == "CREATE SEQUENCE " + name + " "
  {
    var cs := Clauses(name, o);
    var base := "CREATE SEQUENCE " + name;
    assert cs[1..] == OptionClauses(o);
    JoinHead(cs);
    assert CreateSql(name, o) == base + " " + Join(OptionClauses(o));
  }
}
