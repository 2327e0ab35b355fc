/** The behaviour spec/sequence_spec.rb asserts, stated as lemmas about the
    client's operations against the reference server, for a name that is a
    plain identifier and for every database that meets each lemma's own
    precondition (most ask that the name is not yet a sequence, which is what
    the suite's `before` block arranges). */
module SequenceBehaviour {
  import opened Wrappers
  import opened Errors
  import opened SqlBuilder
  import opened Postgres
  import opened ActiveRecordSequence
  import opened SequenceSemantics

  /** The default sequence a create with no options defines. */
  const DefaultSequence := SeqState(1, 1, MaxBigint, false, 1, false)

  function Created(db: Database, name: string, o: CreateOptions): Database {
    CreateOutcome(db, name, o).1
  }

  /** `k` calls of next in a row: their results and the database after them. */
  function NextTimes(db: Database, name: string, k: nat): (Result<seq<int>, Exception>, Database)
    decreases k
  {
    if k == 0 then (Ok([]), db)
    else
      var (r, after) := NextOutcome(db, name);
      if r.Err? then (Err(r.error), after)
      else
        var (rest, last) := NextTimes(after, name, k - 1);
        (if rest.Ok? then Ok([r.value] + rest.value) else rest, last)
  }

  /** One call of next that the sequence's bounds allow. */
  lemma NextReturns(db: Database, name: string)
    requires IsSimpleName(name) && name in db.sequences && NextValue(db.sequences[name]).Ok?
    ensures var (v, s) := NextValue(db.sequences[name]).value;
      NextOutcome(db, name) == (Ok(v), Database(db.sequences[name := s], db.session[name := v]))
  {
    NextBehaviour(db, name);
  }

  /** One call of next past the bound of a non-cyclic sequence. */
  lemma NextStops(db: Database, name: string)
    requires IsSimpleName(name) && name in db.sequences && NextValue(db.sequences[name]).Err?
    ensures NextOutcome(db, name) == (Err(Raised(StopIteration)), db)
  {
    NextBehaviour(db, name);
  }

  /** A create the server accepts, with the sequence it defines. */
  lemma CreateDefines(db: Database, name: string, o: CreateOptions, s: SeqState)
    requires IsSimpleName(name) && name !in db.sequences
    requires DefineSequence(Emitted(o)) == Ok(s)
    ensures CreateOutcome(db, name, o) == (Ok(()), Database(db.sequences[name := s], db.session - {name}))
  {
    CreateBehaviour(db, name, o);
  }

  /** A single call of next. */
  lemma NextTimesOne(db: Database, name: string, v: int, after: Database)
    requires NextOutcome(db, name) == (Ok(v), after)
    ensures NextTimes(db, name, 1) == (Ok([v]), after)
  {
    assert NextTimes(after, name, 0) == (Ok([]), after);
    assert [v] + [] == [v];
  }

  /** One more call of next after a run of them. */
  lemma {:induction false} NextTimesSnoc(db: Database, name: string, k: nat, xs: seq<int>, mid: Database, v: int, after: Database)
    requires NextTimes(db, name, k) == (Ok(xs), mid)
    requires NextOutcome(mid, name) == (Ok(v), after)
    ensures NextTimes(db, name, k + 1) == (Ok(xs + [v]), after)
    decreases k
  {
    if k == 0 {
      assert xs == [] && mid == db;
      NextTimesOne(db, name, v, after);
      assert xs + [v] == [v];
    } else {
      var (r, next) := NextOutcome(db, name);
      var (rest, last) := NextTimes(next, name, k - 1);
      assert r.Ok? && rest == Ok(xs[1..]) && last == mid;
      NextTimesSnoc(next, name, k - 1, xs[1..], mid, v, after);
      assert [r.value] + (xs[1..] + [v]) == xs + [v];
    }
  }

  /** Two calls of next on a sequence not yet called whose second value is in range. */
  lemma CountTwice(db: Database, name: string, s: SeqState) returns (after: Database)
    requires IsSimpleName(name) && name in db.sequences && db.sequences[name] == s
    requires !s.isCalled && s.min <= s.last + s.increment <= s.max
    ensures NextTimes(db, name, 2) == (Ok([s.last, s.last + s.increment]), after)
    ensures name in after.sequences && after.sequences[name] == s.(isCalled := true, last := s.last + s.increment)
  {
    NextReturns(db, name);
    var db2 := Database(db.sequences[name := s.(isCalled := true)], db.session[name := s.last]);
    NextTimesOne(db, name, s.last, db2);
    NextReturns(db2, name);
    var v := s.last + s.increment;
    after := Database(db2.sequences[name := s.(isCalled := true, last := v)], db2.session[name := v]);
    NextTimesSnoc(db, name, 1, [s.last], db2, v, after);
    assert [s.last] + [v] == [s.last, v];
  }

  // ---------------------------------------------------------- .create

  /** create with no options, then next, next: 1 and 2. */
  lemma CreateThenNextCountsFromOne(db: Database, name: string)
    requires IsSimpleName(name) && name !in db.sequences
    ensures CreateOutcome(db, name, NoOptions).0 == Ok(())
    ensures name in Created(db, name, NoOptions).sequences
    ensures Created(db, name, NoOptions).sequences[name] == DefaultSequence
    ensures NextTimes(Created(db, name, NoOptions), name, 2).0 == Ok([1, 2])
  {
    CreateDefines(db, name, NoOptions, DefaultSequence);
    var db1 := Database(db.sequences[name := DefaultSequence], db.session - {name});
    var _ := CountTwice(db1, name, DefaultSequence);
  }

  /** create(start: s), then next: s. */
  lemma CreateWithStart(db: Database, name: string, s: int)
    requires IsSimpleName(name) && name !in db.sequences
    requires 1 <= s <= MaxBigint
    ensures NextTimes(Created(db, name, NoOptions.(start := Some(s))), name, 1).0 == Ok([s])
  {
    var s0 := SeqState(1, 1, MaxBigint, false, s, false);
    CreateDefines(db, name, NoOptions.(start := Some(s)), s0);
    var db1 := Database(db.sequences[name := s0], db.session - {name});
    NextReturns(db1, name);
    NextTimesOne(db1, name, s, Database(db1.sequences[name := s0.(isCalled := true)], db1.session[name := s]));
  }

  /** create(increment: k) with k > 0: 1, then 1 + k. */
  lemma CreateWithPositiveIncrement(db: Database, name: string, k: int)
    requires IsSimpleName(name) && name !in db.sequences
    requires 0 < k < MaxBigint
    ensures NextTimes(Created(db, name, NoOptions.(increment := Some(k))), name, 2).0 == Ok([1, 1 + k])
  {
    var s0 := SeqState(k, 1, MaxBigint, false, 1, false);
    CreateDefines(db, name, NoOptions.(increment := Some(k)), s0);
    var _ := CountTwice(Database(db.sequences[name := s0], db.session - {name}), name, s0);
  }

  /** create(increment: k) with k < 0 counts down from -1: -1, then -1 + k. */
  lemma CreateWithNegativeIncrement(db: Database, name: string, k: int)
    requires IsSimpleName(name) && name !in db.sequences
    requires MinBigint < k < 0
    ensures NextTimes(Created(db, name, NoOptions.(increment := Some(k))), name, 2).0 == Ok([-1, -1 + k])
  {
    var s0 := SeqState(k, MinBigint, -1, false, -1, false);
    CreateDefines(db, name, NoOptions.(increment := Some(k)), s0);
    var _ := CountTwice(Database(db.sequences[name := s0], db.session - {name}), name, s0);
  }

  /** create(min: -2, increment: -1): -1, -2, then StopIteration. */
  lemma CreateWithMinimum(db: Database, name: string)
    requires IsSimpleName(name) && name !in db.sequences
    ensures var db1 := Created(db, name, NoOptions.(min := Some(-2), increment := Some(-1)));
      NextTimes(db1, name, 2).0 == Ok([-1, -2])
      && NextOutcome(NextTimes(db1, name, 2).1, name).0 == Err(Raised(StopIteration))
  {
    var s0 := SeqState(-1, -2, -1, false, -1, false);
    CreateDefines(db, name, NoOptions.(min := Some(-2), increment := Some(-1)), s0);
    var after := CountTwice(Database(db.sequences[name := s0], db.session - {name}), name, s0);
    NextStops(after, name);
  }

  /** create(max: 2): 1, 2, then StopIteration. */
  lemma CreateWithMaximum(db: Database, name: string)
    requires IsSimpleName(name) && name !in db.sequences
    ensures var db1 := Created(db, name, NoOptions.(max := Some(2)));
      NextTimes(db1, name, 2).0 == Ok([1, 2])
      && NextOutcome(NextTimes(db1, name, 2).1, name).0 == Err(Raised(StopIteration))
  {
    var s0 := SeqState(1, 1, 2, false, 1, false);
    CreateDefines(db, name, NoOptions.(max := Some(2)), s0);
    var after := CountTwice(Database(db.sequences[name := s0], db.session - {name}), name, s0);
    NextStops(after, name);
  }

  /** create(max: 2, cycle: true): 1, 2, then 1 again. */
  lemma CreateCyclic(db: Database, name: string)
    requires IsSimpleName(name) && name !in db.sequences
    ensures NextTimes(Created(db, name, NoOptions.(max := Some(2), cycle := Some(true))), name, 3).0 == Ok([1, 2, 1])
  {
    var s0 := SeqState(1, 1, 2, true, 1, false);
    CreateDefines(db, name, NoOptions.(max := Some(2), cycle := Some(true)), s0);
    var db1 := Database(db.sequences[name := s0], db.session - {name});
    var mid := CountTwice(db1, name, s0);
    assert NextValue(mid.sequences[name]) == Ok((1, s0.(isCalled := true)));
    NextReturns(mid, name);
    var after := Database(mid.sequences[name := s0.(isCalled := true)], mid.session[name := 1]);
    NextTimesSnoc(db1, name, 2, [1, 2], mid, 1, after);
    assert [1, 2] + [1] == [1, 2, 1];
  }

  /** A second create of the same name changes nothing: AlreadyExist when the
      server accepts the second options, StatementInvalid when it rejects them. */
  lemma CreateTwice(db: Database, name: string, o1: CreateOptions, o2: CreateOptions)
    requires IsSimpleName(name)
    requires CreateOutcome(db, name, o1).0.Ok?
    ensures DefineSequence(Emitted(o2)).Ok? ==>
      CreateOutcome(Created(db, name, o1), name, o2) == (Err(Raised(AlreadyExist)), Created(db, name, o1))
    ensures DefineSequence(Emitted(o2)).Err? ==>
      CreateOutcome(Created(db, name, o1), name, o2) ==
        (Err(StatementInvalid(DefineSequence(Emitted(o2)).error)), Created(db, name, o1))
  {
    CreateBehaviour(db, name, o1);
    CreateBehaviour(Created(db, name, o1), name, o2);
  }

  // ------------------------------------------------------------ .drop

  /** drop of an existing sequence succeeds, and next on it then fails with NotExist. */
  lemma DropThenNext(db: Database, name: string)
    requires IsSimpleName(name) && name in db.sequences
    ensures DropOutcome(db, name).0 == Ok(())
    ensures NextOutcome(DropOutcome(db, name).1, name).0 == Err(Raised(NotExist))
    ensures PeekOutcome(DropOutcome(db, name).1, name).0 == Err(Raised(NotExist))
  {
    DropBehaviour(db, name);
    NextBehaviour(DropOutcome(db, name).1, name);
    PeekBehaviour(DropOutcome(db, name).1, name);
  }

  /** drop of a name that is not a sequence: NotExist. */
  lemma DropMissing(db: Database, name: string)
    requires IsSimpleName(name) && name !in db.sequences
    ensures DropOutcome(db, name) == (Err(Raised(NotExist)), db)
  {
    DropBehaviour(db, name);
  }

  // ------------------------------------------------------------ #next

  /** next on two sequences: advancing one does not change what the other returns. */
  lemma NextIsIndependent(db: Database, a: string, b: string)
    requires a != b
    ensures NextOutcome(NextOutcome(db, a).1, b).0 == NextOutcome(db, b).0
    ensures PeekOutcome(NextOutcome(db, a).1, b).0 == PeekOutcome(db, b).0
  {
    NextBehaviour(db, a);
    var db1 := NextOutcome(db, a).1;
    NextBehaviour(db1, b);
    NextBehaviour(db, b);
    PeekBehaviour(db1, b);
    PeekBehaviour(db, b);
  }

  /** next and peek on a name that was never created: NotExist. */
  lemma MissingSequence(db: Database, name: string)
    requires IsSimpleName(name) && name !in db.sequences
    ensures NextOutcome(db, name) == (Err(Raised(NotExist)), db)
    ensures PeekOutcome(db, name) == (Err(Raised(NotExist)), db)
  {
    NextBehaviour(db, name);
    PeekBehaviour(db, name);
  }

  // ------------------------------------------------------------ #peek

  /** peek on a freshly created sequence: CurrentValueUndefined. */
  lemma PeekBeforeNext(db: Database, name: string, o: CreateOptions)
    requires IsSimpleName(name)
    requires CreateOutcome(db, name, o).0.Ok?
    ensures PeekOutcome(Created(db, name, o), name).0 == Err(Raised(CurrentValueUndefined))
  {
    CreateBehaviour(db, name, o);
    PeekBehaviour(Created(db, name, o), name);
  }

  /** peek right after a next returns the value that next returned. */
  lemma PeekAfterNext(db: Database, name: string)
    requires NextOutcome(db, name).0.Ok?
    ensures PeekOutcome(NextOutcome(db, name).1, name).0 == NextOutcome(db, name).0
  {
    NextBehaviour(db, name);
    PeekBehaviour(NextOutcome(db, name).1, name);
  }

  /** peek changes nothing, so it can be repeated. */
  lemma PeekChangesNothing(db: Database, name: string)
    ensures PeekOutcome(db, name).1 == db
  {
    PeekBehaviour(db, name);
  }

  // ------------------------------------------------- the whole sequence

  /** The value the next call of nextval will return, if the bound allows it. */
  function Upcoming(s: SeqState): int {
    if s.isCalled then s.last + s.increment else s.last
  }

  /** An ascending sequence returns an arithmetic progression for as long as it
      stays within its maximum. */
  lemma {:induction false} AscendingProgression(db: Database, name: string, k: nat)
    requires IsSimpleName(name) && name in db.sequences
    requires db.sequences[name].increment > 0
    requires k > 0 ==> Upcoming(db.sequences[name]) + (k - 1) * db.sequences[name].increment <= db.sequences[name].max
    ensures var (r, after) := NextTimes(db, name, k);
      r.Ok? && |r.value| == k
      && (forall i :: 0 <= i < k ==> r.value[i] == Upcoming(db.sequences[name]) + i * db.sequences[name].increment)
      && name in after.sequences
      && after.sequences[name].increment == db.sequences[name].increment
      && after.sequences[name].max == db.sequences[name].max
    decreases k
  {
    if k > 0 {
      var s := db.sequences[name];
      var u := Upcoming(s);
      assert (k - 1) * s.increment >= 0;
      NextBehaviour(db, name);
      var db1 := NextOutcome(db, name).1;
      assert NextOutcome(db, name).0 == Ok(u);
      var s1 := db1.sequences[name];
      assert s1.isCalled && s1.last == u && s1.increment == s.increment && s1.max == s.max;
      if k > 1 {
        assert Upcoming(s1) + (k - 2) * s.increment == u + (k - 1) * s.increment;
      }
      AscendingProgression(db1, name, k - 1);
      var rest := NextTimes(db1, name, k - 1).0.value;
      var r := NextTimes(db, name, k).0.value;
      assert r == [u] + rest;
      forall i | 0 <= i < k ensures r[i] == u + i * s.increment {
        if i > 0 {
          assert r[i] == rest[i - 1] == (u + s.increment) + (i - 1) * s.increment;
        }
      }
    }
  }

  /** A descending sequence returns an arithmetic progression for as long as it
      stays within its minimum. */
  lemma {:induction false} DescendingProgression(db: Database, name: string, k: nat)
    requires IsSimpleName(name) && name in db.sequences
    requires db.sequences[name].increment < 0
    requires k > 0 ==> Upcoming(db.sequences[name]) + (k - 1) * db.sequences[name].increment >= db.sequences[name].min
    ensures var (r, after) := NextTimes(db, name, k);
      r.Ok? && |r.value| == k
      && (forall i :: 0 <= i < k ==> r.value[i] == Upcoming(db.sequences[name]) + i * db.sequences[name].increment)
      && name in after.sequences
      && after.sequences[name].increment == db.sequences[name].increment
      && after.sequences[name].min == db.sequences[name].min
    decreases k
  {
    if k > 0 {
      var s := db.sequences[name];
      var u := Upcoming(s);
      assert (k - 1) * s.increment <= 0;
      NextBehaviour(db, name);
      var db1 := NextOutcome(db, name).1;
      assert NextOutcome(db, name).0 == Ok(u);
      var s1 := db1.sequences[name];
      assert s1.isCalled && s1.last == u && s1.increment == s.increment && s1.min == s.min;
      if k > 1 {
        assert Upcoming(s1) + (k - 2) * s.increment == u + (k - 1) * s.increment;
      }
      DescendingProgression(db1, name, k - 1);
      var rest := NextTimes(db1, name, k - 1).0.value;
      var r := NextTimes(db, name, k).0.value;
      assert r == [u] + rest;
      forall i | 0 <= i < k ensures r[i] == u + i * s.increment {
        if i > 0 {
          assert r[i] == rest[i - 1] == (u + s.increment) + (i - 1) * s.increment;
        }
      }
    }
  }

  /** After create(increment: k) with k < 0, n successive calls of next return
      -1, -1 + k, -1 + 2k, ... for as long as they stay within the bigint range. */
  lemma DescendingSequenceCounts(db: Database, name: string, k: int, n: nat)
    requires IsSimpleName(name) && name !in db.sequences
    requires MinBigint < k < 0
    requires n > 0 ==> -1 + (n - 1) * k >= MinBigint
    ensures var r := NextTimes(Created(db, name, NoOptions.(increment := Some(k))), name, n).0;
      r.Ok? && |r.value| == n && forall i :: 0 <= i < n ==> r.value[i] == -1 + i * k
  {
    var s0 := SeqState(k, MinBigint, -1, false, -1, false);
    CreateDefines(db, name, NoOptions.(increment := Some(k)), s0);
    DescendingProgression(Database(db.sequences[name := s0], db.session - {name}), name, n);
  }

  /** After a create with no options, k successive calls of next return 1, 2, ..., k. */
  lemma DefaultSequenceCounts(db: Database, name: string, k: nat)
    requires IsSimpleName(name) && name !in db.sequences
    requires k <= MaxBigint
    ensures var r := NextTimes(Created(db, name, NoOptions), name, k).0;
      r.Ok? && |r.value| == k && forall i :: 0 <= i < k ==> r.value[i] == i + 1
  {
    CreateThenNextCountsFromOne(db, name);
    AscendingProgression(Created(db, name, NoOptions), name, k);
  }

  /** Once next has signalled the end of a non-cyclic sequence nothing has changed,
      so every further next signals it again. */
  lemma ExhaustionIsFinal(db: Database, name: string)
    requires NextOutcome(db, name).0 == Err(Raised(StopIteration))
    ensures NextOutcome(db, name).1 == db
  {
    NextBehaviour(db, name);
  }

  /** A cyclic sequence never signals the end: past its maximum an ascending one
      starts again at its minimum, past its minimum a descending one at its maximum. */
  lemma CyclicNeverStops(db: Database, name: string)
    requires IsSimpleName(name) && name in db.sequences && db.sequences[name].cycle
    ensures NextOutcome(db, name).0.Ok?
    ensures var s := db.sequences[name];
      s.isCalled && s.increment > 0 && s.last + s.increment > s.max ==> NextOutcome(db, name).0 == Ok(s.min)
    ensures var s := db.sequences[name];
      s.isCalled && s.increment < 0 && s.last + s.increment < s.min ==> NextOutcome(db, name).0 == Ok(s.max)
  {
    NextBehaviour(db, name);
  }
}
