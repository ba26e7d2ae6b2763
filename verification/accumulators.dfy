/** The `Result` class of the simulations package: a named statistic that is
    a running sum (SUMTYPE), a running ratio (RATIOTYPE) or the last value
    written (MISCTYPE), updated one sample at a time and merged with
    another result of the same name and type. Numbers are exact reals. */
module Accumulators {
  import opened Outcomes

  /** A sample: a number, or (for MISCTYPE only) any other value. */
  datatype Datum = Num(x: real) | Text(s: string)

  /** The per-type state. `Unknown` is a result created with a type code
      that is none of the three. */
  datatype Stat =
    | Sum(value: real)
    | Ratio(value: real, total: real)
    | Misc(last: Option<Datum>)
    | Unknown(code: string)

  /** The same update type, whatever the state. */
  predicate SameKind(a: Stat, b: Stat) {
    (a.Sum? && b.Sum?) || (a.Ratio? && b.Ratio?) || (a.Misc? && b.Misc?)
    || (a.Unknown? && b.Unknown? && a.code == b.code)
  }

  /** A `Result`: the statistic, the number of updates, the running sum and
      sum of squares of each update's contribution, and, when `keep` is on
      (`accumulate_values=True`), every sample in order. */
  datatype Accumulator = Accumulator(
    name: string,
    stat: Stat,
    numUpdates: nat,
    resultSum: real,
    resultSquaredSum: real,
    keep: bool,
    values: seq<Datum>,
    totals: seq<real>)

  /** Samples are kept only when `keep` is on. */
  predicate WellFormed(a: Accumulator) {
    !a.keep ==> a.values == [] && a.totals == []
  }

  datatype Sample = Sample(value: Datum, total: Option<real>)

  datatype ResultError =
    | MissingOperand     // a RATIOTYPE update without a total
    | UnknownType        // an update of a result whose type code is unknown
    | NotNumeric         // a SUMTYPE or RATIOTYPE update with a non-number
    | IncompatibleMerge  // different name or type, MISCTYPE, or lost history

  /** The initial state of each type. */
  function Initial(stat: Stat): Stat {
    match stat
    case Sum(_) => Sum(0.0)
    case Ratio(_, _) => Ratio(0.0, 0.0)
    case Misc(_) => Misc(None)
    case Unknown(c) => Unknown(c)
  }

  /** `Result(name, update_type, accumulate_values)`. */
  function Fresh(name: string, kind: Stat, keep: bool): (r: Accumulator)
    ensures r.name == name && r.keep == keep && SameKind(r.stat, kind)
    ensures r.numUpdates == 0 && r.values == [] && r.totals == [] && WellFormed(r)
    ensures r.resultSum == 0.0 && r.resultSquaredSum == 0.0
    ensures kind.Sum? ==> r.stat == Sum(0.0)
    ensures kind.Ratio? ==> r.stat == Ratio(0.0, 0.0)
    ensures kind.Misc? ==> r.stat == Misc(None)
  {
    Accumulator(name, Initial(kind), 0, 0.0, 0.0, keep, [], [])
  }

  /** What one update adds to the running sum: the sample for SUMTYPE, the
      sample's ratio for RATIOTYPE (nothing when its total is zero). */
  function Contribution(value: real, total: Option<real>): real {
    match total
    case None => value
    case Some(t) => if t == 0.0 then 0.0 else value / t
  }

  /** `update(value, total)`. */
  function Update(a: Accumulator, u: Sample): (r: Result<Accumulator, ResultError>)
    ensures r.Ok? ==> r.value.name == a.name && r.value.keep == a.keep && SameKind(r.value.stat, a.stat)
    ensures r.Ok? ==> r.value.numUpdates == a.numUpdates + 1
    ensures r.Ok? && WellFormed(a) ==> WellFormed(r.value)
    ensures r.Err? <==> (a.stat.Unknown? || (a.stat.Ratio? && u.total.None?)
      || ((a.stat.Sum? || a.stat.Ratio?) && u.value.Text?))
    ensures a.stat.Unknown? ==> r == Err(UnknownType)
    ensures a.stat.Ratio? && u.total.None? ==> r == Err(MissingOperand)
    ensures r.Ok? && a.keep ==> r.value.values == a.values + [u.value]
    ensures r.Ok? && !a.keep ==> r.value.values == a.values && r.value.totals == a.totals
    ensures r.Ok? && a.keep && a.stat.Ratio? ==> r.value.totals == a.totals + [u.total.value]
    ensures r.Ok? && a.keep && !a.stat.Ratio? ==> r.value.totals == a.totals
    ensures r.Ok? && a.stat.Sum? ==> r.value.stat == Sum(a.stat.value + u.value.x)
    ensures r.Ok? && a.stat.Ratio? ==> r.value.stat == Ratio(a.stat.value + u.value.x, a.stat.total + u.total.value)
    ensures r.Ok? && a.stat.Misc? ==> r.value.stat == Misc(Some(u.value))
    ensures r.Ok? && a.stat.Sum? ==>
      r.value.resultSum == a.resultSum + u.value.x && r.value.resultSquaredSum == a.resultSquaredSum + u.value.x * u.value.x
    ensures r.Ok? && a.stat.Ratio? ==> var c := Contribution(u.value.x, u.total);
      r.value.resultSum == a.resultSum + c && r.value.resultSquaredSum == a.resultSquaredSum + c * c
    ensures r.Ok? && a.stat.Misc? ==>
      r.value.resultSum == a.resultSum && r.value.resultSquaredSum == a.resultSquaredSum
  {
    match a.stat
    case Unknown(_) => Err(UnknownType)
    case Misc(_) =>
      Ok(a.(stat := Misc(Some(u.value)), numUpdates := a.numUpdates + 1,
            values := if a.keep then a.values + [u.value] else a.values))
    case Sum(v) =>
      if u.value.Text? then Err(NotNumeric)
      else
        var x := u.value.x;
        var c := Contribution(x, None);
        Ok(a.(stat := Sum(v + x), numUpdates := a.numUpdates + 1,
              resultSum := a.resultSum + c, resultSquaredSum := a.resultSquaredSum + c * c,
              values := if a.keep then a.values + [u.value] else a.values))
    case Ratio(v, t) =>
      if u.total.None? then Err(MissingOperand)
      else if u.value.Text? then Err(NotNumeric)
      else
        var x, y := u.value.x, u.total.value;
        var c := Contribution(x, u.total);
        Ok(a.(stat := Ratio(v + x, t + y), numUpdates := a.numUpdates + 1,
              resultSum := a.resultSum + c, resultSquaredSum := a.resultSquaredSum + c * c,
              values := if a.keep then a.values + [u.value] else a.values,
              totals := if a.keep then a.totals + [y] else a.totals))
  }

  /** The updates one after the other; the first failure stops the rest. */
  function UpdateAll(a: Accumulator, us: seq<Sample>): (r: Result<Accumulator, ResultError>)
    ensures r.Ok? ==> r.value.name == a.name && r.value.keep == a.keep && SameKind(r.value.stat, a.stat)
    ensures r.Ok? ==> r.value.numUpdates == a.numUpdates + |us|
    decreases |us|
  {
    if |us| == 0 then Ok(a)
    else
      var b :- Update(a, us[0]);
      UpdateAll(b, us[1..])
  }

  /** `Result.create(name, update_type, value, total, accumulate_values)`:
      a fresh result with one update. */
  function Create(name: string, kind: Stat, u: Sample, keep: bool): (r: Result<Accumulator, ResultError>)
    ensures r.Ok? ==> r.value.numUpdates == 1 && r.value.name == name
    ensures r.Err? <==> (kind.Unknown? || (kind.Ratio? && u.total.None?)
      || ((kind.Sum? || kind.Ratio?) && u.value.Text?))
    ensures r.Ok? && kind.Sum? ==> r.value.stat == Sum(u.value.x)
    ensures r.Ok? && kind.Ratio? ==> r.value.stat == Ratio(u.value.x, u.total.value)
    ensures r.Ok? && kind.Misc? ==> r.value.stat == Misc(Some(u.value))
    ensures r.Ok? && keep ==> r.value.values == [u.value]
  {
    Update(Fresh(name, kind, keep), u)
  }

  /** What `get_result()` returns. */
  datatype Reading = Number(x: real) | NotANumber | Written(d: Datum) | NothingYet | NoReading

  /** `get_result()`: "Nothing yet" before the first update of a SUMTYPE or
      MISCTYPE result, then the sum or the last value; for RATIOTYPE the
      ratio of the running numerator and denominator (NaN while the
      denominator is zero). */
  function GetResult(a: Accumulator): (r: Reading)
    ensures (a.stat.Sum? || a.stat.Misc?) ==> (r == NothingYet <==> a.numUpdates == 0 || a.stat == Misc(None))
    ensures a.stat.Sum? && a.numUpdates > 0 ==> r == Number(a.stat.value)
    ensures a.stat.Ratio? && a.stat.total != 0.0 ==> r == Number(a.stat.value / a.stat.total)
    ensures a.stat.Ratio? && a.stat.total == 0.0 ==> r == NotANumber
    ensures a.stat.Misc? && a.numUpdates > 0 && a.stat.last.Some? ==> r == Written(a.stat.last.value)
    ensures a.stat.Unknown? ==> r == NoReading
  {
    match a.stat
    case Sum(v) => if a.numUpdates == 0 then NothingYet else Number(v)
    case Ratio(v, t) => if t == 0.0 then NotANumber else Number(v / t)
    case Misc(last) => if a.numUpdates == 0 || last.None? then NothingYet else Written(last.value)
    case Unknown(_) => NoReading
  }

  /** The statistic of two mergeable results, added pointwise. */
  function AddStats(a: Stat, b: Stat): Stat
    requires (a.Sum? && b.Sum?) || (a.Ratio? && b.Ratio?)
  {
    if a.Sum? then Sum(a.value + b.value) else Ratio(a.value + b.value, a.total + b.total)
  }

  /** `merge(other)`: the same name and a SUMTYPE or RATIOTYPE of the same
      type are required, and a result that keeps its samples cannot merge
      one that does not. Everything adds up; the samples are concatenated
      when this result keeps them and stay empty otherwise. */
  function Merge(a: Accumulator, b: Accumulator): (r: Result<Accumulator, ResultError>)
    ensures r.Err? <==> (a.name != b.name || !SameKind(a.stat, b.stat) || a.stat.Misc? || a.stat.Unknown?
      || (a.keep && !b.keep))
    ensures r.Err? ==> r.error == IncompatibleMerge
    ensures r.Ok? && WellFormed(a) ==> WellFormed(r.value)
    ensures r.Ok? ==> && r.value.name == a.name && r.value.keep == a.keep
                      && r.value.numUpdates == a.numUpdates + b.numUpdates
                      && r.value.resultSum == a.resultSum + b.resultSum
                      && r.value.resultSquaredSum == a.resultSquaredSum + b.resultSquaredSum
    ensures r.Ok? && a.stat.Sum? ==> r.value.stat == Sum(a.stat.value + b.stat.value)
    ensures r.Ok? && a.stat.Ratio? ==> r.value.stat == Ratio(a.stat.value + b.stat.value, a.stat.total + b.stat.total)
    ensures r.Ok? && a.keep ==> r.value.values == a.values + b.values && r.value.totals == a.totals + b.totals
    ensures r.Ok? && !a.keep ==> r.value.values == a.values && r.value.totals == a.totals
  {
    if a.name != b.name || !SameKind(a.stat, b.stat) || a.stat.Misc? || a.stat.Unknown? then
      Err(IncompatibleMerge)
    else if a.keep && !b.keep then Err(IncompatibleMerge)
    else
      Ok(Accumulator(a.name, AddStats(a.stat, b.stat), a.numUpdates + b.numUpdates,
                     a.resultSum + b.resultSum, a.resultSquaredSum + b.resultSquaredSum,
                     a.keep,
                     if a.keep then a.values + b.values else a.values,
                     if a.keep then a.totals + b.totals else a.totals))
  }

  /** `__eq__`: the same name, type and value (and total). */
  predicate SameResult(a: Accumulator, b: Accumulator) {
    a.name == b.name && a.stat == b.stat
  }

  // ---------------------------------------------------------------------
  // The merge algebra
  // ---------------------------------------------------------------------

  /** Merging in either order gives the same statistic, counts and sums;
      only the order of the kept samples differs. */
  lemma MergeCommutes(a: Accumulator, b: Accumulator)
    requires WellFormed(a) && WellFormed(b) && Merge(a, b).Ok? && Merge(b, a).Ok?
    ensures var ab, ba := Merge(a, b).value, Merge(b, a).value;
      && SameResult(ab, ba) && ab.numUpdates == ba.numUpdates
      && ab.resultSum == ba.resultSum && ab.resultSquaredSum == ba.resultSquaredSum
      && multiset(ab.values) == multiset(ba.values)
  {
  }

  /** Merging is associative, kept samples included. */
  lemma MergeAssociates(a: Accumulator, b: Accumulator, c: Accumulator)
    requires Merge(a, b).Ok? && Merge(b, c).Ok?
    ensures Merge(Merge(a, b).value, c).Ok? <==> Merge(a, Merge(b, c).value).Ok?
    ensures Merge(Merge(a, b).value, c).Ok? ==> Merge(Merge(a, b).value, c) == Merge(a, Merge(b, c).value)
  {
    var ab, bc := Merge(a, b).value, Merge(b, c).value;
    if Merge(ab, c).Ok? {
      assert (a.values + b.values) + c.values == a.values + (b.values + c.values);
      assert (a.totals + b.totals) + c.totals == a.totals + (b.totals + c.totals);
    }
  }

  /** A fresh result of the same name, type and history setting changes
      nothing when merged in. */
  lemma MergeFresh(a: Accumulator)
    requires a.stat.Sum? || a.stat.Ratio?
    ensures Merge(a, Fresh(a.name, a.stat, a.keep)).Ok?
    ensures var m := Merge(a, Fresh(a.name, a.stat, a.keep)).value;
      SameResult(m, a) && m.numUpdates == a.numUpdates && m.values == a.values && m.totals == a.totals
  {
    assert a.values + [] == a.values && a.totals + [] == a.totals;
  }

  /** Updating the right operand of a merge is updating the merge. */
  lemma MergeThenUpdate(a: Accumulator, b: Accumulator, u: Sample)
    requires Merge(a, b).Ok? && Update(b, u).Ok?
    ensures Update(Merge(a, b).value, u).Ok?
    ensures Merge(a, Update(b, u).value) == Update(Merge(a, b).value, u)
  {
    var m := Merge(a, b).value;
    assert SameKind(m.stat, b.stat);
    assert Update(m, u).Ok?;
    var b1, m1 := Update(b, u).value, Update(m, u).value;
    assert Merge(a, b1).Ok?;
    var r := Merge(a, b1).value;
    assert r.stat == m1.stat;
    assert r.resultSum == m1.resultSum && r.resultSquaredSum == m1.resultSquaredSum;
    if a.keep {
      assert a.values + (b.values + [u.value]) == (a.values + b.values) + [u.value];
      if a.stat.Ratio? {
        assert a.totals + (b.totals + [u.total.value]) == (a.totals + b.totals) + [u.total.value];
      }
    }
    assert r == m1;
  }

  /** Merging in a result that received updates `us` is applying `us` to the
      merge: per-run results merged into the running one are the same as
      every sample applied to one result. */
  lemma {:induction false} MergeThenUpdateAll(a: Accumulator, b: Accumulator, us: seq<Sample>)
    requires Merge(a, b).Ok? && UpdateAll(b, us).Ok?
    ensures UpdateAll(Merge(a, b).value, us).Ok?
    ensures Merge(a, UpdateAll(b, us).value) == UpdateAll(Merge(a, b).value, us)
    decreases |us|
  {
    if |us| > 0 {
      var b1 := Update(b, us[0]).value;
      MergeThenUpdate(a, b, us[0]);
      assert Merge(a, b1).Ok?;
      MergeThenUpdateAll(a, b1, us[1..]);
    }
  }

  /** Applying `us + vs` is applying `us` and then `vs`. */
  lemma {:induction false} UpdateAllAppend(a: Accumulator, us: seq<Sample>, vs: seq<Sample>)
    requires UpdateAll(a, us + vs).Ok?
    ensures UpdateAll(a, us).Ok?
    ensures UpdateAll(UpdateAll(a, us).value, vs) == UpdateAll(a, us + vs)
    decreases |us|
  {
    if |us| > 0 {
      assert (us + vs)[0] == us[0] && (us + vs)[1..] == us[1..] + vs;
      UpdateAllAppend(Update(a, us[0]).value, us[1..], vs);
    } else {
      assert us + vs == vs;
    }
  }

  // ---------------------------------------------------------------------
  // What a series of updates does to the statistic
  // ---------------------------------------------------------------------

  /** Every sample is a number. */
  predicate AllNumeric(us: seq<Sample>) {
    forall k :: 0 <= k < |us| ==> us[k].value.Num?
  }

  /** Every sample carries a total. */
  predicate AllWithTotals(us: seq<Sample>) {
    forall k :: 0 <= k < |us| ==> us[k].total.Some?
  }

  /** The sum of the samples' numbers. */
  function SumOfValues(us: seq<Sample>): real
    requires AllNumeric(us)
  {
    if |us| == 0 then 0.0 else us[0].value.x + SumOfValues(us[1..])
  }

  /** The sum of the samples' totals. */
  function SumOfTotals(us: seq<Sample>): real
    requires AllWithTotals(us)
  {
    if |us| == 0 then 0.0 else us[0].total.value + SumOfTotals(us[1..])
  }

  /** A SUMTYPE result accepts any series of numbers and adds them all up. */
  lemma {:induction false} UpdateAllSums(a: Accumulator, us: seq<Sample>)
    requires a.stat.Sum? && AllNumeric(us)
    ensures UpdateAll(a, us).Ok?
    ensures UpdateAll(a, us).value.stat == Sum(a.stat.value + SumOfValues(us))
    decreases |us|
  {
    if |us| > 0 {
      var b := Update(a, us[0]).value;
      assert AllNumeric(us[1..]) by {
        forall k | 0 <= k < |us[1..]| ensures us[1..][k].value.Num? { assert us[1..][k] == us[k + 1]; }
      }
      UpdateAllSums(b, us[1..]);
    }
  }

  /** A RATIOTYPE result accepts any series of numbers with totals and adds
      up the numbers and the totals separately. */
  lemma {:induction false} UpdateAllRatios(a: Accumulator, us: seq<Sample>)
    requires a.stat.Ratio? && AllNumeric(us) && AllWithTotals(us)
    ensures UpdateAll(a, us).Ok?
    ensures UpdateAll(a, us).value.stat
      == Ratio(a.stat.value + SumOfValues(us), a.stat.total + SumOfTotals(us))
    decreases |us|
  {
    if |us| > 0 {
      var b := Update(a, us[0]).value;
      assert AllNumeric(us[1..]) && AllWithTotals(us[1..]) by {
        forall k | 0 <= k < |us[1..]| ensures us[1..][k].value.Num? && us[1..][k].total.Some? {
          assert us[1..][k] == us[k + 1];
        }
      }
      UpdateAllRatios(b, us[1..]);
    }
  }

  /** A MISCTYPE result accepts any series and keeps its last sample. */
  lemma {:induction false} UpdateAllMisc(a: Accumulator, us: seq<Sample>)
    requires a.stat.Misc? && |us| > 0
    ensures UpdateAll(a, us).Ok?
    ensures UpdateAll(a, us).value.stat == Misc(Some(us[|us| - 1].value))
    decreases |us|
  {
    var b := Update(a, us[0]).value;
    if |us| > 1 {
      UpdateAllMisc(b, us[1..]);
      assert us[1..][|us[1..]| - 1] == us[|us| - 1];
    }
  }

  /** A fresh SUMTYPE result fed a non-empty series of numbers reads their
      sum; fed nothing, it reads "Nothing yet". */
  lemma ReadsSumOfSeries(name: string, keep: bool, us: seq<Sample>)
    requires AllNumeric(us)
    ensures UpdateAll(Fresh(name, Sum(0.0), keep), us).Ok?
    ensures us != [] ==> GetResult(UpdateAll(Fresh(name, Sum(0.0), keep), us).value) == Number(SumOfValues(us))
    ensures us == [] ==> GetResult(UpdateAll(Fresh(name, Sum(0.0), keep), us).value) == NothingYet
  {
    UpdateAllSums(Fresh(name, Sum(0.0), keep), us);
  }
}
