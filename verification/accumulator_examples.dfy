/** The update, merge and equality scenarios of the `Result` tests. */
module AccumulatorExamples {
  import opened Outcomes
  import opened Accumulators

  function N(x: real): Sample { Sample(Num(x), None) }
  function R(x: real, t: real): Sample { Sample(Num(x), Some(t)) }

  /** SUMTYPE: 13 then 4 is 17. */
  lemma SumUpdates()
    ensures var r := UpdateAll(Fresh("name", Sum(0.0), false), [N(13.0), N(4.0)]);
      r.Ok? && r.value.stat == Sum(17.0) && GetResult(r.value) == Number(17.0)
  {
    assert [N(13.0), N(4.0)][1..] == [N(4.0)];
  }

  /** RATIOTYPE: (3, 4) then (9, 36) is 12/40 = 0.3; then (12, 8) makes it
      24/48 = 0.5. */
  lemma RatioUpdates()
    ensures var r := UpdateAll(Fresh("name2", Ratio(0.0, 0.0), false), [R(3.0, 4.0), R(9.0, 36.0)]);
      && r.Ok? && r.value.stat == Ratio(12.0, 40.0) && GetResult(r.value) == Number(0.3)
      && Update(r.value, R(12.0, 8.0)).Ok? && GetResult(Update(r.value, R(12.0, 8.0)).value) == Number(0.5)
  {
    assert [R(3.0, 4.0), R(9.0, 36.0)][1..] == [R(9.0, 36.0)];
  }

  /** Before any update SUMTYPE and MISCTYPE read "Nothing yet" and
      RATIOTYPE reads 0/0 as NaN; after 10, (2, 4) and 0.4 they read 10, 0.5
      and 0.4. */
  lemma Representation()
    ensures GetResult(Fresh("name", Sum(0.0), false)) == NothingYet
    ensures GetResult(Fresh("name2", Ratio(0.0, 0.0), false)) == NotANumber
    ensures GetResult(Fresh("name3", Misc(None), false)) == NothingYet
    ensures Update(Fresh("name", Sum(0.0), false), N(10.0)).Ok?
      && GetResult(Update(Fresh("name", Sum(0.0), false), N(10.0)).value) == Number(10.0)
    ensures Update(Fresh("name2", Ratio(0.0, 0.0), false), R(2.0, 4.0)).Ok?
      && GetResult(Update(Fresh("name2", Ratio(0.0, 0.0), false), R(2.0, 4.0)).value) == Number(0.5)
    ensures Update(Fresh("name3", Misc(None), false), N(0.4)).Ok?
      && GetResult(Update(Fresh("name3", Misc(None), false), N(0.4)).value) == Written(Num(0.4))
  {
  }

  /** MISCTYPE keeps whatever was written last. */
  lemma MiscUpdates()
    ensures var r := UpdateAll(Fresh("name3", Misc(None), false),
                               [Sample(Text("First"), None), Sample(Text("Second"), None), N(0.4)]);
      r.Ok? && GetResult(r.value) == Written(Num(0.4))
  {
    var us := [Sample(Text("First"), None), Sample(Text("Second"), None), N(0.4)];
    assert us[1..] == [Sample(Text("Second"), None), N(0.4)];
    assert us[1..][1..] == [N(0.4)];
  }

  /** A ratio update without a total, and any update of an unknown type,
      are errors. */
  lemma UpdateErrors(a: Accumulator)
    requires a.stat.Ratio?
    ensures Update(a, N(3.0)) == Err(MissingOperand)
    ensures Update(Fresh("invalid", Unknown("invalid_type"), false), N(10.0)) == Err(UnknownType)
  {
  }

  /** With `accumulate_values=True` every sample is kept: SUMTYPE. */
  lemma KeptSums()
    ensures var r := UpdateAll(Fresh("name", Sum(0.0), true), [N(13.0), N(30.0)]);
      r.Ok? && r.value.stat == Sum(43.0) && r.value.values == [Num(13.0), Num(30.0)] && r.value.totals == []
  {
    var s := [N(13.0), N(30.0)];
    assert s[1..] == [N(30.0)];
  }

  /** Kept samples of a RATIOTYPE result: values and totals side by side. */
  lemma KeptRatios()
    ensures var r := UpdateAll(Fresh("name", Ratio(0.0, 0.0), true), [R(3.0, 10.0), R(6.0, 7.0), R(1.0, 15.0)]);
      && r.Ok? && r.value.stat == Ratio(10.0, 32.0) && GetResult(r.value) == Number(0.3125)
      && r.value.values == [Num(3.0), Num(6.0), Num(1.0)] && r.value.totals == [10.0, 7.0, 15.0]
  {
    var q := [R(3.0, 10.0), R(6.0, 7.0), R(1.0, 15.0)];
    assert q[1..] == [R(6.0, 7.0), R(1.0, 15.0)] && q[1..][1..] == [R(1.0, 15.0)];
  }

  /** Kept samples of a MISCTYPE result, of any kind; the result is the
      last one. */
  lemma KeptMisc()
    ensures var r := UpdateAll(Fresh("name", Misc(None), true), [N(3.0), Sample(Text("some string"), None), N(2.0)]);
      && r.Ok? && GetResult(r.value) == Written(Num(2.0))
      && r.value.values == [Num(3.0), Text("some string"), Num(2.0)] && r.value.totals == []
  {
    var m := [N(3.0), Sample(Text("some string"), None), N(2.0)];
    assert m[1..] == [Sample(Text("some string"), None), N(2.0)] && m[1..][1..] == [N(2.0)];
  }

  /** The RATIOTYPE result updated with (3, 10), (6, 7), (1, 15). */
  function RatioThree(keep: bool): (r: Accumulator)
    ensures r.stat == Ratio(10.0, 32.0) && r.numUpdates == 3 && r.name == "name2" && r.keep == keep
    ensures keep ==> r.values == [Num(3.0), Num(6.0), Num(1.0)] && r.totals == [10.0, 7.0, 15.0]
    ensures !keep ==> r.values == [] && r.totals == []
  {
    var a0 := Fresh("name2", Ratio(0.0, 0.0), keep);
    var a1 := Update(a0, R(3.0, 10.0)).value;
    var a2 := Update(a1, R(6.0, 7.0)).value;
    Update(a2, R(1.0, 15.0)).value
  }

  /** `Result.create("name2", RATIOTYPE, 34, 50)` updated with (12, 18). */
  function RatioOther(keep: bool): (r: Accumulator)
    ensures r.stat == Ratio(46.0, 68.0) && r.numUpdates == 2 && r.name == "name2" && r.keep == keep
    ensures keep ==> r.values == [Num(34.0), Num(12.0)] && r.totals == [50.0, 18.0]
  {
    Update(Create("name2", Ratio(0.0, 0.0), R(34.0, 50.0), keep).value, R(12.0, 18.0)).value
  }

  /** Merging adds values, totals and update counts: 10/32 with 46/68 is
      56/100, five updates; samples are concatenated in order. */
  lemma RatioMerge(keep: bool)
    ensures var m := Merge(RatioThree(keep), RatioOther(keep));
      && m.Ok? && m.value.stat == Ratio(56.0, 100.0) && GetResult(m.value) == Number(0.56)
      && m.value.numUpdates == 5
      && (keep ==> m.value.values == [Num(3.0), Num(6.0), Num(1.0), Num(34.0), Num(12.0)]
                   && m.value.totals == [10.0, 7.0, 15.0, 50.0, 18.0])
  {
  }

  /** SUMTYPE with kept samples: 13, 30 merged with 11, 22, 4 is 80 and
      the samples are [13, 30, 11, 22, 4]. */
  lemma SumMerge()
    ensures var a := UpdateAll(Fresh("name", Sum(0.0), true), [N(13.0), N(30.0)]).value;
      var b := UpdateAll(Create("name", Sum(0.0), N(11.0), true).value, [N(22.0), N(4.0)]).value;
      var m := Merge(a, b);
      && m.Ok? && GetResult(m.value) == Number(80.0)
      && m.value.values == [Num(13.0), Num(30.0), Num(11.0), Num(22.0), Num(4.0)]
  {
    assert [N(13.0), N(30.0)][1..] == [N(30.0)];
    assert [N(22.0), N(4.0)][1..] == [N(4.0)];
  }

  /** MISCTYPE never merges, nor do different names or types. */
  lemma MergeErrors()
    ensures Merge(Create("name3", Misc(None), N(0.4), false).value,
                  Create("name3", Misc(None), N(0.3), false).value) == Err(IncompatibleMerge)
    ensures Merge(Create("name", Sum(0.0), N(13.0), false).value,
                  Create("name4", Sum(0.0), N(3.0), false).value) == Err(IncompatibleMerge)
    ensures Merge(Create("name", Sum(0.0), N(13.0), false).value,
                  Create("name", Ratio(0.0, 0.0), R(3.0, 4.0), false).value) == Err(IncompatibleMerge)
  {
    MiscNeverMerges(Create("name3", Misc(None), N(0.4), false), Create("name3", Misc(None), N(0.3), false));
    OtherNameNeverMerges(Create("name", Sum(0.0), N(13.0), false), Create("name4", Sum(0.0), N(3.0), false));
    OtherTypeNeverMerges(Create("name", Sum(0.0), N(13.0), false),
                         Create("name", Ratio(0.0, 0.0), R(3.0, 4.0), false));
  }

  lemma MiscNeverMerges(a: Result<Accumulator, ResultError>, b: Result<Accumulator, ResultError>)
    requires a == Create("name3", Misc(None), N(0.4), false) && b == Create("name3", Misc(None), N(0.3), false)
    ensures a.Ok? && b.Ok? && Merge(a.value, b.value) == Err(IncompatibleMerge)
  {
  }

  lemma OtherNameNeverMerges(a: Result<Accumulator, ResultError>, b: Result<Accumulator, ResultError>)
    requires a == Create("name", Sum(0.0), N(13.0), false) && b == Create("name4", Sum(0.0), N(3.0), false)
    ensures a.Ok? && b.Ok? && Merge(a.value, b.value) == Err(IncompatibleMerge)
  {
    assert "name" != "name4";
  }

  lemma OtherTypeNeverMerges(a: Result<Accumulator, ResultError>, b: Result<Accumulator, ResultError>)
    requires a == Create("name", Sum(0.0), N(13.0), false)
    requires b == Create("name", Ratio(0.0, 0.0), R(3.0, 4.0), false)
    ensures a.Ok? && b.Ok? && Merge(a.value, b.value) == Err(IncompatibleMerge)
  {
  }

  /** The RATIOTYPE result updated with (2, 6), (7, 15), (2, 5), samples
      not kept. */
  function RatioNoKeep(): (r: Accumulator)
    ensures r.stat == Ratio(11.0, 26.0) && r.name == "name2" && !r.keep && r.values == [] && r.totals == []
  {
    var a0 := Fresh("name2", Ratio(0.0, 0.0), false);
    var a1 := Update(a0, R(2.0, 6.0)).value;
    var a2 := Update(a1, R(7.0, 15.0)).value;
    Update(a2, R(2.0, 5.0)).value
  }

  lemma HistoryMismatchWith(kept: Accumulator, plain: Accumulator)
    requires kept.name == "name2" && kept.keep && kept.stat == Ratio(56.0, 100.0)
    requires plain.name == "name2" && !plain.keep && plain.stat == Ratio(11.0, 26.0)
    requires plain.values == [] && plain.totals == []
    ensures Merge(kept, plain) == Err(IncompatibleMerge)
    ensures var m := Merge(plain, kept);
      m.Ok? && m.value.stat == Ratio(67.0, 126.0) && m.value.values == [] && m.value.totals == []
  {
  }

  /** A result that keeps samples cannot merge one that does not; the
      other way round works and keeps no samples: 11/26 with 56/100 is
      67/126. */
  lemma HistoryMismatch()
    ensures var kept := Merge(RatioThree(true), RatioOther(true)).value;
      && Merge(kept, RatioNoKeep()) == Err(IncompatibleMerge)
      && Merge(RatioNoKeep(), kept).Ok?
      && Merge(RatioNoKeep(), kept).value.stat == Ratio(67.0, 126.0)
      && Merge(RatioNoKeep(), kept).value.values == []
      && Merge(RatioNoKeep(), kept).value.totals == []
  {
    RatioMerge(true);
    HistoryMismatchWith(Merge(RatioThree(true), RatioOther(true)).value, RatioNoKeep());
  }

  /** 10 then 7 equals `create(7)` then 10; changing the type does not. */
  lemma Equality()
    ensures var a := UpdateAll(Fresh("name", Sum(0.0), false), [N(10.0), N(7.0)]).value;
      var b := Update(Create("name", Sum(0.0), N(7.0), false).value, N(10.0)).value;
      SameResult(a, b) && !SameResult(a, b.(stat := Ratio(17.0, 0.0)))
  {
    assert [N(10.0), N(7.0)][1..] == [N(7.0)];
  }
}
