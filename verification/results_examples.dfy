/** The `SimulationResults` scenarios of the test suite. The first
    collection holds `lala` (SUMTYPE, 13) and `lele` (RATIOTYPE, 3/10 then
    8/10); the other holds `lala` (30), `lele` (4/10) and `lili`
    (MISCTYPE, "a string"). */
module ResultsExamples {
  import opened Outcomes
  import opened Accumulators
  import opened Parameters
  import opened ResultsCollection

  function N(x: real): Sample { Sample(Num(x), None) }
  function R(x: real, t: real): Sample { Sample(Num(x), Some(t)) }

  function Lala(): (a: Accumulator)
    ensures a.name == "lala" && a.stat == Sum(13.0) && a.numUpdates == 1
  {
    Accumulators.Create("lala", Sum(0.0), N(13.0), false).value
  }

  function Lele(): (a: Accumulator)
    ensures a.name == "lele" && a.stat == Ratio(11.0, 20.0) && a.numUpdates == 2 && !a.keep
  {
    Update(Update(Fresh("lele", Ratio(0.0, 0.0), false), R(3.0, 10.0)).value, R(8.0, 10.0)).value
  }

  function LalaOther(): (a: Accumulator)
    ensures a.name == "lala" && a.stat == Sum(30.0) && a.numUpdates == 1 && !a.keep
  {
    Accumulators.Create("lala", Sum(0.0), N(30.0), false).value
  }

  function LeleOther(): (a: Accumulator)
    ensures a.name == "lele" && a.stat == Ratio(4.0, 10.0) && a.numUpdates == 1 && !a.keep
  {
    Accumulators.Create("lele", Ratio(0.0, 0.0), R(4.0, 10.0), false).value
  }

  function Lili(): (a: Accumulator)
    ensures a.name == "lili" && a.stat == Misc(Some(Text("a string"))) && a.numUpdates == 1
  {
    Accumulators.Create("lili", Misc(None), Sample(Text("a string"), None), false).value
  }

  /** The shape of the first collection, whatever its parameters. */
  predicate First(c: Collection<int>, lala: Accumulator, lele: Accumulator) {
    c.results == map[lala.name := [lala], lele.name := [lele]]
  }

  /** The shape of the other collection. */
  predicate Other(c: Collection<int>, lala: Accumulator, lele: Accumulator, lili: Accumulator) {
    c.results == map[lala.name := [lala], lele.name := [lele], lili.name := [lili]]
  }

  /** What the structural facts below need of the five results: three
      distinct names, the same name and type on both sides, and no kept
      samples. */
  predicate Shape(la: Accumulator, le: Accumulator, la2: Accumulator, le2: Accumulator, li: Accumulator) {
    && la.name != le.name && la.name != li.name && le.name != li.name
    && la2.name == la.name && le2.name == le.name
    && la.stat.Sum? && la2.stat.Sum? && le.stat.Ratio? && le2.stat.Ratio? && li.stat.Misc?
    && !la.keep && !la2.keep && !le.keep && !le2.keep
  }

  /** The five results of the two collections, as the tests build them. */
  predicate Setup(la: Accumulator, le: Accumulator, la2: Accumulator, le2: Accumulator, li: Accumulator) {
    && la.name == "lala" && la.stat == Sum(13.0) && la.numUpdates == 1 && !la.keep
    && le.name == "lele" && le.stat == Ratio(11.0, 20.0) && le.numUpdates == 2 && !le.keep
    && la2.name == "lala" && la2.stat == Sum(30.0) && la2.numUpdates == 1 && !la2.keep
    && le2.name == "lele" && le2.stat == Ratio(4.0, 10.0) && le2.numUpdates == 1 && !le2.keep
    && li.name == "lili" && li.stat == Misc(Some(Text("a string"))) && li.numUpdates == 1
  }

  lemma SetupHolds()
    ensures Setup(Lala(), Lele(), LalaOther(), LeleOther(), Lili())
  {
  }

  lemma TestNames()
    ensures "lala" != "lele" && "lala" != "lili" && "lele" != "lili"
  {
    assert "lala"[1] != "lele"[1] && "lala"[1] != "lili"[1] && "lele"[1] != "lili"[1];
  }

  lemma SetupShape(la: Accumulator, le: Accumulator, la2: Accumulator, le2: Accumulator, li: Accumulator)
    requires Setup(la, le, la2, le2, li)
    ensures Shape(la, le, la2, le2, li)
  {
    TestNames();
  }

  lemma FirstWellFormed(c: Collection<int>, la: Accumulator, le: Accumulator)
    requires First(c, la, le) && la.name != le.name
    ensures ResultsCollection.WellFormed(c)
  {
  }

  lemma OtherWellFormed(d: Collection<int>, la: Accumulator, le: Accumulator, li: Accumulator)
    requires Other(d, la, le, li) && la.name != le.name && la.name != li.name && le.name != li.name
    ensures ResultsCollection.WellFormed(d)
  {
  }

  lemma AllAppendable(c: Collection<int>, d: Collection<int>,
                      la: Accumulator, le: Accumulator, la2: Accumulator, le2: Accumulator, li: Accumulator)
    requires Shape(la, le, la2, le2, li) && First(c, la, le) && Other(d, la2, le2, li)
    requires ResultsCollection.WellFormed(c) && ResultsCollection.WellFormed(d)
    ensures forall n :: n in d.results ==> Appendable(c, d, n)
  {
    forall n | n in d.results ensures Appendable(c, d, n) {
      assert n == la.name || n == le.name || n == li.name;
    }
  }

  lemma AppendAllShape(c: Collection<int>, d: Collection<int>,
                       la: Accumulator, le: Accumulator, la2: Accumulator, le2: Accumulator, li: Accumulator)
    requires Shape(la, le, la2, le2, li) && First(c, la, le) && Other(d, la2, le2, li)
    ensures ResultsCollection.WellFormed(c) && ResultsCollection.WellFormed(d)
    ensures AppendAllResults(c, d)
      == Ok(c.(results := map[la.name := [la, la2], le.name := [le, le2], li.name := [li]]))
  {
    FirstWellFormed(c, la, le);
    OtherWellFormed(d, la2, le2, li);
    AllAppendable(c, d, la, le, la2, le2, li);
    var r := AppendAllResults(c, d).value;
    AssembleAppended(r.results, c, d, la, le, la2, le2, li);
    assert r == c.(results := r.results);
  }

  /** The joined lists of the two collections, name by name. */
  lemma AssembleAppended(x: map<string, seq<Accumulator>>, c: Collection<int>, d: Collection<int>,
                         la: Accumulator, le: Accumulator, la2: Accumulator, le2: Accumulator, li: Accumulator)
    requires Shape(la, le, la2, le2, li) && First(c, la, le) && Other(d, la2, le2, li)
    requires x.Keys == c.results.Keys + d.results.Keys
    requires forall n :: n in x ==> x[n] == Entries(c, n) + Entries(d, n)
    ensures x == map[la.name := [la, la2], le.name := [le, le2], li.name := [li]]
  {
    assert x.Keys == {la.name, le.name, li.name};
    assert x[la.name] == [la, la2] by {
      assert Entries(c, la.name) == [la] && Entries(d, la.name) == [la2];
    }
    assert x[le.name] == [le, le2] by {
      assert Entries(c, le.name) == [le] && Entries(d, le.name) == [le2];
    }
    assert x[li.name] == [li] by {
      assert Entries(c, li.name) == [] && Entries(d, li.name) == [li];
    }
    ThreeKeys(x, la.name, le.name, li.name);
  }

  /** A map with three keys is the display of its three entries. */
  lemma ThreeKeys<T>(x: map<string, T>, a: string, b: string, c: string)
    requires x.Keys == {a, b, c}
    ensures x == map[a := x[a], b := x[b], c := x[c]]
  {
  }

  /** `get_result_values_list` of a two-result list. */
  lemma ValuesOfPair(c: Collection<int>, n: string, a: Accumulator, b: Accumulator)
    requires Valid(c.params) && n in c.results && c.results[n] == [a, b]
    ensures ValuesFor(c, n, None) == Ok([GetResult(a), GetResult(b)])
  {
    var r := ValuesFor(c, n, None).value;
    assert |r| == 2 && r[0] == GetResult(a) && r[1] == GetResult(b);
    assert r == [GetResult(a), GetResult(b)];
  }

  lemma ValuesOfOne(c: Collection<int>, n: string, a: Accumulator)
    requires Valid(c.params) && n in c.results && c.results[n] == [a]
    ensures ValuesFor(c, n, None) == Ok([GetResult(a)])
  {
    var r := ValuesFor(c, n, None).value;
    assert |r| == 1 && r[0] == GetResult(a);
    assert r == [GetResult(a)];
  }

  /** The values after appending, whatever the names. */
  lemma AppendedValues(c: Collection<int>, d: Collection<int>,
                       la: Accumulator, le: Accumulator, la2: Accumulator, le2: Accumulator, li: Accumulator)
    requires Valid(c.params) && Shape(la, le, la2, le2, li) && First(c, la, le) && Other(d, la2, le2, li)
    ensures ResultsCollection.WellFormed(c) && ResultsCollection.WellFormed(d)
    ensures var r := AppendAllResults(c, d);
      && r.Ok?
      && r.value.results.Keys == {la.name, le.name, li.name}
      && |r.value.results[la.name]| == 2 && |r.value.results[le.name]| == 2 && |r.value.results[li.name]| == 1
      && ValuesFor(r.value, la.name, None) == Ok([GetResult(la), GetResult(la2)])
      && ValuesFor(r.value, le.name, None) == Ok([GetResult(le), GetResult(le2)])
      && ValuesFor(r.value, li.name, None) == Ok([GetResult(li)])
  {
    AppendAllShape(c, d, la, le, la2, le2, li);
    AppendedReadings(AppendAllResults(c, d).value, la, le, la2, le2, li);
  }

  lemma AppendedReadings(r: Collection<int>,
                         la: Accumulator, le: Accumulator, la2: Accumulator, le2: Accumulator, li: Accumulator)
    requires Valid(r.params) && Shape(la, le, la2, le2, li)
    requires r.results == map[la.name := [la, la2], le.name := [le, le2], li.name := [li]]
    ensures ValuesFor(r, la.name, None) == Ok([GetResult(la), GetResult(la2)])
    ensures ValuesFor(r, le.name, None) == Ok([GetResult(le), GetResult(le2)])
    ensures ValuesFor(r, li.name, None) == Ok([GetResult(li)])
  {
    ValuesOfPair(r, la.name, la, la2);
    ValuesOfPair(r, le.name, le, le2);
    ValuesOfOne(r, li.name, li);
  }

  /** Appending everything: `lala` and `lele` hold two results each, `lili`
      one; the values are [13, 30], [0.55, 0.4] and ["a string"]. */
  lemma AppendAll(c: Collection<int>, d: Collection<int>,
                  la: Accumulator, le: Accumulator, la2: Accumulator, le2: Accumulator, li: Accumulator)
    requires Valid(c.params) && Setup(la, le, la2, le2, li) && First(c, la, le) && Other(d, la2, le2, li)
    ensures ResultsCollection.WellFormed(c) && ResultsCollection.WellFormed(d)
    ensures var r := AppendAllResults(c, d);
      && r.Ok?
      && r.value.results.Keys == {"lala", "lele", "lili"}
      && |r.value.results["lala"]| == 2 && |r.value.results["lele"]| == 2 && |r.value.results["lili"]| == 1
      && ValuesFor(r.value, "lala", None) == Ok([Number(13.0), Number(30.0)])
      && ValuesFor(r.value, "lele", None) == Ok([Number(0.55), Number(0.4)])
      && ValuesFor(r.value, "lili", None) == Ok([Written(Text("a string"))])
  {
    SetupShape(la, le, la2, le2, li);
    AppendedValues(c, d, la, le, la2, le2, li);
    SetupReadings(la, le, la2, le2, li);
  }

  /** What the five results of the tests read. */
  lemma SetupReadings(la: Accumulator, le: Accumulator, la2: Accumulator, le2: Accumulator, li: Accumulator)
    requires Setup(la, le, la2, le2, li)
    ensures GetResult(la) == Number(13.0) && GetResult(la2) == Number(30.0)
    ensures GetResult(le) == Number(0.55) && GetResult(le2) == Number(0.4)
    ensures GetResult(li) == Written(Text("a string"))
  {
  }

  lemma BothMerge(c: Collection<int>, d: Collection<int>,
                  la: Accumulator, le: Accumulator, la2: Accumulator, le2: Accumulator, li: Accumulator)
    requires Shape(la, le, la2, le2, li) && First(c, la, le) && Other(d, la2, le2, li)
    requires ResultsCollection.WellFormed(c) && ResultsCollection.WellFormed(d)
    ensures MergesUnder(c, d, la.name) && MergesUnder(c, d, le.name)
    ensures Last(c.results[la.name]) == la && Last(d.results[la.name]) == la2
    ensures Last(c.results[le.name]) == le && Last(d.results[le.name]) == le2
    ensures |c.results[la.name]| == 1 && |c.results[le.name]| == 1 && c.results.Keys == {la.name, le.name}
  {
    assert Last(c.results[la.name]) == la && Last(d.results[la.name]) == la2;
    assert Last(c.results[le.name]) == le && Last(d.results[le.name]) == le2;
  }

  lemma MergeAllOk(c: Collection<int>, d: Collection<int>,
                   la: Accumulator, le: Accumulator, la2: Accumulator, le2: Accumulator, li: Accumulator)
    requires Shape(la, le, la2, le2, li) && First(c, la, le) && Other(d, la2, le2, li)
    ensures ResultsCollection.WellFormed(c) && ResultsCollection.WellFormed(d)
    ensures MergeAllResults(c, d).Ok?
  {
    FirstWellFormed(c, la, le);
    OtherWellFormed(d, la2, le2, li);
    BothMerge(c, d, la, le, la2, le2, li);
    forall n | n in c.results ensures MergesUnder(c, d, n) {
      assert n == la.name || n == le.name;
    }
    assert |c.results| > 0;
  }

  /** The two `lala` results merge to 43 and the two `lele` results to
      (11 + 4)/(20 + 10) = 0.5. */
  lemma MergedValues(la: Accumulator, le: Accumulator, la2: Accumulator, le2: Accumulator, li: Accumulator)
    requires Setup(la, le, la2, le2, li)
    ensures Merge(la, la2).Ok? && GetResult(Merge(la, la2).value) == Number(43.0) && Merge(la, la2).value.numUpdates == 2
    ensures Merge(le, le2).Ok? && GetResult(Merge(le, le2).value) == Number(0.5) && Merge(le, le2).value.numUpdates == 3
  {
    assert Merge(le, le2).value.stat == Ratio(15.0, 30.0);
  }

  /** Merging everything: `lala` becomes 13 + 30 = 43 from two updates,
      `lele` becomes (11 + 4)/(20 + 10) from three; `lili` is ignored. */
  lemma MergeAll(c: Collection<int>, d: Collection<int>,
                 la: Accumulator, le: Accumulator, la2: Accumulator, le2: Accumulator, li: Accumulator)
    requires Setup(la, le, la2, le2, li) && First(c, la, le) && Other(d, la2, le2, li)
    ensures ResultsCollection.WellFormed(c) && ResultsCollection.WellFormed(d)
    ensures var r := MergeAllResults(c, d);
      && r.Ok?
      && r.value.results.Keys == {"lala", "lele"}
      && |r.value.results["lala"]| == 1 && |r.value.results["lele"]| == 1
      && GetResult(r.value.results["lala"][0]) == Number(43.0) && r.value.results["lala"][0].numUpdates == 2
      && GetResult(r.value.results["lele"][0]) == Number(0.5) && r.value.results["lele"][0].numUpdates == 3
  {
    SetupShape(la, le, la2, le2, li);
    MergeAllOk(c, d, la, le, la2, le2, li);
    BothMerge(c, d, la, le, la2, le2, li);
    MergeSingleton(c, d, la.name);
    MergeSingleton(c, d, le.name);
    MergedValues(la, le, la2, le2, li);
  }

  /** An empty collection merging another takes over its results. */
  lemma MergeIntoEmpty(c: Collection<int>, e: Collection<int>, la: Accumulator, le: Accumulator)
    requires First(c, la, le) && la.name == "lala" && le.name == "lele" && |e.results| == 0
    ensures ResultsCollection.WellFormed(c) && ResultsCollection.WellFormed(e)
    ensures var r := MergeAllResults(e, c);
      r.Ok? && r.value.results.Keys == {"lala", "lele"}
  {
    TestNames();
    FirstWellFormed(c, la, le);
  }

  /** A collection without `lili` cannot be merged into one with it. */
  lemma MergeMissingName(c: Collection<int>, d: Collection<int>,
                         la: Accumulator, le: Accumulator, la2: Accumulator, le2: Accumulator, li: Accumulator)
    requires Setup(la, le, la2, le2, li) && First(c, la, le) && Other(d, la2, le2, li)
    ensures ResultsCollection.WellFormed(c) && ResultsCollection.WellFormed(d)
    ensures MergeAllResults(d, c) == Err(MissingKey)
  {
    SetupShape(la, le, la2, le2, li);
    FirstWellFormed(c, la, le);
    OtherWellFormed(d, la2, le2, li);
    assert li.name in d.results && li.name !in c.results;
  }

  /** `add_result` replaces: `lala` is then the single result 25. */
  lemma AddReplaces(c: Collection<int>, la: Accumulator, le: Accumulator)
    requires First(c, la, le)
    ensures var a := Accumulators.Create("lala", Sum(0.0), N(25.0), false).value;
      AddResult(c, a).results["lala"] == [a] && GetResult(a) == Number(25.0)
  {
  }

  /** `append_result` adds 25 after 13, and refuses a RATIOTYPE `lala`. */
  lemma AppendOne(c: Collection<int>, la: Accumulator, le: Accumulator)
    requires First(c, la, le) && la.name == "lala" && la.stat == Sum(13.0) && la.numUpdates == 1 && le.name == "lele"
    ensures ResultsCollection.WellFormed(c)
    ensures var a := Accumulators.Create("lala", Sum(0.0), N(25.0), false).value;
      var r := AppendResult(c, a);
      && r.Ok? && r.value.results["lala"] == [la, a]
      && GetResult(r.value.results["lala"][0]) == Number(13.0)
      && GetResult(r.value.results["lala"][1]) == Number(25.0)
    ensures AppendResult(c, Accumulators.Create("lala", Ratio(0.0, 0.0), R(25.0, 30.0), false).value) == Err(KindMismatch)
  {
    TestNames();
    FirstWellFormed(c, la, le);
    CreatedForAppend();
    var a := Accumulators.Create("lala", Sum(0.0), N(25.0), false).value;
    assert c.results["lala"] == [la];
    assert [la] + [a] == [la, a];
  }

  /** The two results the test tries to append. */
  lemma CreatedForAppend()
    ensures var a := Accumulators.Create("lala", Sum(0.0), N(25.0), false);
      a.Ok? && a.value.name == "lala" && a.value.stat.Sum? && GetResult(a.value) == Number(25.0)
    ensures var b := Accumulators.Create("lala", Ratio(0.0, 0.0), R(25.0, 30.0), false);
      b.Ok? && b.value.name == "lala" && b.value.stat.Ratio?
  {
  }

  /** Equality: a different `elapsed_time` does not matter, an added
      parameter does, and an added result does. */
  lemma EqualityScenario(c: Collection<int>, d: Collection<int>, la: Accumulator, le: Accumulator,
                          e30: Accumulator, e20: Accumulator, lili: Accumulator)
    requires c.results == map["lala" := [la], "lele" := [le], ElapsedTime := [e30]]
    requires d.results == map["lala" := [la], "lele" := [le], ElapsedTime := [e20]]
    requires c.params == d.params && "value" !in c.params.params && lili.name == "lili"
    ensures SameCollection(c, d)
    ensures !SameCollection(c, d.(params := Add(d.params, "value", Scalar(10))))
    ensures SameCollection(c.(params := Add(c.params, "value", Scalar(10))), d.(params := Add(d.params, "value", Scalar(10))))
    ensures !SameCollection(c, AddResult(d, lili))
  {
    TestNames();
    assert c.results.Keys - {ElapsedTime} == {"lala", "lele"} == d.results.Keys - {ElapsedTime};
    ValueMatters(c, d);
    assert lili.name !in c.results;
    assert lili.name in AddResult(d, lili).results.Keys - {ElapsedTime};
  }

  /** Collections with the same results and parameters stop being equal
      when only one side gains the parameter `value`, and are equal again
      once both have it. */
  lemma ValueMatters(c: Collection<int>, d: Collection<int>)
    requires SameCollection(c, d) && c.params == d.params && "value" !in c.params.params
    ensures !SameCollection(c, d.(params := Add(d.params, "value", Scalar(10))))
    ensures SameCollection(c.(params := Add(c.params, "value", Scalar(10))), d.(params := Add(d.params, "value", Scalar(10))))
  {
    var dv := d.(params := Add(d.params, "value", Scalar(10)));
    assert "value" != RepMax && "value" !in c.params.params - {RepMax};
    assert "value" in dv.params.params - {RepMax};
    var cv := c.(params := Add(c.params, "value", Scalar(10)));
    assert cv.params.params - {RepMax} == dv.params.params - {RepMax};
  }
}
