/** `SimulationResults`: the results of a sweep by name, each name holding
    a list of `Result` objects (one per variation in a full run), together
    with the parameters that produced them. */
module ResultsCollection {
  import opened Outcomes
  import opened Accumulators
  import opened Parameters

  /** The result name that equality ignores. */
  const ElapsedTime := "elapsed_time"

  datatype Collection<V> = Collection(results: map<string, seq<Accumulator>>, params: Space<V>)

  datatype CollectionError =
    | MissingKey                     // a name the other collection lacks
    | KindMismatch                   // appending a result of another type
    | ResultFailed(e: ResultError)   // a Result refused an update or a merge
    | BadFixedParams(p: ParamError)
    | IndexOutOfRange                // a selected variation with no entry

  /** Every list is non-empty, and its results carry the list's name and
      share one type. */
  predicate WellFormed<V>(c: Collection<V>) {
    forall n :: n in c.results ==>
      && |c.results[n]| > 0
      && forall k :: 0 <= k < |c.results[n]| ==>
           c.results[n][k].name == n && SameKind(c.results[n][k].stat, c.results[n][0].stat)
  }

  function Last(xs: seq<Accumulator>): Accumulator
    requires |xs| > 0
  {
    xs[|xs| - 1]
  }

  /** An empty collection with the given parameters. */
  function Empty<V>(params: Space<V>): (c: Collection<V>)
    ensures WellFormed(c) && |c.results| == 0
  {
    Collection(map[], params)
  }

  /** `add_result(result)`: the result becomes the only entry under its
      name. */
  function AddResult<V>(c: Collection<V>, a: Accumulator): (r: Collection<V>)
    ensures a.name in r.results && r.results[a.name] == [a]
    ensures r.results.Keys == c.results.Keys + {a.name}
    ensures forall n :: n in c.results && n != a.name ==> r.results[n] == c.results[n]
    ensures r.params == c.params
    ensures WellFormed(c) ==> WellFormed(r)
  {
    c.(results := c.results[a.name := [a]])
  }

  /** `add_new_result(name, update_type, value, total)`: a result created
      with one update, then added. */
  function AddNewResult<V>(c: Collection<V>, name: string, kind: Stat, u: Sample)
    : (r: Result<Collection<V>, CollectionError>)
    ensures r.Err? <==> Accumulators.Create(name, kind, u, false).Err?
    ensures r.Ok? ==> && name in r.value.results && |r.value.results[name]| == 1
                      && r.value.results[name][0] == Accumulators.Create(name, kind, u, false).value
                      && r.value.results[name][0].numUpdates == 1
                      && r.value.results.Keys == c.results.Keys + {name}
    ensures r.Ok? && WellFormed(c) ==> WellFormed(r.value)
  {
    match Accumulators.Create(name, kind, u, false)
    case Err(e) => Err(ResultFailed(e))
    case Ok(a) => Ok(AddResult(c, a))
  }

  /** `append_result(result)`: the result joins the end of its name's list,
      which must hold results of the same type. */
  function AppendResult<V>(c: Collection<V>, a: Accumulator): (r: Result<Collection<V>, CollectionError>)
    requires WellFormed(c)
    ensures r.Err? <==> a.name in c.results && !SameKind(Last(c.results[a.name]).stat, a.stat)
    ensures r.Err? ==> r.error == KindMismatch
    ensures r.Ok? ==> WellFormed(r.value) && r.value.params == c.params
    ensures r.Ok? ==> r.value.results.Keys == c.results.Keys + {a.name}
    ensures r.Ok? ==> r.value.results[a.name] == (if a.name in c.results then c.results[a.name] else []) + [a]
    ensures r.Ok? ==> forall n :: n in c.results && n != a.name ==> r.value.results[n] == c.results[n]
  {
    if a.name !in c.results then Ok(AddResult(c, a))
    else if !SameKind(Last(c.results[a.name]).stat, a.stat) then Err(KindMismatch)
    else Ok(c.(results := c.results[a.name := c.results[a.name] + [a]]))
  }

  /** The entries under `n`, none when the name is absent. */
  function Entries<V>(c: Collection<V>, n: string): seq<Accumulator> {
    if n in c.results then c.results[n] else []
  }

  /** Whether every result `other` holds under `n` can follow this
      collection's results under `n`. */
  predicate Appendable<V>(c: Collection<V>, other: Collection<V>, n: string)
    requires WellFormed(c) && n in other.results
  {
    n in c.results ==> forall k :: 0 <= k < |other.results[n]| ==>
      SameKind(Last(c.results[n]).stat, other.results[n][k].stat)
  }

  /** `append_all_results(other)`: every list of `other` appended to this
      collection's list of the same name; names found only in `other` are
      copied in. */
  function AppendAllResults<V>(c: Collection<V>, other: Collection<V>): (r: Result<Collection<V>, CollectionError>)
    requires WellFormed(c) && WellFormed(other)
    ensures r.Err? <==> exists n :: n in other.results && !Appendable(c, other, n)
    ensures r.Err? ==> r.error == KindMismatch
    ensures r.Ok? ==> WellFormed(r.value) && r.value.params == c.params
    ensures r.Ok? ==> r.value.results.Keys == c.results.Keys + other.results.Keys
    ensures r.Ok? ==> forall n :: n in r.value.results ==> r.value.results[n] == Entries(c, n) + Entries(other, n)
  {
    if exists n :: n in other.results && !Appendable(c, other, n) then Err(KindMismatch)
    else
      var joined := map n | n in c.results.Keys + other.results.Keys :: Entries(c, n) + Entries(other, n);
      var r := c.(results := joined);
      assert WellFormed(r) by {
        forall n | n in joined
          ensures |joined[n]| > 0
          ensures forall k :: 0 <= k < |joined[n]| ==>
            joined[n][k].name == n && SameKind(joined[n][k].stat, joined[n][0].stat)
        {
          assert n in other.results ==> Appendable(c, other, n);
          JoinedKeepsKind(Entries(c, n), Entries(other, n), n);
        }
      }
      Ok(r)
  }

  /** Two lists of results of one name and type, the second's type the
      same as the first's last, concatenate into such a list. */
  lemma JoinedKeepsKind(xs: seq<Accumulator>, ys: seq<Accumulator>, n: string)
    requires |xs| + |ys| > 0
    requires forall k :: 0 <= k < |xs| ==> xs[k].name == n && SameKind(xs[k].stat, xs[0].stat)
    requires forall k :: 0 <= k < |ys| ==> ys[k].name == n && SameKind(ys[k].stat, ys[0].stat)
    requires |xs| > 0 ==> forall k :: 0 <= k < |ys| ==> SameKind(Last(xs).stat, ys[k].stat)
    ensures forall k :: 0 <= k < |xs + ys| ==>
      (xs + ys)[k].name == n && SameKind((xs + ys)[k].stat, (xs + ys)[0].stat)
  {
    forall k | 0 <= k < |xs + ys|
      ensures (xs + ys)[k].name == n && SameKind((xs + ys)[k].stat, (xs + ys)[0].stat)
    {
      if k >= |xs| { assert (xs + ys)[k] == ys[k - |xs|]; }
    }
  }

  /** The list `xs` with its last result merged with `y`. */
  function MergeLast(xs: seq<Accumulator>, y: Accumulator): (r: Result<seq<Accumulator>, ResultError>)
    requires |xs| > 0
    ensures r.Ok? <==> Merge(Last(xs), y).Ok?
    ensures r.Ok? ==> (
      && |r.value| == |xs|
      && r.value[..|xs| - 1] == xs[..|xs| - 1]
      && Last(r.value) == Merge(Last(xs), y).value)
  {
    match Merge(Last(xs), y)
    case Err(e) => Err(e)
    case Ok(m) =>
      var r := xs[..|xs| - 1] + [m];
      assert r[..|xs| - 1] == xs[..|xs| - 1];
      Ok(r)
  }

  /** Merging the last entry keeps a list well formed. */
  lemma MergeLastKeepsKind(xs: seq<Accumulator>, y: Accumulator, n: string)
    requires |xs| > 0 && MergeLast(xs, y).Ok?
    requires forall k :: 0 <= k < |xs| ==> xs[k].name == n && SameKind(xs[k].stat, xs[0].stat)
    ensures var ys := MergeLast(xs, y).value;
      forall k :: 0 <= k < |ys| ==> ys[k].name == n && SameKind(ys[k].stat, ys[0].stat)
  {
    var ys := MergeLast(xs, y).value;
    forall k | 0 <= k < |ys|
      ensures ys[k].name == n && SameKind(ys[k].stat, ys[0].stat)
    {
      if k < |xs| - 1 {
        assert ys[k] == ys[..|xs| - 1][k];
      }
      if |xs| > 1 {
        assert ys[0] == ys[..|xs| - 1][0];
      }
    }
  }

  /** Whether `n`, a name of `c`, has a partner in `other` it can merge
      with. */
  predicate MergesUnder<V>(c: Collection<V>, other: Collection<V>, n: string)
    requires WellFormed(c) && WellFormed(other) && n in c.results
  {
    n in other.results && MergeLast(c.results[n], Last(other.results[n])).Ok?
  }

  /** Why `c` cannot absorb `other`, if it cannot: a name of `c` missing
      from `other` comes first, then a pair of results that refuse to
      merge. */
  function MergeFailure<V>(c: Collection<V>, other: Collection<V>): (r: Option<CollectionError>)
    requires WellFormed(c) && WellFormed(other)
    ensures r.Some? <==> exists n :: n in c.results && !MergesUnder(c, other, n)
    ensures r == Some(MissingKey) <==> exists n :: n in c.results && n !in other.results
  {
    if exists n :: n in c.results && n !in other.results then Some(MissingKey)
    else if exists n :: n in c.results && !MergesUnder(c, other, n) then
      var n :| n in c.results && !MergesUnder(c, other, n);
      Some(ResultFailed(Merge(Last(c.results[n]), Last(other.results[n])).error))
    else None
  }

  /** `merge_all_results(other)`: the last result under each of this
      collection's names absorbs the last result under the same name in
      `other`; names only in `other` are ignored. An empty collection
      takes over `other`'s results instead. */
  function MergeAllResults<V>(c: Collection<V>, other: Collection<V>): (r: Result<Collection<V>, CollectionError>)
    requires WellFormed(c) && WellFormed(other)
    ensures |c.results| == 0 ==> r == Ok(c.(results := other.results))
    ensures |c.results| > 0 ==> (r.Err? <==> exists n :: n in c.results && !MergesUnder(c, other, n))
    ensures |c.results| > 0 ==> (r == Err(MissingKey) <==> exists n :: n in c.results && n !in other.results)
    ensures r.Ok? ==> WellFormed(r.value) && r.value.params == c.params
    ensures r.Ok? && |c.results| > 0 ==> r.value.results.Keys == c.results.Keys
  {
    if |c.results| == 0 then Ok(c.(results := other.results))
    else match MergeFailure(c, other)
      case Some(e) => Err(e)
      case None =>
        AllMergeable(c, other);
        Ok(c.(results := MergedResults(c, other)))
  }

  lemma AllMergeable<V>(c: Collection<V>, other: Collection<V>)
    requires WellFormed(c) && WellFormed(other)
    requires !exists n :: n in c.results && !MergesUnder(c, other, n)
    ensures forall n :: n in c.results ==> n in other.results && Merge(Last(c.results[n]), Last(other.results[n])).Ok?
  {
    forall n | n in c.results
      ensures n in other.results && Merge(Last(c.results[n]), Last(other.results[n])).Ok?
    {
      assert MergesUnder(c, other, n);
    }
  }

  /** After a successful merge into a non-empty collection, each list keeps
      its length and all but its last entry, and the last entry is the
      merge of the two last entries. */
  lemma MergedEntries<V>(c: Collection<V>, other: Collection<V>, n: string)
    requires WellFormed(c) && WellFormed(other) && MergeAllResults(c, other).Ok?
    requires |c.results| > 0 && n in c.results
    ensures n in other.results && Merge(Last(c.results[n]), Last(other.results[n])).Ok?
    ensures var r := MergeAllResults(c, other).value;
      && n in r.results
      && |r.results[n]| == |c.results[n]|
      && r.results[n][..|c.results[n]| - 1] == c.results[n][..|c.results[n]| - 1]
      && Last(r.results[n]) == Merge(Last(c.results[n]), Last(other.results[n])).value
  {
    assert MergesUnder(c, other, n);
  }

  /** Every list of `c` with its last entry merged with `other`'s. */
  function MergedResults<V>(c: Collection<V>, other: Collection<V>): (m: map<string, seq<Accumulator>>)
    requires WellFormed(c) && WellFormed(other)
    requires forall n :: n in c.results ==> n in other.results && Merge(Last(c.results[n]), Last(other.results[n])).Ok?
    ensures m.Keys == c.results.Keys
    ensures forall n :: n in c.results ==> (
      && |m[n]| == |c.results[n]|
      && m[n][..|c.results[n]| - 1] == c.results[n][..|c.results[n]| - 1]
      && Last(m[n]) == Merge(Last(c.results[n]), Last(other.results[n])).value)
    ensures WellFormed(c.(results := m))
  {
    var m := map n | n in c.results :: MergeLast(c.results[n], Last(other.results[n])).value;
    forall n | n in m
      ensures |m[n]| > 0
      ensures forall k :: 0 <= k < |m[n]| ==> m[n][k].name == n && SameKind(m[n][k].stat, m[n][0].stat)
    {
      MergeLastKeepsKind(c.results[n], Last(other.results[n]), n);
    }
    m
  }

  /** A name holding a single result ends up holding the merge of that
      result with the other collection's last one. */
  lemma MergeSingleton<V>(c: Collection<V>, other: Collection<V>, n: string)
    requires WellFormed(c) && WellFormed(other)
    requires MergeAllResults(c, other).Ok? && n in c.results && |c.results[n]| == 1
    ensures n in other.results && Merge(c.results[n][0], Last(other.results[n])).Ok?
    ensures var r := MergeAllResults(c, other).value;
      n in r.results && r.results[n] == [Merge(c.results[n][0], Last(other.results[n])).value]
  {
    var r := MergeAllResults(c, other).value;
    assert |c.results| > 0;
    MergedEntries(c, other, n);
    assert r.results[n][0] == Last(r.results[n]);
  }

  /** Two lists of results, pairwise equal. */
  predicate SameList(xs: seq<Accumulator>, ys: seq<Accumulator>) {
    |xs| == |ys| && forall k :: 0 <= k < |xs| ==> SameResult(xs[k], ys[k])
  }

  /** `__eq__`: the same names and pairwise equal results, `elapsed_time`
      aside, and equal parameters. */
  predicate SameCollection<V(==)>(c: Collection<V>, d: Collection<V>) {
    && SameSpace(c.params, d.params)
    && c.results.Keys - {ElapsedTime} == d.results.Keys - {ElapsedTime}
    && forall n :: n in c.results && n in d.results && n != ElapsedTime ==> SameList(c.results[n], d.results[n])
  }

  /** Setting `elapsed_time` on either side never changes equality. */
  lemma ElapsedTimeIgnored<V>(c: Collection<V>, d: Collection<V>, e: Accumulator, f: Accumulator)
    requires e.name == ElapsedTime && f.name == ElapsedTime
    ensures SameCollection(AddResult(c, e), AddResult(d, f)) <==> SameCollection(c, d)
  {
    assert AddResult(c, e).results.Keys - {ElapsedTime} == c.results.Keys - {ElapsedTime};
    assert AddResult(d, f).results.Keys - {ElapsedTime} == d.results.Keys - {ElapsedTime};
  }

  /** A name present on one side only breaks equality. */
  lemma ExtraNameMatters<V>(c: Collection<V>, d: Collection<V>, a: Accumulator)
    requires a.name != ElapsedTime && a.name !in d.results
    ensures !SameCollection(AddResult(c, a), d)
  {
    assert a.name in AddResult(c, a).results.Keys - {ElapsedTime};
  }

  /** A changed result breaks equality. */
  lemma ChangedResultMatters<V>(c: Collection<V>, d: Collection<V>, a: Accumulator)
    requires a.name != ElapsedTime && a.name in d.results && |d.results[a.name]| == 1
    requires !SameResult(a, d.results[a.name][0])
    ensures !SameCollection(AddResult(c, a), d)
  {
  }

  /** `get_result_values_list(name, fixed_params)`: `get_result()` of each
      result under `name`; with fixed parameters, only the results at the
      indexes `get_pack_indexes` selects. */
  function ValuesFor<V(==)>(c: Collection<V>, name: string, fixed: Option<map<string, V>>)
    : (r: Result<seq<Reading>, CollectionError>)
    requires Valid(c.params)
    ensures name !in c.results ==> r == Err(MissingKey)
    ensures r.Ok? && fixed.None? ==> (
      && |r.value| == |c.results[name]|
      && forall k :: 0 <= k < |r.value| ==> r.value[k] == GetResult(c.results[name][k]))
    ensures r.Ok? && fixed.Some? ==> (
      && PackIndexes(c.params, fixed.value).Ok?
      && var idx := PackIndexes(c.params, fixed.value).value;
      && |r.value| == |idx|
      && forall k :: 0 <= k < |idx| ==> idx[k] < |c.results[name]| && r.value[k] == GetResult(c.results[name][idx[k]]))
    ensures name in c.results && fixed.Some? && PackIndexes(c.params, fixed.value).Err?
      ==> r == Err(BadFixedParams(InvalidValue))
    ensures name in c.results && fixed.None? ==> r.Ok?
    ensures name in c.results && fixed.Some? && PackIndexes(c.params, fixed.value).Ok? ==> (
      var idx := PackIndexes(c.params, fixed.value).value;
      r.Ok? <==> forall k :: 0 <= k < |idx| ==> idx[k] < |c.results[name]|)
  {
    if name !in c.results then Err(MissingKey)
    else
      var xs := c.results[name];
      match fixed
      case None => Ok(seq(|xs|, k requires 0 <= k < |xs| => GetResult(xs[k])))
      case Some(f) =>
        match PackIndexes(c.params, f)
        case Err(e) => Err(BadFixedParams(e))
        case Ok(idx) =>
          if exists k :: 0 <= k < |idx| && idx[k] >= |xs| then Err(IndexOutOfRange)
          else Ok(seq(|idx|, k requires 0 <= k < |idx| => GetResult(xs[idx[k]])))
  }

  /** Fixing nothing filters nothing when there is one result per
      variation. */
  lemma ValuesForNothingFixed<V>(c: Collection<V>, name: string)
    requires Valid(c.params) && name in c.results && |c.results[name]| == NumVariations(c.params)
    ensures ValuesFor(c, name, Some(map[])) == ValuesFor(c, name, None)
  {
    PackIndexesNothingFixed(c.params);
    var xs := c.results[name];
    var idx: seq<nat> := seq(NumVariations(c.params), i => i);
    assert forall k :: 0 <= k < |idx| ==> idx[k] == k;
    var a := seq(|idx|, k requires 0 <= k < |idx| => GetResult(xs[idx[k]]));
    var b := seq(|xs|, k requires 0 <= k < |xs| => GetResult(xs[k]));
    assert a == b;
  }
}
