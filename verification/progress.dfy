/** The progress aggregator of `ProgressbarMultiProcessServer` and
    `ProgressbarZMQServer`: clients register with their own final count
    and report their own current count; the server shows the sum of the
    counts as a percentage of the sum of the final counts, from an updater
    that is started and stopped with reference counting. Also the fill
    arithmetic of the text bars. Processes, sockets, sleeping and the text
    layout are outside the model. */
module Progress {
  import opened Outcomes

  // ---------------------------------------------------------------------
  // The aggregator
  // ---------------------------------------------------------------------

  /** The final count and the current count of every client, by client
      id, and how many `start_updater` calls are not yet matched by a
      `stop_updater`. */
  datatype Aggregator = Aggregator(finals: seq<nat>, counts: seq<nat>, starts: nat)

  predicate Valid(a: Aggregator) {
    |a.finals| == |a.counts|
  }

  datatype ProgressError = UnknownClient

  const Empty := Aggregator([], [], 0)

  function Sum(xs: seq<nat>): nat {
    if |xs| == 0 then 0 else Sum(xs[..|xs| - 1]) + xs[|xs| - 1]
  }

  /** `total_final_count`. */
  function Total(a: Aggregator): nat {
    Sum(a.finals)
  }

  /** `register_client_and_get_proxy_progressbar(final)`: the new client's
      id is the number of clients before it, its count starts at zero, and
      the total final count grows by its final count. */
  function Register(a: Aggregator, final: nat): (r: (Aggregator, nat))
    requires Valid(a)
    ensures Valid(r.0) && r.1 == |a.finals| && |r.0.finals| == |a.finals| + 1
    ensures Total(r.0) == Total(a) + final
    ensures r.0.finals[..|a.finals|] == a.finals && r.0.finals[r.1] == final
    ensures r.0.counts[..|a.counts|] == a.counts && r.0.counts[r.1] == 0
    ensures r.0.starts == a.starts
  {
    var b := Aggregator(a.finals + [final], a.counts + [0], a.starts);
    assert b.finals[..|b.finals| - 1] == a.finals;
    (b, |a.finals|)
  }

  /** `progress(count)` of a client's proxy: the client's current count
      becomes `count` (not `count` more). */
  function Advance(a: Aggregator, id: nat, count: nat): (r: Result<Aggregator, ProgressError>)
    requires Valid(a)
    ensures r.Err? <==> id >= |a.counts|
    ensures r.Ok? ==> Valid(r.value) && r.value.finals == a.finals && r.value.starts == a.starts
    ensures r.Ok? ==> |r.value.counts| == |a.counts| && r.value.counts[id] == count
    ensures r.Ok? ==> forall k :: 0 <= k < |a.counts| && k != id ==> r.value.counts[k] == a.counts[k]
  {
    if id >= |a.counts| then Err(UnknownClient) else Ok(a.(counts := a.counts[id := count]))
  }

  /** Whether the updater is running. */
  predicate Running(a: Aggregator) {
    a.starts > 0
  }

  /** `start_updater()`: only the first unmatched call launches the
      updater. */
  function Start(a: Aggregator): (r: Aggregator)
    ensures Running(r) && r.starts == a.starts + 1
    ensures r.finals == a.finals && r.counts == a.counts
  {
    a.(starts := a.starts + 1)
  }

  /** `stop_updater()`: the updater stops when the last unmatched start is
      matched, and then shows 100% one last time; a stop with nothing to
      match changes nothing. */
  function Stop(a: Aggregator): (r: (Aggregator, Option<real>))
    ensures r.0.finals == a.finals && r.0.counts == a.counts
    ensures Running(a) ==> r.0.starts == a.starts - 1
    ensures !Running(a) ==> r == (a, None)
    ensures r.1.Some? <==> Running(a) && !Running(r.0)
    ensures r.1.Some? ==> r.1.value == 100.0
  {
    if a.starts == 0 then (a, None)
    else if a.starts == 1 then (a.(starts := 0), Some(100.0))
    else (a.(starts := a.starts - 1), None)
  }

  /** The percentage the updater shows: the sum of the counts over the
      total final count, capped at 100; none while nothing is expected. */
  function Percentage(a: Aggregator): (r: Option<real>)
    ensures r.None? <==> Total(a) == 0
    ensures r.Some? ==> 0.0 <= r.value <= 100.0
    ensures r.Some? && Sum(a.counts) >= Total(a) ==> r.value == 100.0
    ensures r.Some? && Sum(a.counts) < Total(a) ==> r.value * (Total(a) as real) == 100.0 * (Sum(a.counts) as real)
  {
    if Total(a) == 0 then None
    else if Sum(a.counts) >= Total(a) then Some(100.0)
    else
      var p := 100.0 * (Sum(a.counts) as real) / (Total(a) as real);
      assert p < 100.0 by {
        assert 100.0 * (Sum(a.counts) as real) < 100.0 * (Total(a) as real);
      }
      Some(p)
  }

  // ---------------------------------------------------------------------
  // Sequences of calls
  // ---------------------------------------------------------------------

  /** Registering clients one after the other. */
  function RegisterAll(a: Aggregator, fs: seq<nat>): (r: Aggregator)
    requires Valid(a)
    ensures Valid(r)
    decreases |fs|
  {
    if |fs| == 0 then a else RegisterAll(Register(a, fs[0]).0, fs[1..])
  }

  lemma SumAppend(xs: seq<nat>, ys: seq<nat>)
    ensures Sum(xs + ys) == Sum(xs) + Sum(ys)
    decreases |ys|
  {
    if |ys| > 0 {
      assert (xs + ys)[..|xs + ys| - 1] == xs + ys[..|ys| - 1];
      SumAppend(xs, ys[..|ys| - 1]);
    } else {
      assert xs + ys == xs;
    }
  }

  /** Clients get consecutive ids, and the total final count is the sum of
      their final counts. */
  lemma {:induction false} RegisterAllIds(a: Aggregator, fs: seq<nat>)
    requires Valid(a)
    ensures RegisterAll(a, fs).finals == a.finals + fs
    ensures RegisterAll(a, fs).counts == a.counts + seq(|fs|, k => 0)
    ensures Total(RegisterAll(a, fs)) == Total(a) + Sum(fs)
    ensures RegisterAll(a, fs).starts == a.starts
    decreases |fs|
  {
    if |fs| > 0 {
      var b := Register(a, fs[0]).0;
      RegisterAllIds(b, fs[1..]);
      assert b.finals == a.finals + [fs[0]];
      assert a.finals + [fs[0]] + fs[1..] == a.finals + fs;
      assert b.counts == a.counts + [0];
      assert a.counts + [0] + seq(|fs| - 1, k => 0) == a.counts + seq(|fs|, k => 0);
      SumAppend(a.finals, fs);
    } else {
      assert a.finals + fs == a.finals;
      assert a.counts + seq(|fs|, k => 0) == a.counts;
    }
  }

  /** The id the `k`-th client (from zero) receives: `k`, whatever came
      before it. */
  lemma RegisterId(fs: seq<nat>, k: nat)
    requires k < |fs|
    ensures Register(RegisterAll(Empty, fs[..k]), fs[k]).1 == k
  {
    RegisterAllIds(Empty, fs[..k]);
  }

  /** Starting `n` times. */
  function StartAll(a: Aggregator, n: nat): (r: Aggregator)
    decreases n
  {
    if n == 0 then a else StartAll(Start(a), n - 1)
  }

  /** Stopping `n` times. */
  function StopAll(a: Aggregator, n: nat): (r: Aggregator)
    decreases n
  {
    if n == 0 then a else StopAll(Stop(a).0, n - 1)
  }

  lemma {:induction false} StartAllCount(a: Aggregator, n: nat)
    ensures StartAll(a, n).starts == a.starts + n
    ensures StartAll(a, n).finals == a.finals && StartAll(a, n).counts == a.counts
    decreases n
  {
    if n > 0 {
      StartAllCount(Start(a), n - 1);
    }
  }

  lemma {:induction false} StopAllCount(a: Aggregator, n: nat)
    ensures StopAll(a, n).starts == if a.starts >= n then a.starts - n else 0
    ensures StopAll(a, n).finals == a.finals && StopAll(a, n).counts == a.counts
    decreases n
  {
    if n > 0 {
      StopAllCount(Stop(a).0, n - 1);
    }
  }

  /** Nested starts and stops: after `n` starts the updater keeps running
      through the first `n - 1` stops and halts at the `n`-th. */
  lemma Nesting(a: Aggregator, n: nat, m: nat)
    requires !Running(a) && n > 0
    ensures Running(StartAll(a, n))
    ensures Running(StopAll(StartAll(a, n), m)) <==> m < n
  {
    StartAllCount(a, n);
    StopAllCount(StartAll(a, n), m);
  }

  // ---------------------------------------------------------------------
  // The text bar
  // ---------------------------------------------------------------------

  const MinWidth: nat := 40

  /** Setting a bar's `width`: anything below 40 becomes 40. */
  function ClampWidth(w: nat): (r: nat)
    ensures r >= MinWidth && r >= w
    ensures w >= MinWidth ==> r == w
  {
    if w < MinWidth then MinWidth else w
  }

  /** The percentage a single bar shows for `count` out of `final`: any
      count at or past the final count is 100%. */
  function BarPercent(count: nat, final: nat): (r: real)
    requires final > 0
    ensures 0.0 <= r <= 100.0
    ensures count >= final <==> r == 100.0
  {
    if count >= final then 100.0
    else
      var p := 100.0 * (count as real) / (final as real);
      assert p < 100.0 by {
        assert 100.0 * (count as real) < 100.0 * (final as real);
      }
      p
  }

  /** The cells of the bar between its side characters (`[` and `]`, or
      none). */
  function Inner(width: nat, sides: bool): nat {
    if sides && width >= 2 then width - 2 else if sides then 0 else width
  }

  lemma FractionBounds(pct: real, inner: real)
    requires 0.0 <= pct <= 100.0 && 0.0 <= inner
    ensures 0.0 <= pct * inner / 100.0 <= inner
  {
    assert 0.0 <= pct * inner;
    assert pct * inner <= 100.0 * inner;
  }

  /** The number of filled cells for a percentage: `pct` percent of the
      inner width, rounded down. */
  function Filled(pct: real, width: nat, sides: bool): (r: nat)
    requires 0.0 <= pct <= 100.0
    ensures r <= Inner(width, sides)
    ensures (r as real) <= pct * (Inner(width, sides) as real) / 100.0 < (r as real) + 1.0
  {
    var inner := Inner(width, sides) as real;
    var x := pct * inner / 100.0;
    FractionBounds(pct, inner);
    x.Floor as nat
  }

  /** More progress never fills fewer cells, and 100% fills them all. */
  lemma FilledMonotone(p: real, q: real, width: nat, sides: bool)
    requires 0.0 <= p <= q <= 100.0
    ensures Filled(p, width, sides) <= Filled(q, width, sides)
    ensures Filled(100.0, width, sides) == Inner(width, sides)
  {
    var inner := Inner(width, sides) as real;
    assert p * inner <= q * inner;
    assert p * inner / 100.0 <= q * inner / 100.0;
    assert (Filled(p, width, sides) as real) <= q * inner / 100.0;
  }
}
