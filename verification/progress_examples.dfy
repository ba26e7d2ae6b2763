/** The progress scenarios of the test suite: two clients with final
    counts 10 and 15, a third joining later, the nested start and stop of
    the updater, and the fill of the text bars. */
module ProgressExamples {
  import opened Outcomes
  import opened Progress

  /** Registering 10 and then 15 gives ids 0 and 1 and a total of 25; a
      client of 13 joining later receives id 2 and the total becomes 38. */
  lemma TwoClients()
    ensures Register(Empty, 10).1 == 0
    ensures Register(Register(Empty, 10).0, 15).1 == 1
    ensures Total(Register(Register(Empty, 10).0, 15).0) == 25
    ensures Register(Register(Register(Empty, 10).0, 15).0, 13).1 == 2
    ensures Total(Register(Register(Register(Empty, 10).0, 15).0, 13).0) == 38
  {
  }

  /** The aggregator after the two clients reported `c0` and `c1`. */
  function Reported(c0: nat, c1: nat): (r: Aggregator)
    ensures Valid(r) && r.finals == [10, 15] && r.counts == [c0, c1]
  {
    var a := Register(Register(Empty, 10).0, 15).0;
    assert a.finals == [10, 15] && a.counts == [0, 0];
    var b := Advance(a, 0, c0).value;
    var c := Advance(b, 1, c1).value;
    assert c.counts == [c0, c1];
    c
  }

  /** Counts 5 and 10 out of 10 and 15 show 60%; a report from an id nobody
      received is refused. */
  lemma SixtyPercent()
    ensures Percentage(Reported(5, 10)) == Some(60.0)
    ensures Advance(Reported(5, 10), 2, 1) == Err(UnknownClient)
  {
    var a := Reported(5, 10);
    assert Sum(a.counts) == 15 by {
      assert a.counts[..1] == [5];
    }
    assert Total(a) == 25 by {
      assert a.finals[..1] == [10];
    }
  }

  /** A proxy reports its count, not an increment: reporting 5 and then 3
      leaves 3. */
  lemma CountReplaces()
    ensures Advance(Advance(Reported(0, 0), 0, 5).value, 0, 3).value.counts == [3, 0]
  {
  }

  /** The first client reports 6 of 10 and the second 6 of 15; a third
      client of 25 registers later and reports 3. The updater shows 15 out
      of 50: 30%. */
  lemma ThirtyPercent()
    ensures Register(Reported(6, 6), 25).1 == 2
    ensures Advance(Register(Reported(6, 6), 25).0, 2, 3).Ok?
    ensures Percentage(Advance(Register(Reported(6, 6), 25).0, 2, 3).value) == Some(30.0)
  {
    var a := Advance(Register(Reported(6, 6), 25).0, 2, 3).value;
    assert a.counts == [6, 6, 3];
    assert a.finals == [10, 15, 25];
    assert Sum(a.counts) == 15 by {
      assert a.counts[..2] == [6, 6];
      assert a.counts[..2][..1] == [6];
    }
    assert Total(a) == 50 by {
      assert a.finals[..2] == [10, 15];
      assert a.finals[..2][..1] == [10];
    }
  }

  /** Two starts and two stops: the updater runs from the first start to
      the second stop, which shows 100% one last time; a further stop
      changes nothing. */
  lemma StartStopTwice(a: Aggregator)
    requires !Running(a)
    ensures Running(Start(a)) && Running(Start(Start(a)))
    ensures Running(Stop(Start(Start(a))).0) && Stop(Start(Start(a))).1 == None
    ensures !Running(Stop(Stop(Start(Start(a))).0).0)
    ensures Stop(Stop(Start(Start(a))).0).1 == Some(100.0)
    ensures Stop(Stop(Stop(Start(Start(a))).0).0).1 == None
  {
  }

  /** A width below 40 becomes 40. */
  lemma NarrowWidth()
    ensures ClampWidth(30) == 40 && ClampWidth(50) == 50
  {
  }

  /** Fill counts of the bars at width 50 and 80, with and without the side
      characters. */
  lemma FillCounts()
    ensures Filled(30.0, 50, true) == 14
    ensures Filled(60.0, 50, true) == 28
    ensures Filled(50.0, 50, true) == 24
    ensures Filled(50.0, 50, false) == 25
    ensures Filled(70.0, 50, false) == 35
    ensures Filled(100.0, 50, true) == 48
    ensures Filled(50.0, 80, true) == 39
    ensures Filled(25.0, 80, true) == 19
    ensures Filled(50.0, 80, false) == 40
    ensures Filled(70.0, 80, true) == 54
  {
  }

  /** A bar with final count 50 and no sides: 10 shows 20% and fills 10
      cells, 35 fills 35, and 55 shows 100% and fills all 50; one out of 200
      fills nothing. */
  lemma BarCounts()
    ensures BarPercent(10, 50) == 20.0 && Filled(BarPercent(10, 50), 50, false) == 10
    ensures Filled(BarPercent(35, 50), 50, false) == 35
    ensures BarPercent(55, 50) == 100.0 && Filled(BarPercent(55, 50), 50, false) == 50
    ensures Filled(BarPercent(1, 200), 50, false) == 0
  {
    assert BarPercent(35, 50) == 70.0;
    assert BarPercent(1, 200) == 0.5;
  }
}
