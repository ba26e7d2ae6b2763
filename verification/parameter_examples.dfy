/** The parameter-space scenarios of the test suite: `first = 10`,
    `second = 20`, `third = [1, 3, 2, 5]`, `fourth = ["A", "B"]`,
    `fifth = ["Z", "X", "W"]`. */
module ParameterExamples {
  import opened Outcomes
  import opened MixedRadix
  import opened Parameters

  /** The test values are integers and strings. */
  datatype Val = I(n: int) | S(s: string)

  const Third: Param<Val> := Values([I(1), I(3), I(2), I(5)])
  const Fourth: Param<Val> := Values([S("A"), S("B")])
  const Fifth: Param<Val> := Values([S("Z"), S("X"), S("W")])

  function Base(): Space<Val> {
    Create(map["first" := Scalar(I(10)), "second" := Scalar(I(20))])
  }

  /** `third` and `fourth` added to the base parameters. */
  function TwoLists(): (sp: Space<Val>)
    ensures Valid(sp)
  {
    Add(Add(Base(), "third", Third), "fourth", Fourth)
  }

  lemma UnpackThirdFourth()
    ensures SetUnpack(TwoLists(), "third", true) == Ok(Space(TwoLists().params, ["third"]))
    ensures SetUnpack(Space(TwoLists().params, ["third"]), "fourth", true)
      == Ok(Space(TwoLists().params, ["third", "fourth"]))
  {
    var sp := TwoLists();
    assert sp.unpacked == [] && "third" in sp.params && sp.params["third"] == Third;
    assert [] + ["third"] == ["third"];
    assert "fourth" !in ["third"] && "fourth" in sp.params && sp.params["fourth"] == Fourth;
    assert Valid(Space(sp.params, ["third"]));
    assert ["third"] + ["fourth"] == ["third", "fourth"];
  }

  /** Four values times two values: eight variations, but still four
      parameters; one variation before anything is unpacked. */
  lemma EightVariations()
    ensures NumVariations(TwoLists()) == 1
    ensures Valid(Space(TwoLists().params, ["third", "fourth"]))
    ensures NumVariations(Space(TwoLists().params, ["third", "fourth"])) == 8
    ensures |TwoLists().params| == 4
  {
    var sp := Space(TwoLists().params, ["third", "fourth"]);
    assert Dims(sp) == [4, 2];
    assert [4, 2][1..] == [2];
    FourParams();
  }

  lemma FourParams()
    ensures |TwoLists().params| == 4
  {
    assert TwoLists().params.Keys == {"first", "second", "third", "fourth"};
  }

  /** Unpacking the scalar `fifth = 10` or the absent `sixth` fails, and
      unmarking `fourth` leaves only `third`. */
  lemma UnpackErrors()
    ensures var sp := Space(Add(TwoLists(), "fifth", Scalar(I(10))).params, ["third", "fourth"]);
      && Valid(sp)
      && SetUnpack(sp, "fifth", true) == Err(InvalidParameterKind)
      && SetUnpack(sp, "sixth", true) == Err(InvalidParameterKind)
      && SetUnpack(sp, "fourth", false).Ok?
      && UnpackedSet(SetUnpack(sp, "fourth", false).value) == {"third"}
  {
    var sp := Space(Add(TwoLists(), "fifth", Scalar(I(10))).params, ["third", "fourth"]);
    assert "sixth" !in sp.params;
    var r := SetUnpack(sp, "fourth", false).value;
    assert "third" in r.unpacked;
  }

  /** All three lists unpacked, in the order third, fourth, fifth. */
  function Sweep(): (sp: Space<Val>)
    ensures Valid(sp)
  {
    Space(Add(TwoLists(), "fifth", Fifth).params, ["third", "fourth", "fifth"])
  }

  lemma SweepDims()
    ensures Dims(Sweep()) == [4, 2, 3]
  {
  }

  lemma SweepParams()
    ensures Sweep().params["third"] == Third
    ensures Sweep().params["fourth"] == Fourth
    ensures Sweep().params["fifth"] == Fifth
  {
  }

  lemma DistinctLists()
    ensures Distinct(Third.items) && Distinct(Fourth.items) && Distinct(Fifth.items)
  {
  }

  /** A full assignment `{third: a, fourth: b, fifth: c}` whose values are
      at positions `digits` is the single index `Compose(digits, [4, 2, 3])`. */
  lemma PackFull(sp: Space<Val>, fixed: map<string, Val>, digits: seq<nat>)
    requires SweepShape(sp)
    requires fixed.Keys == {"third", "fourth", "fifth"} && |digits| == 3
    requires digits[0] < 4 && Third.items[digits[0]] == fixed["third"]
    requires digits[1] < 2 && Fourth.items[digits[1]] == fixed["fourth"]
    requires digits[2] < 3 && Fifth.items[digits[2]] == fixed["fifth"]
    ensures GetPackIndexes(sp, fixed) == Ok(Single(Compose(digits, [4, 2, 3])))
  {
    assert Dims(sp) == [4, 2, 3];
    assert ValidDigits(digits, Dims(sp));
    assert forall n :: n in fixed ==> n in sp.unpacked;
    forall k | 0 <= k < |sp.unpacked|
      ensures (sp.unpacked[k] in fixed
        && Distinct(sp.params[sp.unpacked[k]].items)
        && sp.params[sp.unpacked[k]].items[digits[k]] == fixed[sp.unpacked[k]])
    {
      DistinctLists();
    }
    GetPackIndexesOfDigits(sp, fixed, digits);
  }

  lemma ComposeExamples()
    ensures Compose([3, 1, 0], [4, 2, 3]) == 7
    ensures Compose([3, 1, 1], [4, 2, 3]) == 15
    ensures Compose([2, 0, 0], [4, 2, 3]) == 2
  {
    assert [3, 1, 0][1..] == [1, 0] && [1, 0][1..] == [0];
    assert [3, 1, 1][1..] == [1, 1] && [1, 1][1..] == [1];
    assert [2, 0, 0][1..] == [0, 0] && [0, 0][1..] == [0];
    assert [4, 2, 3][1..] == [2, 3] && [2, 3][1..] == [3];
  }

  /** What the pack-index examples need to know about the sweep. */
  predicate SweepShape(sp: Space<Val>) {
    && Valid(sp) && sp.unpacked == ["third", "fourth", "fifth"]
    && "third" in sp.params && sp.params["third"] == Third
    && "fourth" in sp.params && sp.params["fourth"] == Fourth
    && "fifth" in sp.params && sp.params["fifth"] == Fifth
  }

  lemma SweepHasShape()
    ensures SweepShape(Sweep())
  {
    SweepParams();
  }

  lemma PackSeven(sp: Space<Val>)
    requires SweepShape(sp)
    ensures GetPackIndexes(sp, map["third" := I(5), "fourth" := S("B"), "fifth" := S("Z")]) == Ok(Single(7))
  {
    ComposeExamples();
    PackFull(sp, map["third" := I(5), "fourth" := S("B"), "fifth" := S("Z")], [3, 1, 0]);
  }

  lemma PackFifteen(sp: Space<Val>)
    requires SweepShape(sp)
    ensures GetPackIndexes(sp, map["third" := I(5), "fourth" := S("B"), "fifth" := S("X")]) == Ok(Single(15))
  {
    ComposeExamples();
    PackFull(sp, map["third" := I(5), "fourth" := S("B"), "fifth" := S("X")], [3, 1, 1]);
  }

  lemma PackTwo(sp: Space<Val>)
    requires SweepShape(sp)
    ensures GetPackIndexes(sp, map["third" := I(2), "fourth" := S("A"), "fifth" := S("Z")]) == Ok(Single(2))
  {
    ComposeExamples();
    PackFull(sp, map["third" := I(2), "fourth" := S("A"), "fifth" := S("Z")], [2, 0, 0]);
  }

  /** `{third: 5, fourth: "B", fifth: "Z"}` is index 7,
      `{third: 5, fourth: "B", fifth: "X"}` is 15 and
      `{third: 2, fourth: "A", fifth: "Z"}` is 2. */
  lemma PackSevenFifteenTwo()
    ensures GetPackIndexes(Sweep(), map["third" := I(5), "fourth" := S("B"), "fifth" := S("Z")]) == Ok(Single(7))
    ensures GetPackIndexes(Sweep(), map["third" := I(5), "fourth" := S("B"), "fifth" := S("X")]) == Ok(Single(15))
    ensures GetPackIndexes(Sweep(), map["third" := I(2), "fourth" := S("A"), "fifth" := S("Z")]) == Ok(Single(2))
  {
    SweepHasShape();
    PackSeven(Sweep());
    PackFifteen(Sweep());
    PackTwo(Sweep());
  }

  /** `{fourth: "C"}` is not among `fourth`'s values. */
  lemma PackInvalidValue()
    ensures GetPackIndexes(Sweep(), map["fourth" := S("C")]) == Err(InvalidValue)
  {
    SweepParams();
    assert !Fixable(Sweep(), map["fourth" := S("C")], "fourth");
  }
}
