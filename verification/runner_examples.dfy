/** The runner scenarios of the test suite: a runner whose parameters are
    `SNR = [0, 5, 10, 15, 20]` and `extra = [2.2, 4.1]` (both unpacked) and
    `bias = 1.3`, whose parameter values are rendered by `render`. */
module RunnerExamples {
  import opened Outcomes
  import opened MixedRadix
  import opened Parameters
  import opened ResultsCollection
  import opened Text
  import opened Runner

  /** The runner's parameter space, up to how values are written. */
  predicate DummyShape<V>(sp: Space<V>, render: Param<V> -> string) {
    && Valid(sp) && Dims(sp) == [5, 2]
    && "bias" in sp.params && render(sp.params["bias"]) == "1.3"
  }

  lemma TenVariations<V>(sp: Space<V>)
    requires Valid(sp) && Dims(sp) == [5, 2]
    ensures NumVariations(sp) == 10
  {
    assert [5, 2][1..] == [2];
  }

  /** `{bias}` followed by nothing, after some plain text. */
  lemma FormatTrailingField(s: string, fields: map<string, string>)
    requires NoBraces(s) && "bias" in fields
    ensures Format(s + "{bias}", fields) == Ok(s + fields["bias"])
  {
    var ps := [Plain(s), Field("bias")];
    assert ps[1..] == [Field("bias")] && ps[1..][1..] == [];
    assert Spell(ps[1..]) == "{bias}" + [];
    assert Spell(ps) == s + "{bias}";
    assert Fill(ps[1..], fields) == fields["bias"] + [];
    assert Fill(ps, fields) == s + fields["bias"];
    FormatSpell(ps, fields);
  }

  /** `set_results_filename()` leaves no filename;
      `set_results_filename("some_name_{bias}")` gives
      `some_name_1.3.pickle`. */
  lemma SomeName<V>(sp: Space<V>, render: Param<V> -> string, t: string)
    requires DummyShape(sp, render) && t == "some_name_{bias}"
    ensures ResultsFilename(None, sp, render) == Ok(None)
    ensures ResultsFilename(Some(t), sp, render) == Ok(Some("some_name_1.3.pickle"))
  {
    SomeNameTemplateText();
    var fields := FieldTexts(sp, render);
    assert fields["bias"] == "1.3";
    FormatTrailingField("some_name_", fields);
    SomeNameText();
  }

  lemma SomeNameTemplateText()
    ensures "some_name_{bias}" == "some_name_" + "{bias}"
  {
  }

  lemma SomeNameText()
    ensures "some_name_" + "1.3" + ".pickle" == "some_name_1.3.pickle"
  {
  }

  /** `simulate(3)` without a filename fails; with the template
      `dummyrunner_results_bias_{bias}`, `simulate(param_variation_index=4)`
      writes `dummyrunner_results_bias_1.3_unpack_04.pickle`. */
  lemma UnpackFour<V>(sp: Space<V>, render: Param<V> -> string, t: string)
    requires DummyShape(sp, render) && t == "dummyrunner_results_bias_{bias}"
    ensures SingleVariationFile(None, sp, render, 3) == Err(NotConfigured)
    ensures SingleVariationFile(Some(t), sp, render, 4) == Ok("dummyrunner_results_bias_1.3_unpack_04.pickle")
  {
    TenVariations(sp);
    DummyTemplateText();
    var fields := FieldTexts(sp, render);
    assert fields["bias"] == "1.3";
    FormatTrailingField("dummyrunner_results_bias_", fields);
    DummyBaseText();
    UnpackFourName("dummyrunner_results_bias_1.3");
  }

  lemma DummyTemplateText()
    ensures "dummyrunner_results_bias_{bias}" == "dummyrunner_results_bias_" + "{bias}"
  {
  }

  lemma DummyBaseText()
    ensures "dummyrunner_results_bias_" + "1.3" == "dummyrunner_results_bias_1.3"
  {
  }

  lemma PadFour()
    ensures Pad2(4) == "04"
  {
    assert NatToString(4) == "4";
  }

  lemma UnpackFourName(base: string)
    requires base == "dummyrunner_results_bias_1.3"
    ensures UnpackFilename(base, 4) == "dummyrunner_results_bias_1.3_unpack_04.pickle"
  {
    PadFour();
  }

  /** Partial results saved with `bias = 1.3` are refused once `bias` is
      1.5, and reloaded while it is unchanged. */
  lemma ChangedBias<V>(saved: Collection<V>, before: V, after: V)
    requires "bias" in saved.params.params && saved.params.params["bias"] == Scalar(before) && before != after
    ensures Resume(Add(saved.params, "bias", Scalar(after)), Some(saved)) == Err(CheckpointMismatch)
    ensures Resume(saved.params, Some(saved)) == Ok(Some(saved))
  {
    assert "bias" != RepMax;
    assert (Add(saved.params, "bias", Scalar(after)).params - {RepMax})["bias"] == Scalar(after);
  }

  /** The test runner sets `rep_max = 2` and keeps the default predicate:
      two repetitions per variation. */
  lemma TwoRepetitions<R>(run: nat -> R, combine: (R, R) -> R)
    ensures RepetitionsFrom(run, combine, DefaultKeepGoing, 2, 1) == 2
  {
    DefaultRunsAll(run, combine, 2, 1);
  }
}
