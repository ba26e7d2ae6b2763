/** The pure rules of `SimulationRunner`: the results filename template,
    the file written when a single variation is simulated, the checkpoint
    check on resume, and the repetition loop with its early-stop
    predicate. Running the unit of work, persistence and timing are
    outside the model; the unit of work enters as a parameter. */
module Runner {
  import opened Outcomes
  import opened Text
  import opened Parameters
  import opened ResultsCollection

  datatype RunnerError =
    | NotConfigured          // a single variation requested before a filename was set
    | UnclosedField          // a `{` without its `}` in the template
    | StrayBrace             // a `}` outside any field
    | UnknownField(name: string)
    | VariationOutOfRange    // a single variation index past the last variation
    | CheckpointMismatch     // partial results saved for other parameters

  // ---------------------------------------------------------------------
  // Filename templates
  // ---------------------------------------------------------------------

  predicate NoBraces(s: string) {
    forall k :: 0 <= k < |s| ==> s[k] != '{' && s[k] != '}'
  }

  /** The position of the first `}` in `s`, if any. */
  function CloseAt(s: string): (r: Option<nat>)
    ensures r.Some? ==> r.value < |s| && s[r.value] == '}' && forall k :: 0 <= k < r.value ==> s[k] != '}'
    ensures r.None? ==> forall k :: 0 <= k < |s| ==> s[k] != '}'
  {
    if |s| == 0 then None
    else if s[0] == '}' then Some(0)
    else match CloseAt(s[1..])
      case None => None
      case Some(j) => Some(j + 1)
  }

  /** `template.format(**params)`: every `{name}` replaced by the text of
      the parameter `name`; a `{` without a `}`, a lone `}` or an unknown
      name is an error. */
  function Format(t: string, fields: map<string, string>): (r: Result<string, RunnerError>)
    ensures NoBraces(t) ==> r == Ok(t)
    ensures r.Err? ==> r.error.StrayBrace? || r.error.UnclosedField? || r.error.UnknownField?
    decreases |t|
  {
    if |t| == 0 then Ok([])
    else if t[0] == '}' then Err(StrayBrace)
    else if t[0] == '{' then
      match CloseAt(t[1..])
      case None => Err(UnclosedField)
      case Some(j) =>
        var name := t[1..j + 1];
        if name !in fields then Err(UnknownField(name))
        else
          var rest :- Format(t[j + 2..], fields);
          Ok(fields[name] + rest)
    else
      assert NoBraces(t) ==> NoBraces(t[1..]) && t == [t[0]] + t[1..];
      var rest :- Format(t[1..], fields);
      Ok([t[0]] + rest)
  }

  /** A template as its pieces: plain text without braces, and fields. */
  datatype Piece = Plain(s: string) | Field(name: string)

  predicate WellFormedPiece(p: Piece) {
    match p
    case Plain(s) => NoBraces(s)
    case Field(n) => forall k :: 0 <= k < |n| ==> n[k] != '}'
  }

  /** The template text of the pieces. */
  function Spell(ps: seq<Piece>): string {
    if |ps| == 0 then []
    else (match ps[0] case Plain(s) => s case Field(n) => "{" + n + "}") + Spell(ps[1..])
  }

  /** The text the pieces stand for once every field is filled in. */
  function Fill(ps: seq<Piece>, fields: map<string, string>): string
    requires forall k :: 0 <= k < |ps| ==> ps[k].Field? ==> ps[k].name in fields
  {
    if |ps| == 0 then []
    else (match ps[0] case Plain(s) => s case Field(n) => fields[n]) + Fill(ps[1..], fields)
  }

  lemma {:induction false} FormatPlainPrefix(s: string, t: string, fields: map<string, string>)
    requires NoBraces(s)
    ensures Format(s + t, fields).Ok? <==> Format(t, fields).Ok?
    ensures Format(s + t, fields).Ok? ==> Format(s + t, fields).value == s + Format(t, fields).value
    ensures Format(s + t, fields).Err? ==> Format(s + t, fields) == Format(t, fields)
    decreases |s|
  {
    if |s| > 0 {
      var u := s[1..] + t;
      assert s + t == [s[0]] + u;
      FormatPlainChar(s[0], u, fields);
      FormatPlainPrefix(s[1..], t, fields);
      if Format(t, fields).Ok? {
        HeadThenRest(s, Format(t, fields).value);
      }
    } else {
      assert s + t == t;
    }
  }

  lemma HeadThenRest(s: string, v: string)
    requires |s| > 0
    ensures [s[0]] + (s[1..] + v) == s + v
  {
    assert s == [s[0]] + s[1..];
  }

  /** A character other than a brace is copied as it is. */
  lemma FormatPlainChar(c: char, u: string, fields: map<string, string>)
    requires c != '{' && c != '}'
    ensures Format([c] + u, fields).Ok? <==> Format(u, fields).Ok?
    ensures Format([c] + u, fields).Ok? ==> Format([c] + u, fields).value == [c] + Format(u, fields).value
    ensures Format([c] + u, fields).Err? ==> Format([c] + u, fields) == Format(u, fields)
  {
    assert ([c] + u)[0] == c && ([c] + u)[1..] == u;
  }

  lemma FormatField(n: string, t: string, fields: map<string, string>)
    requires forall k :: 0 <= k < |n| ==> n[k] != '}'
    requires n in fields
    ensures Format("{" + n + "}" + t, fields).Ok? <==> Format(t, fields).Ok?
    ensures Format("{" + n + "}" + t, fields).Ok? ==> Format("{" + n + "}" + t, fields).value == fields[n] + Format(t, fields).value
    ensures Format("{" + n + "}" + t, fields).Err? ==> Format("{" + n + "}" + t, fields) == Format(t, fields)
  {
    var u := "{" + n + "}" + t;
    assert u[1..] == n + "}" + t;
    CloseAtAfter(n, t);
    assert u[1..|n| + 1] == n;
    assert u[|n| + 2..] == t;
  }

  lemma {:induction false} CloseAtAfter(n: string, t: string)
    requires forall k :: 0 <= k < |n| ==> n[k] != '}'
    ensures CloseAt(n + "}" + t) == Some(|n|)
    decreases |n|
  {
    if |n| > 0 {
      assert (n + "}" + t)[1..] == n[1..] + "}" + t;
      CloseAtAfter(n[1..], t);
    }
  }

  /** Formatting the spelling of well-formed pieces fills in their fields:
      every template built from text and known fields formats as meant. */
  lemma {:induction false} FormatSpell(ps: seq<Piece>, fields: map<string, string>)
    requires forall k :: 0 <= k < |ps| ==> WellFormedPiece(ps[k])
    requires forall k :: 0 <= k < |ps| ==> ps[k].Field? ==> ps[k].name in fields
    ensures Format(Spell(ps), fields) == Ok(Fill(ps, fields))
    decreases |ps|
  {
    if |ps| > 0 {
      FormatSpell(ps[1..], fields);
      match ps[0]
      case Plain(s) => FormatPlainPrefix(s, Spell(ps[1..]), fields);
      case Field(n) => FormatField(n, Spell(ps[1..]), fields);
    }
  }

  /** The text of every parameter, as `str.format` would write it. */
  function FieldTexts<V>(sp: Space<V>, render: Param<V> -> string): (fields: map<string, string>)
    ensures fields.Keys == sp.params.Keys
    ensures forall n :: n in sp.params ==> fields[n] == render(sp.params[n])
  {
    map n | n in sp.params :: render(sp.params[n])
  }

  /** `results_filename` after `set_results_filename(template)`: none
      without a template, otherwise the template formatted with the
      parameters and followed by `.pickle`. */
  function ResultsFilename<V>(template: Option<string>, sp: Space<V>, render: Param<V> -> string)
    : (r: Result<Option<string>, RunnerError>)
    ensures template.None? ==> r == Ok(None)
    ensures template.Some? ==> (r.Ok? <==> Format(template.value, FieldTexts(sp, render)).Ok?)
    ensures template.Some? && r.Ok? ==> (
      && r.value.Some?
      && r.value.value == Format(template.value, FieldTexts(sp, render)).value + ".pickle")
  {
    match template
    case None => Ok(None)
    case Some(t) =>
      var base :- Format(t, FieldTexts(sp, render));
      Ok(Some(base + ".pickle"))
  }

  // ---------------------------------------------------------------------
  // Single-variation runs
  // ---------------------------------------------------------------------

  /** The index as at least two decimal digits. */
  function Pad2(i: nat): (r: string)
    ensures |r| >= 2 && forall k :: 0 <= k < |r| ==> IsDigit(r[k])
  {
    if i < 10 then "0" + NatToString(i) else NatToString(i)
  }

  lemma Pad2Injective(a: nat, b: nat)
    requires Pad2(a) == Pad2(b)
    ensures a == b
  {
    if a < 10 && b < 10 {
      assert NatToString(a) == Pad2(a)[1..];
      assert NatToString(b) == Pad2(b)[1..];
      NatToStringInjective(a, b);
    } else if a >= 10 && b >= 10 {
      NatToStringInjective(a, b);
    }
  }

  const UnpackMark := "_unpack_"
  const Extension := ".pickle"

  /** The file a single-variation run writes. */
  function UnpackFilename(base: string, i: nat): (r: string)
    ensures |r| == |base| + |UnpackMark| + |Pad2(i)| + |Extension|
    ensures r[..|base|] == base
  {
    base + UnpackMark + Pad2(i) + Extension
  }

  /** Different variations of one sweep write different files. */
  lemma UnpackFilenameInjective(base: string, a: nat, b: nat)
    requires UnpackFilename(base, a) == UnpackFilename(base, b)
    ensures a == b
  {
    var u := UnpackFilename(base, a);
    var lo := |base| + |UnpackMark|;
    assert |Pad2(a)| == |Pad2(b)|;
    assert u[lo..lo + |Pad2(a)|] == Pad2(a);
    assert UnpackFilename(base, b)[lo..lo + |Pad2(b)|] == Pad2(b);
    Pad2Injective(a, b);
  }

  /** `simulate(param_variation_index=i)`: the file its partial results go
      to. A template must have been set. */
  function SingleVariationFile<V>(template: Option<string>, sp: Space<V>, render: Param<V> -> string, i: nat)
    : (r: Result<string, RunnerError>)
    requires Valid(sp)
    ensures template.None? <==> r == Err(NotConfigured)
    ensures template.Some? && i >= NumVariations(sp) ==> r == Err(VariationOutOfRange)
    ensures r.Ok? <==> template.Some? && i < NumVariations(sp) && Format(template.value, FieldTexts(sp, render)).Ok?
    ensures r.Ok? ==> r.value == UnpackFilename(Format(template.value, FieldTexts(sp, render)).value, i)
  {
    match template
    case None => Err(NotConfigured)
    case Some(t) =>
      if i >= NumVariations(sp) then Err(VariationOutOfRange)
      else
        var base :- Format(t, FieldTexts(sp, render));
        Ok(UnpackFilename(base, i))
  }

  // ---------------------------------------------------------------------
  // Resuming from partial results
  // ---------------------------------------------------------------------

  /** Partial results saved under the results filename are reloaded only
      if they were produced with the same parameters. */
  function Resume<V(==)>(current: Space<V>, saved: Option<Collection<V>>)
    : (r: Result<Option<Collection<V>>, RunnerError>)
    ensures saved.None? ==> r == Ok(None)
    ensures saved.Some? ==> (r.Err? <==> !SameSpace(saved.value.params, current))
    ensures r.Err? ==> r.error == CheckpointMismatch
    ensures r.Ok? ==> r.value == saved
  {
    match saved
    case None => Ok(None)
    case Some(c) => if SameSpace(c.params, current) then Ok(Some(c)) else Err(CheckpointMismatch)
  }

  // ---------------------------------------------------------------------
  // Repetitions
  // ---------------------------------------------------------------------

  /** `_keep_going` of the base runner: always continue. */
  function DefaultKeepGoing<R>(acc: R, done: nat): bool {
    true
  }

  /** The results after `n >= 1` repetitions: the first run, then each
      later run folded in. */
  function Accumulated<R>(run: nat -> R, combine: (R, R) -> R, n: nat): R
    requires n >= 1
  {
    if n == 1 then run(0) else combine(Accumulated(run, combine, n - 1), run(n - 1))
  }

  /** How many repetitions the loop makes: one at least; another while
      fewer than `repMax` were made and the predicate, shown the results so
      far, says to continue. */
  function RepetitionsFrom<R>(run: nat -> R, combine: (R, R) -> R, keepGoing: (R, nat) -> bool,
                              repMax: nat, done: nat): nat
    requires done >= 1
    decreases repMax - done
  {
    if done < repMax && keepGoing(Accumulated(run, combine, done), done)
    then RepetitionsFrom(run, combine, keepGoing, repMax, done + 1)
    else done
  }

  /** The repetition loop for one variation. */
  method Repeat<R>(run: nat -> R, combine: (R, R) -> R, keepGoing: (R, nat) -> bool, repMax: nat)
    returns (acc: R, done: nat)
    ensures done >= 1 && acc == Accumulated(run, combine, done)
    ensures done <= repMax || done == 1
    ensures forall k :: 1 <= k < done ==> keepGoing(Accumulated(run, combine, k), k)
    ensures done < repMax ==> !keepGoing(acc, done)
    ensures done == RepetitionsFrom(run, combine, keepGoing, repMax, 1)
  {
    acc := run(0);
    done := 1;
    while done < repMax && keepGoing(acc, done)
      invariant done >= 1 && acc == Accumulated(run, combine, done)
      invariant done <= repMax || done == 1
      invariant forall k :: 1 <= k < done ==> keepGoing(Accumulated(run, combine, k), k)
      invariant RepetitionsFrom(run, combine, keepGoing, repMax, done) == RepetitionsFrom(run, combine, keepGoing, repMax, 1)
      decreases repMax - done
    {
      acc := combine(acc, run(done));
      done := done + 1;
    }
  }

  /** With the default predicate the loop makes exactly `rep_max`
      repetitions (one when `rep_max` is 0 or 1). */
  lemma {:induction false} DefaultRunsAll<R>(run: nat -> R, combine: (R, R) -> R, repMax: nat, done: nat)
    requires 1 <= done
    ensures RepetitionsFrom(run, combine, DefaultKeepGoing, repMax, done) == if done < repMax then repMax else done
    decreases repMax - done
  {
    if done < repMax {
      DefaultRunsAll(run, combine, repMax, done + 1);
    }
  }

  /** The base runner's defaults: one repetition, no filename. */
  datatype Settings = Settings(repMax: nat, message: string, template: Option<string>)

  const Defaults := Settings(1, "Progress", None)

  /** A default runner makes one repetition per variation and cannot run a
      single variation. */
  lemma DefaultSettings<V, R>(run: nat -> R, combine: (R, R) -> R, sp: Space<V>, render: Param<V> -> string, i: nat)
    requires Valid(sp)
    ensures RepetitionsFrom(run, combine, DefaultKeepGoing, Defaults.repMax, 1) == 1
    ensures SingleVariationFile(Defaults.template, sp, render, i) == Err(NotConfigured)
    ensures ResultsFilename(Defaults.template, sp, render) == Ok(None)
  {
  }
}
