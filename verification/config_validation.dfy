/** The integer path of the configuration validators: a configuration token
    (a scalar, `a:b`, `a:step:b`, or a bracketed list of those separated by
    spaces or commas) becomes a list of integers, which is then checked
    against optional `min`/`max` bounds.

    The string-to-integer conversion (Python's `int` inside the range parser
    and `validate.is_integer` in the checkers, which does `int(value)` on a
    string) is a library call; it is the parameter `conv`, a partial parser
    returning `None` where Python raises. */
module ConfigValidation {
  import opened Outcomes
  import opened Text

  /** The exceptions the validators raise, one constructor per cause. */
  datatype CheckError =
    | TypeError              // validate.VdtTypeError
    | TooSmall(found: int)   // validate.VdtValueTooSmallError(out.min())
    | TooBig(found: int)     // validate.VdtValueTooBigError(out.max())
    | EmptyText              // IndexError from `value[0]` on the empty string
    | NothingToStack         // ValueError from `np.hstack([])`
    | EmptyArray             // ValueError from `.min()`/`.max()` of an empty array
    | NotAnArray             // AttributeError from `.min()` on a returned string
    | NonNumeric             // a list element was returned as a string, not integers

  /** What the range parser hands back: an integer array, or (for a field
      count other than 2 or 3) its input string untouched. */
  datatype Parsed = IntArray(values: seq<int>) | Passthrough(text: string)

  /** The configuration value: a string, or the list of strings configobj
      produces for a comma-separated value. */
  datatype Value = Str(s: string) | StrList(items: seq<string>)

  /** `integer_scalar_or_integer_numpy_array_check` returns either a bare
      integer or an array. */
  datatype ScalarOrArray = Scalar(n: int) | Array(parsed: Parsed)

  // ---------------------------------------------------------------------
  // np.arange over integers
  // ---------------------------------------------------------------------

  /** `np.arange(start, stop, step)` for integers: the terms
      `start, start+step, ...` strictly before `stop`, in the direction of
      `step`. A zero step raises in numpy; here it is excluded and the
      caller turns it into `TypeError`. */
  function Arange(start: int, stop: int, step: int): (r: seq<int>)
    requires step != 0
    ensures forall k :: 0 <= k < |r| ==> r[k] == start + k * step
    ensures step > 0 ==> (forall k :: 0 <= k < |r| ==> r[k] < stop) && start + |r| * step >= stop
    ensures step < 0 ==> (forall k :: 0 <= k < |r| ==> r[k] > stop) && start + |r| * step <= stop
    decreases if step > 0 then stop - start else start - stop
  {
    if (step > 0 && start < stop) || (step < 0 && start > stop) then
      var rest := Arange(start + step, stop, step);
      ShiftTerms(start, step, |rest|);
      [start] + rest
    else
      []
  }

  /** The terms after the first are the terms from `start + step`. */
  lemma ShiftTerms(start: int, step: int, n: nat)
    ensures forall k :: 1 <= k < n + 1 ==> start + step + (k - 1) * step == start + k * step
    ensures start + step + n * step == start + (n + 1) * step
  {
    forall k | 1 <= k < n + 1 ensures start + step + (k - 1) * step == start + k * step {
      assert (k - 1) * step == k * step - step;
    }
  }

  /** With a unit step the terms are exactly the integers of `[start, stop)`. */
  lemma ArangeUnitStep(start: int, stop: int)
    ensures |Arange(start, stop, 1)| == if stop > start then stop - start else 0
    ensures forall k :: 0 <= k < |Arange(start, stop, 1)| ==> Arange(start, stop, 1)[k] == start + k
  {
    var r := Arange(start, stop, 1);
    if stop > start {
      assert |r| > 0;
      assert r[|r| - 1] < stop;
    }
  }

  // ---------------------------------------------------------------------
  // _parse_range_expr / _parse_int_range_expr
  // ---------------------------------------------------------------------

  /** Converts every field, failing as soon as one field does not convert
      (the list comprehension `[converter(i) for i in limits]`). */
  function ConvertAll(fields: seq<string>, conv: string -> Option<int>): (r: Option<seq<int>>)
    ensures r.Some? <==> forall k :: 0 <= k < |fields| ==> conv(fields[k]).Some?
    ensures r.Some? ==> (|r.value| == |fields|
      && forall k :: 0 <= k < |fields| ==> conv(fields[k]) == Some(r.value[k]))
  {
    if |fields| == 0 then Some([])
    else
      match conv(fields[0])
      case None => None
      case Some(n) =>
        var rest := ConvertAll(fields[1..], conv);
        if rest.None? then
          assert !conv(fields[1..][Witness(fields[1..], conv)]).Some?;
          None
        else
          Some([n] + rest.value)
  }

  /** An index of a field that does not convert, when there is one. */
  function Witness(fields: seq<string>, conv: string -> Option<int>): (k: nat)
    requires exists k :: 0 <= k < |fields| && conv(fields[k]).None?
    ensures k < |fields| && conv(fields[k]).None?
  {
    if conv(fields[0]).None? then 0 else 1 + Witness(fields[1..], conv)
  }

  /** `_parse_int_range_expr`: split on ':'; two fields give
      `arange(a, b)`, three give `arange(a, b, step)` with the MIDDLE field
      as the step; a field that does not convert, or a zero step, raises
      `VdtTypeError`; any other field count returns the input unchanged. */
  function ParseRangeExpr(value: string, conv: string -> Option<int>): (r: Result<Parsed, CheckError>)
    ensures r.Err? ==> r.error == TypeError
  {
    var limits := ConvertAll(SplitOn(value, ':'), conv);
    if limits.None? then Err(TypeError)
    else if |limits.value| == 2 then Ok(IntArray(Arange(limits.value[0], limits.value[1], 1)))
    else if |limits.value| == 3 then
      if limits.value[1] == 0 then Err(TypeError)
      else Ok(IntArray(Arange(limits.value[0], limits.value[2], limits.value[1])))
    else Ok(Passthrough(value))
  }

  /** The range parser fails exactly when a ':'-separated field does not
      convert, or when three fields have a zero step. */
  lemma ParseRangeExprErrors(value: string, conv: string -> Option<int>)
    ensures var fields := SplitOn(value, ':');
      ParseRangeExpr(value, conv) == Err(TypeError) <==>
        (exists k :: 0 <= k < |fields| && conv(fields[k]).None?)
        || (|fields| == 3 && conv(fields[1]) == Some(0))
  {
  }

  /** Two fields are `arange(a, b)`; three are `arange(a, b, step)` with the
      middle field as the step. */
  lemma ParseRangeExprRanges(value: string, conv: string -> Option<int>)
    ensures var fields := SplitOn(value, ':');
      && (|fields| == 2 && conv(fields[0]).Some? && conv(fields[1]).Some? ==>
            ParseRangeExpr(value, conv) == Ok(IntArray(Arange(conv(fields[0]).value, conv(fields[1]).value, 1))))
      && (|fields| == 3 && conv(fields[0]).Some? && conv(fields[2]).Some?
          && conv(fields[1]).Some? && conv(fields[1]).value != 0 ==>
            ParseRangeExpr(value, conv)
              == Ok(IntArray(Arange(conv(fields[0]).value, conv(fields[2]).value, conv(fields[1]).value))))
  {
  }

  /** The input comes back unchanged exactly when every field converts and
      there are neither two nor three of them. */
  lemma ParseRangeExprPassthrough(value: string, conv: string -> Option<int>)
    ensures var fields := SplitOn(value, ':');
      ParseRangeExpr(value, conv).Ok? && ParseRangeExpr(value, conv).value.Passthrough? <==>
        (forall k :: 0 <= k < |fields| ==> conv(fields[k]).Some?) && |fields| != 2 && |fields| != 3
  {
  }

  /** `"a:b"` for numerals `a`, `b` yields the integers `a, a+1, ..., b-1`. */
  lemma TwoFieldRange(a: string, b: string, conv: string -> Option<int>)
    requires ':' !in a && ':' !in b
    requires conv(a).Some? && conv(b).Some?
    ensures ParseRangeExpr(a + ":" + b, conv) == Ok(IntArray(Arange(conv(a).value, conv(b).value, 1)))
  {
    assert JoinWith([a, b], ':') == a + ":" + b;
    SplitOnJoin([a, b], ':');
  }

  /** `"a:s:b"` yields `arange(a, b, s)`: the middle field is the step. */
  lemma ThreeFieldRange(a: string, s: string, b: string, conv: string -> Option<int>)
    requires ':' !in a && ':' !in s && ':' !in b
    requires conv(a).Some? && conv(s).Some? && conv(b).Some?
    ensures conv(s).value == 0 ==> ParseRangeExpr(a + ":" + s + ":" + b, conv) == Err(TypeError)
    ensures conv(s).value != 0 ==>
      ParseRangeExpr(a + ":" + s + ":" + b, conv)
        == Ok(IntArray(Arange(conv(a).value, conv(b).value, conv(s).value)))
  {
    assert [a, s, b][1..] == [s, b];
    assert JoinWith([s, b], ':') == s + ":" + b;
    assert JoinWith([a, s, b], ':') == a + ":" + s + ":" + b;
    SplitOnJoin([a, s, b], ':');
  }

  // ---------------------------------------------------------------------
  // Bounds check and np.hstack
  // ---------------------------------------------------------------------

  function Min(xs: seq<int>): (m: int)
    requires |xs| > 0
    ensures m in xs && forall k :: 0 <= k < |xs| ==> m <= xs[k]
  {
    if |xs| == 1 then xs[0] else var m := Min(xs[1..]); if xs[0] <= m then xs[0] else m
  }

  function Max(xs: seq<int>): (m: int)
    requires |xs| > 0
    ensures m in xs && forall k :: 0 <= k < |xs| ==> m >= xs[k]
  {
    if |xs| == 1 then xs[0] else var m := Max(xs[1..]); if xs[0] >= m then xs[0] else m
  }

  /** Every element lies within whichever bounds are given (and bounds can
      only be checked on an integer array). */
  ghost predicate WithinBounds(out: Parsed, lo: Option<int>, hi: Option<int>) {
    && (lo.Some? ==> out.IntArray? && forall k :: 0 <= k < |out.values| ==> out.values[k] >= lo.value)
    && (hi.Some? ==> out.IntArray? && forall k :: 0 <= k < |out.values| ==> out.values[k] <= hi.value)
  }

  /** The `min`/`max` validation that ends every checker call: `min` first,
      reporting the smallest element, then `max`, reporting the largest. */
  function CheckBounds(out: Parsed, lo: Option<int>, hi: Option<int>): (r: Result<Parsed, CheckError>)
    ensures r.Ok? <==> (WithinBounds(out, lo, hi)
      && (lo.Some? || hi.Some? ==> |out.values| > 0))
    ensures r.Ok? ==> r.value == out
    ensures lo.Some? && out.IntArray? && (exists k :: 0 <= k < |out.values| && out.values[k] < lo.value)
      ==> r == Err(TooSmall(Min(out.values)))
    ensures lo.Some? && out.IntArray? && |out.values| > 0 && (forall k :: 0 <= k < |out.values| ==> out.values[k] >= lo.value)
      && hi.Some? && (exists k :: 0 <= k < |out.values| && out.values[k] > hi.value)
      ==> r == Err(TooBig(Max(out.values)))
  {
    if lo.Some? && out.Passthrough? then Err(NotAnArray)
    else if lo.Some? && |out.values| == 0 then Err(EmptyArray)
    else if lo.Some? && Min(out.values) < lo.value then Err(TooSmall(Min(out.values)))
    else if hi.Some? && out.Passthrough? then Err(NotAnArray)
    else if hi.Some? && |out.values| == 0 then Err(EmptyArray)
    else if hi.Some? && Max(out.values) > hi.value then Err(TooBig(Max(out.values)))
    else Ok(out)
  }

  function Flatten(parts: seq<seq<int>>): seq<int> {
    if |parts| == 0 then [] else parts[0] + Flatten(parts[1..])
  }

  lemma {:induction false} FlattenAppend(a: seq<seq<int>>, b: seq<seq<int>>)
    ensures Flatten(a + b) == Flatten(a) + Flatten(b)
    decreases |a|
  {
    if |a| > 0 {
      assert (a + b)[0] == a[0];
      assert (a + b)[1..] == a[1..] + b;
      FlattenAppend(a[1..], b);
      assert Flatten(a + b) == a[0] + Flatten(a[1..] + b);
    } else {
      assert a + b == b;
    }
  }

  function ArrayParts(parts: seq<Parsed>): seq<seq<int>>
    requires forall k :: 0 <= k < |parts| ==> parts[k].IntArray?
  {
    seq(|parts|, k requires 0 <= k < |parts| => parts[k].values)
  }

  /** `np.hstack`: the arrays one after the other; an empty list has nothing
      to stack. */
  function Stack(parts: seq<Parsed>): (r: Result<Parsed, CheckError>)
    ensures |parts| == 0 ==> r == Err(NothingToStack)
    ensures |parts| > 0 && (exists k :: 0 <= k < |parts| && parts[k].Passthrough?) ==> r == Err(NonNumeric)
    ensures |parts| > 0 && (forall k :: 0 <= k < |parts| ==> parts[k].IntArray?)
      ==> r == Ok(IntArray(Flatten(ArrayParts(parts))))
  {
    if |parts| == 0 then Err(NothingToStack)
    else if exists k :: 0 <= k < |parts| && parts[k].Passthrough? then Err(NonNumeric)
    else Ok(IntArray(Flatten(ArrayParts(parts))))
  }

  // ---------------------------------------------------------------------
  // integer_numpy_array_check
  // ---------------------------------------------------------------------

  /** `value[1:-1].strip().replace(',', ' ').split()` for a bracketed string. */
  function ListTokens(s: string): (tokens: seq<string>)
    requires |s| >= 2
    ensures Weight(tokens) < |s|
    ensures forall k :: 0 <= k < |tokens| ==> |tokens[k]| > 0 && NoSpace(tokens[k])
  {
    Split(CommasToSpaces(Strip(s[1..|s| - 1])))
  }

  predicate Bracketed(s: string) {
    |s| >= 2 && s[0] == '[' && s[|s| - 1] == ']'
  }

  /** `integer_numpy_array_check` on a string. A bracketed string is turned
      into its list of tokens; anything else is a scalar when `conv` accepts
      it, and otherwise a range expression. */
  function CheckText(s: string, conv: string -> Option<int>, lo: Option<int>, hi: Option<int>)
    : (r: Result<Parsed, CheckError>)
    ensures r.Ok? ==> WithinBounds(r.value, lo, hi)
    ensures |s| == 0 ==> r == Err(EmptyText)
    decreases |s|, 1
  {
    if |s| == 0 then Err(EmptyText)
    else if Bracketed(s) then
      CheckList(ListTokens(s), conv, lo, hi)
    else
      var out :- match conv(s)
        case Some(n) => Ok(IntArray([n]))
        case None => ParseRangeExpr(s, conv);
      CheckBounds(out, lo, hi)
  }

  /** The three ways a non-empty text is read: a bracketed text is the list
      of its tokens, anything else the converter accepts is a scalar, and
      anything else again is a range expression whose array is then
      checked against the bounds. */
  lemma CheckTextCases(s: string, conv: string -> Option<int>, lo: Option<int>, hi: Option<int>)
    ensures Bracketed(s) ==> CheckText(s, conv, lo, hi) == CheckList(ListTokens(s), conv, lo, hi)
    ensures |s| > 0 && !Bracketed(s) && conv(s).Some?
      ==> CheckText(s, conv, lo, hi) == CheckBounds(IntArray([conv(s).value]), lo, hi)
    ensures |s| > 0 && !Bracketed(s) && conv(s).None?
      ==> CheckText(s, conv, lo, hi) == RangeThenBounds(s, conv, lo, hi)
  {
  }

  /** A range expression parsed and its result checked against the bounds;
      a parse error surfaces unchanged. */
  function RangeThenBounds(s: string, conv: string -> Option<int>, lo: Option<int>, hi: Option<int>)
    : Result<Parsed, CheckError>
  {
    match ParseRangeExpr(s, conv)
    case Ok(out) => CheckBounds(out, lo, hi)
    case Err(e) => Err(e)
  }

  /** `integer_numpy_array_check` on a list: every element checked with the
      same bounds, in order (the first failing element's error surfaces),
      the results stacked, and the bounds checked once more on the whole. */
  function CheckList(items: seq<string>, conv: string -> Option<int>, lo: Option<int>, hi: Option<int>)
    : (r: Result<Parsed, CheckError>)
    ensures r.Ok? ==> WithinBounds(r.value, lo, hi)
    decreases Weight(items), 2
  {
    var parts :- CheckEach(items, conv, lo, hi);
    var out :- Stack(parts);
    CheckBounds(out, lo, hi)
  }

  /** Some element's check fails with `e`, and every element before it
      passes. */
  ghost predicate FirstFailure(items: seq<string>, conv: string -> Option<int>, lo: Option<int>, hi: Option<int>,
                               e: CheckError)
    decreases Weight(items), 0
  {
    && |items| > 0
    && match CheckText(items[0], conv, lo, hi)
       case Err(e0) => e0 == e
       case Ok(_) => FirstFailure(items[1..], conv, lo, hi, e)
  }

  /** The list comprehension `[integer_numpy_array_check(a, min, max) for a in value]`. */
  function CheckEach(items: seq<string>, conv: string -> Option<int>, lo: Option<int>, hi: Option<int>)
    : (r: Result<seq<Parsed>, CheckError>)
    ensures r.Ok? ==> (|r.value| == |items|
      && forall k :: 0 <= k < |items| ==> CheckText(items[k], conv, lo, hi) == Ok(r.value[k]))
    ensures r.Err? ==> FirstFailure(items, conv, lo, hi, r.error)
    decreases Weight(items), 1
  {
    if |items| == 0 then Ok([])
    else
      var first :- CheckText(items[0], conv, lo, hi);
      var rest :- CheckEach(items[1..], conv, lo, hi);
      Ok([first] + rest)
  }

  /** Element `k` fails with `e`, and every element before it passes. */
  ghost predicate FailsFirstAt(items: seq<string>, conv: string -> Option<int>, lo: Option<int>, hi: Option<int>,
                               e: CheckError, k: int)
  {
    && 0 <= k < |items|
    && CheckText(items[k], conv, lo, hi) == Err(e)
    && forall j {:trigger CheckText(items[j], conv, lo, hi)} :: 0 <= j < k ==> CheckText(items[j], conv, lo, hi).Ok?
  }

  /** A first failure happens at some position. */
  lemma {:induction false} FirstFailureWitness(items: seq<string>, conv: string -> Option<int>, lo: Option<int>,
                                               hi: Option<int>, e: CheckError) returns (k: nat)
    requires FirstFailure(items, conv, lo, hi, e)
    ensures FailsFirstAt(items, conv, lo, hi, e, k)
    decreases |items|
  {
    if CheckText(items[0], conv, lo, hi).Err? {
      k := 0;
    } else {
      var tail := items[1..];
      var k' := FirstFailureWitness(tail, conv, lo, hi, e);
      k := k' + 1;
      assert items[k] == tail[k'];
      forall j | 0 <= j < k ensures CheckText(items[j], conv, lo, hi).Ok? {
        if j > 0 { assert items[j] == tail[j - 1]; }
      }
    }
  }

  /** `integer_numpy_array_check(value, min, max)`. */
  function IntegerArrayCheck(v: Value, conv: string -> Option<int>, lo: Option<int>, hi: Option<int>)
    : (r: Result<Parsed, CheckError>)
    ensures r.Ok? ==> WithinBounds(r.value, lo, hi)
    ensures v.StrList? ==> r == CheckList(v.items, conv, lo, hi)
    ensures v.Str? ==> r == CheckText(v.s, conv, lo, hi)
    ensures v.Str? && |v.s| == 0 ==> r == Err(EmptyText)
    ensures v.Str? && Bracketed(v.s) ==> r == CheckList(ListTokens(v.s), conv, lo, hi)
    ensures v.Str? && |v.s| > 0 && !Bracketed(v.s) && conv(v.s).Some?
      ==> r == CheckBounds(IntArray([conv(v.s).value]), lo, hi)
    ensures v.Str? && |v.s| > 0 && !Bracketed(v.s) && conv(v.s).None?
      ==> r == RangeThenBounds(v.s, conv, lo, hi)
  {
    match v
    case Str(s) => CheckTextCases(s, conv, lo, hi); CheckText(s, conv, lo, hi)
    case StrList(items) => CheckList(items, conv, lo, hi)
  }

  /** The converse of `CheckEach`'s contract: when every element checks,
      the comprehension yields exactly their results. */
  lemma {:induction false} EachAllOk(items: seq<string>, conv: string -> Option<int>, lo: Option<int>, hi: Option<int>,
                  parts: seq<Parsed>)
    requires |parts| == |items|
    requires forall k :: 0 <= k < |items| ==> CheckText(items[k], conv, lo, hi) == Ok(parts[k])
    ensures CheckEach(items, conv, lo, hi) == Ok(parts)
    decreases |items|
  {
    if |items| > 0 {
      var tail := items[1..];
      forall k | 0 <= k < |tail| ensures CheckText(tail[k], conv, lo, hi) == Ok(parts[1..][k]) {
        assert tail[k] == items[k + 1];
      }
      EachAllOk(tail, conv, lo, hi, parts[1..]);
      assert [parts[0]] + parts[1..] == parts;
    }
  }

  /** A list whose elements all come out as integer arrays becomes their
      concatenation, in list order, checked once more against the bounds. */
  lemma ListConcatenates(items: seq<string>, conv: string -> Option<int>, lo: Option<int>, hi: Option<int>,
                         parts: seq<seq<int>>)
    requires |items| > 0 && |parts| == |items|
    requires forall k :: 0 <= k < |items| ==> CheckText(items[k], conv, lo, hi) == Ok(IntArray(parts[k]))
    ensures CheckList(items, conv, lo, hi) == CheckBounds(IntArray(Flatten(parts)), lo, hi)
  {
    var each := seq(|items|, k requires 0 <= k < |items| => IntArray(parts[k]));
    EachAllOk(items, conv, lo, hi, each);
    assert ArrayParts(each) == parts;
    assert Stack(each) == Ok(IntArray(Flatten(parts)));
  }

  /** A bracketed list with commas checks exactly like the same list with
      spaces: commas are separators, nothing more. */
  lemma CommasAreSpaces(s: string, conv: string -> Option<int>, lo: Option<int>, hi: Option<int>)
    requires Bracketed(s)
    ensures CheckText(s, conv, lo, hi) == CheckText(CommasToSpaces(s), conv, lo, hi)
  {
    var s' := CommasToSpaces(s);
    assert Bracketed(s');
    var inner := s[1..|s| - 1];
    var inner' := s'[1..|s'| - 1];
    assert inner' == CommasToSpaces(inner);
    SplitIgnoresCommaPlacement(inner);
  }

  /** Replacing commas before or after stripping splits the same way. */
  lemma SplitIgnoresCommaPlacement(x: string)
    ensures Split(CommasToSpaces(Strip(x))) == Split(CommasToSpaces(Strip(CommasToSpaces(x))))
  {
    SplitStripCommas(x);
    SplitStripCommas(CommasToSpaces(x));
    CommasIdempotent(x);
  }

  lemma CommasIdempotent(x: string)
    ensures CommasToSpaces(CommasToSpaces(x)) == CommasToSpaces(x)
  {
  }

  /** Stripping before splitting changes nothing: `split()` already ignores
      leading and trailing whitespace, and stripping only removes spaces,
      which commas turn into anyway. */
  lemma SplitStripCommas(x: string)
    ensures Split(CommasToSpaces(Strip(x))) == Split(CommasToSpaces(x))
  {
    var pre, post := StripDecompose(x);
    ThreeCommas(pre, Strip(x), post);
    SpacesAround(pre, CommasToSpaces(Strip(x)), post);
  }

  lemma ThreeCommas(a: string, b: string, c: string)
    ensures CommasToSpaces(a + b + c) == CommasToSpaces(a) + CommasToSpaces(b) + CommasToSpaces(c)
  {
    CommasDistribute(a + b, c);
    CommasDistribute(a, b);
  }

  lemma CommasDistribute(a: string, b: string)
    ensures CommasToSpaces(a + b) == CommasToSpaces(a) + CommasToSpaces(b)
  {
  }

  /** Whitespace-only text on either side of a string does not change how
      it splits (after commas became spaces). */
  lemma SpacesAround(pre: string, mid: string, post: string)
    requires AllSpace(pre) && AllSpace(post)
    ensures Split(CommasToSpaces(pre) + mid + CommasToSpaces(post)) == Split(mid)
  {
    assert CommasToSpaces(pre) == pre;
    assert CommasToSpaces(post) == post;
    LeadingSpaces(pre, mid + post);
    assert pre + mid + post == pre + (mid + post);
    TrailingSpaces(mid, post);
  }

  // ---------------------------------------------------------------------
  // integer_scalar_or_integer_numpy_array_check
  // ---------------------------------------------------------------------

  /** `integer_scalar_or_integer_numpy_array_check`: a bare integer (checked
      against the bounds) when the value converts as a scalar; only when
      that conversion fails does it fall back to the array check. Bound
      errors of the scalar path are not caught. */
  function IntegerScalarOrArrayCheck(v: Value, conv: string -> Option<int>, lo: Option<int>, hi: Option<int>)
    : (r: Result<ScalarOrArray, CheckError>)
    ensures (r.Ok? && r.value.Scalar?) <==>
      v.Str? && conv(v.s).Some?
      && (lo.Some? ==> conv(v.s).value >= lo.value) && (hi.Some? ==> conv(v.s).value <= hi.value)
    ensures r.Ok? && r.value.Scalar? ==> r.value.n == conv(v.s).value
    ensures v.Str? && conv(v.s).Some? && lo.Some? && conv(v.s).value < lo.value
      ==> r == Err(TooSmall(conv(v.s).value))
    ensures v.Str? && conv(v.s).Some? && (lo.Some? ==> conv(v.s).value >= lo.value)
      && hi.Some? && conv(v.s).value > hi.value
      ==> r == Err(TooBig(conv(v.s).value))
    ensures !(v.Str? && conv(v.s).Some?) ==>
      match IntegerArrayCheck(v, conv, lo, hi)
      case Ok(p) => r == Ok(Array(p))
      case Err(e) => r == Err(e)
  {
    if v.Str? && conv(v.s).Some? then
      var n := conv(v.s).value;
      if lo.Some? && n < lo.value then Err(TooSmall(n))
      else if hi.Some? && n > hi.value then Err(TooBig(n))
      else Ok(Scalar(n))
    else
      var p :- IntegerArrayCheck(v, conv, lo, hi);
      Ok(Array(p))
  }
}
