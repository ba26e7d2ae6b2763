/** The validator's documented examples, instantiated with the strict
    decimal reader `Text.ParseDecimal` as the converter. */
module ConfigExamples {
  import opened Outcomes
  import opened Text
  import opened ConfigValidation

  lemma DecimalNumerals()
    ensures ParseDecimal("0") == Some(0) && ParseDecimal("5") == Some(5)
    ensures ParseDecimal("10") == Some(10) && ParseDecimal("15") == Some(15)
    ensures ParseDecimal("20") == Some(20) && ParseDecimal("6") == Some(6)
    ensures ParseDecimal("10:15") == None && ParseDecimal("[0 5 10:15]") == None
    ensures ParseDecimal("[0,5,10:15,20]") == None && ParseDecimal("[10:15]") == None
  {
    assert "10"[..1] == "1";
    assert "15"[..1] == "1";
    assert "20"[..1] == "2";
    assert !IsDigit("10:15"[2]);
    assert !IsDigit("[0 5 10:15]"[0]);
    assert !IsDigit("[0,5,10:15,20]"[0]);
    assert !IsDigit("[10:15]"[0]);
  }

  /** A bracketed text that is not a numeral checks as its token list,
      both as an array and in the scalar-or-array form. */
  lemma BracketedChecks(s: string, lo: Option<int>, hi: Option<int>, tokens: seq<string>, out: Parsed)
    requires Bracketed(s) && ParseDecimal(s) == None && ListTokens(s) == tokens
    requires CheckList(tokens, ParseDecimal, lo, hi) == Ok(out)
    ensures IntegerArrayCheck(Str(s), ParseDecimal, lo, hi) == Ok(out)
    ensures IntegerScalarOrArrayCheck(Str(s), ParseDecimal, lo, hi) == Ok(Array(out))
  {
  }

  /** The failing counterpart of `BracketedChecks`. */
  lemma BracketedFails(s: string, lo: Option<int>, hi: Option<int>, tokens: seq<string>, e: CheckError)
    requires Bracketed(s) && ParseDecimal(s) == None && ListTokens(s) == tokens
    requires CheckList(tokens, ParseDecimal, lo, hi) == Err(e)
    ensures IntegerArrayCheck(Str(s), ParseDecimal, lo, hi) == Err(e)
    ensures IntegerScalarOrArrayCheck(Str(s), ParseDecimal, lo, hi) == Err(e)
  {
  }

  lemma ArangeTenToFifteen()
    ensures Arange(10, 15, 1) == [10, 11, 12, 13, 14]
  {
    ArangeUnitStep(10, 15);
  }

  lemma RangeFieldsTenToFifteen()
    ensures ParseRangeExpr("10:15", ParseDecimal) == Ok(IntArray([10, 11, 12, 13, 14]))
  {
    DecimalNumerals();
    TenColonFifteen();
    TwoFieldRange("10", "15", ParseDecimal);
    ArangeTenToFifteen();
  }

  lemma TenColonFifteen()
    ensures "10" + ":" + "15" == "10:15"
  {
  }

  /** `"10:15"` is the range 10, 11, 12, 13, 14. */
  lemma RangeTenToFifteen()
    ensures IntegerArrayCheck(Str("10:15"), ParseDecimal, Some(0), Some(30))
      == Ok(IntArray([10, 11, 12, 13, 14]))
    ensures IntegerScalarOrArrayCheck(Str("10:15"), ParseDecimal, Some(0), Some(30))
      == Ok(Array(IntArray([10, 11, 12, 13, 14])))
  {
    DecimalNumerals();
    RangeFieldsTenToFifteen();
    assert !Bracketed("10:15");
    RangeWithinBounds([10, 11, 12, 13, 14]);
  }

  lemma RangeWithinBounds(xs: seq<int>)
    requires xs == [10, 11, 12, 13, 14]
    ensures CheckBounds(IntArray(xs), Some(0), Some(30)) == Ok(IntArray(xs))
  {
    forall k | 0 <= k < |xs| ensures 0 <= xs[k] <= 30 {
      assert xs[k] in {10, 11, 12, 13, 14};
    }
    WithinZeroTo(xs, 30);
  }

  lemma StripUnchanged(s: string)
    requires |s| > 0 && !IsSpace(s[0]) && !IsSpace(s[|s| - 1])
    ensures Strip(s) == s
  {
  }

  lemma NoCommas(s: string)
    requires ',' !in s
    ensures CommasToSpaces(s) == s
  {
  }

  lemma CheckEachCons(items: seq<string>, conv: string -> Option<int>, lo: Option<int>, hi: Option<int>,
                      p: Parsed, ps: seq<Parsed>)
    requires |items| > 0
    requires CheckText(items[0], conv, lo, hi) == Ok(p)
    requires CheckEach(items[1..], conv, lo, hi) == Ok(ps)
    ensures CheckEach(items, conv, lo, hi) == Ok([p] + ps)
  {
  }

  lemma StripSpacedList(inner: string)
    requires inner == "0 5 10:15"
    ensures Strip(inner) == inner && CommasToSpaces(inner) == inner
  {
    assert !IsSpace(inner[0]) && !IsSpace(inner[|inner| - 1]);
  }

  lemma SplitSpacedList()
    ensures Split("0 5 10:15") == ["0", "5", "10:15"]
  {
    assert JoinWith(["0", "5", "10:15"], ' ') == "0 5 10:15" by {
      assert ["0", "5", "10:15"][1..] == ["5", "10:15"];
      assert ["5", "10:15"][1..] == ["10:15"];
    }
    SplitJoin(["0", "5", "10:15"]);
  }

  lemma TokensOfSpacedList(s: string)
    requires s == "[0 5 10:15]"
    ensures ListTokens(s) == ["0", "5", "10:15"]
  {
    var inner := "0 5 10:15";
    SpacedListText();
    BracketInner(inner);
    StripSpacedList(inner);
    SplitSpacedList();
  }

  /** What lies between the brackets. */
  lemma BracketInner(x: string)
    ensures var s := "[" + x + "]"; |s| == |x| + 2 && s[1..|s| - 1] == x
  {
    var s := "[" + x + "]";
    assert s[1..|s| - 1] == x;
  }

  lemma SpacedListText()
    ensures "[0 5 10:15]" == "[" + "0 5 10:15" + "]"
  {
  }

  lemma CommaListText()
    ensures "[0,5,10:15,20]" == "[" + "0,5,10:15,20" + "]"
  {
  }

  /** The range element of `[0 5 10:15]`. */
  lemma RangeElement()
    ensures CheckText("10:15", ParseDecimal, Some(0), Some(30)) == Ok(IntArray([10, 11, 12, 13, 14]))
  {
    RangeTenToFifteen();
  }

  lemma ZeroElement()
    ensures CheckText("0", ParseDecimal, Some(0), Some(30)) == Ok(IntArray([0]))
  {
    DecimalNumerals();
    ScalarWithin("0", 0, 30);
  }

  lemma FiveElement()
    ensures CheckText("5", ParseDecimal, Some(0), Some(30)) == Ok(IntArray([5]))
  {
    DecimalNumerals();
    ScalarWithin("5", 5, 30);
  }

  lemma ElementsOfSpacedList(items: seq<string>, parts: seq<Parsed>)
    requires items == ["0", "5", "10:15"]
    requires parts == [IntArray([0]), IntArray([5]), IntArray([10, 11, 12, 13, 14])]
    ensures forall k :: 0 <= k < |items| ==> CheckText(items[k], ParseDecimal, Some(0), Some(30)) == Ok(parts[k])
  {
    forall k | 0 <= k < |items|
      ensures CheckText(items[k], ParseDecimal, Some(0), Some(30)) == Ok(parts[k])
    {
      if k == 0 {
        ZeroElement();
      } else if k == 1 {
        FiveElement();
      } else {
        RangeElement();
      }
    }
  }

  lemma EachOfSpacedList(items: seq<string>, parts: seq<Parsed>)
    requires items == ["0", "5", "10:15"]
    requires parts == [IntArray([0]), IntArray([5]), IntArray([10, 11, 12, 13, 14])]
    ensures CheckEach(items, ParseDecimal, Some(0), Some(30)) == Ok(parts)
  {
    ElementsOfSpacedList(items, parts);
    EachAllOk(items, ParseDecimal, Some(0), Some(30), parts);
  }

  lemma FlattenSpacedList(parts: seq<seq<int>>)
    requires parts == [[0], [5], [10, 11, 12, 13, 14]]
    ensures Flatten(parts) == [0, 5, 10, 11, 12, 13, 14]
  {
    var p1 := parts[1..];
    var p2 := p1[1..];
    assert p2 == [[10, 11, 12, 13, 14]] && p2[1..] == [];
    assert Flatten(p2) == [10, 11, 12, 13, 14];
    assert p1[0] == [5];
    assert Flatten(p1) == [5] + Flatten(p2);
    assert Flatten(parts) == [0] + Flatten(p1);
  }

  lemma StackSpacedList(each: seq<Parsed>, flat: seq<int>)
    requires each == [IntArray([0]), IntArray([5]), IntArray([10, 11, 12, 13, 14])]
    requires flat == [0, 5, 10, 11, 12, 13, 14]
    ensures Stack(each) == Ok(IntArray(flat))
  {
    assert ArrayParts(each) == [[0], [5], [10, 11, 12, 13, 14]];
    FlattenSpacedList(ArrayParts(each));
  }

  lemma CheckSpacedList(items: seq<string>, each: seq<Parsed>, flat: seq<int>)
    requires items == ["0", "5", "10:15"]
    requires each == [IntArray([0]), IntArray([5]), IntArray([10, 11, 12, 13, 14])]
    requires flat == [0, 5, 10, 11, 12, 13, 14]
    ensures CheckList(items, ParseDecimal, Some(0), Some(30)) == Ok(IntArray(flat))
  {
    EachOfSpacedList(items, each);
    StackSpacedList(each, flat);
    FlatWithinBounds(flat);
  }

  lemma FlatWithinBounds(flat: seq<int>)
    requires flat == [0, 5, 10, 11, 12, 13, 14]
    ensures CheckBounds(IntArray(flat), Some(0), Some(30)) == Ok(IntArray(flat))
  {
    forall k | 0 <= k < |flat| ensures 0 <= flat[k] <= 30 {
      assert flat[k] in {0, 5, 10, 11, 12, 13, 14};
    }
    WithinZeroTo(flat, 30);
  }

  /** `"[0 5 10:15]"` lists 0, 5 and the range 10..14, in that order. */
  lemma BracketedList(s: string)
    requires s == "[0 5 10:15]"
    ensures IntegerArrayCheck(Str(s), ParseDecimal, Some(0), Some(30))
      == Ok(IntArray([0, 5, 10, 11, 12, 13, 14]))
    ensures IntegerScalarOrArrayCheck(Str(s), ParseDecimal, Some(0), Some(30))
      == Ok(Array(IntArray([0, 5, 10, 11, 12, 13, 14])))
  {
    DecimalNumerals();
    assert Bracketed(s);
    var tokens := ["0", "5", "10:15"];
    TokensOfSpacedList(s);
    CheckSpacedList(tokens, [IntArray([0]), IntArray([5]), IntArray([10, 11, 12, 13, 14])],
                    [0, 5, 10, 11, 12, 13, 14]);
    BracketedChecks(s, Some(0), Some(30), tokens, IntArray([0, 5, 10, 11, 12, 13, 14]));
  }

  lemma CommaListSpaces(inner: string)
    requires inner == "0,5,10:15,20"
    ensures Strip(inner) == inner && CommasToSpaces(inner) == "0 5 10:15 20"
  {
    assert !IsSpace(inner[0]) && !IsSpace(inner[|inner| - 1]);
  }

  lemma SplitCommaList()
    ensures Split("0 5 10:15 20") == ["0", "5", "10:15", "20"]
  {
    var ts := ["0", "5", "10:15", "20"];
    JoinCommaTokens(ts);
    CommaTokensClean(ts);
    SplitJoin(ts);
  }

  lemma JoinCommaTokens(ts: seq<string>)
    requires ts == ["0", "5", "10:15", "20"]
    ensures JoinWith(ts, ' ') == "0 5 10:15 20"
  {
    var t1, t2, t3 := ts[1..], ts[1..][1..], ts[1..][1..][1..];
    assert t1 == ["5", "10:15", "20"] && t2 == ["10:15", "20"] && t3 == ["20"];
    assert JoinWith(t3, ' ') == "20";
    assert JoinWith(t2, ' ') == "10:15" + " " + "20";
    assert JoinWith(t1, ' ') == "5" + " " + ("10:15" + " " + "20");
    assert JoinWith(ts, ' ') == "0" + " " + ("5" + " " + ("10:15" + " " + "20"));
  }

  lemma CommaTokensClean(ts: seq<string>)
    requires ts == ["0", "5", "10:15", "20"]
    ensures forall k :: 0 <= k < |ts| ==> |ts[k]| > 0 && NoSpace(ts[k])
  {
    forall k | 0 <= k < |ts| ensures |ts[k]| > 0 && NoSpace(ts[k]) {
      assert ts[k] in {"0", "5", "10:15", "20"};
    }
  }

  lemma TokensOfCommaList(s: string)
    requires s == "[0,5,10:15,20]"
    ensures ListTokens(s) == ["0", "5", "10:15", "20"]
  {
    var inner := "0,5,10:15,20";
    CommaListText();
    BracketInner(inner);
    CommaListSpaces(inner);
    SplitCommaList();
  }

  /** `"[0,5,10:15,20]"` with `min=4` fails on its first element, 0. */
  lemma ListBelowMinimum(s: string)
    requires s == "[0,5,10:15,20]"
    ensures IntegerArrayCheck(Str(s), ParseDecimal, Some(4), Some(30)) == Err(TooSmall(0))
    ensures IntegerScalarOrArrayCheck(Str(s), ParseDecimal, Some(4), Some(30)) == Err(TooSmall(0))
  {
    DecimalNumerals();
    assert Bracketed(s);
    TokensOfCommaList(s);
    var items := ["0", "5", "10:15", "20"];
    ZeroBelowFour();
    assert CheckEach(items, ParseDecimal, Some(4), Some(30)) == Err(TooSmall(0));
    BracketedFails(s, Some(4), Some(30), items, TooSmall(0));
  }

  lemma ZeroBelowFour()
    ensures CheckText("0", ParseDecimal, Some(4), Some(30)) == Err(TooSmall(0))
  {
    DecimalNumerals();
    assert !Bracketed("0");
    CheckTextCases("0", ParseDecimal, Some(4), Some(30));
    assert Min([0]) == 0;
  }

  /** A numeral without bounds is the bare integer, not an array. */
  lemma PlainScalars()
    ensures IntegerScalarOrArrayCheck(Str("4"), ParseDecimal, None, None) == Ok(Scalar(4))
    ensures IntegerScalarOrArrayCheck(Str("76"), ParseDecimal, None, None) == Ok(Scalar(76))
  {
    assert ParseDecimal("4") == Some(4);
    assert "76"[..1] == "7";
    assert ParseDecimal("76") == Some(76);
  }

  /** `"6"` is a bare integer, too small for `min=10` and too big for
      `max=5`. */
  lemma ScalarBounds()
    ensures IntegerScalarOrArrayCheck(Str("6"), ParseDecimal, Some(10), None) == Err(TooSmall(6))
    ensures IntegerScalarOrArrayCheck(Str("6"), ParseDecimal, None, Some(5)) == Err(TooBig(6))
    ensures IntegerScalarOrArrayCheck(Str("6"), ParseDecimal, None, None) == Ok(Scalar(6))
  {
    DecimalNumerals();
  }

  lemma RangeListText()
    ensures "[10:15]" == "[" + "10:15" + "]"
  {
  }

  lemma StripRange(inner: string)
    requires inner == "10:15"
    ensures Strip(inner) == inner && CommasToSpaces(inner) == inner
  {
    assert !IsSpace(inner[0]) && !IsSpace(inner[|inner| - 1]);
  }

  lemma SplitRange()
    ensures Split("10:15") == ["10:15"]
  {
    var ts := ["10:15"];
    assert JoinWith(ts, ' ') == "10:15";
    assert NoSpace(ts[0]);
    SplitJoin(ts);
  }

  lemma TokensOfBracketedRange(s: string)
    requires s == "[10:15]"
    ensures ListTokens(s) == ["10:15"]
  {
    var inner := "10:15";
    RangeListText();
    BracketInner(inner);
    StripRange(inner);
    SplitRange();
  }

  lemma EachOfRangeList(items: seq<string>, each: seq<Parsed>)
    requires items == ["10:15"] && each == [IntArray([10, 11, 12, 13, 14])]
    ensures CheckEach(items, ParseDecimal, Some(0), Some(30)) == Ok(each)
  {
    RangeWithin(30);
    EachAllOk(items, ParseDecimal, Some(0), Some(30), each);
  }

  lemma StackOne(each: seq<Parsed>, xs: seq<int>)
    requires each == [IntArray(xs)]
    ensures Stack(each) == Ok(IntArray(xs))
  {
    assert forall k :: 0 <= k < |each| ==> each[k].IntArray?;
    assert ArrayParts(each) == [xs];
    assert [xs][1..] == [];
    assert Flatten([xs]) == xs;
  }

  lemma CheckRangeList(items: seq<string>, each: seq<Parsed>, xs: seq<int>)
    requires items == ["10:15"] && xs == [10, 11, 12, 13, 14] && each == [IntArray(xs)]
    ensures CheckList(items, ParseDecimal, Some(0), Some(30)) == Ok(IntArray(xs))
  {
    EachOfRangeList(items, each);
    StackOne(each, xs);
    RangeWithinBounds(xs);
  }

  /** `"[10:15]"`: a bracketed list holding one range. */
  lemma BracketedRange(s: string)
    requires s == "[10:15]"
    ensures IntegerScalarOrArrayCheck(Str(s), ParseDecimal, Some(0), Some(30))
      == Ok(Array(IntArray([10, 11, 12, 13, 14])))
  {
    DecimalNumerals();
    assert Bracketed(s);
    TokensOfBracketedRange(s);
    CheckRangeList(["10:15"], [IntArray([10, 11, 12, 13, 14])], [10, 11, 12, 13, 14]);
    BracketedChecks(s, Some(0), Some(30), ["10:15"], IntArray([10, 11, 12, 13, 14]));
  }

  /** The bounds 0 and `hi` hold for elements between them. */
  lemma WithinZeroTo(xs: seq<int>, hi: int)
    requires |xs| > 0 && forall k :: 0 <= k < |xs| ==> 0 <= xs[k] <= hi
    ensures CheckBounds(IntArray(xs), Some(0), Some(hi)) == Ok(IntArray(xs))
  {
  }

  /** A numeral within `[0, hi]` is the one-element array of its value. */
  lemma ScalarWithin(t: string, n: int, hi: int)
    requires ParseDecimal(t) == Some(n) && |t| > 0 && t[0] != '[' && 0 <= n <= hi
    ensures CheckText(t, ParseDecimal, Some(0), Some(hi)) == Ok(IntArray([n]))
  {
    CheckTextCases(t, ParseDecimal, Some(0), Some(hi));
    WithinZeroTo([n], hi);
  }

  lemma RangeBelow(xs: seq<int>, hi: int)
    requires xs == [10, 11, 12, 13, 14] && 14 <= hi
    ensures CheckBounds(IntArray(xs), Some(0), Some(hi)) == Ok(IntArray(xs))
  {
    forall k | 0 <= k < |xs| ensures 0 <= xs[k] <= hi {
      assert xs[k] in {10, 11, 12, 13, 14};
    }
    WithinZeroTo(xs, hi);
  }

  /** `"10:15"` passes any maximum from 14 up. */
  lemma RangeWithin(hi: int)
    requires 14 <= hi
    ensures CheckText("10:15", ParseDecimal, Some(0), Some(hi)) == Ok(IntArray([10, 11, 12, 13, 14]))
  {
    DecimalNumerals();
    RangeFieldsTenToFifteen();
    assert !Bracketed("10:15");
    RangeBelow([10, 11, 12, 13, 14], hi);
  }

  /** The four elements of `"[0,5,10:15,20]"` each pass with bounds 0 and 30. */
  lemma ElementsOfCommaList(items: seq<string>, parts: seq<Parsed>)
    requires items == ["0", "5", "10:15", "20"]
    requires parts == [IntArray([0]), IntArray([5]), IntArray([10, 11, 12, 13, 14]), IntArray([20])]
    ensures forall k :: 0 <= k < |items| ==> CheckText(items[k], ParseDecimal, Some(0), Some(30)) == Ok(parts[k])
  {
    DecimalNumerals();
    forall k | 0 <= k < |items|
      ensures CheckText(items[k], ParseDecimal, Some(0), Some(30)) == Ok(parts[k])
    {
      if k == 0 {
        ScalarWithin("0", 0, 30);
      } else if k == 1 {
        ScalarWithin("5", 5, 30);
      } else if k == 2 {
        RangeWithin(30);
      } else {
        ScalarWithin("20", 20, 30);
      }
    }
  }

  lemma FlattenCommaList(parts: seq<seq<int>>)
    requires parts == [[0], [5], [10, 11, 12, 13, 14], [20]]
    ensures Flatten(parts) == [0, 5, 10, 11, 12, 13, 14, 20]
  {
    var front := [[0], [5], [10, 11, 12, 13, 14]];
    assert parts == front + [[20]];
    FlattenAppend(front, [[20]]);
    FlattenSpacedList(front);
    assert [[20]][1..] == [];
    assert Flatten([[20]]) == [20] + [];
  }

  lemma StackCommaList(each: seq<Parsed>, flat: seq<int>)
    requires each == [IntArray([0]), IntArray([5]), IntArray([10, 11, 12, 13, 14]), IntArray([20])]
    requires flat == [0, 5, 10, 11, 12, 13, 14, 20]
    ensures Stack(each) == Ok(IntArray(flat))
  {
    assert forall k :: 0 <= k < |each| ==> each[k].IntArray?;
    assert ArrayParts(each) == [[0], [5], [10, 11, 12, 13, 14], [20]];
    FlattenCommaList(ArrayParts(each));
  }

  lemma FlatCommaWithinBounds(flat: seq<int>)
    requires flat == [0, 5, 10, 11, 12, 13, 14, 20]
    ensures CheckBounds(IntArray(flat), Some(0), Some(30)) == Ok(IntArray(flat))
  {
    forall k | 0 <= k < |flat| ensures 0 <= flat[k] <= 30 {
      assert flat[k] in {0, 5, 10, 11, 12, 13, 14, 20};
    }
    WithinZeroTo(flat, 30);
  }

  lemma CheckCommaList(items: seq<string>, each: seq<Parsed>, flat: seq<int>)
    requires items == ["0", "5", "10:15", "20"]
    requires each == [IntArray([0]), IntArray([5]), IntArray([10, 11, 12, 13, 14]), IntArray([20])]
    requires flat == [0, 5, 10, 11, 12, 13, 14, 20]
    ensures CheckList(items, ParseDecimal, Some(0), Some(30)) == Ok(IntArray(flat))
  {
    ElementsOfCommaList(items, each);
    EachAllOk(items, ParseDecimal, Some(0), Some(30), each);
    StackCommaList(each, flat);
    FlatCommaWithinBounds(flat);
  }

  /** `"[0,5,10:15,20]"` with bounds 0 and 30: commas separate like spaces. */
  lemma CommaList(s: string)
    requires s == "[0,5,10:15,20]"
    ensures IntegerScalarOrArrayCheck(Str(s), ParseDecimal, Some(0), Some(30))
      == Ok(Array(IntArray([0, 5, 10, 11, 12, 13, 14, 20])))
  {
    DecimalNumerals();
    assert Bracketed(s);
    var tokens := ["0", "5", "10:15", "20"];
    TokensOfCommaList(s);
    CheckCommaList(tokens,
                   [IntArray([0]), IntArray([5]), IntArray([10, 11, 12, 13, 14]), IntArray([20])],
                   [0, 5, 10, 11, 12, 13, 14, 20]);
    BracketedChecks(s, Some(0), Some(30), tokens, IntArray([0, 5, 10, 11, 12, 13, 14, 20]));
  }

  /** An element that passes does not change the outcome of a failing
      rest. */
  lemma CheckEachSkip(items: seq<string>, conv: string -> Option<int>, lo: Option<int>, hi: Option<int>,
                      e: CheckError)
    requires |items| > 0 && CheckText(items[0], conv, lo, hi).Ok?
    requires CheckEach(items[1..], conv, lo, hi) == Err(e)
    ensures CheckEach(items, conv, lo, hi) == Err(e)
  {
  }

  lemma TwentyAboveFifteen()
    ensures CheckText("20", ParseDecimal, Some(0), Some(15)) == Err(TooBig(20))
  {
    DecimalNumerals();
    assert !Bracketed("20");
    CheckTextCases("20", ParseDecimal, Some(0), Some(15));
    assert [20][0] > 15;
    assert Max([20]) == 20;
  }

  /** The elements of `"[0,5,10:15,20]"` with `max=15`: the first three pass
      and the last fails with too-big 20. */
  lemma EachAboveFifteen(items: seq<string>)
    requires items == ["0", "5", "10:15", "20"]
    ensures CheckEach(items, ParseDecimal, Some(0), Some(15)) == Err(TooBig(20))
  {
    DecimalNumerals();
    TwentyAboveFifteen();
    assert items[1..][1..][1..] == ["20"] && ["20"][1..] == [];
    assert CheckEach(["20"], ParseDecimal, Some(0), Some(15)) == Err(TooBig(20));
    RangeWithin(15);
    CheckEachSkip(items[1..][1..], ParseDecimal, Some(0), Some(15), TooBig(20));
    ScalarWithin("5", 5, 15);
    CheckEachSkip(items[1..], ParseDecimal, Some(0), Some(15), TooBig(20));
    ScalarWithin("0", 0, 15);
    CheckEachSkip(items, ParseDecimal, Some(0), Some(15), TooBig(20));
  }

  /** `"[0,5,10:15,20]"` with `max=15` fails on its last element, 20: the
      elements before it pass. */
  lemma ListAboveMaximum(s: string)
    requires s == "[0,5,10:15,20]"
    ensures IntegerScalarOrArrayCheck(Str(s), ParseDecimal, Some(0), Some(15)) == Err(TooBig(20))
  {
    DecimalNumerals();
    assert Bracketed(s);
    var tokens := ["0", "5", "10:15", "20"];
    TokensOfCommaList(s);
    EachAboveFifteen(tokens);
    assert CheckList(tokens, ParseDecimal, Some(0), Some(15)) == Err(TooBig(20));
    BracketedFails(s, Some(0), Some(15), tokens, TooBig(20));
  }

}
