/** The handful of Python string operations the configuration parser and the
    runner rely on, written out over `seq<char>`: `str.split(sep)`,
    `str.split()`, `str.strip()`, `str.replace(',', ' ')`, and decimal
    rendering of naturals. */
module Text {
  import opened Outcomes

  /** Characters for which Python's `str.isspace()` holds; these are the
      separators of `str.split()` and what `str.strip()` removes. */
  predicate IsSpace(c: char) {
    c == ' ' || ('\t' <= c <= '\r') || ('\U{1C}' <= c <= '\U{1F}')
    || c == '\U{85}' || c == '\U{A0}' || c == '\U{1680}'
    || ('\U{2000}' <= c <= '\U{200A}') || c == '\U{2028}' || c == '\U{2029}'
    || c == '\U{202F}' || c == '\U{205F}' || c == '\U{3000}'
  }

  predicate NoSpace(t: string) {
    forall k :: 0 <= k < |t| ==> !IsSpace(t[k])
  }

  predicate AllSpace(t: string) {
    forall k :: 0 <= k < |t| ==> IsSpace(t[k])
  }

  // ---------------------------------------------------------------------
  // str.split(sep) with an explicit one-character separator
  // ---------------------------------------------------------------------

  /** The fields joined back with `sep` between consecutive ones. */
  function JoinWith(fields: seq<string>, sep: char): string
    requires |fields| >= 1
  {
    if |fields| == 1 then fields[0] else fields[0] + [sep] + JoinWith(fields[1..], sep)
  }

  /** Python's `s.split(sep)`: always at least one field (the empty string
      gives `[""]`), empty fields are kept, no field contains `sep`. */
  function SplitOn(s: string, sep: char): (fields: seq<string>)
    ensures |fields| >= 1
    ensures forall k :: 0 <= k < |fields| ==> sep !in fields[k]
    ensures JoinWith(fields, sep) == s
    decreases |s|
  {
    if |s| == 0 then [""]
    else
      var rest := SplitOn(s[1..], sep);
      if s[0] == sep then
        assert s == [sep] + s[1..];
        [""] + rest
      else
        assert s == [s[0]] + s[1..];
        [[s[0]] + rest[0]] + rest[1..]
  }

  /** The other direction of the round trip: fields that do not contain the
      separator are recovered from their join. */
  lemma {:induction false} SplitOnJoin(fields: seq<string>, sep: char)
    requires |fields| >= 1
    requires forall k :: 0 <= k < |fields| ==> sep !in fields[k]
    ensures SplitOn(JoinWith(fields, sep), sep) == fields
    decreases |fields|, |fields[0]|
  {
    if |fields| == 1 {
      NoSepSingleField(fields[0], sep);
    } else if |fields[0]| == 0 {
      var tail := JoinWith(fields[1..], sep);
      assert JoinWith(fields, sep) == [sep] + tail;
      assert ([sep] + tail)[1..] == tail;
      SplitOnJoin(fields[1..], sep);
      assert fields == [""] + fields[1..];
    } else {
      var c := fields[0][0];
      var shorter := [fields[0][1..]] + fields[1..];
      assert shorter[1..] == fields[1..];
      assert JoinWith(fields, sep) == [c] + JoinWith(shorter, sep);
      assert ([c] + JoinWith(shorter, sep))[1..] == JoinWith(shorter, sep);
      assert c != sep by { assert c == fields[0][0]; }
      SplitOnJoin(shorter, sep);
      assert fields[0] == [c] + fields[0][1..];
    }
  }

  lemma {:induction false} NoSepSingleField(t: string, sep: char)
    requires sep !in t
    ensures SplitOn(t, sep) == [t]
    decreases |t|
  {
    if |t| > 0 {
      assert t[0] in t;
      assert sep !in t[1..] by {
        forall k | 0 <= k < |t[1..]| ensures t[1..][k] != sep {
          assert t[1..][k] == t[k + 1];
        }
      }
      NoSepSingleField(t[1..], sep);
      assert t == [t[0]] + t[1..];
    }
  }

  // ---------------------------------------------------------------------
  // str.split() with no argument
  // ---------------------------------------------------------------------

  /** Characters plus one separator per token: a measure that the tokens of a
      string never exceed by more than one. */
  function Weight(tokens: seq<string>): (w: nat)
    ensures forall k :: 0 <= k < |tokens| ==> |tokens[k]| < w
  {
    if |tokens| == 0 then 0 else |tokens[0]| + 1 + Weight(tokens[1..])
  }

  function Concat(tokens: seq<string>): string {
    if |tokens| == 0 then [] else tokens[0] + Concat(tokens[1..])
  }

  function RemoveSpaces(s: string): string {
    if |s| == 0 then []
    else if IsSpace(s[0]) then RemoveSpaces(s[1..])
    else [s[0]] + RemoveSpaces(s[1..])
  }

  /** Python's `s.split()`: maximal runs of non-space characters, in order;
      leading, trailing and repeated whitespace produce no empty tokens. */
  function Split(s: string): (tokens: seq<string>)
    ensures forall k :: 0 <= k < |tokens| ==> |tokens[k]| > 0 && NoSpace(tokens[k])
    ensures |s| > 0 && !IsSpace(s[0]) ==> |tokens| > 0 && tokens[0][0] == s[0]
    ensures Weight(tokens) <= |s| + 1
    decreases |s|
  {
    if |s| == 0 then []
    else
      var rest := Split(s[1..]);
      if IsSpace(s[0]) then rest
      else if |s| > 1 && !IsSpace(s[1]) then [[s[0]] + rest[0]] + rest[1..]
      else
        assert |s| > 1 ==> rest == Split(s[2..]);
        [[s[0]]] + rest
  }

  /** Splitting loses exactly the whitespace: the tokens glued together are
      the input with every space character removed. */
  lemma {:induction false} SplitKeepsText(s: string)
    ensures Concat(Split(s)) == RemoveSpaces(s)
    decreases |s|
  {
    if |s| > 0 {
      SplitKeepsText(s[1..]);
      var rest := Split(s[1..]);
      if !IsSpace(s[0]) && |s| > 1 && !IsSpace(s[1]) {
        assert Split(s) == [[s[0]] + rest[0]] + rest[1..];
        assert Concat(rest) == rest[0] + Concat(rest[1..]);
        assert Concat(Split(s)) == [s[0]] + rest[0] + Concat(rest[1..]);
      } else if !IsSpace(s[0]) {
        assert Split(s) == [[s[0]]] + rest;
        assert Concat(Split(s)) == [s[0]] + Concat(rest);
      }
    }
  }

  /** Tokens that are non-empty and free of whitespace come back unchanged
      after being joined with single spaces and split again. */
  lemma {:induction false} SplitJoin(tokens: seq<string>)
    requires |tokens| >= 1
    requires forall k :: 0 <= k < |tokens| ==> |tokens[k]| > 0 && NoSpace(tokens[k])
    ensures Split(JoinWith(tokens, ' ')) == tokens
    decreases |tokens|, |tokens[0]|
  {
    var t := tokens[0];
    if |t| == 1 {
      if |tokens| == 1 {
        SplitOneChar(t[0]);
        assert [t[0]] == t;
        assert tokens == [t];
      } else {
        SplitJoin(tokens[1..]);
        SplitJoinSingleChar(tokens);
      }
    } else {
      var shorter := [t[1..]] + tokens[1..];
      assert shorter[1..] == tokens[1..];
      assert NoSpace(t[1..]) by {
        forall k | 0 <= k < |t[1..]| ensures !IsSpace(t[1..][k]) {
          assert t[1..][k] == t[k + 1];
        }
      }
      SplitJoin(shorter);
      SplitJoinLonger(tokens, shorter);
    }
  }

  /** A one-character first token, followed by more tokens. */
  lemma SplitJoinSingleChar(tokens: seq<string>)
    requires |tokens| >= 2 && |tokens[0]| == 1 && !IsSpace(tokens[0][0])
    requires Split(JoinWith(tokens[1..], ' ')) == tokens[1..]
    ensures Split(JoinWith(tokens, ' ')) == tokens
  {
    var t := tokens[0];
    var tail := JoinWith(tokens[1..], ' ');
    SplitCharThenSpace(t[0], tail);
    assert [t[0]] == t;
    assert JoinWith(tokens, ' ') == [t[0]] + [' '] + tail;
    assert tokens == [t] + tokens[1..];
  }

  /** A first token of several characters: its first character glued to the
      split of the rest. */
  lemma SplitJoinLonger(tokens: seq<string>, shorter: seq<string>)
    requires |tokens| >= 1 && |tokens[0]| > 1 && !IsSpace(tokens[0][0]) && !IsSpace(tokens[0][1])
    requires shorter == [tokens[0][1..]] + tokens[1..]
    requires Split(JoinWith(shorter, ' ')) == shorter
    ensures Split(JoinWith(tokens, ' ')) == tokens
  {
    var t := tokens[0];
    var rest := JoinWith(shorter, ' ');
    JoinFirstChar(tokens, shorter);
    assert rest[0] == t[1];
    SplitCharThenWord(t[0], rest);
    var sp := Split(rest);
    assert sp == shorter;
    assert [t[0]] + sp[0] == t;
    assert sp[1..] == tokens[1..];
  }

  /** Joining with the first character moved out of the first token. */
  lemma JoinFirstChar(tokens: seq<string>, shorter: seq<string>)
    requires |tokens| >= 1 && |tokens[0]| > 1
    requires shorter == [tokens[0][1..]] + tokens[1..]
    ensures JoinWith(tokens, ' ') == [tokens[0][0]] + JoinWith(shorter, ' ')
  {
    var t := tokens[0];
    assert [t[0]] + t[1..] == t;
    if |tokens| > 1 {
      assert shorter[1..] == tokens[1..];
      assert JoinWith(shorter, ' ') == t[1..] + [' '] + JoinWith(tokens[1..], ' ');
    }
  }

  lemma SplitOneChar(c: char)
    requires !IsSpace(c)
    ensures Split([c]) == [[c]]
  {
    assert [c][1..] == [];
  }

  lemma SplitCharThenSpace(c: char, tail: string)
    requires !IsSpace(c)
    ensures Split([c] + [' '] + tail) == [[c]] + Split(tail)
  {
    var s := [c] + [' '] + tail;
    assert s[1..] == [' '] + tail;
    assert s[1..][1..] == tail;
  }

  lemma SplitCharThenWord(c: char, rest: string)
    requires !IsSpace(c) && |rest| > 0 && !IsSpace(rest[0])
    ensures Split([c] + rest) == [[c] + Split(rest)[0]] + Split(rest)[1..]
  {
    var s := [c] + rest;
    assert s[1..] == rest;
  }

  /** Leading whitespace produces no token. */
  lemma {:induction false} LeadingSpaces(pre: string, rest: string)
    requires AllSpace(pre)
    ensures Split(pre + rest) == Split(rest)
    decreases |pre|
  {
    if |pre| > 0 {
      var s := pre + rest;
      assert s[0] == pre[0] && IsSpace(s[0]);
      assert s[1..] == pre[1..] + rest;
      LeadingSpaces(pre[1..], rest);
    } else {
      assert pre + rest == rest;
    }
  }

  /** Trailing whitespace produces no token. */
  lemma {:induction false} TrailingSpaces(mid: string, post: string)
    requires AllSpace(post)
    ensures Split(mid + post) == Split(mid)
    decreases |mid|
  {
    if |mid| == 0 {
      assert mid + post == post;
      AllSpaces(post);
    } else {
      var s := mid + post;
      assert s[1..] == mid[1..] + post;
      TrailingSpaces(mid[1..], post);
      if |mid| == 1 && |post| > 0 {
        assert IsSpace(s[1]);
        assert Split(mid[1..]) == [];
      }
    }
  }

  /** Whitespace alone has no tokens. */
  lemma {:induction false} AllSpaces(s: string)
    requires AllSpace(s)
    ensures Split(s) == []
    decreases |s|
  {
    if |s| > 0 {
      AllSpaces(s[1..]);
    }
  }

  /** A word followed by a run of whitespace of any length is one token:
      what follows the run is split on its own. */
  lemma {:induction false} SplitWordThenSpaces(t: string, sep: string, rest: string)
    requires |t| > 0 && NoSpace(t)
    requires |sep| > 0 && AllSpace(sep)
    ensures Split(t + sep + rest) == [t] + Split(rest)
    decreases |t|
  {
    var s := t + sep + rest;
    assert s[1..] == t[1..] + sep + rest;
    if |t| == 1 {
      assert t[1..] + sep + rest == sep + rest;
      assert IsSpace(s[1]);
      LeadingSpaces(sep, rest);
      assert [s[0]] == t;
    } else {
      assert NoSpace(t[1..]) by {
        forall k | 0 <= k < |t[1..]| ensures !IsSpace(t[1..][k]) {
          assert t[1..][k] == t[k + 1];
        }
      }
      SplitWordThenSpaces(t[1..], sep, rest);
      assert !IsSpace(s[1]);
      assert [s[0]] + t[1..] == t;
    }
  }

  /** `split()` of words separated by whitespace runs of any length gives
      the words: joining with single spaces is not special. */
  lemma SplitTwoWords(t: string, sep: string, u: string)
    requires |t| > 0 && NoSpace(t) && |u| > 0 && NoSpace(u)
    requires |sep| > 0 && AllSpace(sep)
    ensures Split(t + sep + u) == [t, u]
  {
    SplitWordThenSpaces(t, sep, u);
    SplitJoin([u]);
  }

  // ---------------------------------------------------------------------
  // str.strip() and str.replace(',', ' ')
  // ---------------------------------------------------------------------

  function StripLeft(s: string): (r: string)
    ensures |r| <= |s|
    ensures |r| > 0 ==> !IsSpace(r[0])
    ensures r == s[|s| - |r|..]
    ensures forall k :: 0 <= k < |s| - |r| ==> IsSpace(s[k])
    decreases |s|
  {
    if |s| > 0 && IsSpace(s[0]) then StripLeft(s[1..]) else s
  }

  function StripRight(s: string): (r: string)
    ensures |r| <= |s|
    ensures |r| > 0 ==> !IsSpace(r[|r| - 1])
    ensures r == s[..|r|]
    ensures forall k :: |r| <= k < |s| ==> IsSpace(s[k])
    decreases |s|
  {
    if |s| > 0 && IsSpace(s[|s| - 1]) then StripRight(s[..|s| - 1]) else s
  }

  /** Python's `s.strip()`: the input without leading or trailing
      whitespace. */
  function Strip(s: string): (r: string)
    ensures |r| <= |s|
    ensures |r| > 0 ==> !IsSpace(r[0]) && !IsSpace(r[|r| - 1])
  {
    StripRight(StripLeft(s))
  }

  /** What `strip()` removes is whitespace on either side. */
  lemma StripDecompose(x: string) returns (pre: string, post: string)
    ensures x == pre + Strip(x) + post
    ensures AllSpace(pre) && AllSpace(post)
  {
    var l := StripLeft(x);
    pre := LeftPart(x);
    post := RightPart(l);
    Regroup(pre, StripRight(l), post);
  }

  lemma Regroup(a: string, b: string, c: string)
    ensures a + (b + c) == a + b + c
  {
  }

  lemma LeftPart(x: string) returns (pre: string)
    ensures x == pre + StripLeft(x)
    ensures AllSpace(pre)
  {
    var l := StripLeft(x);
    var n := |x| - |l|;
    pre := x[..n];
    assert l == x[n..];
    assert x == x[..n] + x[n..];
    forall k | 0 <= k < n ensures IsSpace(pre[k]) {
      assert pre[k] == x[k];
    }
  }

  lemma RightPart(l: string) returns (post: string)
    ensures l == StripRight(l) + post
    ensures AllSpace(post)
  {
    var r := StripRight(l);
    post := l[|r|..];
    forall k | 0 <= k < |post| ensures IsSpace(post[k]) {
      assert post[k] == l[|r| + k];
    }
  }

  /** Python's `s.replace(',', ' ')`. */
  function CommasToSpaces(s: string): (r: string)
    ensures |r| == |s|
    ensures forall k :: 0 <= k < |s| ==> r[k] == (if s[k] == ',' then ' ' else s[k])
  {
    seq(|s|, k requires 0 <= k < |s| => if s[k] == ',' then ' ' else s[k])
  }

  // ---------------------------------------------------------------------
  // Decimal numerals
  // ---------------------------------------------------------------------

  function DigitChar(d: nat): char
    requires d < 10
  {
    "0123456789"[d]
  }

  function DigitValue(c: char): nat
    requires IsDigit(c)
  {
    (c as int - '0' as int) as nat
  }

  predicate IsDigit(c: char) {
    '0' <= c <= '9'
  }

  /** Python's `str(n)` for a natural number: the shortest decimal numeral. */
  function NatToString(n: nat): (r: string)
    ensures |r| >= 1
    ensures forall k :: 0 <= k < |r| ==> IsDigit(r[k])
    ensures |r| > 1 ==> r[0] != '0'
    ensures n < 10 <==> |r| == 1
    decreases n
  {
    if n < 10 then [DigitChar(n)] else NatToString(n / 10) + [DigitChar(n % 10)]
  }

  /** The value a numeral of decimal digits denotes. */
  function NumeralValue(s: string): nat
    requires forall k :: 0 <= k < |s| ==> IsDigit(s[k])
  {
    if |s| == 0 then 0 else 10 * NumeralValue(s[..|s| - 1]) + DigitValue(s[|s| - 1])
  }

  /** Reading back a rendered natural gives the number itself, so rendering
      is injective. */
  lemma {:induction false} NatToStringValue(n: nat)
    ensures NumeralValue(NatToString(n)) == n
    decreases n
  {
    var r := NatToString(n);
    if n >= 10 {
      NatToStringValue(n / 10);
      DigitRoundTrip(n % 10);
      assert r[..|r| - 1] == NatToString(n / 10);
      assert r[|r| - 1] == DigitChar(n % 10);
    } else {
      DigitRoundTrip(n);
    }
  }

  lemma DigitRoundTrip(d: nat)
    requires d < 10
    ensures IsDigit(DigitChar(d)) && DigitValue(DigitChar(d)) == d
  {
  }

  lemma NatToStringInjective(a: nat, b: nat)
    requires NatToString(a) == NatToString(b)
    ensures a == b
  {
    NatToStringValue(a);
    NatToStringValue(b);
  }

  /** A strict decimal integer reader (optional sign, then one or more
      digits): one concrete instance of the converter the parser takes as a
      parameter, used to state the examples. */
  function ParseDecimal(s: string): Option<int> {
    if |s| > 0 && (s[0] == '-' || s[0] == '+') then
      var mag := ParseDigits(s[1..]);
      if mag.None? then None
      else
        var m: int := mag.value;
        var v := if s[0] == '-' then -m else m;
        Some(v)
    else
      ParseDigits(s)
  }

  function ParseDigits(s: string): Option<nat> {
    if |s| > 0 && forall k :: 0 <= k < |s| ==> IsDigit(s[k]) then Some(NumeralValue(s)) else None
  }
}
