/** `SimulationParameters`: named parameters, some of them marked for
    unpacking. The unpacked ones span a grid of variations, numbered in
    mixed radix with the first-marked parameter varying fastest. */
module Parameters {
  import opened Outcomes
  import opened MixedRadix

  /** A parameter is one value or an ordered list of values. */
  datatype Param<V> = Scalar(value: V) | Values(items: seq<V>)

  datatype ParamError =
    | InvalidParameterKind  // unpacking a scalar or a name that is not there
    | InvalidValue          // a fixed value outside the parameter's values

  /** The parameters by name, and the unpacked names in the order they were
      marked. */
  datatype Space<V> = Space(params: map<string, Param<V>>, unpacked: seq<string>)

  /** One variation: every unpacked parameter replaced by one of its
      values, together with its index and the space it came from. */
  datatype Variation<V> = Variation(params: map<string, Param<V>>, unpackIndex: nat, origin: Space<V>)

  /** The parameter name that equality ignores. */
  const RepMax := "rep_max"

  predicate Distinct<T(==)>(xs: seq<T>) {
    forall i, j :: 0 <= i < j < |xs| ==> xs[i] != xs[j]
  }

  /** Only list parameters are unpacked, each at most once. */
  predicate Valid<V>(sp: Space<V>) {
    && Distinct(sp.unpacked)
    && forall n :: n in sp.unpacked ==> n in sp.params && sp.params[n].Values?
  }

  /** The first position of `x` in `xs`. */
  function Position<T(==)>(xs: seq<T>, x: T): (p: nat)
    requires x in xs
    ensures p < |xs| && xs[p] == x
    ensures forall j :: 0 <= j < p ==> xs[j] != x
  {
    if xs[0] == x then 0 else 1 + Position(xs[1..], x)
  }

  lemma PositionOfDistinct<T>(xs: seq<T>, k: nat)
    requires Distinct(xs) && k < |xs|
    ensures Position(xs, xs[k]) == k
  {
  }

  /** `xs` without `x`, the rest in order. */
  function Remove(xs: seq<string>, x: string): (r: seq<string>)
    ensures forall y :: y in r <==> y in xs && y != x
    ensures Distinct(xs) ==> Distinct(r)
  {
    if |xs| == 0 then []
    else if xs[0] == x then Remove(xs[1..], x)
    else
      var rest := Remove(xs[1..], x);
      assert Distinct(xs) ==> xs[0] !in xs[1..];
      [xs[0]] + rest
  }

  // ---------------------------------------------------------------------
  // Building a space
  // ---------------------------------------------------------------------

  /** `SimulationParameters.create(dict)`: the parameters, nothing unpacked. */
  function Create<V>(params: map<string, Param<V>>): (sp: Space<V>)
    ensures Valid(sp) && sp.params == params
    ensures NumVariations(sp) == 1
  {
    Space(params, [])
  }

  /** `add(name, value)`: sets one parameter, leaving the others and the
      unpacked names alone. */
  function Add<V>(sp: Space<V>, name: string, p: Param<V>): (r: Space<V>)
    ensures name in r.params && r.params[name] == p
    ensures forall n :: n != name ==> (n in r.params <==> n in sp.params)
    ensures forall n :: n != name && n in sp.params ==> r.params[n] == sp.params[n]
    ensures r.unpacked == sp.unpacked
    ensures Valid(sp) && (name in sp.unpacked ==> p.Values?) ==> Valid(r)
  {
    Space(sp.params[name := p], sp.unpacked)
  }

  /** `set_unpack_parameter(name, flag)`: marks (or unmarks) `name` for
      unpacking. Marking needs a list parameter; unmarking drops the name. */
  function SetUnpack<V>(sp: Space<V>, name: string, flag: bool): (r: Result<Space<V>, ParamError>)
    requires Valid(sp)
    ensures r.Err? <==> name !in sp.params || (flag && sp.params[name].Scalar?)
    ensures r.Err? ==> r.error == InvalidParameterKind
    ensures r.Ok? ==> Valid(r.value) && r.value.params == sp.params
    ensures r.Ok? && flag ==> forall n :: n in r.value.unpacked <==> n in sp.unpacked || n == name
    ensures r.Ok? && !flag ==> forall n :: n in r.value.unpacked <==> n in sp.unpacked && n != name
  {
    if name !in sp.params then Err(InvalidParameterKind)
    else if !flag then Ok(Space(sp.params, Remove(sp.unpacked, name)))
    else if sp.params[name].Scalar? then Err(InvalidParameterKind)
    else if name in sp.unpacked then Ok(sp)
    else Ok(Space(sp.params, sp.unpacked + [name]))
  }

  // ---------------------------------------------------------------------
  // Variations
  // ---------------------------------------------------------------------

  /** The length of every unpacked parameter, in unpacking order. */
  function Dims<V>(sp: Space<V>): (dims: seq<nat>)
    requires Valid(sp)
    ensures |dims| == |sp.unpacked|
    ensures forall k :: 0 <= k < |dims| ==> dims[k] == |sp.params[sp.unpacked[k]].items|
  {
    seq(|sp.unpacked|, k requires 0 <= k < |sp.unpacked| => |sp.params[sp.unpacked[k]].items|)
  }

  /** `get_num_unpacked_variations()`. */
  function NumVariations<V>(sp: Space<V>): nat
    requires Valid(sp)
  {
    Product(Dims(sp))
  }

  lemma {:induction false} ProductAppend(dims: seq<nat>, n: nat)
    ensures Product(dims + [n]) == Product(dims) * n
    decreases |dims|
  {
    if |dims| == 0 {
      assert dims + [n] == [n];
      assert [n][1..] == [];
    } else {
      assert (dims + [n])[1..] == dims[1..] + [n];
      ProductAppend(dims[1..], n);
      assert Product(dims + [n]) == dims[0] * (Product(dims[1..]) * n);
    }
  }

  /** Unpacking one more list parameter multiplies the number of variations
      by its length; nothing unpacked means a single variation. */
  lemma UnpackMultiplies<V>(sp: Space<V>, name: string)
    requires Valid(sp) && name in sp.params && sp.params[name].Values? && name !in sp.unpacked
    ensures SetUnpack(sp, name, true).Ok?
    ensures NumVariations(SetUnpack(sp, name, true).value) == NumVariations(sp) * |sp.params[name].items|
  {
    var r := SetUnpack(sp, name, true).value;
    assert r.unpacked == sp.unpacked + [name];
    assert Dims(r) == Dims(sp) + [|sp.params[name].items|];
    ProductAppend(Dims(sp), |sp.params[name].items|);
  }

  /** The parameters of the variation whose unpacked digits are `digits`. */
  function Assigned<V>(sp: Space<V>, digits: seq<nat>): map<string, Param<V>>
    requires Valid(sp) && ValidDigits(digits, Dims(sp))
  {
    map n | n in sp.params ::
      if n in sp.unpacked then
        var k := Position(sp.unpacked, n);
        Scalar(sp.params[n].items[digits[k]])
      else sp.params[n]
  }

  /** Element `i` of `get_unpacked_params_list()`. */
  function VariationAt<V>(sp: Space<V>, i: nat): (v: Variation<V>)
    requires Valid(sp) && i < NumVariations(sp)
    ensures v.unpackIndex == i && v.origin == sp
    ensures v.params.Keys == sp.params.Keys
    ensures forall n :: n in sp.params && n !in sp.unpacked ==> v.params[n] == sp.params[n]
  {
    Variation(Assigned(sp, Decompose(i, Dims(sp))), i, sp)
  }

  /** The value an unpacked parameter takes in variation `i`: its entry at
      the matching mixed-radix digit. */
  lemma VariationValue<V>(sp: Space<V>, i: nat, k: nat)
    requires Valid(sp) && i < NumVariations(sp) && k < |sp.unpacked|
    ensures var d := Decompose(i, Dims(sp));
      VariationAt(sp, i).params[sp.unpacked[k]] == Scalar(sp.params[sp.unpacked[k]].items[d[k]])
  {
    PositionOfDistinct(sp.unpacked, k);
  }

  /** `get_unpacked_params_list()`: one variation per index, in index order. */
  function Variations<V>(sp: Space<V>): (vs: seq<Variation<V>>)
    requires Valid(sp)
    ensures |vs| == NumVariations(sp)
    ensures forall i :: 0 <= i < |vs| ==> vs[i].unpackIndex == i && vs[i].origin == sp
  {
    seq(NumVariations(sp), i requires 0 <= i < NumVariations(sp) => VariationAt(sp, i))
  }

  /** With nothing unpacked the list holds just the parameters themselves. */
  lemma NothingUnpacked<V>(sp: Space<V>)
    requires Valid(sp) && |sp.unpacked| == 0
    ensures Variations(sp) == [Variation(sp.params, 0, sp)]
  {
    assert Dims(sp) == [];
    assert Decompose(0, []) == [];
    assert Assigned(sp, []) == sp.params;
  }

  /** Every choice of one value per unpacked parameter is the variation at
      index `Compose(digits, Dims(sp))`. */
  lemma EveryChoiceListed<V>(sp: Space<V>, digits: seq<nat>)
    requires Valid(sp) && ValidDigits(digits, Dims(sp))
    ensures Compose(digits, Dims(sp)) < NumVariations(sp)
    ensures forall k :: 0 <= k < |sp.unpacked| ==>
      VariationAt(sp, Compose(digits, Dims(sp))).params[sp.unpacked[k]] == Scalar(sp.params[sp.unpacked[k]].items[digits[k]])
  {
    DecomposeCompose(digits, Dims(sp));
    forall k | 0 <= k < |sp.unpacked|
      ensures VariationAt(sp, Compose(digits, Dims(sp))).params[sp.unpacked[k]] == Scalar(sp.params[sp.unpacked[k]].items[digits[k]])
    {
      VariationValue(sp, Compose(digits, Dims(sp)), k);
    }
  }

  // ---------------------------------------------------------------------
  // get_pack_indexes
  // ---------------------------------------------------------------------

  /** Whether variation `i` has digit `targets[k]` wherever one is given. */
  predicate Matches<V>(sp: Space<V>, targets: seq<Option<nat>>, i: nat)
    requires Valid(sp) && |targets| == |sp.unpacked| && i < NumVariations(sp)
  {
    var d := Decompose(i, Dims(sp));
    forall k :: 0 <= k < |targets| && targets[k].Some? ==> d[k] == targets[k].value
  }

  predicate Increasing(xs: seq<nat>) {
    forall i, j :: 0 <= i < j < |xs| ==> xs[i] < xs[j]
  }

  /** The matching indexes below `n`, in increasing order. */
  function MatchingBelow<V>(sp: Space<V>, targets: seq<Option<nat>>, n: nat): (r: seq<nat>)
    requires Valid(sp) && |targets| == |sp.unpacked| && n <= NumVariations(sp)
    ensures Increasing(r)
    ensures forall i: nat :: i in r <==> i < n && Matches(sp, targets, i)
  {
    if n == 0 then []
    else
      var below := MatchingBelow(sp, targets, n - 1);
      if Matches(sp, targets, n - 1) then
        AppendLarger(below, n - 1);
        below + [n - 1]
      else below
  }

  /** Appending an element larger than all others keeps a list increasing. */
  lemma AppendLarger(xs: seq<nat>, x: nat)
    requires Increasing(xs) && forall i: nat :: i in xs ==> i < x
    ensures Increasing(xs + [x])
    ensures forall i: nat :: i in xs + [x] <==> i in xs || i == x
  {
    forall j | 0 <= j < |xs| ensures xs[j] < x {
      assert xs[j] in xs;
    }
  }

  /** A fixed name is usable when it is unpacked and its value is one of
      the parameter's values. */
  predicate Fixable<V(==)>(sp: Space<V>, fixed: map<string, V>, n: string)
    requires Valid(sp) && n in fixed
  {
    n in sp.unpacked && fixed[n] in sp.params[n].items
  }

  /** The digit each unpacked parameter is fixed to, if any: the position of
      the first occurrence of the given value. */
  function Targets<V(==)>(sp: Space<V>, fixed: map<string, V>): (t: seq<Option<nat>>)
    requires Valid(sp) && forall n :: n in fixed ==> Fixable(sp, fixed, n)
    ensures |t| == |sp.unpacked|
    ensures forall k :: 0 <= k < |t| ==> (t[k].Some? <==> sp.unpacked[k] in fixed)
    ensures forall k :: 0 <= k < |t| && t[k].Some? ==> t[k].value < Dims(sp)[k]
  {
    seq(|sp.unpacked|, k requires 0 <= k < |sp.unpacked| =>
      var n := sp.unpacked[k];
      if n in fixed then (assert Fixable(sp, fixed, n); Some(Position(sp.params[n].items, fixed[n]))) else None)
  }

  /** Variation `i` takes the fixed value of every fixed parameter. */
  ghost predicate Agrees<V>(sp: Space<V>, fixed: map<string, V>, i: nat)
    requires Valid(sp) && i < NumVariations(sp)
  {
    forall n :: n in fixed ==> n in VariationAt(sp, i).params && VariationAt(sp, i).params[n] == Scalar(fixed[n])
  }

  /** `get_pack_indexes(fixed_params)` as a list: the indexes of the
      variations with the given values. */
  function PackIndexes<V(==)>(sp: Space<V>, fixed: map<string, V>): (r: Result<seq<nat>, ParamError>)
    requires Valid(sp)
    ensures r.Err? <==> exists n :: n in fixed && !Fixable(sp, fixed, n)
    ensures r.Err? ==> r.error == InvalidValue
    ensures r.Ok? ==> Increasing(r.value)
    ensures r.Ok? ==> forall i :: i in r.value ==> i < NumVariations(sp) && Agrees(sp, fixed, i)
  {
    if exists n :: n in fixed && !Fixable(sp, fixed, n) then Err(InvalidValue)
    else
      var t := Targets(sp, fixed);
      var r := MatchingBelow(sp, t, NumVariations(sp));
      assert forall i :: i in r ==> Agrees(sp, fixed, i) by {
        forall i | i in r ensures Agrees(sp, fixed, i) {
          MatchingAgrees(sp, fixed, i);
        }
      }
      Ok(r)
  }

  /** A variation whose digits match the targets takes every fixed value. */
  lemma MatchingAgrees<V>(sp: Space<V>, fixed: map<string, V>, i: nat)
    requires Valid(sp) && forall n :: n in fixed ==> Fixable(sp, fixed, n)
    requires i < NumVariations(sp) && Matches(sp, Targets(sp, fixed), i)
    ensures Agrees(sp, fixed, i)
  {
    forall n | n in fixed
      ensures n in VariationAt(sp, i).params && VariationAt(sp, i).params[n] == Scalar(fixed[n])
    {
      var k := Position(sp.unpacked, n);
      VariationValue(sp, i, k);
    }
  }

  /** With no digit fixed every index below `n` matches. */
  lemma {:induction false} MatchingBelowAll<V>(sp: Space<V>, targets: seq<Option<nat>>, n: nat)
    requires Valid(sp) && |targets| == |sp.unpacked| && n <= NumVariations(sp)
    requires forall k :: 0 <= k < |targets| ==> targets[k].None?
    ensures MatchingBelow(sp, targets, n) == seq(n, i => i)
    decreases n
  {
    if n > 0 {
      MatchingBelowAll(sp, targets, n - 1);
      assert Matches(sp, targets, n - 1);
      UpToStep(n);
    }
  }

  lemma UpToStep(n: nat)
    requires n > 0
    ensures seq(n - 1, i => i) + [n - 1] == seq(n, i => i)
  {
  }

  /** Fixing nothing selects every variation, in order. */
  lemma PackIndexesNothingFixed<V>(sp: Space<V>)
    requires Valid(sp)
    ensures PackIndexes(sp, map[]) == Ok(seq(NumVariations(sp), i => i))
  {
    MatchingBelowAll(sp, Targets(sp, map[]), NumVariations(sp));
  }

  /** When every fixed parameter lists distinct values, the indexes are
      exactly the variations that agree with the fixed values. */
  lemma PackIndexesComplete<V>(sp: Space<V>, fixed: map<string, V>, i: nat)
    requires Valid(sp) && PackIndexes(sp, fixed).Ok? && i < NumVariations(sp)
    requires forall n :: n in fixed ==> Distinct(sp.params[n].items)
    ensures i in PackIndexes(sp, fixed).value <==> Agrees(sp, fixed, i)
  {
    if Agrees(sp, fixed, i) {
      var t := Targets(sp, fixed);
      var d := Decompose(i, Dims(sp));
      forall k | 0 <= k < |t| && t[k].Some? ensures d[k] == t[k].value {
        var n := sp.unpacked[k];
        VariationValue(sp, i, k);
        PositionOfDistinct(sp.params[n].items, d[k]);
      }
      assert Matches(sp, t, i);
    }
  }

  /** The one element of an increasing list that holds exactly `c`. */
  lemma OnlyElement(xs: seq<nat>, c: nat)
    requires Increasing(xs) && forall i :: i in xs <==> i == c
    ensures xs == [c]
  {
    assert c in xs;
    assert xs[0] in xs && xs[|xs| - 1] in xs;
  }

  /** The digits of a variation fixed in every unpacked parameter. */
  function FixedDigits<V(==)>(sp: Space<V>, fixed: map<string, V>): (digits: seq<nat>)
    requires Valid(sp) && forall n :: n in fixed ==> Fixable(sp, fixed, n)
    requires forall k :: 0 <= k < |sp.unpacked| ==> sp.unpacked[k] in fixed
    ensures ValidDigits(digits, Dims(sp))
    ensures forall k :: 0 <= k < |digits| ==>
      sp.params[sp.unpacked[k]].items[digits[k]] == fixed[sp.unpacked[k]]
  {
    var t := Targets(sp, fixed);
    seq(|t|, k requires 0 <= k < |t| => t[k].value)
  }

  /** Fixing every unpacked parameter leaves exactly one index: the
      mixed-radix composition of the fixed values' positions. */
  lemma PackIndexesAllFixed<V>(sp: Space<V>, fixed: map<string, V>)
    requires Valid(sp) && forall n :: n in fixed ==> Fixable(sp, fixed, n)
    requires forall k :: 0 <= k < |sp.unpacked| ==> sp.unpacked[k] in fixed
    ensures PackIndexes(sp, fixed) == Ok([Compose(FixedDigits(sp, fixed), Dims(sp))])
  {
    var digits := FixedDigits(sp, fixed);
    var t := Targets(sp, fixed);
    var c := Compose(digits, Dims(sp));
    DecomposeCompose(digits, Dims(sp));
    var r := MatchingBelow(sp, t, NumVariations(sp));
    assert PackIndexes(sp, fixed) == Ok(r);
    forall i: nat ensures i in r <==> i == c {
      if i < NumVariations(sp) {
        MatchesOnlyAt(sp, t, digits, i);
      }
    }
    OnlyElement(r, c);
  }

  /** With every digit given, the one matching variation is the
      composition of the digits. */
  lemma MatchesOnlyAt<V>(sp: Space<V>, t: seq<Option<nat>>, digits: seq<nat>, i: nat)
    requires Valid(sp) && |t| == |sp.unpacked| && i < NumVariations(sp)
    requires ValidDigits(digits, Dims(sp))
    requires forall k :: 0 <= k < |t| ==> t[k] == Some(digits[k])
    ensures Matches(sp, t, i) <==> i == Compose(digits, Dims(sp))
  {
    IndexIffDigits(i, digits, Dims(sp));
    var d := Decompose(i, Dims(sp));
    if Matches(sp, t, i) {
      assert d == digits;
    }
  }

  /** When every unpacked parameter lists distinct values, fixing each of
      them to the value at position `digits[k]` selects the single index
      `Compose(digits, Dims(sp))`. */
  lemma PackIndexesOfDigits<V>(sp: Space<V>, fixed: map<string, V>, digits: seq<nat>)
    requires Valid(sp) && ValidDigits(digits, Dims(sp))
    requires forall n :: n in fixed ==> n in sp.unpacked
    requires forall k :: 0 <= k < |sp.unpacked| ==> (sp.unpacked[k] in fixed
      && Distinct(sp.params[sp.unpacked[k]].items)
      && sp.params[sp.unpacked[k]].items[digits[k]] == fixed[sp.unpacked[k]])
    ensures PackIndexes(sp, fixed) == Ok([Compose(digits, Dims(sp))])
  {
    DigitsFixable(sp, fixed, digits);
    PackIndexesAllFixed(sp, fixed);
    SameDigits(sp, fixed, digits);
  }

  lemma DigitsFixable<V>(sp: Space<V>, fixed: map<string, V>, digits: seq<nat>)
    requires Valid(sp) && ValidDigits(digits, Dims(sp))
    requires forall n :: n in fixed ==> n in sp.unpacked
    requires forall k :: 0 <= k < |sp.unpacked| ==> (sp.unpacked[k] in fixed
      && sp.params[sp.unpacked[k]].items[digits[k]] == fixed[sp.unpacked[k]])
    ensures forall n :: n in fixed ==> Fixable(sp, fixed, n)
  {
    forall n | n in fixed ensures Fixable(sp, fixed, n) {
      var k := Position(sp.unpacked, n);
      assert sp.params[n].items[digits[k]] == fixed[n];
    }
  }

  lemma SameDigits<V>(sp: Space<V>, fixed: map<string, V>, digits: seq<nat>)
    requires Valid(sp) && ValidDigits(digits, Dims(sp))
    requires forall n :: n in fixed ==> Fixable(sp, fixed, n)
    requires forall k :: 0 <= k < |sp.unpacked| ==> (sp.unpacked[k] in fixed
      && Distinct(sp.params[sp.unpacked[k]].items)
      && sp.params[sp.unpacked[k]].items[digits[k]] == fixed[sp.unpacked[k]])
    ensures FixedDigits(sp, fixed) == digits
  {
    var fd := FixedDigits(sp, fixed);
    forall k | 0 <= k < |digits| ensures fd[k] == digits[k] {
      PositionOfDistinct(sp.params[sp.unpacked[k]].items, digits[k]);
    }
  }

  datatype PackResult = Single(index: nat) | Many(indexes: seq<nat>)

  /** `get_pack_indexes` as the tests see it: a bare index when every
      unpacked parameter is fixed, a list otherwise. */
  function GetPackIndexes<V(==)>(sp: Space<V>, fixed: map<string, V>): (r: Result<PackResult, ParamError>)
    requires Valid(sp)
    ensures r.Err? <==> PackIndexes(sp, fixed).Err?
    ensures r.Ok? && r.value.Many? ==> r.value.indexes == PackIndexes(sp, fixed).value
    ensures r.Ok? && r.value.Single? ==> PackIndexes(sp, fixed).value == [r.value.index]
    ensures r.Ok? ==> (r.value.Single? <==> forall k :: 0 <= k < |sp.unpacked| ==> sp.unpacked[k] in fixed)
  {
    var all := PackIndexes(sp, fixed);
    if all.Err? then Err(all.error)
    else if forall k :: 0 <= k < |sp.unpacked| ==> sp.unpacked[k] in fixed then
      PackIndexesAllFixed(sp, fixed);
      Ok(Single(all.value[0]))
    else Ok(Many(all.value))
  }

  /** `get_pack_indexes` with every unpacked parameter fixed to the
      value at its digit: the single index those digits compose. */
  lemma GetPackIndexesOfDigits<V>(sp: Space<V>, fixed: map<string, V>, digits: seq<nat>)
    requires Valid(sp) && ValidDigits(digits, Dims(sp))
    requires forall n :: n in fixed ==> n in sp.unpacked
    requires forall k :: 0 <= k < |sp.unpacked| ==> (sp.unpacked[k] in fixed
      && Distinct(sp.params[sp.unpacked[k]].items)
      && sp.params[sp.unpacked[k]].items[digits[k]] == fixed[sp.unpacked[k]])
    ensures GetPackIndexes(sp, fixed) == Ok(Single(Compose(digits, Dims(sp))))
  {
    PackIndexesOfDigits(sp, fixed, digits);
  }

  // ---------------------------------------------------------------------
  // Equality
  // ---------------------------------------------------------------------

  function UnpackedSet(sp: Space): set<string> {
    set n | n in sp.unpacked
  }

  /** `__eq__`: the same parameters apart from `rep_max`, and the same
      unpacked names in any order. */
  predicate SameSpace<V(==)>(a: Space<V>, b: Space<V>) {
    a.params - {RepMax} == b.params - {RepMax} && UnpackedSet(a) == UnpackedSet(b)
  }

  /** Setting `rep_max` on either side never changes equality. */
  lemma RepMaxIgnored<V>(a: Space<V>, b: Space<V>, x: Param<V>, y: Param<V>)
    ensures SameSpace(Add(a, RepMax, x), Add(b, RepMax, y)) <==> SameSpace(a, b)
  {
    assert Add(a, RepMax, x).params - {RepMax} == a.params - {RepMax};
    assert Add(b, RepMax, y).params - {RepMax} == b.params - {RepMax};
  }

  /** Equality notices any other parameter. */
  lemma OtherParamsMatter<V>(a: Space<V>, b: Space<V>, name: string, x: Param<V>)
    requires SameSpace(a, b) && name != RepMax && name in b.params && b.params[name] != x
    ensures !SameSpace(Add(a, name, x), b)
  {
    assert (Add(a, name, x).params - {RepMax})[name] == x;
  }

  /** The order in which names are marked does not matter to equality. */
  lemma UnpackOrderIrrelevant<V>(sp: Space<V>, m: string, n: string)
    requires Valid(sp)
    requires SetUnpack(sp, m, true).Ok? && SetUnpack(SetUnpack(sp, m, true).value, n, true).Ok?
    ensures SetUnpack(sp, n, true).Ok? && SetUnpack(SetUnpack(sp, n, true).value, m, true).Ok?
    ensures SameSpace(SetUnpack(SetUnpack(sp, m, true).value, n, true).value,
                      SetUnpack(SetUnpack(sp, n, true).value, m, true).value)
  {
    var a := SetUnpack(SetUnpack(sp, m, true).value, n, true).value;
    var b := SetUnpack(SetUnpack(sp, n, true).value, m, true).value;
    assert UnpackedSet(a) == UnpackedSet(b);
  }
}
