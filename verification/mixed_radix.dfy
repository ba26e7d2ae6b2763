/** Mixed-radix numbering of the combinations of a parameter sweep: digit
    `k` ranges over `[0, dims[k])`, and digit 0 varies fastest, so
    `Compose([d0, d1, d2], [n0, n1, n2]) == d0 + n0 * (d1 + n1 * d2)`. */
module MixedRadix {

  /** The number of combinations: the product of the dimension sizes, 1
      when there are none. */
  function Product(dims: seq<nat>): nat {
    if |dims| == 0 then 1 else dims[0] * Product(dims[1..])
  }

  predicate ValidDigits(digits: seq<nat>, dims: seq<nat>) {
    |digits| == |dims| && forall k :: 0 <= k < |dims| ==> digits[k] < dims[k]
  }

  /** The index of a combination given one digit per dimension. */
  function Compose(digits: seq<nat>, dims: seq<nat>): nat
    requires |digits| == |dims|
  {
    if |dims| == 0 then 0 else digits[0] + dims[0] * Compose(digits[1..], dims[1..])
  }

  lemma {:induction false} MulMonotone(d: nat, a: int, b: int)
    requires a <= b
    ensures d * a <= d * b
    decreases d
  {
    if d > 0 {
      MulMonotone(d - 1, a, b);
      assert d * a == (d - 1) * a + a;
      assert d * b == (d - 1) * b + b;
    }
  }

  lemma MulBelow(d: nat, c: nat, p: nat)
    requires c < p
    ensures d * c <= d * p - d
  {
    MulMonotone(d, c, p - 1);
    assert d * (p - 1) == d * p - d;
  }

  lemma DivBelow(i: nat, d: nat, p: nat)
    requires d > 0 && i < d * p
    ensures i / d < p
  {
    if i / d >= p {
      MulMonotone(d, p, i / d);
    }
  }

  lemma DivModUnique(a: nat, d: nat, c: nat)
    requires a < d
    ensures (a + d * c) / d == c && (a + d * c) % d == a
  {
    var q, r := (a + d * c) / d, (a + d * c) % d;
    assert a + d * c == d * q + r;
    assert d * (q - c) == a - r by {
      assert d * (q - c) == d * q - d * c;
    }
    if q > c {
      MulMonotone(d, 1, q - c);
    } else if q < c {
      MulMonotone(d, 1, c - q);
    }
  }

  lemma HeadPositive(dims: seq<nat>)
    requires |dims| > 0 && Product(dims) > 0
    ensures dims[0] > 0
  {
  }

  /** Every valid digit vector addresses one of the `Product(dims)`
      combinations. */
  lemma {:induction false} ComposeBound(digits: seq<nat>, dims: seq<nat>)
    requires ValidDigits(digits, dims)
    ensures Compose(digits, dims) < Product(dims)
  {
    if |dims| > 0 {
      ComposeBound(digits[1..], dims[1..]);
      MulBelow(dims[0], Compose(digits[1..], dims[1..]), Product(dims[1..]));
    }
  }

  /** The digits of index `i`: digit `k` is `(i / (n0 * ... * n(k-1))) % nk`. */
  function Decompose(i: nat, dims: seq<nat>): (digits: seq<nat>)
    requires i < Product(dims)
    ensures ValidDigits(digits, dims)
    decreases |dims|
  {
    if |dims| == 0 then []
    else
      HeadPositive(dims);
      var d := dims[0];
      DivBelow(i, d, Product(dims[1..]));
      var rest := Decompose(i / d, dims[1..]);
      [i % d] + rest
  }

  /** Decomposing and composing again gives back the index. */
  lemma {:induction false} ComposeDecompose(i: nat, dims: seq<nat>)
    requires i < Product(dims)
    ensures Compose(Decompose(i, dims), dims) == i
    decreases |dims|
  {
    if |dims| > 0 {
      var d := dims[0];
      HeadPositive(dims);
      var digits := Decompose(i, dims);
      DivBelow(i, d, Product(dims[1..]));
      var q := i / d;
      assert digits[0] == i % d;
      assert digits[1..] == Decompose(q, dims[1..]);
      ComposeDecompose(q, dims[1..]);
      assert Compose(digits, dims) == i % d + d * Compose(digits[1..], dims[1..]);
      DivModSum(i, d);
    }
  }

  lemma DivModSum(i: nat, d: nat)
    requires d > 0
    ensures i % d + d * (i / d) == i
  {
  }

  /** Composing and decomposing again gives back the digits. */
  lemma {:induction false} DecomposeCompose(digits: seq<nat>, dims: seq<nat>)
    requires ValidDigits(digits, dims)
    ensures Compose(digits, dims) < Product(dims)
    ensures Decompose(Compose(digits, dims), dims) == digits
  {
    ComposeBound(digits, dims);
    if |dims| > 0 {
      var d, c := dims[0], Compose(digits[1..], dims[1..]);
      DivModUnique(digits[0], d, c);
      DecomposeCompose(digits[1..], dims[1..]);
      assert digits == [digits[0]] + digits[1..];
    }
  }

  /** Index and digit vector determine each other. */
  lemma IndexIffDigits(i: nat, digits: seq<nat>, dims: seq<nat>)
    requires i < Product(dims) && ValidDigits(digits, dims)
    ensures Decompose(i, dims) == digits <==> i == Compose(digits, dims)
  {
    ComposeDecompose(i, dims);
    DecomposeCompose(digits, dims);
  }
}
