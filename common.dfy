/** Small shared vocabulary: an optional value, sums and Python's integer division. */
module Common {

  /** A value that may be missing (Python's `None`). */
  datatype Option<T> = None | Some(value: T) {
    /** The value, or `default` when missing (Python's `x or default` / `dict.get(k, default)`). */
    function GetOr(default: T): T {
      if Some? then value else default
    }
  }

  /** The sum of a sequence of integers, accumulated from the front (Python's `sum`). */
  function Sum(xs: seq<int>): int {
    if xs == [] then 0 else Sum(xs[..|xs| - 1]) + xs[|xs| - 1]
  }

  lemma SumAppend(xs: seq<int>, x: int)
    ensures Sum(xs + [x]) == Sum(xs) + x
  {
    assert (xs + [x])[..|xs|] == xs;
  }

  lemma {:induction false} SumPrepend(x: int, xs: seq<int>)
    ensures Sum([x] + xs) == x + Sum(xs)
    decreases |xs|
  {
    if xs == [] {
      assert [x] + xs == [x];
      assert [x][..0] == [];
    } else {
      var init := xs[..|xs| - 1];
      assert ([x] + xs)[..|xs|] == [x] + init;
      SumPrepend(x, init);
    }
  }

  /** Python's `a // b`: the quotient rounded towards minus infinity. */
  function FloorDiv(a: int, b: int): (q: int)
    requires b != 0
    ensures b * q <= a < b * q + b || b * q + b < a <= b * q
  {
    if b > 0 then a / b else (-a) / (-b)
  }

  /** The smallest element of a non-empty sequence (Python's `min`). */
  function MinOf(xs: seq<int>): (m: int)
    requires xs != []
    ensures m in xs
    ensures forall i | 0 <= i < |xs| :: m <= xs[i]
  {
    if |xs| == 1 then xs[0]
    else
      var rest := MinOf(xs[..|xs| - 1]);
      if xs[|xs| - 1] < rest then xs[|xs| - 1] else rest
  }

  /** The largest element of a non-empty sequence (Python's `max`). */
  function MaxOf(xs: seq<int>): (m: int)
    requires xs != []
    ensures m in xs
    ensures forall i | 0 <= i < |xs| :: xs[i] <= m
  {
    if |xs| == 1 then xs[0]
    else
      var rest := MaxOf(xs[..|xs| - 1]);
      if xs[|xs| - 1] > rest then xs[|xs| - 1] else rest
  }

  /** Sums are bounded by the sequence's extremes: min * n <= sum <= max * n. */
  lemma {:induction false} SumBounds(xs: seq<int>, lo: int, hi: int)
    requires forall i | 0 <= i < |xs| :: lo <= xs[i] <= hi
    ensures lo * |xs| <= Sum(xs) <= hi * |xs|
  {
    if xs != [] {
      SumBounds(xs[..|xs| - 1], lo, hi);
    }
  }

  /** A mean lies between the bounds of what it averages: lo * n <= s <= hi * n gives lo <= s / n <= hi. */
  lemma MeanBetween(lo: int, hi: int, s: int, n: nat)
    requires n > 0 && lo * n <= s <= hi * n
    ensures lo as real <= s as real / n as real <= hi as real
  {
    var q := s as real / n as real;
    assert q * n as real == s as real;
    assert (q - lo as real) * n as real >= 0.0;
    assert (hi as real - q) * n as real >= 0.0;
  }

  /** For a positive lower bound, hi / lo is at least 1, and exceeds k exactly when hi exceeds k * lo. */
  lemma RatioFacts(lo: int, hi: int, k: int)
    requires 0 < lo <= hi
    ensures hi as real / lo as real >= 1.0
    ensures hi as real / lo as real > k as real <==> hi > k * lo
  {
    var q := hi as real / lo as real;
    assert q * lo as real == hi as real;
    assert (q - 1.0) * lo as real == (hi - lo) as real;
    FactorSign(q - 1.0, lo as real);
    assert (q - k as real) * lo as real == (hi - k * lo) as real;
    FactorSign(q - k as real, lo as real);
  }

  /** A positive factor does not change the sign of a product. */
  lemma FactorSign(x: real, y: real)
    requires y > 0.0
    ensures x * y >= 0.0 <==> x >= 0.0
    ensures x * y > 0.0 <==> x > 0.0
  {
    if x < 0.0 {
      assert -x * y > 0.0;
    }
  }
}
