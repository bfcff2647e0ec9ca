/** Integer bounds, minimum and maximum, and sums over sequences. */
module Numbers {
  const I64_MIN := -0x8000_0000_0000_0000
  const I64_MAX := 0x7fff_ffff_ffff_ffff

  function Max(a: int, b: int): int {
    if a < b then b else a
  }

  function Min(a: int, b: int): int {
    if a < b then a else b
  }

  // ----- Sums over sequences

  function Sum<T>(f: T -> int, xs: seq<T>): int {
    if xs == [] then 0 else Sum(f, xs[..|xs| - 1]) + f(xs[|xs| - 1])
  }

  lemma {:induction false} SumOfConcat<T>(f: T -> int, a: seq<T>, b: seq<T>)
    ensures Sum(f, a + b) == Sum(f, a) + Sum(f, b)
    decreases |b|
  {
    if b == [] {
      assert a + b == a;
    } else {
      SumOfConcat(f, a, b[..|b| - 1]);
      assert (a + b)[..|a + b| - 1] == a + b[..|b| - 1];
    }
  }

  lemma SumOfOne<T>(f: T -> int, x: T)
    ensures Sum(f, [x]) == f(x)
  {
    var none: seq<T> := [];
    assert [x][..0] == none;
  }

  lemma {:induction false} SumOfUpdate<T>(f: T -> int, xs: seq<T>, i: nat, x: T)
    requires i < |xs|
    ensures Sum(f, xs[i := x]) == Sum(f, xs) - f(xs[i]) + f(x)
  {
    var n := |xs| - 1;
    if i == n {
      assert xs[i := x][..n] == xs[..n];
    } else {
      SumOfUpdate(f, xs[..n], i, x);
      assert xs[i := x][..n] == xs[..n][i := x];
    }
  }

  lemma {:induction false} SumIsMonotone<T>(f: T -> int, g: T -> int, xs: seq<T>)
    requires forall i :: 0 <= i < |xs| ==> f(xs[i]) <= g(xs[i])
    ensures Sum(f, xs) <= Sum(g, xs)
  {
    if xs != [] {
      SumIsMonotone(f, g, xs[..|xs| - 1]);
    }
  }

  lemma {:induction false} SumIsNonNegative<T>(f: T -> int, xs: seq<T>)
    requires forall i :: 0 <= i < |xs| ==> f(xs[i]) >= 0
    ensures Sum(f, xs) >= 0
  {
    if xs != [] {
      SumIsNonNegative(f, xs[..|xs| - 1]);
    }
  }
}
