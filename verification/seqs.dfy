/** `Array.prototype.filter`, counting and summing, on sequences. */
module Seqs {

  /** The elements of `xs` that satisfy `p`, in their order in `xs`. */
  function Filter<T>(xs: seq<T>, p: T -> bool): (r: seq<T>)
    ensures |r| <= |xs|
    ensures forall i | 0 <= i < |r| :: p(r[i])
  {
    if |xs| == 0 then []
    else if p(xs[0]) then [xs[0]] + Filter(xs[1..], p)
    else Filter(xs[1..], p)
  }

  /** The kept elements are elements of `xs`, and an element of `xs` is kept exactly when it
      satisfies `p`. */
  lemma {:induction false} FilterMembers<T>(xs: seq<T>, p: T -> bool)
    ensures forall i | 0 <= i < |Filter(xs, p)| :: Filter(xs, p)[i] in xs
    ensures forall i | 0 <= i < |xs| :: xs[i] in Filter(xs, p) <==> p(xs[i])
  {
    if |xs| > 0 {
      FilterMembers(xs[1..], p);
      assert forall i | 1 <= i < |xs| :: xs[1..][i - 1] == xs[i];
    }
  }

  /** What holds of every element holds of every kept element. */
  lemma {:induction false} FilterPreserves<T>(xs: seq<T>, p: T -> bool, q: T -> bool)
    requires forall i | 0 <= i < |xs| :: q(xs[i])
    ensures forall i | 0 <= i < |Filter(xs, p)| :: q(Filter(xs, p)[i])
  {
    if |xs| > 0 {
      assert forall i | 1 <= i < |xs| :: xs[1..][i - 1] == xs[i];
      FilterPreserves(xs[1..], p, q);
    }
  }

  /** `xs.map(f)`. */
  function Map<T, U>(xs: seq<T>, f: T -> U): (r: seq<U>)
    ensures |r| == |xs|
  {
    if |xs| == 0 then [] else [f(xs[0])] + Map(xs[1..], f)
  }

  /** The element at `j` of `xs.map(f)` is `f` of the element at `j` of `xs`. */
  lemma {:induction false} MapAt<T, U>(xs: seq<T>, f: T -> U, j: nat)
    requires j < |xs|
    ensures Map(xs, f)[j] == f(xs[j])
  {
    if j > 0 {
      MapAt(xs[1..], f, j - 1);
    }
  }

  /** Filtering a concatenation filters each part: the order of the kept elements is the input's. */
  lemma {:induction false} FilterAppend<T>(xs: seq<T>, ys: seq<T>, p: T -> bool)
    ensures Filter(xs + ys, p) == Filter(xs, p) + Filter(ys, p)
  {
    if |xs| > 0 {
      assert (xs + ys)[1..] == xs[1..] + ys;
      FilterAppend(xs[1..], ys, p);
    } else {
      assert xs + ys == ys;
    }
  }

  /** An element that every element satisfies keeps everything; one that none satisfies keeps nothing. */
  lemma {:induction false} FilterExtremes<T>(xs: seq<T>, p: T -> bool)
    ensures (forall i | 0 <= i < |xs| :: p(xs[i])) ==> Filter(xs, p) == xs
    ensures (forall i | 0 <= i < |xs| :: !p(xs[i])) <==> Filter(xs, p) == []
  {
    if |xs| > 0 {
      FilterExtremes(xs[1..], p);
      assert forall i | 1 <= i < |xs| :: xs[1..][i - 1] == xs[i];
    }
  }

  /** Filtering by a test and by its negation splits the elements between the two. */
  lemma {:induction false} FilterComplement<T>(xs: seq<T>, p: T -> bool, q: T -> bool)
    requires forall i | 0 <= i < |xs| :: q(xs[i]) == !p(xs[i])
    ensures |Filter(xs, p)| + |Filter(xs, q)| == |xs|
  {
    if |xs| > 0 {
      assert forall i | 1 <= i < |xs| :: xs[1..][i - 1] == xs[i];
      FilterComplement(xs[1..], p, q);
    }
  }

  /** `xs.filter(p).length`. */
  function Count<T>(xs: seq<T>, p: T -> bool): (r: nat)
    ensures r <= |xs|
    ensures r == 0 <==> forall i | 0 <= i < |xs| :: !p(xs[i])
  {
    FilterExtremes(xs, p);
    |Filter(xs, p)|
  }

  /** Counting over a concatenation adds the counts of the parts. */
  lemma CountAppend<T>(xs: seq<T>, ys: seq<T>, p: T -> bool)
    ensures Count(xs + ys, p) == Count(xs, p) + Count(ys, p)
  {
    FilterAppend(xs, ys, p);
  }

  /** `xs.reduce((sum, x) => sum + x, 0)`. */
  function Sum(xs: seq<real>): real {
    if |xs| == 0 then 0.0 else xs[0] + Sum(xs[1..])
  }

  /** A sum of values each below `bound` is below `bound` times their number. */
  lemma {:induction false} SumBelow(xs: seq<real>, bound: real)
    requires forall i | 0 <= i < |xs| :: xs[i] < bound
    ensures |xs| > 0 ==> Sum(xs) < bound * |xs| as real
    ensures Sum(xs) <= bound * |xs| as real
  {
    if |xs| > 0 {
      SumBelow(xs[1..], bound);
    }
  }
}
