/**
 * Arithmetic over the rates of a list of reviews: their sum and their mean.
 * `MeanRate` is the reference definition of the average rating that the
 * details screen shows; the lemmas here state what that average means.
 */
module Ratings {
  import opened Domain

  /** The rates of `reviews`, in list order. */
  function Rates(reviews: seq<Review>): (rates: seq<int>)
    ensures |rates| == |reviews|
    ensures forall i :: 0 <= i < |reviews| ==> rates[i] == reviews[i].rate
  {
    seq(|reviews|, i requires 0 <= i < |reviews| => reviews[i].rate)
  }

  /** The sum of a list of integers. */
  function Sum(xs: seq<int>): (total: int) {
    if |xs| == 0 then 0 else xs[0] + Sum(xs[1..])
  }

  /** `total / count` as an exact real, 0 when there is nothing to divide by. */
  function Ratio(total: int, count: nat): (quotient: real) {
    if count == 0 then 0.0 else (total as real) / (count as real)
  }

  /** The exact mean of the rates, 0 for an empty list. */
  function MeanRate(reviews: seq<Review>): (mean: real) {
    Ratio(Sum(Rates(reviews)), |reviews|)
  }

  /** The rates of a concatenation are the concatenated rates. */
  lemma RatesAppend(a: seq<Review>, b: seq<Review>)
    ensures Rates(a + b) == Rates(a) + Rates(b)
  {
  }

  /** Summation distributes over concatenation. */
  lemma {:induction false} SumAppend(xs: seq<int>, ys: seq<int>)
    ensures Sum(xs + ys) == Sum(xs) + Sum(ys)
  {
    if |xs| == 0 {
      assert xs + ys == ys;
    } else {
      assert (xs + ys)[1..] == xs[1..] + ys;
      SumAppend(xs[1..], ys);
    }
  }

  /** Taking one element out of a list lowers its sum by exactly that element. */
  lemma SumRemove(xs: seq<int>, j: int)
    requires 0 <= j < |xs|
    ensures Sum(xs) == xs[j] + Sum(xs[..j] + xs[j + 1..])
  {
    var tail := [xs[j]] + xs[j + 1..];
    assert xs == xs[..j] + tail;
    assert tail[1..] == xs[j + 1..];
    SumAppend(xs[..j], tail);
    SumAppend(xs[..j], xs[j + 1..]);
  }

  /** The sum of a list depends only on the multiset of its elements. */
  lemma {:induction false} SumDependsOnlyOnMultiset(xs: seq<int>, ys: seq<int>)
    requires multiset(xs) == multiset(ys)
    ensures Sum(xs) == Sum(ys)
    decreases |xs|
  {
    if |xs| == 0 {
      assert |ys| == |multiset(ys)| == 0;
    } else {
      var x := xs[0];
      assert x in multiset(ys);
      var j :| 0 <= j < |ys| && ys[j] == x;
      var rest := ys[..j] + ys[j + 1..];
      assert ys == ys[..j] + [x] + ys[j + 1..];
      assert multiset(ys) == multiset(rest) + multiset{x};
      assert xs == [x] + xs[1..];
      assert multiset(xs) == multiset{x} + multiset(xs[1..]);
      assert multiset(xs[1..]) == multiset(xs) - multiset{x};
      assert multiset(rest) == multiset(ys) - multiset{x};
      SumDependsOnlyOnMultiset(xs[1..], rest);
      SumRemove(ys, j);
    }
  }

  /** Every element in [lo, hi] bounds the sum by |xs| * lo and |xs| * hi. */
  lemma {:induction false} SumBounds(xs: seq<int>, lo: int, hi: int)
    requires forall i :: 0 <= i < |xs| ==> lo <= xs[i] <= hi
    ensures |xs| * lo <= Sum(xs) <= |xs| * hi
  {
    if |xs| > 0 {
      SumBounds(xs[1..], lo, hi);
    }
  }

  /** A non-zero count times the ratio gives back the total. */
  lemma RatioTimesCount(total: int, count: nat)
    requires count > 0
    ensures Ratio(total, count) * (count as real) == total as real
  {
  }

  /** The average of a non-empty list times its length is the rate sum. */
  lemma MeanTimesCount(reviews: seq<Review>)
    requires |reviews| > 0
    ensures MeanRate(reviews) * (|reviews| as real) == Sum(Rates(reviews)) as real
  {
  }

  /** The average depends only on the multiset of rates: any reordering of
      the reviews, and any other reviews with the same rates, average alike. */
  lemma MeanDependsOnlyOnRates(a: seq<Review>, b: seq<Review>)
    requires multiset(Rates(a)) == multiset(Rates(b))
    ensures MeanRate(a) == MeanRate(b)
  {
    assert |a| == |Rates(a)| == |multiset(Rates(a))| == |multiset(Rates(b))| == |b|;
    SumDependsOnlyOnMultiset(Rates(a), Rates(b));
  }

  /** Prepending a review yields the same average as appending it. */
  lemma MeanPrependIsMeanAppend(r: Review, reviews: seq<Review>)
    ensures MeanRate([r] + reviews) == MeanRate(reviews + [r])
  {
    RatesAppend([r], reviews);
    RatesAppend(reviews, [r]);
    assert multiset(Rates([r]) + Rates(reviews)) == multiset(Rates(reviews) + Rates([r]));
    MeanDependsOnlyOnRates([r] + reviews, reviews + [r]);
  }

  /** Prepending a review of rate r to n reviews with rate sum s gives (s + r) / (n + 1). */
  lemma MeanAfterPrepend(r: Review, reviews: seq<Review>)
    ensures MeanRate([r] + reviews)
         == ((Sum(Rates(reviews)) + r.rate) as real) / ((|reviews| + 1) as real)
  {
    var all := [r] + reviews;
    assert all[1..] == reviews;
    assert Rates(all) == [r.rate] + Rates(reviews);
    assert ([r.rate] + Rates(reviews))[1..] == Rates(reviews);
    assert Sum(Rates(all)) == r.rate + Sum(Rates(reviews));
    assert |all| == |reviews| + 1;
  }

  /** If every rate lies in [lo, hi] then so does the average of a non-empty list. */
  lemma MeanBounds(reviews: seq<Review>, lo: int, hi: int)
    requires |reviews| > 0
    requires forall i :: 0 <= i < |reviews| ==> lo <= reviews[i].rate <= hi
    ensures lo as real <= MeanRate(reviews) <= hi as real
  {
    SumBounds(Rates(reviews), lo, hi);
    RatioBounds(Sum(Rates(reviews)), |reviews|, lo, hi);
  }

  /** A total between count * lo and count * hi has its ratio between lo and hi. */
  lemma RatioBounds(total: int, count: nat, lo: int, hi: int)
    requires count > 0
    requires count * lo <= total <= count * hi
    ensures lo as real <= Ratio(total, count) <= hi as real
  {
  }
}
