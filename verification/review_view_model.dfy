/**
 * The review store. Its state is the published review list, newest first;
 * every operation returns the new list instead of mutating one, so a list
 * once handed out never changes.
 */
module ReviewViewModel {
  import opened Domain
  import opened Ratings
  import RestaurantFakeApi

  /** The list published at construction: the repository's reviews, which
      are the fake API's seed list. */
  function Initial(): (reviews: seq<Review>)
    ensures |reviews| == 5
    ensures AllAcceptable(reviews)
    ensures MeanRate(reviews) == 4.0
  {
    RestaurantFakeApi.SeedRatings();
    RestaurantFakeApi.GetReviews()
  }

  /**
   * addReview: a review with an empty comment or a rate <= 0 is refused
   * (false, list unchanged); any other review is put in front of a copy of
   * the list (true).
   */
  function AddReview(reviews: seq<Review>, review: Review): (result: (bool, seq<Review>))
    ensures result.0 <==> IsAcceptable(review)
    ensures !result.0 ==> result.1 == reviews
    ensures result.0 ==> |result.1| == |reviews| + 1 && result.1[0] == review
    ensures result.0 ==> forall i :: 0 <= i < |reviews| ==> result.1[i + 1] == reviews[i]
  {
    if !IsAcceptable(review) then
      (false, reviews)
    else
      (true, [review] + reviews)
  }

  /** The store invariant survives every addReview call, accepted or not. */
  lemma AddReviewPreservesInvariant(reviews: seq<Review>, review: Review)
    requires AllAcceptable(reviews)
    ensures AllAcceptable(AddReview(reviews, review).1)
  {
  }

  /** An accepted review moves the average to (s + r) / (n + 1); a refused one
      leaves it alone. */
  lemma AddReviewAverage(reviews: seq<Review>, review: Review)
    ensures AddReview(reviews, review).0 ==>
      MeanRate(AddReview(reviews, review).1)
        == ((Sum(Rates(reviews)) + review.rate) as real) / ((|reviews| + 1) as real)
    ensures !AddReview(reviews, review).0 ==>
      MeanRate(AddReview(reviews, review).1) == MeanRate(reviews)
  {
    if AddReview(reviews, review).0 {
      MeanAfterPrepend(review, reviews);
    }
  }

  /** The list after submitting `reviews` one by one, first to last. */
  function SubmitAll(reviews: seq<Review>, submissions: seq<Review>): (after: seq<Review>)
    decreases |submissions|
  {
    if |submissions| == 0 then reviews
    else SubmitAll(AddReview(reviews, submissions[0]).1, submissions[1..])
  }

  /** The submissions the store accepts, in submission order. */
  function Accepted(submissions: seq<Review>): (accepted: seq<Review>)
    ensures AllAcceptable(accepted)
  {
    if |submissions| == 0 then []
    else if IsAcceptable(submissions[0]) then [submissions[0]] + Accepted(submissions[1..])
    else Accepted(submissions[1..])
  }

  /** The elements of `s` in the opposite order. */
  function Reverse<T>(s: seq<T>): (r: seq<T>)
    ensures |r| == |s|
  {
    if |s| == 0 then [] else Reverse(s[1..]) + [s[0]]
  }

  /**
   * After any sequence of submissions the store holds exactly the accepted
   * ones, most recent first, above the reviews it held before, which keep
   * their order.
   */
  lemma {:induction false} SubmitAllIsNewestFirst(reviews: seq<Review>, submissions: seq<Review>)
    ensures SubmitAll(reviews, submissions) == Reverse(Accepted(submissions)) + reviews
    decreases |submissions|
  {
    if |submissions| > 0 {
      var first, rest := submissions[0], submissions[1..];
      var next := AddReview(reviews, first).1;
      SubmitAllIsNewestFirst(next, rest);
      if IsAcceptable(first) {
        assert ([first] + Accepted(rest))[1..] == Accepted(rest);
        assert Reverse(Accepted(submissions)) == Reverse(Accepted(rest)) + [first];
      }
    }
  }

  /** Whatever is submitted, a store that satisfies the invariant keeps it. */
  lemma SubmitAllPreservesInvariant(reviews: seq<Review>, submissions: seq<Review>)
    requires AllAcceptable(reviews)
    ensures AllAcceptable(SubmitAll(reviews, submissions))
  {
    SubmitAllIsNewestFirst(reviews, submissions);
    var acc := Accepted(submissions);
    ReverseKeepsMembers(acc);
    var after := Reverse(acc) + reviews;
    forall i | 0 <= i < |after|
      ensures IsAcceptable(after[i])
    {
      if i < |acc| {
        assert after[i] in Reverse(acc);
      }
    }
  }

  /** Reversing a list keeps exactly its elements. */
  lemma {:induction false} ReverseKeepsMembers<T>(s: seq<T>)
    ensures forall x :: x in Reverse(s) <==> x in s
  {
    if |s| > 0 {
      ReverseKeepsMembers(s[1..]);
      assert s == [s[0]] + s[1..];
    }
  }

  /** A submission sequence in which nothing is acceptable leaves the store as it was. */
  lemma SubmitAllRejected(reviews: seq<Review>, submissions: seq<Review>)
    requires forall i :: 0 <= i < |submissions| ==> !IsAcceptable(submissions[i])
    ensures SubmitAll(reviews, submissions) == reviews
  {
  }

  /** Two accepted reviews in a row: the length grows by 2 and the later one is first. */
  lemma TwoAcceptedReviews(reviews: seq<Review>, first: Review, second: Review)
    requires IsAcceptable(first) && IsAcceptable(second)
    ensures var after := AddReview(AddReview(reviews, first).1, second).1;
      |after| == |reviews| + 2 && after[0] == second && after[1] == first && after[2..] == reviews
  {
  }

  /** A fresh store takes "Great!" rated 5 to six reviews averaging 25/6, and
      refuses an empty comment and a zero rate without change. */
  lemma InitialStoreScenario(author: string, picture: string)
    ensures var great := AddReview(Initial(), Review(author, picture, "Great!", 5));
      great.0 && |great.1| == 6 && great.1[0].comment == "Great!" && MeanRate(great.1) == 25.0 / 6.0
    ensures AddReview(Initial(), Review(author, picture, "", 5)) == (false, Initial())
    ensures AddReview(Initial(), Review(author, picture, "ok", 0)) == (false, Initial())
  {
    var review := Review(author, picture, "Great!", 5);
    RestaurantFakeApi.SeedRatings();
    AddReviewAverage(Initial(), review);
    assert Rates(Initial()) == [5, 4, 5, 2, 4];
    assert Sum([5, 4, 5, 2, 4]) == 20;
  }
}
