/**
 * The two records of the application's domain model: a user review and the
 * restaurant description. Both are immutable values.
 */
module Domain {

  /** A review as the Java class Review holds it: author name, avatar URL,
      free-text comment and an integer star rate. */
  datatype Review = Review(username: string, picture: string, comment: string, rate: int)

  /** The restaurant record; `cuisineType` is the Java `type` field. */
  datatype Restaurant = Restaurant(
    name: string,
    cuisineType: string,
    hours: string,
    address: string,
    website: string,
    phoneNumber: string,
    dineIn: bool,
    takeAway: bool)

  /** The condition under which the review store accepts a review:
      a non-empty comment and a strictly positive rate. */
  predicate IsAcceptable(r: Review) {
    |r.comment| > 0 && r.rate > 0
  }

  /** The store invariant: every held review is acceptable. */
  predicate AllAcceptable(reviews: seq<Review>) {
    forall i :: 0 <= i < |reviews| ==> IsAcceptable(reviews[i])
  }
}
