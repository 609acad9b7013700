/**
 * The two values the restaurant details screen derives from the review list:
 * the "(N)" review-count text and the average rating.
 */
module DetailsFragment {
  import opened Wrappers
  import opened Domain
  import opened Ratings

  /**
   * The average rating as calculateAverageRating computes it: 0 for a null or
   * empty list, otherwise the rates summed in list order and divided by the
   * count. The sum is kept exact (the source accumulates a double and narrows
   * the quotient to a float).
   */
  method CalculateAverageRating(reviews: Option<seq<Review>>) returns (average: real)
    ensures reviews.None? ==> average == 0.0
    ensures reviews.Some? ==> average == MeanRate(reviews.value)
  {
    if reviews.None? || |reviews.value| == 0 {
      return 0.0;
    }
    var list := reviews.value;
    var rates := Rates(list);
    var sum: real := 0.0;
    var i := 0;
    while i < |list|
      invariant 0 <= i <= |list|
      invariant sum == Sum(rates[..i]) as real
    {
      assert rates[..i + 1] == rates[..i] + [rates[i]];
      SumAppend(rates[..i], [rates[i]]);
      sum := sum + list[i].rate as real;
      i := i + 1;
    }
    assert rates[..i] == rates;
    average := sum / (|list| as real);
  }

  /** The character of a decimal digit. */
  function DigitChar(d: int): (c: char)
    requires 0 <= d < 10
    ensures '0' <= c <= '9' && c as int - '0' as int == d
  {
    (d + '0' as int) as char
  }

  /** Every character of `s` is a decimal digit. */
  predicate IsDigits(s: string) {
    forall i :: 0 <= i < |s| ==> '0' <= s[i] <= '9'
  }

  /** The decimal text Java produces when a non-negative int is concatenated
      to a string: at least one digit and no leading zero. */
  function DecimalString(n: nat): (s: string)
    ensures |s| >= 1 && IsDigits(s)
    ensures s[0] == '0' ==> n == 0 && s == "0"
    decreases n
  {
    if n < 10 then [DigitChar(n)] else DecimalString(n / 10) + [DigitChar(n % 10)]
  }

  /** Reads a string of decimal digits back as a number. */
  function ParseDecimal(s: string): (n: nat)
    requires IsDigits(s)
  {
    if |s| == 0 then 0 else 10 * ParseDecimal(s[..|s| - 1]) + (s[|s| - 1] as int - '0' as int)
  }

  /** Reading the decimal text of n gives back n. */
  lemma {:induction false} DecimalRoundTrip(n: nat)
    ensures ParseDecimal(DecimalString(n)) == n
    decreases n
  {
    var s := DecimalString(n);
    if n >= 10 {
      DecimalRoundTrip(n / 10);
      assert s[..|s| - 1] == DecimalString(n / 10);
    }
  }

  /** The text of the review-count view: the list length in parentheses. */
  function NumberOfRatingText(reviews: seq<Review>): (text: string)
    ensures |text| >= 3 && text[0] == '(' && text[|text| - 1] == ')'
    ensures IsDigits(text[1..|text| - 1])
  {
    "(" + DecimalString(|reviews|) + ")"
  }

  /** Recovers the count from a "(N)" text; None for any other string. */
  function ParseRatingCount(text: string): (count: Option<nat>) {
    if |text| >= 3 && text[0] == '(' && text[|text| - 1] == ')' && IsDigits(text[1..|text| - 1])
    then Some(ParseDecimal(text[1..|text| - 1]))
    else None
  }

  /** The displayed count is exactly the number of reviews. */
  lemma RatingCountIsListLength(reviews: seq<Review>)
    ensures ParseRatingCount(NumberOfRatingText(reviews)) == Some(|reviews|)
  {
    var digits := DecimalString(|reviews|);
    var text := NumberOfRatingText(reviews);
    assert text[1..|text| - 1] == digits;
    DecimalRoundTrip(|reviews|);
  }
}
