# Taj Mahal review store — Dafny model

This project models the behavioural core of the Taj Mahal restaurant demo app
(an Android application). The core is an in-memory review store and the
numbers shown on the restaurant details screen:

- `ReviewViewModel` holds the published list of reviews, newest first. It is
  seeded from the hard-coded `RestaurantFakeApi` list. `addReview` accepts a
  review only when its comment is non-empty and its rate is positive. An
  accepted review goes in front of a fresh copy of the list.
- `DetailsFragment` derives the "(N)" review-count text and the average rating
  (0 for a null or empty list) from that list.
- `RestaurantFakeApi` supplies the five seed reviews and the constant
  restaurant record.

The model is functional. A `Review` and a `Restaurant` are immutable
datatypes (`domain.dfy`). The store's state is a `seq<Review>`, and
`AddReview` returns the pair (accepted, new list). The average is an exact
`real`. A Java `null` list is `Option.None` (`wrappers.dfy`).

Modules follow the source files:

| file | module | models |
|---|---|---|
| `domain.dfy` | `Domain` | `Review`, `Restaurant`, the acceptance guard and the store invariant |
| `ratings.dfy` | `Ratings` | rate sum and mean, and their algebra |
| `restaurant_fake_api.dfy` | `RestaurantFakeApi` | seed reviews, restaurant record |
| `details_fragment.dfy` | `DetailsFragment` | `calculateAverageRating`, the "(N)" count text |
| `review_view_model.dfy` | `ReviewViewModel` | construction, `addReview`, sequences of submissions |

## Model

| member | source | states |
|---|---|---|
| `ReviewViewModel.Initial` | app/src/main/java/com/openclassrooms/tajmahal/ui/Review/ReviewViewModel.java:30-51 | a fresh store holds the five seed reviews, all of which satisfy the store invariant, with average exactly 4 |
| `ReviewViewModel.AddReview` | app/src/main/java/com/openclassrooms/tajmahal/ui/Review/ReviewViewModel.java:54-63 | returns true exactly when the comment is non-empty and the rate is > 0; a refused review leaves the list identical; an accepted one is at index 0, the length grows by one, and every old entry follows in its original order |
| `ReviewViewModel.AddReviewPreservesInvariant` | app/src/main/java/com/openclassrooms/tajmahal/ui/Review/ReviewViewModel.java:55-61 | if every held review has a non-empty comment and a positive rate, that still holds after any addReview call |
| `ReviewViewModel.AddReviewAverage` | app/src/main/java/com/openclassrooms/tajmahal/ui/Review/ReviewViewModel.java:59-61 | after an accepted review of rate r on n reviews with rate sum s the average is (s + r) / (n + 1); after a refused one it is unchanged |
| `ReviewViewModel.SubmitAllIsNewestFirst` | app/src/main/java/com/openclassrooms/tajmahal/ui/Review/ReviewViewModel.java:54-63 | after any sequence of addReview calls the list is exactly the accepted reviews in reverse submission order, above the earlier list in its original order |
| `ReviewViewModel.SubmitAllPreservesInvariant` | app/src/main/java/com/openclassrooms/tajmahal/ui/Review/ReviewViewModel.java:55-61 | the store invariant holds after any sequence of addReview calls |
| `ReviewViewModel.SubmitAllRejected` | app/src/test/java/com/openclassrooms/tajmahal/ExampleUnitTest.java:57-104 | submissions that all have an empty comment or a rate <= 0 leave the list unchanged |
| `ReviewViewModel.TwoAcceptedReviews` | app/src/test/java/com/openclassrooms/tajmahal/ExampleUnitTest.java:121-136 | two accepted reviews grow the list by 2 and put the later one at index 0 and the earlier at index 1 |
| `ReviewViewModel.InitialStoreScenario` | app/src/main/java/com/openclassrooms/tajmahal/ui/Review/ReviewViewModel.java:30-63 | on a fresh store, "Great!" rated 5 is accepted and gives six reviews averaging 25/6; an empty comment or a zero rate is refused with no change |
| `DetailsFragment.CalculateAverageRating` | app/src/main/java/com/openclassrooms/tajmahal/ui/restaurant/DetailsFragment.java:133-144 | the in-order summing loop yields 0 for a null list and the mean rate (0 for an empty list, sum / count otherwise) for any other |
| `Ratings.MeanTimesCount` | app/src/main/java/com/openclassrooms/tajmahal/ui/restaurant/DetailsFragment.java:138-143 | for a non-empty list, average times count equals the sum of the rates |
| `Ratings.MeanDependsOnlyOnRates` | app/src/main/java/com/openclassrooms/tajmahal/ui/restaurant/DetailsFragment.java:139-141 | two lists with the same multiset of rates have the same average, whatever their order |
| `Ratings.SumDependsOnlyOnMultiset` | app/src/main/java/com/openclassrooms/tajmahal/ui/restaurant/DetailsFragment.java:139-141 | the accumulated sum depends only on the multiset of summed values |
| `Ratings.MeanPrependIsMeanAppend` | app/src/main/java/com/openclassrooms/tajmahal/ui/restaurant/DetailsFragment.java:138-143 | prepending a review gives the same average as appending it |
| `Ratings.MeanAfterPrepend` | app/src/main/java/com/openclassrooms/tajmahal/ui/restaurant/DetailsFragment.java:138-143 | prepending a review of rate r to n reviews with rate sum s gives average (s + r) / (n + 1) |
| `Ratings.MeanBounds` | app/src/main/java/com/openclassrooms/tajmahal/ui/restaurant/DetailsFragment.java:138-143 | if every rate lies in [lo, hi], the average of a non-empty list lies in [lo, hi] |
| `DetailsFragment.DecimalString` | app/src/main/java/com/openclassrooms/tajmahal/ui/restaurant/DetailsFragment.java:80 | the decimal text of the count is a non-empty digit string with no leading zero: it starts with "0" only when the count is 0, and is then exactly "0" |
| `DetailsFragment.DecimalRoundTrip` | app/src/main/java/com/openclassrooms/tajmahal/ui/restaurant/DetailsFragment.java:80 | reading the decimal text of n gives back n |
| `DetailsFragment.NumberOfRatingText` | app/src/main/java/com/openclassrooms/tajmahal/ui/restaurant/DetailsFragment.java:80 | the count text is digits enclosed in "(" and ")" |
| `DetailsFragment.RatingCountIsListLength` | app/src/main/java/com/openclassrooms/tajmahal/ui/restaurant/DetailsFragment.java:80 | the number displayed in the count text is exactly the list length |
| `RestaurantFakeApi.GetReviews` | app/src/main/java/com/openclassrooms/tajmahal/data/service/RestaurantFakeApi.java:17-28 | the seed list has exactly five reviews, each with a non-empty comment and a positive rate |
| `RestaurantFakeApi.SeedRatings` | app/src/main/java/com/openclassrooms/tajmahal/data/service/RestaurantFakeApi.java:17-28 | the seed rates are 5, 4, 5, 2, 4 in order, each in 1..5, and their average is exactly 4 |
| `RestaurantFakeApi.GetRestaurant` | app/src/main/java/com/openclassrooms/tajmahal/data/service/RestaurantFakeApi.java:44-48 | the restaurant is "Taj Mahal", of type "Indien", offering both dine-in and take-away |

## Left out

- DetailsFragment.CalculateAverageRating: returns the exact real quotient. The source adds the rates into a `double` and narrows the quotient to a `float`. Those roundings are floating point and are not modelled.
- The one-decimal `"%.1f"` formatting of the average and the rating-bar display: floating-point output formatting.
- `Math.round` of the rating bar's float value and the float `rating == 0` check in `ReviewFragment`: floating point. `addReview` repeats the empty-comment and rate > 0 checks on the integer rate, and only that guard is modelled.
- Review rates are unbounded integers rather than 32-bit `int`. The source does no integer arithmetic on rates that could wrap: it only compares them with 0 and adds them into a `double`.
- A `null` review passed to `addReview` would throw in the source. The model has no null reviews. A `null` list is modelled only where the source checks for it, in `calculateAverageRating`.
- LiveData observer notification and the asynchronous `postValue` in `loadReviews`: main-thread scheduling. The model treats the seed as published synchronously. Without that, an `addReview` made before the posted seed lands would prepend to the initial empty list, and the seed would then overwrite it. That timing is not modelled.
- Aliasing of the published list: `getReviews().getValue()` hands out the live `java.util.List`, which any holder can mutate (`ExampleUnitTest.java:50-51` does). In the model every list is a value; only `addReview`'s copy-then-prepend is modelled.
- `getReviews` on the view model and on the fake API: both are reads with no side effects. Every model function is pure, so they need no separate member; each call returns the same value.
- `ReviewRepository` is a one-line pass-through to the fake API's `getReviews`. `Initial` takes the seed list directly.
- `ReviewListAdapter`, fragment lifecycle, view binding, navigation, Toasts, map/phone/browser intents, image loading and Hilt wiring: UI and dependency-injection plumbing.
- The `Restaurant` fields other than name, type and the two flags are carried in the record as the source's literals, with no property stated about them.
