/**
 * The hard-coded data source: five seed reviews and the Taj Mahal restaurant
 * record. Every call returns the same immutable value.
 */
module RestaurantFakeApi {
  import opened Domain
  import opened Ratings

  /** The seed review list, in its declared order. Long literals are written
      as concatenations of shorter pieces; the strings are the same. */
  function GetReviews(): (reviews: seq<Review>)
    ensures |reviews| == 5
    ensures AllAcceptable(reviews)
  {
    [ Review("Ranjit Singh",
             "https://xsgames.co/randomusers/" + "assets/avatars/male/71.jpg",
             "Service très rapide et nourriture " + "délicieuse, nous mangeons ici chaque " +
             "week-end, c'est très rapide et " + "savoureux. Continuez ainsi!",
             5),
      Review("Martyna Siddeswara",
             "https://xsgames.co/randomusers/" + "assets/avatars/female/31.jpg",
             "Un service excellent et des plats " + "incroyablement savoureux. Nous sommes " +
             "vraiment satisfaits de notre " + "expérience au restaurant.",
             4),
      Review("Komala Alanazi",
             "https://xsgames.co/randomusers/" + "assets/avatars/male/46.jpg",
             "La cuisine est délicieuse et le " + "service est également excellent. " +
             "Le propriétaire est très sympathique " + "et veille toujours à ce que votre " +
             "repas soit satisfaisant. Cet " + "endroit est un choix sûr!",
             5),
      Review("David John",
             "https://xsgames.co/randomusers/" + "assets/avatars/male/67.jpg",
             "Les currys manquaient de diversité " + "de saveurs et semblaient tous à base " +
             "de tomates. Malgré les évaluations " + "élevées que nous avons vues et nos " +
             "attentes, nous avons été déçus.",
             2),
      Review("Emilie Hood",
             "https://xsgames.co/randomusers/" + "assets/avatars/female/20.jpg",
             "Très bon restaurant Indien ! " + "Je recommande.",
             4) ]
  }

  /** The single restaurant record. */
  function GetRestaurant(): (r: Restaurant)
    ensures r.name == "Taj Mahal" && r.cuisineType == "Indien"
    ensures r.dineIn && r.takeAway
  {
    Restaurant("Taj Mahal", "Indien", "11h30 - 14h30・18h30 - 22h00",
               "12 Avenue de la Brique - " + "75010 Paris", "http://www.tajmahal.fr", "06 12 34 56 78",
               true, true)
  }

  /** The seed rates, in order, are 5, 4, 5, 2, 4; each lies in the 1..5 star
      scale, and their mean is exactly 4. */
  lemma SeedRatings()
    ensures Rates(GetReviews()) == [5, 4, 5, 2, 4]
    ensures forall i :: 0 <= i < |GetReviews()| ==> 1 <= GetReviews()[i].rate <= 5
    ensures MeanRate(GetReviews()) == 4.0
  {
  }
}
