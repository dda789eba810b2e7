/**
 * The values the application moves around: search results, the detail record of one
 * movie with its cast, the user's rating and the entries of the watched list.
 */
module Movies {
  import opened Wrappers

  /** The movie database's id of a title. */
  type MovieId = int

  /** One element of the `docs` array of a search response. */
  datatype MovieSummary = MovieSummary(
    id: MovieId,
    name: string,
    alternativeName: string,
    year: int,
    posterUrl: string)

  /** One element of the `persons` array of a detail response. */
  datatype Person = Person(name: string, profession: string)

  /** The fields of a detail response that the application stores or derives values from. */
  datatype MovieDetail = MovieDetail(
    name: string,
    posterUrl: string,
    ratingKp: real,
    movieLength: int,
    persons: Option<seq<Person>>)

  /**
   * The rating state of the detail view: `Unrated` is the initial empty string,
   * `Rated(n)` a value set by the star control.
   */
  datatype UserRating = Unrated | Rated(stars: int)

  /** JavaScript truthiness of the rating state: `''` and `0` are falsy. */
  function IsTruthy(r: UserRating): (b: bool)
    ensures r.Unrated? ==> !b
    ensures r == Rated(0) ==> !b
    ensures r.Rated? && r.stars != 0 ==> b
  {
    r.Rated? && r.stars != 0
  }

  /**
   * An entry of the watched list. `countRatingDecisions` is present in the entries that
   * App.js builds and absent in those of App-v2.js.
   */
  datatype WatchedEntry = WatchedEntry(
    id: MovieId,
    title: string,
    poster: string,
    rating: real,
    userRating: UserRating,
    runtime: int,
    countRatingDecisions: Option<nat>)
}
