/**
 * The catalog's records as the app receives them: a movie and one page of
 * results (`MoviesResponse` in src/services/movieService.ts). They are
 * values; the app never changes them.
 */
module Catalog {
  import opened Wrappers

  /** A catalog movie. Both image paths may be null in the catalog's payload. */
  datatype Movie = Movie(
    id: int,
    title: string,
    overview: string,
    releaseDate: string,
    voteAverage: real,
    posterPath: Option<string>,
    backdropPath: Option<string>)

  /** One page of search or trending results. */
  datatype MoviesResponse = MoviesResponse(
    page: int,
    results: seq<Movie>,
    totalPages: int,
    totalResults: int)
}
