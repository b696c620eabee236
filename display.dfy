/**
 * The content-selection chain at the end of the render: start from
 * "Found No Movies.", then let the list, the error view and the loading
 * message overwrite it in that order, so the last test that holds wins.
 */
module Display {
  import opened Wrappers
  import opened Normalizer

  /** What the second section of the page shows. */
  datatype Content =
    | NoMoviesFound          // "Found No Movies."
    | MoviesList(movies: seq<Movie>)
    | ErrorView(message: string)  // the message and the "Cancel Retry" button
    | LoadingMessage         // "Loading..."

  /** JavaScript truthiness of `error`: null and the empty string are falsy. */
  predicate Truthy(error: Option<string>) {
    error.Some? && error.value != ""
  }

  function SelectContent(movies: seq<Movie>, isLoading: bool, error: Option<string>): (c: Content)
    ensures c == LoadingMessage <==> isLoading
    ensures c.ErrorView? <==> !isLoading && Truthy(error)
    ensures c.ErrorView? ==> Some(c.message) == error
    ensures c.MoviesList? <==> !isLoading && !Truthy(error) && |movies| > 0
    ensures c.MoviesList? ==> c.movies == movies
    ensures c == NoMoviesFound <==> !isLoading && !Truthy(error) && |movies| == 0
  {
    var content := NoMoviesFound;
    var content := if |movies| > 0 then MoviesList(movies) else content;
    var content := if Truthy(error) then ErrorView(error.value) else content;
    if isLoading then LoadingMessage else content
  }
}
