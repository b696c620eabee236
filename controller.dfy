/**
 * The movie-fetch controller of the `App` component as a transition
 * system over values: the four pieces of component state, plus the parts
 * of the browser it relies on (mounted or not, the armed timers, the
 * outstanding requests). Each operation of the component is a function
 * from the state before to the state after; the class in app.dfy is
 * proved to follow these functions.
 *
 * React ignores a state update once the component is unmounted, so every
 * setter below is a no-op on an unmounted state, while `setTimeout` and
 * the network still act.
 */
module FetchController {
  import opened Wrappers
  import opened Js
  import opened Normalizer
  import opened Display

  /** A timer handle as `setTimeout` returns it; each call returns a new one. */
  type Handle = nat

  /** The message thrown when the response status is not ok. */
  const RetryMessage: string := "Something went wrong ...Retrying"

  /** The delay, in milliseconds, of the automatic retry. */
  const RetryDelay: nat := 2000

  datatype State = State(
    // component state
    movies: seq<Movie>,
    isLoading: bool,
    error: Option<string>,
    retryTimeout: Option<Handle>,
    // environment
    mounted: bool,
    timers: map<Handle, nat>,  // the armed timers and their delays
    nextHandle: Handle,        // the handle the next `setTimeout` returns
    inFlight: nat)             // requests sent whose response has not arrived

  /** The state after the first render: `useState([])`, `false`, `null`, `null`. */
  function Initial(): State {
    State([], false, None, None, true, map[], 1, 0)
  }

  /** How the request of one call of `fetchMoviesHandler` ends. */
  datatype Outcome =
    | NetworkFailure(message: string)  // `fetch` rejects
    | BadStatus                        // `response.ok` is false
    | NotJson(message: string)         // `response.json()` rejects
    | Received(data: Json)             // the parsed body

  /** The try block: the list it stores, or the message of what it throws. */
  function TryBlock(o: Outcome): (r: Result<seq<Movie>, string>)
    ensures o.BadStatus? ==> r == Err(RetryMessage)
    ensures o.NetworkFailure? || o.NotJson? ==> r == Err(o.message)
    ensures o.Received? ==> (r.Ok? <==> WellFormed(o.data))
    ensures r.Ok? ==> o.Received? && WellFormed(o.data) && |r.value| == |Results(o.data)|
    ensures r.Ok? ==> forall i :: 0 <= i < |r.value| ==> r.value[i] == Renamed(Results(o.data)[i])
    ensures o.Received? && r.Err? ==> |r.error| > 0
  {
    match o
    case NetworkFailure(message) => Err(message)
    case BadStatus => Err(RetryMessage)
    case NotJson(message) => Err(message)
    case Received(data) =>
      match Transform(data)
      case Ok(movies) => Ok(movies)
      case Err(e) => Err(Message(e))
  }

  /** What the page shows in state `s`. */
  function Shown(s: State): Content {
    SelectContent(s.movies, s.isLoading, s.error)
  }

  // React state setters

  function SetMovies(s: State, movies: seq<Movie>): (t: State)
    ensures t.movies == (if s.mounted then movies else s.movies)
    ensures t == s.(movies := t.movies)
  {
    if s.mounted then s.(movies := movies) else s
  }

  function SetIsLoading(s: State, isLoading: bool): (t: State)
    ensures t.isLoading == (if s.mounted then isLoading else s.isLoading)
    ensures t == s.(isLoading := t.isLoading)
  {
    if s.mounted then s.(isLoading := isLoading) else s
  }

  function SetError(s: State, error: Option<string>): (t: State)
    ensures t.error == (if s.mounted then error else s.error)
    ensures t == s.(error := t.error)
  {
    if s.mounted then s.(error := error) else s
  }

  /** `clearTimeout(h)`; clearing null or a handle no longer armed does nothing. */
  function Cleared(timers: map<Handle, nat>, h: Option<Handle>): map<Handle, nat> {
    if h.Some? then timers - {h.value} else timers
  }

  /**
   * `setRetryTimeout(h)` together with the effect that depends on
   * `retryTimeout`: when the stored handle changes, the cleanup registered
   * for the old value clears the old handle.
   */
  function SetRetryTimeout(s: State, h: Option<Handle>): (t: State)
    ensures t.retryTimeout == (if s.mounted then h else s.retryTimeout)
    // a different handle stored on a mounted component clears the old one
    ensures s.mounted && s.retryTimeout != h ==> t.timers == Cleared(s.timers, s.retryTimeout)
    ensures !(s.mounted && s.retryTimeout != h) ==> t.timers == s.timers
    ensures t == s.(retryTimeout := t.retryTimeout, timers := t.timers)
  {
    if s.mounted && s.retryTimeout != h then
      s.(retryTimeout := h, timers := Cleared(s.timers, s.retryTimeout))
    else s
  }

  // the operations

  /** `fetchMoviesHandler` up to the request: loading on, error cleared, request sent. */
  function StartFetch(s: State): (t: State)
    ensures s.mounted ==> t.isLoading && t.error == None
    ensures !s.mounted ==> t.isLoading == s.isLoading && t.error == s.error
    ensures t.movies == s.movies && t.retryTimeout == s.retryTimeout
    ensures t.timers == s.timers && t.nextHandle == s.nextHandle && t.mounted == s.mounted
    ensures t.inFlight == s.inFlight + 1
  {
    var s := SetIsLoading(s, true);
    var s := SetError(s, None);
    s.(inFlight := s.inFlight + 1)
  }

  /**
   * `fetchMoviesHandler` after the request resolves: store the list, or
   * record the message and arm one retry; then loading off.
   */
  function CompleteFetch(s: State, o: Outcome): (t: State)
    requires s.inFlight > 0
    ensures s.mounted ==> !t.isLoading
    ensures !s.mounted ==> t.isLoading == s.isLoading
    ensures t.mounted == s.mounted && t.inFlight == s.inFlight - 1
    // success: the list is replaced and nothing else of the retry protocol moves
    ensures TryBlock(o).Ok? ==>
      t.movies == (if s.mounted then TryBlock(o).value else s.movies)
      && t.error == s.error && t.retryTimeout == s.retryTimeout
      && t.timers == s.timers && t.nextHandle == s.nextHandle
    // failure: the list stays, exactly one new timer of 2000 ms is armed
    ensures TryBlock(o).Err? ==>
      t.movies == s.movies && t.nextHandle == s.nextHandle + 1
      && s.nextHandle in t.timers && t.timers[s.nextHandle] == RetryDelay
    // ... its handle is stored, and the one stored before is cleared
    ensures TryBlock(o).Err? && s.mounted ==>
      t.error == Some(TryBlock(o).error) && t.retryTimeout == Some(s.nextHandle)
      && t.timers == Cleared(s.timers, s.retryTimeout)[s.nextHandle := RetryDelay]
    // ... while an unmounted component only arms the timer
    ensures TryBlock(o).Err? && !s.mounted ==>
      t.error == s.error && t.retryTimeout == s.retryTimeout
      && t.timers == s.timers[s.nextHandle := RetryDelay]
  {
    var s := match TryBlock(o)
      case Ok(movies) => SetMovies(s, movies)
      case Err(message) =>
        var s := SetError(s, Some(message));
        var timeout := s.nextHandle;
        var s := s.(timers := s.timers[timeout := RetryDelay], nextHandle := timeout + 1);
        SetRetryTimeout(s, Some(timeout));
    var s := SetIsLoading(s, false);
    s.(inFlight := s.inFlight - 1)
  }

  /** `handleCancelRetry`: clear the stored handle and the error. */
  function CancelRetry(s: State): (t: State)
    ensures s.retryTimeout.Some? ==> s.retryTimeout.value !in t.timers
    ensures t.timers == Cleared(s.timers, s.retryTimeout)
    ensures s.mounted ==> t.error == None
    ensures !s.mounted ==> t.error == s.error
    ensures t.movies == s.movies && t.isLoading == s.isLoading && t.retryTimeout == s.retryTimeout
    ensures t.mounted == s.mounted && t.nextHandle == s.nextHandle && t.inFlight == s.inFlight
  {
    var s := s.(timers := Cleared(s.timers, s.retryTimeout));
    SetError(s, None)
  }

  /** An armed timer fires: it is disarmed and runs `fetchMoviesHandler`. */
  function FireRetry(s: State, h: Handle): (t: State)
    requires h in s.timers
    ensures h !in t.timers && t.timers == s.timers - {h}
    ensures s.mounted ==> t.isLoading && t.error == None
    ensures !s.mounted ==> t.isLoading == s.isLoading && t.error == s.error
    ensures t.movies == s.movies && t.retryTimeout == s.retryTimeout && t.mounted == s.mounted
    ensures t.nextHandle == s.nextHandle && t.inFlight == s.inFlight + 1
  {
    StartFetch(s.(timers := s.timers - {h}))
  }

  /** The component goes away: the effect's cleanup clears the stored handle. */
  function Unmount(s: State): (t: State)
    requires s.mounted
    ensures !t.mounted && t.timers == Cleared(s.timers, s.retryTimeout)
    ensures s.retryTimeout.Some? ==> s.retryTimeout.value !in t.timers
    // nothing else changes
    ensures t == s.(mounted := false, timers := t.timers)
  {
    s.(timers := Cleared(s.timers, s.retryTimeout), mounted := false)
  }

  // traces

  datatype Event =
    | FetchClicked               // the "Fetch Movies" button
    | ResponseArrived(outcome: Outcome)
    | CancelClicked              // the "Cancel Retry" button
    | TimerFired(handle: Handle)
    | Unmounted

  /**
   * "Fetch Movies" exists while mounted, "Cancel Retry" only in the error
   * view; responses answer sent requests; only armed timers fire.
   */
  predicate Enabled(s: State, e: Event) {
    match e
    case FetchClicked => s.mounted
    case ResponseArrived(_) => s.inFlight > 0
    case CancelClicked => s.mounted && Shown(s).ErrorView?
    case TimerFired(h) => h in s.timers
    case Unmounted => s.mounted
  }

  function Step(s: State, e: Event): State
    requires Enabled(s, e)
  {
    match e
    case FetchClicked => StartFetch(s)
    case ResponseArrived(o) => CompleteFetch(s, o)
    case CancelClicked => CancelRetry(s)
    case TimerFired(h) => FireRetry(s, h)
    case Unmounted => Unmount(s)
  }

  /** `es` can happen, one event after the other, from `s`. */
  predicate Trace(s: State, es: seq<Event>)
    decreases |es|
  {
    es == [] || (Enabled(s, es[0]) && Trace(Step(s, es[0]), es[1..]))
  }

  function Run(s: State, es: seq<Event>): State
    requires Trace(s, es)
    decreases |es|
  {
    if es == [] then s else Run(Step(s, es[0]), es[1..])
  }
}
