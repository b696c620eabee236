/**
 * The `App` component as objects: the browser's timer table and the
 * component with its four state variables. Each method takes the steps
 * of the source in program order and is proved to produce the state the
 * matching function of FetchController gives, keeping the invariant.
 */
module AppComponent {
  import opened Wrappers
  import opened Normalizer
  import opened FetchController
  import opened RetryProtocol

  /** The browser's timers, as `setTimeout` and `clearTimeout` use them. */
  class TimerTable {
    var armed: map<Handle, nat>
    var next: Handle

    constructor ()
      ensures armed == map[] && next == 1
    {
      armed := map[];
      next := 1;
    }

    method SetTimeout(delay: nat) returns (h: Handle)
      modifies this
      ensures h == old(next) && next == old(next) + 1
      ensures armed == old(armed)[h := delay]
    {
      h := next;
      armed := armed[h := delay];
      next := next + 1;
    }

    method ClearTimeout(h: Option<Handle>)
      modifies this
      ensures armed == Cleared(old(armed), h) && next == old(next)
    {
      if h.Some? {
        armed := armed - {h.value};
      }
    }

    /** The timer `h` runs out: the browser disarms it before calling back. */
    method Fire(h: Handle)
      requires h in armed
      modifies this
      ensures armed == old(armed) - {h} && next == old(next)
    {
      armed := armed - {h};
    }
  }

  class App {
    var movies: seq<Movie>
    var isLoading: bool
    var error: Option<string>
    var retryTimeout: Option<Handle>
    var mounted: bool
    var inFlight: nat  // requests sent whose response has not arrived
    const timers: TimerTable

    function Model(): State
      reads this, timers
    {
      State(movies, isLoading, error, retryTimeout, mounted, timers.armed, timers.next, inFlight)
    }

    ghost predicate Valid()
      reads this, timers
    {
      Inv(Model())
    }

    /** The first render. */
    constructor ()
      ensures Valid() && Model() == Initial() && fresh(timers)
    {
      movies := [];
      isLoading := false;
      error := None;
      retryTimeout := None;
      mounted := true;
      inFlight := 0;
      timers := new TimerTable();
    }

    /** `setRetryTimeout(h)` and the cleanup of the effect on `retryTimeout`. */
    method SetRetryTimeout(h: Option<Handle>)
      modifies this, timers
      ensures Model() == FetchController.SetRetryTimeout(old(Model()), h)
    {
      if mounted && retryTimeout != h {
        timers.ClearTimeout(retryTimeout);
        retryTimeout := h;
      }
    }

    /** `fetchMoviesHandler` up to `await fetch(...)`. */
    method FetchMoviesHandler()
      requires Valid()
      modifies this
      ensures Valid() && Model() == StartFetch(old(Model()))
    {
      ghost var before := Model();
      if mounted { isLoading := true; }
      if mounted { error := None; }
      inFlight := inFlight + 1;
      StartFetchPreservesInv(before);
    }

    /** The rest of `fetchMoviesHandler`, once the request has resolved with `o`. */
    method ResponseArrives(o: Outcome)
      requires Valid() && inFlight > 0
      modifies this, timers
      ensures Valid() && Model() == CompleteFetch(old(Model()), o)
    {
      ghost var before := Model();
      var attempt := TryBlock(o);
      match attempt {
        case Ok(transformed) =>
          if mounted { movies := transformed; }
        case Err(message) =>
          if mounted { error := Some(message); }
          var timeout := timers.SetTimeout(RetryDelay);
          SetRetryTimeout(Some(timeout));
      }
      if mounted { isLoading := false; }
      inFlight := inFlight - 1;
      StepPreservesInv(before, ResponseArrived(o));
    }

    /** `handleCancelRetry`. */
    method HandleCancelRetry()
      requires Valid()
      modifies this, timers
      ensures Valid() && Model() == CancelRetry(old(Model()))
    {
      ghost var before := Model();
      timers.ClearTimeout(retryTimeout);
      if mounted { error := None; }
      CancelRetryPreservesInv(before);
    }

    /** The armed timer `h` fires and calls `fetchMoviesHandler`. */
    method RetryFires(h: Handle)
      requires Valid() && h in timers.armed
      modifies this, timers
      ensures Valid() && Model() == FireRetry(old(Model()), h)
    {
      ghost var before := Model();
      timers.Fire(h);
      StepPreservesInv(before, TimerFired(h));
      FetchMoviesHandler();
    }

    /** The component unmounts: the effect's cleanup clears the stored handle. */
    method Unmount()
      requires Valid() && mounted
      modifies this, timers
      ensures Valid() && Model() == FetchController.Unmount(old(Model()))
      ensures timers.armed == map[]
    {
      ghost var before := Model();
      timers.ClearTimeout(retryTimeout);
      mounted := false;
      StepPreservesInv(before, Unmounted);
      UnmountClearsRetry(before);
    }
  }
}
