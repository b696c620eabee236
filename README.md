# Movie-fetch controller of the `App` component

This project models the movie-fetch controller of the React `App`
component in `src/App.js`. The controller keeps four pieces of component
state: `movies`, `isLoading`, `error` and `retryTimeout`. It runs in three ways:

- `fetchMoviesHandler` loads the film list. It turns loading on and clears the
  error, requests the list, and then either stores the normalised
  `data.results` or records the thrown message. On failure it arms a
  2000 ms retry of itself. It always ends with loading off.
- `handleCancelRetry` clears the pending retry and the error.
- An effect depending on `retryTimeout` clears the previous handle when the
  handle changes and when the component unmounts.

The render picks one thing to show, and the loading message beats the error view,
which beats the list, which beats "Found No Movies.".

The network and the timers are inputs to the model. A request ends in an
`Outcome`: the transport fails, the status is not ok, the body is not JSON,
or a JSON document arrives. Timers are a table of armed handles with
explicit fire and clear events. React ignores state updates once a
component is unmounted, so all four setters do nothing on an unmounted
state, but `setTimeout` and the network still act.

Modules, one per file:

- `Wrappers` (wrappers.dfy): `Option` and `Result`.
- `Js` (js.dfy): JSON values, `undefined`, the property read `v.key` and the TypeErrors it throws.
- `Normalizer` (normalizer.dfy): the `results.map` renaming of film records.
- `Display` (display.dfy): the content-selection chain.
- `FetchController` (controller.dfy): the state, with one function per operation, `Step` dispatching events, and traces with `Run`.
- `RetryProtocol` (retry_protocol.dfy): the invariant and the properties of the retry protocol and of what is shown.
- `RetryAfterUnmount` (retry_after_unmount.dfy): the finding below.
- `AppComponent` (app.dfy): the classes `TimerTable` (the browser's timers) and `App` (the component). The constructor and each handler of `App` (`FetchMoviesHandler`, `ResponseArrives`, `HandleCancelRetry`, `RetryFires`, `Unmount`) is proved to give the state the matching `FetchController` function gives and to keep the invariant. `SetRetryTimeout` is a helper proved to follow `FetchController.SetRetryTimeout`, and `TimerTable` models the browser's timers.

Where the code behaves differently from what one might expect, the model follows the code:

- `id` is `episode_id` as it is, a number, not a string.
- There is no `phase`; `isLoading` and `error` are separate.
- An explicit fetch does not cancel a pending retry. An explicit fetch never clears the old retry; only a new failure, Cancel Retry or unmount does. If the explicit fetch succeeds, the earlier retry still fires (`ExplicitFetchKeepsPendingRetry`). So loading and a pending retry can hold at the same time.
- `handleCancelRetry` leaves `retryTimeout` holding the cleared handle.
- A record missing a field is not an error: the field becomes `undefined`. Only a `null` record, a missing or `null` `results`, a non-array `results` or a `null` document makes the normaliser throw.
- The error view needs a truthy `error`. An empty message shows the list or "Found No Movies." instead.

## Model

| member | source | states |
|---|---|---|
| `Js.Message` | src/App.js:39 | the message a TypeError thrown by the normaliser carries is never empty, so storing it as `error` always makes `error` truthy |
| `Js.Get` | src/App.js:28-33 | the property read throws exactly on null and undefined; an object yields its own property or `undefined` |
| `Normalizer.ToMovie` | src/App.js:28-35 | the callback throws exactly on a `null` record (reading `episode_id`); otherwise it gives `id`, `title`, `openingText`, `releaseDate` equal to the record's `episode_id`, `title`, `opening_crawl`, `release_date`, `undefined` where absent |
| `Normalizer.MapRecords` | src/App.js:28-35 | `map` succeeds iff no record is `null`; then the result has the same length and order, and element i is the renaming of record i |
| `Normalizer.Transform` | src/App.js:27-35 | `data.results.map(...)` succeeds iff the document is an object whose `results` is an array with no `null` record; then it gives the element-wise renaming of `results`; a `null` document fails reading `results`, and a missing `results` fails reading `map` |
| `Normalizer.NewHopeExample` | src/App.js:28-35 | the one-film "A New Hope" payload becomes the one movie with `id` 4 and the same title, crawl and date |
| `Display.SelectContent` | src/App.js:53-67 | loading is shown iff `isLoading`; otherwise the error view with `error` iff `error` is truthy; otherwise the list iff `movies` is non-empty; otherwise "Found No Movies." |
| `FetchController.TryBlock` | src/App.js:22-36 | a non-ok status throws "Something went wrong ...Retrying"; a transport or JSON failure throws its own message; a body succeeds iff it is well formed and then gives its normalised `results`; a rejected body throws a non-empty message |
| `FetchController.SetMovies` | src/App.js:7 | the setter stores the list on a mounted component, is dropped on an unmounted one, and changes nothing else |
| `FetchController.SetIsLoading` | src/App.js:8 | the setter stores the flag on a mounted component, is dropped on an unmounted one, and changes nothing else |
| `FetchController.SetError` | src/App.js:9 | the setter stores the error on a mounted component, is dropped on an unmounted one, and changes nothing else |
| `FetchController.SetRetryTimeout` | src/App.js:12-17 | storing a handle on a mounted component replaces `retryTimeout`; when it differs from the stored one, the effect's cleanup clears the old handle; on an unmounted component nothing changes |
| `FetchController.StartFetch` | src/App.js:19-23 | before any result is known, loading is on and `error` is null, one more request is outstanding, and nothing else changes |
| `FetchController.CompleteFetch` | src/App.js:24-44 | loading ends off; on success `movies` becomes the normalised list and the retry state is untouched; on any failure `movies` is unchanged, `error` is the message, one new 2000 ms timer is armed and stored in `retryTimeout`, and the previously stored handle is cleared |
| `FetchController.CancelRetry` | src/App.js:47-51 | the stored handle is no longer armed and `error` is null; `movies`, `isLoading` and `retryTimeout` are unchanged |
| `FetchController.FireRetry` | src/App.js:41 | a firing retry is disarmed, and `fetchMoviesHandler` then turns loading on, clears `error` and sends one more request; the other timers, the list and the stored handle are unchanged |
| `FetchController.Unmount` | src/App.js:12-17 | unmounting clears the stored handle and changes nothing else |
| `RetryProtocol.InitialInv` | src/App.js:7-10 | the first render satisfies the retry invariant |
| `RetryProtocol.StartFetchPreservesInv` | src/App.js:19-23 | starting a fetch keeps the invariant, whether the component is mounted or not |
| `RetryProtocol.CancelRetryPreservesInv` | src/App.js:47-51 | cancelling keeps the invariant |
| `RetryProtocol.StepPreservesInv` | src/App.js:12-51 | every possible event keeps the invariant: armed timers are issued 2000 ms retries, and while mounted only the stored handle can be armed |
| `RetryProtocol.RunPreservesInv` | src/App.js:12-51 | every possible sequence of events keeps the invariant |
| `RetryProtocol.ReachableInv` | src/App.js:7-51 | every state reachable from the first render satisfies the invariant |
| `RetryProtocol.AtMostOneRetry` | src/App.js:12-17 | while mounted at most one retry is armed, and it is the one `retryTimeout` holds |
| `RetryProtocol.DeadHandleNeverFires` | src/App.js:12-17 | an issued handle that is no longer armed is never armed again and never fires in any later sequence of events |
| `RetryProtocol.ReplacedRetryNeverFires` | src/App.js:12-17 | after a failure replaces the stored handle, the replaced retry never fires |
| `RetryProtocol.CancelledRetryNeverFires` | src/App.js:47-51 | after "Cancel Retry" the cancelled retry never fires |
| `RetryProtocol.UnmountClearsRetry` | src/App.js:12-17 | unmounting a mounted component leaves no timer armed |
| `RetryProtocol.CancelRetryIdempotent` | src/App.js:47-51 | cancelling twice has the same effect as cancelling once |
| `RetryProtocol.WholeFetch` | src/App.js:19-45 | a whole handler call on a mounted component ends with loading off; success stores the normalised list, clears `error` and leaves the timers alone; failure keeps the list, stores the message and the new handle |
| `RetryProtocol.BadStatusArmsRetry` | src/App.js:24-25 | a non-ok status stores the fixed retry message and arms exactly one 2000 ms retry, clearing the old one |
| `RetryProtocol.LoadingShownWhileFetching` | src/App.js:20 | "Loading..." is shown as soon as a fetch starts |
| `RetryProtocol.FailureShowsError` | src/App.js:37-42 | after a failure with a non-empty message, the error view shows that message |
| `RetryProtocol.RejectedBodyShowsError` | src/App.js:24-39 | a rejected body or a non-ok status always ends in the error view |
| `RetryProtocol.SuccessShowsList` | src/App.js:36 | after a success with no error standing, the list is shown, or "Found No Movies." when it is empty |
| `RetryProtocol.CancelHidesError` | src/App.js:47-51 | after cancelling while not loading, the list or "Found No Movies." is shown instead of the error view |
| `RetryProtocol.ExplicitFetchKeepsPendingRetry` | src/App.js:19-45 | after a failure, an explicit fetch that succeeds leaves the earlier retry armed; while that fetch loads, a retry is pending |
| `RetryAfterUnmount.UnmountDuringFetchLeavesRetry` | src/App.js:12-17 | unmounting while a request is outstanding, and having that request fail, leaves a retry armed on an unmounted component |
| `RetryAfterUnmount.RetriesAfterUnmountNeverStop` | src/App.js:41-42 | on an unmounted component an armed retry fires, fails and arms the next one, so the loop goes on for as long as requests keep failing |
| `RetryAfterUnmount.GuardedCompleteFetch` | src/App.js:22-44 | the corrected handler is the written one while mounted and arms nothing once unmounted |
| `RetryAfterUnmount.GuardedAgreesWhileMounted` | src/App.js:12-51 | the corrected controller takes the same steps as the written one while mounted |
| `RetryAfterUnmount.GuardedUnmountedStaysQuiet` | src/App.js:12-17 | with the correction, an unmounted component with no armed timer never gets one |
| `RetryAfterUnmount.GuardedUnmountIsQuiet` | src/App.js:12-17 | with the correction, unmounting reaches that quiet state |
| `RetryAfterUnmount.GuardedQuietForever` | src/App.js:12-17 | with the correction, once an unmounted component has no timer armed, no timer fires and none is armed in any later sequence of events |
| `RetryAfterUnmount.GuardedNoRetryAfterUnmount` | src/App.js:12-17 | with the correction, after a reachable mounted component unmounts, no retry ever fires |
| `AppComponent.TimerTable.SetTimeout` | src/App.js:41 | `setTimeout` arms a new handle with the given delay |
| `AppComponent.TimerTable.ClearTimeout` | src/App.js:15 | `clearTimeout` disarms the handle; null and dead handles are no-ops |
| `AppComponent.TimerTable.Fire` | src/App.js:41 | a timer that runs out is disarmed |
| `AppComponent.App.constructor` | src/App.js:7-10 | the first render: empty list, not loading, no error, no handle, no timer |
| `AppComponent.App.SetRetryTimeout` | src/App.js:12-17 | storing a different handle clears the old one |
| `AppComponent.App.FetchMoviesHandler` | src/App.js:19-23 | the state becomes `StartFetch` of the old state and the invariant holds |
| `AppComponent.App.ResponseArrives` | src/App.js:24-44 | the state becomes `CompleteFetch` of the old state and outcome and the invariant holds |
| `AppComponent.App.HandleCancelRetry` | src/App.js:47-51 | the state becomes `CancelRetry` of the old state and the invariant holds |
| `AppComponent.App.RetryFires` | src/App.js:41 | the state becomes `FireRetry` of the old state and the invariant holds |
| `AppComponent.App.Unmount` | src/App.js:12-17 | the state becomes `Unmount` of the old state, no timer is left armed, and the invariant holds |

## Left out

- The HTTP request and the endpoint URL are network I/O; a request's result is the `Outcome` input.
- Real time: the 2000 ms delay is recorded with each timer, and firing is an explicit event that can come at any point.
- JSX, the `MoviesList` component, the stylesheet and the button wiring are presentation. Only the choice of what to show is modelled, as `Display.SelectContent`.
- React batching and the deferral of effects to after the commit. Each handler's steps run in program order, and the effect's cleanup runs at the `setRetryTimeout` that changes the handle. `RetryProtocol.AtMostOneRetry` and `RetryProtocol.ReplacedRetryNeverFires` rely on this. If two failing requests both finish before React commits, each arms a timer, but the cleanup clears only the handle stored before either of them. The first new handle is then never stored or cleared, and two retries are armed while mounted.
- Stale closures: `handleCancelRetry` reads `retryTimeout` as rendered; the model uses the current value.
- Interleaving inside one handler call: the part before the first `await` (the request) is one atomic step, and everything after it is another. The second `await` (`response.json()`) is merged into that second step; nothing observable happens between the two awaits, since the code there only checks the status and throws. Any number of requests may be outstanding, and their results can arrive in any order.
- `console.log` has no effect on state.
- Create and delete of movies are not part of the code.
- JSON numbers are modelled as integers, not as double-precision floats.
- `Js.Message`: gives V8's wording of TypeError messages; other engines word them differently; the rest of the model relies only on their being non-empty.
- `Js.Get`: ignores built-in properties such as `length`; none of the keys the normaliser reads names one.

## Findings

| source | as written | input that shows it | evidently intended | confidence | as-written member | corrected member |
|---|---|---|---|---|---|---|
| src/App.js:12-17, 41-42 | the unmount cleanup clears only the handle stored at that moment; a request outstanding at unmount that then fails arms a new retry whose `setRetryTimeout` React drops, so nothing clears it, and each retry re-arms the next | click "Fetch Movies", unmount before the response, the response has a non-ok status | no retry runs after the component unmounts, as the comment at line 14 says | not executed | `RetryAfterUnmount.UnmountDuringFetchLeavesRetry` | `RetryAfterUnmount.GuardedCompleteFetch` |

The classes in app.dfy follow the code as written. `GuardedCompleteFetch`, with
`GuardedUnmountedStaysQuiet`, `GuardedUnmountIsQuiet`, `GuardedQuietForever` and `GuardedNoRetryAfterUnmount`, shows that
arming the retry only while mounted ends all retries at unmount, and
`GuardedAgreesWhileMounted` shows that the correction changes nothing while mounted.
