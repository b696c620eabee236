/**
 * Properties of the controller's retry protocol and of what it shows:
 * the invariant every reachable state keeps, that a retry which has been
 * replaced, cancelled or cleaned up never fires, and where the protocol
 * differs from a "new fetch supersedes the pending retry" reading.
 */
module RetryProtocol {
  import opened Wrappers
  import opened Js
  import opened Normalizer
  import opened Display
  import opened FetchController

  /**
   * Every armed timer is a 2000 ms retry with a handle already issued, and
   * while the component is mounted the only timer that can be armed is
   * the one whose handle `retryTimeout` holds.
   */
  predicate Inv(s: State) {
    (forall h :: h in s.timers ==> h < s.nextHandle && s.timers[h] == RetryDelay)
    && (s.retryTimeout.Some? ==> s.retryTimeout.value < s.nextHandle)
    && (s.mounted ==> forall h :: h in s.timers ==> s.retryTimeout == Some(h))
  }

  lemma InitialInv()
    ensures Inv(Initial())
  {
  }

  /** `fetchMoviesHandler` keeps the invariant whoever calls it, mounted or not. */
  lemma StartFetchPreservesInv(s: State)
    requires Inv(s)
    ensures Inv(StartFetch(s))
  {
  }

  lemma CancelRetryPreservesInv(s: State)
    requires Inv(s)
    ensures Inv(CancelRetry(s))
  {
  }

  lemma StepPreservesInv(s: State, e: Event)
    requires Inv(s) && Enabled(s, e)
    ensures Inv(Step(s, e))
  {
    match e
    case FetchClicked => StartFetchPreservesInv(s);
    case CancelClicked => CancelRetryPreservesInv(s);
    case TimerFired(h) => StartFetchPreservesInv(s.(timers := s.timers - {h}));
    case _ =>
  }

  lemma {:induction false} RunPreservesInv(s: State, es: seq<Event>)
    requires Inv(s) && Trace(s, es)
    ensures Inv(Run(s, es))
    decreases |es|
  {
    if es != [] {
      StepPreservesInv(s, es[0]);
      RunPreservesInv(Step(s, es[0]), es[1..]);
    }
  }

  /** Every state the component can reach from its first render keeps the invariant. */
  lemma ReachableInv(es: seq<Event>)
    requires Trace(Initial(), es)
    ensures Inv(Run(Initial(), es))
  {
    InitialInv();
    RunPreservesInv(Initial(), es);
  }

  /** While mounted, at most one retry is ever pending, and it is the stored one. */
  lemma AtMostOneRetry(s: State)
    requires Inv(s) && s.mounted
    ensures |s.timers| <= 1
    ensures s.timers != map[] ==> s.retryTimeout.Some? && s.timers.Keys == {s.retryTimeout.value}
  {
    if s.timers != map[] {
      var h :| h in s.timers;
      assert s.timers.Keys == {h} by {
        forall k | k in s.timers.Keys ensures k == h {
          assert s.retryTimeout == Some(k) && s.retryTimeout == Some(h);
        }
      }
      assert |s.timers| == |s.timers.Keys| == 1;
    }
  }

  /**
   * A handle that has been issued and is no longer armed is never armed
   * again, so no later event is that timer firing.
   */
  lemma {:induction false} DeadHandleNeverFires(s: State, es: seq<Event>, h: Handle)
    requires Trace(s, es) && h < s.nextHandle && h !in s.timers
    ensures h !in Run(s, es).timers
    ensures forall k :: 0 <= k < |es| ==> es[k] != TimerFired(h)
    decreases |es|
  {
    if es != [] {
      var t := Step(s, es[0]);
      assert h < t.nextHandle && h !in t.timers;
      DeadHandleNeverFires(t, es[1..], h);
      forall k | 0 <= k < |es| ensures es[k] != TimerFired(h) {
        if k > 0 { assert es[k] == es[1..][k - 1]; }
      }
    }
  }

  /** A failure replaces the stored retry; the replaced one never fires afterwards. */
  lemma ReplacedRetryNeverFires(s: State, o: Outcome, es: seq<Event>)
    requires Inv(s) && s.mounted && s.inFlight > 0 && TryBlock(o).Err?
    requires Trace(CompleteFetch(s, o), es)
    ensures s.retryTimeout.Some? ==> TimerFired(s.retryTimeout.value) !in es
  {
    if s.retryTimeout.Some? {
      var t := CompleteFetch(s, o);
      DeadHandleNeverFires(t, es, s.retryTimeout.value);
      assert forall k :: 0 <= k < |es| ==> es[k] != TimerFired(s.retryTimeout.value);
    }
  }

  /** After "Cancel Retry" the pending retry never fires. */
  lemma CancelledRetryNeverFires(s: State, es: seq<Event>)
    requires Inv(s) && Trace(CancelRetry(s), es)
    ensures s.retryTimeout.Some? ==> TimerFired(s.retryTimeout.value) !in es
  {
    if s.retryTimeout.Some? {
      DeadHandleNeverFires(CancelRetry(s), es, s.retryTimeout.value);
      assert forall k :: 0 <= k < |es| ==> es[k] != TimerFired(s.retryTimeout.value);
    }
  }

  /** Unmounting a mounted component leaves no timer armed. */
  lemma UnmountClearsRetry(s: State)
    requires Inv(s) && s.mounted
    ensures Unmount(s).timers == map[]
  {
    AtMostOneRetry(s);
  }

  lemma CancelRetryIdempotent(s: State)
    ensures CancelRetry(CancelRetry(s)) == CancelRetry(s)
  {
  }

  /**
   * One whole call of `fetchMoviesHandler` on a mounted component: it
   * ends with loading off, the normalised list or the old list, and the
   * error cleared or set to the thrown message.
   */
  lemma WholeFetch(s: State, o: Outcome)
    requires s.mounted
    ensures var t := CompleteFetch(StartFetch(s), o);
      !t.isLoading && t.inFlight == s.inFlight
      && (TryBlock(o).Ok? ==> t.movies == TryBlock(o).value && t.error == None && t.timers == s.timers)
      && (TryBlock(o).Err? ==> t.movies == s.movies && t.error == Some(TryBlock(o).error)
                               && t.retryTimeout == Some(s.nextHandle))
  {
  }

  /** A status that is not ok ends in the fixed retry message and one armed 2000 ms retry. */
  lemma BadStatusArmsRetry(s: State)
    requires s.mounted
    ensures var t := CompleteFetch(StartFetch(s), BadStatus);
      t.error == Some(RetryMessage) && t.retryTimeout == Some(s.nextHandle)
      && t.timers == Cleared(s.timers, s.retryTimeout)[s.nextHandle := RetryDelay]
  {
  }

  // what the page shows

  lemma LoadingShownWhileFetching(s: State)
    requires s.mounted
    ensures Shown(StartFetch(s)) == LoadingMessage
  {
  }

  /** After a failure with a non-empty message, the message and the cancel button are shown. */
  lemma FailureShowsError(s: State, o: Outcome)
    requires s.mounted && s.inFlight > 0 && TryBlock(o).Err? && TryBlock(o).error != ""
    ensures Shown(CompleteFetch(s, o)) == ErrorView(TryBlock(o).error)
  {
  }

  /** A failing body (a bad status or a document the normaliser rejects) always shows its error. */
  lemma RejectedBodyShowsError(s: State, data: Json)
    requires s.mounted && s.inFlight > 0 && !WellFormed(data)
    ensures Shown(CompleteFetch(s, Received(data))).ErrorView?
    ensures Shown(CompleteFetch(s, BadStatus)) == ErrorView(RetryMessage)
  {
  }

  /** After a success that follows a cleared error, the list or "Found No Movies." is shown. */
  lemma SuccessShowsList(s: State, o: Outcome)
    requires s.mounted && s.inFlight > 0 && TryBlock(o).Ok? && !Truthy(s.error)
    ensures Shown(CompleteFetch(s, o))
      == if |TryBlock(o).value| > 0 then MoviesList(TryBlock(o).value) else NoMoviesFound
  {
  }

  lemma CancelHidesError(s: State)
    requires s.mounted && !s.isLoading
    ensures Shown(CancelRetry(s)) == if |s.movies| > 0 then MoviesList(s.movies) else NoMoviesFound
  {
  }

  // an explicit fetch does not supersede a pending retry

  /**
   * A failure arms retry 1; the user fetches again before it fires, and
   * that fetch succeeds: retry 1 is still armed and will fetch once more.
   * While the second fetch is loading, a retry is pending at the same time.
   */
  lemma ExplicitFetchKeepsPendingRetry()
    ensures
      var empty := ResponseArrived(Received(Obj(map["results" := Arr([])])));
      var es := [FetchClicked, ResponseArrived(BadStatus), FetchClicked];
      Trace(Initial(), es) && Run(Initial(), es).isLoading && 1 in Run(Initial(), es).timers
      && Trace(Initial(), es + [empty])
      && var t := Run(Initial(), es + [empty]);
         !t.isLoading && t.error == None && Enabled(t, TimerFired(1))
  {
    var empty := ResponseArrived(Received(Obj(map["results" := Arr([])])));
    assert WellFormed(Obj(map["results" := Arr([])]));
    var es := [FetchClicked, ResponseArrived(BadStatus), FetchClicked];
    var all := es + [empty];
    var s1 := Step(Initial(), FetchClicked);
    var s2 := Step(s1, ResponseArrived(BadStatus));
    var s3 := Step(s2, FetchClicked);
    assert Enabled(s3, empty);
    var s4 := Step(s3, empty);
    assert all[1..] == [ResponseArrived(BadStatus), FetchClicked, empty];
    assert all[1..][1..] == [FetchClicked, empty];
    assert all[1..][1..][1..] == [empty];
    assert Trace(s4, []) && Run(s4, []) == s4;
    assert Trace(s3, [empty]) && Run(s3, [empty]) == s4;
    assert Trace(s2, [FetchClicked, empty]) && Run(s2, [FetchClicked, empty]) == s4;
    assert Trace(s1, all[1..]) && Run(s1, all[1..]) == s4;
    assert es[1..][1..][1..] == [];
    assert Run(Initial(), es) == s3;
  }
}
