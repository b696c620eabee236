/**
 * The unmount cleanup clears only the handle stored at that moment. A
 * request still outstanding when the component unmounts goes on, and if
 * it fails the handler arms a fresh retry; React drops the
 * `setRetryTimeout` of an unmounted component, so no cleanup ever clears
 * that timer. The retry fetches again, fails again and re-arms, with no
 * end. The first half below shows this of the controller as written; the
 * second gives a handler that arms its retry only while mounted and
 * proves that, then, nothing is armed once the component is gone.
 */
module RetryAfterUnmount {
  import opened FetchController
  import opened RetryProtocol

  /** Unmount while the first request is outstanding; it fails and arms timer 1. */
  lemma UnmountDuringFetchLeavesRetry()
    ensures var es := [FetchClicked, Unmounted, ResponseArrived(BadStatus)];
      Trace(Initial(), es) && !Run(Initial(), es).mounted && 1 in Run(Initial(), es).timers
  {
    var es := [FetchClicked, Unmounted, ResponseArrived(BadStatus)];
    var s1 := Step(Initial(), FetchClicked);
    var s2 := Step(s1, Unmounted);
    var s3 := Step(s2, ResponseArrived(BadStatus));
    assert es[1..] == [Unmounted, ResponseArrived(BadStatus)];
    assert es[1..][1..] == [ResponseArrived(BadStatus)];
    assert es[1..][1..][1..] == [];
    assert Trace(s3, []) && Run(s3, []) == s3;
    assert Trace(s2, es[1..][1..]) && Run(s2, es[1..][1..]) == s3;
    assert Trace(s1, es[1..]) && Run(s1, es[1..]) == s3;
  }

  /**
   * Once unmounted with a timer armed, the timer can fire and its request
   * fail, which arms the next timer: the same situation one round later.
   */
  lemma RetriesAfterUnmountNeverStop(s: State, h: Handle)
    requires !s.mounted && h in s.timers
    ensures var es := [TimerFired(h), ResponseArrived(BadStatus)];
      Trace(s, es) && !Run(s, es).mounted && s.nextHandle in Run(s, es).timers
      && Run(s, es).inFlight == s.inFlight
  {
    var es := [TimerFired(h), ResponseArrived(BadStatus)];
    var s1 := Step(s, TimerFired(h));
    var s2 := Step(s1, ResponseArrived(BadStatus));
    assert es[1..] == [ResponseArrived(BadStatus)] && es[1..][1..] == [];
    assert Trace(s2, []) && Run(s2, []) == s2;
    assert Trace(s1, es[1..]) && Run(s1, es[1..]) == s2;
  }

  /** The intended handler: once unmounted, a response changes nothing but the count of outstanding requests. */
  function GuardedCompleteFetch(s: State, o: Outcome): (t: State)
    requires s.inFlight > 0
    ensures s.mounted ==> t == CompleteFetch(s, o)
    ensures !s.mounted ==> t.timers == s.timers && !t.mounted && t.inFlight == s.inFlight - 1
  {
    if s.mounted then CompleteFetch(s, o) else s.(inFlight := s.inFlight - 1)
  }

  function GuardedStep(s: State, e: Event): State
    requires Enabled(s, e)
  {
    match e
    case ResponseArrived(o) => GuardedCompleteFetch(s, o)
    case _ => Step(s, e)
  }

  /** While mounted, the guarded handler behaves exactly as the one written. */
  lemma GuardedAgreesWhileMounted(s: State, e: Event)
    requires Enabled(s, e) && s.mounted
    ensures GuardedStep(s, e) == Step(s, e)
  {
  }

  /** After the guarded handler's component unmounts, no step ever arms a timer. */
  lemma GuardedUnmountedStaysQuiet(s: State, e: Event)
    requires !s.mounted && s.timers == map[] && Enabled(s, e)
    ensures !GuardedStep(s, e).mounted && GuardedStep(s, e).timers == map[]
  {
  }

  /** Unmounting starts that quiet state from any reachable mounted state. */
  lemma GuardedUnmountIsQuiet(s: State)
    requires Inv(s) && s.mounted
    ensures var t := GuardedStep(s, Unmounted); !t.mounted && t.timers == map[]
  {
    UnmountClearsRetry(s);
  }

  /** `es` can happen, one event after the other, under the corrected handler. */
  predicate GuardedTrace(s: State, es: seq<Event>)
    decreases |es|
  {
    es == [] || (Enabled(s, es[0]) && GuardedTrace(GuardedStep(s, es[0]), es[1..]))
  }

  function GuardedRun(s: State, es: seq<Event>): State
    requires GuardedTrace(s, es)
    decreases |es|
  {
    if es == [] then s else GuardedRun(GuardedStep(s, es[0]), es[1..])
  }

  /** Once unmounted with no timer armed, no timer is ever armed or fires again. */
  lemma {:induction false} GuardedQuietForever(s: State, es: seq<Event>)
    requires !s.mounted && s.timers == map[] && GuardedTrace(s, es)
    ensures GuardedRun(s, es).timers == map[]
    ensures forall k :: 0 <= k < |es| ==> !es[k].TimerFired?
    decreases |es|
  {
    if es != [] {
      GuardedUnmountedStaysQuiet(s, es[0]);
      GuardedQuietForever(GuardedStep(s, es[0]), es[1..]);
      forall k | 0 <= k < |es| ensures !es[k].TimerFired? {
        if k > 0 { assert es[k] == es[1..][k - 1]; }
      }
    }
  }

  /** With the correction, no retry fires after a reachable mounted component unmounts. */
  lemma GuardedNoRetryAfterUnmount(s: State, es: seq<Event>)
    requires Inv(s) && s.mounted && GuardedTrace(s, [Unmounted] + es)
    ensures GuardedRun(s, [Unmounted] + es).timers == map[]
    ensures forall k :: 0 <= k < |es| ==> !es[k].TimerFired?
  {
    GuardedUnmountIsQuiet(s);
    assert ([Unmounted] + es)[1..] == es;
    GuardedQuietForever(GuardedStep(s, Unmounted), es);
  }
}
