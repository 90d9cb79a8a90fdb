/**
 Discovery of a session's application-master plugin endpoint: the cached
 (version, info) pair fed by registry updates, and the single waiter that may
 wait for the info with a timeout.

 Every synchronized block on the session's info lock is one transition below.
 A future handed out by the session is an index into `futures`; a timeout timer
 handed to the scheduler is an index into `timers`. Both lists only grow.
 */
module Discovery {
  import opened Wrappers
  import VersionGate

  /** Host, plugin port, token and token job id of the application master. */
  datatype AmPluginInfo = AmPluginInfo(host: string, port: int, token: string, tokenJobId: string)

  /** What a future resolved to: the session itself, an exception, or a cancellation. */
  datatype FutureStatus = Pending | Resolved | Failed | Cancelled

  /** A timeout timer: waiting to run, asked to cancel (which may lose the race
      with the timer thread), or already run. */
  datatype TimerStatus = Scheduled | CancelRequested | Fired

  type FutureId = nat
  type TimerId = nat

  datatype State = State(
    info: Option<AmPluginInfo>,
    version: Option<int>,
    waiter: Option<FutureId>,
    timer: Option<TimerId>,
    futures: seq<FutureStatus>,
    timers: seq<TimerStatus>)

  /** A new session: nothing cached, nobody waiting. */
  const Init := State(None, None, None, None, [], [])

  /** The waiter and timer references point at futures and timers that exist. */
  predicate WellFormed(s: State)
  {
    && (s.waiter.Some? ==> s.waiter.value < |s.futures|)
    && (s.timer.Some? ==> s.timer.value < |s.timers|)
  }

  /** What holds in every reachable state. */
  predicate Valid(s: State)
  {
    && WellFormed(s)
    // the referenced timer has not run and has not been asked to cancel
    && (s.timer.Some? ==> s.timers[s.timer.value] == Scheduled)
    // a timer reference never outlives the waiter it guards
    && (s.timer.Some? ==> s.waiter.Some?)
    // once the info is known nobody waits for it
    && (s.info.Some? ==> s.waiter.None? && s.version.Some?)
    // the only pending future is the waiter: at most one wait is outstanding
    && (forall f :: 0 <= f < |s.futures| && s.futures[f] == Pending ==> s.waiter == Some(f))
  }

  lemma InitValid()
    ensures Valid(Init)
  {
  }

  /** Completing a future: only the first completion takes effect. */
  function Settle(fs: seq<FutureStatus>, f: FutureId, outcome: FutureStatus): (r: seq<FutureStatus>)
    requires f < |fs|
    requires outcome != Pending
    ensures |r| == |fs|
    ensures r[f] != Pending
    ensures fs[f] != Pending ==> r[f] == fs[f]
    ensures forall g :: 0 <= g < |fs| && g != f ==> r[g] == fs[g]
  {
    if fs[f] == Pending then fs[f := outcome] else fs
  }

  /** The cached part of the state and the two references are the same. */
  predicate SameSession(s: State, t: State)
  {
    s.info == t.info && s.version == t.version && s.waiter == t.waiter && s.timer == t.timer
  }

  datatype WaitResult = WaitResult(state: State, future: FutureId)

  /** A caller asks to be told when the info is known, waiting at most
      `timeoutMs` milliseconds when it is positive. */
  function WaitForAmRegistryAsync(s: State, timeoutMs: int): (r: WaitResult)
    requires WellFormed(s)
    ensures WellFormed(r.state)
    ensures r.future == |s.futures| && |r.state.futures| == |s.futures| + 1
    ensures r.state.futures[..|s.futures|] == s.futures
    // info already known: an already resolved future, nothing else changes
    ensures s.info.Some? ==>
      r.state.futures[r.future] == Resolved && SameSession(s, r.state) && r.state.timers == s.timers
    // someone already waits: the new future fails, the existing wait is untouched
    ensures s.info.None? && s.waiter.Some? ==>
      r.state.futures[r.future] == Failed && SameSession(s, r.state) && r.state.timers == s.timers
    // otherwise the new future is the waiter, guarded by a fresh timer iff the timeout is positive
    ensures s.info.None? && s.waiter.None? ==>
      && r.state.futures[r.future] == Pending
      && r.state.waiter == Some(r.future)
      && r.state.info == s.info && r.state.version == s.version
      && (timeoutMs > 0 ==> r.state.timer == Some(|s.timers|) && r.state.timers == s.timers + [Scheduled])
      && (timeoutMs <= 0 ==> r.state.timer == s.timer && r.state.timers == s.timers)
  {
    var f := |s.futures|;
    if s.info.Some? then
      WaitResult(s.(futures := s.futures + [Resolved]), f)
    else if s.waiter.Some? then
      WaitResult(s.(futures := s.futures + [Failed]), f)
    else
      var s' := s.(futures := s.futures + [Pending], waiter := Some(f));
      if timeoutMs <= 0 then WaitResult(s', f)
      else WaitResult(s'.(timer := Some(|s.timers|), timers := s.timers + [Scheduled]), f)
  }

  /** The registry reports version `version` of the endpoint, with `None` for its removal. */
  function UpdateFromRegistry(s: State, version: int, info: Option<AmPluginInfo>): (r: State)
    requires WellFormed(s)
    ensures WellFormed(r)
    ensures |r.futures| == |s.futures| && |r.timers| == |s.timers|
    // a rejected update changes nothing
    ensures !VersionGate.Accepts(s.version, version, info) ==> r == s
    // an accepted update replaces the cached pair
    ensures VersionGate.Accepts(s.version, version, info) ==> r.info == info && r.version == Some(version)
    // a removal touches nothing but the cache
    ensures VersionGate.Accepts(s.version, version, info) && info.None? ==>
      r.waiter == s.waiter && r.timer == s.timer && r.futures == s.futures && r.timers == s.timers
    // new info releases the waiter with the session and drops both references
    ensures VersionGate.Accepts(s.version, version, info) && info.Some? ==>
      && r.waiter.None? && r.timer.None?
      && (s.waiter.Some? ==> r.futures[s.waiter.value] == (if s.futures[s.waiter.value] == Pending then Resolved else s.futures[s.waiter.value]))
      && (forall g :: 0 <= g < |s.futures| && Some(g) != s.waiter ==> r.futures[g] == s.futures[g])
      && (s.timer.Some? ==> r.timers[s.timer.value] == (if s.timers[s.timer.value] == Scheduled then CancelRequested else s.timers[s.timer.value]))
      && (forall t :: 0 <= t < |s.timers| && Some(t) != s.timer ==> r.timers[t] == s.timers[t])
  {
    if VersionGate.IsOutdated(s.version, version, info) then s
    else
      var s1 := s.(version := Some(version), info := info);
      if info.None? then s1
      else
        var s2 := if s1.waiter.Some? then s1.(futures := Settle(s1.futures, s1.waiter.value, Resolved), waiter := None) else s1;
        if s2.timer.Some? then
          var t := s2.timer.value;
          s2.(timers := if s2.timers[t] == Scheduled then s2.timers[t := CancelRequested] else s2.timers, timer := None)
        else s2
  }

  /** The timer thread runs timer `t`. The run does not check that `t` is the
      timer the session currently references, nor which waiter it was
      scheduled for. */
  function OnTimeout(s: State, t: TimerId): (r: State)
    requires WellFormed(s)
    requires t < |s.timers| && s.timers[t] != Fired
    ensures WellFormed(r)
    ensures r.timer.None?
    ensures r.timers == s.timers[t := Fired]
    ensures r.info == s.info && r.version == s.version
    // a pending waiter is cancelled and dropped
    ensures s.waiter.Some? && s.futures[s.waiter.value] == Pending ==>
      r.waiter.None? && r.futures == s.futures[s.waiter.value := Cancelled]
    // otherwise only the timer reference goes
    ensures !(s.waiter.Some? && s.futures[s.waiter.value] == Pending) ==>
      r.waiter == s.waiter && r.futures == s.futures
  {
    var s1 := s.(timer := None, timers := s.timers[t := Fired]);
    if s1.waiter.None? || s1.futures[s1.waiter.value] != Pending then s1
    else s1.(futures := s1.futures[s1.waiter.value := Cancelled], waiter := None)
  }

  /** The holder of future `f` cancels it; the session still references it if it is the waiter. */
  function CallerCancels(s: State, f: FutureId): (r: State)
    requires WellFormed(s)
    requires f < |s.futures|
    ensures WellFormed(r)
    ensures SameSession(s, r) && r.timers == s.timers
    ensures |r.futures| == |s.futures|
    ensures r.futures[f] == (if s.futures[f] == Pending then Cancelled else s.futures[f])
    ensures forall g :: 0 <= g < |s.futures| && g != f ==> r.futures[g] == s.futures[g]
  {
    s.(futures := Settle(s.futures, f, Cancelled))
  }

  /** The cached pair as a reader sees it: the info and, beside it, its version. */
  function GetAmPluginInfo(s: State): (Option<AmPluginInfo>, Option<int>)
  {
    (s.info, s.version)
  }

  /** A reader sees exactly the pair of the last accepted update, and a
      rejected update leaves what it saw unchanged. */
  lemma ReadAfterUpdate(s: State, version: int, info: Option<AmPluginInfo>)
    requires WellFormed(s)
    ensures VersionGate.Accepts(s.version, version, info) ==>
      GetAmPluginInfo(UpdateFromRegistry(s, version, info)) == (info, Some(version))
    ensures !VersionGate.Accepts(s.version, version, info) ==>
      GetAmPluginInfo(UpdateFromRegistry(s, version, info)) == GetAmPluginInfo(s)
  {
  }

  /** Everything that can happen to the discovery state. */
  datatype Event =
    | Update(version: int, info: Option<AmPluginInfo>)
    | Wait(timeoutMs: int)
    | TimerFires(timer: TimerId)
    | Cancel(future: FutureId)

  predicate Enabled(s: State, e: Event)
  {
    match e
    case TimerFires(t) => t < |s.timers| && s.timers[t] != Fired
    case Cancel(f) => f < |s.futures|
    case _ => true
  }

  function Step(s: State, e: Event): (r: State)
    requires WellFormed(s) && Enabled(s, e)
    ensures WellFormed(r)
  {
    match e
    case Update(v, i) => UpdateFromRegistry(s, v, i)
    case Wait(ms) => WaitForAmRegistryAsync(s, ms).state
    case TimerFires(t) => OnTimeout(s, t)
    case Cancel(f) => CallerCancels(s, f)
  }

  /** Every event of `es` is enabled when its turn comes. */
  predicate Runnable(s: State, es: seq<Event>)
    decreases |es|
  {
    WellFormed(s) && (|es| == 0 || (Enabled(s, es[0]) && Runnable(Step(s, es[0]), es[1..])))
  }

  function Run(s: State, es: seq<Event>): State
    requires Runnable(s, es)
    decreases |es|
  {
    if |es| == 0 then s else Run(Step(s, es[0]), es[1..])
  }

  /** Every transition keeps the reachable-state invariant. */
  lemma StepPreservesValid(s: State, e: Event)
    requires Valid(s) && Enabled(s, e)
    ensures Valid(Step(s, e))
  {
  }

  /** The invariant holds after any run from a valid state, in particular from `Init`. */
  lemma {:induction false} RunPreservesValid(s: State, es: seq<Event>)
    requires Valid(s) && Runnable(s, es)
    ensures Valid(Run(s, es))
    decreases |es|
  {
    if |es| > 0 {
      StepPreservesValid(s, es[0]);
      RunPreservesValid(Step(s, es[0]), es[1..]);
    }
  }

  /** In a valid state at most one future is pending, and a timer is referenced
      only while a waiter is. */
  lemma SingleWaiter(s: State, f: FutureId, g: FutureId)
    requires Valid(s)
    requires f < |s.futures| && g < |s.futures|
    requires s.futures[f] == Pending && s.futures[g] == Pending
    ensures f == g
    ensures s.waiter == Some(f)
  {
  }

  /** A future, once completed, keeps its outcome, and nothing is forgotten:
      the first completion wins. */
  predicate Extends(s: State, r: State)
  {
    && |s.futures| <= |r.futures| && |s.timers| <= |r.timers|
    && (forall f :: 0 <= f < |s.futures| && s.futures[f] != Pending ==> r.futures[f] == s.futures[f])
    && (forall t :: 0 <= t < |s.timers| && s.timers[t] == Fired ==> r.timers[t] == Fired)
  }

  lemma StepExtends(s: State, e: Event)
    requires WellFormed(s) && Enabled(s, e)
    ensures Extends(s, Step(s, e))
  {
  }

  lemma {:induction false} RunExtends(s: State, es: seq<Event>)
    requires Runnable(s, es)
    ensures Extends(s, Run(s, es))
    decreases |es|
  {
    if |es| > 0 {
      var s1 := Step(s, es[0]);
      StepExtends(s, es[0]);
      RunExtends(s1, es[1..]);
    }
  }

  /** A version once cached is never replaced by an older one, whatever happens. */
  predicate VersionAtLeast(later: Option<int>, earlier: Option<int>)
  {
    earlier.Some? ==> later.Some? && later.value >= earlier.value
  }

  lemma {:induction false} RunVersionNeverGoesBack(s: State, es: seq<Event>)
    requires Runnable(s, es)
    ensures VersionAtLeast(Run(s, es).version, s.version)
    decreases |es|
  {
    if |es| > 0 {
      var s1 := Step(s, es[0]);
      assert VersionAtLeast(s1.version, s.version);
      RunVersionNeverGoesBack(s1, es[1..]);
    }
  }

  const InfoA := AmPluginInfo("host-a", 1, "token-a", "job-a")

  /** A timer whose cancellation lost the race still runs later and cancels a
      waiter it was never scheduled for: wait with a timeout (timer 0), the info
      arrives (timer 0 asked to cancel), the endpoint is removed, a second wait
      starts (timer 1), then timer 0 runs. The second wait ends cancelled long
      before its own timeout, and timer 1 stays scheduled with no reference to it. */
  lemma StaleTimerCancelsLaterWaiter()
    ensures var es := [Wait(100), Update(1, Some(InfoA)), Update(2, None), Wait(100), TimerFires(0)];
      && Runnable(Init, es)
      && Run(Init, es).futures == [Resolved, Cancelled]
      && Run(Init, es).timers == [Fired, Scheduled]
      && Run(Init, es).waiter.None? && Run(Init, es).timer.None?
  {
    var es := [Wait(100), Update(1, Some(InfoA)), Update(2, None), Wait(100), TimerFires(0)];
    StaleTimerFirstSteps();
    StaleTimerLastSteps();
    assert es[4..] == [TimerFires(0)] && es[4..][1..] == [];
    RunFirst(StaleS4, es[4..]);
    RunFirst(StaleS3, es[3..]);
    RunFirst(StaleS2, es[2..]);
    RunFirst(StaleS1, es[1..]);
    RunFirst(Init, es);
  }

  /** The states the stale-timer run passes through. */
  const StaleS1 := State(None, None, Some(0), Some(0), [Pending], [Scheduled])
  const StaleS2 := State(Some(InfoA), Some(1), None, None, [Resolved], [CancelRequested])
  const StaleS3 := State(None, Some(2), None, None, [Resolved], [CancelRequested])
  const StaleS4 := State(None, Some(2), Some(1), Some(1), [Resolved, Pending], [CancelRequested, Scheduled])
  const StaleS5 := State(None, Some(2), None, None, [Resolved, Cancelled], [Fired, Scheduled])

  lemma StaleTimerFirstSteps()
    ensures Step(Init, Wait(100)) == StaleS1
    ensures Step(StaleS1, Update(1, Some(InfoA))) == StaleS2
    ensures Step(StaleS2, Update(2, None)) == StaleS3
  {
  }

  lemma StaleTimerLastSteps()
    ensures Step(StaleS3, Wait(100)) == StaleS4
    ensures Enabled(StaleS4, TimerFires(0)) && Step(StaleS4, TimerFires(0)) == StaleS5
  {
  }

  /** A run is its first step followed by the rest. */
  lemma RunFirst(s: State, es: seq<Event>)
    requires |es| > 0 && WellFormed(s) && Enabled(s, es[0])
    requires Runnable(Step(s, es[0]), es[1..])
    ensures Runnable(s, es)
    ensures Run(s, es) == Run(Step(s, es[0]), es[1..])
  {
  }

  /** A second wait fails at once while the first stays pending, and the first
      is resolved when the info arrives. */
  lemma SecondWaitFailsFirstResolves()
    ensures var a := WaitForAmRegistryAsync(Init, 100);
            var b := WaitForAmRegistryAsync(a.state, 100);
            var c := UpdateFromRegistry(b.state, 1, Some(InfoA));
            && b.state.futures == [Pending, Failed]
            && c.futures == [Resolved, Failed]
            && c.timers == [CancelRequested]
  {
  }

  /** A timeout before the info arrives leaves the future cancelled; the later
      info is still cached but resolves nothing. */
  lemma TimeoutBeforeInfo()
    ensures var a := WaitForAmRegistryAsync(Init, 100);
            var b := OnTimeout(a.state, 0);
            var c := UpdateFromRegistry(b, 1, Some(InfoA));
            && b.futures == [Cancelled]
            && c.futures == [Cancelled]
            && c.info == Some(InfoA)
  {
  }
}
