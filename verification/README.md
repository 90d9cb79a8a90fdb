# WmTezSession coordination state, in Dafny

This project models the per-session coordination state that Hive's workload
manager keeps for a Tez session (`WmTezSession`). Each `synchronized` block is
one pure transition over an immutable state record. There are four parts:

- **VersionGate** (`version_gate.dfy`): the rule deciding whether a registry
  update `(version, info-or-null)` replaces the cached
  `(amPluginendpointVersion, amPluginInfo)` pair.
- **Discovery** (`discovery.dfy`): the cached pair, the single waiter future
  handed out by `waitForAmRegistryAsync`, and its timeout timer. Futures are
  indices into a list of statuses (`Pending | Resolved | Failed | Cancelled`).
  Timers are indices into a list of timer statuses
  (`Scheduled | CancelRequested | Fired`). The environment may run any timer
  that has not run yet, including one whose `cancel` was requested. That is how
  `cancel(true)` losing the race with the timer thread is modelled. The holder
  of a future may also cancel it; this is why the timeout run checks `isDone()`.
- **GuaranteedAllocation** (`guaranteed_allocation.dfy`): `ActualWmState`, the
  three ints `sending`, `sent`, `target` with `-1` for none, and the
  send / delivered / failed operations. Runs of the coordinator interleave
  manager requests, deliveries, failures and the re-requests a sender owes
  after a delivery or a failure; each of these is a separate call.
- **KillLatch** (`kill_latch.dfy`): the kill reason, with its setter and readers.

`wrappers.dfy` holds `Option`, which stands for Java's nullable references.

Four behaviours of the code worth knowing:

- The timeout run (`TimeoutRunnable.run`) does not check that the timer running
  is the one the session references, or that the waiter is the one it was
  scheduled for. `Discovery.StaleTimerCancelsLaterWaiter` replays such a run.
  A timer whose cancellation lost the race cancels a later waiter early. The
  later waiter's own timer is left scheduled with no reference to it.
- There is no separate begin-send step. `SetSendingGuaranteed` itself moves the
  value into `sending` when it answers true.
- `SetIsIrrelevantForWm` refuses only a missing reason. A second reason
  overwrites the first without a fault.
- A sender's re-request after a delivery carries the target it was shown, and
  it is a separate call. A manager request in between can be overwritten by it.
  `GuaranteedAllocation.LateResendOverwritesRequest` replays this: 9 is
  requested and sent, then the late re-request of 7 makes 7 the target again,
  and 7 is what ends up delivered.

## Model

| member | source | states |
|---|---|---|
| VersionGate.Apply | ql/src/java/org/apache/hadoop/hive/ql/exec/tez/WmTezSession.java:99-108 | an update the case-by-case rule rejects leaves the cache as it was; one it accepts makes the cache exactly (version, info); the cached version never decreases |
| VersionGate.OutdatedIffRejected | ql/src/java/org/apache/hadoop/hive/ql/exec/tez/WmTezSession.java:100-106 | the code's test rejects an update iff the rule rejects it: no version cached accepts; an older version is rejected; at the cached version only a removal passes; a newer version is accepted |
| VersionGate.ApplyAllNeverGoesBack | ql/src/java/org/apache/hadoop/hive/ql/exec/tez/WmTezSession.java:100-107 | over any delivery sequence the cached version never goes below the version cached before it |
| VersionGate.ApplyAllReachesHighestVersion | ql/src/java/org/apache/hadoop/hive/ql/exec/tez/WmTezSession.java:100-107 | after a non-empty delivery sequence, the cached version is at least every delivered version, and it is one of them or the earlier cached one |
| VersionGate.GateExamples | ql/src/java/org/apache/hadoop/hive/ql/exec/tez/WmTezSession.java:100-108 | (1,A) then (1,null) are both taken; (1,A) then (1,B) leaves (1,A); (2,B) after (1,A) is taken, and (1,C) afterwards is not |
| Discovery.WaitForAmRegistryAsync | ql/src/java/org/apache/hadoop/hive/ql/exec/tez/WmTezSession.java:72-92 | with info cached the new future is already resolved and the session is unchanged; with a waiter pending the new future fails and the waiter and timer are untouched; otherwise the new future becomes the pending waiter, and a fresh timer is recorded iff the timeout is positive |
| Discovery.UpdateFromRegistry | ql/src/java/org/apache/hadoop/hive/ql/exec/tez/WmTezSession.java:96-121 | a rejected update changes nothing; an accepted one caches (version, info); with info, a pending waiter is resolved, its cancel is requested on the timer, and both references become null; a removal touches nothing else |
| Discovery.OnTimeout | ql/src/java/org/apache/hadoop/hive/ql/exec/tez/WmTezSession.java:212-221 | a timer run always nulls the timer reference; a pending waiter is cancelled and dropped, and otherwise nothing else changes; the run does not depend on which timer it is |
| Discovery.CallerCancels | ql/src/java/org/apache/hadoop/hive/ql/exec/tez/WmTezSession.java:217-217 | a holder cancelling its future completes it only if it is still pending; the session keeps referencing it, which is the done waiter the timeout run skips |
| Discovery.ReadAfterUpdate | ql/src/java/org/apache/hadoop/hive/ql/exec/tez/WmTezSession.java:123-129 | a reader sees exactly (info, version) of an accepted update, and what it saw before after a rejected one |
| Discovery.InitValid | ql/src/java/org/apache/hadoop/hive/ql/exec/tez/WmTezSession.java:40-44 | a new session satisfies the reachable-state invariant |
| Discovery.StepPreservesValid | ql/src/java/org/apache/hadoop/hive/ql/exec/tez/WmTezSession.java:72-121 | every transition keeps the invariant: the only pending future is the waiter; a timer reference implies a waiter and points at a timer still scheduled; cached info implies no waiter and a cached version |
| Discovery.RunPreservesValid | ql/src/java/org/apache/hadoop/hive/ql/exec/tez/WmTezSession.java:72-121 | the invariant holds after any sequence of updates, waits, timer runs and cancellations |
| Discovery.SingleWaiter | ql/src/java/org/apache/hadoop/hive/ql/exec/tez/WmTezSession.java:80-85 | in any reachable state at most one future is pending, and it is the waiter |
| Discovery.StepExtends | ql/src/java/org/apache/hadoop/hive/ql/exec/tez/WmTezSession.java:111-113 | no transition changes a completed future or revives a run timer: the first completion wins |
| Discovery.RunExtends | ql/src/java/org/apache/hadoop/hive/ql/exec/tez/WmTezSession.java:111-113 | the same over any sequence of transitions |
| Discovery.RunVersionNeverGoesBack | ql/src/java/org/apache/hadoop/hive/ql/exec/tez/WmTezSession.java:100-107 | over any sequence of transitions the cached version never decreases |
| Discovery.StaleTimerCancelsLaterWaiter | ql/src/java/org/apache/hadoop/hive/ql/exec/tez/WmTezSession.java:212-221 | a timer whose cancel at line 116 lost the race later cancels a waiter it was not scheduled for, and leaves that waiter's own timer scheduled and unreferenced |
| Discovery.SecondWaitFailsFirstResolves | ql/src/java/org/apache/hadoop/hive/ql/exec/tez/WmTezSession.java:80-85 | a second wait fails at once, and the first is still resolved when the info arrives |
| Discovery.TimeoutBeforeInfo | ql/src/java/org/apache/hadoop/hive/ql/exec/tez/WmTezSession.java:212-221 | a timeout before the info arrives leaves the future cancelled; later info is cached but resolves nothing |
| GuaranteedAllocation.SetSendingGuaranteed | ql/src/java/org/apache/hadoop/hive/ql/exec/tez/WmTezSession.java:153-161 | the target always becomes the request and `sent` is untouched; a send is started iff none is in flight and the value differs from the confirmed one, and only then does `sending` change, to the request |
| GuaranteedAllocation.SetSentGuaranteed | ql/src/java/org/apache/hadoop/hive/ql/exec/tez/WmTezSession.java:164-171 | the value in flight becomes confirmed and nothing is in flight; the target is unchanged; the answer is -1 iff the delivered value is the target, and otherwise it is the target |
| GuaranteedAllocation.SetFailedToSendGuaranteed | ql/src/java/org/apache/hadoop/hive/ql/exec/tez/WmTezSession.java:174-180 | nothing is in flight afterwards, and the confirmed value and target are unchanged; the failure may be skipped iff the target equals the confirmed value |
| GuaranteedAllocation.NoLostDrift | ql/src/java/org/apache/hadoop/hive/ql/exec/tez/WmTezSession.java:164-171 | a value handed back on delivery is accepted for sending by the very next request |
| GuaranteedAllocation.RetryNeverDropped | ql/src/java/org/apache/hadoop/hive/ql/exec/tez/WmTezSession.java:174-180 | after a failure that may not be skipped, re-requesting the target starts a send |
| GuaranteedAllocation.StepKeepsSettled | ql/src/java/org/apache/hadoop/hive/ql/exec/tez/WmTezSession.java:153-180 | each single call (a request, a delivery, a failure, or a sender's owed re-request) keeps this: when nothing is in flight and no re-request is owed, the confirmed value is the target (or the state is initial) |
| GuaranteedAllocation.RunKeepsSettled | ql/src/java/org/apache/hadoop/hive/ql/exec/tez/WmTezSession.java:153-180 | the same after any interleaving of those calls: once nothing is in flight and nothing is owed, the target has been delivered |
| GuaranteedAllocation.LateResendOverwritesRequest | ql/src/java/org/apache/hadoop/hive/ql/exec/tez/WmTezSession.java:155-170 | a sender's late re-request of the target it was shown (7) overwrites a newer manager request (9) sent meanwhile, and 7 ends up delivered |
| GuaranteedAllocation.AllocationExamples | ql/src/java/org/apache/hadoop/hive/ql/exec/tez/WmTezSession.java:153-180 | a first request of 5 is sent and its delivery needs nothing more; 7 requested while 5 is in flight is handed back on delivery; a target reverting to the confirmed value lets a failed send go |
| KillLatch.SetIsIrrelevantForWm | ql/src/java/org/apache/hadoop/hive/ql/exec/tez/WmTezSession.java:205-210 | a missing reason raises the error, which carries the stored reason, and leaves the latch as it was; a given reason is stored, overwriting any earlier one |
| KillLatch.IrrelevantIffReason | ql/src/java/org/apache/hadoop/hive/ql/exec/tez/WmTezSession.java:197-203 | the session is irrelevant iff a kill reason is stored; after any reason is set, it is irrelevant and the stored reason is that reason |
| KillLatch.LastReasonWins | ql/src/java/org/apache/hadoop/hive/ql/exec/tez/WmTezSession.java:205-210 | after any sequence of calls the stored reason is the last reason given, or the earlier one if none was given |
| KillLatch.NeverUnset | ql/src/java/org/apache/hadoop/hive/ql/exec/tez/WmTezSession.java:34-38 | once a reason is stored, no sequence of calls makes the session relevant again |

## Left out

- Locks and threads: `amPluginInfoLock` and `synchronized (actualState)` become the atomicity of each transition; the two state domains are separate records, so they are never locked together.
- Guava futures and the scheduled executor are replaced by status lists; the delay of a timer is not modelled, only whether one is scheduled (timeout above zero).
- `AmPluginInfo` is a four-field record whose construction from a `TezAmInstance` (lines 97-98) is not modelled; a null instance is `None`.
- Logging of ignored updates (line 104) has no effect on state and is left out.
- `handleUpdateError` (lines 183-185) only forwards to the workload manager, which is not part of this model.
- Pool name, cluster fraction, query id, `clearWm` and `toString` are plain fields with getters and setters.
- `hashCode`/`equals` are identity-based; the model has no session objects to compare.
- Constructors and the `TezSessionPoolSession` superclass are not part of this model.
- The Java `assert` statements (lines 154, 167, 176) become `requires` clauses; with assertions disabled the code would run on, which is not modelled.
- Versions and amounts are Java `int`s; the code only compares and copies them, so unbounded `int` loses nothing.
- GuaranteedAllocation.SetSentGuaranteed: the "-1 iff delivered equals target" direction is stated for a target of at least zero, which every reachable state has; with a target of -1 the sentinel and the value would coincide.
- The sender that performs sends and makes re-requests is not part of this model. Its re-request after a failure is modelled as carrying the target seen by the failure call, and its re-request after a delivery as carrying the value that call returned.
- GuaranteedAllocation.RunKeepsSettled: promises only that the target is delivered once nothing is in flight or owed, not that the manager's last request is that target; `LateResendOverwritesRequest` shows that it may not be.
