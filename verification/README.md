# Orca's self-healing loop, verified

This project models the parts of Orca that keep promises over unbounded runs and proves those promises
in Dafny. `dafny verify dfyconfig.toml` checks everything.

**Crashloop breaker** (`Breaker`, `BreakerHistory`, `BreakerTheorems`). One record per container is
pruned, folded, classified and possibly held on every arm. `Belief` is what an observer who never
forgets a start would know, computed from the operations alone. The main refinement says that the
pruned record agrees with that observer; exact holds, the restart-rate bound, the conservation of
docker restarts and the stickiness of holds follow.

**Wedge recovery** (`Wedge`, `WedgeRuns`). Arming threshold, backoff, attempt cap, escalation. Every
run's events are cut at the moments the record disappears and each piece is shown to be a word of a
small grammar; the cap, the backoff, progress and the price of an interruption are exact.

**Reconcile pass** (`Reconciler`, `PassTheorems`, `WorldTheorems`, `PassRuns`, `Ordering`). The double
loop over adapters and containers, the start pipeline, alerts, garbage collection and dry mode.
Everything the outside world answers about one container in one pass travels in a `ContainerTick`, so
every theorem quantifies over all of it: probes, clocks, store faults, accepted or refused alerts, an
unhold that lands in the middle of a tick. `WorldTheorems` follows one breaker record through any
number of visits, collections and unholds; `PassRuns` puts whole results of `Pass.Reconcile` one after
another and carries the rate bound to their `start` calls and the event grammar to their wedge events.

**Stores** (`Stores`). The file-backed store against the in-memory one, generic in key and record, used
for both machines.

**Smaller protocols**: the reference-counted table of per-secret locks (`SecretLocks`), the three-axis
sign-in throttle and its use by concurrent logins (`Throttle`, `Login`), the config plan and what
carrying it out with the store's owner-checked writes reaches (`ConfigDiff`), and the way of a plugin hook from registration through approval
to the settings tree (`Hooks`).

Instants are whole seconds. Theorems that need a clock that does not go backwards say so.

## Where the code and its comments or intentions part

- `consecutive_wedged_ticks` is documented to reset on any observation that is not Wedged
  (wedge.rs:87-88). The code leaves the record alone on Unknown and NotApplicable (wedge.rs:659-669);
  `NoSignalIsInvisible` states what the code does.
- The save before a recovery attempt is commented as protecting the attempt counter across a crash
  (reconciler.rs:595-598). The counter is raised only when the outcome is processed, so the cap of three
  holds for uninterrupted runs; in general the attempts announced are the counted ones plus the
  interrupted ones (`InterruptionsEscapeTheCap`), and `CapFailsUnderInterruption` is a family of runs
  that announces attempt one without bound.
- "A Held container is not started" is false for a docker container seen Created, Dead or exited 0: it
  never reaches the breaker. `HeldIsStartedIff` gives the exact condition.
- A pass filtered to one runtime collects garbage with that runtime's keys only
  (`RestrictedPassEvictsOthers`).
- An unhold keeps `restart_count_snapshot`, so restarts made during a hold arrive at the first arm after
  it (`HeldRestartsArriveAfterUnhold`).
- An unhold may land between an alert's arm and its stamp. As the repository is wired, the operator's tool
  opens a store of its own (reconciler.rs:1490), and a stamp written afterwards puts the pass's cached Held
  record back over the unhold (`StampOverwritesSeparateUnhold`); the alert law holds all the same
  (`AnnouncesIffNotYetAccepted`). A caller that shared one store between the pass and the unhold would get a
  stamp on a cleared record, which silences the next hold (`StaleStampSilencesNextHold`; `AnnouncesIffOwed`
  is the law that holds under either wiring).
- Both stores are opened anew for every pass (reconciler.rs:376-381, 1475 and
  projects/system/src/container_reconcile.rs:228), so a write whose flush failed, and that no later flush of
  the pass made good, is gone in the next pass although its events went out. `Reconciler.StoreIo` and
  `Wedge.Fate` keep these cases apart; an alert whose stamp was lost is announced again.
- A checkout row that fails its schema does not protect its live row (`InvalidRowDoesNotProtect`).
- A plan may consider hosts other than the system's own, but the store's `set` and `delete` refuse their
  rows: those hosts stay as they are and their plan repeats (`TargetReachedIff`,
  `SecondPlanIsWhatWasRefused`). Replicas are therefore safe, except one merged under the system's own id
  before that id was known (`ReplicaSurvivesIff`, `EarlyReplicaIsTakenOver`). Since a merge takes rows only
  from the peer that owns them (config_store.rs:482-491), that one comes from a peer speaking under the id
  the system takes later.
- When subtracting fifteen minutes from the monotonic clock underflows, the throttle's cutoff is `now`
  itself, so every earlier failure is forgotten (`PruneIsWindowIff`, `FirstWindowForgets`). This concerns
  the first 900 s after the earliest instant the platform's clock can represent, which on some platforms
  is boot and on others lies far before it.
- A cancelled wait or a failed lock file leaves an idle entry in the lock table until the name is used
  again (`IdleEntryRemainsIffLastUserAborted`).

## Model

| member | source | states |
|---|---|---|
| `BreakerHistory.RecordAgreesWithHistory` | projects/containers/src/breaker.rs:543-646 | Over every run of arms, stamps and unholds with a clock that does not go back, the record's hold, reason, since-time, window, anchor, remembered state and docker snapshot are those recomputed from the full, never pruned history. |
| `BreakerHistory.FoldedWindow` | projects/containers/src/breaker.rs:572-593 | Pruning and then folding yields exactly the starts of the last 300 s of the whole log, discovered ones included. |
| `BreakerHistory.ClassifyIsTrip` | projects/containers/src/breaker.rs:826-915 | The classifier on the folded record is the trip condition computed from the history (more than 3 starts; a non-zero exit within 60 s of an orca start; more than 3 journal failures). |
| `BreakerTheorems.HoldIffSomeTripSince` | projects/containers/src/breaker.rs:543-646 | After any run, `arm` answers Hold if and only if some arm since the last effective unhold, this one included, met the trip condition. |
| `BreakerTheorems.HoldHasATrip` | projects/containers/src/breaker.rs:595-609 | A hold in force was caused by a concrete arm that tripped, and carries that arm's reason. |
| `BreakerTheorems.DecisionIsHolding` | projects/containers/src/breaker.rs:543-646 | The returned decision and reason are the history's, and after an arm outside a hold `recent_starts` is the log from `now - 300` on. |
| `BreakerTheorems.HoldCountsAreExact` | projects/containers/src/breaker.rs:839-915 | The count and window start stored in a hold reason are the true length and earliest instant of the window; the narrowing to 32 bits never truncates. |
| `BreakerTheorems.PolicyInNumbers` | projects/containers/src/breaker.rs:763-915 | The whole policy with its numbers and states written out: an arm outside a hold answers Hold if and only if more than 3 starts fall in the last 300 s, or a docker container exits non-zero at most 60 s after its last start, or an lxc journal says more than 3 times that something failed. |
| `BreakerTheorems.ReasonsInNumbers` | projects/containers/src/breaker.rs:839-915 | Which rule the reason names, in which order the rules go, and the seconds, exit code, failure count and window start it carries. |
| `BreakerTheorems.RestartRateBound` | projects/containers/src/breaker.rs:572-645 | Between two effective unholds every closed 300 s window contains at most 4 arms of a docker record that proceed to a start. |
| `BreakerTheorems.RateBoundIsReached` | projects/containers/src/breaker.rs:839-875 | Four is the best bound: starts at 0, 61, 122 and 183 s of a crashing container are all let through. |
| `BreakerTheorems.StartsAMinuteApart` | projects/containers/src/breaker.rs:839-875 | A start of a docker container seen exited non-zero comes more than 60 s after every earlier start, unholds included. |
| `BreakerTheorems.RestartsAreConserved` | projects/containers/src/breaker.rs:763-783 | Over any docker run: first count + restarts pushed + restarts clamped away = last snapshot + amounts by which the snapshot moved back. |
| `BreakerTheorems.CountedExactlyOnceIffNeverClamped` | projects/containers/src/breaker.rs:763-783 | With a counter that never drops, pushes equal last minus first snapshot, also across holds, if and only if no arm outside a hold finds the counter more than 1024 ahead. |
| `BreakerTheorems.LxcPushesAreTransitions` | projects/containers/src/breaker.rs:785-802 | Over any run of lxc arms without a supplied previous state, pushes equal the adjacent pairs, seen outside holds, of exited, dead or stopping and then running. |
| `BreakerTheorems.FourthFlapIsHeld` | projects/containers/src/breaker.rs:785-802 | An lxc container seen exited and running in turn is held, for flapping, the fourth time it is up within 300 s. |
| `BreakerTheorems.ReachableHolds` | projects/containers/src/breaker.rs:595-609 | Every reachable Held record has a reason and a since-time; podman and nspawn records are never Held. |
| `BreakerTheorems.HoldsAreSticky` | projects/containers/src/breaker.rs:556-570 | Until an unhold every arm on a Held record returns the same reason and the record changes only in its last observed state and notification stamp. |
| `BreakerTheorems.HeldRestartsArriveAfterUnhold` | projects/containers/src/breaker.rs:670-698 | After a hold and its unhold the window is empty, and the next arm pushes all restarts since the trip, up to the clamp. |
| `Breaker.FoldDockerByPushing` | projects/containers/src/breaker.rs:763-783 | The loop that pushes one start per restart equals the closed form: `min(delta, 1024)` copies of `now` and a moved snapshot; nothing on first contact. |
| `Breaker.FoldClassifyStamp` | projects/containers/src/breaker.rs:556-646 | The in-place body of `arm` computes the specified record and decision. |
| `Breaker.Arm` | projects/containers/src/breaker.rs:543-646 | `arm` on the persisted store: unreadable store changes nothing and errs; otherwise the container's record, and no other, becomes the armed one; a lost flush errs although the cache has moved on. |
| `Breaker.MarkNotified` | projects/containers/src/breaker.rs:650-666 | Stamps exactly the named record; NotFound when there is none. |
| `Breaker.Unhold` | projects/containers/src/breaker.rs:670-698 | Clears a Held record's hold and window; NotFound and NotHeld leave the store alone. |
| `Breaker.CountFailureLines` | projects/containers/src/breaker.rs:896-905 | The loop counts, in 32 bits, the lines of the tail that contain a failure phrase, ignoring ASCII case. |
| `Breaker.ClassifyLxcByCounting` | projects/containers/src/breaker.rs:877-915 | The lxc classifier with its counting loop is the specified trip: transitions first, then journal failures. |
| `Breaker.ContainsIff` | projects/containers/src/breaker.rs:900-905 | The substring test holds if and only if the phrase occurs at some position. |
| `Breaker.FailureLineIff` | projects/containers/src/breaker.rs:900-904 | A line counts if and only if it says "failed to start" or "exited with status" somewhere, in any ASCII case. |
| `Breaker.FailureLinesAreCounted` | projects/containers/src/breaker.rs:899-905 | The count is the number of such lines. |
| `Breaker.LinesRoundTrip` | projects/containers/src/breaker.rs:898-905 | Splitting a tail written one line per line feed gives its lines back. |
| `Breaker.CrLfEndsALine` | projects/containers/src/breaker.rs:900-900 | A line that ends in a carriage return and a line feed is given without either. |
| `Breaker.UnendedLineCounts` | projects/containers/src/breaker.rs:900-900 | What follows the last line feed is a line too, unless it is empty. |
| `Stores.FileStore.EnsureLoaded` | projects/containers/src/breaker.rs:323-347 | The first use reads the file into the map it encodes, later records winning; it fails only when a file exists that cannot be read. |
| `Stores.DecodeTakesTheLast` | projects/containers/src/breaker.rs:323-347 | Of several records with one key in the file the last counts. |
| `Stores.FileStore.Save` | projects/containers/src/breaker.rs:384-392 | The record is stored under its own key; success means that a store reopened on the file holds the same map; a failed flush leaves the file and keeps the cached record. |
| `Stores.FileStore.Delete` | projects/containers/src/wedge.rs:338-356 | Removes exactly that key, flushing only when it was there. |
| `Stores.FileStore.List` | projects/containers/src/breaker.rs:394-401 | Every record exactly once, in no particular order. |
| `Stores.FileStore.RetainActive` | projects/containers/src/breaker.rs:403-422 | Keeps exactly the live and the actionable records; the file still agrees although the flush is skipped when the size did not change. |
| `Stores.SameSizeRetainsAll` | projects/containers/src/breaker.rs:412-421 | A collection that leaves the size unchanged removed nothing. |
| `Stores.AskFile` | projects/containers/src/breaker.rs:364-422 | On a healthy disk one operation on the file store gives the answer and leaves the map that a plain map would, with the file in agreement. |
| `Stores.DriveBoth` | projects/containers/src/breaker.rs:364-499 | Any sequence of load, list, save, delete and retain on a healthy disk: both stores end with the map, and give every answer, that interpreting the operations on a plain map gives; reopening the file yields that map with each record under its own key. |
| `Wedge.HandleObservation` | projects/containers/src/reconciler.rs:540-663 | One wedge tick on the persisted store: events, the record in the running pass's cache, and the record a store opened later finds in the file, with the unreadable store, lost writes and the refused recovery. |
| `Wedge.AttemptAndFollowUp` | projects/containers/src/reconciler.rs:594-662 | Save the intent, attempt, process the outcome; an attempt whose save fails or that is refused says nothing more, and a lost save leaves the file as it was. |
| `WedgeRuns.ReachableIsSound` | projects/containers/src/wedge.rs:704-870 | Every reachable record, whatever became of reads, writes and attempts, has at most 3 counted attempts, has escalated at 3, has announced its detection, and carries an attempt stamp exactly when it has attempts. |
| `WedgeRuns.CapBranchIsUnreachable` | projects/containers/src/wedge.rs:763-778 | The cap branch of a wedged observation is dead: a record that is not escalated is below the cap. |
| `WedgeRuns.EventsFollowTheGrammar` | projects/containers/src/wedge.rs:649-870 | In every uninterrupted run each lifetime spells Detected, (Attempted k, Failed k) for k = 1..m with m at most 3, at most one Unrecoverable (at once when m = 3), and ends in Succeeded m+1, Recovered m, silently if m = 0, or by collection if not escalated. |
| `WedgeRuns.CutIsAPartition` | projects/containers/src/wedge.rs:649-870 | The lifetimes and the open tail, put together, are the run's events in order. |
| `WedgeRuns.EventsTellTheTruth` | projects/containers/src/wedge.rs:673-870 | Every event names its container and reports the true start or length of its own streak and the true error. |
| `WedgeRuns.AttemptsIff` | projects/containers/src/wedge.rs:734-793 | A tick attempts if and only if it sees a tracked, un-escalated container wedged that is not labelled manual, has a recoverer, and was last attempted 60 s ago or more, or never. |
| `WedgeRuns.SuccessIsWhatTheProbeSaw` | projects/containers/src/wedge.rs:504-533 | In every run and fate: Succeeded is emitted if and only if the step attempts, is reported, the recoverer's call worked and the probe after it was Live; Failed, with its number and error, if and only if it attempts, is reported, and that was not so. |
| `WedgeRuns.AttemptEndsTheRecordIff` | projects/containers/src/wedge.rs:808-870 | A written attempt deletes the record if and only if the container came back; otherwise the attempt is counted, stamped, its error stored, and the third escalates. |
| `WedgeRuns.TicksAreCounted` | projects/containers/src/wedge.rs:704-725 | The streak counter is the number of wedged ticks of this lifetime, saturating at 32 bits. |
| `WedgeRuns.OptOutOnlyEscalates` | projects/containers/src/wedge.rs:745-761 | With the manual label or no recoverer nothing is attempted, and the next wedged tick of a tracked container escalates it, if the write lands, with exactly one event. |
| `WedgeRuns.NoSignalIsInvisible` | projects/containers/src/wedge.rs:659-669 | Erasing every Unknown and NotApplicable observation from a run changes neither the record nor the events. |
| `WedgeRuns.RecordStampsLastOutcome` | projects/containers/src/wedge.rs:808-870 | The attempt stamp is the time at which the latest attempt of this lifetime whose outcome was written returned. |
| `WedgeRuns.AttemptsBackOff` | projects/containers/src/wedge.rs:128-133 | Every attempt after a completed one is made at least 60 s after that one's outcome. |
| `WedgeRuns.PressingMakesProgress` | projects/containers/src/wedge.rs:704-801 | A wedged tick a full backoff after the last outcome deletes the record, escalates it or uses up one attempt, whatever the labels, recoverer and outcome. |
| `WedgeRuns.FourPressesSettle` | projects/containers/src/wedge.rs:704-870 | From every reachable state, four such ticks pass through a state that is escalated or deleted. |
| `WedgeRuns.InterruptionsEscapeTheCap` | projects/containers/src/wedge.rs:808-815 | In every run the attempts announced in the open lifetime equal the counted ones plus those that died or whose writes were lost. |
| `WedgeRuns.CapFailsUnderInterruption` | projects/containers/src/reconciler.rs:594-605 | `n` ticks that die during the attempt announce attempt one `n - 1` times, without backoff. |
| `Reconciler.Pass.ArmAndDispatchHold` | projects/containers/src/reconciler.rs:1086-1152 | A store fault degrades to Proceed; with a dispatcher a hold is announced while unstamped and stamped once a backend accepts and the stamp's write reaches the file, with an unhold in between on this store or on its own; no other record changes. |
| `Reconciler.Pass.RunStartPipeline` | projects/containers/src/reconciler.rs:938-1074 | Stale mounts block, then the breaker holds, then one `start` is called, with its error recorded. |
| `Reconciler.Pass.Reconcile` | projects/containers/src/reconciler.rs:354-526 | The whole pass: sorted rows, final stores after collections that may each fail, start calls, start errors, adapter errors and wedge events. |
| `Reconciler.TickTouchesOnlyItsKey` | projects/containers/src/reconciler.rs:1086-1152 | Visiting one container leaves every other container's breaker and wedge record as it was. |
| `PassTheorems.SameRecordIff` | projects/containers/src/breaker.rs:284-299 | Two containers share a record if and only if host, runtime and id are the same. |
| `PassTheorems.ReportIsASortedPermutation` | projects/containers/src/reconciler.rs:384-520 | Exactly one row per listed container, naming it, and the report is a permutation of those rows ordered by host, then name, then id. |
| `PassTheorems.ReportKeepsTies` | projects/containers/src/reconciler.rs:514-519 | Rows of the same host, name and id stay in listing order. |
| `Ordering.StrLeqIff` | projects/containers/src/reconciler.rs:514-519 | The order on strings is the dictionary's. |
| `PassTheorems.ListedInOrder` | projects/containers/src/reconciler.rs:384-397 | Containers come adapter by adapter, in listing order. |
| `PassTheorems.StartedIff` | projects/containers/src/reconciler.rs:846-1074 | A row is Started if and only if the container is unlabelled, auto-start, created, exited or dead, has no stale mount and the breaker did not hold it back; `start` is called exactly then in a real pass. |
| `PassTheorems.OtherActionsIff` | projects/containers/src/reconciler.rs:846-1034 | If-and-only-if conditions for the five actions other than Started, in terms of labels, policy, state, mounts and the breaker. |
| `PassTheorems.RowsGiveTheirReason` | projects/containers/src/reconciler.rs:846-1034 | The reason of each row, by its action: policy, label, exit code, state or the stale sources. |
| `PassTheorems.WedgeIsDetectedIff` | projects/containers/src/reconciler.rs:446-466 | From any stores, a container without a wedge record that is found wedged gets one and is announced if and only if the pass is real and has a dispatcher, and the container is running, has an auto-start policy and neither label. |
| `PassTheorems.UnprobedIsUntouched` | projects/containers/src/reconciler.rs:446-466 | No other container's wedge record is changed and nothing is said about it. |
| `PassTheorems.VisitArms` | projects/containers/src/reconciler.rs:404-444 | A visit arms the breaker for a start, or only to watch, exactly for the containers written out, and alerts exactly when that arm does. |
| `PassTheorems.BreakerIsArmedIff` | projects/containers/src/reconciler.rs:425-444 | From any stores a visit makes a breaker record if and only if it is about to start a crashed or lxc candidate, or watches an lxc container that is meant to be up and is not down; watching records no start. |
| `PassTheorems.ArmSeesTheTick` | projects/containers/src/reconciler.rs:1092-1100 | The record a visit leaves is the one `arm` makes of this container, this observation and this clock, initiating only for a start. |
| `PassTheorems.FaultyArm` | projects/containers/src/reconciler.rs:1100-1112 | An arm whose read or write fails alerts nobody and lets the start through; the store keeps the old record unless a later flush writes the new one. |
| `PassTheorems.StartsAreTheStartedRows` | projects/containers/src/reconciler.rs:384-520 | The `start` calls of a real pass are, in order and once each, those of the rows resolved Started; a dry pass makes none. |
| `PassTheorems.ErrorsAreTheFailedStarts` | projects/containers/src/reconciler.rs:1036-1060 | The start errors are those of the rows resolved Started whose call failed, in order. |
| `PassTheorems.AlertsInOrder` | projects/containers/src/reconciler.rs:1114-1135 | The hold alerts of a pass name, in order, exactly the containers whose arm's alert goes out. |
| `PassTheorems.HeldIsStartedIff` | projects/containers/src/reconciler.rs:1005-1034 | A Held container is started by a real pass with a working store if and only if it is an unblocked candidate, is not lxc and was not seen exited non-zero. |
| `PassTheorems.HeldCreatedContainerIsStarted` | projects/containers/src/reconciler.rs:1005-1013 | Counterexample to "Held is never started": a Held docker container seen as Created. |
| `PassTheorems.BreakerCollectionIsExact` | projects/containers/src/reconciler.rs:490-505 | The breaker collection keeps exactly the records of listed containers and the Held ones, and everything in a dry pass or when an adapter failed to list. |
| `PassTheorems.WedgeCollectionIsExact` | projects/containers/src/reconciler.rs:496-511 | The wedge collection keeps exactly the records of listed containers and the escalated ones, and runs only in a real, fully listed pass with a dispatcher. |
| `PassTheorems.RestrictedPassEvictsOthers` | projects/containers/src/reconciler.rs:1472-1472 | After a pass restricted to one runtime that collects, a record of another runtime survives if and only if it is Held. |
| `PassTheorems.DockerPassForgetsAnLxcContainer` | projects/containers/src/reconciler.rs:1472-1472 | A concrete case: a docker-only pass evicts a watched lxc record with three starts in its window. |
| `PassTheorems.DryPassIsThePlan` | projects/containers/src/reconciler.rs:376-381 | On the same listings, probe and stores the dry pass starts nothing, leaves both stores alone, and line by line its sorted report equals the real one except that a held row appears as Started. |
| `WorldTheorems.StampsAreExact` | projects/containers/src/reconciler.rs:1114-1152 | Over ticks with and without a dispatcher, stamps whose write is lost and unholds anywhere, the record is stamped if and only if an owed announcement was accepted, its stamp reached the file, and no unhold cleared the record since. |
| `WorldTheorems.AnnouncesIffOwed` | projects/containers/src/reconciler.rs:1114-1152 | A tick announces if and only if it has a dispatcher, the arm says Hold, and the hold is new or no stamp is in force. |
| `WorldTheorems.AnnouncesIffNotYetAccepted` | projects/containers/src/reconciler.rs:1114-1152 | With unholds made on a store of their own, as shipped, a tick with a dispatcher announces a hold if and only if no earlier tick of that hold was accepted and durably stamped: a lost stamp means one more alert. |
| `WorldTheorems.StampOverwritesSeparateUnhold` | projects/containers/src/reconciler.rs:1487-1491 | The shipped wiring: an unhold made on its own store between an arm and its stamp is lost if and only if the stamp is written. |
| `WorldTheorems.StaleStampSilencesNextHold` | projects/containers/src/reconciler.rs:1126-1145 | With one store shared instead: an unhold in the gap leaves a stamp that silences the next hold, which nobody accepted. |
| `WorldTheorems.RecordIsItsRun` | projects/containers/src/reconciler.rs:354-526 | Through any visits over any fleet, collections and unholds, within a tick or between, a record that is not evicted is the run of its own arms, durable stamps and unholds. |
| `WorldTheorems.StartsAreInTheHistory` | projects/containers/src/reconciler.rs:1005-1034 | The reconciler's starts of a crashed docker container are exactly the starts in its record's history. |
| `WorldTheorems.ReconcilerStartsAreBounded` | projects/containers/src/reconciler.rs:1005-1034 | In any stretch of visits without an operator unhold a crashing docker container is started at most 4 times in any 300 s. |
| `WorldTheorems.ReconcilerStartsAMinuteApart` | projects/containers/src/reconciler.rs:1005-1034 | Any two of those starts, unholds or not, are more than 60 s apart. |
| `WorldTheorems.PassInTheWorld` | projects/containers/src/reconciler.rs:354-526 | A whole pass is its visits followed by its collection: the same breaker store, and its `start` calls of crashed containers are exactly the starts of those visits. |
| `PassRuns.CallsAreTheStarts` | projects/containers/src/reconciler.rs:354-526 | Over any sequence of passes and unholds, the `start` calls the passes report for a crashed container are exactly the starts the record's history counts. |
| `PassRuns.StartCallsAreBounded` | projects/containers/src/reconciler.rs:354-526 | End to end: in any stretch of passes without an operator unhold, the passes' own `start` calls contain at most 4 for a crashing docker container in any 300 s. |
| `PassRuns.StartCallsAMinuteApart` | projects/containers/src/reconciler.rs:1005-1034 | Any two of those calls, unholds or not, are more than 60 s apart. |
| `PassRuns.AtMostFiveStartCalls` | projects/containers/src/reconciler.rs:1005-1034 | Even with unholds at will, any closed 300 s contains at most 5 of those calls. |
| `PassRuns.FourStartCallsHappen` | projects/containers/src/reconciler.rs:354-526 | The bound of 4 is reached by passes at 0, 61, 122 and 183 s. |
| `PassRuns.FiveStartCallsHappen` | projects/containers/src/reconciler.rs:354-526 | The bound of 5 is reached: after those, a crash held at 190 s, an unhold, and a start at 244 s. |
| `PassRuns.WedgeRecordIsItsRun` | projects/containers/src/reconciler.rs:354-663 | Through any passes, whatever became of reads and writes, a container's wedge record is the run of its own probes and collections, and the passes' events about it are that run's events. |
| `PassRuns.PassesFollowTheGrammar` | projects/containers/src/reconciler.rs:540-663 | The events the passes emit about one container split into complete words of the grammar and the open word of the record now stored, when its reads and writes worked. |
| `SecretLocks.ReachableInv` | projects/auth/src/secrets.rs:238-299 | Under every interleaving, cancellation and lock-file error: every outstanding handle for a name is the one in the table, owners are exact, no two names share a mutex. |
| `SecretLocks.AtMostOneWriter` | projects/auth/src/secrets.rs:238-299 | At most one task at a time is between acquiring and releasing a name's lock although idle entries are removed. |
| `SecretLocks.IdleEntryRemainsIffLastUserAborted` | projects/auth/src/secrets.rs:248-299 | A name nobody uses still has an entry if and only if the last task to leave it was cancelled or failed on the lock file. |
| `SecretLocks.TableEmptiesWithoutAborts` | projects/auth/src/secrets.rs:248-259 | Without cancellations and lock-file errors the table is empty once all tasks have finished. |
| `SecretLocks.CancelledWaitLeavesAnEntry` | projects/auth/src/secrets.rs:261-268 | Counterexample: one cancelled wait leaves an entry behind. |
| `SecretLocks.FreeLockMayBeTaken` | projects/auth/src/secrets.rs:261-268 | A waiting task may acquire as soon as no task of that name is between acquiring and releasing. |
| `SecretLocks.SomebodyAdvances` | projects/auth/src/secrets.rs:238-299 | No deadlock: while some task runs, some task can take its next step without being cancelled. |
| `SecretLocks.OneUseHappens` | projects/auth/src/secrets.rs:248-299 | A whole use of an idle name acquires, guards, releases and reclaims its entry. |
| `Throttle.SigninThrottle.CheckAt` | projects/auth/src/throttle.rs:73-98 | Prunes the three buckets, drops every empty bucket, and throttles when the worst count reaches 8. |
| `Throttle.SigninThrottle.RecordFailureAt` | projects/auth/src/throttle.rs:104-117 | One failure on each of the three axes, after pruning. |
| `Throttle.SigninThrottle.RecordSuccess` | projects/auth/src/throttle.rs:123-131 | Clears the caller's three buckets and no other. |
| `Throttle.BucketsAreIndependent` | projects/auth/src/throttle.rs:73-130 | Through any log each bucket evolves as if it were alone. |
| `Throttle.BucketTracksLog` | projects/auth/src/throttle.rs:32-47 | A bucket, however often pruned, and its full failure log look the same through every window from now on. |
| `Throttle.ThrottledIffEightFailures` | projects/auth/src/throttle.rs:73-98 | Throttled if and only if one of the caller's three axes has 8 failures in the last 900 s since its own last success. |
| `Throttle.ChecksChangeNoVerdict` | projects/auth/src/throttle.rs:73-98 | Erasing every check from a log changes no later verdict. |
| `Throttle.ChecksDropEmptyBuckets` | projects/auth/src/throttle.rs:85-88 | A check leaves no empty bucket behind on any axis. |
| `Throttle.PruneIsWindowIff` | projects/auth/src/throttle.rs:38-41 | Pruning is the 900 s window if and only if the clock is at, or 900 s or more past, the earliest representable instant. |
| `Throttle.FirstWindowForgets` | projects/auth/src/throttle.rs:38-41 | Counterexample family: within 900 s of the earliest representable instant any number of failures is forgotten a second later. |
| `Login.ConcurrentFailuresAreBounded` | projects/auth/src/login.rs:33-58 | Under every interleaving with at most n attempts of an axis in flight, its failures in the window plus those in flight stay within 7 + n. |
| `Login.SequentialFailuresAreBounded` | projects/auth/src/login.rs:33-58 | With one attempt of the axis at a time, at most 8 failures in the window. |
| `Login.BoundIsReached` | projects/auth/src/login.rs:33-58 | The bound is tight: for every n from 1 on, a run with at most n attempts in flight at any point reaches exactly 7 + n failures on each axis of the caller. |
| `Login.VerifyCredentials` | projects/auth/src/login.rs:33-58 | One call: the verdict and the new throttle state in each of the throttled, lookup-error, unknown-user, wrong-password and verified cases. |
| `Login.OneCallIsTwoSteps` | projects/auth/src/login.rs:33-58 | One call is the check and, if let in, the ending step of the interleaved model: the same throttle, nobody left in flight. |
| `ConfigDiff.CollectRepo` | projects/config-source/src/reconcile.rs:207-229 | The ordered map holds the last valid row per name of the host; the invalid rows are reported in order. |
| `ConfigDiff.TargetIsTheLastValid` | projects/config-source/src/reconcile.rs:216-229 | The wanted text of a name is that of its last valid row; a name without one is not wanted. |
| `ConfigDiff.RejectedInOrder` | projects/config-source/src/reconcile.rs:219-226 | A failing row's reference and errors stand in the report at the place its row has among the host's failing rows. |
| `ConfigDiff.RejectedAreCounted` | projects/config-source/src/reconcile.rs:219-226 | One entry per failing row of the host, no more. |
| `ConfigDiff.AllRejectedHas` | projects/config-source/src/tools.rs:200-206 | The combined report holds a reference with errors if and only if some checkout row of a considered host has that reference and exactly those errors. |
| `ConfigDiff.AllRejectedAreCounted` | projects/config-source/src/tools.rs:200-206 | And its length is the number of such rows. |
| `ConfigDiff.ComputeDiff` | projects/config-source/src/reconcile.rs:207-257 | Add, change and delete list, each once and in key order, exactly the missing, differing and unwanted names. |
| `ConfigDiff.Hosts` | projects/config-source/src/tools.rs:186-198 | Each owner of the checkout once and in order, then the requested host if it owns nothing there. |
| `ConfigDiff.DiffAllHosts` | projects/config-source/src/tools.rs:200-206 | The combined plan says the same of every considered host and lists no row twice. |
| `ConfigDiff.ConfigTable.Set` | projects/db/src/config_store.rs:265-315 | A row of another owner is refused and nothing changes; an own row becomes the given one, owned, and the answer says whether it is new. |
| `ConfigDiff.ConfigTable.Delete` | projects/db/src/config_store.rs:542-575 | A row of another owner is refused; an own row is removed, and the answer says whether there was one. |
| `ConfigDiff.AppliedAt` | projects/db/src/config_store.rs:265-575 | What carrying out a plan, write by write, leaves under any key. |
| `ConfigDiff.ApplyingReachesTarget` | projects/config-source/src/reconcile.rs:207-257 | Carrying out the plan on the host it is for: that host owns exactly the last valid checkout row per name. |
| `ConfigDiff.TargetReachedIff` | projects/db/src/config_store.rs:274-279 | A considered host is at its target afterwards if and only if it is the system's own or was at its target before. |
| `ConfigDiff.OnlyOwnRowsChange` | projects/db/src/config_store.rs:274-279 | No row of another system, and none of a host outside the plan, changes. |
| `ConfigDiff.ReplicaSurvivesIff` | projects/db/src/config_store.rs:265-301 | A replica survives unchanged if and only if it is not a row of the system's own id that the checkout wants. |
| `ConfigDiff.ReplicasStampedByOwnIdSurvive` | projects/db/src/config_store.rs:499-499 | Every replica merged while the system knew its present id survives every plan. |
| `ConfigDiff.EarlyReplicaIsTakenOver` | projects/db/src/config_store.rs:482-499 | A concrete case of the other kind: a row that its owner, a peer under the id the system takes later, sent before that id was known is taken over. |
| `ConfigDiff.InvalidRowDoesNotProtect` | projects/config-source/src/reconcile.rs:217-253 | An owned live row is planned for deletion if and only if the checkout has no valid row of that name, whatever invalid ones it has. |
| `ConfigDiff.InvalidEditDeletesTheRow` | projects/config-source/src/reconcile.rs:217-253 | A concrete case: the live row whose only checkout row became invalid is deleted. |
| `ConfigDiff.ClassifiedAtMostOnce` | projects/config-source/src/reconcile.rs:231-256 | No row is in two of the three lists. |
| `ConfigDiff.SecondPlanIsWhatWasRefused` | projects/config-source/src/reconcile.rs:207-257 | The plan computed after carrying one out lists exactly what the first listed for other hosts, in each of the three lists. |
| `ConfigDiff.SecondPlanIsEmptyIff` | projects/config-source/src/reconcile.rs:207-257 | It is empty if and only if the first plan was about the system's own rows only. |
| `Hooks.Registry.Register` | projects/agents/src/registry.rs:143-151 | Replaces the first provider of that name in place, else appends. |
| `Hooks.Registry.Deregister` | projects/agents/src/registry.rs:157-162 | Removes every provider of that name and says whether there was one. |
| `Hooks.RegistryFollowsHistory` | projects/agents/src/registry.rs:143-162 | After every run the list holds each standing name once, with its latest contribution, in the order the stays began. |
| `Hooks.PluginSpeaksForItself` | projects/agents/src/registry.rs:229-248 | A plugin registers exactly its clean hooks, each under the plugin's own name. |
| `Hooks.PluginHooksInOrder` | projects/agents/src/registry.rs:229-248 | A plugin's hooks keep their order; one whose matcher or command hides a character is dropped. |
| `Hooks.SurvivesIffNothingHidden` | projects/agents/src/registry.rs:239-276 | A hook survives if and only if neither matcher nor command holds a character below 0x20 other than tab, one in 0x7F..0x9F, or one of the tabulated format characters. |
| `Hooks.TreeHidesNothing` | projects/agents/src/registry.rs:239-248 | Over the whole pipeline: no matcher and no command in the settings tree holds such a character. |
| `Hooks.ContributionsInOrder` | projects/agents/src/registry.rs:402-404 | Contributions come provider by provider, in the registry's order. |
| `Hooks.PreHashIsDecodable` | projects/agents/src/hook_approval.rs:24-32 | The length-prefixed bytes decode back to event, matcher and command. |
| `Hooks.LowByteFirst` | projects/agents/src/hook_approval.rs:28-28 | Lengths are written least significant byte first. |
| `Hooks.PreHashIsInjective` | projects/agents/src/hook_approval.rs:24-32 | Equal pre-hash bytes mean equal event, matcher and command. |
| `Hooks.ApprovalStore.Approve` | projects/agents/src/hook_approval.rs:40-75 | All or nothing: adds exactly that pair to what the file decodes to, an undecodable file counting as empty; a missing home, directory, lock or write leaves the file alone. |
| `Hooks.ApprovedIffSeen` | projects/agents/src/hook_approval.rs:47-49 | A hook passes the gate if and only if that very hook, origin, event, matcher and command, was approved. |
| `Hooks.HooksToSettingsTree` | projects/agents/src/settings.rs:140-159 | For every event one group per matcher, in order of first appearance, with exactly that matcher's commands; no event without hooks. |
| `Hooks.MatchersInOrder` | projects/agents/src/settings.rs:140-159 | The groups of an event stand in the order in which their matchers first appear. |
| `Hooks.PipelineSelects` | projects/agents/src/registry.rs:384-404 | Filtering for cleanliness and then for approval keeps, in order and with multiplicity, exactly the commands that are clean, approved and of that event and matcher. |
| `Hooks.SettingsListExactlyTheAllowed` | projects/agents/src/settings.rs:140-159 | After every run of registrations the settings tree lists, per event and matcher, exactly the allowed commands, under one group per matcher. |
| `Hooks.FileHoldsTheApprovals` | projects/agents/src/hook_approval.rs:40-75 | After any run, what the approval file decodes to is what it decoded to before and the approvals that completed. |
| `Hooks.SettingsListExactlyTheApproved` | projects/agents/src/registry.rs:384-404 | One run of register, deregister and approve, completed or not: the settings tree lists, per event and matcher, exactly the clean commands of the standing providers whose very hooks were approved. |

## Left out

- Sub-second timestamps: instants and durations are whole seconds.
- The JSON codec, atomic file replacement and mutex poisoning: a file is the list of its records, replaced whole or not at all.
- Several file stores on one path, and the lock file of `lock_secret` as a cross-process lock: only its failure is modelled.
- Update in place of the lock table: `SecretLocks` is a state machine over values, one action per atomic access.
- The pass works on the maps that a store opened on the file answers from. A container listed twice in one pass would, after a lost write, see the cached record at its second visit; the model shows it the file's. An arm whose own read or write failed lets the start through, so theorems about starts and alerts that span passes ask that the arms of the container they speak of work.
- Breaker.CountFailureLines: overflow wraps, as in a release build; a debug build stops.
- Throttle.SigninThrottle.CheckAt: the username's case folding is an arbitrary function, not Unicode lower-casing.
- ConfigDiff.ApplyingReachesTarget: `config.source.apply` is a stub in the source, so carrying out a plan is defined as one call of the store's own `set` or `delete` per planned row, refusals skipped. Row ids, history, the command log and the refusal of text that is not JSON are not modelled.
- SHA-256, UTF-8, argon2 and JSON Schema validation: arbitrary functions, the first two injective where a lemma says so.
- Notification titles, bodies and severities; an alert is accepted by some backend or not. The notices for started, skipped and stale-mount rows are not modelled.
- `put_secret`, `restore_secret`, the `container.update` tool surface, runtime detection, FFI, mesh calls, OAuth, PKI, sessions and tokens.
- `contract/src/approval.rs` and the `accepts` and `resolve_*` tables of `contract/src/backup.rs`: they hold no state and take part in none of the protocols above.
