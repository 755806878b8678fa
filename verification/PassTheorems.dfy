/** What a reconcile pass guarantees: its rows, its starts, its garbage collection and its dry twin. */
module PassTheorems {
  import opened Prelude
  import opened ContainerRuntime
  import opened Stores
  import opened Ordering
  import opened Reconciler
  import B = Breaker
  import W = Wedge

  // ----- Rows -----------------------------------------------------------------------------------

  /** By host, then by name, then by id. */
  predicate ComesBefore(a: ReconcileRow, b: ReconcileRow) {
    && StrLeq(a.host, b.host)
    && (a.host == b.host ==> StrLeq(a.name, b.name))
    && (a.host == b.host && a.name == b.name ==> StrLeq(a.id, b.id))
  }

  lemma RowLeqIff(a: ReconcileRow, b: ReconcileRow)
    ensures RowLeq(a, b) <==> ComesBefore(a, b)
  {
    StringsAreOrdered();
  }

  /** Exactly one row per listed container, and the report is those rows sorted; ties keep their order. */
  lemma ReportIsASortedPermutation(s: PassStores, ticks: seq<ContainerTick>, settings: Settings)
    ensures
      var rows := RowsOf(s, ticks, settings);
      && |rows| == |ticks|
      && (forall i :: 0 <= i < |ticks| ==> NamesContainer(rows[i], ticks[i].container))
      && multiset(Sort(RowLeq, rows)) == multiset(rows)
      && forall i, j :: 0 <= i < j < |Sort(RowLeq, rows)| ==> ComesBefore(Sort(RowLeq, rows)[i], Sort(RowLeq, rows)[j])
  {
    RowsAreOrdered();
    SortIsSortedPermutation(RowLeq, RowsOf(s, ticks, settings));
    assert forall i :: 0 <= i < |ticks| ==> RowsOf(s, ticks, settings)[i] == OutcomeAt(s, ticks, settings, i).row;
    var report := Sort(RowLeq, RowsOf(s, ticks, settings));
    forall i, j | 0 <= i < j < |report| ensures ComesBefore(report[i], report[j]) {
      RowLeqIff(report[i], report[j]);
    }
  }

  /** Rows of the same host, name and id stay in the order in which they were listed. */
  lemma ReportKeepsTies(rows: seq<ReconcileRow>, row: ReconcileRow)
    ensures
      var same := (r: ReconcileRow) => r.host == row.host && r.name == row.name && r.id == row.id;
      Only(same, Sort(RowLeq, rows)) == Only(same, rows)
  {
    var same := (r: ReconcileRow) => r.host == row.host && r.name == row.name && r.id == row.id;
    RowsAreOrdered();
    SortIsStable(RowLeq, same, rows);
  }

  /** Two containers share a record exactly when host, runtime and id are the same. */
  lemma SameRecordIff(a: Container, b: Container)
    ensures a.RecordKey() == b.RecordKey() <==> a.host == b.host && a.runtime == b.runtime && a.id == b.id
  {
  }

  /** The containers of a pass come adapter by adapter, and so do the failures. */
  lemma ListedInOrder(a: seq<Listing>, b: seq<Listing>)
    ensures TicksOf(a + b) == TicksOf(a) + TicksOf(b) && Failures(a + b) == Failures(a) + Failures(b)
  {
    FlatMapConcat(TicksIn, a, b);
    FlatMapConcat(FailureIn, a, b);
  }

  /** An adapter that fails to list gives an error and no containers. */
  lemma ListedAlone(ticks: seq<ContainerTick>, failure: AdapterFailure)
    ensures TicksOf([Listing.Listed(ticks)]) == ticks && Failures([Listing.Listed(ticks)]) == []
    ensures TicksOf([ListFailed(failure)]) == [] && Failures([ListFailed(failure)]) == [failure]
  {
    FlatMapOne(TicksIn, Listing.Listed(ticks));
    FlatMapOne(FailureIn, Listing.Listed(ticks));
    FlatMapOne(TicksIn, ListFailed(failure));
    FlatMapOne(FailureIn, ListFailed(failure));
  }

  // ----- Starts ---------------------------------------------------------------------------------

  /** The restart policies that ask for a container to be up. */
  predicate AutoStarts(c: Container) {
    c.restartPolicy == UnlessStopped || c.restartPolicy == Always
  }

  predicate LabelledAway(c: Container) {
    ("orca.skip", "true") in c.labels || ("orca.heal", "manual") in c.labels
  }

  predicate IsDown(c: Container) {
    c.state == Created || c.state == Exited || c.state == Dead
  }

  /** What the policy says may be started: not labelled away, auto-start policy, and down. */
  predicate StartCandidate(c: Container) {
    !LabelledAway(c) && AutoStarts(c) && IsDown(c)
  }

  predicate Crashed(c: Container) {
    c.state == Exited && c.exitCode.Some? && c.exitCode.value != 0
  }

  predicate HasStaleMount(c: Container, settings: Settings) {
    exists i :: 0 <= i < |c.mountSources| && settings.stale(c.mountSources[i])
  }

  /** The breaker is consulted, answers, and says Hold. */
  predicate HeldBack(s: PassStores, t: ContainerTick, settings: Settings) {
    && !settings.dryRun && (Crashed(t.container) || t.container.runtime == Lxc) && t.armIo.Works?
    && B.Armed(B.OrFresh(Get(s.breaker, t.container.RecordKey()), t.container.RecordKey()), RequestOf(t, true)).1.Hold?
  }

  lemma {:induction false} StaleSourcesEmpty(stale: string -> bool, sources: seq<string>)
    ensures StaleSources(stale, sources) == [] <==> forall i :: 0 <= i < |sources| ==> !stale(sources[i])
  {
    if sources != [] {
      StaleSourcesEmpty(stale, Init(sources));
      assert forall i :: 0 <= i < |sources| ==> sources[i] == if i < |sources| - 1 then Init(sources)[i] else Last(sources);
    }
  }

  lemma NoStaleMountIff(c: Container, settings: Settings)
    ensures HasStaleMount(c, settings) <==> StaleSources(settings.stale, c.mountSources) != []
  {
    StaleSourcesEmpty(settings.stale, c.mountSources);
  }

  /** Neither labelled away nor skipped nor a candidate: the container is left as it is. */
  predicate LeftAlone(c: Container) {
    !LabelledAway(c) && !IsDown(c) && (c.state == ContainerState.Unknown ==> AutoStarts(c))
  }

  /** What becomes of a visit, by what the container is. */
  lemma Branches(s: PassStores, t: ContainerTick, settings: Settings)
    ensures
      var c, o := t.container, HandleTick(s, t, settings);
      if StartCandidate(c) then o == StartPipeline(s, t, settings)
      else if LeftAlone(c) then o == ObserveRunning(s, t, settings) && o.row.action.NoOp?
      else
        && o.stores == s && !o.startCalled && !o.alerted && o.wedgeEvents == []
        && o.row.action == if LabelledAway(c) then SkippedLabel else SkippedPolicy
  {
  }

  lemma PipelineStartsIff(s: PassStores, t: ContainerTick, settings: Settings)
    ensures
      var o := StartPipeline(s, t, settings);
      && (o.row.action.BlockedStaleMount? <==> HasStaleMount(t.container, settings))
      && (o.row.action.HeldPendingBreaker? <==> !HasStaleMount(t.container, settings) && HeldBack(s, t, settings))
      && (o.row.action.Started? <==> !HasStaleMount(t.container, settings) && !HeldBack(s, t, settings))
      && (o.startCalled <==> o.row.action.Started? && !settings.dryRun)
  {
    NoStaleMountIff(t.container, settings);
  }

  /** A row is Started exactly for a candidate with no stale mount that the breaker did not hold back. */
  lemma StartedIff(s: PassStores, t: ContainerTick, settings: Settings)
    ensures
      var o := HandleTick(s, t, settings);
      && (o.row.action.Started? <==>
          StartCandidate(t.container) && !HasStaleMount(t.container, settings) && !HeldBack(s, t, settings))
      && (o.startCalled <==> o.row.action.Started? && !settings.dryRun)
  {
    Branches(s, t, settings);
    PipelineStartsIff(s, t, settings);
  }

  /** When each of the other five actions is taken. */
  lemma OtherActionsIff(s: PassStores, t: ContainerTick, settings: Settings)
    ensures
      var c := t.container;
      var action := HandleTick(s, t, settings).row.action;
      && (action.SkippedLabel? <==> LabelledAway(c))
      && (action.SkippedPolicy? <==>
          !LabelledAway(c) && !AutoStarts(c) && (IsDown(c) || c.state == ContainerState.Unknown))
      && (action.BlockedStaleMount? <==> StartCandidate(c) && HasStaleMount(c, settings))
      && (action.HeldPendingBreaker? <==>
          StartCandidate(c) && !HasStaleMount(c, settings) && HeldBack(s, t, settings))
      && (action.NoOp? <==>
          && !LabelledAway(c) && !IsDown(c)
          && (c.state == ContainerState.Unknown ==> AutoStarts(c)))
  {
    Branches(s, t, settings);
    PipelineStartsIff(s, t, settings);
  }

  /** The reason a row gives is the reason it was resolved that way. */
  lemma RowsGiveTheirReason(s: PassStores, t: ContainerTick, settings: Settings)
    ensures
      var c, row := t.container, HandleTick(s, t, settings).row;
      match row.action
      case Started => row.reason == if Crashed(c) then StartedTentative(c.exitCode) else StartedClean
      case SkippedPolicy => row.reason == PolicyNotAutoStart(c.restartPolicy)
      case SkippedLabel => row.reason == LabelOverride(if ("orca.skip", "true") in c.labels then Skip else Manual)
      case BlockedStaleMount => row.reason == StaleMount(StaleSources(settings.stale, c.mountSources))
      case HeldPendingBreaker => row.reason == BreakerHeld(c.exitCode)
      case NoOp => row.reason == NotACandidate(c.state)
  {
  }

  lemma StaleSourceAlone(stale: string -> bool, p: string)
    ensures StaleSources(stale, [p]) == if stale(p) then [p] else []
  {
    assert Init([p]) == [];
  }

  lemma StaleSourcesPush(stale: string -> bool, sources: seq<string>, p: string, all: seq<string>)
    requires all == sources + [p]
    ensures StaleSources(stale, all) == StaleSources(stale, sources) + StaleSources(stale, [p])
  {
    assert Init(all) == sources && Init([p]) == [];
  }

  /** The sources named in a blocked row: the stale ones, in mount order. */
  lemma {:induction false} StaleSourcesInOrder(stale: string -> bool, a: seq<string>, b: seq<string>)
    ensures StaleSources(stale, a + b) == StaleSources(stale, a) + StaleSources(stale, b)
  {
    if b == [] {
      assert a + b == a;
    } else {
      StaleSourcesInOrder(stale, a, Init(b));
      StaleSourcesPush(stale, a + Init(b), Last(b), a + b);
      StaleSourcesPush(stale, Init(b), Last(b), b);
      Assoc(StaleSources(stale, a), StaleSources(stale, Init(b)), StaleSources(stale, [Last(b)]));
    }
  }

  // ----- Who is probed and who is watched ---------------------------------------------------------

  /** The containers whose liveness a pass looks at. */
  predicate IsProbed(c: Container, settings: Settings) {
    && !settings.dryRun && settings.hasDispatcher
    && c.state == Running && AutoStarts(c) && !LabelledAway(c)
  }

  /**
   From any stores, a container without a wedge record that is found wedged gets one, and is announced,
   exactly when it is running, meant to be, not labelled away, and the pass is a real one with somebody
   to tell.
   */
  lemma WedgeIsDetectedIff(s: PassStores, t: ContainerTick, settings: Settings)
    requires t.container.RecordKey() !in s.wedge && t.wedge.observed.Wedged? && t.wedgeFate.Written?
    ensures
      var o := HandleTick(s, t, settings);
      && (t.container.RecordKey() in o.stores.wedge <==> IsProbed(t.container, settings))
      && (o.wedgeEvents != [] <==> IsProbed(t.container, settings))
      && (IsProbed(t.container, settings) ==> |o.wedgeEvents| == 1 && o.wedgeEvents[0].news == W.Detected(t.wedge.now))
  {
    Branches(s, t, settings);
  }

  /** And nobody else's wedge record is looked at or changed, whatever the tick says. */
  lemma UnprobedIsUntouched(s: PassStores, t: ContainerTick, settings: Settings)
    requires !IsProbed(t.container, settings)
    ensures HandleTick(s, t, settings).stores.wedge == s.wedge && HandleTick(s, t, settings).wedgeEvents == []
  {
    Branches(s, t, settings);
  }

  /** The containers whose breaker a real pass arms because it is about to start them. */
  predicate ArmedForAStart(c: Container, settings: Settings) {
    && !settings.dryRun && StartCandidate(c) && !HasStaleMount(c, settings)
    && (Crashed(c) || c.runtime == Lxc)
  }

  /** Those it arms only to watch: LXC containers that are meant to be up and are not down. */
  predicate ArmedToWatch(c: Container, settings: Settings) {
    !settings.dryRun && c.runtime == Lxc && AutoStarts(c) && !LabelledAway(c) && !IsDown(c)
  }

  /** How a visit arms the breaker, if it does: for a start, or to watch. */
  function ArmKind(c: Container, settings: Settings): Option<bool> {
    if ArmedForAStart(c, settings) then Some(true) else if ArmedToWatch(c, settings) then Some(false) else None
  }

  lemma PipelineArms(s: PassStores, t: ContainerTick, settings: Settings)
    requires StartCandidate(t.container)
    ensures
      var o, key := StartPipeline(s, t, settings), t.container.RecordKey();
      var armed := ArmAndDispatch(Get(s.breaker, key), t, true, settings.hasDispatcher);
      if ArmedForAStart(t.container, settings)
      then o.stores.breaker == PutBreaker(s.breaker, key, armed.record) && o.alerted == armed.emitted
      else o.stores.breaker == s.breaker && !o.alerted
  {
    NoStaleMountIff(t.container, settings);
  }

  lemma ObservingArms(s: PassStores, t: ContainerTick, settings: Settings)
    requires LeftAlone(t.container)
    ensures
      var o, key := ObserveRunning(s, t, settings), t.container.RecordKey();
      var armed := ArmAndDispatch(Get(s.breaker, key), t, false, settings.hasDispatcher);
      if ArmedToWatch(t.container, settings)
      then o.stores.breaker == PutBreaker(s.breaker, key, armed.record) && o.alerted == armed.emitted
      else o.stores.breaker == s.breaker && !o.alerted
  {
  }

  /** What a visit does to the breaker store, and whether it alerts, is what its arm does. */
  lemma VisitArms(s: PassStores, t: ContainerTick, settings: Settings)
    ensures
      var o, key, kind := HandleTick(s, t, settings), t.container.RecordKey(), ArmKind(t.container, settings);
      if kind.None? then o.stores.breaker == s.breaker && !o.alerted
      else
        var armed := ArmAndDispatch(Get(s.breaker, key), t, kind.value, settings.hasDispatcher);
        o.stores.breaker == PutBreaker(s.breaker, key, armed.record) && o.alerted == armed.emitted
  {
    Branches(s, t, settings);
    if StartCandidate(t.container) {
      PipelineArms(s, t, settings);
    } else if LeftAlone(t.container) {
      ObservingArms(s, t, settings);
    }
  }

  lemma FirstArm(s: PassStores, t: ContainerTick, initiating: bool, hasDispatcher: bool)
    requires t.armIo.Works?
    ensures
      var armed := ArmAndDispatch(None, t, initiating, hasDispatcher);
      && armed.record.Some?
      && armed.record.value.lastOrcaStartAt == if initiating && armed.held.None? then Some(t.armedAt) else None
  {
  }

  /** From any stores, a visit with a working store makes a breaker record exactly for these two kinds. */
  lemma BreakerIsArmedIff(s: PassStores, t: ContainerTick, settings: Settings)
    requires t.container.RecordKey() !in s.breaker && t.armIo.Works?
    ensures
      var after := HandleTick(s, t, settings).stores.breaker;
      && (t.container.RecordKey() in after <==>
          ArmedForAStart(t.container, settings) || ArmedToWatch(t.container, settings))
      && (ArmedToWatch(t.container, settings) ==> after[t.container.RecordKey()].lastOrcaStartAt == None)
  {
    VisitArms(s, t, settings);
    FirstArm(s, t, true, settings.hasDispatcher);
    FirstArm(s, t, false, settings.hasDispatcher);
  }

  /**
   What the breaker is asked: with nobody to alert and a working store, the record a visit leaves is the
   one `arm` makes of this container, this observation and this clock, initiating only for a start.
   */
  lemma ArmSeesTheTick(s: PassStores, t: ContainerTick, settings: Settings)
    requires ArmKind(t.container, settings).Some? && t.armIo.Works? && !settings.hasDispatcher && t.gap.NoUnhold?
    ensures
      var key := t.container.RecordKey();
      var q := B.ArmRequest(t.container, t.observation, t.armedAt, ArmedForAStart(t.container, settings));
      Get(HandleTick(s, t, settings).stores.breaker, key) == Some(B.Armed(B.OrFresh(Get(s.breaker, key), key), q).0)
  {
    VisitArms(s, t, settings);
  }

  /**
   Faults of the arm: when the record cannot be read, or its write never reaches the file, the store stays
   as it was; when a later flush writes it after all, the armed record is there. No alert goes out and a
   candidate is started either way.
   */
  lemma FaultyArm(s: PassStores, t: ContainerTick, settings: Settings)
    requires ArmKind(t.container, settings).Some? && !t.armIo.Works?
    ensures
      var o, key := HandleTick(s, t, settings), t.container.RecordKey();
      var q := B.ArmRequest(t.container, t.observation, t.armedAt, ArmedForAStart(t.container, settings));
      && !o.alerted && (o.startCalled <==> ArmedForAStart(t.container, settings))
      && (t.armIo == Late ==> Get(o.stores.breaker, key) == Some(B.Armed(B.OrFresh(Get(s.breaker, key), key), q).0))
      && (t.armIo != Late ==> Get(o.stores.breaker, key) == Get(s.breaker, key))
  {
    VisitArms(s, t, settings);
    StartedIff(s, t, settings);
  }

  // ----- Calls and errors -------------------------------------------------------------------------

  /** One call per row resolved Started, in listing order. */
  function StartedCalls(ticks: seq<ContainerTick>, rows: seq<ReconcileRow>): seq<StartCall>
    requires |ticks| == |rows|
  {
    if ticks == [] then []
    else StartedCalls(Init(ticks), Init(rows))
         + if Last(rows).action.Started? then [StartCall(Last(ticks).container, Last(ticks).armedAt)] else []
  }

  lemma StartedCallsPush(ticks: seq<ContainerTick>, rows: seq<ReconcileRow>, t: ContainerTick, row: ReconcileRow)
    requires |ticks| == |rows|
    ensures StartedCalls(ticks + [t], rows + [row]) ==
            StartedCalls(ticks, rows) + if row.action.Started? then [StartCall(t.container, t.armedAt)] else []
  {
    assert Init(ticks + [t]) == ticks && Init(rows + [row]) == rows;
  }

  /** One visit calls `start` exactly when its row says Started, and not in a dry pass. */
  lemma CallIsItsRow(s: PassStores, t: ContainerTick, settings: Settings)
    ensures
      var o := HandleTick(s, t, settings);
      CallOf(o, t) == if o.row.action.Started? && !settings.dryRun then [StartCall(t.container, t.armedAt)] else []
  {
    StartedIff(s, t, settings);
  }

  /** The calls the rows account for. */
  function CallsByRows(ticks: seq<ContainerTick>, rows: seq<ReconcileRow>, dryRun: bool): seq<StartCall>
    requires |ticks| == |rows|
  {
    if dryRun then [] else StartedCalls(ticks, rows)
  }

  lemma OneMoreStartedRow(s: PassStores, was: seq<ContainerTick>, t: ContainerTick, settings: Settings)
    requires StartCalls(s, was, settings) == CallsByRows(was, RowsOf(s, was, settings), settings.dryRun)
    ensures StartCalls(s, was + [t], settings) == CallsByRows(was + [t], RowsOf(s, was + [t], settings), settings.dryRun)
  {
    var s' := StoresAfter(s, was, settings);
    PassStep(s, was, t, settings);
    CallIsItsRow(s', t, settings);
    StartedCallsPush(was, RowsOf(s, was, settings), t, HandleTick(s', t, settings).row);
  }

  /** A real pass calls `start` once for each row resolved Started and for nothing else. */
  lemma {:induction false} StartsAreTheStartedRows(s: PassStores, ticks: seq<ContainerTick>, settings: Settings)
    ensures StartCalls(s, ticks, settings) == CallsByRows(ticks, RowsOf(s, ticks, settings), settings.dryRun)
  {
    if ticks != [] {
      StartsAreTheStartedRows(s, Init(ticks), settings);
      OneMoreStartedRow(s, Init(ticks), Last(ticks), settings);
      assert ticks == Init(ticks) + [Last(ticks)];
    }
  }

  /** The calls that failed, with the container's name and the error. */
  function FailedStarts(ticks: seq<ContainerTick>, rows: seq<ReconcileRow>): seq<StartFailure>
    requires |ticks| == |rows|
  {
    if ticks == [] then []
    else
      var t := Last(ticks);
      FailedStarts(Init(ticks), Init(rows))
      + if Last(rows).action.Started? && t.startError.Some?
        then [StartFailure(t.container.RecordKey(), t.container.name, t.startError.value)] else []
  }

  lemma FailedStartsPush(ticks: seq<ContainerTick>, rows: seq<ReconcileRow>, t: ContainerTick, row: ReconcileRow)
    requires |ticks| == |rows|
    ensures FailedStarts(ticks + [t], rows + [row]) ==
            FailedStarts(ticks, rows)
            + if row.action.Started? && t.startError.Some?
              then [StartFailure(t.container.RecordKey(), t.container.name, t.startError.value)] else []
  {
    assert Init(ticks + [t]) == ticks && Init(rows + [row]) == rows;
  }

  function ErrorsByRows(ticks: seq<ContainerTick>, rows: seq<ReconcileRow>, dryRun: bool): seq<StartFailure>
    requires |ticks| == |rows|
  {
    if dryRun then [] else FailedStarts(ticks, rows)
  }

  lemma OneMoreFailedStart(s: PassStores, was: seq<ContainerTick>, t: ContainerTick, settings: Settings)
    requires StartErrors(s, was, settings) == ErrorsByRows(was, RowsOf(s, was, settings), settings.dryRun)
    ensures StartErrors(s, was + [t], settings) == ErrorsByRows(was + [t], RowsOf(s, was + [t], settings), settings.dryRun)
  {
    var s' := StoresAfter(s, was, settings);
    PassStep(s, was, t, settings);
    StartedIff(s', t, settings);
    FailedStartsPush(was, RowsOf(s, was, settings), t, HandleTick(s', t, settings).row);
  }

  /** The start errors of a pass are those of the rows resolved Started whose call failed, in order. */
  lemma {:induction false} ErrorsAreTheFailedStarts(s: PassStores, ticks: seq<ContainerTick>, settings: Settings)
    ensures StartErrors(s, ticks, settings) == ErrorsByRows(ticks, RowsOf(s, ticks, settings), settings.dryRun)
  {
    if ticks != [] {
      ErrorsAreTheFailedStarts(s, Init(ticks), settings);
      OneMoreFailedStart(s, Init(ticks), Last(ticks), settings);
      assert ticks == Init(ticks) + [Last(ticks)];
    }
  }

  /** One more container adds its key to the alerts exactly when its arm's alert goes out. */
  lemma AlertsInOrder(s: PassStores, was: seq<ContainerTick>, t: ContainerTick, settings: Settings)
    ensures
      var key, kind := t.container.RecordKey(), ArmKind(t.container, settings);
      var record := Get(StoresAfter(s, was, settings).breaker, key);
      Alerts(s, [], settings) == []
      && Alerts(s, was + [t], settings) ==
         Alerts(s, was, settings)
         + if kind.Some? && ArmAndDispatch(record, t, kind.value, settings.hasDispatcher).emitted then [key] else []
  {
    PassStep(s, was, t, settings);
    VisitArms(StoresAfter(s, was, settings), t, settings);
  }

  // ----- Holds through the pass -----------------------------------------------------------------

  /**
   A container whose record is Held, with a working store: the pass starts it exactly when it is an
   unblocked candidate that never reaches the breaker, that is, not LXC and not seen exited non-zero.
   */
  lemma HeldIsStartedIff(s: PassStores, t: ContainerTick, settings: Settings)
    requires !settings.dryRun && t.armIo.Works?
    requires
      var key := t.container.RecordKey();
      key in s.breaker && B.ShortCircuits(s.breaker[key])
    ensures HandleTick(s, t, settings).startCalled <==>
            && StartCandidate(t.container) && !HasStaleMount(t.container, settings)
            && t.container.runtime != Lxc && !Crashed(t.container)
  {
    StartedIff(s, t, settings);
  }

  /** So "Held is never started" is false: here is a Held docker container seen as Created. */
  lemma HeldCreatedContainerIsStarted(r: B.BreakerRecord, t: ContainerTick, settings: Settings)
    requires B.ShortCircuits(r) && t.armIo.Works? && !settings.dryRun
    requires t.container == Container("c1", "web", Docker, "h1", Created, Always, [], [], 0, None)
    ensures HandleTick(PassStores(map[t.container.RecordKey() := r], map[]), t, settings).startCalled
  {
    HeldIsStartedIff(PassStores(map[t.container.RecordKey() := r], map[]), t, settings);
  }

  // ----- Garbage collection ---------------------------------------------------------------------

  /**
   The breaker GC evicts exactly the records that are neither listed nor Held, and only in a real pass
   in which every adapter listed and the store could collect.
   */
  lemma BreakerCollectionIsExact(s: PassStores, listings: seq<Listing>, settings: Settings, key: Key)
    ensures
      var before := StoresAfter(s, TicksOf(listings), settings).breaker;
      var after := FinalStores(s, listings, settings).breaker;
      && (key in after <==>
          && key in before
          && (|| (exists t :: t in TicksOf(listings) && t.container.RecordKey() == key) || before[key].status == B.Held
              || settings.dryRun || !AllListed(listings) || !settings.breakerCollects))
      && (key in after ==> after[key] == before[key])
  {
  }

  /**
   The wedge GC runs only in a real pass that listed everything and has a dispatcher, and then keeps
   exactly the records of listed containers and the escalated ones.
   */
  lemma WedgeCollectionIsExact(s: PassStores, listings: seq<Listing>, settings: Settings, key: Key)
    ensures
      var before := StoresAfter(s, TicksOf(listings), settings).wedge;
      var after := FinalStores(s, listings, settings).wedge;
      && (key in after <==>
          && key in before
          && (|| (exists t :: t in TicksOf(listings) && t.container.RecordKey() == key) || before[key].escalated
              || settings.dryRun || !AllListed(listings) || !settings.hasDispatcher || !settings.wedgeCollects))
      && (key in after ==> after[key] == before[key])
  {
  }

  /**
   A pass restricted to one runtime's adapters collects with that runtime's keys alone: a record of
   any other runtime survives it exactly when it is Held.
   */
  lemma RestrictedPassEvictsOthers(s: PassStores, listings: seq<Listing>, settings: Settings, runtime: RuntimeKind, key: Key)
    requires !settings.dryRun && settings.breakerCollects && AllListed(listings) && key.runtime != runtime
    requires forall t :: t in TicksOf(listings) ==> t.container.runtime == runtime
    requires key in s.breaker
    ensures key in FinalStores(s, listings, settings).breaker <==> s.breaker[key].status.Held?
  {
    UnlistedRecordIsUntouched(s, TicksOf(listings), settings, key);
    BreakerCollectionIsExact(s, listings, settings, key);
  }

  /** A docker-only pass that lists nothing loses the flap history of an LXC container that is being watched. */
  lemma DockerPassForgetsAnLxcContainer(settings: Settings, r: B.BreakerRecord)
    requires !settings.dryRun && settings.breakerCollects
    requires r == B.Fresh(Key("h1", Lxc, "101")).(recentStarts := [0, 100, 200])
    ensures r.key !in FinalStores(PassStores(map[r.key := r], map[]), [Listed([])], settings).breaker
  {
    var listings := [Listed([])];
    FlatMapOne(TicksIn, listings[0]);
    RestrictedPassEvictsOthers(PassStores(map[r.key := r], map[]), listings, settings, Docker, r.key);
  }

  lemma {:induction false} UnlistedRecordIsUntouched(s: PassStores, ticks: seq<ContainerTick>, settings: Settings, key: Key)
    requires forall t :: t in ticks ==> t.container.RecordKey() != key
    ensures Get(StoresAfter(s, ticks, settings).breaker, key) == Get(s.breaker, key)
  {
    if ticks != [] {
      UnlistedRecordIsUntouched(s, Init(ticks), settings, key);
      assert Last(ticks) in ticks;
      TickTouchesOnlyItsKey(StoresAfter(s, Init(ticks), settings), Last(ticks), settings, key);
    }
  }

  // ----- Dry and real ---------------------------------------------------------------------------

  /** The dry row stands for the real one: equal, or Started where the real pass was held. */
  predicate Plans(dry: ReconcileRow, actual: ReconcileRow) {
    || dry == actual
    || (&& actual.action.HeldPendingBreaker? && actual.reason.BreakerHeld?
        && dry.action.Started?
        && (dry.reason == StartedClean || dry.reason == StartedTentative(actual.reason.exitCode))
        && dry == actual.(action := dry.action, reason := dry.reason))
  }

  lemma DryTick(dryStores: PassStores, actualStores: PassStores, t: ContainerTick, settings: Settings)
    requires settings.dryRun
    ensures HandleTick(dryStores, t, settings).stores == dryStores
    ensures !HandleTick(dryStores, t, settings).startCalled
    ensures Plans(HandleTick(dryStores, t, settings).row,
                  HandleTick(actualStores, t, settings.(dryRun := false)).row)
  {
  }

  lemma {:induction false} DryPassChangesNothing(s: PassStores, ticks: seq<ContainerTick>, settings: Settings)
    requires settings.dryRun
    ensures StoresAfter(s, ticks, settings) == s
    ensures StartCalls(s, ticks, settings) == [] && StartErrors(s, ticks, settings) == []
  {
    if ticks != [] {
      DryPassChangesNothing(s, Init(ticks), settings);
      DryTick(s, s, Last(ticks), settings);
    }
  }

  /**
   Dry against real on the same listings, probe and stores: the dry pass starts nothing, leaves both
   stores as they were, and line by line its sorted report is the real one's, except that a row held
   by the breaker appears as Started.
   */
  lemma DryPassIsThePlan(s: PassStores, listings: seq<Listing>, settings: Settings)
    requires settings.dryRun
    ensures FinalStores(s, listings, settings) == s
    ensures StartCalls(s, TicksOf(listings), settings) == []
    ensures Pointwise(Plans,
                      Sort(RowLeq, RowsOf(s, TicksOf(listings), settings)),
                      Sort(RowLeq, RowsOf(s, TicksOf(listings), settings.(dryRun := false))))
  {
    var ticks := TicksOf(listings);
    var actual := settings.(dryRun := false);
    DryPassChangesNothing(s, ticks, settings);
    forall i | 0 <= i < |ticks|
      ensures Plans(RowsOf(s, ticks, settings)[i], RowsOf(s, ticks, actual)[i])
    {
      DryTick(StoresAfter(s, ticks[..i], settings), StoresAfter(s, ticks[..i], actual), ticks[i], settings);
    }
    SortKeepsRelation(RowLeq, Plans, RowsOf(s, ticks, settings), RowsOf(s, ticks, actual));
  }
}
