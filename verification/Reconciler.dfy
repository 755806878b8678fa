/**
 The reconcile pass. Everything the outside world answers about one container during a pass (probes,
 clocks, store faults, dispatch and start results) travels with it in a `ContainerTick`. The stores
 are the in-memory maps the persisted stores answer from.
 */
module Reconciler {
  import opened Prelude
  import opened ContainerRuntime
  import opened Stores
  import opened Ordering
  import B = Breaker
  import W = Wedge

  datatype SkipLabelReason = Skip | Manual

  datatype ReconcileAction = Started | SkippedPolicy | SkippedLabel | BlockedStaleMount | HeldPendingBreaker | NoOp

  datatype ReconcileReason =
    | StartedClean
    | StartedTentative(exitCode: Option<int>)
    | PolicyNotAutoStart(policy: RestartPolicy)
    | LabelOverride(why: SkipLabelReason)
    | StaleMount(blockedSources: seq<string>)
    | BreakerHeld(exitCode: Option<int>)
    | NotACandidate(state: ContainerState)

  datatype ReconcileRow = ReconcileRow(
    host: string, runtime: RuntimeKind, id: string, name: string, action: ReconcileAction, reason: ReconcileReason
  )

  datatype AdapterFailure = AdapterFailure(runtime: RuntimeKind, message: string)

  /** One call of `start`: the container as it was listed, and the clock when its tick began. */
  datatype StartCall = StartCall(container: Container, at: Time)

  datatype StartFailure = StartFailure(key: Key, name: string, message: string)

  /**
   How a write of the breaker store fared, told by what the next pass reads: every pass runs on a store
   of its own, so that is what reached the file.
   */
  datatype StoreIo =
    | Works
    | LoadFails  // the record could not be read: nothing happens
    | Lost       // the flush failed and no later flush of the pass wrote the record
    | Late       // the flush failed, but a later one of the same pass wrote the record
  {
    predicate Reaches() {
      Works? || Late?
    }
  }

  /**
   An operator's unhold that lands between a tick's arm and its stamp. It may share the pass's store, or,
   as `container.update` does, open one of its own; the pass does not see that one, and a stamp it writes
   afterwards puts its cached Held record back over it.
   */
  datatype UnholdInGap = NoUnhold | OnThisStore | OnItsOwnStore

  datatype ContainerTick = ContainerTick(
    container: Container,
    observation: HostObservation,
    armedAt: Time,
    armIo: StoreIo,
    accepted: bool,           // some notification backend, if there is any, takes the hold alert
    gap: UnholdInGap,
    stampedAt: Time,
    stampIo: StoreIo,
    startError: Option<string>,
    wedge: W.WedgeTick,       // what the wedge probe of this container answers
    wedgeFate: W.Fate
  )

  datatype Listing = Listed(ticks: seq<ContainerTick>) | ListFailed(failure: AdapterFailure)

  /** What a pass runs with; the last two say whether the store calls of its garbage collection work. */
  datatype Settings = Settings(
    stale: string -> bool, hasDispatcher: bool, dryRun: bool, breakerCollects: bool, wedgeCollects: bool
  )

  datatype PassStores = PassStores(breaker: map<Key, B.BreakerRecord>, wedge: map<Key, W.WedgeRecord>)

  // ----- Classification -------------------------------------------------------------------------

  function RowFor(c: Container, action: ReconcileAction, reason: ReconcileReason): ReconcileRow {
    ReconcileRow(c.host, c.runtime, c.id, c.name, action, reason)
  }

  predicate NamesContainer(row: ReconcileRow, c: Container) {
    row.host == c.host && row.runtime == c.runtime && row.id == c.id && row.name == c.name
  }

  /** Labels first, then policy, then state. `Started` is provisional. */
  function Classify(c: Container): (row: ReconcileRow)
    ensures NamesContainer(row, c)
  {
    if c.HasLabel("orca.skip", "true") then RowFor(c, SkippedLabel, LabelOverride(Skip))
    else if c.HasLabel("orca.heal", "manual") then RowFor(c, SkippedLabel, LabelOverride(Manual))
    else if !c.restartPolicy.DesiresRunning() then
      match c.state
      case Running | Starting | Paused | Stopping => RowFor(c, NoOp, NotACandidate(c.state))
      case Created | Exited | Dead | Unknown => RowFor(c, SkippedPolicy, PolicyNotAutoStart(c.restartPolicy))
    else
      match c.state
      case Running | Starting | Paused | Stopping => RowFor(c, NoOp, NotACandidate(c.state))
      case Unknown => RowFor(c, NoOp, NotACandidate(c.state))
      case Created | Dead => RowFor(c, Started, StartedClean)
      case Exited =>
        if c.exitCode.None? || c.exitCode == Some(0) then RowFor(c, Started, StartedClean)
        else RowFor(c, Started, StartedTentative(c.exitCode))
  }

  // ----- Arming with alerts ---------------------------------------------------------------------

  function RequestOf(t: ContainerTick, initiating: bool): B.ArmRequest {
    B.ArmRequest(t.container, t.observation, t.armedAt, initiating)
  }

  function StampedIf(r: B.BreakerRecord, stamp: bool, at: Time): B.BreakerRecord {
    if stamp then r.(notifiedAt := Some(at)) else r
  }

  datatype ArmedTick = ArmedTick(record: Option<B.BreakerRecord>, held: Option<B.HoldReason>, emitted: bool)

  /** Whether the unhold in the gap is there to stay. */
  predicate UnholdTakes(gap: UnholdInGap, stamps: bool) {
    gap.OnThisStore? || (gap.OnItsOwnStore? && !stamps)
  }

  /** The record just found Held, as the stamp finds it. */
  function Meanwhile(r: B.BreakerRecord, unheld: bool): B.BreakerRecord {
    if unheld then B.Cleared(r) else r
  }

  /** The part after the arm: announce a hold that carries no stamp, and stamp it once accepted. */
  function Dispatched(r: B.BreakerRecord, decision: B.BreakerDecision, t: ContainerTick, hasDispatcher: bool): (a: ArmedTick)
    ensures a.record.Some?
  {
    if !t.armIo.Works? || decision.Proceed? then ArmedTick(Some(r), None, false)
    else
      var emitted := hasDispatcher && decision.notifiedAt.None?;
      var stamps := emitted && t.accepted && t.stampIo.Reaches();
      var found := Meanwhile(r, UnholdTakes(t.gap, stamps));
      ArmedTick(Some(StampedIf(found, stamps, t.stampedAt)), Some(decision.reason), emitted)
  }

  /**
   `arm_and_dispatch_hold` on one record. A store fault degrades to Proceed; a hold is announced until
   one announcement is accepted and stamped. Without a dispatcher there is nobody to announce to.
   */
  function ArmAndDispatch(s: Option<B.BreakerRecord>, t: ContainerTick, initiating: bool, hasDispatcher: bool): ArmedTick {
    if !t.armIo.Reaches() then ArmedTick(s, None, false)
    else
      var (r, decision) := B.Armed(B.OrFresh(s, t.container.RecordKey()), RequestOf(t, initiating));
      Dispatched(r, decision, t, hasDispatcher)
  }

  function PutBreaker(m: map<Key, B.BreakerRecord>, key: Key, s: Option<B.BreakerRecord>): map<Key, B.BreakerRecord> {
    if s.Some? then m[key := s.value] else m
  }

  // ----- One container --------------------------------------------------------------------------

  function StaleSources(stale: string -> bool, sources: seq<string>): seq<string> {
    if sources == [] then []
    else StaleSources(stale, Init(sources)) + if stale(Last(sources)) then [Last(sources)] else []
  }

  /** Whether the start pipeline consults the breaker. */
  predicate ShouldArm(c: Container, dryRun: bool) {
    !dryRun && (c.ExitedNonZero() || B.ArmOnEveryStart(c.runtime))
  }

  /** Whether the breaker is armed without a start being at stake. */
  predicate ObservesOnly(c: Container, dryRun: bool) {
    !dryRun && B.ArmOnEveryStart(c.runtime) && c.restartPolicy.DesiresRunning()
  }

  predicate ProbesWedge(c: Container, settings: Settings) {
    !settings.dryRun && settings.hasDispatcher && c.state.Running? && c.restartPolicy.DesiresRunning()
  }

  datatype TickOutcome = TickOutcome(
    row: ReconcileRow, stores: PassStores, startCalled: bool, alerted: bool, wedgeEvents: seq<W.WedgeEvent>
  )

  function StartedRow(c: Container): ReconcileRow {
    RowFor(c, Started, if c.ExitedNonZero() then StartedTentative(c.exitCode) else StartedClean)
  }

  /** The start pipeline from the breaker on: hold, or start. */
  function StartUnlessHeld(s: PassStores, t: ContainerTick, settings: Settings): (o: TickOutcome)
    ensures NamesContainer(o.row, t.container)
  {
    var c := t.container;
    if !ShouldArm(c, settings.dryRun) then TickOutcome(StartedRow(c), s, !settings.dryRun, false, [])
    else
      var armed := ArmAndDispatch(Get(s.breaker, c.RecordKey()), t, true, settings.hasDispatcher);
      var s' := s.(breaker := PutBreaker(s.breaker, c.RecordKey(), armed.record));
      if armed.held.Some? then TickOutcome(RowFor(c, HeldPendingBreaker, BreakerHeld(c.exitCode)), s', false, armed.emitted, [])
      else TickOutcome(StartedRow(c), s', true, false, [])
  }

  /** `run_start_pipeline`: stale mounts, then the breaker, then the start. */
  function StartPipeline(s: PassStores, t: ContainerTick, settings: Settings): (o: TickOutcome)
    ensures NamesContainer(o.row, t.container)
  {
    var blocked := StaleSources(settings.stale, t.container.mountSources);
    if blocked != [] then TickOutcome(RowFor(t.container, BlockedStaleMount, StaleMount(blocked)), s, false, false, [])
    else StartUnlessHeld(s, t, settings)
  }

  /** The wedge tick of one container: what its file record becomes and what it says. */
  function WedgeHandled(m: map<Key, W.WedgeRecord>, t: ContainerTick): (Option<W.WedgeRecord>, seq<W.WedgeEvent>) {
    W.Handled(Get(m, t.container.RecordKey()), t.wedge.(container := t.container), t.wedgeFate)
  }

  /** The NoOp branch: observe LXC, probe for a wedge, leave the row alone. */
  function ObserveRunning(s: PassStores, t: ContainerTick, settings: Settings): (o: TickOutcome)
    ensures NamesContainer(o.row, t.container)
  {
    var c := t.container;
    var armed := ArmAndDispatch(Get(s.breaker, c.RecordKey()), t, false, settings.hasDispatcher);
    var breaker := if ObservesOnly(c, settings.dryRun) then PutBreaker(s.breaker, c.RecordKey(), armed.record) else s.breaker;
    var probes := ProbesWedge(c, settings);
    var handled := WedgeHandled(s.wedge, t);
    var wedge := if probes then W.Updated(s.wedge, c.RecordKey(), handled.0) else s.wedge;
    TickOutcome(Classify(c), PassStores(breaker, wedge), false, ObservesOnly(c, settings.dryRun) && armed.emitted,
                if probes then handled.1 else [])
  }

  function HandleTick(s: PassStores, t: ContainerTick, settings: Settings): (o: TickOutcome)
    ensures NamesContainer(o.row, t.container)
  {
    match Classify(t.container).action
    case SkippedLabel | SkippedPolicy => TickOutcome(Classify(t.container), s, false, false, [])
    case NoOp => ObserveRunning(s, t, settings)
    case Started | BlockedStaleMount | HeldPendingBreaker => StartPipeline(s, t, settings)
  }

  // ----- The pass -------------------------------------------------------------------------------

  function TicksIn(listing: Listing): seq<ContainerTick> {
    if listing.Listed? then listing.ticks else []
  }

  function FailureIn(listing: Listing): seq<AdapterFailure> {
    if listing.ListFailed? then [listing.failure] else []
  }

  function TicksOf(listings: seq<Listing>): seq<ContainerTick> {
    FlatMap(TicksIn, listings)
  }

  predicate AllListed(listings: seq<Listing>) {
    forall i :: 0 <= i < |listings| ==> listings[i].Listed?
  }

  function Failures(listings: seq<Listing>): seq<AdapterFailure> {
    FlatMap(FailureIn, listings)
  }

  function LiveKeys(ticks: seq<ContainerTick>): set<Key> {
    set t | t in ticks :: t.container.RecordKey()
  }

  function StoresAfter(s: PassStores, ticks: seq<ContainerTick>, settings: Settings): PassStores {
    if ticks == [] then s
    else HandleTick(StoresAfter(s, Init(ticks), settings), Last(ticks), settings).stores
  }

  /** What happens to the `i`-th listed container, given everything before it. */
  function OutcomeAt(s: PassStores, ticks: seq<ContainerTick>, settings: Settings, i: nat): TickOutcome
    requires i < |ticks|
  {
    HandleTick(StoresAfter(s, ticks[..i], settings), ticks[i], settings)
  }

  function RowsOf(s: PassStores, ticks: seq<ContainerTick>, settings: Settings): (rows: seq<ReconcileRow>)
    ensures |rows| == |ticks|
  {
    seq(|ticks|, i requires 0 <= i < |ticks| => OutcomeAt(s, ticks, settings, i).row)
  }

  function CallOf(o: TickOutcome, t: ContainerTick): seq<StartCall> {
    if o.startCalled then [StartCall(t.container, t.armedAt)] else []
  }

  function AlertOf(o: TickOutcome, t: ContainerTick): seq<Key> {
    if o.alerted then [t.container.RecordKey()] else []
  }

  function ErrorOf(o: TickOutcome, t: ContainerTick): seq<StartFailure> {
    if o.startCalled && t.startError.Some?
    then [StartFailure(t.container.RecordKey(), t.container.name, t.startError.value)] else []
  }

  /** The `start` calls of a pass, in order. */
  function StartCalls(s: PassStores, ticks: seq<ContainerTick>, settings: Settings): seq<StartCall> {
    if ticks == [] then []
    else
      var o := HandleTick(StoresAfter(s, Init(ticks), settings), Last(ticks), settings);
      StartCalls(s, Init(ticks), settings) + CallOf(o, Last(ticks))
  }

  function StartErrors(s: PassStores, ticks: seq<ContainerTick>, settings: Settings): seq<StartFailure> {
    if ticks == [] then []
    else
      var o := HandleTick(StoresAfter(s, Init(ticks), settings), Last(ticks), settings);
      StartErrors(s, Init(ticks), settings) + ErrorOf(o, Last(ticks))
  }

  /** The hold alerts of a pass, by container, in order. */
  function Alerts(s: PassStores, ticks: seq<ContainerTick>, settings: Settings): seq<Key> {
    if ticks == [] then []
    else
      var o := HandleTick(StoresAfter(s, Init(ticks), settings), Last(ticks), settings);
      Alerts(s, Init(ticks), settings) + AlertOf(o, Last(ticks))
  }

  /** The wedge events of a pass, in order. */
  function WedgeNews(s: PassStores, ticks: seq<ContainerTick>, settings: Settings): seq<W.WedgeEvent> {
    if ticks == [] then []
    else
      var o := HandleTick(StoresAfter(s, Init(ticks), settings), Last(ticks), settings);
      WedgeNews(s, Init(ticks), settings) + o.wedgeEvents
  }

  /** Garbage collection at the end of a pass; a store that fails it is left alone. */
  function Collected(s: PassStores, live: set<Key>, settings: Settings): PassStores {
    PassStores(
      if settings.breakerCollects then Retained(s.breaker, live, B.Actionable) else s.breaker,
      if settings.hasDispatcher && settings.wedgeCollects then Retained(s.wedge, live, W.Actionable) else s.wedge)
  }

  function FinalStores(s: PassStores, listings: seq<Listing>, settings: Settings): PassStores {
    var after := StoresAfter(s, TicksOf(listings), settings);
    if !settings.dryRun && AllListed(listings) then Collected(after, LiveKeys(TicksOf(listings)), settings) else after
  }

  predicate RowLeq(a: ReconcileRow, b: ReconcileRow) {
    if a.host != b.host then StrLeq(a.host, b.host)
    else if a.name != b.name then StrLeq(a.name, b.name)
    else StrLeq(a.id, b.id)
  }

  lemma RowsAreOrdered()
    ensures TotalPreorder(RowLeq)
  {
    StringsAreOrdered();
  }

  /** What a walk gathers: stores, rows, `start` calls, start errors, hold alerts and wedge events. */
  datatype Tally = Tally(
    stores: PassStores, rows: seq<ReconcileRow>, calls: seq<StartCall>, errors: seq<StartFailure>, alerts: seq<Key>,
    news: seq<W.WedgeEvent>
  )

  function Tallied(w: Tally, t: ContainerTick, settings: Settings): Tally {
    var o := HandleTick(w.stores, t, settings);
    Tally(o.stores, w.rows + [o.row], w.calls + CallOf(o, t), w.errors + ErrorOf(o, t), w.alerts + AlertOf(o, t),
          w.news + o.wedgeEvents)
  }

  function TallyWith(settings: Settings): (Tally, ContainerTick) -> Tally {
    (w: Tally, t: ContainerTick) => Tallied(w, t, settings)
  }

  function Walk(w: Tally, ticks: seq<ContainerTick>, settings: Settings): Tally {
    FoldLeft(TallyWith(settings), w, ticks)
  }

  lemma WalkPush(w: Tally, ticks: seq<ContainerTick>, t: ContainerTick, settings: Settings)
    ensures Walk(w, ticks + [t], settings) == Tallied(Walk(w, ticks, settings), t, settings)
  {
    FoldPush(TallyWith(settings), w, ticks, t);
  }

  lemma WalkGrows(w: Tally, a: seq<ContainerTick>, b: seq<ContainerTick>, all: seq<ContainerTick>, settings: Settings)
    requires all == a + b
    ensures Walk(w, all, settings) == Walk(Walk(w, a, settings), b, settings)
  {
    FoldConcat(TallyWith(settings), w, a, b);
  }

  /** The pass's results, each from its own definition. */
  function PassTally(s: PassStores, ticks: seq<ContainerTick>, settings: Settings): Tally {
    Tally(StoresAfter(s, ticks, settings), RowsOf(s, ticks, settings), StartCalls(s, ticks, settings),
          StartErrors(s, ticks, settings), Alerts(s, ticks, settings), WedgeNews(s, ticks, settings))
  }

  lemma PassTallyPush(s: PassStores, ticks: seq<ContainerTick>, t: ContainerTick, settings: Settings, all: seq<ContainerTick>)
    requires all == ticks + [t]
    ensures PassTally(s, all, settings) == Tallied(PassTally(s, ticks, settings), t, settings)
  {
    PassStep(s, ticks, t, settings);
  }

  function ResultsFrom(s: PassStores, settings: Settings): seq<ContainerTick> -> Tally {
    (ticks: seq<ContainerTick>) => PassTally(s, ticks, settings)
  }

  lemma ResultsGrow(s: PassStores, ticks: seq<ContainerTick>, settings: Settings, k: nat)
    requires k < |ticks|
    ensures ResultsFrom(s, settings)(ticks[..k + 1]) == TallyWith(settings)(ResultsFrom(s, settings)(ticks[..k]), ticks[k])
  {
    PassTallyPush(s, ticks[..k], ticks[k], settings, ticks[..k + 1]);
  }

  /** Walked from nothing, the tally is the pass's results. */
  lemma WalkIsThePass(s: PassStores, ticks: seq<ContainerTick>, settings: Settings)
    ensures Walk(Tally(s, [], [], [], [], []), ticks, settings) == PassTally(s, ticks, settings)
  {
    var results := ResultsFrom(s, settings);
    forall k: nat | k < |ticks|
      ensures results(ticks[..k + 1]) == TallyWith(settings)(results(ticks[..k]), ticks[k])
    {
      ResultsGrow(s, ticks, settings, k);
    }
    FoldUnique(TallyWith(settings), results, ticks, |ticks|);
    assert ticks[..|ticks|] == ticks;
  }

  class Pass {
    var breaker: map<Key, B.BreakerRecord>
    var wedge: map<Key, W.WedgeRecord>
    var startCalls: seq<StartCall>
    var startErrors: seq<StartFailure>
    var alerts: seq<Key>
    var wedgeEvents: seq<W.WedgeEvent>

    constructor (breaker: map<Key, B.BreakerRecord>, wedge: map<Key, W.WedgeRecord>)
      ensures this.breaker == breaker && this.wedge == wedge
      ensures startCalls == [] && startErrors == [] && alerts == [] && wedgeEvents == []
    {
      this.breaker, this.wedge, startCalls, startErrors, alerts, wedgeEvents := breaker, wedge, [], [], [], [];
    }

    function Value(): PassStores
      reads this
    {
      PassStores(breaker, wedge)
    }

    method ArmAndDispatchHold(t: ContainerTick, initiating: bool, hasDispatcher: bool) returns (held: Option<B.HoldReason>)
      modifies this`breaker, this`alerts
      ensures
        var key := t.container.RecordKey();
        var armed := ArmAndDispatch(Get(old(breaker), key), t, initiating, hasDispatcher);
        && held == armed.held && breaker == PutBreaker(old(breaker), key, armed.record)
        && alerts == old(alerts) + if armed.emitted then [key] else []
    {
      var key := t.container.RecordKey();
      if !t.armIo.Reaches() {
        assert PutBreaker(breaker, key, Get(breaker, key)) == breaker;
        return None;
      }
      var (record, decision) := B.Armed(B.OrFresh(Get(breaker, key), key), RequestOf(t, initiating));
      held := DispatchHold(key, record, decision, t, hasDispatcher);
    }

    method DispatchHold(key: Key, record: B.BreakerRecord, decision: B.BreakerDecision, t: ContainerTick, hasDispatcher: bool)
      returns (held: Option<B.HoldReason>)
      modifies this`breaker, this`alerts
      ensures
        var armed := Dispatched(record, decision, t, hasDispatcher);
        && held == armed.held && breaker == PutBreaker(old(breaker), key, armed.record)
        && alerts == old(alerts) + if armed.emitted then [key] else []
    {
      breaker := breaker[key := record];
      if !t.armIo.Works? || decision.Proceed? {
        return None;
      }
      if t.gap.OnThisStore? {
        breaker := breaker[key := B.Cleared(record)];
      }
      if decision.notifiedAt.None? && hasDispatcher {
        alerts := alerts + [key];
      }
      if decision.notifiedAt.None? && hasDispatcher && t.accepted && t.stampIo.Reaches() {
        breaker := breaker[key := breaker[key].(notifiedAt := Some(t.stampedAt))];
      } else if t.gap.OnItsOwnStore? {
        breaker := breaker[key := B.Cleared(record)];
      }
      return Some(decision.reason);
    }

    method RunStartPipeline(t: ContainerTick, settings: Settings) returns (row: ReconcileRow)
      modifies this`breaker, this`startCalls, this`startErrors, this`alerts
      ensures
        var o := StartPipeline(old(Value()), t, settings);
        && row == o.row && Value() == o.stores
        && startCalls == old(startCalls) + CallOf(o, t)
        && startErrors == old(startErrors) + ErrorOf(o, t)
        && alerts == old(alerts) + AlertOf(o, t)
    {
      var c := t.container;
      var blocked: seq<string> := [];
      for i := 0 to |c.mountSources|
        invariant blocked == StaleSources(settings.stale, c.mountSources[..i])
      {
        assert Init(c.mountSources[..i + 1]) == c.mountSources[..i];
        if settings.stale(c.mountSources[i]) {
          blocked := blocked + [c.mountSources[i]];
        }
      }
      assert c.mountSources[..|c.mountSources|] == c.mountSources;
      if blocked != [] {
        return RowFor(c, BlockedStaleMount, StaleMount(blocked));
      }
      row := HoldOrStart(t, settings);
    }

    method HoldOrStart(t: ContainerTick, settings: Settings) returns (row: ReconcileRow)
      modifies this`breaker, this`startCalls, this`startErrors, this`alerts
      ensures
        var o := StartUnlessHeld(old(Value()), t, settings);
        && row == o.row && Value() == o.stores
        && startCalls == old(startCalls) + CallOf(o, t)
        && startErrors == old(startErrors) + ErrorOf(o, t)
        && alerts == old(alerts) + AlertOf(o, t)
    {
      var c := t.container;
      if ShouldArm(c, settings.dryRun) {
        var held := ArmAndDispatchHold(t, true, settings.hasDispatcher);
        if held.Some? {
          return RowFor(c, HeldPendingBreaker, BreakerHeld(c.exitCode));
        }
      }
      if !settings.dryRun {
        startCalls := startCalls + [StartCall(c, t.armedAt)];
        if t.startError.Some? {
          startErrors := startErrors + [StartFailure(c.RecordKey(), c.name, t.startError.value)];
        }
      }
      return StartedRow(c);
    }

    /** The NoOp branch. */
    method Observe(t: ContainerTick, settings: Settings)
      modifies this`breaker, this`wedge, this`alerts, this`wedgeEvents
      ensures
        var o := ObserveRunning(old(Value()), t, settings);
        Value() == o.stores && alerts == old(alerts) + AlertOf(o, t) && wedgeEvents == old(wedgeEvents) + o.wedgeEvents
    {
      if ObservesOnly(t.container, settings.dryRun) {
        var _ := ArmAndDispatchHold(t, false, settings.hasDispatcher);
      }
      if ProbesWedge(t.container, settings) {
        var (record, events) := WedgeHandled(wedge, t);
        wedge, wedgeEvents := W.Updated(wedge, t.container.RecordKey(), record), wedgeEvents + events;
      }
    }

    method Handle(t: ContainerTick, settings: Settings) returns (row: ReconcileRow)
      modifies this
      ensures
        var o := HandleTick(old(Value()), t, settings);
        && row == o.row && Value() == o.stores
        && startCalls == old(startCalls) + CallOf(o, t)
        && startErrors == old(startErrors) + ErrorOf(o, t)
        && alerts == old(alerts) + AlertOf(o, t)
        && wedgeEvents == old(wedgeEvents) + o.wedgeEvents
    {
      row := Classify(t.container);
      match row.action
      case SkippedLabel =>
      case SkippedPolicy =>
      case NoOp =>
        Observe(t, settings);
      case Started =>
        row := RunStartPipeline(t, settings);
      case BlockedStaleMount =>
        row := RunStartPipeline(t, settings);
      case HeldPendingBreaker =>
        row := RunStartPipeline(t, settings);
    }

    /** Everything a walk has gathered so far. */
    function Now(rows: seq<ReconcileRow>): Tally
      reads this
    {
      Tally(Value(), rows, startCalls, startErrors, alerts, wedgeEvents)
    }

    method HandleNext(
      ghost start: Tally, ghost seen: seq<ContainerTick>, before: seq<ReconcileRow>, t: ContainerTick, settings: Settings)
      returns (rows: seq<ReconcileRow>)
      requires Now(before) == Walk(start, seen, settings)
      modifies this
      ensures Now(rows) == Walk(start, seen + [t], settings)
    {
      WalkPush(start, seen, t, settings);
      var row := Handle(t, settings);
      rows := before + [row];
    }

    /** One adapter's containers. */
    method HandleAll(before: seq<ReconcileRow>, ticks: seq<ContainerTick>, settings: Settings)
      returns (rows: seq<ReconcileRow>)
      modifies this
      ensures Now(rows) == Walk(old(Now(before)), ticks, settings)
    {
      rows := before;
      ghost var start := Now(before);
      for i := 0 to |ticks|
        invariant Now(rows) == Walk(start, ticks[..i], settings)
      {
        assert ticks[..i + 1] == ticks[..i] + [ticks[i]];
        rows := HandleNext(start, ticks[..i], rows, ticks[i], settings);
      }
      assert ticks[..|ticks|] == ticks;
    }

    /** One adapter: its containers, or its failure. */
    method VisitListing(
      ghost start: Tally, ghost done: seq<ContainerTick>, ghost more: seq<ContainerTick>, before: seq<ReconcileRow>,
      listing: Listing, settings: Settings)
      returns (rows: seq<ReconcileRow>, failure: seq<AdapterFailure>, live: set<Key>)
      requires Now(before) == Walk(start, done, settings) && more == done + TicksIn(listing)
      modifies this
      ensures Now(rows) == Walk(start, more, settings)
      ensures failure == FailureIn(listing) && live == LiveKeys(TicksIn(listing))
    {
      match listing
      case ListFailed(f) =>
        assert more == done;
        rows, failure, live := before, [f], {};
      case Listed(ticks) =>
        WalkGrows(start, done, ticks, more, settings);
        rows := HandleAll(before, ticks, settings);
        failure, live := [], LiveKeys(ticks);
    }

    /** The double loop of `reconcile`: every adapter, every container it lists. */
    method WalkAll(listings: seq<Listing>, settings: Settings)
      returns (rows: seq<ReconcileRow>, adapterErrors: seq<AdapterFailure>, liveKeys: set<Key>, allListed: bool)
      modifies this
      ensures Now(rows) == Walk(old(Now([])), TicksOf(listings), settings)
      ensures adapterErrors == Failures(listings) && allListed == AllListed(listings)
      ensures liveKeys == LiveKeys(TicksOf(listings))
    {
      ghost var start := Now([]);
      rows, adapterErrors, liveKeys, allListed := [], [], {}, true;
      for i := 0 to |listings|
        invariant Now(rows) == Walk(start, TicksOf(listings[..i]), settings)
        invariant adapterErrors == Failures(listings[..i]) && allListed == (adapterErrors == [])
        invariant liveKeys == LiveKeys(TicksOf(listings[..i]))
      {
        WalkStep(listings, i);
        var failure, live;
        rows, failure, live :=
          VisitListing(start, TicksOf(listings[..i]), TicksOf(listings[..i + 1]), rows, listings[i], settings);
        adapterErrors, liveKeys := adapterErrors + failure, liveKeys + live;
        allListed := allListed && failure == [];
      }
      assert listings[..|listings|] == listings;
      AllListedIff(listings);
    }

    method WalkListings(listings: seq<Listing>, settings: Settings)
      returns (rows: seq<ReconcileRow>, adapterErrors: seq<AdapterFailure>, liveKeys: set<Key>, allListed: bool)
      requires startCalls == [] && startErrors == [] && alerts == [] && wedgeEvents == []
      modifies this
      ensures Now(rows) == PassTally(old(Value()), TicksOf(listings), settings)
      ensures adapterErrors == Failures(listings) && allListed == AllListed(listings)
      ensures liveKeys == LiveKeys(TicksOf(listings))
    {
      WalkIsThePass(Value(), TicksOf(listings), settings);
      rows, adapterErrors, liveKeys, allListed := WalkAll(listings, settings);
    }

    /** `reconcile`: walk, collect garbage unless something could not be listed, sort the rows. */
    method Reconcile(listings: seq<Listing>, settings: Settings)
      returns (rows: seq<ReconcileRow>, adapterErrors: seq<AdapterFailure>)
      requires startCalls == [] && startErrors == [] && alerts == [] && wedgeEvents == []
      modifies this
      ensures rows == Sort(RowLeq, RowsOf(old(Value()), TicksOf(listings), settings))
      ensures Value() == FinalStores(old(Value()), listings, settings)
      ensures startCalls == StartCalls(old(Value()), TicksOf(listings), settings)
      ensures startErrors == StartErrors(old(Value()), TicksOf(listings), settings)
      ensures alerts == Alerts(old(Value()), TicksOf(listings), settings)
      ensures wedgeEvents == WedgeNews(old(Value()), TicksOf(listings), settings)
      ensures adapterErrors == Failures(listings)
    {
      var liveKeys, allListed;
      rows, adapterErrors, liveKeys, allListed := WalkListings(listings, settings);
      if !settings.dryRun && allListed {
        if settings.breakerCollects {
          breaker := Retained(breaker, liveKeys, B.Actionable);
        }
        if settings.hasDispatcher && settings.wedgeCollects {
          wedge := Retained(wedge, liveKeys, W.Actionable);
        }
      }
      rows := Sort(RowLeq, rows);
    }
  }

  lemma WalkStep(listings: seq<Listing>, i: nat)
    requires i < |listings|
    ensures TicksOf(listings[..i + 1]) == TicksOf(listings[..i]) + TicksIn(listings[i])
    ensures Failures(listings[..i + 1]) == Failures(listings[..i]) + FailureIn(listings[i])
    ensures LiveKeys(TicksOf(listings[..i + 1])) == LiveKeys(TicksOf(listings[..i])) + LiveKeys(TicksIn(listings[i]))
  {
    FlatMapPush(TicksIn, listings[..i], listings[i], listings[..i + 1]);
    FlatMapPush(FailureIn, listings[..i], listings[i], listings[..i + 1]);
    LiveKeysOfConcat(TicksOf(listings[..i]), TicksIn(listings[i]));
  }

  lemma {:induction false} AllListedIff(listings: seq<Listing>)
    ensures AllListed(listings) <==> Failures(listings) == []
  {
    if listings != [] {
      AllListedIff(Init(listings));
      assert listings == Init(listings) + [Last(listings)];
      FlatMapPush(FailureIn, Init(listings), Last(listings), listings);
    }
  }

  lemma LiveKeysOfConcat(a: seq<ContainerTick>, b: seq<ContainerTick>)
    ensures LiveKeys(a + b) == LiveKeys(a) + LiveKeys(b)
  {
  }

  /** A container's visit touches no other container's record in either store. */
  lemma TickTouchesOnlyItsKey(s: PassStores, t: ContainerTick, settings: Settings, key: Key)
    requires t.container.RecordKey() != key
    ensures Get(HandleTick(s, t, settings).stores.breaker, key) == Get(s.breaker, key)
    ensures Get(HandleTick(s, t, settings).stores.wedge, key) == Get(s.wedge, key)
  {
  }

  /** Two outcomes that agree on the breaker store and on whether `start` was called. */
  predicate SameStart(a: TickOutcome, b: TickOutcome) {
    a.stores.breaker == b.stores.breaker && a.startCalled == b.startCalled
  }

  lemma PipelineIgnoresWedge(s: PassStores, wedge: map<Key, W.WedgeRecord>, t: ContainerTick, settings: Settings)
    ensures SameStart(StartPipeline(s, t, settings), StartPipeline(s.(wedge := wedge), t, settings))
  {
  }

  lemma ObservingIgnoresWedge(s: PassStores, wedge: map<Key, W.WedgeRecord>, t: ContainerTick, settings: Settings)
    ensures SameStart(ObserveRunning(s, t, settings), ObserveRunning(s.(wedge := wedge), t, settings))
  {
  }

  /** What a visit does to the breaker store and to the container does not depend on the wedge store. */
  lemma BreakerIgnoresWedge(s: PassStores, wedge: map<Key, W.WedgeRecord>, t: ContainerTick, settings: Settings)
    ensures SameStart(HandleTick(s, t, settings), HandleTick(s.(wedge := wedge), t, settings))
  {
    PipelineIgnoresWedge(s, wedge, t, settings);
    ObservingIgnoresWedge(s, wedge, t, settings);
  }

  /** What one more container adds to each result of the walk. */
  lemma PassStep(s: PassStores, ticks: seq<ContainerTick>, t: ContainerTick, settings: Settings)
    ensures
      var all := ticks + [t];
      var o := HandleTick(StoresAfter(s, ticks, settings), t, settings);
      && StoresAfter(s, all, settings) == o.stores
      && RowsOf(s, all, settings) == RowsOf(s, ticks, settings) + [o.row]
      && StartCalls(s, all, settings) == StartCalls(s, ticks, settings) + CallOf(o, t)
      && StartErrors(s, all, settings) == StartErrors(s, ticks, settings) + ErrorOf(o, t)
      && Alerts(s, all, settings) == Alerts(s, ticks, settings) + AlertOf(o, t)
      && WedgeNews(s, all, settings) == WedgeNews(s, ticks, settings) + o.wedgeEvents
  {
    var all := ticks + [t];
    assert Init(all) == ticks;
    forall i | 0 <= i < |ticks| ensures OutcomeAt(s, all, settings, i) == OutcomeAt(s, ticks, settings, i) {
      assert all[..i] == ticks[..i];
    }
    assert all[..|ticks|] == ticks;
  }
}
