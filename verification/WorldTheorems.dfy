/**
 Many passes and operator unholds in a row, seen from one container: the alerts of a hold, and the
 restart-rate bound carried from the breaker's history to the `start` calls the reconciler makes.
 */
module WorldTheorems {
  import opened Prelude
  import opened ContainerRuntime
  import opened Stores
  import opened Reconciler
  import B = Breaker
  import H = BreakerHistory
  import T = BreakerTheorems
  import P = PassTheorems

  // ----- One accepted alert per hold ------------------------------------------------------------

  /** A tick that arms this container, with or without somebody to tell, or an operator's unhold. */
  datatype AlertStep = Arms(t: ContainerTick, initiating: bool, hasDispatcher: bool) | Unholds

  function AlertAfter(key: Key, steps: seq<AlertStep>): Option<B.BreakerRecord> {
    if steps == [] then None
    else
      var s := AlertAfter(key, Init(steps));
      match Last(steps)
      case Arms(t, initiating, hasDispatcher) => ArmAndDispatch(s, t, initiating, hasDispatcher).record
      case Unholds => H.Step(key, s, H.UnholdOp)
  }

  predicate Holds(s: Option<B.BreakerRecord>) {
    s.Some? && s.value.status.Held?
  }

  /** Every arm is about this container and its own read and write work; a stamp's write may fail. */
  predicate Undisturbed(key: Key, steps: seq<AlertStep>) {
    forall i :: 0 <= i < |steps| && steps[i].Arms? ==> SoundTick(key, steps[i].t)
  }

  predicate SoundTick(key: Key, t: ContainerTick) {
    t.armIo.Works? && t.container.RecordKey() == key
  }

  /** An announcement is owed: the arm says Hold, somebody listens, and no stamp silences this hold. */
  predicate Owed(s: Option<B.BreakerRecord>, armed: ArmedTick, hasDispatcher: bool, stamped: bool) {
    hasDispatcher && armed.held.Some? && !(Holds(s) && stamped)
  }

  /** An owed announcement was accepted and its stamp reached the file, and no unhold has cleared the record since. */
  predicate StampInForce(key: Key, steps: seq<AlertStep>) {
    if steps == [] then false
    else
      var s := AlertAfter(key, Init(steps));
      var stamped := StampInForce(key, Init(steps));
      match Last(steps)
      case Unholds => stamped && !Holds(s)
      case Arms(t, initiating, hasDispatcher) =>
        var armed := ArmAndDispatch(s, t, initiating, hasDispatcher);
        (Owed(s, armed, hasDispatcher, stamped) && t.accepted && t.stampIo.Reaches()) || (stamped && !UnheldInGap(armed, t))
  }

  /** The record carries a stamp exactly when the history says one is in force. */
  predicate StampIs(key: Key, s: Option<B.BreakerRecord>, stamped: bool) {
    s.Some? ==>
      && s.value.key == key
      && (s.value.status.Held? ==> s.value.heldReason.Some?)
      && s.value.notifiedAt.Some? == stamped
  }

  /** What an arm does to the parts of a record that alerts depend on. */
  lemma ArmAndStamp(key: Key, s: Option<B.BreakerRecord>, q: B.ArmRequest)
    requires Holds(s) ==> s.value.heldReason.Some?
    ensures
      var was := B.OrFresh(s, key);
      var (r, decision) := B.Armed(was, q);
      && r.key == was.key && r.notifiedAt == was.notifiedAt
      && (decision.Hold? <==> r.status.Held?) && (r.status.Held? ==> r.heldReason.Some?)
      && (Holds(s) ==> decision.Hold?)
      && (decision.Hold? ==> decision.notifiedAt == if Holds(s) then was.notifiedAt else None)
  {
  }

  lemma ArmKeepsStamp(key: Key, s: Option<B.BreakerRecord>, t: ContainerTick, initiating: bool, hasDispatcher: bool, stamped: bool)
    requires SoundTick(key, t) && StampIs(key, s, stamped) && (s.None? ==> !stamped)
    ensures
      var armed := ArmAndDispatch(s, t, initiating, hasDispatcher);
      && armed.record.Some?
      && (armed.emitted <==> Owed(s, armed, hasDispatcher, stamped))
      && StampIs(key, armed.record, Stamps(armed, t) || (stamped && !UnheldInGap(armed, t)))
  {
    ArmAndStamp(key, s, RequestOf(t, initiating));
  }

  lemma {:induction false} StampsAreExact(key: Key, steps: seq<AlertStep>)
    requires Undisturbed(key, steps)
    ensures StampIs(key, AlertAfter(key, steps), StampInForce(key, steps))
    ensures AlertAfter(key, steps).None? ==> !StampInForce(key, steps)
  {
    if steps != [] {
      StampsAreExact(key, Init(steps));
      assert Last(steps) == steps[|steps| - 1];
      if Last(steps).Arms? {
        ArmKeepsStamp(key, AlertAfter(key, Init(steps)), Last(steps).t, Last(steps).initiating, Last(steps).hasDispatcher,
                      StampInForce(key, Init(steps)));
      }
    }
  }

  /** The exact law, wherever unholds fall: a hold is announced when it is new or no stamp is in force. */
  lemma AnnouncesIffOwed(key: Key, steps: seq<AlertStep>, t: ContainerTick, initiating: bool, hasDispatcher: bool)
    requires Undisturbed(key, steps) && SoundTick(key, t)
    ensures
      var s := AlertAfter(key, steps);
      var armed := ArmAndDispatch(s, t, initiating, hasDispatcher);
      armed.emitted <==> Owed(s, armed, hasDispatcher, StampInForce(key, steps))
  {
    StampsAreExact(key, steps);
    ArmKeepsStamp(key, AlertAfter(key, steps), t, initiating, hasDispatcher, StampInForce(key, steps));
  }

  predicate Acknowledged(step: AlertStep)
    requires step.Arms?
  {
    step.hasDispatcher && step.t.accepted && step.t.stampIo.Reaches()
  }

  /** A backend accepted an announcement of the hold now in force, and that was written down. */
  predicate AcceptedThisHold(key: Key, steps: seq<AlertStep>) {
    && steps != [] && Holds(AlertAfter(key, steps))
    && (AcceptedThisHold(key, Init(steps)) || (Last(steps).Arms? && Acknowledged(Last(steps))))
  }

  /** No unhold falls between an arm and its stamp on the pass's own store. */
  predicate NoSharedUnholdInGap(steps: seq<AlertStep>) {
    forall i :: 0 <= i < |steps| && steps[i].Arms? ==> !steps[i].t.gap.OnThisStore?
  }

  lemma HeldArm(key: Key, s: Option<B.BreakerRecord>, t: ContainerTick, initiating: bool, hasDispatcher: bool)
    requires SoundTick(key, t) && (Holds(s) ==> s.value.heldReason.Some?)
    ensures
      var armed := ArmAndDispatch(s, t, initiating, hasDispatcher);
      && (Holds(armed.record) <==> armed.held.Some? && !UnheldInGap(armed, t))
      && (Holds(s) ==> armed.held.Some?)
  {
    ArmAndStamp(key, s, RequestOf(t, initiating));
  }

  lemma {:induction false} StampMeansAccepted(key: Key, steps: seq<AlertStep>)
    requires Undisturbed(key, steps) && NoSharedUnholdInGap(steps)
    ensures StampInForce(key, steps) == AcceptedThisHold(key, steps)
  {
    if steps != [] {
      var was := Init(steps);
      StampMeansAccepted(key, was);
      StampsAreExact(key, was);
      assert Last(steps) == steps[|steps| - 1];
      if Last(steps).Arms? {
        ArmKeepsStamp(key, AlertAfter(key, was), Last(steps).t, Last(steps).initiating, Last(steps).hasDispatcher,
                      StampInForce(key, was));
        HeldArm(key, AlertAfter(key, was), Last(steps).t, Last(steps).initiating, Last(steps).hasDispatcher);
      }
    }
  }

  /**
   One accepted alert per hold: a tick with a dispatcher announces the hold exactly when no earlier tick
   of that hold was accepted and stamped. Ticks without a dispatcher, stamps whose write is lost and
   unholds anywhere may come in between, as long as an unhold that falls between an arm and its stamp
   works on a store of its own, which is how the operator's tool does it.
   */
  lemma AnnouncesIffNotYetAccepted(key: Key, steps: seq<AlertStep>, t: ContainerTick, initiating: bool, hasDispatcher: bool)
    requires Undisturbed(key, steps) && NoSharedUnholdInGap(steps) && SoundTick(key, t)
    ensures
      var armed := ArmAndDispatch(AlertAfter(key, steps), t, initiating, hasDispatcher);
      armed.emitted <==> hasDispatcher && armed.held.Some? && !AcceptedThisHold(key, steps)
  {
    AnnouncesIffOwed(key, steps, t, initiating, hasDispatcher);
    StampMeansAccepted(key, steps);
  }

  /** A crash of a docker container `at` seconds, announced to a backend that accepts or not. */
  function CrashTick(base: ContainerTick, at: Time, accepted: bool, unheld: bool): ContainerTick {
    base.(
      container := Container("c1", "web", Docker, "h1", Exited, Always, [], [], 0, Some(1)),
      observation := HostObservation(None, None),
      armedAt := at, armIo := Works, stampIo := Works, accepted := accepted,
      gap := if unheld then OnThisStore else NoUnhold)
  }

  function SilencingRun(base: ContainerTick): seq<AlertStep> {
    [Arms(CrashTick(base, 0, true, false), true, true)]
    + [Arms(CrashTick(base, 10, true, true), true, true)]
    + [Arms(CrashTick(base, 20, false, false), true, true)]
  }

  /** Counted from a start at 0 s: a crash is held, and its record carries a stamp or not. */
  predicate StartedAtZero(s: Option<B.BreakerRecord>, status: B.BreakerStatus, stamped: bool) {
    && s.Some? && s.value.status == status && s.value.lastOrcaStartAt == Some(0)
    && (status.Held? <==> s.value.heldReason.Some?) && s.value.notifiedAt.Some? == stamped
    && s.value.restartCountSnapshot == Some(0) && |s.value.recentStarts| <= 1
  }

  lemma FirstCrash(base: ContainerTick)
    ensures StartedAtZero(ArmAndDispatch(None, CrashTick(base, 0, true, false), true, true).record, B.Watching, false)
  {
  }

  lemma LaterCrash(base: ContainerTick, s: Option<B.BreakerRecord>, at: Time, accepted: bool, unheld: bool, stamped: bool)
    requires StartedAtZero(s, B.Watching, stamped) && 0 < at <= 60
    ensures
      var armed := ArmAndDispatch(s, CrashTick(base, at, accepted, unheld), true, true);
      && armed.held.Some? && armed.emitted
      && (unheld ==> StartedAtZero(armed.record, B.Watching, accepted))
      && (!unheld ==> StartedAtZero(armed.record, B.Held, stamped || accepted))
  {
  }

  lemma AlertPush(key: Key, steps: seq<AlertStep>, step: AlertStep)
    requires step.Arms?
    ensures AlertAfter(key, []) == None
    ensures AlertAfter(key, steps + [step]) ==
            ArmAndDispatch(AlertAfter(key, steps), step.t, step.initiating, step.hasDispatcher).record
  {
    assert Init(steps + [step]) == steps;
  }

  /** One more crash within the minute, in a run of alerts. */
  lemma LaterCrashInRun(
    key: Key, base: ContainerTick, steps: seq<AlertStep>, at: Time, accepted: bool, unheld: bool, stamped: bool)
    requires StartedAtZero(AlertAfter(key, steps), B.Watching, stamped) && 0 < at <= 60
    ensures
      var s := AlertAfter(key, steps + [Arms(CrashTick(base, at, accepted, unheld), true, true)]);
      && (unheld ==> StartedAtZero(s, B.Watching, accepted))
      && (!unheld ==> StartedAtZero(s, B.Held, stamped || accepted))
  {
    LaterCrash(base, AlertAfter(key, steps), at, accepted, unheld, stamped);
    AlertPush(key, steps, Arms(CrashTick(base, at, accepted, unheld), true, true));
  }

  lemma StampedHoldIsSilent(s: Option<B.BreakerRecord>, t: ContainerTick)
    requires StartedAtZero(s, B.Held, true) && t.armIo.Works?
    ensures Holds(s) && ArmAndDispatch(s, t, true, true).held.Some? && !ArmAndDispatch(s, t, true, true).emitted
  {
  }

  lemma NotAcceptedYet(key: Key, was: seq<AlertStep>, step: AlertStep)
    requires !Holds(AlertAfter(key, was)) && step.Arms? && !step.t.accepted
    ensures !AcceptedThisHold(key, was + [step])
  {
    assert Init(was + [step]) == was;
  }

  lemma SilencingStates(base: ContainerTick)
    ensures
      var key, steps := Key("h1", Docker, "c1"), SilencingRun(base);
      StartedAtZero(AlertAfter(key, steps), B.Held, true) && !AcceptedThisHold(key, steps)
  {
    var key := Key("h1", Docker, "c1");
    var first := Arms(CrashTick(base, 0, true, false), true, true);
    var second := Arms(CrashTick(base, 10, true, true), true, true);
    FirstCrash(base);
    AlertPush(key, [], first);
    assert [] + [first] == [first];
    LaterCrashInRun(key, base, [first], 10, true, true, false);
    LaterCrashInRun(key, base, [first] + [second], 20, false, false, true);
    NotAcceptedYet(key, [first] + [second], Arms(CrashTick(base, 20, false, false), true, true));
  }

  /**
   With one store shared by the pass and the unhold the law fails: an unhold between an accepted alert and
   its stamp leaves the stamp on a cleared record, and the next hold falls silent although nobody ever
   accepted it. With a store each, the stamp puts the Held record back and the unhold is lost instead
   (`StampOverwritesSeparateUnhold`).
   */
  lemma StaleStampSilencesNextHold(base: ContainerTick)
    ensures
      var key := Key("h1", Docker, "c1");
      var steps := SilencingRun(base);
      var armed := ArmAndDispatch(AlertAfter(key, steps), CrashTick(base, 30, true, false), true, true);
      && Undisturbed(key, steps) && Holds(AlertAfter(key, steps)) && armed.held.Some?
      && !AcceptedThisHold(key, steps) && !armed.emitted
  {
    SilencingStates(base);
    StampedHoldIsSilent(AlertAfter(Key("h1", Docker, "c1"), SilencingRun(base)), CrashTick(base, 30, true, false));
  }

  /** The shipped wiring: an unhold from a store of its own is lost to the stamp that follows it. */
  lemma StampOverwritesSeparateUnhold(key: Key, s: Option<B.BreakerRecord>, t: ContainerTick, initiating: bool)
    requires SoundTick(key, t) && (Holds(s) ==> s.value.heldReason.Some?)
    requires t.gap.OnItsOwnStore? && ArmAndDispatch(s, t, initiating, true).held.Some?
    ensures
      var armed := ArmAndDispatch(s, t, initiating, true);
      Holds(armed.record) <==> armed.emitted && t.accepted && t.stampIo.Reaches()
  {
    HeldArm(key, s, t, initiating, true);
  }

  // ----- From the world to one record's history -------------------------------------------------

  datatype WorldStep =
    | Visit(t: ContainerTick, settings: Settings)  // one container of one pass
    | Collect(live: set<Key>)                      // the garbage collection that ends a pass
    | Operator(key: Key)                           // containers.unhold

  function BreakerAfterVisit(m: map<Key, B.BreakerRecord>, t: ContainerTick, settings: Settings): map<Key, B.BreakerRecord> {
    HandleTick(PassStores(m, map[]), t, settings).stores.breaker
  }

  function WorldNext(m: map<Key, B.BreakerRecord>, step: WorldStep): map<Key, B.BreakerRecord> {
    match step
    case Visit(t, settings) => BreakerAfterVisit(m, t, settings)
    case Collect(live) => Retained(m, live, B.Actionable)
    case Operator(key) => PutBreaker(m, key, H.Step(key, Get(m, key), H.UnholdOp))
  }

  function World(steps: seq<WorldStep>): map<Key, B.BreakerRecord> {
    if steps == [] then map[] else WorldNext(World(Init(steps)), Last(steps))
  }

  /** How a visit arms the breaker, if it does. */
  function ArmKind(t: ContainerTick, settings: Settings): Option<bool> {
    P.ArmKind(t.container, settings)
  }

  function UnholdIf(unheld: bool): seq<H.BreakerOp> {
    if unheld then [H.UnholdOp] else []
  }

  function StampIf(stamps: bool, at: Time): seq<H.BreakerOp> {
    if stamps then [H.NotifyOp(at)] else []
  }

  predicate UnheldInGap(armed: ArmedTick, t: ContainerTick) {
    armed.held.Some? && UnholdTakes(t.gap, Stamps(armed, t))
  }

  predicate Stamps(armed: ArmedTick, t: ContainerTick) {
    armed.emitted && t.accepted && t.stampIo.Reaches()
  }

  /** The operations one visit sees performed on its container's record. */
  function OpsOfVisit(s: Option<B.BreakerRecord>, t: ContainerTick, settings: Settings): seq<H.BreakerOp> {
    var kind := ArmKind(t, settings);
    if kind.None? then []
    else
      var q := RequestOf(t, kind.value);
      var armed := ArmAndDispatch(s, t, kind.value, settings.hasDispatcher);
      [H.ArmOp(q)] + UnholdIf(UnheldInGap(armed, t)) + StampIf(Stamps(armed, t), t.stampedAt)
  }

  /** What one step of the world does to one key's record. */
  function OpsOfStep(key: Key, m: map<Key, B.BreakerRecord>, step: WorldStep): seq<H.BreakerOp> {
    match step
    case Visit(t, settings) => if t.container.RecordKey() == key then OpsOfVisit(Get(m, key), t, settings) else []
    case Collect(_) => []
    case Operator(k) => if k == key then [H.UnholdOp] else []
  }

  /** Everything the world did to one key's record. */
  function OpsOn(key: Key, steps: seq<WorldStep>): seq<H.BreakerOp> {
    if steps == [] then [] else OpsOn(key, Init(steps)) + OpsOfStep(key, World(Init(steps)), Last(steps))
  }

  /** The store works for this key, and a collection does not evict its record. */
  predicate KeptBy(key: Key, m: map<Key, B.BreakerRecord>, step: WorldStep) {
    match step
    case Visit(t, _) => t.container.RecordKey() == key ==> SoundTick(key, t)
    case Collect(live) => key in live || Holds(Get(m, key)) || key !in m
    case Operator(_) => true
  }

  predicate Kept(key: Key, steps: seq<WorldStep>) {
    steps == [] || (Kept(key, Init(steps)) && KeptBy(key, World(Init(steps)), Last(steps)))
  }

  /** A visit leaves its own record as its arm left it, or alone. */
  lemma VisitRecord(m: map<Key, B.BreakerRecord>, t: ContainerTick, settings: Settings)
    requires t.armIo.Works?
    ensures
      var key := t.container.RecordKey();
      var kind := ArmKind(t, settings);
      Get(BreakerAfterVisit(m, t, settings), key) ==
      if kind.None? then Get(m, key)
      else ArmAndDispatch(Get(m, key), t, kind.value, settings.hasDispatcher).record
  {
    P.VisitArms(PassStores(m, map[]), t, settings);
  }

  lemma RunPush(key: Key, h: seq<H.BreakerOp>, op: H.BreakerOp)
    ensures H.Run(key, h + [op]) == H.Step(key, H.Run(key, h), op)
  {
    assert Init(h + [op]) == h;
  }

  lemma RunIf(key: Key, h: seq<H.BreakerOp>, op: H.BreakerOp, happens: bool)
    ensures H.Run(key, h + if happens then [op] else []) == if happens then H.Step(key, H.Run(key, h), op) else H.Run(key, h)
  {
    if happens {
      RunPush(key, h, op);
    } else {
      assert h + [] == h;
    }
  }

  lemma Regroup<X>(a: seq<X>, b: seq<X>, c: seq<X>, d: seq<X>)
    ensures a + (b + c + d) == a + b + c + d
  {
  }

  lemma RunArmUnholdStamp(key: Key, h: seq<H.BreakerOp>, arm: H.BreakerOp, unheld: bool, stamps: bool, at: Time)
    ensures
      var armed := H.Step(key, H.Run(key, h), arm);
      var found := if unheld then H.Step(key, armed, H.UnholdOp) else armed;
      H.Run(key, h + ([arm] + UnholdIf(unheld) + StampIf(stamps, at))) ==
      if stamps then H.Step(key, found, H.NotifyOp(at)) else found
  {
    Regroup(h, [arm], UnholdIf(unheld), StampIf(stamps, at));
    RunPush(key, h, arm);
    RunIf(key, h + [arm], H.UnholdOp, unheld);
    RunIf(key, h + [arm] + UnholdIf(unheld), H.NotifyOp(at), stamps);
  }

  /** Arming with an alert is an arm, then the unhold that fell in the gap, then a stamp if accepted. */
  lemma ArmAndDispatchIsSteps(key: Key, s: Option<B.BreakerRecord>, t: ContainerTick, initiating: bool, hasDispatcher: bool)
    requires SoundTick(key, t)
    ensures
      var armed := ArmAndDispatch(s, t, initiating, hasDispatcher);
      var s' := H.Step(key, s, H.ArmOp(RequestOf(t, initiating)));
      var found := if UnheldInGap(armed, t) then H.Step(key, s', H.UnholdOp) else s';
      armed.record == if Stamps(armed, t) then H.Step(key, found, H.NotifyOp(t.stampedAt)) else found
  {
  }

  lemma VisitIsItsOps(key: Key, h: seq<H.BreakerOp>, m: map<Key, B.BreakerRecord>, t: ContainerTick, settings: Settings)
    requires SoundTick(key, t) && Get(m, key) == H.Run(key, h)
    ensures Get(BreakerAfterVisit(m, t, settings), key) == H.Run(key, h + OpsOfVisit(Get(m, key), t, settings))
  {
    var s := Get(m, key);
    var kind := ArmKind(t, settings);
    VisitRecord(m, t, settings);
    if kind.None? {
      assert h + [] == h;
    } else {
      var armed := ArmAndDispatch(s, t, kind.value, settings.hasDispatcher);
      ArmAndDispatchIsSteps(key, s, t, kind.value, settings.hasDispatcher);
      RunArmUnholdStamp(key, h, H.ArmOp(RequestOf(t, kind.value)), UnheldInGap(armed, t), Stamps(armed, t), t.stampedAt);
    }
  }

  lemma StepIsItsOps(key: Key, h: seq<H.BreakerOp>, m: map<Key, B.BreakerRecord>, step: WorldStep)
    requires KeptBy(key, m, step) && Get(m, key) == H.Run(key, h)
    ensures Get(WorldNext(m, step), key) == H.Run(key, h + OpsOfStep(key, m, step))
  {
    assert h + [] == h;
    match step
    case Visit(t, settings) =>
      if t.container.RecordKey() == key {
        VisitIsItsOps(key, h, m, t, settings);
      } else {
        TickTouchesOnlyItsKey(PassStores(m, map[]), t, settings, key);
      }
    case Collect(_) =>
    case Operator(k) =>
      RunPush(key, h, H.UnholdOp);
  }

  /** Through any number of passes and unholds, a kept record is the run of its own operations. */
  lemma {:induction false} RecordIsItsRun(key: Key, steps: seq<WorldStep>)
    requires Kept(key, steps)
    ensures Get(World(steps), key) == H.Run(key, OpsOn(key, steps))
  {
    if steps != [] {
      RecordIsItsRun(key, Init(steps));
      StepIsItsOps(key, OpsOn(key, Init(steps)), World(Init(steps)), Last(steps));
    }
  }

  // ----- The reconciler's own starts ------------------------------------------------------------

  /** The `start` calls one step of the world makes. */
  function CallsOfStep(m: map<Key, B.BreakerRecord>, step: WorldStep): seq<StartCall> {
    if step.Visit? then CallOf(HandleTick(PassStores(m, map[]), step.t, step.settings), step.t) else []
  }

  /** The instants of those calls that were for `key` and found it exited non-zero. */
  function CrashStarts(key: Key, calls: seq<StartCall>): seq<Time> {
    if calls == [] then []
    else
      CrashStarts(key, Init(calls)) +
      if Last(calls).container.RecordKey() == key && P.Crashed(Last(calls).container) then [Last(calls).at] else []
  }

  /** The instants at which the reconciler called `start` on a container it saw exited non-zero. */
  function TentativeStarts(key: Key, steps: seq<WorldStep>): seq<Time> {
    if steps == [] then []
    else TentativeStarts(key, Init(steps)) + CrashStarts(key, CallsOfStep(World(Init(steps)), Last(steps)))
  }

  lemma CrashStartsOfCall(key: Key, o: TickOutcome, t: ContainerTick)
    ensures CrashStarts(key, CallOf(o, t)) ==
            if o.startCalled && t.container.RecordKey() == key && t.container.ExitedNonZero() then [t.armedAt] else []
  {
    if o.startCalled {
      assert Init(CallOf(o, t)) == [];
    }
  }

  lemma {:induction false} CrashStartsConcat(key: Key, a: seq<StartCall>, b: seq<StartCall>)
    ensures CrashStarts(key, a + b) == CrashStarts(key, a) + CrashStarts(key, b)
  {
    if b == [] {
      assert a + b == a;
    } else {
      CrashStartsConcat(key, a, Init(b));
      assert Init(a + b) == a + Init(b);
    }
  }

  /** The instants of the starts in a record's history. */
  function StartInstants(key: Key, h: seq<H.BreakerOp>): seq<Time> {
    if h == [] then []
    else
      StartInstants(key, Init(h)) +
      if T.StartsNow(key, Init(h), Last(h)) then [Last(h).q.now] else []
  }

  /** A docker visit starts a crashed container exactly when its arm is let through. */
  lemma StartIsAnArm(key: Key, h: seq<H.BreakerOp>, m: map<Key, B.BreakerRecord>, t: ContainerTick, settings: Settings)
    requires key.runtime.Docker? && SoundTick(key, t) && Get(m, key) == H.Run(key, h)
    ensures
      var kind := ArmKind(t, settings);
      (t.container.ExitedNonZero() && HandleTick(PassStores(m, map[]), t, settings).startCalled) <==>
      kind.Some? && T.StartsNow(key, h, H.ArmOp(RequestOf(t, kind.value)))
  {
    P.StartedIff(PassStores(m, map[]), t, settings);
    P.StaleSourcesEmpty(settings.stale, t.container.mountSources);
  }

  lemma InstantsPush(key: Key, h: seq<H.BreakerOp>, op: H.BreakerOp)
    ensures StartInstants(key, h + [op]) ==
            StartInstants(key, h) + if T.StartsNow(key, h, op) then [op.q.now] else []
  {
    assert Init(h + [op]) == h;
  }

  /** Only arms start anything. */
  lemma {:induction false} InstantsOfQuietTail(key: Key, h: seq<H.BreakerOp>, ops: seq<H.BreakerOp>)
    requires forall i :: 0 <= i < |ops| ==> !ops[i].ArmOp?
    ensures StartInstants(key, h + ops) == StartInstants(key, h)
  {
    if ops == [] {
      assert h + ops == h;
    } else {
      InstantsOfQuietTail(key, h, Init(ops));
      assert h + ops == (h + Init(ops)) + [ops[|ops| - 1]];
      InstantsPush(key, h + Init(ops), ops[|ops| - 1]);
    }
  }

  lemma InstantsOfArm(key: Key, h: seq<H.BreakerOp>, arm: H.BreakerOp, unheld: bool, stamps: bool, at: Time)
    ensures StartInstants(key, h + ([arm] + UnholdIf(unheld) + StampIf(stamps, at))) == StartInstants(key, h + [arm])
  {
    Regroup(h, [arm], UnholdIf(unheld), StampIf(stamps, at));
    InstantsOfQuietTail(key, h + [arm], UnholdIf(unheld));
    InstantsOfQuietTail(key, h + [arm] + UnholdIf(unheld), StampIf(stamps, at));
  }

  lemma InstantsOfVisit(key: Key, h: seq<H.BreakerOp>, m: map<Key, B.BreakerRecord>, t: ContainerTick, settings: Settings)
    requires key.runtime.Docker? && SoundTick(key, t) && Get(m, key) == H.Run(key, h)
    ensures
      var started := t.container.ExitedNonZero() && HandleTick(PassStores(m, map[]), t, settings).startCalled;
      StartInstants(key, h + OpsOfVisit(Get(m, key), t, settings)) ==
      StartInstants(key, h) + if started then [t.armedAt] else []
  {
    StartIsAnArm(key, h, m, t, settings);
    var kind := ArmKind(t, settings);
    if kind.None? {
      assert h + [] == h;
    } else {
      var arm := H.ArmOp(RequestOf(t, kind.value));
      var armed := ArmAndDispatch(Get(m, key), t, kind.value, settings.hasDispatcher);
      InstantsPush(key, h, arm);
      InstantsOfArm(key, h, arm, UnheldInGap(armed, t), Stamps(armed, t), t.stampedAt);
    }
  }

  /** One step adds the same starts to the history as to the calls. */
  lemma InstantsOfStep(key: Key, h: seq<H.BreakerOp>, m: map<Key, B.BreakerRecord>, step: WorldStep)
    requires key.runtime.Docker? && Get(m, key) == H.Run(key, h)
    requires step.Visit? && step.t.container.RecordKey() == key ==> SoundTick(key, step.t)
    ensures StartInstants(key, h + OpsOfStep(key, m, step)) ==
            StartInstants(key, h) + CrashStarts(key, CallsOfStep(m, step))
  {
    assert h + [] == h;
    match step
    case Visit(t, settings) =>
      CrashStartsOfCall(key, HandleTick(PassStores(m, map[]), t, settings), t);
      if t.container.RecordKey() == key {
        InstantsOfVisit(key, h, m, t, settings);
      }
    case Collect(_) =>
    case Operator(k) =>
      InstantsPush(key, h, H.UnholdOp);
  }

  lemma {:induction false} StartsAreInTheHistory(key: Key, steps: seq<WorldStep>)
    requires key.runtime.Docker? && Kept(key, steps)
    ensures StartInstants(key, OpsOn(key, steps)) == TentativeStarts(key, steps)
  {
    if steps != [] {
      StartsAreInTheHistory(key, Init(steps));
      RecordIsItsRun(key, Init(steps));
      InstantsOfStep(key, OpsOn(key, Init(steps)), World(Init(steps)), Last(steps));
    }
  }

  function Within(ts: seq<Time>, lo: Time, hi: Time): nat {
    if ts == [] then 0 else Within(Init(ts), lo, hi) + if lo <= Last(ts) <= hi then 1 else 0
  }

  lemma InstantsWithinStep(key: Key, h: seq<H.BreakerOp>, lo: Time, hi: Time)
    requires h != []
    ensures Within(StartInstants(key, h), lo, hi) ==
            Within(StartInstants(key, Init(h)), lo, hi)
            + if T.StartsNow(key, Init(h), Last(h)) && lo <= Last(h).q.now <= hi then 1 else 0
  {
    WithinPush(StartInstants(key, Init(h)), if Last(h).ArmOp? then Last(h).q.now else 0, lo, hi);
  }

  lemma {:induction false} InstantsAreStarts(key: Key, h: seq<H.BreakerOp>, from: nat, lo: Time, hi: Time)
    requires from <= |h|
    ensures Within(StartInstants(key, h), lo, hi) ==
            Within(StartInstants(key, h[..from]), lo, hi) + |T.StartsBetween(key, h, from, lo, hi)|
  {
    if from == |h| {
      assert T.StartsBetween(key, h, from, lo, hi) == {} && h[..from] == h;
    } else {
      InstantsAreStarts(key, Init(h), from, lo, hi);
      assert Init(h)[..from] == h[..from];
      T.StartsCount(key, h, from, lo, hi);
      InstantsWithinStep(key, h, lo, hi);
    }
  }

  lemma WithinPush(ts: seq<Time>, t: Time, lo: Time, hi: Time)
    ensures Within(ts + [t], lo, hi) == Within(ts, lo, hi) + if lo <= t <= hi then 1 else 0
    ensures Within(ts + [], lo, hi) == Within(ts, lo, hi)
  {
    assert Init(ts + [t]) == ts;
    assert ts + [] == ts;
  }

  lemma StepOpsAreForKey(key: Key, m: map<Key, B.BreakerRecord>, step: WorldStep)
    ensures H.AllFor(key, OpsOfStep(key, m, step))
  {
  }

  /** Every later instant is more than a minute after every earlier one. */
  predicate MinutesApart(ts: seq<Time>) {
    forall i, j :: 0 <= i < j < |ts| ==> ts[j] - ts[i] > 60
  }

  lemma {:induction false} WithinEarlier(ts: seq<Time>, lo: Time, hi: Time, all: Time)
    requires all <= hi && forall i :: 0 <= i < |ts| ==> ts[i] <= all
    ensures Within(ts, lo, hi) == Within(ts, lo, all)
  {
    if ts != [] {
      assert Last(ts) == ts[|ts| - 1];
      WithinEarlier(Init(ts), lo, hi, all);
    }
  }

  /** How many such instants fit between two given ones. */
  lemma {:induction false} ApartFit(ts: seq<Time>, lo: Time, hi: Time)
    requires MinutesApart(ts) && lo <= hi + 61
    ensures Within(ts, lo, hi) * 61 <= hi - lo + 61
  {
    if ts != [] {
      var t := ts[|ts| - 1];
      assert Last(ts) == t;
      if lo <= t <= hi {
        WithinEarlier(Init(ts), lo, hi, t - 61);
        ApartFit(Init(ts), lo, t - 61);
      } else {
        ApartFit(Init(ts), lo, hi);
      }
    }
  }

  lemma {:induction false} OpsAreForKey(key: Key, steps: seq<WorldStep>)
    requires Kept(key, steps)
    ensures H.AllFor(key, OpsOn(key, steps))
  {
    if steps != [] {
      OpsAreForKey(key, Init(steps));
      StepOpsAreForKey(key, World(Init(steps)), Last(steps));
    }
  }

  /** The operator does not unhold this container, neither between visits nor within one. */
  predicate NoUnholdOf(key: Key, steps: seq<WorldStep>) {
    forall i :: 0 <= i < |steps| ==> LeavesHoldAlone(key, steps[i])
  }

  predicate LeavesHoldAlone(key: Key, step: WorldStep) {
    match step
    case Visit(t, _) => t.container.RecordKey() == key ==> t.gap.NoUnhold?
    case Collect(_) => true
    case Operator(k) => k != key
  }

  predicate HasNoUnhold(ops: seq<H.BreakerOp>) {
    forall j :: 0 <= j < |ops| ==> !ops[j].UnholdOp?
  }

  lemma StepHasNoUnhold(key: Key, m: map<Key, B.BreakerRecord>, step: WorldStep)
    requires LeavesHoldAlone(key, step)
    ensures HasNoUnhold(OpsOfStep(key, m, step))
  {
  }

  lemma AppendsNoUnhold(early: seq<H.BreakerOp>, all: seq<H.BreakerOp>, more: seq<H.BreakerOp>)
    requires early <= all && HasNoUnhold(all[|early|..]) && HasNoUnhold(more)
    ensures early <= all + more && HasNoUnhold((all + more)[|early|..])
  {
    assert (all + more)[|early|..] == all[|early|..] + more;
  }

  /** Later steps only append to the history, and without an operator unhold they append none. */
  lemma {:induction false} OpsExtend(key: Key, before: seq<WorldStep>, after: seq<WorldStep>)
    requires NoUnholdOf(key, after)
    ensures
      var early, all := OpsOn(key, before), OpsOn(key, before + after);
      early <= all && HasNoUnhold(all[|early|..])
  {
    if after == [] {
      assert before + after == before;
    } else {
      OpsExtend(key, before, Init(after));
      assert Init(before + after) == before + Init(after);
      assert Last(before + after) == after[|after| - 1];
      var m := World(before + Init(after));
      StepHasNoUnhold(key, m, Last(after));
      AppendsNoUnhold(OpsOn(key, before), OpsOn(key, before + Init(after)), OpsOfStep(key, m, Last(after)));
    }
  }

  lemma {:induction false} KeptPrefix(key: Key, before: seq<WorldStep>, after: seq<WorldStep>)
    requires Kept(key, before + after)
    ensures Kept(key, before)
  {
    if after == [] {
      assert before + after == before;
    } else {
      assert Init(before + after) == before + Init(after);
      KeptPrefix(key, before, Init(after));
    }
  }

  lemma NothingClears(key: Key, early: seq<H.BreakerOp>, h: seq<H.BreakerOp>)
    requires early <= h && HasNoUnhold(h[|early|..])
    ensures T.NoClearFrom(key, h, |early|)
  {
    forall j: nat | |early| <= j < |h| ensures !T.Clears(key, h, j) {
      assert h[j] == h[|early|..][j - |early|];
    }
  }

  /** The rate bound as a count of instants over the part of a history after `early`. */
  lemma SpanIsBounded(key: Key, early: seq<H.BreakerOp>, h: seq<H.BreakerOp>, lo: Time)
    requires key.runtime.Docker? && H.AllFor(key, h) && H.ClockAdvances(h)
    requires early <= h && HasNoUnhold(h[|early|..])
    ensures
      var hi := lo + 300;
      Within(StartInstants(key, h), lo, hi) - Within(StartInstants(key, early), lo, hi) <= 4
  {
    NothingClears(key, early, h);
    InstantsAreStarts(key, h, |early|, lo, lo + 300);
    assert h[..|early|] == early;
    T.RestartRateBound(key, h, |early|, lo);
  }

  /**
   End to end: through any passes over any fleet, with a working store and a record that is never
   evicted, the stretch `after` holding no operator unhold, the reconciler starts a crashing docker
   container at most four times in any five minutes of that stretch.
   */
  lemma ReconcilerStartsAreBounded(key: Key, before: seq<WorldStep>, after: seq<WorldStep>, lo: Time)
    requires key.runtime.Docker? && Kept(key, before + after) && NoUnholdOf(key, after)
    requires H.ClockAdvances(OpsOn(key, before + after))
    ensures
      var hi := lo + 300;
      Within(TentativeStarts(key, before + after), lo, hi) - Within(TentativeStarts(key, before), lo, hi) <= 4
  {
    OpsAreForKey(key, before + after);
    KeptPrefix(key, before, after);
    OpsExtend(key, before, after);
    StartsAreInTheHistory(key, before + after);
    StartsAreInTheHistory(key, before);
    SpanIsBounded(key, OpsOn(key, before), OpsOn(key, before + after), lo);
  }

  lemma {:induction false} InstantHasIndex(key: Key, h: seq<H.BreakerOp>, k: nat) returns (i: nat)
    requires k < |StartInstants(key, h)|
    ensures i < |h| && T.StartsAt(key, h, i) && h[i].q.now == StartInstants(key, h)[k]
  {
    var n := |h| - 1;
    assert h[..n] == Init(h) && Last(h) == h[n];
    if k < |StartInstants(key, Init(h))| {
      i := InstantHasIndex(key, Init(h), k);
      T.InitPrefix(h, i);
    } else {
      i := n;
    }
  }

  /** Every initiating arm of the history saw the container exited non-zero. */
  predicate AllCrashed(h: seq<H.BreakerOp>) {
    forall i :: 0 <= i < |h| && h[i].ArmOp? ==> h[i].q.container.ExitedNonZero()
  }

  lemma DockerStepArmsCrashes(key: Key, m: map<Key, B.BreakerRecord>, step: WorldStep)
    requires key.runtime.Docker?
    ensures AllCrashed(OpsOfStep(key, m, step))
  {
  }

  lemma {:induction false} DockerArmsAreCrashes(key: Key, steps: seq<WorldStep>)
    requires key.runtime.Docker? && Kept(key, steps)
    ensures AllCrashed(OpsOn(key, steps))
  {
    if steps != [] {
      DockerArmsAreCrashes(key, Init(steps));
      DockerStepArmsCrashes(key, World(Init(steps)), Last(steps));
    }
  }

  lemma {:induction false} InstantsAreApart(key: Key, h: seq<H.BreakerOp>, i: nat, j: nat)
    requires key.runtime.Docker? && H.AllFor(key, h) && H.ClockAdvances(h) && AllCrashed(h)
    requires i < j < |StartInstants(key, h)|
    ensures StartInstants(key, h)[j] - StartInstants(key, h)[i] > 60
  {
    var n := |h| - 1;
    assert h[..n] == Init(h) && Last(h) == h[n];
    T.InitFacts(key, h);
    if j < |StartInstants(key, Init(h))| {
      InstantsAreApart(key, Init(h), i, j);
    } else {
      var a := InstantHasIndex(key, Init(h), i);
      T.InitPrefix(h, a);
      T.StartsAMinuteApart(key, h, a, n);
    }
  }

  /** And any two of those starts, unholds or not, are more than a minute apart. */
  lemma ReconcilerStartsAMinuteApart(key: Key, steps: seq<WorldStep>, i: nat, j: nat)
    requires key.runtime.Docker? && Kept(key, steps) && H.ClockAdvances(OpsOn(key, steps))
    requires i < j < |TentativeStarts(key, steps)|
    ensures TentativeStarts(key, steps)[j] - TentativeStarts(key, steps)[i] > 60
  {
    OpsAreForKey(key, steps);
    DockerArmsAreCrashes(key, steps);
    StartsAreInTheHistory(key, steps);
    InstantsAreApart(key, OpsOn(key, steps), i, j);
  }

  function Visits(ticks: seq<ContainerTick>, settings: Settings): seq<WorldStep> {
    if ticks == [] then [] else Visits(Init(ticks), settings) + [Visit(Last(ticks), settings)]
  }

  /** Whether a pass ends with a collection of the breaker store. */
  predicate CollectsBreaker(listings: seq<Listing>, settings: Settings) {
    !settings.dryRun && AllListed(listings) && settings.breakerCollects
  }

  function CollectIf(collects: bool, live: set<Key>): seq<WorldStep> {
    if collects then [Collect(live)] else []
  }

  /** The steps of one whole pass. */
  function StepsOfPass(listings: seq<Listing>, settings: Settings): seq<WorldStep> {
    Visits(TicksOf(listings), settings) + CollectIf(CollectsBreaker(listings, settings), LiveKeys(TicksOf(listings)))
  }

  lemma WorldPush(before: seq<WorldStep>, step: WorldStep)
    ensures World(before + [step]) == WorldNext(World(before), step)
  {
    assert Init(before + [step]) == before;
  }

  lemma TentativePush(key: Key, before: seq<WorldStep>, step: WorldStep)
    ensures TentativeStarts(key, before + [step]) ==
            TentativeStarts(key, before) + CrashStarts(key, CallsOfStep(World(before), step))
  {
    assert Init(before + [step]) == before;
  }

  lemma VisitsPush(before: seq<WorldStep>, ticks: seq<ContainerTick>, settings: Settings)
    requires ticks != []
    ensures before + Visits(ticks, settings) == (before + Visits(Init(ticks), settings)) + [Visit(Last(ticks), settings)]
  {
  }

  lemma {:induction false} VisitsAreTheWalk(before: seq<WorldStep>, ticks: seq<ContainerTick>, settings: Settings, s: PassStores)
    requires s.breaker == World(before)
    ensures World(before + Visits(ticks, settings)) == StoresAfter(s, ticks, settings).breaker
  {
    if ticks == [] {
      assert before + Visits(ticks, settings) == before;
    } else {
      VisitsAreTheWalk(before, Init(ticks), settings, s);
      VisitsPush(before, ticks, settings);
      WorldPush(before + Visits(Init(ticks), settings), Visit(Last(ticks), settings));
      BreakerIgnoresWedge(StoresAfter(s, Init(ticks), settings), map[], Last(ticks), settings);
    }
  }

  /** A visit makes the call of the walk. */
  lemma VisitMakesTheCall(key: Key, before: seq<WorldStep>, s: PassStores, t: ContainerTick, settings: Settings)
    requires s.breaker == World(before)
    ensures TentativeStarts(key, before + [Visit(t, settings)]) ==
            TentativeStarts(key, before) + CrashStarts(key, CallOf(HandleTick(s, t, settings), t))
  {
    TentativePush(key, before, Visit(t, settings));
    BreakerIgnoresWedge(s, map[], t, settings);
    assert s.(wedge := map[]) == PassStores(World(before), map[]);
  }

  lemma CrashStartsOfWalk(key: Key, s: PassStores, ticks: seq<ContainerTick>, settings: Settings)
    requires ticks != []
    ensures
      var o := HandleTick(StoresAfter(s, Init(ticks), settings), Last(ticks), settings);
      CrashStarts(key, StartCalls(s, ticks, settings)) ==
      CrashStarts(key, StartCalls(s, Init(ticks), settings)) + CrashStarts(key, CallOf(o, Last(ticks)))
  {
    var o := HandleTick(StoresAfter(s, Init(ticks), settings), Last(ticks), settings);
    CrashStartsConcat(key, StartCalls(s, Init(ticks), settings), CallOf(o, Last(ticks)));
  }

  lemma AppendBoth<X>(base: seq<X>, x: seq<X>, y: seq<X>, more: seq<X>)
    requires x == base + y
    ensures x + more == base + (y + more)
  {
  }

  lemma VisitsMakeOneMoreCall(
    key: Key, before: seq<WorldStep>, ticks: seq<ContainerTick>, settings: Settings, s: PassStores)
    requires s.breaker == World(before) && ticks != []
    requires TentativeStarts(key, before + Visits(Init(ticks), settings)) ==
             TentativeStarts(key, before) + CrashStarts(key, StartCalls(s, Init(ticks), settings))
    ensures TentativeStarts(key, before + Visits(ticks, settings)) ==
            TentativeStarts(key, before) + CrashStarts(key, StartCalls(s, ticks, settings))
  {
    var was, t := Init(ticks), Last(ticks);
    var fewer, s' := before + Visits(was, settings), StoresAfter(s, was, settings);
    VisitsAreTheWalk(before, was, settings, s);
    VisitMakesTheCall(key, fewer, s', t, settings);
    VisitsPush(before, ticks, settings);
    CrashStartsOfWalk(key, s, ticks, settings);
    AppendBoth(TentativeStarts(key, before), TentativeStarts(key, fewer), CrashStarts(key, StartCalls(s, was, settings)),
               CrashStarts(key, CallOf(HandleTick(s', t, settings), t)));
  }

  lemma {:induction false} VisitsMakeTheCalls(
    key: Key, before: seq<WorldStep>, ticks: seq<ContainerTick>, settings: Settings, s: PassStores)
    requires s.breaker == World(before)
    ensures TentativeStarts(key, before + Visits(ticks, settings)) ==
            TentativeStarts(key, before) + CrashStarts(key, StartCalls(s, ticks, settings))
  {
    if ticks == [] {
      assert before + Visits(ticks, settings) == before;
    } else {
      VisitsMakeTheCalls(key, before, Init(ticks), settings, s);
      VisitsMakeOneMoreCall(key, before, ticks, settings, s);
    }
  }

  /** A collection changes the store and starts nothing. */
  lemma CollectionInTheWorld(key: Key, walked: seq<WorldStep>, collects: bool, live: set<Key>)
    ensures World(walked + CollectIf(collects, live)) ==
            if collects then Retained(World(walked), live, B.Actionable) else World(walked)
    ensures TentativeStarts(key, walked + CollectIf(collects, live)) == TentativeStarts(key, walked)
  {
    if collects {
      WorldPush(walked, Collect(live));
      TentativePush(key, walked, Collect(live));
    } else {
      assert walked + [] == walked;
    }
  }

  lemma StepsOfPassSplit(before: seq<WorldStep>, listings: seq<Listing>, settings: Settings)
    ensures before + StepsOfPass(listings, settings) ==
            (before + Visits(TicksOf(listings), settings))
            + CollectIf(CollectsBreaker(listings, settings), LiveKeys(TicksOf(listings)))
  {
  }

  lemma FinalBreaker(s: PassStores, listings: seq<Listing>, settings: Settings)
    ensures
      var walked := StoresAfter(s, TicksOf(listings), settings).breaker;
      FinalStores(s, listings, settings).breaker ==
      if CollectsBreaker(listings, settings) then Retained(walked, LiveKeys(TicksOf(listings)), B.Actionable) else walked
  {
  }

  /**
   A whole pass of the reconciler is its visits followed by its collection: the same breaker store and,
   call for call, the same starts of a crashed container.
   */
  lemma PassInTheWorld(key: Key, before: seq<WorldStep>, listings: seq<Listing>, settings: Settings, s: PassStores)
    requires s.breaker == World(before)
    ensures World(before + StepsOfPass(listings, settings)) == FinalStores(s, listings, settings).breaker
    ensures TentativeStarts(key, before + StepsOfPass(listings, settings)) ==
            TentativeStarts(key, before) + CrashStarts(key, StartCalls(s, TicksOf(listings), settings))
  {
    var ticks := TicksOf(listings);
    var walked := before + Visits(ticks, settings);
    VisitsAreTheWalk(before, ticks, settings, s);
    VisitsMakeTheCalls(key, before, ticks, settings, s);
    CollectionInTheWorld(key, walked, CollectsBreaker(listings, settings), LiveKeys(ticks));
    StepsOfPassSplit(before, listings, settings);
    FinalBreaker(s, listings, settings);
  }
}
