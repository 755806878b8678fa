/**
 The breaker against its history. A run is every operation one record has seen. An observer with
 unlimited memory keeps the whole log of starts and never prunes it; what that observer would believe
 is recomputed from the run alone, without any record. The theorems say that the incremental record,
 which prunes its window on every touch, agrees with the observer.
 */
module BreakerHistory {
  import opened Prelude
  import opened ContainerRuntime
  import opened Breaker

  datatype BreakerOp = ArmOp(q: ArmRequest) | NotifyOp(when: Time) | UnholdOp

  // ----- The incremental record -----------------------------------------------------------------

  function Step(key: Key, s: Option<BreakerRecord>, op: BreakerOp): Option<BreakerRecord> {
    match op
    case ArmOp(q) => Some(Armed(OrFresh(s, key), q).0)
    case NotifyOp(when) => if s.Some? then Some(s.value.(notifiedAt := Some(when))) else None
    case UnholdOp => if s.Some? && s.value.status.Held? then Some(Cleared(s.value)) else s
  }

  function Run(key: Key, h: seq<BreakerOp>): Option<BreakerRecord> {
    if h == [] then None else Step(key, Run(key, Init(h)), Last(h))
  }

  /** The decision `arm` returns for `q` after the run `h`. */
  function Decide(key: Key, h: seq<BreakerOp>, q: ArmRequest): BreakerDecision {
    Armed(OrFresh(Run(key, h), key), q).1
  }

  // ----- The full history -----------------------------------------------------------------------

  predicate AllFor(key: Key, h: seq<BreakerOp>) {
    forall i :: 0 <= i < |h| && h[i].ArmOp? ==> h[i].q.container.RecordKey() == key
  }

  /** The clock never goes backwards from one arm to a later one. */
  predicate ClockAdvances(h: seq<BreakerOp>) {
    forall i, j :: 0 <= i < j < |h| && h[i].ArmOp? && h[j].ArmOp? ==> h[i].q.now <= h[j].q.now
  }

  datatype Belief = Belief(
    log: seq<Time>,                    // every start since the last successful unhold
    holding: Option<HoldReason>,       // why the container is held, if it is
    since: Option<Time>,               // when the arm that tripped was made
    lastStart: Option<Time>,           // the latest start orca itself was allowed to make
    seen: Option<ContainerState>,      // the state the previous arm saw, held or not
    accounted: Option<nat>,            // docker's restart count as last turned into starts
    foldedAt: Option<Time>             // the latest arm made outside a hold
  )

  const NOTHING_SEEN := Belief([], None, None, None, None, None, None)

  /** Starts the fold discovers at `q`, each stamped with the arm's own time. */
  function Discovered(b: Belief, q: ArmRequest): seq<Time> {
    match q.container.runtime
    case Docker => Repeat(q.now, DockerDelta(b.accounted, q.container.restartCount))
    case Lxc => if StoppedToRunning(PreviousState(q, b.seen), q.container.state) then [q.now] else []
    case Podman | Nspawn => []
  }

  /** The starts of the last five minutes at `q`, counted from the full log. */
  function Window(b: Belief, q: ArmRequest): seq<Time> {
    From(b.log + Discovered(b, q), q.now - OBSERVATION_WINDOW)
  }

  /** The trip rules of the policy, on a window of starts and the last orca start. */
  function TripOn(window: seq<Time>, lastStart: Option<Time>, q: ArmRequest): Option<HoldReason> {
    match q.container.runtime
    case Docker =>
      if |window| > DOCKER_RESTART_THRESHOLD then Some(RestartStormIn5Min(AsU32(|window|), Earliest(window)))
      else FastReexit(lastStart, q.container, q.now)
    case Lxc =>
      if |window| > LXC_TRANSITION_THRESHOLD then Some(LxcFlappingIn5Min(AsU32(|window|), Earliest(window)))
      else JournalTrip(q.observation.journalTail, q.now)
    case Podman | Nspawn => None
  }

  function Trip(b: Belief, q: ArmRequest): Option<HoldReason> {
    TripOn(Window(b, q), b.lastStart, q)
  }

  /** An arm after which the reconciler goes on to call `start`. */
  predicate AllowsStart(b: Belief, q: ArmRequest) {
    q.initiatingStart && b.holding.None? && Trip(b, q).None?
  }

  /** Docker's accounting never moves back on the arm that trips. */
  function Accounted(b: Belief, q: ArmRequest): Option<nat> {
    if b.accounted.Some? && q.container.restartCount < b.accounted.value && Trip(b, q).Some? then b.accounted
    else Some(q.container.restartCount)
  }

  /** What an arm outside a hold teaches. */
  function LearnArm(b: Belief, q: ArmRequest): Belief {
    Belief(
      b.log + Discovered(b, q) + (if AllowsStart(b, q) && !q.container.runtime.Lxc? then [q.now] else []),
      Trip(b, q),
      if Trip(b, q).Some? then Some(q.now) else None,
      if AllowsStart(b, q) then Some(q.now) else b.lastStart,
      Some(q.container.state),
      Accounted(b, q),
      Some(q.now))
  }

  function Learn(b: Belief, op: BreakerOp): Belief {
    match op
    case NotifyOp(_) => b
    case UnholdOp => if b.holding.Some? then b.(log := [], holding := None, since := None) else b
    case ArmOp(q) => if b.holding.Some? then b.(seen := Some(q.container.state)) else LearnArm(b, q)
  }

  function Believe(h: seq<BreakerOp>): Belief {
    if h == [] then NOTHING_SEEN else Learn(Believe(Init(h)), Last(h))
  }

  // ----- The record agrees with the history -----------------------------------------------------

  ghost predicate Agrees(key: Key, b: Belief, r: BreakerRecord) {
    && r.key == key
    && r.status == (if b.holding.Some? then Held else Watching)
    && r.heldReason == b.holding
    && r.heldSince == b.since && (b.since.Some? <==> b.holding.Some?)
    && r.lastOrcaStartAt == b.lastStart
    && r.lastObservedState == b.seen
    && (key.runtime.Docker? ==> r.restartCountSnapshot == b.accounted)
    && b.foldedAt.Some?
    && r.recentStarts == From(b.log, b.foldedAt.value - OBSERVATION_WINDOW)
    && (b.holding.None? ==> SmallWindow(key, r.recentStarts))
  }

  /** Outside a hold the window is short, so `as u32` never truncates it. */
  predicate SmallWindow(key: Key, window: seq<Time>) {
    (key.runtime.Docker? ==> |window| <= 4) && (key.runtime.Lxc? ==> |window| <= 3)
  }

  /** Before its first arm there is no record and nothing has been seen. */
  ghost predicate AgreesSoFar(key: Key, b: Belief, s: Option<BreakerRecord>) {
    match s
    case Some(r) => Agrees(key, b, r)
    case None => b == NOTHING_SEEN
  }

  /** A record between fold and classification: its window is the window of the full log. */
  ghost predicate FoldedAgrees(key: Key, b: Belief, folded: BreakerRecord, q: ArmRequest) {
    && folded.key == key && folded.status.Watching? && folded.heldReason.None? && folded.heldSince.None?
    && folded.recentStarts == Window(b, q)
    && folded.lastOrcaStartAt == b.lastStart
    && (key.runtime.Docker? ==>
          folded.restartCountSnapshot ==
          if b.accounted.Some? && q.container.restartCount < b.accounted.value then b.accounted
          else Some(q.container.restartCount))
    && (key.runtime.Lxc? ==> |folded.recentStarts| <= 4)
  }

  /** What the record kept, pruned at `q`, with what the fold discovers, is the window of the full log. */
  lemma PrunedWindow(key: Key, b: Belief, s: Option<BreakerRecord>, q: ArmRequest)
    requires AgreesSoFar(key, b, s) && (b.foldedAt.Some? ==> b.foldedAt.value <= q.now)
    ensures From(OrFresh(s, key).recentStarts, q.now - OBSERVATION_WINDOW) + Discovered(b, q) == Window(b, q)
  {
    var cut := q.now - OBSERVATION_WINDOW;
    var early := if b.foldedAt.Some? then b.foldedAt.value - OBSERVATION_WINDOW else cut;
    assert OrFresh(s, key).recentStarts == From(b.log, early);
    FromAppend(b.log, Discovered(b, q), early, cut);
  }

  lemma FoldedWindow(key: Key, b: Belief, s: Option<BreakerRecord>, q: ArmRequest)
    requires AgreesSoFar(key, b, s) && b.holding.None? && q.container.RecordKey() == key
    requires b.foldedAt.Some? ==> b.foldedAt.value <= q.now
    ensures FoldedAgrees(key, b, Fold(Pruned(OrFresh(s, key), q.now), q), q)
  {
    var kept := From(OrFresh(s, key).recentStarts, q.now - OBSERVATION_WINDOW);
    PrunedWindow(key, b, s, q);
    assert kept + [] == kept;
  }

  lemma ClassifyIsTripOn(r: BreakerRecord, q: ArmRequest)
    requires q.container.runtime.Lxc? ==> |r.recentStarts| <= 4
    ensures Classify(r, q) == TripOn(r.recentStarts, r.lastOrcaStartAt, q)
  {
  }

  /** The classifier on the folded record is the trip condition on the history. */
  lemma ClassifyIsTrip(key: Key, b: Belief, s: Option<BreakerRecord>, q: ArmRequest)
    requires AgreesSoFar(key, b, s) && b.holding.None? && q.container.RecordKey() == key
    requires b.foldedAt.Some? ==> b.foldedAt.value <= q.now
    ensures Classify(Fold(Pruned(OrFresh(s, key), q.now), q), q) == Trip(b, q)
  {
    FoldedWindow(key, b, s, q);
    ClassifyIsTripOn(Fold(Pruned(OrFresh(s, key), q.now), q), q);
  }

  lemma WindowAfterArm(b: Belief, q: ArmRequest)
    ensures From(LearnArm(b, q).log, q.now - OBSERVATION_WINDOW) ==
            Window(b, q) + if AllowsStart(b, q) && !q.container.runtime.Lxc? then [q.now] else []
  {
    var log := b.log + Discovered(b, q);
    if AllowsStart(b, q) && !q.container.runtime.Lxc? {
      FromPush(log, q.now, q.now - OBSERVATION_WINDOW);
    } else {
      assert log + [] == log;
    }
  }

  /** A window that trips nothing is short. */
  lemma QuietWindow(window: seq<Time>, lastStart: Option<Time>, q: ArmRequest)
    requires TripOn(window, lastStart, q).None?
    ensures q.container.runtime.Docker? || q.container.runtime.Lxc? ==> |window| <= 3
  {
  }

  lemma TrippedWindow(b: Belief, folded: BreakerRecord, q: ArmRequest)
    requires folded.recentStarts == Window(b, q) && Trip(b, q).Some?
    ensures folded.recentStarts == From(LearnArm(b, q).log, q.now - OBSERVATION_WINDOW)
  {
    WindowAfterArm(b, q);
  }

  lemma PassedWindow(b: Belief, folded: BreakerRecord, q: ArmRequest)
    requires folded.recentStarts == Window(b, q) && b.holding.None? && Trip(b, q).None?
    ensures Passed(folded, q).recentStarts == From(LearnArm(b, q).log, q.now - OBSERVATION_WINDOW)
    ensures SmallWindow(q.container.RecordKey(), Passed(folded, q).recentStarts)
  {
    WindowAfterArm(b, q);
    QuietWindow(Window(b, q), b.lastStart, q);
  }

  /** What an arm that trips teaches, part by part. */
  lemma LearnTrip(key: Key, b: Belief, folded: BreakerRecord, q: ArmRequest)
    requires FoldedAgrees(key, b, folded, q) && Trip(b, q).Some?
    ensures
      var b' := LearnArm(b, q);
      && b'.holding == Trip(b, q) && b'.since == Some(q.now) && b'.foldedAt == Some(q.now)
      && b'.lastStart == folded.lastOrcaStartAt && b'.seen == Some(q.container.state)
      && (key.runtime.Docker? ==> b'.accounted == folded.restartCountSnapshot)
  {
  }

  lemma TrippedAgrees(key: Key, b: Belief, folded: BreakerRecord, q: ArmRequest, reason: HoldReason)
    requires b.holding == Some(reason) && b.since == Some(q.now) && b.foldedAt == Some(q.now)
    requires b.lastStart == folded.lastOrcaStartAt && b.seen == Some(q.container.state) && folded.key == key
    requires key.runtime.Docker? ==> b.accounted == folded.restartCountSnapshot
    requires folded.recentStarts == From(b.log, q.now - OBSERVATION_WINDOW)
    ensures Agrees(key, b, Tripped(folded, q, reason))
  {
  }

  lemma AgreesAfterTrip(key: Key, b: Belief, folded: BreakerRecord, q: ArmRequest)
    requires FoldedAgrees(key, b, folded, q) && Trip(b, q).Some?
    ensures Agrees(key, LearnArm(b, q), Tripped(folded, q, Trip(b, q).value))
  {
    LearnTrip(key, b, folded, q);
    TrippedWindow(b, folded, q);
    TrippedAgrees(key, LearnArm(b, q), folded, q, Trip(b, q).value);
  }

  lemma AgreesAfterPass(key: Key, b: Belief, folded: BreakerRecord, q: ArmRequest)
    requires FoldedAgrees(key, b, folded, q) && b.holding.None? && Trip(b, q).None?
    requires q.container.RecordKey() == key
    ensures Agrees(key, LearnArm(b, q), Passed(folded, q))
  {
    PassedWindow(b, folded, q);
  }

  lemma AgreesAfterArm(key: Key, b: Belief, s: Option<BreakerRecord>, q: ArmRequest)
    requires AgreesSoFar(key, b, s) && q.container.RecordKey() == key
    requires b.foldedAt.Some? ==> b.foldedAt.value <= q.now
    ensures Agrees(key, Learn(b, ArmOp(q)), Armed(OrFresh(s, key), q).0)
  {
    if b.holding.None? {
      var folded := Fold(Pruned(OrFresh(s, key), q.now), q);
      FoldedWindow(key, b, s, q);
      ClassifyIsTrip(key, b, s, q);
      if Trip(b, q).Some? {
        AgreesAfterTrip(key, b, folded, q);
      } else {
        AgreesAfterPass(key, b, folded, q);
      }
    }
  }

  lemma {:induction false} FoldedInThePast(h: seq<BreakerOp>, now: Time)
    requires forall i :: 0 <= i < |h| && h[i].ArmOp? ==> h[i].q.now <= now
    ensures Believe(h).foldedAt.Some? ==> Believe(h).foldedAt.value <= now
  {
    if h != [] {
      FoldedInThePast(Init(h), now);
      assert Last(h) == h[|h| - 1];
    }
  }

  lemma AgreesAfterStep(key: Key, b: Belief, s: Option<BreakerRecord>, op: BreakerOp)
    requires AgreesSoFar(key, b, s)
    requires op.ArmOp? ==> op.q.container.RecordKey() == key && (b.foldedAt.Some? ==> b.foldedAt.value <= op.q.now)
    ensures AgreesSoFar(key, Learn(b, op), Step(key, s, op))
  {
    if op.ArmOp? {
      AgreesAfterArm(key, b, s, op.q);
    }
  }

  /**
   Main refinement: whatever operations a record has seen, its hold, window, anchor and snapshot are
   those of the full history.
   */
  lemma {:induction false} RecordAgreesWithHistory(key: Key, h: seq<BreakerOp>)
    requires AllFor(key, h) && ClockAdvances(h)
    ensures AgreesSoFar(key, Believe(h), Run(key, h))
  {
    if h != [] {
      RecordAgreesWithHistory(key, Init(h));
      assert Last(h) == h[|h| - 1];
      if Last(h).ArmOp? {
        FoldedInThePast(Init(h), Last(h).q.now);
      }
      AgreesAfterStep(key, Believe(Init(h)), Run(key, Init(h)), Last(h));
    }
  }
}
