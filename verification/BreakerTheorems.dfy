/** What follows for an operator: exact holds, the restart-rate bound, exact counting, sticky holds. */
module BreakerTheorems {
  import opened Prelude
  import opened ContainerRuntime
  import opened Breaker
  import opened BreakerHistory

  // ----- Holding is exactly: some arm since the last unhold met the trip condition ---------------

  /** `h[j]` is an unhold that found the record `Held`. */
  ghost predicate Clears(key: Key, h: seq<BreakerOp>, j: nat)
    requires j < |h|
  {
    h[j].UnholdOp? && Run(key, h[..j]).Some? && Run(key, h[..j]).value.status.Held?
  }

  /** `h[j]` is an arm that meets the trip condition computed from everything before it. */
  ghost predicate Trips(h: seq<BreakerOp>, j: nat)
    requires j < |h|
  {
    h[j].ArmOp? && Trip(Believe(h[..j]), h[j].q).Some?
  }

  ghost predicate NoClearFrom(key: Key, h: seq<BreakerOp>, from: nat) {
    forall j: nat :: from <= j < |h| ==> !Clears(key, h, j)
  }

  lemma PrefixFacts(key: Key, h: seq<BreakerOp>, j: nat)
    requires j <= |h| && AllFor(key, h) && ClockAdvances(h)
    ensures AllFor(key, h[..j]) && ClockAdvances(h[..j])
    ensures AgreesSoFar(key, Believe(h[..j]), Run(key, h[..j]))
  {
    RecordAgreesWithHistory(key, h[..j]);
  }

  lemma InitPrefix<T>(h: seq<T>, j: nat)
    requires j < |h|
    ensures Init(h)[..j] == h[..j] && h[..|h| - 1] == Init(h)
  {
  }

  lemma InitFacts(key: Key, h: seq<BreakerOp>)
    requires h != [] && AllFor(key, h) && ClockAdvances(h)
    ensures AllFor(key, Init(h)) && ClockAdvances(Init(h)) && h[..|h| - 1] == Init(h)
    ensures AgreesSoFar(key, Believe(Init(h)), Run(key, Init(h)))
  {
    RecordAgreesWithHistory(key, Init(h));
  }

  lemma HoldingStep(b: Belief, op: BreakerOp)
    ensures Learn(b, op).holding ==
            if op.UnholdOp? then None
            else if op.NotifyOp? || b.holding.Some? then b.holding
            else Trip(b, op.q)
  {
  }

  /** One direction, by induction: a trip stays in force until an unhold clears it. */
  lemma {:induction false} TripIsRemembered(key: Key, h: seq<BreakerOp>, from: nat, j: nat)
    requires AllFor(key, h) && ClockAdvances(h) && from <= j < |h|
    requires NoClearFrom(key, h, from) && Trips(h, j)
    ensures Believe(h).holding.Some?
  {
    InitPrefix(h, j);
    if j < |h| - 1 {
      NoClearInit(key, h, from);
      InitFacts(key, h);
      TripIsRemembered(key, Init(h), from, j);
      assert !Clears(key, h, |h| - 1);
      HoldingStep(Believe(Init(h)), Last(h));
    }
  }

  /** Something there now that was not there at `from` appeared at some step and has not changed since. */
  lemma {:induction false} Appeared<T, R>(f: seq<T> -> Option<R>, h: seq<T>, from: nat, n: nat) returns (j: nat)
    requires from < n <= |h| && f(h[..from]).None? && f(h[..n]).Some?
    requires forall k: nat :: k < |h| && f(h[..k]).Some? && f(h[..k + 1]).Some? ==> f(h[..k]) == f(h[..k + 1])
    ensures from <= j < n && f(h[..j]).None? && f(h[..j + 1]) == f(h[..n])
  {
    j := n - 1;
    if f(h[..j]).Some? {
      assert f(h[..j]) == f(h[..j + 1]);
      j := Appeared(f, h, from, n - 1);
    }
  }

  lemma HoldingAt(h: seq<BreakerOp>, j: nat)
    requires j < |h|
    ensures Believe(h[..j + 1]).holding ==
            if h[j].UnholdOp? then None
            else if h[j].NotifyOp? || Believe(h[..j]).holding.Some? then Believe(h[..j]).holding
            else Trip(Believe(h[..j]), h[j].q)
  {
    assert Init(h[..j + 1]) == h[..j];
    HoldingStep(Believe(h[..j]), h[j]);
  }

  /** The other: nothing is held without an arm that tripped, and for that arm's reason. */
  lemma HoldHasATrip(h: seq<BreakerOp>, from: nat) returns (j: nat)
    requires from < |h| && Believe(h[..from]).holding.None? && Believe(h).holding.Some?
    ensures from <= j < |h| && Trips(h, j)
    ensures Believe(h).holding == Trip(Believe(h[..j]), h[j].q)
  {
    var holding := (g: seq<BreakerOp>) => Believe(g).holding;
    assert h[..|h|] == h;
    forall k: nat | k < |h| && holding(h[..k]).Some? && holding(h[..k + 1]).Some?
      ensures holding(h[..k]) == holding(h[..k + 1])
    {
      HoldingAt(h, k);
    }
    j := Appeared(holding, h, from, |h|);
    HoldingAt(h, j);
  }

  /**
   After any run, `arm` answers Hold exactly when some arm since the last successful unhold, this one
   included, met the trip condition on the full history. `from` is any point at which the container
   was not held, for instance just after that unhold.
   */
  lemma HoldIffSomeTripSince(key: Key, h: seq<BreakerOp>, from: nat)
    requires AllFor(key, h) && ClockAdvances(h) && from <= |h|
    requires Believe(h[..from]).holding.None? && NoClearFrom(key, h, from)
    requires h != [] && Last(h).ArmOp? && from < |h|
    ensures Decide(key, Init(h), Last(h).q).Hold? <==> exists j: nat :: from <= j < |h| && Trips(h, j)
  {
    PrefixFacts(key, h, |h|);
    assert h[..|h|] == h;
    DecisionIsHolding(key, h);
    if Believe(h).holding.Some? {
      var j := HoldHasATrip(h, from);
    }
    if exists j: nat :: from <= j < |h| && Trips(h, j) {
      var j: nat :| from <= j < |h| && Trips(h, j);
      TripIsRemembered(key, h, from, j);
    }
  }

  /** The decision of the last arm and the window it leaves, read off the history. */
  lemma DecisionIsHolding(key: Key, h: seq<BreakerOp>)
    requires AllFor(key, h) && ClockAdvances(h) && h != [] && Last(h).ArmOp?
    ensures
      var q := Last(h).q;
      var d := Decide(key, Init(h), q);
      && (d.Hold? <==> Believe(h).holding.Some?)
      && (d.Hold? ==> d.reason == Believe(h).holding.value)
      && (Believe(Init(h)).holding.None? ==>
            Run(key, h).value.recentStarts == From(Believe(h).log, q.now - OBSERVATION_WINDOW))
  {
    var n := |h| - 1;
    PrefixFacts(key, h, n);
    PrefixFacts(key, h, |h|);
    assert h[..|h|] == h;
    assert Last(h) == h[n];
    FoldedInThePast(Init(h), Last(h).q.now);
    if Believe(Init(h)).holding.None? {
      ClassifyIsTrip(key, Believe(Init(h)), Run(key, Init(h)), Last(h).q);
    }
  }

  /** The numbers in a reason: how many starts the window holds and when the first of them was. */
  predicate CountsWindow(reason: HoldReason, window: seq<Time>) {
    match reason
    case RestartStormIn5Min(count, start) => count == |window| && start in window && forall t :: t in window ==> start <= t
    case LxcFlappingIn5Min(count, start) => count == |window| && start in window && forall t :: t in window ==> start <= t
    case FastReexitAfterOrcaStart(_, _) => true
    case LxcJournalFailuresIn5Min(_, _) => true
  }

  lemma TripCountsWindow(window: seq<Time>, lastStart: Option<Time>, q: ArmRequest)
    requires TripOn(window, lastStart, q).Some? && |window| < 0x1_0000_0000
    ensures CountsWindow(TripOn(window, lastStart, q).value, window)
  {
  }

  lemma WindowIsShort(key: Key, b: Belief, s: Option<BreakerRecord>, q: ArmRequest)
    requires AgreesSoFar(key, b, s) && b.holding.None? && q.container.RecordKey() == key
    requires b.foldedAt.Some? ==> b.foldedAt.value <= q.now
    ensures key.runtime.Docker? || key.runtime.Lxc? ==> |Window(b, q)| <= 4 + FOLD_CLAMP
  {
    FoldedWindow(key, b, s, q);
    var pruned := Pruned(OrFresh(s, key), q.now);
    assert key.runtime.Docker? || key.runtime.Lxc? ==> |pruned.recentStarts| <= 4;
  }

  /** Stored counts are true counts: the `as u32` in a hold reason never truncates. */
  lemma HoldCountsAreExact(key: Key, h: seq<BreakerOp>)
    requires AllFor(key, h) && ClockAdvances(h) && h != [] && Last(h).ArmOp?
    requires Believe(Init(h)).holding.None? && Believe(h).holding.Some?
    ensures CountsWindow(Believe(h).holding.value, Window(Believe(Init(h)), Last(h).q))
  {
    var b, q := Believe(Init(h)), Last(h).q;
    InitFacts(key, h);
    assert q == h[|h| - 1].q;
    FoldedInThePast(Init(h), q.now);
    WindowIsShort(key, b, Run(key, Init(h)), q);
    TripCountsWindow(Window(b, q), b.lastStart, q);
  }

  // ----- Restart rate ---------------------------------------------------------------------------

  /** An initiating arm the breaker lets through after `g`: the reconciler calls `start`. */
  predicate StartsNow(key: Key, g: seq<BreakerOp>, op: BreakerOp) {
    op.ArmOp? && op.q.initiatingStart && Decide(key, g, op.q).Proceed?
  }

  predicate StartsAt(key: Key, h: seq<BreakerOp>, j: nat)
    requires j < |h|
  {
    StartsNow(key, h[..j], h[j])
  }

  function StartsWithin(key: Key, lo: Time, hi: Time): (seq<BreakerOp>, BreakerOp) -> bool {
    (g: seq<BreakerOp>, op: BreakerOp) => StartsNow(key, g, op) && lo <= op.q.now <= hi
  }

  /** The starts made from index `from` on, at an instant between `lo` and `hi`. */
  ghost function StartsBetween(key: Key, h: seq<BreakerOp>, from: nat, lo: Time, hi: Time): set<nat> {
    IndicesWhere(StartsWithin(key, lo, hi), h, from)
  }

  lemma StartIsAllowed(key: Key, h: seq<BreakerOp>, j: nat)
    requires AllFor(key, h) && ClockAdvances(h) && j < |h|
    ensures StartsAt(key, h, j) <==> h[j].ArmOp? && AllowsStart(Believe(h[..j]), h[j].q)
  {
    if h[j].ArmOp? {
      var g := h[..j + 1];
      assert Init(g) == h[..j] && Last(g) == h[j];
      PrefixFacts(key, h, j + 1);
      DecisionIsHolding(key, g);
    }
  }

  lemma StartGrowsTheLog(key: Key, h: seq<BreakerOp>, lo: Time, hi: Time)
    requires !key.runtime.Lxc? && AllFor(key, h) && ClockAdvances(h) && h != [] && !Clears(key, h, |h| - 1)
    ensures |From(Believe(h).log, lo)| >=
            |From(Believe(Init(h)).log, lo)| + if StartsNow(key, Init(h), Last(h)) && lo <= Last(h).q.now <= hi then 1 else 0
  {
    var n := |h| - 1;
    InitPrefix(h, n);
    PrefixFacts(key, h, n);
    assert h[n] == Last(h);
    LogGrows(Believe(Init(h)), Last(h), lo);
    StartIsAllowed(key, h, n);
  }

  /** Each start is in the log, so a window holds no more starts than log entries. */
  lemma {:induction false} StartsAreLogged(key: Key, h: seq<BreakerOp>, from: nat, lo: Time, hi: Time)
    requires !key.runtime.Lxc? && AllFor(key, h) && ClockAdvances(h) && NoClearFrom(key, h, from)
    ensures |StartsBetween(key, h, from, lo, hi)| <= |From(Believe(h).log, lo)|
  {
    if |h| <= from {
      assert StartsBetween(key, h, from, lo, hi) == {};
    } else {
      NoClearInit(key, h, from);
      StartsAreLogged(key, Init(h), from, lo, hi);
      StartsCount(key, h, from, lo, hi);
      assert !Clears(key, h, |h| - 1);
      StartGrowsTheLog(key, h, lo, hi);
    }
  }

  /** One more operation adds at most its own index to the starts of a window. */
  lemma StartsStep(key: Key, h: seq<BreakerOp>, from: nat, lo: Time, hi: Time)
    requires from < |h|
    ensures StartsBetween(key, h, from, lo, hi) ==
            StartsBetween(key, Init(h), from, lo, hi)
            + if StartsNow(key, Init(h), Last(h)) && lo <= Last(h).q.now <= hi then {|h| - 1} else {}
  {
    IndicesStep(StartsWithin(key, lo, hi), h, from);
  }

  lemma StartsCount(key: Key, h: seq<BreakerOp>, from: nat, lo: Time, hi: Time)
    requires from < |h|
    ensures |StartsBetween(key, h, from, lo, hi)| ==
            |StartsBetween(key, Init(h), from, lo, hi)|
            + if StartsNow(key, Init(h), Last(h)) && lo <= Last(h).q.now <= hi then 1 else 0
  {
    StartsStep(key, h, from, lo, hi);
    assert |h| - 1 !in StartsBetween(key, Init(h), from, lo, hi);
  }

  lemma NoClearInit(key: Key, h: seq<BreakerOp>, from: nat)
    requires h != [] && NoClearFrom(key, h, from)
    ensures NoClearFrom(key, Init(h), from)
  {
    forall j: nat | from <= j < |h| - 1 ensures !Clears(key, Init(h), j) {
      InitPrefix(h, j);
      assert !Clears(key, h, j);
    }
  }

  lemma LogGrows(b: Belief, op: BreakerOp, lo: Time)
    requires op.UnholdOp? ==> b.holding.None?
    ensures |From(Learn(b, op).log, lo)| >= |From(b.log, lo)|
    ensures op.ArmOp? && AllowsStart(b, op.q) && !op.q.container.runtime.Lxc? && lo <= op.q.now ==>
              |From(Learn(b, op).log, lo)| >= |From(b.log, lo)| + 1
  {
    if op.ArmOp? && b.holding.None? {
      var found := b.log + Discovered(b, op.q);
      FromConcat(b.log, Discovered(b, op.q), lo);
      if AllowsStart(b, op.q) && !op.q.container.runtime.Lxc? {
        FromConcat(found, [op.q.now], lo);
        FromSingle(op.q.now, lo);
      } else {
        assert found + [] == found;
      }
    }
  }

  /** At a start, the log entries of the five minutes behind it are at most three. */
  lemma AllowedMeansQuiet(b: Belief, q: ArmRequest, lo: Time)
    requires q.container.runtime.Docker? && AllowsStart(b, q) && q.now <= lo + OBSERVATION_WINDOW
    ensures |From(b.log, lo)| <= DOCKER_RESTART_THRESHOLD
  {
    LaterCutKeepsLess(b.log, q.now - OBSERVATION_WINDOW, lo);
    FromConcat(b.log, Discovered(b, q), q.now - OBSERVATION_WINDOW);
  }

  /**
   Restart-rate bound: with no successful unhold from `from` on, every closed five-minute window
   holds at most four starts of a docker container.
   */
  lemma {:induction false} RestartRateBound(key: Key, h: seq<BreakerOp>, from: nat, lo: Time)
    requires key.runtime.Docker? && AllFor(key, h) && ClockAdvances(h) && NoClearFrom(key, h, from)
    ensures |StartsBetween(key, h, from, lo, lo + 300)| <= 4
  {
    var hi := lo + 300;
    if |h| <= from {
      assert StartsBetween(key, h, from, lo, hi) == {};
    } else {
      var n := |h| - 1;
      StartsStep(key, h, from, lo, hi);
      NoClearInit(key, h, from);
      RestartRateBound(key, Init(h), from, lo);
      if StartsNow(key, Init(h), Last(h)) && lo <= Last(h).q.now <= hi {
        InitPrefix(h, n);
        assert h[n] == Last(h);
        StartIsAllowed(key, h, n);
        AllowedMeansQuiet(Believe(Init(h)), h[n].q, lo);
        StartsAreLogged(key, Init(h), from, lo, hi);
      }
    }
  }

  // ----- The bound is reached --------------------------------------------------------------------

  /** A docker container that exits 1 just over a minute after each of its starts. */
  function CrashAt(key: Key, now: Time): ArmRequest {
    ArmRequest(
      Container(key.id, "web", key.runtime, key.host, Exited, Always, [], [], 0, Some(1)),
      HostObservation(None, None), now, true)
  }

  function Crashes(key: Key, n: nat): (h: seq<BreakerOp>)
    ensures |h| == n
    ensures forall i :: 0 <= i < n ==> h[i] == ArmOp(CrashAt(key, 61 * i))
  {
    seq(n, i => ArmOp(CrashAt(key, 61 * i)))
  }

  /** The record of a container that crashed `n` times and was started each time. */
  predicate CrashedTimes(s: Option<BreakerRecord>, n: nat) {
    if s.None? then n == 0
    else
      && n > 0 && s.value.status.Watching? && s.value.restartCountSnapshot == Some(0)
      && |s.value.recentStarts| <= n && s.value.lastOrcaStartAt == Some(61 * (n - 1))
  }

  lemma CrashIsStarted(key: Key, s: Option<BreakerRecord>, n: nat)
    requires key.runtime.Docker? && CrashedTimes(s, n) && n <= 3
    ensures
      var armed := Armed(OrFresh(s, key), CrashAt(key, 61 * n));
      armed.1.Proceed? && CrashedTimes(Some(armed.0), n + 1)
  {
  }

  lemma CrashesPush(key: Key, n: nat)
    requires n > 0
    ensures Init(Crashes(key, n)) == Crashes(key, n - 1)
    ensures Last(Crashes(key, n)) == ArmOp(CrashAt(key, 61 * (n - 1)))
  {
  }

  /** One more crash: it is started, and the record says so. */
  lemma CrashStep(key: Key, h: seq<BreakerOp>, n: nat)
    requires key.runtime.Docker? && n <= 3 && h != [] && Last(h) == ArmOp(CrashAt(key, 61 * n))
    requires CrashedTimes(Run(key, Init(h)), n)
    ensures StartsNow(key, Init(h), Last(h)) && CrashedTimes(Run(key, h), n + 1)
  {
    CrashIsStarted(key, Run(key, Init(h)), n);
  }

  lemma {:induction false} CrashesRun(key: Key, n: nat)
    requires key.runtime.Docker? && n <= 4
    ensures CrashedTimes(Run(key, Crashes(key, n)), n)
  {
    if n > 0 {
      CrashesRun(key, n - 1);
      CrashesPush(key, n);
      CrashStep(key, Crashes(key, n), n - 1);
    }
  }

  lemma CrashIsAStart(key: Key, n: nat)
    requires key.runtime.Docker? && 0 < n <= 4
    ensures StartsNow(key, Init(Crashes(key, n)), Last(Crashes(key, n)))
  {
    CrashesRun(key, n - 1);
    CrashesPush(key, n);
    CrashStep(key, Crashes(key, n), n - 1);
  }

  lemma {:induction false} CrashesStart(key: Key, n: nat)
    requires key.runtime.Docker? && n <= 4
    ensures |StartsBetween(key, Crashes(key, n), 0, 0, 300)| == n
  {
    if n == 0 {
      assert StartsBetween(key, Crashes(key, n), 0, 0, 300) == {};
    } else {
      CrashesStart(key, n - 1);
      CrashesPush(key, n);
      CrashIsAStart(key, n);
      StartsCount(key, Crashes(key, n), 0, 0, 300);
    }
  }

  /** Four is the best bound: starts at 0, 61, 122 and 183 seconds are all let through. */
  lemma RateBoundIsReached(key: Key)
    requires key.runtime.Docker?
    ensures
      var h := Crashes(key, 4);
      && AllFor(key, h) && ClockAdvances(h) && NoClearFrom(key, h, 0)
      && |StartsBetween(key, h, 0, 0, 300)| == 4
  {
    CrashesStart(key, 4);
  }

  /** A fifth crash seven seconds after the fourth start is held; after an unhold a sixth is started at 244. */
  lemma UnholdAllowsAFifth(key: Key, s: Option<BreakerRecord>)
    requires key.runtime.Docker? && CrashedTimes(s, 4)
    ensures
      var held := Step(key, s, ArmOp(CrashAt(key, 190)));
      var freed := Step(key, held, UnholdOp);
      && Armed(OrFresh(s, key), CrashAt(key, 190)).1.Hold?
      && Armed(OrFresh(freed, key), CrashAt(key, 244)).1.Proceed?
  {
  }

  lemma AnchorStep(b: Belief, op: BreakerOp)
    ensures Learn(b, op).lastStart == if op.ArmOp? && AllowsStart(b, op.q) then Some(op.q.now) else b.lastStart
  {
  }

  predicate AnchoredWithin(anchor: Option<Time>, lo: Time, hi: Time) {
    anchor.Some? && lo <= anchor.value <= hi
  }

  lemma AnchorStaysWithin(b: Belief, op: BreakerOp, lo: Time, hi: Time)
    requires AnchoredWithin(b.lastStart, lo, hi) && (op.ArmOp? ==> lo <= op.q.now <= hi)
    ensures AnchoredWithin(Learn(b, op).lastStart, lo, hi)
  {
    AnchorStep(b, op);
  }

  /** The anchor of the fast re-exit rule never falls behind an earlier one. */
  lemma {:induction false} AnchorIsLatest(h: seq<BreakerOp>, i: nat, lo: Time, hi: Time)
    requires i <= |h| && AnchoredWithin(Believe(h[..i]).lastStart, lo, hi)
    requires forall k :: i <= k < |h| && h[k].ArmOp? ==> lo <= h[k].q.now <= hi
    ensures AnchoredWithin(Believe(h).lastStart, lo, hi)
  {
    if i == |h| {
      assert h[..i] == h;
    } else {
      InitPrefix(h, i);
      AnchorIsLatest(Init(h), i, lo, hi);
      AnchorStaysWithin(Believe(Init(h)), h[|h| - 1], lo, hi);
    }
  }

  lemma StartSetsAnchor(key: Key, h: seq<BreakerOp>, i: nat)
    requires AllFor(key, h) && ClockAdvances(h) && i < |h| && StartsAt(key, h, i)
    ensures h[i].ArmOp? && Believe(h[..i + 1]).lastStart == Some(h[i].q.now)
  {
    StartIsAllowed(key, h, i);
    AnchorStep(Believe(h[..i]), h[i]);
    assert Init(h[..i + 1]) == h[..i];
  }

  /** A crashed container is let through only when its last start is more than a minute old. */
  lemma AllowedMeansCold(b: Belief, q: ArmRequest, lo: Time)
    requires q.container.runtime.Docker? && q.container.ExitedNonZero() && AllowsStart(b, q)
    requires AnchoredWithin(b.lastStart, lo, q.now)
    ensures q.now - lo > 60
  {
  }

  /**
   A start of a docker container seen exited non-zero comes more than a minute after every earlier
   start, across unholds too.
   */
  lemma StartsAMinuteApart(key: Key, h: seq<BreakerOp>, i: nat, j: nat)
    requires key.runtime.Docker? && AllFor(key, h) && ClockAdvances(h) && i < j < |h|
    requires StartsAt(key, h, i) && StartsAt(key, h, j) && h[j].q.container.ExitedNonZero()
    ensures h[j].q.now - h[i].q.now > 60
  {
    var g := h[..j];
    assert g[..i + 1] == h[..i + 1];
    StartSetsAnchor(key, h, i);
    AnchorIsLatest(g, i + 1, h[i].q.now, h[j].q.now);
    StartIsAllowed(key, h, j);
    AllowedMeansCold(Believe(g), h[j].q, h[i].q.now);
  }

  // ----- Starts are counted exactly once --------------------------------------------------------

  /** Entries the fold of one arm pushes. */
  function Pushes(r: BreakerRecord, q: ArmRequest): nat
    ensures q.container.runtime.Docker? && !ShortCircuits(r) ==>
              Pushes(r, q) == DockerDelta(r.restartCountSnapshot, q.container.restartCount)
  {
    if ShortCircuits(r) then 0
    else |Fold(Pruned(r, q.now), q).recentStarts| - |Pruned(r, q.now).recentStarts|
  }

  function TotalPushes(key: Key, h: seq<BreakerOp>): nat {
    if h == [] then 0
    else TotalPushes(key, Init(h)) +
         if Last(h).ArmOp? then Pushes(OrFresh(Run(key, Init(h)), key), Last(h).q) else 0
  }

  /** Restarts the sanity clamp of one arm throws away. */
  function ClampedAway(r: BreakerRecord, q: ArmRequest): nat {
    if ShortCircuits(r) || r.restartCountSnapshot.None? || q.container.restartCount <= r.restartCountSnapshot.value
    then 0
    else q.container.restartCount - r.restartCountSnapshot.value - Pushes(r, q)
  }

  /** How far one arm moves the snapshot back (the runtime reset its counter). */
  function MovedBack(r: BreakerRecord, q: ArmRequest): nat {
    var after := Armed(r, q).0.restartCountSnapshot;
    if r.restartCountSnapshot.Some? && after.Some? && after.value < r.restartCountSnapshot.value
    then r.restartCountSnapshot.value - after.value else 0
  }

  function TotalClamped(key: Key, h: seq<BreakerOp>): nat {
    if h == [] then 0
    else TotalClamped(key, Init(h)) +
         if Last(h).ArmOp? then ClampedAway(OrFresh(Run(key, Init(h)), key), Last(h).q) else 0
  }

  function TotalMovedBack(key: Key, h: seq<BreakerOp>): nat {
    if h == [] then 0
    else TotalMovedBack(key, Init(h)) +
         if Last(h).ArmOp? then MovedBack(OrFresh(Run(key, Init(h)), key), Last(h).q) else 0
  }

  /** The restart count of the first arm of the run. */
  function FirstCount(h: seq<BreakerOp>): nat {
    if h == [] then 0
    else if !HasArm(Init(h)) && Last(h).ArmOp? then Last(h).q.container.restartCount
    else FirstCount(Init(h))
  }

  predicate HasArm(h: seq<BreakerOp>) {
    h != [] && (Last(h).ArmOp? || HasArm(Init(h)))
  }

  lemma SnapshotStep(r: BreakerRecord, q: ArmRequest)
    requires q.container.runtime.Docker? && r.restartCountSnapshot.Some?
    ensures Armed(r, q).0.restartCountSnapshot.Some?
    ensures r.restartCountSnapshot.value + Pushes(r, q) + ClampedAway(r, q) ==
            Armed(r, q).0.restartCountSnapshot.value + MovedBack(r, q)
  {
  }

  lemma {:induction false} RecordExistsOnceArmed(key: Key, h: seq<BreakerOp>)
    ensures Run(key, h).Some? <==> HasArm(h)
  {
    if h != [] {
      RecordExistsOnceArmed(key, Init(h));
    }
  }

  /**
   Conservation of docker restarts over any run whatever, holds and resets included: every restart
   between the first and the last snapshot was pushed once or thrown away by the clamp.
   */
  lemma {:induction false} RestartsAreConserved(key: Key, h: seq<BreakerOp>)
    requires key.runtime.Docker? && AllFor(key, h) && HasArm(h)
    ensures Run(key, h).Some? && Run(key, h).value.restartCountSnapshot.Some?
    ensures FirstCount(h) + TotalPushes(key, h) + TotalClamped(key, h) ==
            Run(key, h).value.restartCountSnapshot.value + TotalMovedBack(key, h)
  {
    RecordExistsOnceArmed(key, h);
    RecordExistsOnceArmed(key, Init(h));
    assert Last(h) == h[|h| - 1];
    if HasArm(Init(h)) {
      RestartsAreConserved(key, Init(h));
      if Last(h).ArmOp? {
        SnapshotStep(Run(key, Init(h)).value, Last(h).q);
      }
    } else {
      NothingPushedBeforeFirstArm(key, Init(h));
    }
  }

  lemma {:induction false} NothingPushedBeforeFirstArm(key: Key, h: seq<BreakerOp>)
    requires !HasArm(h)
    ensures TotalPushes(key, h) == TotalClamped(key, h) == TotalMovedBack(key, h) == 0
  {
    if h != [] {
      NothingPushedBeforeFirstArm(key, Init(h));
    }
  }

  /** Docker's counter, as the arms see it, never goes back. */
  predicate CountsNeverDrop(h: seq<BreakerOp>) {
    forall i, j :: 0 <= i < j < |h| && h[i].ArmOp? && h[j].ArmOp? ==>
                     h[i].q.container.restartCount <= h[j].q.container.restartCount
  }

  lemma {:induction false} SnapshotIsBehind(key: Key, h: seq<BreakerOp>, n: nat)
    requires key.runtime.Docker? && AllFor(key, h)
    requires forall i :: 0 <= i < |h| && h[i].ArmOp? ==> h[i].q.container.restartCount <= n
    ensures
      var snapshot := OrFresh(Run(key, h), key).restartCountSnapshot;
      snapshot.Some? ==> snapshot.value <= n
  {
    if h != [] {
      SnapshotIsBehind(key, Init(h), n);
      assert Last(h) == h[|h| - 1];
    }
  }

  lemma {:induction false} SteadyCountsNeverMoveBack(key: Key, h: seq<BreakerOp>)
    requires key.runtime.Docker? && AllFor(key, h) && CountsNeverDrop(h)
    ensures TotalMovedBack(key, h) == 0
  {
    if h != [] {
      SteadyCountsNeverMoveBack(key, Init(h));
      assert Last(h) == h[|h| - 1];
      if Last(h).ArmOp? {
        SnapshotIsBehind(key, Init(h), Last(h).q.container.restartCount);
      }
    }
  }

  /**
   When docker's counter never goes back, the pushes equal the last snapshot minus the first exactly
   when no arm saw the counter more than 1024 ahead of the snapshot.
   */
  lemma CountedExactlyOnceIffNeverClamped(key: Key, h: seq<BreakerOp>)
    requires key.runtime.Docker? && AllFor(key, h) && HasArm(h) && CountsNeverDrop(h)
    ensures Run(key, h).Some? && Run(key, h).value.restartCountSnapshot.Some?
    ensures TotalPushes(key, h) == Run(key, h).value.restartCountSnapshot.value - FirstCount(h)
            <==> NeverClamps(key, h)
  {
    RestartsAreConserved(key, h);
    SteadyCountsNeverMoveBack(key, h);
    ClampedIffSomeJump(key, h);
  }

  /** No arm made outside a hold finds the counter more than the clamp ahead of the snapshot. */
  ghost predicate NeverClamps(key: Key, h: seq<BreakerOp>) {
    forall j: nat :: j < |h| && h[j].ArmOp? ==> !JumpsAhead(OrFresh(Run(key, h[..j]), key), h[j].q)
  }

  predicate JumpsAhead(r: BreakerRecord, q: ArmRequest) {
    && !ShortCircuits(r) && r.restartCountSnapshot.Some?
    && q.container.restartCount > r.restartCountSnapshot.value + 1024
  }

  lemma {:induction false} ClampedIffSomeJump(key: Key, h: seq<BreakerOp>)
    requires key.runtime.Docker? && AllFor(key, h)
    ensures TotalClamped(key, h) == 0 <==> NeverClamps(key, h)
  {
    if h != [] {
      var n := |h| - 1;
      ClampedIffSomeJump(key, Init(h));
      assert h[..n] == Init(h) && Last(h) == h[n];
      forall j: nat | j < n ensures Init(h)[..j] == h[..j] && Init(h)[j] == h[j] {}
      assert NeverClamps(key, h) <==>
             NeverClamps(key, Init(h)) && (h[n].ArmOp? ==> !JumpsAhead(OrFresh(Run(key, h[..n]), key), h[n].q));
    }
  }

  // ----- LXC transitions ------------------------------------------------------------------------

  /** The state the previous arm of the run saw, whether or not it was made during a hold. */
  function SeenBefore(h: seq<BreakerOp>): Option<ContainerState> {
    if h == [] then None
    else if Last(h).ArmOp? then Some(Last(h).q.container.state)
    else SeenBefore(Init(h))
  }

  /** The three states a container is counted as stopped in. */
  predicate WasStopped(seen: Option<ContainerState>) {
    seen == Some(Exited) || seen == Some(Dead) || seen == Some(Stopping)
  }

  /** Adjacent stopped-then-running observations whose second half fell outside a hold. */
  function TransitionsOutsideHolds(key: Key, h: seq<BreakerOp>): nat {
    if h == [] then 0
    else TransitionsOutsideHolds(key, Init(h)) +
         if && Last(h).ArmOp?
            && !ShortCircuits(OrFresh(Run(key, Init(h)), key))
            && WasStopped(SeenBefore(Init(h))) && Last(h).q.container.state == Running
         then 1 else 0
  }

  lemma {:induction false} RecordRemembersLastState(key: Key, h: seq<BreakerOp>)
    ensures OrFresh(Run(key, h), key).lastObservedState == SeenBefore(h)
  {
    if h != [] {
      RecordRemembersLastState(key, Init(h));
    }
  }

  /**
   Over any run of LXC arms that supply no previous state of their own, the fold pushes once for each
   adjacent stopped-to-running pair seen outside a hold, however the arms split between initiating
   and observe-only.
   */
  lemma {:induction false} LxcPushesAreTransitions(key: Key, h: seq<BreakerOp>)
    requires key.runtime.Lxc? && AllFor(key, h)
    requires forall i :: 0 <= i < |h| && h[i].ArmOp? ==> h[i].q.observation.previousState.None?
    ensures TotalPushes(key, h) == TransitionsOutsideHolds(key, h)
  {
    if h != [] {
      LxcPushesAreTransitions(key, Init(h));
      RecordRemembersLastState(key, Init(h));
      assert Last(h) == h[|h| - 1];
    }
  }

  // ----- Holds are sticky -----------------------------------------------------------------------

  /** Every reachable Held record says why and since when; podman and nspawn are never Held. */
  lemma {:induction false} ReachableHolds(key: Key, h: seq<BreakerOp>)
    requires AllFor(key, h)
    ensures Run(key, h).Some? && Run(key, h).value.status.Held? ==>
              && Run(key, h).value.heldReason.Some? && Run(key, h).value.heldSince.Some?
              && !key.runtime.Podman? && !key.runtime.Nspawn?
  {
    if h != [] {
      ReachableHolds(key, Init(h));
      assert Last(h) == h[|h| - 1];
    }
  }

  /**
   From a hold on, and until an unhold, every arm returns the same reason and the record changes only
   in its last observed state and its notification stamp; without a stamp, only in the former.
   */
  lemma {:induction false} HoldsAreSticky(key: Key, h: seq<BreakerOp>, g: seq<BreakerOp>)
    requires AllFor(key, h) && Run(key, h).Some? && Run(key, h).value.status.Held?
    requires forall i :: 0 <= i < |g| ==> !g[i].UnholdOp?
    ensures Run(key, h + g).Some? && Run(key, h).value.heldReason.Some?
    ensures
      var was := Run(key, h).value;
      var now := Run(key, h + g).value;
      && now == was.(lastObservedState := now.lastObservedState, notifiedAt := now.notifiedAt)
      && ((forall i :: 0 <= i < |g| ==> g[i].ArmOp?) ==> now.notifiedAt == was.notifiedAt)
      && forall q :: Decide(key, h + g, q) == Hold(was.heldReason.value, now.notifiedAt)
  {
    ReachableHolds(key, h);
    if g == [] {
      assert h + g == h;
    } else {
      HoldsAreSticky(key, h, Init(g));
      assert Init(h + g) == h + Init(g) && Last(h + g) == g[|g| - 1];
    }
  }

  /**
   An unhold forgets the starts but keeps docker's snapshot: the first arm after it pushes every
   restart made since the trip, up to the clamp, however long the hold lasted.
   */
  lemma HeldRestartsArriveAfterUnhold(key: Key, h: seq<BreakerOp>, g: seq<BreakerOp>, q: ArmRequest)
    requires key.runtime.Docker? && AllFor(key, h) && Run(key, h).Some? && Run(key, h).value.status.Held?
    requires (forall i :: 0 <= i < |g| ==> !g[i].UnholdOp?) && q.container.RecordKey() == key
    ensures
      var freed := Run(key, h + g + [UnholdOp]);
      && freed.Some? && freed.value.recentStarts == []
      && Pushes(freed.value, q) == DockerDelta(Run(key, h).value.restartCountSnapshot, q.container.restartCount)
  {
    HoldsAreSticky(key, h, g);
    assert Init(h + g + [UnholdOp]) == h + g;
  }

  // ----- The policy in numbers ----------------------------------------------------------------------

  /** The starts an arm finds out about: docker's own restarts, or an LXC container seen up again. */
  predicate FindsStarts(b: Belief, q: ArmRequest, found: nat) {
    match q.container.runtime
    case Docker =>
      if b.accounted.Some? && q.container.restartCount > b.accounted.value
      then found == (if q.container.restartCount - b.accounted.value > 1024 then 1024 else q.container.restartCount - b.accounted.value)
      else found == 0
    case Lxc =>
      var before := if q.observation.previousState.Some? then q.observation.previousState else b.seen;
      found == if WasStopped(before) && q.container.state == Running then 1 else 0
    case Podman | Nspawn => found == 0
  }

  /** An exit with a code other than 0, at most sixty seconds after the last start. */
  predicate ExitsEarly(b: Belief, q: ArmRequest) {
    && q.container.state == Exited && q.container.exitCode.Some? && q.container.exitCode.value != 0
    && b.lastStart.Some? && 0 <= q.now - b.lastStart.value <= 60
  }

  predicate JournalComplains(q: ArmRequest) {
    && q.observation.journalTail.Some?
    && FailureLines(Lines(q.observation.journalTail.value)) % 0x1_0000_0000 > 3
  }

  lemma DiscoveredAre(b: Belief, q: ArmRequest, found: nat)
    requires FindsStarts(b, q, found)
    ensures Discovered(b, q) == Repeat(q.now, found)
  {
  }

  /**
   The whole policy, with its numbers: an arm made outside a hold answers Hold exactly when the log and
   what the arm finds out make more than three starts in the last 300 seconds, or a docker container
   exits early, or an LXC journal complains more than three times. Podman and nspawn are never held.
   */
  lemma PolicyInNumbers(key: Key, h: seq<BreakerOp>, found: nat)
    requires AllFor(key, h) && ClockAdvances(h) && h != [] && Last(h).ArmOp?
    requires Believe(Init(h)).holding.None? && FindsStarts(Believe(Init(h)), Last(h).q, found)
    ensures
      var b, q := Believe(Init(h)), Last(h).q;
      var tooMany := |From(b.log + Repeat(q.now, found), q.now - 300)| > 3;
      Decide(key, Init(h), q).Hold? <==>
      || (key.runtime.Docker? && (tooMany || ExitsEarly(b, q)))
      || (key.runtime.Lxc? && (tooMany || JournalComplains(q)))
  {
    DecisionIsHolding(key, h);
    HoldingStep(Believe(Init(h)), Last(h));
    DiscoveredAre(Believe(Init(h)), Last(h).q, found);
    assert Last(h) == h[|h| - 1];
  }

  /** Why: the reason names the rule that tripped, the storm before the early exit and the flapping before the journal. */
  lemma ReasonsInNumbers(key: Key, h: seq<BreakerOp>, found: nat)
    requires AllFor(key, h) && ClockAdvances(h) && h != [] && Last(h).ArmOp?
    requires Believe(Init(h)).holding.None? && FindsStarts(Believe(Init(h)), Last(h).q, found)
    requires Decide(key, Init(h), Last(h).q).Hold?
    ensures
      var b, q := Believe(Init(h)), Last(h).q;
      var reason := Decide(key, Init(h), q).reason;
      var tooMany := |From(b.log + Repeat(q.now, found), q.now - 300)| > 3;
      && (tooMany <==> reason.RestartStormIn5Min? || reason.LxcFlappingIn5Min?)
      && (reason.RestartStormIn5Min? || reason.FastReexitAfterOrcaStart? ==> key.runtime.Docker?)
      && (reason.FastReexitAfterOrcaStart? ==>
            && b.lastStart.Some? && reason.withinSecs == q.now - b.lastStart.value
            && Some(reason.exitCode) == q.container.exitCode)
      && (reason.LxcJournalFailuresIn5Min? ==>
            && q.observation.journalTail.Some? && reason.windowStart == q.now - 300
            && reason.failures == FailureLines(Lines(q.observation.journalTail.value)) % 0x1_0000_0000)
  {
    DecisionIsHolding(key, h);
    HoldingStep(Believe(Init(h)), Last(h));
    DiscoveredAre(Believe(Init(h)), Last(h).q, found);
    assert Last(h) == h[|h| - 1];
  }

  // ----- Flapping -----------------------------------------------------------------------------------

  /** An LXC container seen down and up in turn, every ten seconds. */
  function FlapAt(key: Key, i: nat): ArmRequest {
    ArmRequest(
      Container(key.id, "db", key.runtime, key.host, if i % 2 == 0 then Exited else Running, Always, [], [], 0, None),
      HostObservation(None, None), 10 * i, false)
  }

  function Flaps(key: Key, n: nat): (h: seq<BreakerOp>)
    ensures |h| == n && forall i :: 0 <= i < n ==> h[i] == ArmOp(FlapAt(key, i))
  {
    seq(n, i requires i >= 0 => ArmOp(FlapAt(key, i)))
  }

  predicate FlappedTimes(s: Option<BreakerRecord>, n: nat) {
    if s.None? then n == 0
    else
      && n > 0 && s.value.status.Watching? && |s.value.recentStarts| == n / 2
      && (forall i :: 0 <= i < |s.value.recentStarts| ==> s.value.recentStarts[i] >= 0)
      && s.value.lastObservedState == Some(if n % 2 == 1 then Exited else Running)
  }

  /** An LXC container seen up after it was seen down is one more start. */
  lemma LxcFold(r: BreakerRecord, q: ArmRequest)
    requires q.container.runtime.Lxc? && q.observation.previousState.None?
    ensures Fold(r, q) ==
            r.(recentStarts := r.recentStarts
                               + if WasStopped(r.lastObservedState) && q.container.state == Running then [q.now] else [])
  {
    assert r.recentStarts + [] == r.recentStarts;
  }

  lemma LxcClassified(r: BreakerRecord, q: ArmRequest)
    requires q.container.runtime.Lxc? && q.observation.journalTail.None? && |r.recentStarts| <= 4
    ensures |r.recentStarts| > 3 ==> Classify(r, q).Some? && Classify(r, q).value.LxcFlappingIn5Min?
    ensures |r.recentStarts| <= 3 ==> Classify(r, q).None?
  {
  }

  /** One arm of a watched LXC container whose starts are all recent and whose journal is silent. */
  lemma QuietLxcArm(r: BreakerRecord, q: ArmRequest, folded: BreakerRecord)
    requires q.container.runtime.Lxc? && r.status.Watching? && !q.initiatingStart && q.observation.journalTail.None?
    requires folded == Fold(Pruned(r, q.now), q) && |folded.recentStarts| <= 4 && folded.status.Watching?
    ensures
      var (r', decision) := Armed(r, q);
      if |folded.recentStarts| > 3 then decision.Hold? && decision.reason.LxcFlappingIn5Min?
      else
        && decision.Proceed? && r'.status.Watching? && r'.recentStarts == folded.recentStarts
        && r'.lastObservedState == Some(q.container.state)
  {
    LxcClassified(folded, q);
  }

  /** What the fold makes of the record at the next observation. */
  lemma FlapFold(key: Key, s: Option<BreakerRecord>, n: nat)
    requires key.runtime.Lxc? && FlappedTimes(s, n) && n <= 7
    ensures
      var folded := Fold(Pruned(OrFresh(s, key), 10 * n), FlapAt(key, n));
      && folded.status.Watching? && |folded.recentStarts| == (n + 1) / 2
      && forall i :: 0 <= i < |folded.recentStarts| ==> folded.recentStarts[i] >= 0
  {
    var r := OrFresh(s, key);
    FromAllRecent(r.recentStarts, 10 * n - 300);
    LxcFold(Pruned(r, 10 * n), FlapAt(key, n));
  }

  lemma FlapArm(key: Key, s: Option<BreakerRecord>, n: nat)
    requires key.runtime.Lxc? && FlappedTimes(s, n) && n <= 7
    ensures
      var armed := Armed(OrFresh(s, key), FlapAt(key, n));
      if n < 7 then armed.1.Proceed? && FlappedTimes(Some(armed.0), n + 1)
      else armed.1.Hold? && armed.1.reason.LxcFlappingIn5Min?
  {
    FlapFold(key, s, n);
    QuietLxcArm(OrFresh(s, key), FlapAt(key, n), Fold(Pruned(OrFresh(s, key), 10 * n), FlapAt(key, n)));
  }

  lemma FlapStep(key: Key, h: seq<BreakerOp>, n: nat)
    requires key.runtime.Lxc? && n <= 7 && h != [] && Last(h) == ArmOp(FlapAt(key, n))
    requires FlappedTimes(Run(key, Init(h)), n)
    ensures n < 7 ==> FlappedTimes(Run(key, h), n + 1)
    ensures n == 7 ==> Decide(key, Init(h), Last(h).q).Hold? && Decide(key, Init(h), Last(h).q).reason.LxcFlappingIn5Min?
  {
    FlapArm(key, Run(key, Init(h)), n);
  }

  lemma {:induction false} FlapsAreCounted(key: Key, n: nat)
    requires key.runtime.Lxc? && n <= 7
    ensures FlappedTimes(Run(key, Flaps(key, n)), n)
  {
    if n > 0 {
      FlapsAreCounted(key, n - 1);
      assert Init(Flaps(key, n)) == Flaps(key, n - 1) && Last(Flaps(key, n)) == ArmOp(FlapAt(key, n - 1));
      FlapStep(key, Flaps(key, n), n - 1);
    }
  }

  /** Down and up four times within 300 seconds: the fourth time up is answered Hold, for flapping. */
  lemma FourthFlapIsHeld(key: Key)
    requires key.runtime.Lxc?
    ensures
      var h := Flaps(key, 8);
      && Decide(key, Init(h), Last(h).q).Hold?
      && Decide(key, Init(h), Last(h).q).reason.LxcFlappingIn5Min?
  {
    var h := Flaps(key, 8);
    FlapsAreCounted(key, 7);
    assert Init(h) == Flaps(key, 7) && Last(h) == ArmOp(FlapAt(key, 7));
    FlapStep(key, h, 7);
  }
}
