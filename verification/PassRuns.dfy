/**
 Whole passes and operator unholds in a row, from empty stores: what the results of `Pass.Reconcile`,
 put one after another, promise about one container's starts and about its wedge events.
 */
module PassRuns {
  import opened Prelude
  import opened ContainerRuntime
  import opened Stores
  import opened Reconciler
  import B = Breaker
  import H = BreakerHistory
  import T = BreakerTheorems
  import W = Wedge
  import R = WedgeRuns
  import P = PassTheorems
  import V = WorldTheorems

  datatype Happening = PassRun(listings: seq<Listing>, settings: Settings) | UnholdRun(key: Key)

  const NO_RECORDS := PassStores(map[], map[])

  /** The stores one happening leaves. A pass leaves what `Pass.Reconcile` ensures. */
  function StoresThen(s: PassStores, happening: Happening): PassStores {
    match happening
    case PassRun(listings, settings) => FinalStores(s, listings, settings)
    case UnholdRun(key) => s.(breaker := V.WorldNext(s.breaker, V.Operator(key)))
  }

  function StoresNow(run: seq<Happening>): PassStores {
    if run == [] then NO_RECORDS else StoresThen(StoresNow(Init(run)), Last(run))
  }

  /** The `start` calls one happening makes, again as `Pass.Reconcile` ensures. */
  function CallsOf(s: PassStores, happening: Happening): seq<StartCall> {
    if happening.PassRun? then StartCalls(s, TicksOf(happening.listings), happening.settings) else []
  }

  /** All `start` calls of the run. */
  function Calls(run: seq<Happening>): seq<StartCall> {
    if run == [] then [] else Calls(Init(run)) + CallsOf(StoresNow(Init(run)), Last(run))
  }

  function NewsOf(s: PassStores, happening: Happening): seq<W.WedgeEvent> {
    if happening.PassRun? then WedgeNews(s, TicksOf(happening.listings), happening.settings) else []
  }

  /** All wedge events of the run. */
  function News(run: seq<Happening>): seq<W.WedgeEvent> {
    if run == [] then [] else News(Init(run)) + NewsOf(StoresNow(Init(run)), Last(run))
  }

  // ----- Starts -----------------------------------------------------------------------------------

  function StepsThen(happening: Happening): seq<V.WorldStep> {
    match happening
    case PassRun(listings, settings) => V.StepsOfPass(listings, settings)
    case UnholdRun(key) => [V.Operator(key)]
  }

  function StepsOf(run: seq<Happening>): seq<V.WorldStep> {
    if run == [] then [] else StepsOf(Init(run)) + StepsThen(Last(run))
  }

  lemma HappeningInTheWorld(key: Key, before: seq<V.WorldStep>, s: PassStores, happening: Happening)
    requires s.breaker == V.World(before)
    ensures V.World(before + StepsThen(happening)) == StoresThen(s, happening).breaker
    ensures V.TentativeStarts(key, before + StepsThen(happening)) ==
            V.TentativeStarts(key, before) + V.CrashStarts(key, CallsOf(s, happening))
  {
    match happening
    case PassRun(listings, settings) =>
      V.PassInTheWorld(key, before, listings, settings, s);
    case UnholdRun(k) =>
      V.WorldPush(before, V.Operator(k));
      V.TentativePush(key, before, V.Operator(k));
  }

  /** The calls of the passes are the starts the record's history is about. */
  lemma {:induction false} CallsAreTheStarts(key: Key, run: seq<Happening>)
    ensures V.World(StepsOf(run)) == StoresNow(run).breaker
    ensures V.TentativeStarts(key, StepsOf(run)) == V.CrashStarts(key, Calls(run))
  {
    if run != [] {
      var was := Init(run);
      CallsAreTheStarts(key, was);
      HappeningInTheWorld(key, StepsOf(was), StoresNow(was), Last(run));
      V.CrashStartsConcat(key, Calls(was), CallsOf(StoresNow(was), Last(run)));
    }
  }

  lemma {:induction false} StepsOfConcat(before: seq<Happening>, after: seq<Happening>)
    ensures StepsOf(before + after) == StepsOf(before) + StepsOf(after)
  {
    if after == [] {
      assert before + after == before;
    } else {
      StepsOfConcat(before, Init(after));
      assert Init(before + after) == before + Init(after) && Last(before + after) == Last(after);
      V.AppendBoth(StepsOf(before), StepsOf(before + Init(after)), StepsOf(Init(after)), StepsThen(Last(after)));
    }
  }

  /** The store works for this container, no pass evicts its record, and its clock does not go back. */
  predicate Steady(key: Key, run: seq<Happening>) {
    V.Kept(key, StepsOf(run)) && H.ClockAdvances(V.OpsOn(key, StepsOf(run)))
  }

  /**
   The `start` calls of any sequence of reconcile passes: in a stretch `after` in which the operator
   does not unhold it, a crashing docker container is started at most four times in any five minutes.
   */
  lemma StartCallsAreBounded(key: Key, before: seq<Happening>, after: seq<Happening>, lo: Time)
    requires key.runtime.Docker? && Steady(key, before + after) && V.NoUnholdOf(key, StepsOf(after))
    ensures
      var hi := lo + 300;
      V.Within(V.CrashStarts(key, Calls(before + after)), lo, hi)
      - V.Within(V.CrashStarts(key, Calls(before)), lo, hi) <= 4
  {
    StepsOfConcat(before, after);
    CallsAreTheStarts(key, before);
    CallsAreTheStarts(key, before + after);
    V.ReconcilerStartsAreBounded(key, StepsOf(before), StepsOf(after), lo);
  }

  /** And any two of those calls, unholds or not, are more than a minute apart. */
  lemma StartCallsAMinuteApart(key: Key, run: seq<Happening>, i: nat, j: nat)
    requires key.runtime.Docker? && Steady(key, run) && i < j < |V.CrashStarts(key, Calls(run))|
    ensures V.CrashStarts(key, Calls(run))[j] - V.CrashStarts(key, Calls(run))[i] > 60
  {
    CallsAreTheStarts(key, run);
    V.ReconcilerStartsAMinuteApart(key, StepsOf(run), i, j);
  }

  /** So even with unholds at will, five minutes hold at most five of those calls. */
  lemma AtMostFiveStartCalls(key: Key, run: seq<Happening>, lo: Time)
    requires key.runtime.Docker? && Steady(key, run)
    ensures V.Within(V.CrashStarts(key, Calls(run)), lo, lo + 300) <= 5
  {
    var ts := V.CrashStarts(key, Calls(run));
    forall i, j | 0 <= i < j < |ts| ensures ts[j] - ts[i] > 60 {
      StartCallsAMinuteApart(key, run, i, j);
    }
    V.ApartFit(ts, lo, lo + 300);
  }

  // ----- Both bounds are reached ------------------------------------------------------------------

  const CRASHER := Key("h1", Docker, "c1")

  /** A pass that lists one container, crashed. */
  function CrashPass(base: ContainerTick, settings: Settings, at: Time): Happening {
    PassRun([Listed([V.CrashTick(base, at, false, false)])], settings)
  }

  function CrashPasses(base: ContainerTick, settings: Settings, n: nat): seq<Happening> {
    if n == 0 then [] else CrashPasses(base, settings, n - 1) + [CrashPass(base, settings, 61 * (n - 1))]
  }

  function FivePasses(base: ContainerTick, settings: Settings): seq<Happening> {
    CrashPasses(base, settings, 4)
    + [CrashPass(base, settings, 190)] + [UnholdRun(CRASHER)] + [CrashPass(base, settings, 244)]
  }

  predicate RealAndSilent(settings: Settings) {
    !settings.dryRun && !settings.hasDispatcher
  }

  lemma CrashVisitOps(s: Option<B.BreakerRecord>, base: ContainerTick, settings: Settings, at: Time)
    requires RealAndSilent(settings)
    ensures V.OpsOfVisit(s, V.CrashTick(base, at, false, false), settings) == [H.ArmOp(T.CrashAt(CRASHER, at))]
  {
    assert Classify(V.CrashTick(base, at, false, false).container).action.Started?;
  }

  lemma StepsOfCrashPass(base: ContainerTick, settings: Settings, at: Time)
    ensures
      var t := V.CrashTick(base, at, false, false);
      StepsThen(CrashPass(base, settings, at)) ==
      [V.Visit(t, settings)]
      + V.CollectIf(V.CollectsBreaker([Listed([t])], settings), {CRASHER})
  {
    var t := V.CrashTick(base, at, false, false);
    var listings := [Listed([t])];
    FlatMapOne(TicksIn, listings[0]);
    assert Init([t]) == [] && V.Visits([t], settings) == [V.Visit(t, settings)];
    assert LiveKeys([t]) == {CRASHER};
  }

  /** The record is kept through `steps`, and `h` is what they did to it. */
  predicate HasOps(key: Key, steps: seq<V.WorldStep>, h: seq<H.BreakerOp>) {
    V.Kept(key, steps) && V.OpsOn(key, steps) == h
  }

  lemma HasOpsPush(key: Key, steps: seq<V.WorldStep>, h: seq<H.BreakerOp>, step: V.WorldStep, ops: seq<H.BreakerOp>)
    requires HasOps(key, steps, h) && V.KeptBy(key, V.World(steps), step)
    requires V.OpsOfStep(key, V.World(steps), step) == ops
    ensures HasOps(key, steps + [step], h + ops)
  {
    assert Init(steps + [step]) == steps;
  }

  lemma CollectAddsNothing(key: Key, steps: seq<V.WorldStep>, h: seq<H.BreakerOp>, collects: bool, live: set<Key>)
    requires HasOps(key, steps, h) && key in live
    ensures HasOps(key, steps + V.CollectIf(collects, live), h)
  {
    if collects {
      HasOpsPush(key, steps, h, V.Collect(live), []);
      assert h + [] == h;
    } else {
      assert steps + [] == steps;
    }
  }

  /** The run's record is kept, and its history is `h`. */
  predicate HasHistory(run: seq<Happening>, h: seq<H.BreakerOp>) {
    HasOps(CRASHER, StepsOf(run), h)
  }

  lemma StepsOfPush(run: seq<Happening>, happening: Happening)
    ensures StepsOf(run + [happening]) == StepsOf(run) + StepsThen(happening)
  {
    assert Init(run + [happening]) == run;
  }

  lemma CrashVisitInHistory(base: ContainerTick, settings: Settings, steps: seq<V.WorldStep>, h: seq<H.BreakerOp>, at: Time)
    requires RealAndSilent(settings) && HasOps(CRASHER, steps, h)
    ensures HasOps(CRASHER, steps + [V.Visit(V.CrashTick(base, at, false, false), settings)],
                   h + [H.ArmOp(T.CrashAt(CRASHER, at))])
  {
    CrashVisitOps(Get(V.World(steps), CRASHER), base, settings, at);
    HasOpsPush(CRASHER, steps, h, V.Visit(V.CrashTick(base, at, false, false), settings), [H.ArmOp(T.CrashAt(CRASHER, at))]);
  }

  lemma StepsOfOneMoreCrash(base: ContainerTick, settings: Settings, run: seq<Happening>, at: Time)
    ensures
      var t := V.CrashTick(base, at, false, false);
      StepsOf(run + [CrashPass(base, settings, at)]) ==
      StepsOf(run) + [V.Visit(t, settings)] + V.CollectIf(V.CollectsBreaker([Listed([t])], settings), {CRASHER})
  {
    var t := V.CrashTick(base, at, false, false);
    StepsOfPush(run, CrashPass(base, settings, at));
    StepsOfCrashPass(base, settings, at);
    Assoc(StepsOf(run), [V.Visit(t, settings)], V.CollectIf(V.CollectsBreaker([Listed([t])], settings), {CRASHER}));
  }

  lemma CrashPassInHistory(
    base: ContainerTick, settings: Settings, run: seq<Happening>, h: seq<H.BreakerOp>, at: Time,
    run': seq<Happening>, h': seq<H.BreakerOp>)
    requires RealAndSilent(settings) && HasHistory(run, h)
    requires run' == run + [CrashPass(base, settings, at)] && h' == h + [H.ArmOp(T.CrashAt(CRASHER, at))]
    ensures HasHistory(run', h')
  {
    var t := V.CrashTick(base, at, false, false);
    StepsOfOneMoreCrash(base, settings, run, at);
    CrashVisitInHistory(base, settings, StepsOf(run), h, at);
    CollectAddsNothing(CRASHER, StepsOf(run) + [V.Visit(t, settings)], h', V.CollectsBreaker([Listed([t])], settings), {CRASHER});
  }

  lemma UnholdInHistory(run: seq<Happening>, h: seq<H.BreakerOp>)
    requires HasHistory(run, h)
    ensures HasHistory(run + [UnholdRun(CRASHER)], h + [H.UnholdOp])
  {
    StepsOfPush(run, UnholdRun(CRASHER));
    HasOpsPush(CRASHER, StepsOf(run), h, V.Operator(CRASHER), [H.UnholdOp]);
  }

  lemma CrashesGrow(n: nat)
    requires n > 0
    ensures T.Crashes(CRASHER, n) == T.Crashes(CRASHER, n - 1) + [H.ArmOp(T.CrashAt(CRASHER, 61 * (n - 1)))]
  {
  }

  lemma {:induction false} CrashPassesInHistory(base: ContainerTick, settings: Settings, n: nat)
    requires RealAndSilent(settings)
    ensures HasHistory(CrashPasses(base, settings, n), T.Crashes(CRASHER, n))
  {
    if n > 0 {
      CrashPassesInHistory(base, settings, n - 1);
      CrashesGrow(n);
      CrashPassInHistory(base, settings, CrashPasses(base, settings, n - 1), T.Crashes(CRASHER, n - 1), 61 * (n - 1),
                         CrashPasses(base, settings, n), T.Crashes(CRASHER, n));
    }
  }

  function FiveHistory(): seq<H.BreakerOp> {
    T.Crashes(CRASHER, 4) + [H.ArmOp(T.CrashAt(CRASHER, 190))] + [H.UnholdOp] + [H.ArmOp(T.CrashAt(CRASHER, 244))]
  }

  lemma FivePassesInHistory(base: ContainerTick, settings: Settings)
    requires RealAndSilent(settings)
    ensures HasHistory(FivePasses(base, settings), FiveHistory())
  {
    var four, h := CrashPasses(base, settings, 4), T.Crashes(CRASHER, 4);
    var held, h' := four + [CrashPass(base, settings, 190)], h + [H.ArmOp(T.CrashAt(CRASHER, 190))];
    CrashPassesInHistory(base, settings, 4);
    CrashPassInHistory(base, settings, four, h, 190, held, h');
    UnholdInHistory(held, h');
    CrashPassInHistory(base, settings, held + [UnholdRun(CRASHER)], h' + [H.UnholdOp], 244,
                       FivePasses(base, settings), FiveHistory());
  }

  function Minutes(n: nat): seq<Time> {
    if n == 0 then [] else Minutes(n - 1) + [61 * (n - 1)]
  }

  lemma {:induction false} CrashInstants(n: nat)
    requires n <= 4
    ensures V.StartInstants(CRASHER, T.Crashes(CRASHER, n)) == Minutes(n)
  {
    if n > 0 {
      CrashInstants(n - 1);
      T.CrashesPush(CRASHER, n);
      T.CrashIsAStart(CRASHER, n);
    }
  }

  lemma OnlyTheSixthStarts(four: seq<H.BreakerOp>, fifth: H.BreakerOp, sixth: H.BreakerOp)
    requires T.CrashedTimes(H.Run(CRASHER, four), 4)
    requires fifth == H.ArmOp(T.CrashAt(CRASHER, 190)) && sixth == H.ArmOp(T.CrashAt(CRASHER, 244))
    ensures !T.StartsNow(CRASHER, four, fifth)
    ensures T.StartsNow(CRASHER, four + [fifth] + [H.UnholdOp], sixth)
  {
    T.UnholdAllowsAFifth(CRASHER, H.Run(CRASHER, four));
    V.RunPush(CRASHER, four, fifth);
    V.RunPush(CRASHER, four + [fifth], H.UnholdOp);
  }

  lemma InstantsOfTwo(four: seq<H.BreakerOp>, fifth: H.BreakerOp)
    requires !T.StartsNow(CRASHER, four, fifth)
    ensures V.StartInstants(CRASHER, four + [fifth] + [H.UnholdOp]) == V.StartInstants(CRASHER, four)
  {
    V.InstantsPush(CRASHER, four, fifth);
    V.InstantsPush(CRASHER, four + [fifth], H.UnholdOp);
  }

  lemma InstantsOfThree(four: seq<H.BreakerOp>, fifth: H.BreakerOp, sixth: H.BreakerOp)
    requires !T.StartsNow(CRASHER, four, fifth) && T.StartsNow(CRASHER, four + [fifth] + [H.UnholdOp], sixth)
    ensures V.StartInstants(CRASHER, four + [fifth] + [H.UnholdOp] + [sixth]) ==
            V.StartInstants(CRASHER, four) + [sixth.q.now]
  {
    InstantsOfTwo(four, fifth);
    V.InstantsPush(CRASHER, four + [fifth] + [H.UnholdOp], sixth);
  }

  lemma FiveInstants()
    ensures V.StartInstants(CRASHER, FiveHistory()) == Minutes(4) + [244]
  {
    var four := T.Crashes(CRASHER, 4);
    var fifth, sixth := H.ArmOp(T.CrashAt(CRASHER, 190)), H.ArmOp(T.CrashAt(CRASHER, 244));
    CrashInstants(4);
    T.CrashesRun(CRASHER, 4);
    OnlyTheSixthStarts(four, fifth, sixth);
    InstantsOfThree(four, fifth, sixth);
  }

  /** The calls of a run are the starts of its history. */
  lemma CallsFromHistory(run: seq<Happening>, h: seq<H.BreakerOp>)
    requires HasHistory(run, h)
    ensures V.CrashStarts(CRASHER, Calls(run)) == V.StartInstants(CRASHER, h)
  {
    CallsAreTheStarts(CRASHER, run);
    V.StartsAreInTheHistory(CRASHER, StepsOf(run));
  }

  lemma {:induction false} MinutesWithin(n: nat)
    requires n <= 4
    ensures V.Within(Minutes(n), 0, 300) == n
  {
    if n > 0 {
      MinutesWithin(n - 1);
      V.WithinPush(Minutes(n - 1), 61 * (n - 1), 0, 300);
    }
  }

  lemma CrashPassUnholdsNothing(
    base: ContainerTick, settings: Settings, run: seq<Happening>, at: Time, run': seq<Happening>)
    requires V.NoUnholdOf(CRASHER, StepsOf(run)) && run' == run + [CrashPass(base, settings, at)]
    ensures V.NoUnholdOf(CRASHER, StepsOf(run'))
  {
    StepsOfOneMoreCrash(base, settings, run, at);
  }

  /** Whatever a crash pass keeps true is true all through the crash passes. */
  lemma {:induction false} CrashPassesInduction(p: seq<Happening> -> bool, base: ContainerTick, settings: Settings, n: nat)
    requires p([]) && forall run, at :: p(run) ==> p(run + [CrashPass(base, settings, at)])
    ensures p(CrashPasses(base, settings, n))
  {
    if n > 0 {
      CrashPassesInduction(p, base, settings, n - 1);
    }
  }

  lemma CrashPassesUnholdNothing(base: ContainerTick, settings: Settings, n: nat)
    ensures V.NoUnholdOf(CRASHER, StepsOf(CrashPasses(base, settings, n)))
  {
    var p := (run: seq<Happening>) => V.NoUnholdOf(CRASHER, StepsOf(run));
    forall run, at | p(run) ensures p(run + [CrashPass(base, settings, at)]) {
      CrashPassUnholdsNothing(base, settings, run, at, run + [CrashPass(base, settings, at)]);
    }
    CrashPassesInduction(p, base, settings, n);
  }

  /** Four calls in five minutes without an unhold: passes at 0, 61, 122 and 183 seconds. */
  lemma FourStartCallsHappen(base: ContainerTick, settings: Settings)
    requires RealAndSilent(settings)
    ensures
      var run := CrashPasses(base, settings, 4);
      && Steady(CRASHER, [] + run) && V.NoUnholdOf(CRASHER, StepsOf(run))
      && V.Within(V.CrashStarts(CRASHER, Calls(run)), 0, 300) == 4
  {
    var run := CrashPasses(base, settings, 4);
    assert [] + run == run;
    CrashPassesInHistory(base, settings, 4);
    CrashPassesUnholdNothing(base, settings, 4);
    CallsFromHistory(run, T.Crashes(CRASHER, 4));
    CrashInstants(4);
    MinutesWithin(4);
  }

  lemma FiveHistoryAdvances()
    ensures H.ClockAdvances(FiveHistory())
  {
  }

  /** Five with one: after the fourth start a crash at 190 is held, unheld, and started again at 244. */
  lemma FiveStartCallsHappen(base: ContainerTick, settings: Settings)
    requires RealAndSilent(settings)
    ensures
      var run := FivePasses(base, settings);
      Steady(CRASHER, run) && V.Within(V.CrashStarts(CRASHER, Calls(run)), 0, 300) == 5
  {
    FivePassesInHistory(base, settings);
    FiveHistoryAdvances();
    CallsFromHistory(FivePasses(base, settings), FiveHistory());
    FiveInstants();
    MinutesWithin(4);
    V.WithinPush(Minutes(4), 244, 0, 300);
  }

  // ----- Wedge records and events -----------------------------------------------------------------

  /** Whether a visit probes its container for a wedge. */
  predicate Probes(t: ContainerTick, settings: Settings) {
    P.IsProbed(t.container, settings)
  }

  function ProbeOf(t: ContainerTick): R.WedgeStep {
    R.Observe(t.wedge.(container := t.container), t.wedgeFate)
  }

  /** What one visit means for one container's wedge record. */
  function WedgeStepsOfVisit(key: Key, t: ContainerTick, settings: Settings): seq<R.WedgeStep> {
    if t.container.RecordKey() == key && Probes(t, settings) then [ProbeOf(t)] else []
  }

  function WedgeStepsOfWalk(key: Key, ticks: seq<ContainerTick>, settings: Settings): seq<R.WedgeStep> {
    if ticks == [] then []
    else WedgeStepsOfWalk(key, Init(ticks), settings) + WedgeStepsOfVisit(key, Last(ticks), settings)
  }

  predicate CollectsWedge(listings: seq<Listing>, settings: Settings) {
    !settings.dryRun && AllListed(listings) && settings.hasDispatcher && settings.wedgeCollects
  }

  function WedgeCollectIf(collects: bool, live: bool): seq<R.WedgeStep> {
    if collects then [R.Collect(live)] else []
  }

  function WedgeStepsThen(key: Key, happening: Happening): seq<R.WedgeStep> {
    match happening
    case PassRun(listings, settings) =>
      WedgeStepsOfWalk(key, TicksOf(listings), settings)
      + WedgeCollectIf(CollectsWedge(listings, settings), key in LiveKeys(TicksOf(listings)))
    case UnholdRun(_) => []
  }

  /** Everything the passes did to one container's wedge record. */
  function WedgeStepsOn(key: Key, run: seq<Happening>): seq<R.WedgeStep> {
    if run == [] then [] else WedgeStepsOn(key, Init(run)) + WedgeStepsThen(key, Last(run))
  }

  /** The events about one container. */
  function About(key: Key, news: seq<W.WedgeEvent>): seq<W.WedgeEvent> {
    if news == [] then []
    else About(key, Init(news)) + if Last(news).key == key then [Last(news)] else []
  }

  lemma {:induction false} AboutConcat(key: Key, a: seq<W.WedgeEvent>, b: seq<W.WedgeEvent>)
    ensures About(key, a + b) == About(key, a) + About(key, b)
  {
    if b == [] {
      assert a + b == a;
    } else {
      AboutConcat(key, a, Init(b));
      assert Init(a + b) == a + Init(b);
    }
  }

  predicate AllAbout(k: Key, news: seq<W.WedgeEvent>) {
    forall i :: 0 <= i < |news| ==> news[i].key == k
  }

  lemma {:induction false} AboutOne(key: Key, k: Key, news: seq<W.WedgeEvent>)
    requires AllAbout(k, news)
    ensures About(key, news) == if k == key then news else []
  {
    if news != [] {
      AboutOne(key, k, Init(news));
      assert news == Init(news) + [news[|news| - 1]];
    }
  }

  /** A record and its tick belong to one container. */
  predicate KeyedBy(k: Key, s: Option<W.WedgeRecord>) {
    s.Some? ==> s.value.key == k
  }

  lemma ObservationIsKeyed(k: Key, s: Option<W.WedgeRecord>, t: W.WedgeTick)
    requires KeyedBy(k, s) && t.container.RecordKey() == k
    ensures
      var result := W.ProcessLiveness(s, t.observed, t.container, t.recoverer.Some?, t.now);
      KeyedBy(k, W.Applied(s, result.next)) && AllAbout(k, result.events)
  {
  }

  lemma AttemptIsKeyed(k: Key, r: W.WedgeRecord, t: W.WedgeTick, fate: W.Fate)
    requires r.key == k
    ensures KeyedBy(k, W.Tried(r, t, fate).0) && AllAbout(k, W.Tried(r, t, fate).1)
  {
  }

  lemma HandledIsKeyed(k: Key, s: Option<W.WedgeRecord>, t: W.WedgeTick, fate: W.Fate)
    requires KeyedBy(k, s) && t.container.RecordKey() == k
    ensures KeyedBy(k, W.Handled(s, t, fate).0) && AllAbout(k, W.Handled(s, t, fate).1)
  {
    ObservationIsKeyed(k, s, t);
    var next := W.ProcessLiveness(s, t.observed, t.container, t.recoverer.Some?, t.now).next;
    if next.AttemptRecovery? {
      AttemptIsKeyed(k, next.record, t, fate);
    }
  }

  /** What a visit does to the wedge store and says about it. */
  lemma VisitWedge(s: PassStores, t: ContainerTick, settings: Settings)
    ensures
      var o := HandleTick(s, t, settings);
      var handled := WedgeHandled(s.wedge, t);
      if Probes(t, settings)
      then o.stores.wedge == W.Updated(s.wedge, t.container.RecordKey(), handled.0) && o.wedgeEvents == handled.1
      else o.stores.wedge == s.wedge && o.wedgeEvents == []
  {
  }

  /** The record and events of one container, told from its own steps `h`. */
  predicate Follows(key: Key, h: seq<R.WedgeStep>, m: map<Key, W.WedgeRecord>, news: seq<W.WedgeEvent>) {
    Get(m, key) == R.After(h) && About(key, news) == R.Emitted(h)
  }

  lemma RunsPush(h: seq<R.WedgeStep>, step: R.WedgeStep)
    ensures R.After(h + [step]) == R.StepOnce(R.After(h), step).0
    ensures R.Emitted(h + [step]) == R.Emitted(h) + R.StepOnce(R.After(h), step).1
  {
    assert Init(h + [step]) == h;
  }

  lemma ProbeFollows(key: Key, h: seq<R.WedgeStep>, m: map<Key, W.WedgeRecord>, news: seq<W.WedgeEvent>, t: ContainerTick)
    requires Follows(key, h, m, news) && WellKeyed(W.KeyOf, m)
    ensures
      var k := t.container.RecordKey();
      var (record, events) := WedgeHandled(m, t);
      && WellKeyed(W.KeyOf, W.Updated(m, k, record))
      && Follows(key, if k == key then h + [ProbeOf(t)] else h, W.Updated(m, k, record), news + events)
  {
    var k := t.container.RecordKey();
    var (record, events) := WedgeHandled(m, t);
    HandledIsKeyed(k, Get(m, k), t.wedge.(container := t.container), t.wedgeFate);
    AboutConcat(key, news, events);
    AboutOne(key, k, events);
    if k == key {
      RunsPush(h, ProbeOf(t));
    } else {
      assert About(key, news) + [] == About(key, news);
    }
  }

  lemma VisitFollows(
    key: Key, h: seq<R.WedgeStep>, s: PassStores, news: seq<W.WedgeEvent>, t: ContainerTick, settings: Settings)
    requires Follows(key, h, s.wedge, news) && WellKeyed(W.KeyOf, s.wedge)
    ensures
      var o := HandleTick(s, t, settings);
      && WellKeyed(W.KeyOf, o.stores.wedge)
      && Follows(key, h + WedgeStepsOfVisit(key, t, settings), o.stores.wedge, news + o.wedgeEvents)
  {
    VisitWedge(s, t, settings);
    ProbeFollows(key, h, s.wedge, news, t);
    assert h + [] == h && news + [] == news;
  }

  /** One more container: what it adds to the steps of a walk. */
  lemma WalkStepsGrow(key: Key, h: seq<R.WedgeStep>, ticks: seq<ContainerTick>, settings: Settings)
    requires ticks != []
    ensures h + WedgeStepsOfWalk(key, ticks, settings) ==
            h + WedgeStepsOfWalk(key, Init(ticks), settings) + WedgeStepsOfVisit(key, Last(ticks), settings)
  {
  }

  /** And to its news. */
  lemma WalkNewsGrow(s: PassStores, news: seq<W.WedgeEvent>, ticks: seq<ContainerTick>, settings: Settings)
    requires ticks != []
    ensures
      var o := HandleTick(StoresAfter(s, Init(ticks), settings), Last(ticks), settings);
      news + WedgeNews(s, ticks, settings) == news + WedgeNews(s, Init(ticks), settings) + o.wedgeEvents
  {
  }

  lemma {:induction false} WalkFollows(
    key: Key, h: seq<R.WedgeStep>, s: PassStores, news: seq<W.WedgeEvent>, ticks: seq<ContainerTick>, settings: Settings)
    requires Follows(key, h, s.wedge, news) && WellKeyed(W.KeyOf, s.wedge)
    ensures WellKeyed(W.KeyOf, StoresAfter(s, ticks, settings).wedge)
    ensures Follows(key, h + WedgeStepsOfWalk(key, ticks, settings), StoresAfter(s, ticks, settings).wedge,
                    news + WedgeNews(s, ticks, settings))
  {
    if ticks == [] {
      assert h + [] == h && news + [] == news;
    } else {
      var was, t := Init(ticks), Last(ticks);
      WalkFollows(key, h, s, news, was, settings);
      var h', s', news' := h + WedgeStepsOfWalk(key, was, settings), StoresAfter(s, was, settings),
                           news + WedgeNews(s, was, settings);
      VisitFollows(key, h', s', news', t, settings);
      WalkStepsGrow(key, h, ticks, settings);
      WalkNewsGrow(s, news, ticks, settings);
    }
  }

  lemma CollectionFollows(
    key: Key, h: seq<R.WedgeStep>, m: map<Key, W.WedgeRecord>, news: seq<W.WedgeEvent>, collects: bool, live: set<Key>)
    requires Follows(key, h, m, news) && WellKeyed(W.KeyOf, m)
    ensures
      var m' := if collects then Retained(m, live, W.Actionable) else m;
      WellKeyed(W.KeyOf, m') && Follows(key, h + WedgeCollectIf(collects, key in live), m', news)
  {
    if collects {
      RunsPush(h, R.Collect(key in live));
      assert R.Emitted(h) + [] == R.Emitted(h);
    } else {
      assert h + [] == h;
    }
  }

  lemma FinalWedge(s: PassStores, listings: seq<Listing>, settings: Settings)
    ensures
      var walked := StoresAfter(s, TicksOf(listings), settings).wedge;
      FinalStores(s, listings, settings).wedge ==
      if CollectsWedge(listings, settings) then Retained(walked, LiveKeys(TicksOf(listings)), W.Actionable) else walked
  {
  }

  lemma WedgeStepsSplit(key: Key, h: seq<R.WedgeStep>, listings: seq<Listing>, settings: Settings)
    ensures h + WedgeStepsThen(key, PassRun(listings, settings)) ==
            h + WedgeStepsOfWalk(key, TicksOf(listings), settings)
            + WedgeCollectIf(CollectsWedge(listings, settings), key in LiveKeys(TicksOf(listings)))
  {
  }

  lemma PassFollows(
    key: Key, h: seq<R.WedgeStep>, s: PassStores, news: seq<W.WedgeEvent>, listings: seq<Listing>, settings: Settings)
    requires Follows(key, h, s.wedge, news) && WellKeyed(W.KeyOf, s.wedge)
    ensures WellKeyed(W.KeyOf, FinalStores(s, listings, settings).wedge)
    ensures Follows(key, h + WedgeStepsThen(key, PassRun(listings, settings)), FinalStores(s, listings, settings).wedge,
                    news + WedgeNews(s, TicksOf(listings), settings))
  {
    var ticks := TicksOf(listings);
    WalkFollows(key, h, s, news, ticks, settings);
    CollectionFollows(key, h + WedgeStepsOfWalk(key, ticks, settings), StoresAfter(s, ticks, settings).wedge,
                      news + WedgeNews(s, ticks, settings), CollectsWedge(listings, settings), LiveKeys(ticks));
    FinalWedge(s, listings, settings);
    WedgeStepsSplit(key, h, listings, settings);
  }

  lemma HappeningFollows(key: Key, h: seq<R.WedgeStep>, s: PassStores, news: seq<W.WedgeEvent>, happening: Happening)
    requires Follows(key, h, s.wedge, news) && WellKeyed(W.KeyOf, s.wedge)
    ensures WellKeyed(W.KeyOf, StoresThen(s, happening).wedge)
    ensures Follows(key, h + WedgeStepsThen(key, happening), StoresThen(s, happening).wedge, news + NewsOf(s, happening))
  {
    match happening
    case UnholdRun(_) =>
      assert h + [] == h && news + [] == news;
    case PassRun(listings, settings) =>
      PassFollows(key, h, s, news, listings, settings);
  }

  /**
   Through any passes over any fleet, whatever becomes of their reads and writes, one container's wedge
   record is the run of its own probes and collections, and the events about it are that run's events.
   */
  lemma {:induction false} WedgeRecordIsItsRun(key: Key, run: seq<Happening>)
    ensures WellKeyed(W.KeyOf, StoresNow(run).wedge)
    ensures Get(StoresNow(run).wedge, key) == R.After(WedgeStepsOn(key, run))
    ensures About(key, News(run)) == R.Emitted(WedgeStepsOn(key, run))
  {
    if run != [] {
      WedgeRecordIsItsRun(key, Init(run));
      HappeningFollows(key, WedgeStepsOn(key, Init(run)), StoresNow(Init(run)), News(Init(run)), Last(run));
    }
  }

  /**
   So the grammar holds of the events the passes emit: when every read and write of this container's
   record worked, its events split into complete words and the open word of the record now stored.
   */
  lemma PassesFollowTheGrammar(key: Key, run: seq<Happening>)
    requires R.Uninterrupted(WedgeStepsOn(key, run))
    ensures
      var (done, open) := R.Cut(WedgeStepsOn(key, run));
      var s := Get(StoresNow(run).wedge, key);
      && R.Concat(done) + open == About(key, News(run))
      && (forall i :: 0 <= i < |done| ==> R.CompleteWord(done[i]))
      && R.Word(open) == if s.Some? then R.OpenWord(s.value.recoveryAttempts, s.value.escalated) else []
  {
    WedgeRecordIsItsRun(key, run);
    R.CutIsAPartition(WedgeStepsOn(key, run));
    R.EventsFollowTheGrammar(WedgeStepsOn(key, run));
  }
}
