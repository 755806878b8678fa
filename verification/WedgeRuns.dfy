/**
 Whole runs of the wedge machine on one container: the grammar of its events, the attempt cap, the
 backoff, progress, and what an interruption costs.
 */
module WedgeRuns {
  import opened Prelude
  import opened ContainerRuntime
  import opened Wedge

  /** One step of a record's life: a tick, or a store garbage collection that did or did not see it. */
  datatype WedgeStep = Observe(tick: WedgeTick, fate: Fate) | Collect(live: bool)

  function StepOnce(s: Option<WedgeRecord>, step: WedgeStep): (Option<WedgeRecord>, seq<WedgeEvent>) {
    match step
    case Observe(t, fate) => Handled(s, t, fate)
    case Collect(live) => (if s.Some? && (live || Actionable(s.value)) then s else None, [])
  }

  function After(steps: seq<WedgeStep>): Option<WedgeRecord> {
    if steps == [] then None else StepOnce(After(Init(steps)), Last(steps)).0
  }

  function Emitted(steps: seq<WedgeStep>): seq<WedgeEvent> {
    if steps == [] then []
    else Emitted(Init(steps)) + StepOnce(After(Init(steps)), Last(steps)).1
  }

  /** This step announces a recovery attempt. */
  predicate Attempts(s: Option<WedgeRecord>, step: WedgeStep) {
    step.Observe? && !step.fate.Unreadable? &&
    ProcessLiveness(s, step.tick.observed, step.tick.container, step.tick.recoverer.Some?, step.tick.now).next.AttemptRecovery?
  }

  // ----- What every reachable record satisfies --------------------------------------------------

  /** At most three attempts, and the third failure has already escalated. */
  predicate Sound(r: WedgeRecord) {
    && r.recoveryAttempts <= MAX_RECOVERY_ATTEMPTS
    && (r.recoveryAttempts == MAX_RECOVERY_ATTEMPTS ==> r.escalated)
    && r.consecutiveWedgedTicks >= 1
    && r.firstWedgedAt.Some?
    && r.notifiedDetected
    && (r.recoveryAttempts > 0 <==> r.lastAttemptAt.Some?)
  }

  predicate SoundState(s: Option<WedgeRecord>) {
    s.Some? ==> Sound(s.value)
  }

  lemma ObservationKeepsSound(s: Option<WedgeRecord>, t: WedgeTick)
    requires SoundState(s)
    ensures
      var next := ProcessLiveness(s, t.observed, t.container, t.recoverer.Some?, t.now).next;
      && SoundState(Applied(s, next))
      && (next.AttemptRecovery? ==> next.record.recoveryAttempts < MAX_RECOVERY_ATTEMPTS && !next.record.escalated)
  {
  }

  lemma AttemptKeepsSound(r: WedgeRecord, t: WedgeTick, fate: Fate)
    requires Sound(r) && r.recoveryAttempts < MAX_RECOVERY_ATTEMPTS && !r.escalated
    ensures SoundState(Tried(r, t, fate).0)
  {
  }

  lemma StepKeepsSound(s: Option<WedgeRecord>, step: WedgeStep)
    requires SoundState(s)
    ensures SoundState(StepOnce(s, step).0)
  {
    if step.Observe? {
      var t := step.tick;
      ObservationKeepsSound(s, t);
      var next := ProcessLiveness(s, t.observed, t.container, t.recoverer.Some?, t.now).next;
      if next.AttemptRecovery? {
        AttemptKeepsSound(next.record, t, step.fate);
      }
    }
  }

  /** Cap: also under interruptions, the counter never passes three and at three it has escalated. */
  lemma {:induction false} ReachableIsSound(steps: seq<WedgeStep>)
    ensures SoundState(After(steps))
  {
    if steps != [] {
      ReachableIsSound(Init(steps));
      StepKeepsSound(After(Init(steps)), Last(steps));
    }
  }

  /** The cap branch of a wedged observation is dead code: an un-escalated record is below the cap. */
  lemma CapBranchIsUnreachable(steps: seq<WedgeStep>, c: Container, now: Time)
    ensures
      var r := Upserted(After(steps), c, now);
      r.escalated || r.recoveryAttempts < MAX_RECOVERY_ATTEMPTS
  {
    ReachableIsSound(steps);
  }

  // ----- Grammar --------------------------------------------------------------------------------

  /** The letters of the event language: kind and number, payload text dropped. */
  datatype Letter = D | A(n: nat) | F(n: nat) | S(n: nat) | U(n: nat) | R(n: nat)

  function Spell(e: WedgeEvent): Letter {
    match e.news
    case Detected(_) => D
    case Attempted(n) => A(n)
    case Succeeded(n, _) => S(n)
    case Failed(n, _) => F(n)
    case Unrecoverable(n, _) => U(n)
    case Recovered(n, _) => R(n)
  }

  function Word(es: seq<WedgeEvent>): (w: seq<Letter>)
    ensures |w| == |es|
  {
    seq(|es|, i requires 0 <= i < |es| => Spell(es[i]))
  }

  /** Attempted 1, Failed 1, ..., Attempted m, Failed m. */
  function Tries(m: nat): seq<Letter> {
    if m == 0 then [] else Tries(m - 1) + [A(m), F(m)]
  }

  /** The word of a lifetime still going on, after `m` failed attempts. */
  function OpenWord(m: nat, escalated: bool): seq<Letter> {
    [D] + Tries(m) + if escalated then [U(m)] else []
  }

  datatype Ending = BySuccess | ByLive | ByCollection

  datatype Lifetime = Lifetime(events: seq<WedgeEvent>, ending: Ending)

  /** The complete words: what a whole lifetime may say, by the way it ends. */
  predicate WordEndingAfter(w: seq<Letter>, ending: Ending, m: nat, escalated: bool) {
    && m <= MAX_RECOVERY_ATTEMPTS && (m == MAX_RECOVERY_ATTEMPTS ==> escalated)
    && match ending
       case BySuccess => !escalated && w == OpenWord(m, false) + [A(m + 1), S(m + 1)]
       case ByLive => w == OpenWord(m, escalated) + if m >= 1 then [R(m)] else []
       case ByCollection => !escalated && w == OpenWord(m, false)
  }

  ghost predicate CompleteWord(l: Lifetime) {
    exists m: nat, escalated: bool :: WordEndingAfter(Word(l.events), l.ending, m, escalated)
  }

  function EndingOf(step: WedgeStep): Ending {
    match step
    case Collect(_) => ByCollection
    case Observe(t, _) => if t.observed.Live? then ByLive else BySuccess
  }

  /** Cuts a run's events at every point where the record disappears. */
  function Cut(steps: seq<WedgeStep>): (seq<Lifetime>, seq<WedgeEvent>) {
    if steps == [] then ([], [])
    else
      var (done, open) := Cut(Init(steps));
      var s := After(Init(steps));
      var (s', es) := StepOnce(s, Last(steps));
      CutStep(done, open + es, s.Some? && s'.None?, EndingOf(Last(steps)))
  }

  function CutStep(done: seq<Lifetime>, open: seq<WedgeEvent>, ends: bool, ending: Ending)
    : (seq<Lifetime>, seq<WedgeEvent>)
  {
    if ends then (done + [Lifetime(open, ending)], []) else (done, open)
  }

  function Concat(ls: seq<Lifetime>): seq<WedgeEvent> {
    if ls == [] then [] else Concat(Init(ls)) + Last(ls).events
  }

  predicate Uninterrupted(steps: seq<WedgeStep>) {
    forall i :: 0 <= i < |steps| && steps[i].Observe? ==> steps[i].fate.Written?
  }

  lemma WordConcat(a: seq<WedgeEvent>, b: seq<WedgeEvent>)
    ensures Word(a + b) == Word(a) + Word(b)
  {
  }

  /** An attempt that runs to its outcome either succeeds or leaves a failure, escalating the third. */
  lemma LettersOfAttempt(r: WedgeRecord, t: WedgeTick)
    requires r.recoveryAttempts < 3 && !r.escalated && t.recoverer.Some?
    ensures
      var m := r.recoveryAttempts;
      var (s', es) := Tried(r, t, Written);
      && (s'.None? ==> Word(es) == [S(m + 1)])
      && (s'.Some? ==>
            && s'.value.recoveryAttempts == m + 1 && s'.value.escalated == (m + 1 == 3)
            && Word(es) == [F(m + 1)] + if m + 1 == 3 then [U(3)] else [])
  {
  }

  /** What a move from `s` to `s'` may say. */
  predicate SaysWhatHappened(s: Option<WedgeRecord>, s': Option<WedgeRecord>, ending: Ending, es: seq<WedgeEvent>) {
    && (s.None? && s'.None? ==> es == [])
    && (s.None? && s'.Some? ==> Word(es) == [D] && s'.value.recoveryAttempts == 0 && !s'.value.escalated)
    && (s.Some? && s'.Some? ==> KeepsGoing(s.value, s'.value, Word(es)))
    && (s.Some? && s'.None? ==> Finishes(s.value, ending, Word(es)))
  }

  lemma LettersOfObservation(s: Option<WedgeRecord>, t: WedgeTick, step: WedgeStep)
    requires SoundState(s) && step == Observe(t, Written)
    ensures
      var result := ProcessLiveness(s, t.observed, t.container, t.recoverer.Some?, t.now);
      if result.next.AttemptRecovery? then
        && s.Some? && !s.value.escalated && t.recoverer.Some? && !t.observed.Live?
        && result.next.record.recoveryAttempts == s.value.recoveryAttempts < 3 && !result.next.record.escalated
        && Word(result.events) == [A(s.value.recoveryAttempts + 1)]
      else SaysWhatHappened(s, Applied(s, result.next), EndingOf(step), result.events)
  {
  }

  /** The letters one uninterrupted step adds, by what happened to the record. */
  lemma LettersOfStep(s: Option<WedgeRecord>, step: WedgeStep)
    requires SoundState(s) && (step.Observe? ==> step.fate.Written?)
    ensures SaysWhatHappened(s, StepOnce(s, step).0, EndingOf(step), StepOnce(s, step).1)
  {
    if step.Observe? {
      var t := step.tick;
      LettersOfObservation(s, t, step);
      var result := ProcessLiveness(s, t.observed, t.container, t.recoverer.Some?, t.now);
      if result.next.AttemptRecovery? {
        LettersOfAttempt(result.next.record, t);
        WordConcat(result.events, Tried(result.next.record, t, Written).1);
      }
    }
  }

  /** Letters between two states of one record: nothing, an escalation, or a failed attempt. */
  predicate KeepsGoing(r: WedgeRecord, r': WedgeRecord, w: seq<Letter>) {
    var m := r.recoveryAttempts;
    || (r'.recoveryAttempts == m && r'.escalated == r.escalated && w == [])
    || (r'.recoveryAttempts == m && !r.escalated && r'.escalated && w == [U(m)])
    || (r'.recoveryAttempts == m + 1 && !r.escalated && m < 3 && r'.escalated == (m + 1 == 3)
        && w == [A(m + 1), F(m + 1)] + if m + 1 == 3 then [U(3)] else [])
  }

  predicate Finishes(r: WedgeRecord, ending: Ending, w: seq<Letter>) {
    var m := r.recoveryAttempts;
    match ending
    case BySuccess => !r.escalated && m < 3 && w == [A(m + 1), S(m + 1)]
    case ByLive => w == if m >= 1 then [R(m)] else []
    case ByCollection => !r.escalated && w == []
  }

  lemma OpenWordGrows(r: WedgeRecord, r': WedgeRecord, w: seq<Letter>)
    requires Sound(r) && KeepsGoing(r, r', w)
    ensures OpenWord(r.recoveryAttempts, r.escalated) + w == OpenWord(r'.recoveryAttempts, r'.escalated)
  {
    var m := r.recoveryAttempts;
    if r'.recoveryAttempts == m + 1 {
      assert Tries(m + 1) == Tries(m) + [A(m + 1), F(m + 1)];
    }
  }

  /**
   Event grammar. In every uninterrupted run each finished lifetime spells a complete word, and the
   lifetime still open spells Detected, its failed attempts in order, and Unrecoverable once it has
   escalated.
   */
  lemma {:induction false} EventsFollowTheGrammar(steps: seq<WedgeStep>)
    requires Uninterrupted(steps)
    ensures forall i :: 0 <= i < |Cut(steps).0| ==> CompleteWord(Cut(steps).0[i])
    ensures After(steps).None? ==> Cut(steps).1 == []
    ensures After(steps).Some? ==>
              Word(Cut(steps).1) == OpenWord(After(steps).value.recoveryAttempts, After(steps).value.escalated)
  {
    if steps != [] {
      var was := Init(steps);
      assert Last(steps) == steps[|steps| - 1];
      EventsFollowTheGrammar(was);
      ReachableIsSound(was);
      GrammarStep(Cut(was).1, After(was), Last(steps));
    }
  }

  lemma GrammarStep(open: seq<WedgeEvent>, s: Option<WedgeRecord>, step: WedgeStep)
    requires SoundState(s) && (step.Observe? ==> step.fate.Written?)
    requires if s.None? then open == [] else Word(open) == OpenWord(s.value.recoveryAttempts, s.value.escalated)
    ensures
      var (s', es) := StepOnce(s, step);
      && (s.None? && s'.None? ==> open + es == [])
      && (s'.Some? ==> Word(open + es) == OpenWord(s'.value.recoveryAttempts, s'.value.escalated))
      && (s.Some? && s'.None? ==> CompleteWord(Lifetime(open + es, EndingOf(step))))
  {
    var (s', es) := StepOnce(s, step);
    LettersOfStep(s, step);
    WordConcat(open, es);
    if s.Some? && s'.Some? {
      OpenWordGrows(s.value, s'.value, Word(es));
    } else if s.Some? {
      var m := s.value.recoveryAttempts;
      assert OpenWord(m, s.value.escalated) + [] == OpenWord(m, s.value.escalated);
      assert WordEndingAfter(Word(open + es), EndingOf(step), m, s.value.escalated);
    } else if s'.Some? {
      assert Tries(0) == [];
    }
  }

  lemma CutStepLosesNothing(done: seq<Lifetime>, open: seq<WedgeEvent>, ends: bool, ending: Ending)
    ensures
      var (done', open') := CutStep(done, open, ends, ending);
      Concat(done') + open' == Concat(done) + open
  {
    var ended := Lifetime(open, ending);
    assert Init(done + [ended]) == done;
    assert Concat(done + [ended]) == Concat(done) + open;
  }

  lemma Extend(whole: seq<WedgeEvent>, done: seq<Lifetime>, open: seq<WedgeEvent>, es: seq<WedgeEvent>,
               ends: bool, ending: Ending)
    requires Concat(done) + open == whole
    ensures
      var (done', open') := CutStep(done, open + es, ends, ending);
      Concat(done') + open' == whole + es
  {
    CutStepLosesNothing(done, open + es, ends, ending);
    assert (Concat(done) + open) + es == Concat(done) + (open + es);
  }

  /** The cut loses nothing: the lifetimes and the open tail are the events, in order. */
  lemma {:induction false} CutIsAPartition(steps: seq<WedgeStep>)
    ensures Concat(Cut(steps).0) + Cut(steps).1 == Emitted(steps)
  {
    if steps != [] {
      var was := Init(steps);
      CutIsAPartition(was);
      var (s', es) := StepOnce(After(was), Last(steps));
      Extend(Emitted(was), Cut(was).0, Cut(was).1, es, After(was).Some? && s'.None?, EndingOf(Last(steps)));
    }
  }

  // ----- What the events say --------------------------------------------------------------------

  /** When the lifetime that is open after `steps` began. */
  function StreakStart(steps: seq<WedgeStep>): Time {
    if steps == [] then 0
    else if After(Init(steps)).None? && Last(steps).Observe? then Last(steps).tick.now
    else StreakStart(Init(steps))
  }

  predicate AllFor(key: Key, steps: seq<WedgeStep>) {
    forall i :: 0 <= i < |steps| && steps[i].Observe? ==> steps[i].tick.container.RecordKey() == key
  }

  /** The record, if any, is this container's and began at `start`. */
  predicate BeganAt(s: Option<WedgeRecord>, key: Key, start: Time) {
    s.Some? ==> s.value.key == key && s.value.firstWedgedAt == Some(start)
  }

  lemma ObservationKeepsStreak(s: Option<WedgeRecord>, t: WedgeTick, key: Key, start: Time)
    requires BeganAt(s, key, start) && t.container.RecordKey() == key && (s.None? ==> start == t.now)
    ensures BeganAt(Applied(s, ProcessLiveness(s, t.observed, t.container, t.recoverer.Some?, t.now).next), key, start)
  {
  }

  lemma AttemptKeepsStreak(r: WedgeRecord, t: WedgeTick, fate: Fate, key: Key, start: Time)
    requires BeganAt(Some(r), key, start)
    ensures BeganAt(Tried(r, t, fate).0, key, start)
  {
  }

  lemma StepKeepsStreak(s: Option<WedgeRecord>, step: WedgeStep, key: Key, start: Time)
    requires BeganAt(s, key, start) && (step.Observe? ==> step.tick.container.RecordKey() == key)
    requires s.None? && step.Observe? ==> start == step.tick.now
    ensures BeganAt(StepOnce(s, step).0, key, start)
  {
    if step.Observe? {
      ObservationKeepsStreak(s, step.tick, key, start);
      if Attempts(s, step) {
        var t := step.tick;
        var next := ProcessLiveness(s, t.observed, t.container, t.recoverer.Some?, t.now).next;
        AttemptKeepsStreak(next.record, t, step.fate, key, start);
      }
    }
  }

  lemma {:induction false} RecordRemembersStreak(key: Key, steps: seq<WedgeStep>)
    requires AllFor(key, steps)
    ensures BeganAt(After(steps), key, StreakStart(steps))
  {
    if steps != [] {
      RecordRemembersStreak(key, Init(steps));
      assert Last(steps) == steps[|steps| - 1];
      StepKeepsStreak(After(Init(steps)), Last(steps), key, StreakStart(steps));
    }
  }

  /** An event of this container, with the true start or length of the streak. */
  predicate TellsTheTruth(e: WedgeEvent, key: Key, t: WedgeTick, start: Time) {
    && e.key == key && e.containerName == t.container.name
    && match e.news
       case Detected(first) => first == start
       case Unrecoverable(_, first) => first == start
       case Recovered(_, duration) => duration == t.now - start
       case Succeeded(_, duration) => duration == t.after - start
       case Attempted(_) => true
       case Failed(_, error) =>
         if t.recoverer.Some? && t.recoverer.value.CallErr? then error == t.recoverer.value.message else error == STILL_WEDGED
  }

  lemma AttemptTellsTheTruth(r: WedgeRecord, t: WedgeTick, fate: Fate, key: Key, start: Time)
    requires r.key == key && r.firstWedgedAt == Some(start) && t.recoverer.Some?
    ensures forall e :: e in Tried(r, t, fate).1 ==> TellsTheTruth(e, key, t, start)
  {
  }

  lemma ObservationTellsTheTruth(s: Option<WedgeRecord>, t: WedgeTick, key: Key, start: Time)
    requires BeganAt(s, key, start) && t.container.RecordKey() == key && (s.None? ==> start == t.now)
    ensures
      var result := ProcessLiveness(s, t.observed, t.container, t.recoverer.Some?, t.now);
      && (forall e :: e in result.events ==> TellsTheTruth(e, key, t, start))
      && (result.next.AttemptRecovery? ==>
            result.next.record.key == key && result.next.record.firstWedgedAt == Some(start) && t.recoverer.Some?)
  {
  }

  /** Every event names its container and reports when its own streak began or how long it lasted. */
  lemma EventsTellTheTruth(key: Key, steps: seq<WedgeStep>)
    requires AllFor(key, steps) && steps != [] && Last(steps).Observe?
    ensures forall e :: e in StepOnce(After(Init(steps)), Last(steps)).1 ==>
                          TellsTheTruth(e, key, Last(steps).tick, StreakStart(steps))
  {
    var s, t, start := After(Init(steps)), Last(steps).tick, StreakStart(steps);
    RecordRemembersStreak(key, Init(steps));
    assert Last(steps) == steps[|steps| - 1];
    ObservationTellsTheTruth(s, t, key, start);
    var result := ProcessLiveness(s, t.observed, t.container, t.recoverer.Some?, t.now);
    if result.next.AttemptRecovery? {
      AttemptTellsTheTruth(result.next.record, t, Last(steps).fate, key, start);
    }
  }

  /**
   The opt-out: with the manual label or without a recoverer a tracked container is never touched,
   and the next wedged tick escalates it.
   */
  lemma OptOutOnlyEscalates(steps: seq<WedgeStep>, step: WedgeStep)
    requires step.Observe? && step.tick.observed.Wedged?
    requires ("orca.unwedge", "manual") in step.tick.container.labels || step.tick.recoverer.None?
    ensures !Attempts(After(steps), step)
    ensures After(steps).Some? && step.fate.Lands() ==> StepOnce(After(steps), step).0.Some? && StepOnce(After(steps), step).0.value.escalated
    ensures After(steps).Some? && !After(steps).value.escalated && !step.fate.Unreadable? ==>
              Word(StepOnce(After(steps), step).1) == [U(After(steps).value.recoveryAttempts)]
  {
    ReachableIsSound(steps);
  }

  // ----- When an attempt is made, and when it succeeds --------------------------------------------

  /**
   A tick attempts a recovery exactly when it sees a tracked, un-escalated container wedged that may be
   touched and can be recovered, a minute or more after the last attempt written down.
   */
  lemma AttemptsIff(steps: seq<WedgeStep>, step: WedgeStep)
    requires step.Observe?
    ensures
      var s, t := After(steps), step.tick;
      Attempts(s, step) <==>
      && !step.fate.Unreadable? && t.observed.Wedged? && s.Some? && !s.value.escalated
      && ("orca.unwedge", "manual") !in t.container.labels && t.recoverer.Some?
      && (s.value.lastAttemptAt.Some? ==> t.now >= s.value.lastAttemptAt.value + 60)
  {
    ReachableIsSound(steps);
  }

  ghost predicate Says(es: seq<WedgeEvent>, news: WedgeNews) {
    exists i :: 0 <= i < |es| && es[i].news == news
  }

  ghost predicate SaysSucceeded(es: seq<WedgeEvent>) {
    exists i :: 0 <= i < |es| && es[i].news.Succeeded?
  }

  ghost predicate SaysFailed(es: seq<WedgeEvent>) {
    exists i :: 0 <= i < |es| && es[i].news.Failed?
  }

  /** Events without an outcome in front of others do not change what outcome is told. */
  lemma OutcomeOfConcat(a: seq<WedgeEvent>, b: seq<WedgeEvent>)
    requires !SaysSucceeded(a) && !SaysFailed(a)
    ensures SaysSucceeded(a + b) <==> SaysSucceeded(b)
    ensures SaysFailed(a + b) <==> SaysFailed(b)
    ensures forall news :: Says(b, news) ==> Says(a + b, news)
  {
    assert forall i :: 0 <= i < |b| ==> (a + b)[i + |a|] == b[i];
  }

  /** The attempt ran and was reported, whatever then became of its write. */
  predicate Reported(fate: Fate) {
    fate.Written? || fate.OutcomeLost?
  }

  /** The recoverer's call worked and the probe after it found the container live. */
  predicate CameBack(t: WedgeTick) {
    t.recoverer == Some(CallOk) && t.postProbe.Live?
  }

  /** What a failed attempt is blamed on. */
  function Blame(t: WedgeTick): string {
    if t.recoverer.Some? && t.recoverer.value.CallErr? then t.recoverer.value.message else "post-attempt still wedged"
  }

  lemma ReportOfAttempt(r: WedgeRecord, t: WedgeTick, fate: Fate)
    requires t.recoverer.Some? && r.recoveryAttempts < 3
    ensures
      var (s', es) := Tried(r, t, fate);
      && (fate.Died? ==> es == [])
      && (!fate.Died? && CameBack(t) ==> |es| == 1 && es[0].news.Succeeded?)
      && (!fate.Died? && !CameBack(t) ==>
            1 <= |es| <= 2 && es[0].news == Failed(r.recoveryAttempts + 1, Blame(t)) && (|es| == 2 ==> es[1].news.Unrecoverable?))
  {
  }

  /** The record an attempt leaves in the file when all its writes worked. */
  lemma RecordOfAttempt(r: WedgeRecord, t: WedgeTick)
    requires t.recoverer.Some? && r.recoveryAttempts < 3 && !r.escalated
    ensures
      var s' := Tried(r, t, Written).0;
      && (CameBack(t) <==> s'.None?)
      && (s'.Some? ==>
            s'.value == r.(recoveryAttempts := r.recoveryAttempts + 1, lastAttemptAt := Some(t.after),
                           lastAttemptOutcome := Some(RecoveryFailed(Blame(t))), escalated := r.recoveryAttempts == 2))
  {
  }

  lemma ObservationSaysNoOutcome(s: Option<WedgeRecord>, t: WedgeTick)
    ensures
      var result := ProcessLiveness(s, t.observed, t.container, t.recoverer.Some?, t.now);
      && !SaysSucceeded(result.events) && !SaysFailed(result.events)
      && (result.next.AttemptRecovery? ==>
            t.recoverer.Some? && s.Some? && result.next.record.recoveryAttempts == s.value.recoveryAttempts)
  {
  }

  lemma OutcomeOfAttempt(r: WedgeRecord, t: WedgeTick, fate: Fate)
    requires t.recoverer.Some? && r.recoveryAttempts < 3 && fate.Lands()
    ensures
      var es := Tried(r, t, fate).1;
      && (SaysSucceeded(es) <==> Reported(fate) && CameBack(t))
      && (SaysFailed(es) <==> Reported(fate) && !CameBack(t))
      && (Reported(fate) && !CameBack(t) ==> Says(es, Failed(r.recoveryAttempts + 1, Blame(t))))
  {
    ReportOfAttempt(r, t, fate);
  }

  lemma OutcomeOfAct(s: Option<WedgeRecord>, result: ObservationResult, t: WedgeTick, fate: Fate)
    requires !fate.Unreadable? && !SaysSucceeded(result.events) && !SaysFailed(result.events)
    requires result.next.AttemptRecovery? ==> t.recoverer.Some? && result.next.record.recoveryAttempts < 3
    ensures
      var es, tries := ActedOn(s, result, t, fate).1, result.next.AttemptRecovery?;
      && (SaysSucceeded(es) <==> tries && Reported(fate) && CameBack(t))
      && (SaysFailed(es) <==> tries && Reported(fate) && !CameBack(t))
      && (tries && Reported(fate) && !CameBack(t) ==>
            Says(es, Failed(result.next.record.recoveryAttempts + 1, Blame(t))))
  {
    if result.next.AttemptRecovery? && fate.Lands() {
      OutcomeOfAttempt(result.next.record, t, fate);
      OutcomeOfConcat(result.events, Tried(result.next.record, t, fate).1);
    }
  }

  /**
   Success is what the probe saw. In every run and whatever becomes of reads and writes, a step says
   Succeeded exactly when it attempts, the attempt is reported, the recoverer's call worked and the probe
   after it was Live; it says Failed exactly when it attempts, is reported, and that was not so.
   */
  lemma SuccessIsWhatTheProbeSaw(steps: seq<WedgeStep>, step: WedgeStep)
    requires step.Observe?
    ensures
      var s, t := After(steps), step.tick;
      var es := StepOnce(s, step).1;
      && (SaysSucceeded(es) <==> Attempts(s, step) && Reported(step.fate) && CameBack(t))
      && (SaysFailed(es) <==> Attempts(s, step) && Reported(step.fate) && !CameBack(t))
      && (Attempts(s, step) && Reported(step.fate) && !CameBack(t) ==>
            s.Some? && Says(es, Failed(s.value.recoveryAttempts + 1, Blame(t))))
  {
    var s, t := After(steps), step.tick;
    ReachableIsSound(steps);
    ObservationSaysNoOutcome(s, t);
    ObservationKeepsSound(s, t);
    if !step.fate.Unreadable? {
      OutcomeOfAct(s, ProcessLiveness(s, t.observed, t.container, t.recoverer.Some?, t.now), t, step.fate);
    }
  }

  /** And so is the end of the record: written attempts end it exactly when the container came back. */
  lemma AttemptEndsTheRecordIff(steps: seq<WedgeStep>, step: WedgeStep)
    requires step.Observe? && step.fate.Written? && Attempts(After(steps), step)
    ensures
      var s, t := After(steps), step.tick;
      var s' := StepOnce(s, step).0;
      && (s'.None? <==> CameBack(t))
      && (s'.Some? ==>
            && s'.value.recoveryAttempts == s.value.recoveryAttempts + 1 && s'.value.lastAttemptAt == Some(t.after)
            && s'.value.lastAttemptOutcome == Some(RecoveryFailed(Blame(t)))
            && s'.value.escalated == (s.value.recoveryAttempts == 2))
  {
    var s, t := After(steps), step.tick;
    ReachableIsSound(steps);
    ObservationKeepsSound(s, t);
    ObservationSaysNoOutcome(s, t);
    RecordOfAttempt(ProcessLiveness(s, t.observed, t.container, t.recoverer.Some?, t.now).next.record, t);
  }

  /** Wedged ticks of the lifetime that is open after `steps`. */
  function WedgedTicks(steps: seq<WedgeStep>): nat {
    if steps == [] || After(steps).None? then 0
    else WedgedTicks(Init(steps))
         + if Last(steps).Observe? && Last(steps).tick.observed.Wedged? && Last(steps).fate.Lands() then 1 else 0
  }

  lemma TicksStep(s: Option<WedgeRecord>, step: WedgeStep)
    requires StepOnce(s, step).0.Some?
    ensures
      var was := if s.Some? then s.value.consecutiveWedgedTicks else 0;
      StepOnce(s, step).0.value.consecutiveWedgedTicks ==
      if step.Observe? && step.tick.observed.Wedged? && step.fate.Lands() && was < 0xFFFF_FFFF then was + 1 else was
  {
  }

  /** The streak counter counts them, up to what 32 bits hold. */
  lemma {:induction false} TicksAreCounted(steps: seq<WedgeStep>)
    ensures After(steps).Some? ==>
              After(steps).value.consecutiveWedgedTicks ==
              if WedgedTicks(steps) < 0xFFFF_FFFF then WedgedTicks(steps) else 0xFFFF_FFFF
  {
    if steps != [] && After(steps).Some? {
      TicksAreCounted(Init(steps));
      TicksStep(After(Init(steps)), Last(steps));
    }
  }

  // ----- No signal changes nothing --------------------------------------------------------------

  predicate NoSignal(step: WedgeStep) {
    step.Observe? && (step.tick.observed.NotApplicable? || step.tick.observed.Unknown?)
  }

  function Erase(steps: seq<WedgeStep>): seq<WedgeStep> {
    if steps == [] then []
    else if NoSignal(Last(steps)) then Erase(Init(steps))
    else Erase(Init(steps)) + [Last(steps)]
  }

  lemma NoSignalStep(s: Option<WedgeRecord>, step: WedgeStep)
    requires NoSignal(step)
    ensures StepOnce(s, step) == (s, [])
  {
  }

  /** Erasing every Unknown and NotApplicable observation changes neither record nor events. */
  lemma {:induction false} NoSignalIsInvisible(steps: seq<WedgeStep>)
    ensures After(Erase(steps)) == After(steps)
    ensures Emitted(Erase(steps)) == Emitted(steps)
  {
    if steps != [] {
      NoSignalIsInvisible(Init(steps));
      if !NoSignal(Last(steps)) {
        assert Init(Erase(steps)) == Erase(Init(steps));
      } else {
        NoSignalStep(After(Init(steps)), Last(steps));
        assert Emitted(Init(steps)) + [] == Emitted(Init(steps));
      }
    }
  }

  // ----- Backoff --------------------------------------------------------------------------------

  /** When the latest attempt of the current lifetime whose outcome was written returned. */
  function LastOutcome(steps: seq<WedgeStep>): Option<Time> {
    if steps == [] || After(steps).None? then None
    else if Attempts(After(Init(steps)), Last(steps)) && Last(steps).fate.Written? then Some(Last(steps).tick.after)
    else LastOutcome(Init(steps))
  }

  /** The stamp a step leaves: the outcome of a completed attempt, else the one it found. */
  lemma StampStep(s: Option<WedgeRecord>, step: WedgeStep)
    ensures StepOnce(s, step).0.Some? ==>
              StepOnce(s, step).0.value.lastAttemptAt ==
              if Attempts(s, step) && step.fate.Written? then Some(step.tick.after)
              else if s.Some? then s.value.lastAttemptAt
              else None
  {
  }

  lemma {:induction false} RecordStampsLastOutcome(steps: seq<WedgeStep>)
    ensures After(steps).Some? ==> After(steps).value.lastAttemptAt == LastOutcome(steps)
    ensures After(steps).None? ==> LastOutcome(steps).None?
  {
    if steps != [] {
      RecordStampsLastOutcome(Init(steps));
      StampStep(After(Init(steps)), Last(steps));
    }
  }

  /** Every attempt after the first comes at least a minute after the previous attempt's outcome. */
  lemma AttemptsBackOff(steps: seq<WedgeStep>)
    requires steps != [] && Attempts(After(Init(steps)), Last(steps)) && LastOutcome(Init(steps)).Some?
    ensures Last(steps).tick.now >= LastOutcome(Init(steps)).value + 60
  {
    RecordStampsLastOutcome(Init(steps));
  }

  // ----- Progress -------------------------------------------------------------------------------

  /** A wedged tick made a full backoff after the last outcome, and not interrupted. */
  predicate Presses(s: Option<WedgeRecord>, step: WedgeStep) {
    step.Observe? && step.fate.Written? && step.tick.observed.Wedged? &&
    (s.Some? && s.value.lastAttemptAt.Some? ==>
       step.tick.now >= s.value.lastAttemptAt.value + 60)
  }

  predicate Settled(s: Option<WedgeRecord>) {
    s.None? || s.value.escalated
  }

  /** Attempts still allowed, plus the tick that opens the record. */
  function Patience(s: Option<WedgeRecord>): nat
    requires SoundState(s)
  {
    if s.None? then 4 else 3 - s.value.recoveryAttempts
  }

  /** Whatever the labels, the recoverer and the outcome, a pressing tick settles or uses up patience. */
  lemma PressingMakesProgress(s: Option<WedgeRecord>, step: WedgeStep)
    requires SoundState(s) && Presses(s, step) && (s.Some? ==> !s.value.escalated)
    ensures SoundState(StepOnce(s, step).0)
    ensures s.Some? ==> Settled(StepOnce(s, step).0) || Patience(StepOnce(s, step).0) < Patience(s)
    ensures s.None? ==> StepOnce(s, step).0.Some? && Patience(StepOnce(s, step).0) < Patience(s)
  {
    StepKeepsSound(s, step);
  }

  function Fold(s: Option<WedgeRecord>, steps: seq<WedgeStep>): Option<WedgeRecord>
    decreases |steps|
  {
    if steps == [] then s else Fold(StepOnce(s, steps[0]).0, steps[1..])
  }

  predicate AllPress(s: Option<WedgeRecord>, steps: seq<WedgeStep>)
    decreases |steps|
  {
    steps == [] || (Presses(s, steps[0]) && AllPress(StepOnce(s, steps[0]).0, steps[1..]))
  }

  /** After at most `Patience` pressing ticks some moment is settled. */
  lemma {:induction false} PressingSettles(s: Option<WedgeRecord>, steps: seq<WedgeStep>) returns (k: nat)
    requires SoundState(s) && AllPress(s, steps) && |steps| >= Patience(s) > 0
    requires s.Some? ==> !s.value.escalated
    ensures 1 <= k <= Patience(s) && Settled(Fold(s, steps[..k]))
    decreases |steps|
  {
    var s' := StepOnce(s, steps[0]).0;
    PressingMakesProgress(s, steps[0]);
    if Settled(s') {
      k := 1;
      assert steps[..1] == [steps[0]];
      assert Fold(s', []) == s';
      assert steps[..1][1..] == [];
    } else {
      var k' := PressingSettles(s', steps[1..]);
      k := k' + 1;
      assert steps[..k][1..] == steps[1..][..k'];
    }
  }

  /**
   Four wedged observations, each a full backoff after the last outcome, always pass through a state
   that is escalated or deleted, from whatever reachable state they start.
   */
  lemma FourPressesSettle(before: seq<WedgeStep>, steps: seq<WedgeStep>)
    requires |steps| == 4 && AllPress(After(before), steps)
    ensures exists k: nat :: k <= 4 && Settled(Fold(After(before), steps[..k])) && (After(before).None? ==> k >= 1)
  {
    ReachableIsSound(before);
    var s := After(before);
    if s.Some? && s.value.escalated {
      assert steps[..0] == [];
      assert Settled(Fold(s, steps[..0]));
    } else {
      var k := PressingSettles(s, steps);
    }
  }

  // ----- The price of an interruption -----------------------------------------------------------

  function AttemptsAnnounced(es: seq<WedgeEvent>): nat {
    if es == [] then 0 else AttemptsAnnounced(Init(es)) + if Last(es).news.Attempted? then 1 else 0
  }

  lemma {:induction false} AnnouncedConcat(a: seq<WedgeEvent>, b: seq<WedgeEvent>)
    ensures AttemptsAnnounced(a + b) == AttemptsAnnounced(a) + AttemptsAnnounced(b)
  {
    if b == [] {
      assert a + b == a;
    } else {
      AnnouncedConcat(a, Init(b));
      assert Init(a + b) == a + Init(b);
    }
  }

  /** Interrupted attempts of the lifetime that is open after `steps`. */
  function InterruptionsOpen(steps: seq<WedgeStep>): nat {
    if steps == [] || After(steps).None? then 0
    else InterruptionsOpen(Init(steps)) +
         if Attempts(After(Init(steps)), Last(steps)) && !Last(steps).fate.Written? then 1 else 0
  }

  function CountedAttempts(s: Option<WedgeRecord>): nat {
    if s.Some? then s.value.recoveryAttempts else 0
  }

  /** A reachable record's observation says at most one thing, an attempt exactly when it makes one. */
  lemma ObservationSaysOneThing(s: Option<WedgeRecord>, t: WedgeTick)
    requires SoundState(s)
    ensures
      var result := ProcessLiveness(s, t.observed, t.container, t.recoverer.Some?, t.now);
      && |result.events| <= 1
      && (result.next.AttemptRecovery? <==> |result.events| == 1 && result.events[0].news.Attempted?)
  {
  }

  lemma ObservationCountsNothing(s: Option<WedgeRecord>, t: WedgeTick)
    ensures
      var next := ProcessLiveness(s, t.observed, t.container, t.recoverer.Some?, t.now).next;
      Applied(s, next).Some? ==> CountedAttempts(Applied(s, next)) == CountedAttempts(s)
  {
  }

  lemma AnnouncedByObservation(s: Option<WedgeRecord>, t: WedgeTick)
    requires SoundState(s)
    ensures
      var result := ProcessLiveness(s, t.observed, t.container, t.recoverer.Some?, t.now);
      && AttemptsAnnounced(result.events) == (if result.next.AttemptRecovery? then 1 else 0)
      && (Applied(s, result.next).Some? ==> CountedAttempts(Applied(s, result.next)) == CountedAttempts(s))
  {
    ObservationSaysOneThing(s, t);
    ObservationCountsNothing(s, t);
    AnnouncedSmall(ProcessLiveness(s, t.observed, t.container, t.recoverer.Some?, t.now).events);
  }

  lemma AnnouncedByAttempt(r: WedgeRecord, t: WedgeTick, fate: Fate)
    requires t.recoverer.Some? && r.recoveryAttempts < MAX_RECOVERY_ATTEMPTS
    ensures
      var (s', es) := Tried(r, t, fate);
      && AttemptsAnnounced(es) == 0
      && (s'.Some? ==>
            CountedAttempts(s') == r.recoveryAttempts + if fate.Died? || fate.OutcomeLost? then 0 else 1)
  {
    AnnouncedSmall(Tried(r, t, fate).1);
  }

  lemma AnnouncedByStep(s: Option<WedgeRecord>, step: WedgeStep)
    requires SoundState(s) && StepOnce(s, step).0.Some?
    ensures CountedAttempts(s) + AttemptsAnnounced(StepOnce(s, step).1) ==
            CountedAttempts(StepOnce(s, step).0) + if Attempts(s, step) && !step.fate.Written? then 1 else 0
  {
    if step.Observe? {
      var t := step.tick;
      AnnouncedByObservation(s, t);
      if Attempts(s, step) && !step.fate.Lost? {
        var result := ProcessLiveness(s, t.observed, t.container, t.recoverer.Some?, t.now);
        ObservationKeepsSound(s, t);
        AnnouncedByAttempt(result.next.record, t, step.fate);
        AnnouncedConcat(result.events, Tried(result.next.record, t, step.fate).1);
      }
    }
  }

  lemma AnnouncedSmall(es: seq<WedgeEvent>)
    ensures es == [] ==> AttemptsAnnounced(es) == 0
    ensures |es| == 1 ==> AttemptsAnnounced(es) == if es[0].news.Attempted? then 1 else 0
    ensures |es| == 2 ==> AttemptsAnnounced(es) ==
                          (if es[0].news.Attempted? then 1 else 0) + (if es[1].news.Attempted? then 1 else 0)
  {
    if |es| == 2 {
      assert Init(es) == [es[0]];
      assert Init([es[0]]) == [];
    }
  }

  /**
   Exactly: the attempts announced in an open lifetime are the counted ones plus the interrupted
   ones, hence at most three more than the interruptions.
   */
  lemma {:induction false} InterruptionsEscapeTheCap(steps: seq<WedgeStep>)
    ensures After(steps).None? ==> AttemptsAnnounced(Cut(steps).1) == 0
    ensures After(steps).Some? ==>
              && AttemptsAnnounced(Cut(steps).1) == After(steps).value.recoveryAttempts + InterruptionsOpen(steps)
              && AttemptsAnnounced(Cut(steps).1) <= MAX_RECOVERY_ATTEMPTS + InterruptionsOpen(steps)
  {
    ReachableIsSound(steps);
    if steps != [] {
      InterruptionsEscapeTheCap(Init(steps));
      ReachableIsSound(Init(steps));
      var s := After(Init(steps));
      var (s', es) := StepOnce(s, Last(steps));
      AnnouncedConcat(Cut(Init(steps)).1, es);
      if s'.Some? {
        AnnouncedByStep(s, Last(steps));
      }
    }
  }

  /** A container that wedges on every tick and a process that dies during every attempt. */
  function DyingTick(c: Container, now: Time): WedgeStep {
    Observe(WedgeTick(c, Wedged, Some(CallOk), now, Wedged, now), Died)
  }

  /** Tracked and announced, with nothing counted, stamped or escalated. */
  predicate NeverCounted(s: Option<WedgeRecord>) {
    && s.Some? && s.value.recoveryAttempts == 0 && !s.value.escalated
    && s.value.consecutiveWedgedTicks >= 1 && s.value.lastAttemptAt.None? && s.value.notifiedDetected
  }

  lemma DyingTickIsNotCounted(s: Option<WedgeRecord>, c: Container, now: Time)
    requires !IsUnwedgeManual(c) && (s.None? || NeverCounted(s))
    ensures
      var (s', es) := StepOnce(s, DyingTick(c, now));
      NeverCounted(s') && |es| == 1 && Spell(es[0]) == if s.None? then D else A(1)
  {
  }

  lemma WordPush(es: seq<WedgeEvent>, more: seq<WedgeEvent>)
    requires |more| == 1
    ensures Word(es + more) == Word(es) + [Spell(more[0])]
  {
  }

  /**
   So the cap is a property of uninterrupted runs only: `n` interrupted ticks in the same second
   announce attempt number one `n - 1` times, with no backoff between them.
   */
  lemma {:induction false} CapFailsUnderInterruption(c: Container, now: Time, n: nat)
    requires n >= 1 && !IsUnwedgeManual(c)
    ensures
      var steps := Repeat(DyingTick(c, now), n);
      Word(Emitted(steps)) == [D] + Repeat(A(1), n - 1) && NeverCounted(After(steps))
  {
    var steps := Repeat(DyingTick(c, now), n);
    var was := Init(steps);
    assert was == Repeat(DyingTick(c, now), n - 1) && Last(steps) == DyingTick(c, now);
    if n > 1 {
      CapFailsUnderInterruption(c, now, n - 1);
      assert Repeat(A(1), n - 2) + [A(1)] == Repeat(A(1), n - 1);
    }
    DyingTickIsNotCounted(After(was), c, now);
    WordPush(Emitted(was), StepOnce(After(was), Last(steps)).1);
  }
}
