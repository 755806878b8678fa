/**
 Credential verification as it really interleaves: the throttle check and the recording of the outcome
 are two separate atomic steps, with the user lookup and the password hash in between.
 */
module Login {
  import opened Prelude
  import opened Throttle

  type Task = nat

  datatype LoginStep =
    | Begin(task: Task, ip: string, user: string, now: nat)  // throttle check
    | Reject(task: Task, now: nat)                           // no such user, or wrong password
    | Accept(task: Task)                                     // password matched
    | DbError(task: Task)                                    // lookup failed; nothing is recorded

  /** `log` is every call made to the throttle so far; `inFlight` the attempts let through by it. */
  datatype LoginState = LoginState(log: seq<Call>, inFlight: map<Task, (string, string)>)

  const NOBODY := LoginState([], map[])

  predicate Enabled(s: LoginState, step: LoginStep) {
    if step.Begin? then step.task !in s.inFlight else step.task in s.inFlight
  }

  function Next(s: LoginState, step: LoginStep): LoginState
    requires Enabled(s, step)
  {
    match step
    case Begin(task, ip, user, now) =>
      LoginState(
        s.log + [Check(ip, user, now)],
        if IsThrottled(Run(s.log), ip, user, now) then s.inFlight else s.inFlight[task := (ip, user)])
    case Reject(task, now) =>
      LoginState(s.log + [Failure(s.inFlight[task].0, s.inFlight[task].1, now)], s.inFlight - {task})
    case Accept(task) =>
      LoginState(s.log + [Success(s.inFlight[task].0, s.inFlight[task].1)], s.inFlight - {task})
    case DbError(task) =>
      s.(inFlight := s.inFlight - {task})
  }

  predicate IsRun(steps: seq<LoginStep>)
    decreases |steps|, 0
  {
    steps == [] || (IsRun(Init(steps)) && Enabled(After(Init(steps)), Last(steps)))
  }

  function After(steps: seq<LoginStep>): LoginState
    requires IsRun(steps)
    decreases |steps|, 1
  {
    if steps == [] then NOBODY else Next(After(Init(steps)), Last(steps))
  }

  function Where<K, V>(m: map<K, V>, p: V -> bool): set<K> {
    set k | k in m && p(m[k])
  }

  lemma WhereRemoved<K, V>(m: map<K, V>, p: V -> bool, k: K)
    requires k in m
    ensures |Where(m - {k}, p)| == |Where(m, p)| - if p(m[k]) then 1 else 0
  {
    if p(m[k]) {
      assert Where(m, p) == Where(m - {k}, p) + {k};
    } else {
      assert Where(m, p) == Where(m - {k}, p);
    }
  }

  function OnAxis(a: Axis): ((string, string)) -> bool {
    (who: (string, string)) => a.Matches(who.0, who.1)
  }

  /** Attempts of one axis between their check and their record. */
  function FlightsOn(flights: map<Task, (string, string)>, a: Axis): set<Task> {
    Where(flights, OnAxis(a))
  }

  function InFlightOn(s: LoginState, a: Axis): set<Task> {
    FlightsOn(s.inFlight, a)
  }

  /** At no point of the run are more than `n` attempts of the axis in flight. */
  predicate AtMostInFlight(steps: seq<LoginStep>, a: Axis, n: nat)
    requires IsRun(steps)
  {
    |InFlightOn(After(steps), a)| <= n && (steps != [] ==> AtMostInFlight(Init(steps), a, n))
  }

  lemma FlightLands(flights: map<Task, (string, string)>, a: Axis, task: Task)
    requires task in flights
    ensures |FlightsOn(flights - {task}, a)| ==
            |FlightsOn(flights, a)| - if a.Matches(flights[task].0, flights[task].1) then 1 else 0
  {
    WhereRemoved(flights, OnAxis(a), task);
  }

  lemma AxisLogPush(log: seq<Call>, c: Call, a: Axis)
    ensures AxisLog(log + [c], a) ==
            if c.Check? || !a.Matches(c.ip, c.user) then AxisLog(log, a)
            else if c.Failure? then AxisLog(log, a) + [c.now]
            else []
  {
    assert Init(log + [c]) == log;
  }

  lemma ClockPush(log: seq<Call>, c: Call, now: nat)
    requires ClockAdvances(log + [c], now)
    ensures c.Success? ==> ClockAdvances(log, now)
    ensures !c.Success? ==> WINDOW <= c.now <= now && ClockAdvances(log, c.now) && ClockAdvances(log, now)
  {
    assert Init(log + [c]) == log;
    if !c.Success? {
      ClockLater(log, c.now, now);
    }
  }

  lemma ClockBefore(s: LoginState, step: LoginStep, now: nat)
    requires Enabled(s, step) && ClockAdvances(Next(s, step).log, now)
    ensures ClockAdvances(s.log, now)
    ensures step.Begin? ==> WINDOW <= step.now <= now && ClockAdvances(s.log, step.now)
  {
    if !step.DbError? {
      ClockPush(s.log, Last(Next(s, step).log), now);
    }
  }

  /** The quantity that stays bounded: recorded failures plus attempts that may still record one. */
  function Exposure(s: LoginState, a: Axis, now: nat): nat {
    FailuresInWindow(s.log, a, now) + |InFlightOn(s, a)|
  }

  /** Letting one more in keeps the bound, when every axis it is on had room at its check. */
  lemma LetInKeepsBound(
    failures: seq<Time>, flights: map<Task, (string, string)>, a: Axis, begin: LoginStep, now: nat, n: nat)
    requires begin.Begin? && begin.now <= now
    requires a.Matches(begin.ip, begin.user) ==> |From(failures, begin.now - WINDOW)| <= MAX_FAILURES - 1
    requires |From(failures, now - WINDOW)| + |FlightsOn(flights, a)| <= MAX_FAILURES - 1 + n
    requires |FlightsOn(flights[begin.task := (begin.ip, begin.user)], a)| <= n && begin.task !in flights
    ensures |From(failures, now - WINDOW)| + |FlightsOn(flights[begin.task := (begin.ip, begin.user)], a)|
            <= MAX_FAILURES - 1 + n
  {
    if a.Matches(begin.ip, begin.user) {
      LaterCutKeepsLess(failures, begin.now - WINDOW, now - WINDOW);
    } else {
      assert FlightsOn(flights[begin.task := (begin.ip, begin.user)], a) == FlightsOn(flights, a);
    }
  }

  lemma BeginKeepsBound(s: LoginState, step: LoginStep, a: Axis, now: nat, n: nat)
    requires step.Begin? && Enabled(s, step) && WINDOW <= step.now <= now && ClockAdvances(s.log, step.now)
    requires Exposure(s, a, now) <= MAX_FAILURES - 1 + n && |InFlightOn(Next(s, step), a)| <= n
    ensures Exposure(Next(s, step), a, now) <= MAX_FAILURES - 1 + n
  {
    AxisLogPush(s.log, Check(step.ip, step.user, step.now), a);
    if !IsThrottled(Run(s.log), step.ip, step.user, step.now) {
      if a.Matches(step.ip, step.user) {
        AllowedMeansRoom(s.log, step.ip, step.user, step.now, a);
      }
      LetInKeepsBound(AxisLog(s.log, a), s.inFlight, a, step, now, n);
    }
  }

  lemma EndKeepsBound(s: LoginState, step: LoginStep, a: Axis, now: nat, n: nat)
    requires !step.Begin? && Enabled(s, step)
    requires Exposure(s, a, now) <= MAX_FAILURES - 1 + n && |InFlightOn(Next(s, step), a)| <= n
    ensures Exposure(Next(s, step), a, now) <= MAX_FAILURES - 1 + n
  {
    FlightLands(s.inFlight, a, step.task);
    var (ip, user) := s.inFlight[step.task];
    if step.Reject? {
      AxisLogPush(s.log, Failure(ip, user, step.now), a);
      FromConcat(AxisLog(s.log, a), [step.now], now - WINDOW);
    } else if step.Accept? {
      AxisLogPush(s.log, Success(ip, user), a);
    }
  }

  lemma StepKeepsBound(s: LoginState, step: LoginStep, a: Axis, now: nat, n: nat)
    requires Enabled(s, step) && now >= WINDOW && ClockAdvances(Next(s, step).log, now)
    requires Exposure(s, a, now) <= MAX_FAILURES - 1 + n && |InFlightOn(Next(s, step), a)| <= n
    ensures Exposure(Next(s, step), a, now) <= MAX_FAILURES - 1 + n
  {
    ClockBefore(s, step, now);
    if step.Begin? {
      BeginKeepsBound(s, step, a, now, n);
    } else {
      EndKeepsBound(s, step, a, now, n);
    }
  }

  lemma {:induction false} ExposureIsBounded(steps: seq<LoginStep>, a: Axis, now: nat, n: nat)
    requires IsRun(steps) && AtMostInFlight(steps, a, n)
    requires now >= WINDOW && ClockAdvances(After(steps).log, now)
    ensures Exposure(After(steps), a, now) <= MAX_FAILURES - 1 + n
  {
    if steps == [] {
      assert InFlightOn(NOBODY, a) == {};
    } else {
      ClockBefore(After(Init(steps)), Last(steps), now);
      ExposureIsBounded(Init(steps), a, now, n);
      StepKeepsBound(After(Init(steps)), Last(steps), a, now, n);
    }
  }

  lemma ExposureInNumbers(s: LoginState, a: Axis, now: nat)
    ensures Exposure(s, a, now) == |From(AxisLog(s.log, a), now - 900)| + |InFlightOn(s, a)|
  {
  }

  /**
   However verifications interleave, if at most `n` of one axis are ever in flight together then the
   failures of that axis in any current window, plus those in flight, stay within 7 + n.
   */
  lemma ConcurrentFailuresAreBounded(steps: seq<LoginStep>, a: Axis, now: nat, n: nat)
    requires IsRun(steps) && AtMostInFlight(steps, a, n)
    requires now >= 900 && ClockAdvances(After(steps).log, now)
    ensures |From(AxisLog(After(steps).log, a), now - 900)| + |InFlightOn(After(steps), a)| <= 7 + n
  {
    ExposureIsBounded(steps, a, now, n);
    ExposureInNumbers(After(steps), a, now);
  }

  /** Sequential callers: at most one attempt of the axis in flight, at most eight failures. */
  lemma SequentialFailuresAreBounded(steps: seq<LoginStep>, a: Axis, now: nat)
    requires IsRun(steps) && AtMostInFlight(steps, a, 1)
    requires now >= 900 && ClockAdvances(After(steps).log, now)
    ensures |From(AxisLog(After(steps).log, a), now - 900)| <= 8
  {
    ConcurrentFailuresAreBounded(steps, a, now, 1);
  }

  // ----- The bound is reached -------------------------------------------------------------------

  /** `k` failed attempts one after another, then `begun` attempts let in together, `ended` of them failed. */
  function Burst(ip: string, user: string, k: nat, begun: nat, ended: nat): seq<LoginStep> {
    if ended > 0 then Burst(ip, user, k, begun, ended - 1) + [Reject(ended - 1, WINDOW)]
    else if begun > 0 then Burst(ip, user, k, begun - 1, 0) + [Begin(begun - 1, ip, user, WINDOW)]
    else if k > 0 then Burst(ip, user, k - 1, 1, 1)
    else []
  }

  /** Exactly the attempts `ended..begun` are in flight. */
  ghost predicate Flying(flights: map<Task, (string, string)>, ip: string, user: string, begun: nat, ended: nat) {
    forall t: Task :: (t in flights <==> ended <= t < begun) && (t in flights ==> flights[t] == (ip, user))
  }

  /** Every axis of the caller has logged exactly `n` failures, all at the same instant. */
  ghost predicate AllAxesLogged(log: seq<Call>, ip: string, user: string, n: nat) {
    forall a: Axis :: a.Matches(ip, user) ==> AxisLog(log, a) == Repeat<Time>(WINDOW, n)
  }

  /** What the state looks like at every point of a burst. */
  ghost predicate BurstState(s: LoginState, ip: string, user: string, n: nat, begun: nat, ended: nat) {
    Flying(s.inFlight, ip, user, begun, ended) && ClockAdvances(s.log, WINDOW) && AllAxesLogged(s.log, ip, user, n)
  }

  lemma RoomForMore(log: seq<Call>, ip: string, user: string, k: nat)
    requires ClockAdvances(log, WINDOW) && k < MAX_FAILURES
    requires AllAxesLogged(log, ip, user, k)
    ensures !IsThrottled(Run(log), ip, user, WINDOW)
  {
    ThrottledIffEightFailures(log, ip, user, WINDOW);
  }

  lemma LogOneMore(log: seq<Call>, c: Call)
    requires ClockAdvances(log, WINDOW) && !c.Success? && c.now == WINDOW
    ensures ClockAdvances(log + [c], WINDOW)
  {
    assert Init(log + [c]) == log;
  }

  lemma BurstRejects(s: LoginState, ip: string, user: string, n: nat, begun: nat, ended: nat)
    requires BurstState(s, ip, user, n, begun, ended) && ended < begun
    ensures Enabled(s, Reject(ended, WINDOW))
    ensures BurstState(Next(s, Reject(ended, WINDOW)), ip, user, n + 1, begun, ended + 1)
  {
    var c := Failure(ip, user, WINDOW);
    LogOneMore(s.log, c);
    forall a: Axis | a.Matches(ip, user)
      ensures AxisLog(s.log + [c], a) == Repeat<Time>(WINDOW, n + 1)
    {
      AxisLogPush(s.log, c, a);
      assert Repeat<Time>(WINDOW, n) + [WINDOW] == Repeat<Time>(WINDOW, n + 1);
    }
  }

  lemma BurstBegins(s: LoginState, ip: string, user: string, n: nat, begun: nat)
    requires BurstState(s, ip, user, n, begun, 0) && n < MAX_FAILURES
    ensures Enabled(s, Begin(begun, ip, user, WINDOW))
    ensures BurstState(Next(s, Begin(begun, ip, user, WINDOW)), ip, user, n, begun + 1, 0)
  {
    var c := Check(ip, user, WINDOW);
    RoomForMore(s.log, ip, user, n);
    LogOneMore(s.log, c);
    forall a: Axis | a.Matches(ip, user)
      ensures AxisLog(s.log + [c], a) == Repeat<Time>(WINDOW, n)
    {
      AxisLogPush(s.log, c, a);
    }
  }

  lemma RunPush(steps: seq<LoginStep>, step: LoginStep)
    requires IsRun(steps) && Enabled(After(steps), step)
    ensures IsRun(steps + [step]) && After(steps + [step]) == Next(After(steps), step)
  {
    assert Init(steps + [step]) == steps;
  }

  lemma {:induction false} FewBetween(tasks: set<Task>, lo: nat, hi: nat)
    requires lo <= hi && forall t :: t in tasks ==> lo <= t < hi
    ensures |tasks| <= hi - lo
  {
    if lo < hi {
      FewBetween(tasks - {hi - 1}, lo, hi - 1);
    } else {
      assert tasks == {};
    }
  }

  lemma FewInFlight(s: LoginState, ip: string, user: string, begun: nat, ended: nat, a: Axis)
    requires Flying(s.inFlight, ip, user, begun, ended) && ended <= begun
    ensures |InFlightOn(s, a)| <= begun - ended
  {
    FewBetween(InFlightOn(s, a), ended, begun);
  }

  /** A run with at most `m` attempts of the axis in flight, after which the burst stands as given. */
  ghost predicate Bursting(
    steps: seq<LoginStep>, ip: string, user: string, a: Axis, m: nat, failed: nat, begun: nat, ended: nat)
  {
    IsRun(steps) && AtMostInFlight(steps, a, m) && BurstState(After(steps), ip, user, failed, begun, ended)
  }

  lemma StillWithin(steps: seq<LoginStep>, step: LoginStep, a: Axis, m: nat)
    requires IsRun(steps) && Enabled(After(steps), step) && AtMostInFlight(steps, a, m)
    requires |InFlightOn(Next(After(steps), step), a)| <= m
    ensures IsRun(steps + [step]) && After(steps + [step]) == Next(After(steps), step) && AtMostInFlight(steps + [step], a, m)
  {
    RunPush(steps, step);
    assert Init(steps + [step]) == steps;
  }

  lemma RejectOne(
    steps: seq<LoginStep>, ip: string, user: string, a: Axis, m: nat, failed: nat, begun: nat, ended: nat)
    requires Bursting(steps, ip, user, a, m, failed, begun, ended) && ended < begun <= m
    ensures Bursting(steps + [Reject(ended, WINDOW)], ip, user, a, m, failed + 1, begun, ended + 1)
  {
    BurstRejects(After(steps), ip, user, failed, begun, ended);
    FewInFlight(Next(After(steps), Reject(ended, WINDOW)), ip, user, begun, ended + 1, a);
    StillWithin(steps, Reject(ended, WINDOW), a, m);
  }

  lemma BeginOne(steps: seq<LoginStep>, ip: string, user: string, a: Axis, m: nat, failed: nat, begun: nat)
    requires Bursting(steps, ip, user, a, m, failed, begun, 0) && failed < MAX_FAILURES && begun < m
    ensures Bursting(steps + [Begin(begun, ip, user, WINDOW)], ip, user, a, m, failed, begun + 1, 0)
  {
    BurstBegins(After(steps), ip, user, failed, begun);
    FewInFlight(Next(After(steps), Begin(begun, ip, user, WINDOW)), ip, user, begun + 1, 0, a);
    StillWithin(steps, Begin(begun, ip, user, WINDOW), a, m);
  }

  lemma BurstOver(steps: seq<LoginStep>, ip: string, user: string, a: Axis, m: nat, failed: nat)
    requires Bursting(steps, ip, user, a, m, failed, 1, 1)
    ensures Bursting(steps, ip, user, a, m, failed, 0, 0)
  {
  }

  lemma NobodyBursts(ip: string, user: string, a: Axis, m: nat)
    ensures Bursting([], ip, user, a, m, 0, 0, 0)
  {
    assert InFlightOn(NOBODY, a) == {};
  }

  /** Whatever beginning, rejecting and finishing keep true is true all through a burst. */
  lemma {:induction false} BurstInduction(
    p: (seq<LoginStep>, nat, nat, nat) -> bool, ip: string, user: string, m: nat, k: nat, begun: nat, ended: nat)
    requires p([], 0, 0, 0)
    requires forall steps, f: nat, b: nat, e: nat :: p(steps, f, b, e) && e < b <= m ==> p(steps + [Reject(e, WINDOW)], f + 1, b, e + 1)
    requires forall steps, f: nat, b: nat :: p(steps, f, b, 0) && f < MAX_FAILURES && b < m ==>
                                               p(steps + [Begin(b, ip, user, WINDOW)], f, b + 1, 0)
    requires forall steps, f: nat :: p(steps, f, 1, 1) ==> p(steps, f, 0, 0)
    requires k < MAX_FAILURES && ended <= begun <= m && 1 <= m
    ensures p(Burst(ip, user, k, begun, ended), k + ended, begun, ended)
    decreases k, begun, ended
  {
    if ended > 0 {
      BurstInduction(p, ip, user, m, k, begun, ended - 1);
    } else if begun > 0 {
      BurstInduction(p, ip, user, m, k, begun - 1, 0);
    } else if k > 0 {
      BurstInduction(p, ip, user, m, k - 1, 1, 1);
    }
  }

  lemma BurstUnfolds(ip: string, user: string, a: Axis, m: nat, k: nat, begun: nat, ended: nat)
    requires k < MAX_FAILURES && ended <= begun <= m && 1 <= m
    ensures Bursting(Burst(ip, user, k, begun, ended), ip, user, a, m, k + ended, begun, ended)
  {
    ghost var p := (steps: seq<LoginStep>, f: nat, b: nat, e: nat) => Bursting(steps, ip, user, a, m, f, b, e);
    NobodyBursts(ip, user, a, m);
    forall steps, f: nat, b: nat, e: nat | p(steps, f, b, e) && e < b <= m
      ensures p(steps + [Reject(e, WINDOW)], f + 1, b, e + 1)
    {
      RejectOne(steps, ip, user, a, m, f, b, e);
    }
    forall steps, f: nat, b: nat | p(steps, f, b, 0) && f < MAX_FAILURES && b < m
      ensures p(steps + [Begin(b, ip, user, WINDOW)], f, b + 1, 0)
    {
      BeginOne(steps, ip, user, a, m, f, b);
    }
    forall steps, f: nat | p(steps, f, 1, 1) ensures p(steps, f, 0, 0) {
      BurstOver(steps, ip, user, a, m, f);
    }
    BurstInduction(p, ip, user, m, k, begun, ended);
  }

  /**
   The bound is tight: seven failures in a row and `n` attempts that race are a run with at most `n`
   in flight, on a clock the bound allows, and reach exactly 7 + n failures on every axis of the caller.
   */
  lemma BoundIsReached(ip: string, user: string, n: nat, a: Axis)
    requires n >= 1 && a.Matches(ip, user)
    ensures
      var steps := Burst(ip, user, MAX_FAILURES - 1, n, n);
      && IsRun(steps) && AtMostInFlight(steps, a, n) && ClockAdvances(After(steps).log, WINDOW)
      && |From(AxisLog(After(steps).log, a), WINDOW - 900)| == 7 + n
  {
    BurstUnfolds(ip, user, a, n, MAX_FAILURES - 1, n, n);
    var steps := Burst(ip, user, MAX_FAILURES - 1, n, n);
    assert AxisLog(After(steps).log, a) == Repeat<Time>(WINDOW, MAX_FAILURES - 1 + n);
    FromAllRecent(Repeat<Time>(WINDOW, MAX_FAILURES - 1 + n), 0);
  }

  // ----- One call, start to end -----------------------------------------------------------------

  datatype VerifyOutcome = Verified | VerifyThrottled(retryAfterSecs: nat) | Invalid

  datatype Lookup = LookupFailed | NoSuchUser | UserRow(passwordMatches: bool)

  /** What one undisturbed call answers, and the throttle it leaves. */
  function Verification(was: State, ip: string, user: string, checkedAt: nat, recordedAt: nat, row: Lookup)
    : (Result<VerifyOutcome, ()>, State)
  {
    var seen := Checked(was, ip, user, checkedAt);
    if IsThrottled(was, ip, user, checkedAt) then (Ok(VerifyThrottled(900)), seen)
    else
      match row
      case LookupFailed => (Err(()), seen)
      case NoSuchUser => (Ok(Invalid), Failed(seen, ip, user, recordedAt))
      case UserRow(true) => (Ok(Verified), Succeeded(seen, ip, user))
      case UserRow(false) => (Ok(Invalid), Failed(seen, ip, user, recordedAt))
  }

  /** The step that ends an attempt which the throttle let in. */
  function EndOf(task: Task, recordedAt: nat, row: Lookup): LoginStep {
    if row.LookupFailed? then DbError(task)
    else if row.UserRow? && row.passwordMatches then Accept(task)
    else Reject(task, recordedAt)
  }

  lemma RunOfPush(log: seq<Call>, c: Call)
    ensures Run(log + [c]) == StepOnce(Run(log), c)
  {
    assert Init(log + [c]) == log;
  }

  lemma CallBegins(s: LoginState, task: Task, ip: string, user: string, at: nat)
    requires task !in s.inFlight
    ensures
      var begun := Next(s, Begin(task, ip, user, at));
      && Run(begun.log) == Checked(Run(s.log), ip, user, at)
      && begun.inFlight == if IsThrottled(Run(s.log), ip, user, at) then s.inFlight else s.inFlight[task := (ip, user)]
  {
    RunOfPush(s.log, Check(ip, user, at));
  }

  /** What the ending step of an attempt makes of the throttle. */
  function ThrottleAfterEnd(seen: State, ip: string, user: string, recordedAt: nat, row: Lookup): State {
    if row.LookupFailed? then seen
    else if row.UserRow? && row.passwordMatches then Succeeded(seen, ip, user)
    else Failed(seen, ip, user, recordedAt)
  }

  lemma CallEnds(begun: LoginState, task: Task, ip: string, user: string, recordedAt: nat, row: Lookup)
    requires task in begun.inFlight && begun.inFlight[task] == (ip, user)
    ensures
      && Enabled(begun, EndOf(task, recordedAt, row))
      && var ended := Next(begun, EndOf(task, recordedAt, row));
         && ended.inFlight == begun.inFlight - {task}
         && Run(ended.log) == ThrottleAfterEnd(Run(begun.log), ip, user, recordedAt, row)
  {
    RunOfPush(begun.log, Failure(ip, user, recordedAt));
    RunOfPush(begun.log, Success(ip, user));
  }

  lemma VerificationEnds(was: State, ip: string, user: string, checkedAt: nat, recordedAt: nat, row: Lookup)
    ensures
      var seen := Checked(was, ip, user, checkedAt);
      Verification(was, ip, user, checkedAt, recordedAt, row).1 ==
      if IsThrottled(was, ip, user, checkedAt) then seen else ThrottleAfterEnd(seen, ip, user, recordedAt, row)
  {
  }

  /** From `s`, having begun, the call ends with nobody left in flight and the throttle as `after`. */
  predicate CallEndsWith(s: LoginState, begun: LoginState, end: LoginStep, throttled: bool, after: State) {
    if throttled then begun.inFlight == s.inFlight && Run(begun.log) == after
    else Enabled(begun, end) && Next(begun, end).inFlight == s.inFlight && Run(Next(begun, end).log) == after
  }

  lemma BegunCallEnds(
    s: LoginState, begun: LoginState, task: Task, ip: string, user: string, seen: State, throttled: bool,
    recordedAt: nat, row: Lookup, after: State)
    requires task !in s.inFlight && Run(begun.log) == seen
    requires begun.inFlight == if throttled then s.inFlight else s.inFlight[task := (ip, user)]
    requires after == if throttled then seen else ThrottleAfterEnd(seen, ip, user, recordedAt, row)
    ensures CallEndsWith(s, begun, EndOf(task, recordedAt, row), throttled, after)
  {
    if !throttled {
      CallEnds(begun, task, ip, user, recordedAt, row);
      assert s.inFlight[task := (ip, user)] - {task} == s.inFlight;
    }
  }

  /**
   One call is two steps of the interleaved model: the check, and, if it lets the attempt in, the step
   that ends it. The throttle it leaves is the one their log makes, and nobody is left in flight.
   */
  lemma OneCallIsTwoSteps(s: LoginState, task: Task, ip: string, user: string, checkedAt: nat, recordedAt: nat, row: Lookup)
    requires task !in s.inFlight
    ensures CallEndsWith(s, Next(s, Begin(task, ip, user, checkedAt)), EndOf(task, recordedAt, row),
                         IsThrottled(Run(s.log), ip, user, checkedAt),
                         Verification(Run(s.log), ip, user, checkedAt, recordedAt, row).1)
  {
    CallBegins(s, task, ip, user, checkedAt);
    VerificationEnds(Run(s.log), ip, user, checkedAt, recordedAt, row);
    BegunCallEnds(s, Next(s, Begin(task, ip, user, checkedAt)), task, ip, user,
                  Checked(Run(s.log), ip, user, checkedAt), IsThrottled(Run(s.log), ip, user, checkedAt),
                  recordedAt, row, Verification(Run(s.log), ip, user, checkedAt, recordedAt, row).1);
  }

  /**
   `verify_credentials` when nothing else runs in between. The clock is read once by the check and
   once by the record; the user row and the password verdict come from outside.
   */
  method VerifyCredentials(t: SigninThrottle, ip: string, username: string, checkedAt: nat, recordedAt: nat, row: Lookup)
    returns (r: Result<VerifyOutcome, ()>)
    modifies t
    ensures (r, t.Value()) == Verification(old(t.Value()), ip, t.lower(username), checkedAt, recordedAt, row)
  {
    var check := t.CheckAt(ip, username, checkedAt);
    if check.Throttled? {
      return Ok(VerifyThrottled(check.retryAfterSecs));
    }
    if row.LookupFailed? {
      return Err(());
    }
    if row.NoSuchUser? || !row.passwordMatches {
      t.RecordFailureAt(ip, username, recordedAt);
      return Ok(Invalid);
    }
    t.RecordSuccess(ip, username);
    return Ok(Verified);
  }
}
