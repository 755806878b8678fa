/**
 The sign-in throttle: three maps of failure buckets, one per axis, pruned to a sliding window. The
 refinement says that the verdict depends on the log of failures and successes alone.
 */
module Throttle {
  import opened Prelude

  const WINDOW: nat := 900
  const MAX_FAILURES: nat := 8

  datatype CheckOutcome = Allowed | Throttled(retryAfterSecs: nat)

  /**
   The three maps. Instants count from the earliest one the platform's monotonic clock can represent,
   so they are never negative and subtracting fails exactly when the result would be. Where that
   earliest instant lies (at boot, or long before it) is the platform's choice.
   */
  datatype State = State(
    byIpUser: map<(string, string), seq<Time>>,
    byIp: map<string, seq<Time>>,
    byUser: map<string, seq<Time>>
  )

  const EMPTY := State(map[], map[], map[])

  /** `now.checked_sub(WINDOW).unwrap_or(now)`: in the clock's first window the cutoff is `now` itself. */
  function Cutoff(now: nat): nat {
    if now >= WINDOW then now - WINDOW else now
  }

  function Prune(failures: seq<Time>, now: nat): seq<Time> {
    From(failures, Cutoff(now))
  }

  function Entry<K>(m: map<K, seq<Time>>, k: K): seq<Time> {
    if k in m then m[k] else []
  }

  function NonEmpty<K>(m: map<K, seq<Time>>): map<K, seq<Time>> {
    map k | k in m && m[k] != [] :: m[k]
  }

  /** `entry(k).or_default().count(now)`: the bucket is created and pruned. */
  function Counted<K>(m: map<K, seq<Time>>, k: K, now: nat): map<K, seq<Time>> {
    m[k := Prune(Entry(m, k), now)]
  }

  function Recorded<K>(m: map<K, seq<Time>>, k: K, now: nat): map<K, seq<Time>> {
    m[k := Prune(Entry(m, k), now) + [now]]
  }

  function Checked(s: State, ip: string, user: string, now: nat): State {
    State(NonEmpty(Counted(s.byIpUser, (ip, user), now)),
          NonEmpty(Counted(s.byIp, ip, now)),
          NonEmpty(Counted(s.byUser, user, now)))
  }

  function Failed(s: State, ip: string, user: string, now: nat): State {
    State(Recorded(s.byIpUser, (ip, user), now), Recorded(s.byIp, ip, now), Recorded(s.byUser, user, now))
  }

  function Succeeded(s: State, ip: string, user: string): State {
    State(s.byIpUser - {(ip, user)}, s.byIp - {ip}, s.byUser - {user})
  }

  function Max(a: nat, b: nat): nat {
    if a >= b then a else b
  }

  function Worst(s: State, ip: string, user: string, now: nat): nat {
    Max(Max(|Prune(Entry(s.byIpUser, (ip, user)), now)|, |Prune(Entry(s.byIp, ip), now)|),
        |Prune(Entry(s.byUser, user), now)|)
  }

  predicate IsThrottled(s: State, ip: string, user: string, now: nat) {
    Worst(s, ip, user, now) >= MAX_FAILURES
  }

  /** The global throttle. `lower` is the username case folding, which is left uninterpreted. */
  class SigninThrottle {
    const lower: string -> string
    var byIpUser: map<(string, string), seq<Time>>
    var byIp: map<string, seq<Time>>
    var byUser: map<string, seq<Time>>

    function Value(): State
      reads this
    {
      State(byIpUser, byIp, byUser)
    }

    constructor (lower: string -> string)
      ensures this.lower == lower && Value() == EMPTY
    {
      this.lower := lower;
      byIpUser, byIp, byUser := map[], map[], map[];
    }

    method CheckAt(ip: string, username: string, now: nat) returns (r: CheckOutcome)
      modifies this
      ensures Value() == Checked(old(Value()), ip, lower(username), now)
      ensures r == if IsThrottled(old(Value()), ip, lower(username), now) then Throttled(WINDOW) else Allowed
    {
      var user := lower(username);
      byIpUser := byIpUser[(ip, user) := Prune(Entry(byIpUser, (ip, user)), now)];
      var ipUser := |byIpUser[(ip, user)]|;
      byIp := byIp[ip := Prune(Entry(byIp, ip), now)];
      var ipOnly := |byIp[ip]|;
      byUser := byUser[user := Prune(Entry(byUser, user), now)];
      var userOnly := |byUser[user]|;
      byIpUser := map k | k in byIpUser && byIpUser[k] != [] :: byIpUser[k];
      byIp := map k | k in byIp && byIp[k] != [] :: byIp[k];
      byUser := map k | k in byUser && byUser[k] != [] :: byUser[k];
      var worst := Max(Max(ipUser, ipOnly), userOnly);
      return if worst >= MAX_FAILURES then Throttled(WINDOW) else Allowed;
    }

    method RecordFailureAt(ip: string, username: string, now: nat)
      modifies this
      ensures Value() == Failed(old(Value()), ip, lower(username), now)
    {
      var user := lower(username);
      byIpUser := byIpUser[(ip, user) := Prune(Entry(byIpUser, (ip, user)), now) + [now]];
      byIp := byIp[ip := Prune(Entry(byIp, ip), now) + [now]];
      byUser := byUser[user := Prune(Entry(byUser, user), now) + [now]];
    }

    method RecordSuccess(ip: string, username: string)
      modifies this
      ensures Value() == Succeeded(old(Value()), ip, lower(username))
    {
      var user := lower(username);
      byIpUser := byIpUser - {(ip, user)};
      byIp := byIp - {ip};
      byUser := byUser - {user};
    }
  }

  // ----- The log --------------------------------------------------------------------------------

  datatype Call =
    | Check(ip: string, user: string, now: nat)
    | Failure(ip: string, user: string, now: nat)
    | Success(ip: string, user: string)

  datatype Axis = IpUserAxis(ip: string, user: string) | IpAxis(ip: string) | UserAxis(user: string) {
    predicate Matches(ip': string, user': string) {
      match this
      case IpUserAxis(i, u) => i == ip' && u == user'
      case IpAxis(i) => i == ip'
      case UserAxis(u) => u == user'
    }
  }

  function StepOnce(s: State, c: Call): State {
    match c
    case Check(ip, user, now) => Checked(s, ip, user, now)
    case Failure(ip, user, now) => Failed(s, ip, user, now)
    case Success(ip, user) => Succeeded(s, ip, user)
  }

  function Run(log: seq<Call>): State {
    if log == [] then EMPTY else StepOnce(Run(Init(log)), Last(log))
  }

  /** Failures on one axis since the last success on that axis. */
  function AxisLog(log: seq<Call>, a: Axis): seq<Time> {
    if log == [] then []
    else
      var c := Last(log);
      if c.Check? || !a.Matches(c.ip, c.user) then AxisLog(Init(log), a)
      else if c.Failure? then AxisLog(Init(log), a) + [c.now]
      else []
  }

  /** Failures of one axis in the window ending at `now`. */
  function FailuresInWindow(log: seq<Call>, a: Axis, now: nat): nat {
    |From(AxisLog(log, a), now - WINDOW)|
  }

  /** All instants are past the first window, never go backwards, and none is after `now`. */
  predicate ClockAdvances(log: seq<Call>, now: nat)
  {
    log == [] ||
    (if Last(log).Success? then ClockAdvances(Init(log), now)
     else WINDOW <= Last(log).now <= now && ClockAdvances(Init(log), Last(log).now))
  }

  lemma {:induction false} ClockLater(log: seq<Call>, now: nat, later: nat)
    requires ClockAdvances(log, now) && now <= later
    ensures ClockAdvances(log, later)
  {
    if log != [] && Last(log).Success? {
      ClockLater(Init(log), now, later);
    }
  }

  function BucketOf(s: State, a: Axis): seq<Time> {
    match a
    case IpUserAxis(ip, user) => Entry(s.byIpUser, (ip, user))
    case IpAxis(ip) => Entry(s.byIp, ip)
    case UserAxis(user) => Entry(s.byUser, user)
  }

  /** What one call does to one bucket. */
  function NextBucket(bucket: seq<Time>, c: Call, a: Axis): seq<Time> {
    if !a.Matches(c.ip, c.user) then bucket
    else if c.Check? then Prune(bucket, c.now)
    else if c.Failure? then Prune(bucket, c.now) + [c.now]
    else []
  }

  lemma BucketStep(s: State, c: Call, a: Axis)
    ensures BucketOf(StepOnce(s, c), a) == NextBucket(BucketOf(s, a), c, a)
  {
  }

  /** One bucket followed on its own through a log. */
  function BucketAfter(log: seq<Call>, a: Axis): seq<Time> {
    if log == [] then [] else NextBucket(BucketAfter(Init(log), a), Last(log), a)
  }

  /** The buckets never influence one another. */
  lemma {:induction false} BucketsAreIndependent(log: seq<Call>, a: Axis)
    ensures BucketOf(Run(log), a) == BucketAfter(log, a)
  {
    if log != [] {
      BucketsAreIndependent(Init(log), a);
      BucketStep(Run(Init(log)), Last(log), a);
    }
  }

  /** Pruning at `t` and then looking through a later window is looking through it directly. */
  lemma TrackThroughPrune(bucket: seq<Time>, log: seq<Time>, t: nat, cut: Time)
    requires From(bucket, cut) == From(log, cut) && WINDOW <= t && t - WINDOW <= cut
    ensures From(Prune(bucket, t), cut) == From(log, cut)
    ensures From(Prune(bucket, t) + [t], cut) == From(log + [t], cut)
  {
    FromFrom(bucket, t - WINDOW, cut);
    FromConcat(Prune(bucket, t), [t], cut);
    FromConcat(log, [t], cut);
  }

  lemma {:induction false} BucketAfterTracksLog(log: seq<Call>, a: Axis, now: nat)
    requires ClockAdvances(log, now) && now >= WINDOW
    ensures From(BucketAfter(log, a), now - WINDOW) == From(AxisLog(log, a), now - WINDOW)
  {
    if log != [] {
      var c, was := Last(log), Init(log);
      if !c.Success? {
        ClockLater(was, c.now, now);
      }
      BucketAfterTracksLog(was, a, now);
      if !c.Success? {
        TrackThroughPrune(BucketAfter(was, a), AxisLog(was, a), c.now, now - WINDOW);
      }
    }
  }

  /** Pruned or not, a bucket and its log look the same through every window from now on. */
  lemma BucketTracksLog(log: seq<Call>, a: Axis, now: nat)
    requires ClockAdvances(log, now) && now >= WINDOW
    ensures From(BucketOf(Run(log), a), now - WINDOW) == From(AxisLog(log, a), now - WINDOW)
  {
    BucketAfterTracksLog(log, a, now);
    BucketsAreIndependent(log, a);
  }

  /** An attempt that is let through has at most seven failures on each of its axes. */
  lemma AllowedMeansRoom(log: seq<Call>, ip: string, user: string, now: nat, a: Axis)
    requires ClockAdvances(log, now) && now >= WINDOW
    requires a.Matches(ip, user) && !IsThrottled(Run(log), ip, user, now)
    ensures FailuresInWindow(log, a, now) <= MAX_FAILURES - 1
  {
    BucketTracksLog(log, a, now);
  }

  /** One full axis is enough to be refused. */
  lemma FullAxisThrottles(log: seq<Call>, ip: string, user: string, now: nat, a: Axis)
    requires ClockAdvances(log, now) && now >= WINDOW
    requires a.Matches(ip, user) && FailuresInWindow(log, a, now) >= MAX_FAILURES
    ensures IsThrottled(Run(log), ip, user, now)
  {
    BucketTracksLog(log, a, now);
  }

  lemma ThrottledIffFull(log: seq<Call>, ip: string, user: string, now: nat)
    requires ClockAdvances(log, now) && now >= WINDOW
    ensures IsThrottled(Run(log), ip, user, now) <==>
            exists a: Axis :: a.Matches(ip, user) && FailuresInWindow(log, a, now) >= MAX_FAILURES
  {
    var pair, one, other := IpUserAxis(ip, user), IpAxis(ip), UserAxis(user);
    BucketTracksLog(log, pair, now);
    BucketTracksLog(log, one, now);
    BucketTracksLog(log, other, now);
    assert pair.Matches(ip, user) && one.Matches(ip, user) && other.Matches(ip, user);
    if a: Axis :| a.Matches(ip, user) && FailuresInWindow(log, a, now) >= MAX_FAILURES {
      FullAxisThrottles(log, ip, user, now, a);
    }
  }

  lemma WindowInNumbers(log: seq<Call>, a: Axis, now: nat)
    ensures FailuresInWindow(log, a, now) >= MAX_FAILURES <==> |From(AxisLog(log, a), now - 900)| >= 8
  {
  }

  /**
   The throttle refines its log: it refuses exactly when one of the caller's three axes has eight
   failures in the last fifteen minutes since its own last success.
   */
  lemma ThrottledIffEightFailures(log: seq<Call>, ip: string, user: string, now: nat)
    requires ClockAdvances(log, now) && now >= 900
    ensures IsThrottled(Run(log), ip, user, now) <==>
            exists a: Axis :: a.Matches(ip, user) && |From(AxisLog(log, a), now - 900)| >= 8
  {
    ThrottledIffFull(log, ip, user, now);
    forall a: Axis ensures FailuresInWindow(log, a, now) >= MAX_FAILURES <==> |From(AxisLog(log, a), now - 900)| >= 8 {
      WindowInNumbers(log, a, now);
    }
  }

  function WithoutChecks(log: seq<Call>): seq<Call> {
    if log == [] then []
    else if Last(log).Check? then WithoutChecks(Init(log))
    else WithoutChecks(Init(log)) + [Last(log)]
  }

  lemma {:induction false} ChecksAreNotLogged(log: seq<Call>, a: Axis)
    ensures AxisLog(WithoutChecks(log), a) == AxisLog(log, a)
  {
    if log != [] {
      ChecksAreNotLogged(Init(log), a);
      if !Last(log).Check? {
        assert Init(WithoutChecks(log)) == WithoutChecks(Init(log));
      }
    }
  }

  lemma {:induction false} ClockWithoutChecks(log: seq<Call>, now: nat)
    requires ClockAdvances(log, now)
    ensures ClockAdvances(WithoutChecks(log), now)
  {
    if log != [] {
      var c := Last(log);
      var upTo := if c.Success? then now else c.now;
      ClockWithoutChecks(Init(log), upTo);
      if c.Check? {
        ClockLater(WithoutChecks(Init(log)), upTo, now);
      } else {
        assert Init(WithoutChecks(log)) == WithoutChecks(Init(log));
      }
    }
  }

  /** A check, with its pruning and its removal of empty buckets, never changes a later verdict. */
  lemma ChecksChangeNoVerdict(log: seq<Call>, ip: string, user: string, now: nat)
    requires ClockAdvances(log, now) && now >= WINDOW
    ensures IsThrottled(Run(WithoutChecks(log)), ip, user, now) == IsThrottled(Run(log), ip, user, now)
  {
    ClockWithoutChecks(log, now);
    ThrottledIffEightFailures(log, ip, user, now);
    ThrottledIffEightFailures(WithoutChecks(log), ip, user, now);
    forall a: Axis ensures AxisLog(WithoutChecks(log), a) == AxisLog(log, a)
    {
      ChecksAreNotLogged(log, a);
    }
  }

  /** A check leaves no empty bucket behind, on any axis. */
  lemma ChecksDropEmptyBuckets(s: State, ip: string, user: string, now: nat)
    ensures
      var after := Checked(s, ip, user, now);
      && (forall k :: k in after.byIpUser ==> after.byIpUser[k] != [])
      && (forall k :: k in after.byIp ==> after.byIp[k] != [])
      && (forall k :: k in after.byUser ==> after.byUser[k] != [])
  {
  }

  // ----- The first window -----------------------------------------------------------------------

  /** Pruning keeps the fifteen-minute window exactly outside the clock's first one (its very start aside). */
  lemma PruneIsWindowIff(now: nat)
    ensures (forall t: nat :: t <= now ==> Prune([t], now) == From([t], now - 900)) <==> now == 0 || now >= 900
  {
    forall t: nat ensures Prune([t], now) == (if t >= Cutoff(now) then [t] else [])
                  ensures From([t], now - 900) == (if t >= now - 900 then [t] else [])
    {
      FromSingle(t, Cutoff(now));
      FromSingle(t, now - 900);
    }
    if 0 < now < 900 {
      assert Prune([now - 1], now) != From([now - 1], now - 900);
    }
  }

  lemma {:induction false} EarlyFailures(ip: string, user: string, t: nat, n: nat, a: Axis)
    requires t < WINDOW && a.Matches(ip, user)
    ensures BucketAfter(Repeat(Failure(ip, user, t), n), a) == Repeat<Time>(t, n)
  {
    var log := Repeat(Failure(ip, user, t), n);
    if n > 0 {
      assert Init(log) == Repeat(Failure(ip, user, t), n - 1) && Last(log) == Failure(ip, user, t);
      EarlyFailures(ip, user, t, n - 1, a);
      FromAllRecent(Repeat<Time>(t, n - 1), t);
      assert Repeat<Time>(t, n - 1) + [t] == Repeat<Time>(t, n);
    }
  }

  lemma EarlyBucketIsForgotten(ip: string, user: string, t: nat, now: nat, n: nat, a: Axis)
    requires t < now < WINDOW && a.Matches(ip, user)
    ensures Prune(BucketOf(Run(Repeat(Failure(ip, user, t), n)), a), now) == []
  {
    EarlyFailures(ip, user, t, n, a);
    BucketsAreIndependent(Repeat(Failure(ip, user, t), n), a);
    NothingRecent(t, n, now);
  }

  /** Counterexample family: in the clock's first window any number of failures is forgotten a second later. */
  lemma FirstWindowForgets(ip: string, user: string, t: nat, now: nat, n: nat)
    requires t < now < 900
    ensures !IsThrottled(Run(Repeat(Failure(ip, user, t), n)), ip, user, now)
  {
    EarlyBucketIsForgotten(ip, user, t, now, n, IpUserAxis(ip, user));
    EarlyBucketIsForgotten(ip, user, t, now, n, IpAxis(ip));
    EarlyBucketIsForgotten(ip, user, t, now, n, UserAxis(user));
  }

  lemma {:induction false} NothingRecent(t: Time, n: nat, cut: Time)
    requires t < cut
    ensures From(Repeat<Time>(t, n), cut) == []
  {
    if n > 0 {
      assert Init(Repeat<Time>(t, n)) == Repeat<Time>(t, n - 1);
      NothingRecent(t, n - 1, cut);
    }
  }
}
