/**
 The crashloop circuit breaker. `Armed` is the effect of one `arm` on one record; `Arm`,
 `MarkNotified` and `Unhold` are the operations on the persisted store.
 */
module Breaker {
  import opened Prelude
  import opened ContainerRuntime
  import opened Stores

  const OBSERVATION_WINDOW: Time := 300
  const DOCKER_RESTART_THRESHOLD: nat := 3
  const FAST_REEXIT_WITHIN: Time := 60
  const LXC_TRANSITION_THRESHOLD: nat := 3
  const LXC_JOURNAL_FAILURE_THRESHOLD: nat := 3
  const FOLD_CLAMP: nat := 1024

  datatype BreakerStatus = Watching | TentativeHold | Held

  datatype HoldReason =
    | RestartStormIn5Min(count: U32, windowStart: Time)
    | FastReexitAfterOrcaStart(withinSecs: U32, exitCode: int)
    | LxcFlappingIn5Min(transitions: U32, windowStart: Time)
    | LxcJournalFailuresIn5Min(failures: U32, windowStart: Time)

  datatype BreakerRecord = BreakerRecord(
    key: Key,
    lastOrcaStartAt: Option<Time>,
    restartCountSnapshot: Option<nat>,
    recentStarts: seq<Time>,
    status: BreakerStatus,
    heldReason: Option<HoldReason>,
    heldSince: Option<Time>,
    notifiedAt: Option<Time>,
    lastObservedState: Option<ContainerState>
  )

  datatype BreakerDecision = Proceed | Hold(reason: HoldReason, notifiedAt: Option<Time>)

  datatype BreakerError =
    | Io(cause: StoreError)
    | NotFound(key: Key)
    | NotHeld(current: BreakerStatus)

  datatype ArmRequest = ArmRequest(
    container: Container,
    observation: HostObservation,
    now: Time,
    initiatingStart: bool
  )

  function Fresh(key: Key): BreakerRecord {
    BreakerRecord(key, None, None, [], Watching, None, None, None, None)
  }

  predicate Actionable(r: BreakerRecord) {
    r.status.Held?
  }

  /** LXC adapters surface no exit code, so every tick arms. */
  predicate ArmOnEveryStart(runtime: RuntimeKind) {
    runtime.Lxc?
  }

  /** LXC starts are counted from observed transitions, so `arm` itself must not push one. */
  predicate FoldOwnsStartCount(runtime: RuntimeKind) {
    runtime.Lxc?
  }

  predicate ShortCircuits(r: BreakerRecord) {
    r.status.Held? && r.heldReason.Some?
  }

  // ----- Journal tail ---------------------------------------------------------------------------

  function Lower(c: char): char {
    if 'A' <= c <= 'Z' then (c as int + 32) as char else c
  }

  function LowerAll(s: string): string {
    seq(|s|, i requires 0 <= i < |s| => Lower(s[i]))
  }

  predicate Contains(s: string, sub: string) {
    sub <= s || (s != "" && Contains(s[1..], sub))
  }

  /** `str::lines`: pieces ended by a line feed, less a carriage return just before it. */
  function Lines(s: string, piece: string := ""): seq<string>
    decreases s
  {
    if s == "" then (if piece == "" then [] else [piece])
    else if s[0] == '\n' then [StripCr(piece)] + Lines(s[1..])
    else Lines(s[1..], piece + [s[0]])
  }

  function StripCr(line: string): string {
    if line != "" && Last(line) == '\r' then Init(line) else line
  }

  predicate IsFailureLine(line: string) {
    var lower := LowerAll(line);
    Contains(lower, "failed to start") || Contains(lower, "exited with status")
  }

  function FailureLines(lines: seq<string>): nat {
    if lines == [] then 0
    else FailureLines(Init(lines)) + if IsFailureLine(Last(lines)) then 1 else 0
  }

  /** The journal loop, counting in 32 bits as a release build does. */
  method CountFailureLines(tail: string) returns (count: U32)
    ensures count == AsU32(FailureLines(Lines(tail)))
  {
    var lines := Lines(tail);
    count := 0;
    for i := 0 to |lines|
      invariant count == AsU32(FailureLines(lines[..i]))
    {
      assert Init(lines[..i + 1]) == lines[..i];
      if IsFailureLine(lines[i]) {
        count := AsU32(count + 1);
      }
    }
    assert lines[..|lines|] == lines;
  }

  predicate OccursAt(s: string, sub: string, i: int) {
    0 <= i && i + |sub| <= |s| && s[i..i + |sub|] == sub
  }

  lemma OccursFirst(s: string, sub: string)
    ensures OccursAt(s, sub, 0) <==> sub <= s
  {
    if |sub| <= |s| {
      assert s[0..|sub|] == s[..|sub|];
    }
  }

  lemma OccursLater(s: string, sub: string, i: int)
    requires s != "" && i >= 1
    ensures OccursAt(s, sub, i) <==> OccursAt(s[1..], sub, i - 1)
  {
    if i + |sub| <= |s| {
      assert s[1..][i - 1..i - 1 + |sub|] == s[i..i + |sub|];
    }
  }

  /** The substring test means what it says. */
  lemma {:induction false} ContainsIff(s: string, sub: string)
    ensures Contains(s, sub) <==> exists i :: OccursAt(s, sub, i)
  {
    OccursFirst(s, sub);
    if s != "" {
      ContainsIff(s[1..], sub);
      if i :| OccursAt(s[1..], sub, i) {
        OccursLater(s, sub, i + 1);
        assert OccursAt(s, sub, i + 1);
      }
      if i :| OccursAt(s, sub, i) && i != 0 {
        OccursLater(s, sub, i);
        assert OccursAt(s[1..], sub, i - 1);
      }
    } else if i :| OccursAt(s, sub, i) {
      assert i == 0;
    }
  }

  /** A tail written one line feed per line. */
  function Unlines(lines: seq<string>): string {
    if lines == [] then "" else lines[0] + "\n" + Unlines(lines[1..])
  }

  predicate PlainLine(line: string) {
    '\n' !in line && StripCr(line) == line
  }

  lemma {:induction false} LinesOfPiece(piece: string, line: string, rest: string)
    requires '\n' !in line
    ensures Lines(line + "\n" + rest, piece) == [StripCr(piece + line)] + Lines(rest)
    decreases line
  {
    var s := line + "\n" + rest;
    if line == "" {
      assert s[1..] == rest && piece + line == piece;
    } else {
      assert s[0] == line[0] && s[1..] == line[1..] + "\n" + rest;
      LinesOfPiece(piece + [line[0]], line[1..], rest);
      assert piece + [line[0]] + line[1..] == piece + line;
    }
  }

  /** Splitting a written tail gives its lines back. */
  lemma {:induction false} LinesRoundTrip(lines: seq<string>)
    requires forall i :: 0 <= i < |lines| ==> PlainLine(lines[i])
    ensures Lines(Unlines(lines)) == lines
  {
    if lines != [] {
      LinesRoundTrip(lines[1..]);
      LinesOfPiece("", lines[0], Unlines(lines[1..]));
      assert "" + lines[0] == lines[0];
    }
  }

  /** A line that ends in a carriage return and a line feed is given without either. */
  lemma CrLfEndsALine(line: string, rest: string)
    requires '\n' !in line
    ensures Lines(line + "\r\n" + rest) == [line] + Lines(rest)
  {
    LinesOfPiece("", line + "\r", rest);
    assert (line + "\r") + "\n" + rest == line + "\r\n" + rest;
    assert "" + (line + "\r") == line + "\r" && Init(line + "\r") == line;
  }

  lemma {:induction false} LastPiece(piece: string, line: string)
    requires '\n' !in line
    ensures Lines(line, piece) == if piece + line == "" then [] else [piece + line]
    decreases line
  {
    if line == "" {
      assert piece + line == piece;
    } else {
      LastPiece(piece + [line[0]], line[1..]);
      assert piece + [line[0]] + line[1..] == piece + line;
    }
  }

  /** What follows the last line feed is a line too, unless it is empty. */
  lemma UnendedLineCounts(line: string)
    requires '\n' !in line
    ensures Lines(line) == if line == "" then [] else [line]
  {
    LastPiece("", line);
    assert "" + line == line;
  }

  /** Equal but for upper case letters of `a`. */
  predicate SameButForCase(a: char, b: char) {
    a == b || ('A' <= a <= 'Z' && a as int + 32 == b as int)
  }

  /** The lower-case phrase stands in the line at `i`, in whatever case. */
  predicate SaysAt(line: string, phrase: string, i: int) {
    && 0 <= i && i + |phrase| <= |line|
    && forall k :: 0 <= k < |phrase| ==> SameButForCase(line[i + k], phrase[k])
  }

  predicate IsLowerCase(phrase: string) {
    forall k :: 0 <= k < |phrase| ==> !('A' <= phrase[k] <= 'Z')
  }

  lemma OccursInLower(line: string, phrase: string, i: int)
    requires IsLowerCase(phrase)
    ensures OccursAt(LowerAll(line), phrase, i) <==> SaysAt(line, phrase, i)
  {
    if 0 <= i && i + |phrase| <= |line| {
      var lower := LowerAll(line);
      var part := lower[i..i + |phrase|];
      assert part == phrase <==> forall k :: 0 <= k < |phrase| ==> part[k] == phrase[k];
      assert forall k :: 0 <= k < |phrase| ==> part[k] == Lower(line[i + k]);
    }
  }

  lemma ContainsInAnyCase(line: string, phrase: string)
    requires IsLowerCase(phrase)
    ensures Contains(LowerAll(line), phrase) <==> exists i :: SaysAt(line, phrase, i)
  {
    ContainsIff(LowerAll(line), phrase);
    forall i ensures OccursAt(LowerAll(line), phrase, i) <==> SaysAt(line, phrase, i) {
      OccursInLower(line, phrase, i);
    }
  }

  /** The lines that count: those that say one of two phrases somewhere, in whatever ASCII case. */
  lemma FailureLineIff(line: string)
    ensures IsFailureLine(line) <==>
            exists i :: SaysAt(line, "failed to start", i) || SaysAt(line, "exited with status", i)
  {
    ContainsInAnyCase(line, "failed to start");
    ContainsInAnyCase(line, "exited with status");
  }

  /** And they are counted once each. */
  lemma {:induction false} FailureLinesAreCounted(lines: seq<string>)
    ensures FailureLines(lines) == |set i | 0 <= i < |lines| && IsFailureLine(lines[i])|
  {
    if lines != [] {
      var n := |lines| - 1;
      FailureLinesAreCounted(Init(lines));
      var before := set i | 0 <= i < |Init(lines)| && IsFailureLine(Init(lines)[i]);
      var now := set i | 0 <= i < |lines| && IsFailureLine(lines[i]);
      assert lines[n] == Last(lines) && forall i :: 0 <= i < n ==> lines[i] == Init(lines)[i];
      assert now == if IsFailureLine(lines[n]) then before + {n} else before;
    }
  }

  // ----- Folding and classifying ----------------------------------------------------------------

  /** Starts docker performed on its own since the snapshot, capped. */
  function DockerDelta(snapshot: Option<nat>, current: nat): nat {
    if snapshot.None? || current <= snapshot.value then 0
    else if current - snapshot.value <= FOLD_CLAMP then current - snapshot.value
    else FOLD_CLAMP
  }

  /** A stopped container that is now running. */
  predicate StoppedToRunning(previous: Option<ContainerState>, current: ContainerState) {
    && previous.Some?
    && (previous.value.Exited? || previous.value.Dead? || previous.value.Stopping?)
    && current.Running?
  }

  /** The state a fold compares against: the caller's override, else the record's own memory. */
  function PreviousState(q: ArmRequest, remembered: Option<ContainerState>): Option<ContainerState> {
    if q.observation.previousState.Some? then q.observation.previousState else remembered
  }

  function FoldDocker(r: BreakerRecord, c: Container, now: Time): BreakerRecord {
    var current := c.restartCount;
    if r.restartCountSnapshot.None? then r.(restartCountSnapshot := Some(current))
    else if current > r.restartCountSnapshot.value then
      r.(recentStarts := r.recentStarts + Repeat(now, DockerDelta(r.restartCountSnapshot, current)),
         restartCountSnapshot := Some(current))
    else r
  }

  function FoldLxc(r: BreakerRecord, c: Container, previous: Option<ContainerState>, now: Time): BreakerRecord {
    if StoppedToRunning(previous, c.state) then r.(recentStarts := r.recentStarts + [now]) else r
  }

  function Fold(r: BreakerRecord, q: ArmRequest): BreakerRecord {
    match q.container.runtime
    case Docker => FoldDocker(r, q.container, q.now)
    case Lxc => FoldLxc(r, q.container, PreviousState(q, r.lastObservedState), q.now)
    case Podman | Nspawn => r
  }

  function Earliest(ts: seq<Time>): (t: Time)
    requires ts != []
    ensures t in ts && forall u :: u in ts ==> t <= u
  {
    if |ts| == 1 then ts[0]
    else
      var e := Earliest(Init(ts));
      assert forall u :: u in ts <==> u in Init(ts) || u == Last(ts);
      if Last(ts) < e then Last(ts) else e
  }

  /** The fast re-exit rule: exited non-zero at most a minute after the last orca start. */
  function FastReexit(lastStart: Option<Time>, c: Container, now: Time): Option<HoldReason> {
    if lastStart.Some? && c.ExitedNonZero() && 0 <= now - lastStart.value <= FAST_REEXIT_WITHIN
    then Some(FastReexitAfterOrcaStart(now - lastStart.value, c.exitCode.value))
    else None
  }

  function ClassifyDocker(r: BreakerRecord, c: Container, now: Time): Option<HoldReason> {
    if |r.recentStarts| > DOCKER_RESTART_THRESHOLD
    then Some(RestartStormIn5Min(AsU32(|r.recentStarts|), Earliest(r.recentStarts)))
    else FastReexit(r.lastOrcaStartAt, c, now)
  }

  function JournalTrip(tail: Option<string>, now: Time): Option<HoldReason> {
    if tail.Some? && AsU32(FailureLines(Lines(tail.value))) > LXC_JOURNAL_FAILURE_THRESHOLD
    then Some(LxcJournalFailuresIn5Min(AsU32(FailureLines(Lines(tail.value))), now - OBSERVATION_WINDOW))
    else None
  }

  function ClassifyLxc(r: BreakerRecord, tail: Option<string>, now: Time): Option<HoldReason> {
    if AsU32(|r.recentStarts|) > LXC_TRANSITION_THRESHOLD
    then Some(LxcFlappingIn5Min(AsU32(|r.recentStarts|), Earliest(r.recentStarts)))
    else JournalTrip(tail, now)
  }

  function Classify(r: BreakerRecord, q: ArmRequest): Option<HoldReason> {
    match q.container.runtime
    case Docker => ClassifyDocker(r, q.container, q.now)
    case Lxc => ClassifyLxc(r, q.observation.journalTail, q.now)
    case Podman | Nspawn => None
  }

  // ----- Arming ---------------------------------------------------------------------------------

  function Pruned(r: BreakerRecord, now: Time): BreakerRecord {
    r.(recentStarts := From(r.recentStarts, now - OBSERVATION_WINDOW))
  }

  function Tripped(r: BreakerRecord, q: ArmRequest, reason: HoldReason): BreakerRecord {
    r.(status := Held, heldReason := Some(reason), heldSince := Some(q.now),
       lastObservedState := Some(q.container.state))
  }

  function Passed(r: BreakerRecord, q: ArmRequest): BreakerRecord {
    r.(recentStarts := if q.initiatingStart && !FoldOwnsStartCount(q.container.runtime)
                       then r.recentStarts + [q.now] else r.recentStarts,
       lastOrcaStartAt := if q.initiatingStart then Some(q.now) else r.lastOrcaStartAt,
       restartCountSnapshot := Some(q.container.restartCount),
       lastObservedState := Some(q.container.state))
  }

  /** One `arm` on one record: the record to persist and the decision to return. */
  function Armed(r: BreakerRecord, q: ArmRequest): (BreakerRecord, BreakerDecision) {
    if ShortCircuits(r) then
      (r.(lastObservedState := Some(q.container.state)), Hold(r.heldReason.value, r.notifiedAt))
    else
      var folded := Fold(Pruned(r, q.now), q);
      match Classify(folded, q)
      case Some(reason) => (Tripped(folded, q, reason), Hold(reason, None))
      case None => (Passed(folded, q), Proceed)
  }

  function Cleared(r: BreakerRecord): BreakerRecord {
    r.(status := Watching, heldReason := None, heldSince := None, notifiedAt := None, recentStarts := [])
  }

  /** The record `arm` starts from when the store has none. */
  function OrFresh(stored: Option<BreakerRecord>, key: Key): BreakerRecord {
    if stored.Some? then stored.value else Fresh(key)
  }

  // ----- Operations on the store ----------------------------------------------------------------

  function KeyOf(r: BreakerRecord): Key {
    r.key
  }

  /** The docker fold as the source writes it: one push per restart the runtime performed. */
  method FoldDockerByPushing(r: BreakerRecord, c: Container, now: Time) returns (out: BreakerRecord)
    ensures out == FoldDocker(r, c, now)
  {
    var current := c.restartCount;
    if r.restartCountSnapshot.None? {
      return r.(restartCountSnapshot := Some(current));
    }
    out := r;
    var baseline := r.restartCountSnapshot.value;
    if current > baseline {
      var delta := if current - baseline < FOLD_CLAMP then current - baseline else FOLD_CLAMP;
      var starts := r.recentStarts;
      for i := 0 to delta
        invariant starts == r.recentStarts + Repeat(now, i)
      {
        assert Repeat(now, i + 1) == Repeat(now, i) + [now];
        starts := starts + [now];
      }
      out := out.(recentStarts := starts, restartCountSnapshot := Some(current));
    }
  }

  method FoldObservation(r: BreakerRecord, q: ArmRequest) returns (out: BreakerRecord)
    ensures out == Fold(r, q)
  {
    match q.container.runtime
    case Docker => out := FoldDockerByPushing(r, q.container, q.now);
    case Lxc => out := FoldLxc(r, q.container, PreviousState(q, r.lastObservedState), q.now);
    case Podman => out := r;
    case Nspawn => out := r;
  }

  /** `classify_lxc`: the transition count first, then the journal. */
  method ClassifyLxcByCounting(r: BreakerRecord, tail: Option<string>, now: Time) returns (trip: Option<HoldReason>)
    ensures trip == ClassifyLxc(r, tail, now)
  {
    if AsU32(|r.recentStarts|) > LXC_TRANSITION_THRESHOLD {
      return Some(LxcFlappingIn5Min(AsU32(|r.recentStarts|), Earliest(r.recentStarts)));
    }
    if tail.Some? {
      var count := CountFailureLines(tail.value);
      if count > LXC_JOURNAL_FAILURE_THRESHOLD {
        return Some(LxcJournalFailuresIn5Min(count, now - OBSERVATION_WINDOW));
      }
    }
    return None;
  }

  method ClassifyObservation(r: BreakerRecord, q: ArmRequest) returns (trip: Option<HoldReason>)
    ensures trip == Classify(r, q)
  {
    match q.container.runtime
    case Docker => trip := ClassifyDocker(r, q.container, q.now);
    case Lxc => trip := ClassifyLxcByCounting(r, q.observation.journalTail, q.now);
    case Podman => trip := None;
    case Nspawn => trip := None;
  }

  /** The body of `arm` between load and save. */
  method FoldClassifyStamp(was: BreakerRecord, q: ArmRequest)
    returns (record: BreakerRecord, decision: BreakerDecision)
    ensures (record, decision) == Armed(was, q)
    ensures record.key == was.key
  {
    record := was;
    if record.status == Held && record.heldReason.Some? {
      decision := Hold(record.heldReason.value, record.notifiedAt);
    } else {
      record := record.(recentStarts := From(record.recentStarts, q.now - OBSERVATION_WINDOW));
      record := FoldObservation(record, q);
      var trip := ClassifyObservation(record, q);
      if trip.Some? {
        record := record.(status := Held, heldReason := trip, heldSince := Some(q.now));
        decision := Hold(trip.value, None);
      } else {
        if q.initiatingStart && !FoldOwnsStartCount(q.container.runtime) {
          record := record.(recentStarts := record.recentStarts + [q.now]);
        }
        if q.initiatingStart {
          record := record.(lastOrcaStartAt := Some(q.now));
        }
        record := record.(restartCountSnapshot := Some(q.container.restartCount));
        decision := Proceed;
      }
    }
    record := record.(lastObservedState := Some(q.container.state));
  }

  /**
   `arm` on the persisted store. A store that cannot be read fails before anything happens; a save
   whose flush fails reports the error although the cache already holds the new record.
   */
  method Arm(store: FileStore<Key, BreakerRecord>, q: ArmRequest)
    returns (r: Result<BreakerDecision, BreakerError>)
    requires store.Valid() && store.keyOf == KeyOf
    modifies store`inner, store`loaded, store`file
    ensures store.Valid()
    ensures
      var key := q.container.RecordKey();
      var was := OrFresh(Get(old(store.Contents()), key), key);
      && (!old(store.CanRead()) ==> r == Err(Io(ReadFailed)) && store.Contents() == old(store.Contents()))
      && (old(store.CanRead()) ==>
            && store.Contents() == old(store.Contents())[key := Armed(was, q).0]
            && r == if store.writable then Ok(Armed(was, q).1) else Err(Io(WriteFailed)))
      && (r.Ok? ==> store.Coherent())
      && (r.Err? ==> store.file == old(store.file))
  {
    var key := q.container.RecordKey();
    var loaded := store.Load(key);
    if loaded.Err? {
      return Err(Io(loaded.error));
    }
    var record := if loaded.value.Some? then loaded.value.value else Fresh(key);
    var decision;
    record, decision := FoldClassifyStamp(record, q);
    var saved := store.Save(record);
    if saved.Err? {
      return Err(Io(saved.error));
    }
    return Ok(decision);
  }

  method MarkNotified(store: FileStore<Key, BreakerRecord>, key: Key, when: Time)
    returns (r: Result<(), BreakerError>)
    requires store.Valid() && store.keyOf == KeyOf
    modifies store`inner, store`loaded, store`file
    ensures store.Valid()
    ensures old(store.CanRead()) && key !in old(store.Contents()) ==> r == Err(NotFound(key))
    ensures store.Contents() ==
            if old(store.CanRead()) && key in old(store.Contents())
            then old(store.Contents())[key := old(store.Contents())[key].(notifiedAt := Some(when))]
            else old(store.Contents())
    ensures r.Ok? <==> old(store.CanRead()) && key in old(store.Contents()) && store.writable
  {
    var loaded := store.Load(key);
    if loaded.Err? {
      return Err(Io(loaded.error));
    }
    if loaded.value.None? {
      return Err(NotFound(key));
    }
    var saved := store.Save(loaded.value.value.(notifiedAt := Some(when)));
    return if saved.Ok? then Ok(()) else Err(Io(saved.error));
  }

  /** Operator recovery: refuses a record that is not `Held`, clears the hold otherwise. */
  method Unhold(store: FileStore<Key, BreakerRecord>, key: Key)
    returns (r: Result<BreakerRecord, BreakerError>)
    requires store.Valid() && store.keyOf == KeyOf
    modifies store`inner, store`loaded, store`file
    ensures store.Valid()
    ensures
      var was := Get(old(store.Contents()), key);
      var clears := old(store.CanRead()) && was.Some? && was.value.status.Held?;
      && store.Contents() == (if clears then old(store.Contents())[key := Cleared(was.value)] else old(store.Contents()))
      && (old(store.CanRead()) && was.None? ==> r == Err(NotFound(key)))
      && (old(store.CanRead()) && was.Some? && !was.value.status.Held? ==> r == Err(NotHeld(was.value.status)))
      && (clears && store.writable ==> r == Ok(Cleared(was.value)))
      && (r.Ok? ==> clears && store.writable)
  {
    var loaded := store.Load(key);
    if loaded.Err? {
      return Err(Io(loaded.error));
    }
    if loaded.value.None? {
      return Err(NotFound(key));
    }
    var record := loaded.value.value;
    if record.status != Held {
      return Err(NotHeld(record.status));
    }
    record := record.(status := Watching, heldReason := None, heldSince := None, notifiedAt := None);
    record := record.(recentStarts := []);
    var saved := store.Save(record);
    return if saved.Ok? then Ok(record) else Err(Io(saved.error));
  }
}
