/** Wedged-container detection and recovery: the state machine and the handler that drives it. */
module Wedge {
  import opened Prelude
  import opened ContainerRuntime
  import opened Stores

  const WEDGE_ARM_THRESHOLD: nat := 2
  const MAX_RECOVERY_ATTEMPTS: nat := 3
  const MIN_BACKOFF_BETWEEN_ATTEMPTS: Time := 60

  datatype RecoveryOutcome = RecoverySucceeded | RecoveryFailed(error: string)

  datatype WedgeRecord = WedgeRecord(
    key: Key,
    consecutiveWedgedTicks: U32,
    firstWedgedAt: Option<Time>,
    recoveryAttempts: U32,
    lastAttemptAt: Option<Time>,
    lastAttemptOutcome: Option<RecoveryOutcome>,
    escalated: bool,
    notifiedDetected: bool
  ) {
    predicate BackoffSatisfied(now: Time) {
      lastAttemptAt.None? || now - lastAttemptAt.value >= MIN_BACKOFF_BETWEEN_ATTEMPTS
    }

    function WedgedDuration(now: Time): Time {
      if firstWedgedAt.Some? then now - firstWedgedAt.value else 0
    }

    function FirstWedgedOr(now: Time): Time {
      if firstWedgedAt.Some? then firstWedgedAt.value else now
    }
  }

  function NewRecord(key: Key, now: Time): WedgeRecord {
    WedgeRecord(key, 1, Some(now), 0, None, None, false, false)
  }

  predicate Actionable(r: WedgeRecord) {
    r.escalated
  }

  datatype WedgeNews =
    | Detected(firstWedgedAt: Time)
    | Attempted(number: nat)
    | Succeeded(taken: nat, duration: Time)
    | Failed(number: nat, error: string)
    | Unrecoverable(attempts: nat, firstWedgedAt: Time)
    | Recovered(attempts: nat, duration: Time)

  datatype WedgeEvent = WedgeEvent(key: Key, containerName: string, news: WedgeNews)

  datatype NextAction = Save(record: WedgeRecord) | Delete | AttemptRecovery(record: WedgeRecord) | Noop

  datatype ObservationResult = ObservationResult(next: NextAction, events: seq<WedgeEvent>)

  predicate IsUnwedgeManual(c: Container) {
    c.HasLabel("orca.unwedge", "manual")
  }

  // ----- One liveness observation ---------------------------------------------------------------

  function ProcessLiveness(
    prior: Option<WedgeRecord>, observed: Liveness, c: Container, hasRecoverer: bool, now: Time
  ): ObservationResult {
    match observed
    case Live => ObservationLive(prior, c, now)
    case Wedged => ObservationWedged(prior, c, hasRecoverer, now)
    case NotApplicable | Unknown =>
      ObservationResult(if prior.Some? then Save(prior.value) else Noop, [])
  }

  function ObservationLive(prior: Option<WedgeRecord>, c: Container, now: Time): ObservationResult {
    if prior.None? then ObservationResult(Noop, [])
    else if prior.value.recoveryAttempts == 0 then ObservationResult(Delete, [])
    else
      var r := prior.value;
      ObservationResult(Delete, [WedgeEvent(r.key, c.name, Recovered(r.recoveryAttempts, r.WedgedDuration(now)))])
  }

  /** One more wedged tick on the record, or the first of a streak. */
  function Upserted(prior: Option<WedgeRecord>, c: Container, now: Time): WedgeRecord {
    if prior.Some?
    then prior.value.(consecutiveWedgedTicks := SaturatingIncrement(prior.value.consecutiveWedgedTicks))
    else NewRecord(c.RecordKey(), now)
  }

  function DetectedOnce(r: WedgeRecord, c: Container, now: Time): seq<WedgeEvent> {
    if r.notifiedDetected then [] else [WedgeEvent(r.key, c.name, Detected(r.FirstWedgedOr(now)))]
  }

  function Escalation(r: WedgeRecord, c: Container, now: Time): WedgeEvent {
    WedgeEvent(r.key, c.name, Unrecoverable(r.recoveryAttempts, r.FirstWedgedOr(now)))
  }

  function ObservationWedged(
    prior: Option<WedgeRecord>, c: Container, hasRecoverer: bool, now: Time
  ): ObservationResult {
    var upserted := Upserted(prior, c, now);
    var detected := DetectedOnce(upserted, c, now);
    var r := upserted.(notifiedDetected := true);
    var armReached := r.consecutiveWedgedTicks >= WEDGE_ARM_THRESHOLD;
    if r.escalated then
      ObservationResult(Save(r), detected)
    else if armReached && (IsUnwedgeManual(c) || !hasRecoverer) then
      ObservationResult(Save(r.(escalated := true)), detected + [Escalation(r, c, now)])
    else if r.recoveryAttempts >= MAX_RECOVERY_ATTEMPTS then
      ObservationResult(Save(r.(escalated := true)), detected + [Escalation(r, c, now)])
    else if armReached && r.BackoffSatisfied(now) then
      ObservationResult(AttemptRecovery(r), detected + [WedgeEvent(r.key, c.name, Attempted(r.recoveryAttempts + 1))])
    else
      ObservationResult(Save(r), detected)
  }

  // ----- One recovery attempt -------------------------------------------------------------------

  datatype RecoveryCall = CallOk | CallErr(message: string)

  datatype UnwedgeOutcome = UnwedgeOutcome(recovered: bool, error: Option<string>)

  /** None: the adapter has no recoverer and refuses. A call that worked still needs a Live probe. */
  function AttemptUnwedge(recoverer: Option<RecoveryCall>, postProbe: Liveness): Option<UnwedgeOutcome> {
    match recoverer
    case None => None
    case Some(CallOk) => Some(UnwedgeOutcome(postProbe.Live?, None))
    case Some(CallErr(message)) => Some(UnwedgeOutcome(false, Some(message)))
  }

  const STILL_WEDGED: string := "post-attempt still wedged"

  function ProcessRecoveryOutcome(
    record: WedgeRecord, outcome: UnwedgeOutcome, c: Container, now: Time
  ): ObservationResult {
    var r := record.(recoveryAttempts := SaturatingIncrement(record.recoveryAttempts), lastAttemptAt := Some(now));
    if outcome.recovered then
      ObservationResult(Delete, [WedgeEvent(r.key, c.name, Succeeded(r.recoveryAttempts, r.WedgedDuration(now)))])
    else
      var error := if outcome.error.Some? then outcome.error.value else STILL_WEDGED;
      var stamped := r.(lastAttemptOutcome := Some(RecoveryFailed(error)));
      var failed := [WedgeEvent(r.key, c.name, Failed(r.recoveryAttempts, error))];
      if r.recoveryAttempts >= MAX_RECOVERY_ATTEMPTS && !r.escalated
      then ObservationResult(Save(stamped.(escalated := true)), failed + [Escalation(r, c, now)])
      else ObservationResult(Save(stamped), failed)
  }

  // ----- The handler ----------------------------------------------------------------------------

  /** Everything the environment answers during one wedge tick of one container. */
  datatype WedgeTick = WedgeTick(
    container: Container,
    observed: Liveness,
    recoverer: Option<RecoveryCall>,
    now: Time,
    postProbe: Liveness,
    after: Time
  )

  function Applied(s: Option<WedgeRecord>, next: NextAction): Option<WedgeRecord> {
    match next
    case Noop => s
    case Delete => None
    case Save(r) => Some(r)
    case AttemptRecovery(r) => Some(r)
  }

  /** How one tick's reads and writes of its record fared. */
  datatype Fate =
    | Written      // everything worked
    | Unreadable   // the record could not be loaded: the tick does nothing
    | Lost         // no write of the tick reached the file: the next pass reads the older record
    | Died         // the process died during the attempt: the intent is in the file, the outcome is not
    | OutcomeLost  // the attempt ran and was reported, but only its intent is in the file
  {
    /** The record an observation alone asks for reaches the file. */
    predicate Lands() {
      !Unreadable? && !Lost?
    }
  }

  /** The part of a tick from the pre-attempt save on, that save having worked. */
  function Tried(record: WedgeRecord, t: WedgeTick, fate: Fate): (Option<WedgeRecord>, seq<WedgeEvent>) {
    var outcome := AttemptUnwedge(t.recoverer, t.postProbe);
    if fate.Died? || outcome.None? then (Some(record), [])
    else
      var follow := ProcessRecoveryOutcome(record, outcome.value, t.container, t.after);
      (if fate.OutcomeLost? then Some(record) else Applied(Some(record), follow.next), follow.events)
  }

  /** What a tick does once it knows what its observation asks for. */
  function ActedOn(s: Option<WedgeRecord>, result: ObservationResult, t: WedgeTick, fate: Fate)
    : (Option<WedgeRecord>, seq<WedgeEvent>)
  {
    if fate.Lost? then (s, result.events)
    else if result.next.AttemptRecovery? then
      var tried := Tried(result.next.record, t, fate);
      (tried.0, result.events + tried.1)
    else (Applied(s, result.next), result.events)
  }

  /**
   The record in the file and the events after one tick. Events go out before anything is written, so
   a lost write does not take them back; a lost pre-attempt save gives the attempt up.
   */
  function Handled(s: Option<WedgeRecord>, t: WedgeTick, fate: Fate): (Option<WedgeRecord>, seq<WedgeEvent>) {
    if fate.Unreadable? then (s, [])
    else ActedOn(s, ProcessLiveness(s, t.observed, t.container, t.recoverer.Some?, t.now), t, fate)
  }

  function KeyOf(r: WedgeRecord): Key {
    r.key
  }

  function Updated(m: map<Key, WedgeRecord>, key: Key, s: Option<WedgeRecord>): map<Key, WedgeRecord> {
    if s.Some? then m[key := s.value] else m - {key}
  }

  lemma UpdatedAfterSave(m: map<Key, WedgeRecord>, key: Key, r: WedgeRecord, s: Option<WedgeRecord>)
    ensures Updated(m[key := r], key, s) == Updated(m, key, s)
  {
  }

  lemma UpdatedWithItself(m: map<Key, WedgeRecord>, key: Key)
    ensures Updated(m, key, Get(m, key)) == m
  {
  }

  /** Saves or deletes as the state machine asked; a lost flush is only logged. */
  method Apply(store: FileStore<Key, WedgeRecord>, key: Key, next: NextAction)
    requires store.Valid() && store.keyOf == KeyOf && store.loaded
    requires next.Save? ==> next.record.key == key
    requires !next.AttemptRecovery?
    modifies store`inner, store`loaded, store`file
    ensures store.Valid() && store.loaded
    ensures store.Contents() == Updated(old(store.Contents()), key, Applied(Get(old(store.Contents()), key), next))
    ensures old(store.Coherent()) && store.writable ==> store.Coherent()
    ensures old(store.Coherent()) && !store.writable ==> store.Reopened() == old(store.Reopened())
  {
    match next
    case Noop =>
      UpdatedWithItself(store.Contents(), key);
    case Delete =>
      var _ := store.Delete(key);
    case Save(r) =>
      var _ := store.Save(r);
    case AttemptRecovery(_) =>
  }

  /** What the running pass believes after a lost write: its cache has the intent, as if it had died. */
  function CacheFate(writable: bool): Fate {
    if writable then Written else Died
  }

  function FileFate(writable: bool): Fate {
    if writable then Written else Lost
  }

  method AttemptAndFollowUp(store: FileStore<Key, WedgeRecord>, t: WedgeTick, record: WedgeRecord)
    returns (events: seq<WedgeEvent>)
    requires store.Valid() && store.keyOf == KeyOf && store.loaded && record.key == t.container.RecordKey()
    modifies store`inner, store`loaded, store`file
    ensures store.Valid()
    ensures
      var tried := Tried(record, t, CacheFate(store.writable));
      store.Contents() == Updated(old(store.Contents()), record.key, tried.0) && events == tried.1
    ensures old(store.Coherent()) && store.writable ==> store.Coherent()
    ensures old(store.Coherent()) && !store.writable ==> store.Reopened() == old(store.Reopened())
  {
    var saved := store.Save(record);
    if saved.Err? {
      return [];
    }
    var outcome := AttemptUnwedge(t.recoverer, t.postProbe);
    if outcome.None? {
      return [];
    }
    var follow := ProcessRecoveryOutcome(record, outcome.value, t.container, t.after);
    UpdatedAfterSave(old(store.Contents()), record.key, record, Applied(Some(record), follow.next));
    Apply(store, record.key, follow.next);
    return follow.events;
  }

  /**
   `handle_wedge_observation`: an unreadable store does nothing; a failed pre-attempt save gives the
   attempt up after its event has gone out. The store is rebuilt for every pass, so what the next pass
   finds is what is in the file.
   */
  method HandleObservation(store: FileStore<Key, WedgeRecord>, t: WedgeTick) returns (events: seq<WedgeEvent>)
    requires store.Valid() && store.keyOf == KeyOf
    modifies store`inner, store`loaded, store`file
    ensures store.Valid()
    ensures
      var key := t.container.RecordKey();
      var was := old(store.Contents());
      if old(store.CanRead()) then
        var handled := Handled(Get(was, key), t, CacheFate(store.writable));
        store.Contents() == Updated(was, key, handled.0) && events == handled.1
      else
        store.Contents() == was && events == []
    ensures
      var key := t.container.RecordKey();
      var was := old(store.Reopened());
      old(store.Coherent() && store.CanRead()) ==>
        var handled := Handled(Get(was, key), t, FileFate(store.writable));
        store.Reopened() == Updated(was, key, handled.0) && events == handled.1
  {
    var key := t.container.RecordKey();
    var loaded := store.Load(key);
    if loaded.Err? {
      return [];
    }
    var result := ProcessLiveness(loaded.value, t.observed, t.container, t.recoverer.Some?, t.now);
    ObservationKeepsKey(loaded.value, t);
    events := Act(store, t, result);
  }

  /** The record an observation asks for is about the same container. */
  predicate AsksAbout(next: NextAction, key: Key) {
    next.Save? || next.AttemptRecovery? ==> next.record.key == key
  }

  lemma ObservationKeepsKey(s: Option<WedgeRecord>, t: WedgeTick)
    requires s.Some? ==> s.value.key == t.container.RecordKey()
    ensures AsksAbout(ProcessLiveness(s, t.observed, t.container, t.recoverer.Some?, t.now).next, t.container.RecordKey())
  {
  }

  method Act(store: FileStore<Key, WedgeRecord>, t: WedgeTick, result: ObservationResult) returns (events: seq<WedgeEvent>)
    requires store.Valid() && store.keyOf == KeyOf && store.loaded
    requires AsksAbout(result.next, t.container.RecordKey())
    modifies store`inner, store`loaded, store`file
    ensures store.Valid()
    ensures
      var key := t.container.RecordKey();
      var was := old(store.Contents());
      var acted := ActedOn(Get(was, key), result, t, CacheFate(store.writable));
      store.Contents() == Updated(was, key, acted.0) && events == acted.1
    ensures
      var key := t.container.RecordKey();
      var was := old(store.Reopened());
      old(store.Coherent()) ==>
        var acted := ActedOn(Get(was, key), result, t, FileFate(store.writable));
        store.Reopened() == Updated(was, key, acted.0) && events == acted.1
  {
    var key := t.container.RecordKey();
    events := result.events;
    UpdatedWithItself(old(store.Contents()), key);
    if !result.next.AttemptRecovery? {
      Apply(store, key, result.next);
      return;
    }
    var more := AttemptAndFollowUp(store, t, result.next.record);
    events := events + more;
  }
}
