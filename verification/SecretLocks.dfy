/**
 The per-secret write lock. A global table maps a secret's name to a shared mutex; entries are made on
 demand and removed by the last user, who recognises itself by the mutex's reference count. Every
 step below is one atomic access to the table, a mutex or a reference count, and tasks interleave
 freely, may be cancelled while waiting, and may fail to open the lock file.
 */
module SecretLocks {
  import opened Prelude

  type Task = nat
  type LockId = nat

  datatype Phase =
    | Waiting(name: string, lock: LockId)     // cloned the handle, waiting for the mutex
    | Opening(name: string, lock: LockId)     // owns the mutex, opening the lock file
    | Guarded(name: string, lock: LockId)     // the guard has been returned
    | Unlocked(name: string, lock: LockId)    // in drop: mutex released, handle still counted
    | Dropped(name: string)                   // in drop: handle gone, table not yet looked at
    | Failing(name: string, lock: LockId)     // lock file failed or its wait was cancelled: mutex released, handle still counted
  {
    predicate HasHandle() {
      !Dropped?
    }

    predicate OwnsMutex() {
      Opening? || Guarded?
    }
  }

  datatype State = State(
    table: map<string, LockId>,
    owner: map<LockId, Task>,
    tasks: map<Task, Phase>,
    nextLock: LockId
  )

  datatype Action =
    | Lookup(t: Task, name: string)
    | Acquire(t: Task)
    | OpenFile(t: Task)
    | FailFile(t: Task)
    | Abandon(t: Task)
    | Unlock(t: Task)
    | DropHandle(t: Task)
    | Cleanup(t: Task)

  const INITIAL := State(map[], map[], map[], 0)

  /** Tasks holding a clone of the shared mutex. */
  function Holders(s: State, lock: LockId): set<Task> {
    set t | t in s.tasks && s.tasks[t].HasHandle() && s.tasks[t].lock == lock
  }

  /** `Arc::strong_count` seen from the table: its own handle and one per task. */
  function StrongCount(s: State, lock: LockId): nat {
    1 + |Holders(s, lock)|
  }

  predicate Enabled(s: State, a: Action) {
    match a
    case Lookup(t, _) => t !in s.tasks
    case Acquire(t) => t in s.tasks && s.tasks[t].Waiting? && s.tasks[t].lock !in s.owner
    case OpenFile(t) => t in s.tasks && s.tasks[t].Opening?
    case FailFile(t) => t in s.tasks && s.tasks[t].Opening?
    case Abandon(t) => t in s.tasks && (s.tasks[t].Waiting? || s.tasks[t].Failing?)
    case Unlock(t) => t in s.tasks && s.tasks[t].Guarded?
    case DropHandle(t) => t in s.tasks && s.tasks[t].Unlocked?
    case Cleanup(t) => t in s.tasks && s.tasks[t].Dropped?
  }

  function Next(s: State, a: Action): State
    requires Enabled(s, a)
  {
    match a
    case Lookup(t, name) =>
      var lock := if name in s.table then s.table[name] else s.nextLock;
      s.(table := s.table[name := lock], tasks := s.tasks[t := Waiting(name, lock)],
         nextLock := if name in s.table then s.nextLock else s.nextLock + 1)
    case Acquire(t) =>
      var p := s.tasks[t];
      s.(owner := s.owner[p.lock := t], tasks := s.tasks[t := Opening(p.name, p.lock)])
    case OpenFile(t) =>
      s.(tasks := s.tasks[t := Guarded(s.tasks[t].name, s.tasks[t].lock)])
    case FailFile(t) =>
      var p := s.tasks[t];
      s.(owner := s.owner - {p.lock}, tasks := s.tasks[t := Failing(p.name, p.lock)])
    case Abandon(t) =>
      s.(tasks := s.tasks - {t})
    case Unlock(t) =>
      var p := s.tasks[t];
      s.(owner := s.owner - {p.lock}, tasks := s.tasks[t := Unlocked(p.name, p.lock)])
    case DropHandle(t) =>
      s.(tasks := s.tasks[t := Dropped(s.tasks[t].name)])
    case Cleanup(t) =>
      var name := s.tasks[t].name;
      s.(table := if name in s.table && StrongCount(s, s.table[name]) == 1 then s.table - {name} else s.table,
         tasks := s.tasks - {t})
  }

  predicate IsRun(actions: seq<Action>)
    decreases |actions|, 0
  {
    actions == [] || (IsRun(Init(actions)) && Enabled(After(Init(actions)), Last(actions)))
  }

  function After(actions: seq<Action>): State
    requires IsRun(actions)
    decreases |actions|, 1
  {
    if actions == [] then INITIAL else Next(After(Init(actions)), Last(actions))
  }

  // ----- Safety ---------------------------------------------------------------------------------

  /** Every outstanding handle for a name is the one in the table. */
  ghost predicate HandlesAreInTable(s: State) {
    forall t :: t in s.tasks && s.tasks[t].HasHandle() ==>
                  s.tasks[t].name in s.table && s.table[s.tasks[t].name] == s.tasks[t].lock
  }

  /** A mutex's owner is the one task in a phase that owns it. */
  ghost predicate OwnersAreExact(s: State) {
    && (forall t :: t in s.tasks && s.tasks[t].OwnsMutex() ==>
                      s.tasks[t].lock in s.owner && s.owner[s.tasks[t].lock] == t)
    && (forall lock :: lock in s.owner ==>
                         && s.owner[lock] in s.tasks && s.tasks[s.owner[lock]].OwnsMutex()
                         && s.tasks[s.owner[lock]].lock == lock)
  }

  /** Two names never share a mutex, and new mutexes are new. */
  ghost predicate TableIsInjective(s: State) {
    && (forall n :: n in s.table ==> s.table[n] < s.nextLock)
    && (forall m, n :: m in s.table && n in s.table && s.table[m] == s.table[n] ==> m == n)
  }

  ghost predicate Inv(s: State) {
    HandlesAreInTable(s) && OwnersAreExact(s) && TableIsInjective(s)
  }

  lemma CleanupSparesHandles(s: State, t: Task)
    requires Inv(s) && Enabled(s, Cleanup(t))
    ensures HandlesAreInTable(Next(s, Cleanup(t)))
  {
    var s' := Next(s, Cleanup(t));
    forall u | u in s'.tasks && s'.tasks[u].HasHandle()
      ensures s'.tasks[u].name in s'.table && s'.table[s'.tasks[u].name] == s'.tasks[u].lock
    {
      assert u in Holders(s, s.tasks[u].lock);
    }
  }

  lemma NextKeepsHandles(s: State, a: Action)
    requires Inv(s) && Enabled(s, a)
    ensures HandlesAreInTable(Next(s, a))
  {
    if a.Cleanup? {
      CleanupSparesHandles(s, a.t);
    }
  }

  lemma NextKeepsOwners(s: State, a: Action)
    requires Inv(s) && Enabled(s, a)
    ensures OwnersAreExact(Next(s, a))
  {
  }

  lemma NextKeepsInjective(s: State, a: Action)
    requires TableIsInjective(s) && Enabled(s, a)
    ensures TableIsInjective(Next(s, a))
  {
  }

  lemma NextKeepsInv(s: State, a: Action)
    requires Inv(s) && Enabled(s, a)
    ensures Inv(Next(s, a))
  {
    NextKeepsHandles(s, a);
    NextKeepsOwners(s, a);
    NextKeepsInjective(s, a);
  }

  lemma {:induction false} ReachableInv(actions: seq<Action>)
    requires IsRun(actions)
    ensures Inv(After(actions))
  {
    if actions != [] {
      ReachableInv(Init(actions));
      NextKeepsInv(After(Init(actions)), Last(actions));
    }
  }

  /**
   Mutual exclusion under every interleaving: although idle entries come and go, at most one task at
   a time is between acquiring and releasing the lock of a given name.
   */
  lemma AtMostOneWriter(actions: seq<Action>, t: Task, u: Task)
    requires IsRun(actions)
    requires t in After(actions).tasks && After(actions).tasks[t].OwnsMutex()
    requires u in After(actions).tasks && After(actions).tasks[u].OwnsMutex()
    requires After(actions).tasks[t].name == After(actions).tasks[u].name
    ensures t == u
  {
    ReachableInv(actions);
  }

  // ----- Reclamation ----------------------------------------------------------------------------

  ghost predicate Busy(s: State, name: string) {
    exists t :: t in s.tasks && s.tasks[t].name == name
  }

  datatype Exit = NeverUsed | Clean | Aborted

  /** How the latest task to leave `name` left it. */
  function LastExit(actions: seq<Action>, name: string): Exit
    requires IsRun(actions)
  {
    if actions == [] then NeverUsed
    else
      var s := After(Init(actions));
      match Last(actions)
      case Cleanup(t) => if s.tasks[t].name == name then Clean else LastExit(Init(actions), name)
      case Abandon(t) => if s.tasks[t].name == name then Aborted else LastExit(Init(actions), name)
      case _ => LastExit(Init(actions), name)
  }

  ghost predicate EntryExplained(s: State, name: string, exit: Exit) {
    && (exit.Aborted? ==> name in s.table)
    && (name in s.table && !Busy(s, name) ==> exit.Aborted?)
  }

  lemma BusyAfter(s: State, a: Action, name: string)
    requires Enabled(s, a) && Busy(s, name)
    requires !(a.Cleanup? && s.tasks[a.t].name == name) && !(a.Abandon? && s.tasks[a.t].name == name)
    ensures Busy(Next(s, a), name)
  {
    var u :| u in s.tasks && s.tasks[u].name == name;
    assert u in Next(s, a).tasks && Next(s, a).tasks[u].name == name;
  }

  lemma CleanupExplains(s: State, t: Task)
    requires Inv(s) && Enabled(s, Cleanup(t))
    ensures EntryExplained(Next(s, Cleanup(t)), s.tasks[t].name, Clean)
  {
    var name := s.tasks[t].name;
    var s' := Next(s, Cleanup(t));
    if name in s'.table {
      assert Holders(s, s.table[name]) != {};
      var u :| u in Holders(s, s.table[name]);
      assert u in s'.tasks && s'.tasks[u].name == name;
    }
  }

  lemma {:induction false} EntriesAreExplained(actions: seq<Action>, name: string)
    requires IsRun(actions)
    ensures EntryExplained(After(actions), name, LastExit(actions, name))
  {
    if actions != [] {
      var was := Init(actions);
      var s, a := After(was), Last(actions);
      EntriesAreExplained(was, name);
      ReachableInv(was);
      if a.Cleanup? && s.tasks[a.t].name == name {
        CleanupExplains(s, a.t);
      } else if a.Abandon? && s.tasks[a.t].name == name {
      } else if a.Lookup? && a.name == name {
        assert Next(s, a).tasks[a.t].name == name;
      } else if Busy(s, name) {
        BusyAfter(s, a, name);
      }
    }
  }

  /**
   Once no task is using a name, its entry is gone exactly when the last task to leave did so through
   its guard; a cancelled wait or a failed lock file as the last departure leaves the entry behind.
   */
  lemma IdleEntryRemainsIffLastUserAborted(actions: seq<Action>, name: string)
    requires IsRun(actions) && !Busy(After(actions), name)
    ensures name in After(actions).table <==> LastExit(actions, name).Aborted?
  {
    EntriesAreExplained(actions, name);
  }

  predicate NoAborts(actions: seq<Action>) {
    forall i :: 0 <= i < |actions| ==> !actions[i].Abandon?
  }

  lemma {:induction false} NoAbortsNoAbortedExit(actions: seq<Action>, name: string)
    requires IsRun(actions) && NoAborts(actions)
    ensures !LastExit(actions, name).Aborted?
  {
    if actions != [] {
      NoAbortsNoAbortedExit(Init(actions), name);
      assert Last(actions) == actions[|actions| - 1];
    }
  }

  /** Without cancellations and lock-file errors the table is empty once every task has finished. */
  lemma TableEmptiesWithoutAborts(actions: seq<Action>)
    requires IsRun(actions) && NoAborts(actions) && After(actions).tasks == map[]
    ensures After(actions).table == map[]
  {
    var s := After(actions);
    forall name ensures name !in s.table {
      assert !Busy(s, name);
      IdleEntryRemainsIffLastUserAborted(actions, name);
      NoAbortsNoAbortedExit(actions, name);
    }
    assert s.table.Keys == {};
  }

  /** The leak is real: one cancelled wait on an idle name leaves an entry nobody uses. */
  lemma CancelledWaitLeavesAnEntry(name: string)
    ensures
      var actions := [Lookup(0, name), Abandon(0)];
      IsRun(actions) && name in After(actions).table && !Busy(After(actions), name)
  {
    var actions := [Lookup(0, name), Abandon(0)];
    assert Init(actions) == [Lookup(0, name)];
    assert Init([Lookup(0, name)]) == [];
    assert IsRun([Lookup(0, name)]);
    assert After([Lookup(0, name)]).tasks == map[0 := Waiting(name, 0)];
    assert After(actions).tasks == map[];
  }

  // ----- Liveness -----------------------------------------------------------------------------------

  lemma TakenLockHasAWriter(s: State, t: Task)
    requires Inv(s) && t in s.tasks && s.tasks[t].Waiting? && s.tasks[t].lock in s.owner
    ensures
      var u := s.owner[s.tasks[t].lock];
      u in s.tasks && s.tasks[u].name == s.tasks[t].name && (s.tasks[u].Opening? || s.tasks[u].Guarded?)
  {
    var u := s.owner[s.tasks[t].lock];
    assert s.table[s.tasks[u].name] == s.table[s.tasks[t].name];
  }

  /** A waiting task may take the lock as soon as no task of that name is between acquiring and releasing it. */
  lemma FreeLockMayBeTaken(actions: seq<Action>, t: Task)
    requires IsRun(actions) && t in After(actions).tasks && After(actions).tasks[t].Waiting?
    requires forall u :: u in After(actions).tasks && After(actions).tasks[u].name == After(actions).tasks[t].name ==>
                           !After(actions).tasks[u].Opening? && !After(actions).tasks[u].Guarded?
    ensures Enabled(After(actions), Acquire(t))
  {
    ReachableInv(actions);
    if After(actions).tasks[t].lock in After(actions).owner {
      TakenLockHasAWriter(After(actions), t);
    }
  }

  /** A step of a task that already runs and is not given up while it waits. */
  predicate Advances(s: State, a: Action) {
    Enabled(s, a) && !a.Lookup? && (a.Abandon? ==> s.tasks[a.t].Failing?)
  }

  /** The step of a task that does not wait. */
  function OwnStep(p: Phase, t: Task): Action
    requires !p.Waiting?
  {
    match p
    case Opening(_, _) => OpenFile(t)
    case Guarded(_, _) => Unlock(t)
    case Unlocked(_, _) => DropHandle(t)
    case Dropped(_) => Cleanup(t)
    case Failing(_, _) => Abandon(t)
  }

  /** No deadlock: as long as some task runs, some task can take its next step without being cancelled. */
  lemma SomebodyAdvances(actions: seq<Action>, t: Task) returns (a: Action)
    requires IsRun(actions) && t in After(actions).tasks
    ensures Advances(After(actions), a)
  {
    var s := After(actions);
    ReachableInv(actions);
    if !s.tasks[t].Waiting? {
      a := OwnStep(s.tasks[t], t);
    } else if s.tasks[t].lock !in s.owner {
      a := Acquire(t);
    } else {
      var u := s.owner[s.tasks[t].lock];
      a := OwnStep(s.tasks[u], u);
    }
  }

  lemma RunPush(actions: seq<Action>, s: State, a: Action, s': State)
    requires IsRun(actions) && After(actions) == s && Enabled(s, a) && Next(s, a) == s'
    ensures IsRun(actions + [a]) && After(actions + [a]) == s'
  {
    assert Init(actions + [a]) == actions;
  }

  /** A whole use of an idle name: looked up, acquired, guarded, released, and its entry reclaimed. */
  function OneUse(t: Task, name: string): seq<Action> {
    [Lookup(t, name)] + [Acquire(t)] + [OpenFile(t)] + [Unlock(t)] + [DropHandle(t)] + [Cleanup(t)]
  }

  /** The only task of the only name, in a given phase. */
  function Alone(t: Task, name: string, owner: map<LockId, Task>, phase: Phase): State {
    State(map[name := 0], owner, map[t := phase], 1)
  }

  lemma UseUpToTheGuard(t: Task, name: string)
    ensures
      && Next(INITIAL, Lookup(t, name)) == Alone(t, name, map[], Waiting(name, 0))
      && Enabled(Alone(t, name, map[], Waiting(name, 0)), Acquire(t))
      && Next(Alone(t, name, map[], Waiting(name, 0)), Acquire(t)) == Alone(t, name, map[0 := t], Opening(name, 0))
      && Next(Alone(t, name, map[0 := t], Opening(name, 0)), OpenFile(t)) == Alone(t, name, map[0 := t], Guarded(name, 0))
  {
  }

  lemma UseFromTheGuard(t: Task, name: string)
    ensures
      && Next(Alone(t, name, map[0 := t], Guarded(name, 0)), Unlock(t)) == Alone(t, name, map[], Unlocked(name, 0))
      && Next(Alone(t, name, map[], Unlocked(name, 0)), DropHandle(t)) == Alone(t, name, map[], Dropped(name))
      && Next(Alone(t, name, map[], Dropped(name)), Cleanup(t)) == State(map[], map[], map[], 1)
  {
    assert map[0 := t] - {0} == map[];
    assert Holders(Alone(t, name, map[], Dropped(name)), 0) == {};
    assert map[name := 0 as LockId] - {name} == map[] && map[t := Dropped(name)] - {t} == map[];
  }

  lemma OneUseHappens(t: Task, name: string)
    ensures
      var guarded := [Lookup(t, name)] + [Acquire(t)] + [OpenFile(t)];
      && IsRun(guarded) && After(guarded) == Alone(t, name, map[0 := t], Guarded(name, 0))
      && IsRun(OneUse(t, name)) && After(OneUse(t, name)) == State(map[], map[], map[], 1)
  {
    var waiting := Alone(t, name, map[], Waiting(name, 0));
    var opening, held := Alone(t, name, map[0 := t], Opening(name, 0)), Alone(t, name, map[0 := t], Guarded(name, 0));
    var unlocked, dropped := Alone(t, name, map[], Unlocked(name, 0)), Alone(t, name, map[], Dropped(name));
    UseUpToTheGuard(t, name);
    UseFromTheGuard(t, name);
    var run := [Lookup(t, name)];
    assert [] + run == run;
    RunPush([], INITIAL, Lookup(t, name), waiting);
    RunPush(run, waiting, Acquire(t), opening);
    RunPush(run + [Acquire(t)], opening, OpenFile(t), held);
    run := run + [Acquire(t)] + [OpenFile(t)];
    RunPush(run, held, Unlock(t), unlocked);
    RunPush(run + [Unlock(t)], unlocked, DropHandle(t), dropped);
    RunPush(run + [Unlock(t)] + [DropHandle(t)], dropped, Cleanup(t), State(map[], map[], map[], 1));
  }
}
