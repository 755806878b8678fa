/**
 The read-only reconcile plan between a git checkout and the live config store, and what carrying the
 plan out would do. JSON values are opaque texts and the schema validator is any function.
 */
module ConfigDiff {
  import opened Prelude
  import opened Ordering
  import S = Stores

  type Json = string
  type RowName = (string, string)  // noun, name

  datatype RepoRow = RepoRow(hostOwner: string, noun: string, name: string, json: Json)

  datatype LiveRow = LiveRow(hostOwner: string, noun: string, name: string, json: Json, isReplica: bool)

  datatype RowRef = RowRef(hostOwner: string, noun: string, name: string) {
    function Name(): RowName {
      (noun, name)
    }
  }

  datatype SchemaInvalid = SchemaInvalid(row: RowRef, errors: seq<string>)

  datatype DiffPlan = DiffPlan(
    toAdd: seq<RowRef>, toChange: seq<RowRef>, toDelete: seq<RowRef>, schemaInvalid: seq<SchemaInvalid>
  )

  /** The violations a row has against its noun's schema; none means valid. */
  type Validator = RepoRow -> seq<string>

  function RefTo(host: string, n: RowName): RowRef {
    RowRef(host, n.0, n.1)
  }

  // ----- What the plan is about -----------------------------------------------------------------

  /** What the checkout wants of `host`: the last valid row of each name. */
  function Target(host: string, repo: seq<RepoRow>, validate: Validator): map<RowName, Json> {
    if repo == [] then map[]
    else
      var r := Last(repo);
      if r.hostOwner == host && validate(r) == []
      then Target(host, Init(repo), validate)[(r.noun, r.name) := r.json]
      else Target(host, Init(repo), validate)
  }

  /** What `host` authoritatively has: its own rows that are not replicas. */
  function Owned(host: string, live: seq<LiveRow>): map<RowName, Json> {
    if live == [] then map[]
    else
      var r := Last(live);
      if r.hostOwner == host && !r.isReplica
      then Owned(host, Init(live))[(r.noun, r.name) := r.json]
      else Owned(host, Init(live))
  }

  function Rejected(host: string, repo: seq<RepoRow>, validate: Validator): seq<SchemaInvalid> {
    if repo == [] then []
    else
      var r := Last(repo);
      if r.hostOwner == host && validate(r) != []
      then Rejected(host, Init(repo), validate) + [SchemaInvalid(RowRef(host, r.noun, r.name), validate(r))]
      else Rejected(host, Init(repo), validate)
  }

  /** The checkout's `i`-th row is the host's and fails its schema. */
  predicate FailsAt(host: string, repo: seq<RepoRow>, validate: Validator, i: int) {
    0 <= i < |repo| && repo[i].hostOwner == host && validate(repo[i]) != []
  }

  function FailuresBefore(host: string, repo: seq<RepoRow>, validate: Validator, n: nat): set<int> {
    set i | 0 <= i < n && FailsAt(host, repo, validate, i)
  }

  lemma FailuresStep(host: string, repo: seq<RepoRow>, validate: Validator, n: nat)
    requires repo != [] && n < |repo|
    ensures FailuresBefore(host, Init(repo), validate, n) == FailuresBefore(host, repo, validate, n)
    ensures FailuresBefore(host, repo, validate, n + 1) ==
            FailuresBefore(host, repo, validate, n) + if FailsAt(host, repo, validate, n) then {n} else {}
  {
    forall i | 0 <= i < n ensures FailsAt(host, Init(repo), validate, i) <==> FailsAt(host, repo, validate, i) {
    }
  }

  /** One entry per failing row of the host, no more. */
  lemma {:induction false} RejectedAreCounted(host: string, repo: seq<RepoRow>, validate: Validator)
    ensures |Rejected(host, repo, validate)| == |FailuresBefore(host, repo, validate, |repo|)|
  {
    if repo == [] {
      assert FailuresBefore(host, repo, validate, 0) == {};
    } else {
      RejectedAreCounted(host, Init(repo), validate);
      FailuresStep(host, repo, validate, |repo| - 1);
    }
  }

  /** The entry of a failing row: its reference and its errors, in the place its row has among the failing ones. */
  lemma {:induction false} RejectedInOrder(host: string, repo: seq<RepoRow>, validate: Validator, i: nat)
    requires FailsAt(host, repo, validate, i)
    ensures
      var place := |FailuresBefore(host, repo, validate, i)|;
      && place < |Rejected(host, repo, validate)|
      && Rejected(host, repo, validate)[place] ==
         SchemaInvalid(RowRef(repo[i].hostOwner, repo[i].noun, repo[i].name), validate(repo[i]))
  {
    FailuresStep(host, repo, validate, i);
    if i < |repo| - 1 {
      RejectedInOrder(host, Init(repo), validate, i);
    } else {
      RejectedAreCounted(host, Init(repo), validate);
    }
  }

  /** The report lists exactly the references and errors of the host's rows that fail. */
  lemma {:induction false} RejectedHas(host: string, repo: seq<RepoRow>, validate: Validator, x: SchemaInvalid)
    ensures x in Rejected(host, repo, validate) <==>
            exists i :: && 0 <= i < |repo| && repo[i].hostOwner == host && validate(repo[i]) == x.errors != []
                        && x.row == RowRef(repo[i].hostOwner, repo[i].noun, repo[i].name)
  {
    if repo != [] {
      var n := |repo| - 1;
      RejectedHas(host, Init(repo), validate, x);
      assert repo[n] == Last(repo) && forall i :: 0 <= i < n ==> repo[i] == Init(repo)[i];
    }
  }

  predicate IsValidRowOf(host: string, repo: seq<RepoRow>, validate: Validator, n: RowName, i: int) {
    0 <= i < |repo| && repo[i].hostOwner == host && (repo[i].noun, repo[i].name) == n && validate(repo[i]) == []
  }

  /** The wanted text of a name is that of its last valid row. */
  lemma {:induction false} TargetIsTheLastValid(host: string, repo: seq<RepoRow>, validate: Validator, n: RowName)
    ensures n in Target(host, repo, validate) <==> exists i :: IsValidRowOf(host, repo, validate, n, i)
    ensures n in Target(host, repo, validate) ==>
              exists i :: && IsValidRowOf(host, repo, validate, n, i) && repo[i].json == Target(host, repo, validate)[n]
                          && forall j :: i < j ==> !IsValidRowOf(host, repo, validate, n, j)
  {
    if repo == [] {
      assert forall i :: !IsValidRowOf(host, repo, validate, n, i);
    } else {
      var last := |repo| - 1;
      TargetIsTheLastValid(host, Init(repo), validate, n);
      assert repo[last] == Last(repo);
      forall i | i != last
        ensures IsValidRowOf(host, Init(repo), validate, n, i) <==> IsValidRowOf(host, repo, validate, n, i)
      {
      }
      if IsValidRowOf(host, repo, validate, n, last) {
        assert repo[last].json == Target(host, repo, validate)[n];
      } else if n in Target(host, Init(repo), validate) {
        var i :| && IsValidRowOf(host, Init(repo), validate, n, i)
                 && Init(repo)[i].json == Target(host, Init(repo), validate)[n]
                 && forall j :: i < j ==> !IsValidRowOf(host, Init(repo), validate, n, j);
        assert IsValidRowOf(host, repo, validate, n, i) && repo[i].json == Target(host, repo, validate)[n];
      }
    }
  }

  function Missing(want: map<RowName, Json>, have: map<RowName, Json>): set<RowName> {
    want.Keys - have.Keys
  }

  function Different(want: map<RowName, Json>, have: map<RowName, Json>): set<RowName> {
    set n | n in want && n in have && want[n] != have[n]
  }

  /** By noun, then by name, and not the same row. */
  predicate ComesBefore(a: RowRef, b: RowRef) {
    StrLeq(a.noun, b.noun) && (a.noun == b.noun ==> StrLeq(a.name, b.name) && a.name != b.name)
  }

  /** The references are exactly those of `names` on `host`, each once, in order. */
  ghost predicate Lists(host: string, refs: seq<RowRef>, names: set<RowName>) {
    && (forall i, j :: 0 <= i < j < |refs| ==> ComesBefore(refs[i], refs[j]))
    && (forall r :: r in refs <==> r.hostOwner == host && r.Name() in names)
  }

  // ----- One host -------------------------------------------------------------------------------

  function RefsWhere(host: string, entries: seq<(RowName, Json)>, keep: RowName -> bool): seq<RowRef> {
    if entries == [] then []
    else RefsWhere(host, Init(entries), keep) + if keep(Last(entries).0) then [RefTo(host, Last(entries).0)] else []
  }

  lemma {:induction false} RefsWhereHas(host: string, entries: seq<(RowName, Json)>, keep: RowName -> bool, r: RowRef)
    ensures r in RefsWhere(host, entries, keep) <==>
            r.hostOwner == host && keep(r.Name()) && exists i :: 0 <= i < |entries| && entries[i].0 == r.Name()
  {
    if entries != [] {
      var n := |entries| - 1;
      RefsWhereHas(host, Init(entries), keep, r);
      if exists i :: 0 <= i < |entries| && entries[i].0 == r.Name() {
        var i :| 0 <= i < |entries| && entries[i].0 == r.Name();
        assert i == n || Init(entries)[i].0 == r.Name();
      }
      if exists i :: 0 <= i < |Init(entries)| && Init(entries)[i].0 == r.Name() {
        var i :| 0 <= i < |Init(entries)| && Init(entries)[i].0 == r.Name();
        assert entries[i].0 == r.Name();
      }
      assert entries[n] == Last(entries);
    }
  }

  lemma {:induction false} RefsWhereAscend(host: string, entries: seq<(RowName, Json)>, keep: RowName -> bool)
    requires Ascending(PairLeq, entries)
    ensures
      var refs := RefsWhere(host, entries, keep);
      forall i, j :: 0 <= i < j < |refs| ==>
                       PairLeq(refs[i].Name(), refs[j].Name()) && refs[i].Name() != refs[j].Name()
  {
    if entries != [] {
      RefsWhereAscend(host, Init(entries), keep);
      var before := RefsWhere(host, Init(entries), keep);
      forall i | 0 <= i < |before|
        ensures PairLeq(before[i].Name(), Last(entries).0) && before[i].Name() != Last(entries).0
      {
        RefsWhereHas(host, Init(entries), keep, before[i]);
        var j :| 0 <= j < |Init(entries)| && Init(entries)[j].0 == before[i].Name();
        assert entries[j].0 == before[i].Name();
      }
    }
  }

  lemma RefsWhereLists(host: string, entries: seq<(RowName, Json)>, keep: RowName -> bool, names: set<RowName>)
    requires Ascending(PairLeq, entries)
    requires forall n :: n in names <==> n in AsMap(entries) && keep(n)
    ensures Lists(host, RefsWhere(host, entries, keep), names)
  {
    RefsWhereAscend(host, entries, keep);
    forall r ensures r in RefsWhere(host, entries, keep) <==> r.hostOwner == host && r.Name() in names {
      RefsWhereHas(host, entries, keep, r);
      if r.Name() in AsMap(entries) {
        var i := AsMapFrom(entries, r.Name());
      }
      if exists i :: 0 <= i < |entries| && entries[i].0 == r.Name() {
        var i :| 0 <= i < |entries| && entries[i].0 == r.Name();
        AsMapHas(PairLeq, entries, i);
      }
    }
  }

  /** The first loop: valid rows of the host into an ordered map, the others into the report. */
  method CollectRepo(host: string, repo: seq<RepoRow>, validate: Validator)
    returns (entries: seq<(RowName, Json)>, invalid: seq<SchemaInvalid>)
    ensures Ascending(PairLeq, entries) && AsMap(entries) == Target(host, repo, validate)
    ensures invalid == Rejected(host, repo, validate)
  {
    entries, invalid := [], [];
    PairsAreOrdered();
    for i := 0 to |repo|
      invariant Ascending(PairLeq, entries) && AsMap(entries) == Target(host, repo[..i], validate)
      invariant invalid == Rejected(host, repo[..i], validate)
    {
      var row := repo[i];
      assert Init(repo[..i + 1]) == repo[..i];
      if row.hostOwner == host {
        var errors := validate(row);
        if errors != [] {
          invalid := invalid + [SchemaInvalid(RowRef(row.hostOwner, row.noun, row.name), errors)];
          continue;
        }
        PutAscending(PairLeq, entries, (row.noun, row.name), row.json);
        PutAsMap(PairLeq, entries, (row.noun, row.name), row.json);
        entries := Put(PairLeq, entries, (row.noun, row.name), row.json);
      }
    }
    assert repo[..|repo|] == repo;
  }

  method CollectLive(host: string, live: seq<LiveRow>) returns (entries: seq<(RowName, Json)>)
    ensures Ascending(PairLeq, entries) && AsMap(entries) == Owned(host, live)
  {
    entries := [];
    PairsAreOrdered();
    for i := 0 to |live|
      invariant Ascending(PairLeq, entries) && AsMap(entries) == Owned(host, live[..i])
    {
      var row := live[i];
      assert Init(live[..i + 1]) == live[..i];
      if row.hostOwner == host && !row.isReplica {
        PutAscending(PairLeq, entries, (row.noun, row.name), row.json);
        PutAsMap(PairLeq, entries, (row.noun, row.name), row.json);
        entries := Put(PairLeq, entries, (row.noun, row.name), row.json);
      }
    }
    assert live[..|live|] == live;
  }

  /** The loop over the checkout's rows: absent ones are added, differing ones changed. */
  method AddsAndChanges(host: string, repoValid: seq<(RowName, Json)>, have: map<RowName, Json>)
    returns (toAdd: seq<RowRef>, toChange: seq<RowRef>)
    requires Ascending(PairLeq, repoValid)
    ensures Lists(host, toAdd, Missing(AsMap(repoValid), have))
    ensures Lists(host, toChange, Different(AsMap(repoValid), have))
  {
    ghost var want := AsMap(repoValid);
    ghost var isMissing := (n: RowName) => n !in have;
    ghost var isDifferent := (n: RowName) => n in have && n in want && want[n] != have[n];
    toAdd, toChange := [], [];
    for i := 0 to |repoValid|
      invariant toAdd == RefsWhere(host, repoValid[..i], isMissing)
      invariant toChange == RefsWhere(host, repoValid[..i], isDifferent)
    {
      var (name, json) := repoValid[i];
      AsMapHas(PairLeq, repoValid, i);
      assert Init(repoValid[..i + 1]) == repoValid[..i];
      if name !in have {
        toAdd := toAdd + [RefTo(host, name)];
      } else if have[name] != json {
        toChange := toChange + [RefTo(host, name)];
      }
    }
    assert repoValid[..|repoValid|] == repoValid;
    RefsWhereLists(host, repoValid, isMissing, Missing(want, have));
    RefsWhereLists(host, repoValid, isDifferent, Different(want, have));
  }

  /** The loop over the live rows: those the checkout does not name are removable. */
  method Deletes(host: string, liveOwned: seq<(RowName, Json)>, want: map<RowName, Json>) returns (toDelete: seq<RowRef>)
    requires Ascending(PairLeq, liveOwned)
    ensures Lists(host, toDelete, Missing(AsMap(liveOwned), want))
  {
    ghost var isUnwanted := (n: RowName) => n !in want;
    toDelete := [];
    for i := 0 to |liveOwned|
      invariant toDelete == RefsWhere(host, liveOwned[..i], isUnwanted)
    {
      var (name, _) := liveOwned[i];
      assert Init(liveOwned[..i + 1]) == liveOwned[..i];
      if name !in want {
        toDelete := toDelete + [RefTo(host, name)];
      }
    }
    assert liveOwned[..|liveOwned|] == liveOwned;
    RefsWhereLists(host, liveOwned, isUnwanted, Missing(AsMap(liveOwned), want));
  }

  /** The plan of one host, each list in key order. */
  method ComputeDiff(host: string, repo: seq<RepoRow>, live: seq<LiveRow>, validate: Validator) returns (plan: DiffPlan)
    ensures
      var want := Target(host, repo, validate);
      var have := Owned(host, live);
      && Lists(host, plan.toAdd, Missing(want, have))
      && Lists(host, plan.toChange, Different(want, have))
      && Lists(host, plan.toDelete, Missing(have, want))
      && plan.schemaInvalid == Rejected(host, repo, validate)
  {
    var repoValid, invalid := CollectRepo(host, repo, validate);
    var liveOwned := CollectLive(host, live);
    var toAdd, toChange := AddsAndChanges(host, repoValid, AsMap(liveOwned));
    var toDelete := Deletes(host, liveOwned, AsMap(repoValid));
    return DiffPlan(toAdd, toChange, toDelete, invalid);
  }

  // ----- All hosts ------------------------------------------------------------------------------

  ghost predicate Distinct<T>(s: seq<T>) {
    forall i, j :: 0 <= i < j < |s| ==> s[i] != s[j]
  }

  /** What a plan for several hosts says about every row there could be. */
  ghost predicate PlanSays(plan: DiffPlan, hosts: set<string>, repo: seq<RepoRow>, live: seq<LiveRow>, validate: Validator) {
    forall r: RowRef ::
      var want := Target(r.hostOwner, repo, validate);
      var have := Owned(r.hostOwner, live);
      && (r in plan.toAdd <==> r.hostOwner in hosts && r.Name() in Missing(want, have))
      && (r in plan.toChange <==> r.hostOwner in hosts && r.Name() in Different(want, have))
      && (r in plan.toDelete <==> r.hostOwner in hosts && r.Name() in Missing(have, want))
  }

  ghost predicate EachOnce(plan: DiffPlan) {
    Distinct(plan.toAdd) && Distinct(plan.toChange) && Distinct(plan.toDelete)
  }

  lemma AppendDistinct(a: seq<RowRef>, b: seq<RowRef>, host: string)
    requires Distinct(a) && Distinct(b)
    requires (forall r :: r in a ==> r.hostOwner != host) && (forall r :: r in b ==> r.hostOwner == host)
    ensures Distinct(a + b)
  {
    forall i, j | 0 <= i < j < |a + b| ensures (a + b)[i] != (a + b)[j] {
      if i < |a| <= j {
        assert a[i] in a && b[j - |a|] in b;
      }
    }
  }

  function SetOf<T>(s: seq<T>): set<T> {
    set x | x in s
  }

  function Owners(repo: seq<RepoRow>): set<string> {
    set r | r in repo :: r.hostOwner
  }

  lemma KeysOfEntries(entries: seq<(string, ())>, hosts: seq<string>)
    requires Ascending(StrLeq, entries)
    requires |hosts| == |entries| && forall i :: 0 <= i < |hosts| ==> hosts[i] == entries[i].0
    ensures Distinct(hosts) && SetOf(hosts) == AsMap(entries).Keys
  {
    forall h ensures h in hosts <==> h in AsMap(entries) {
      if h in AsMap(entries) {
        var i := AsMapFrom(entries, h);
        assert hosts[i] == h;
      }
      if h in hosts {
        var i :| 0 <= i < |hosts| && hosts[i] == h;
        AsMapHas(StrLeq, entries, i);
      }
    }
  }

  /** The distinct owners of the checkout in order, with the requested host appended if it has no row. */
  method Hosts(repo: seq<RepoRow>, requested: Option<string>) returns (hosts: seq<string>)
    ensures Distinct(hosts)
    ensures forall i, j :: 0 <= i < j < |hosts| && hosts[j] in Owners(repo) ==> hosts[i] in Owners(repo) && StrLeq(hosts[i], hosts[j])
    ensures SetOf(hosts) == Owners(repo) + if requested.Some? then {requested.value} else {}
  {
    var entries: seq<(string, ())> := [];
    StringsAreOrdered();
    for i := 0 to |repo|
      invariant Ascending(StrLeq, entries)
      invariant AsMap(entries).Keys == Owners(repo[..i])
    {
      PutAscending(StrLeq, entries, repo[i].hostOwner, ());
      PutAsMap(StrLeq, entries, repo[i].hostOwner, ());
      entries := Put(StrLeq, entries, repo[i].hostOwner, ());
      assert repo[..i + 1] == repo[..i] + [repo[i]];
    }
    assert repo[..|repo|] == repo;
    hosts := seq(|entries|, i requires 0 <= i < |entries| => entries[i].0);
    KeysOfEntries(entries, hosts);
    if requested.Some? && requested.value !in hosts {
      hosts := hosts + [requested.value];
    }
    assert requested.Some? ==> requested.value in SetOf(hosts);
  }

  function AllRejected(hosts: seq<string>, repo: seq<RepoRow>, validate: Validator): seq<SchemaInvalid> {
    if hosts == [] then []
    else AllRejected(Init(hosts), repo, validate) + Rejected(Last(hosts), repo, validate)
  }

  /** The failing rows of all considered hosts, by their index in the checkout. */
  function FailuresOf(hosts: set<string>, repo: seq<RepoRow>, validate: Validator): set<int> {
    set i | 0 <= i < |repo| && repo[i].hostOwner in hosts && FailsAt(repo[i].hostOwner, repo, validate, i)
  }

  /** The combined report lists exactly the failing rows of the considered hosts. */
  lemma {:induction false} AllRejectedHas(hosts: seq<string>, repo: seq<RepoRow>, validate: Validator, x: SchemaInvalid)
    ensures x in AllRejected(hosts, repo, validate) <==>
            exists i :: && 0 <= i < |repo| && repo[i].hostOwner in hosts && validate(repo[i]) == x.errors != []
                        && x.row == RowRef(repo[i].hostOwner, repo[i].noun, repo[i].name)
  {
    if hosts != [] {
      AllRejectedHas(Init(hosts), repo, validate, x);
      RejectedHas(Last(hosts), repo, validate, x);
      assert forall h :: h in hosts <==> h in Init(hosts) || h == Last(hosts);
    }
  }

  /** And each of them once. */
  lemma {:induction false} AllRejectedAreCounted(hosts: seq<string>, repo: seq<RepoRow>, validate: Validator)
    requires Distinct(hosts)
    ensures |AllRejected(hosts, repo, validate)| == |FailuresOf(SetOf(hosts), repo, validate)|
  {
    if hosts == [] {
      assert FailuresOf(SetOf(hosts), repo, validate) == {};
    } else {
      var before, now := FailuresOf(SetOf(Init(hosts)), repo, validate), FailuresBefore(Last(hosts), repo, validate, |repo|);
      AllRejectedAreCounted(Init(hosts), repo, validate);
      RejectedAreCounted(Last(hosts), repo, validate);
      assert forall h :: h in hosts <==> h in Init(hosts) || h == Last(hosts);
      assert Last(hosts) !in Init(hosts);
      assert FailuresOf(SetOf(hosts), repo, validate) == before + now && before !! now;
    }
  }

  /** The host loop of `config_source_diff`. */
  method DiffAllHosts(repo: seq<RepoRow>, live: seq<LiveRow>, validate: Validator, requested: Option<string>)
    returns (plan: DiffPlan, hosts: seq<string>)
    ensures Distinct(hosts)
    ensures SetOf(hosts) == Owners(repo) + if requested.Some? then {requested.value} else {}
    ensures PlanSays(plan, SetOf(hosts), repo, live, validate)
    ensures EachOnce(plan)
    ensures plan.schemaInvalid == AllRejected(hosts, repo, validate)
  {
    hosts := Hosts(repo, requested);
    plan := DiffPlan([], [], [], []);
    for i := 0 to |hosts|
      invariant PlanSays(plan, SetOf(hosts[..i]), repo, live, validate)
      invariant EachOnce(plan)
      invariant plan.schemaInvalid == AllRejected(hosts[..i], repo, validate)
    {
      var host := hosts[i];
      assert Init(hosts[..i + 1]) == hosts[..i];
      var one := ComputeDiff(host, repo, live, validate);
      ghost var seen := SetOf(hosts[..i]);
      assert host !in seen;
      assert SetOf(hosts[..i + 1]) == seen + {host};
      ExtendPlan(plan, one, seen, host, repo, live, validate);
      plan := Extended(plan, one);
    }
    assert hosts[..|hosts|] == hosts;
  }

  function Extended(plan: DiffPlan, one: DiffPlan): DiffPlan {
    DiffPlan(plan.toAdd + one.toAdd, plan.toChange + one.toChange, plan.toDelete + one.toDelete,
             plan.schemaInvalid + one.schemaInvalid)
  }

  lemma ExtendPlan(plan: DiffPlan, one: DiffPlan, seen: set<string>, host: string,
                   repo: seq<RepoRow>, live: seq<LiveRow>, validate: Validator)
    requires PlanSays(plan, seen, repo, live, validate) && EachOnce(plan) && host !in seen
    requires
      var want := Target(host, repo, validate);
      var have := Owned(host, live);
      && Lists(host, one.toAdd, Missing(want, have))
      && Lists(host, one.toChange, Different(want, have))
      && Lists(host, one.toDelete, Missing(have, want))
    ensures PlanSays(Extended(plan, one), seen + {host}, repo, live, validate) && EachOnce(Extended(plan, one))
  {
    AppendDistinct(plan.toAdd, one.toAdd, host);
    AppendDistinct(plan.toChange, one.toChange, host);
    AppendDistinct(plan.toDelete, one.toDelete, host);
  }

  /** No row is classified twice. */
  lemma ClassifiedAtMostOnce(plan: DiffPlan, hosts: set<string>, repo: seq<RepoRow>, live: seq<LiveRow>, validate: Validator, r: RowRef)
    requires PlanSays(plan, hosts, repo, live, validate)
    ensures !(r in plan.toAdd && r in plan.toChange)
    ensures !(r in plan.toAdd && r in plan.toDelete)
    ensures !(r in plan.toChange && r in plan.toDelete)
  {
  }

  // ----- Carrying the plan out ------------------------------------------------------------------

  datatype Stored = Stored(json: Json, isReplica: bool)

  /** The live table: (noun, name, owner) is a unique key, replica or not. */
  type Store = map<RowRef, Stored>

  function StoreOf(live: seq<LiveRow>): Store {
    if live == [] then map[]
    else
      var r := Last(live);
      StoreOf(Init(live))[RowRef(r.hostOwner, r.noun, r.name) := Stored(r.json, r.isReplica)]
  }

  ghost predicate UniqueKeys(live: seq<LiveRow>) {
    forall i, j :: 0 <= i < j < |live| ==>
                     (live[i].hostOwner, live[i].noun, live[i].name) != (live[j].hostOwner, live[j].noun, live[j].name)
  }

  /** A row `host` owns in the store. */
  predicate OwnsRow(s: Store, host: string, n: RowName) {
    RefTo(host, n) in s && !s[RefTo(host, n)].isReplica
  }

  lemma {:induction false} StoreHasRow(live: seq<LiveRow>, r: RowRef)
    requires r in StoreOf(live)
    ensures exists i :: 0 <= i < |live| && RowRef(live[i].hostOwner, live[i].noun, live[i].name) == r
  {
    if Last(live) == live[|live| - 1] && RowRef(Last(live).hostOwner, Last(live).noun, Last(live).name) != r {
      StoreHasRow(Init(live), r);
      var i :| 0 <= i < |Init(live)| && RowRef(Init(live)[i].hostOwner, Init(live)[i].noun, Init(live)[i].name) == r;
      assert live[i] == Init(live)[i];
    }
  }

  lemma {:induction false} OwnedIsOwnsRow(host: string, live: seq<LiveRow>, n: RowName)
    requires UniqueKeys(live)
    ensures n in Owned(host, live) <==> OwnsRow(StoreOf(live), host, n)
    ensures n in Owned(host, live) ==> Owned(host, live)[n] == StoreOf(live)[RefTo(host, n)].json
  {
    if live != [] {
      var r := Last(live);
      var key := RowRef(r.hostOwner, r.noun, r.name);
      OwnedIsOwnsRow(host, Init(live), n);
      if key in StoreOf(Init(live)) {
        StoreHasRow(Init(live), key);
        assert false;
      }
    }
  }

  datatype Refusal = NotOurs(hostOwner: string)

  /** The config table of the system whose id is `local`. */
  class ConfigTable {
    const local: string
    var rows: Store

    constructor (local: string)
      ensures this.local == local && rows == map[]
    {
      this.local, rows := local, map[];
    }

    /** `set`: only the owner writes a row; the write makes it owned. Says whether the row is new. */
    method Set(r: RowRef, json: Json) returns (out: Result<bool, Refusal>)
      modifies this`rows
      ensures rows == Written(old(rows), local, r, json)
      ensures out == if r.hostOwner == local then Ok(r !in old(rows)) else Err(NotOurs(r.hostOwner))
    {
      if r.hostOwner != local {
        return Err(NotOurs(r.hostOwner));
      }
      var prior := S.Get(rows, r);
      rows := rows[r := Stored(json, false)];
      return Ok(prior.None?);
    }

    /** `delete`: only the owner deletes a row. Says whether there was one. */
    method Delete(r: RowRef) returns (out: Result<bool, Refusal>)
      modifies this`rows
      ensures rows == Removed(old(rows), local, r)
      ensures out == if r.hostOwner == local then Ok(r in old(rows)) else Err(NotOurs(r.hostOwner))
    {
      if r.hostOwner != local {
        return Err(NotOurs(r.hostOwner));
      }
      if r !in rows {
        assert rows - {r} == rows;
        return Ok(false);
      }
      rows := rows - {r};
      return Ok(true);
    }
  }

  function Written(s: Store, local: string, r: RowRef, json: Json): Store {
    if r.hostOwner == local then s[r := Stored(json, false)] else s
  }

  function Removed(s: Store, local: string, r: RowRef): Store {
    if r.hostOwner == local then s - {r} else s
  }

  /** One `set` per reference, with the row the checkout wants there; refusals change nothing. */
  function WriteAll(s: Store, local: string, refs: seq<RowRef>, repo: seq<RepoRow>, validate: Validator): Store {
    if refs == [] then s
    else
      var was := WriteAll(s, local, Init(refs), repo, validate);
      var r := Last(refs);
      var want := Target(r.hostOwner, repo, validate);
      if r.Name() in want then Written(was, local, r, want[r.Name()]) else was
  }

  function RemoveAll(s: Store, local: string, refs: seq<RowRef>): Store {
    if refs == [] then s else Removed(RemoveAll(s, local, Init(refs)), local, Last(refs))
  }

  /** Carrying a plan out on the system `local`: its adds, its changes, its deletes. */
  function Applied(s: Store, local: string, plan: DiffPlan, repo: seq<RepoRow>, validate: Validator): Store {
    var added := WriteAll(s, local, plan.toAdd, repo, validate);
    var changed := WriteAll(added, local, plan.toChange, repo, validate);
    RemoveAll(changed, local, plan.toDelete)
  }

  lemma {:induction false} WriteAllAt(
    s: Store, local: string, refs: seq<RowRef>, repo: seq<RepoRow>, validate: Validator, r: RowRef)
    ensures
      var want := Target(r.hostOwner, repo, validate);
      S.Get(WriteAll(s, local, refs, repo, validate), r) ==
      if r in refs && r.hostOwner == local && r.Name() in want then Some(Stored(want[r.Name()], false)) else S.Get(s, r)
  {
    if refs != [] {
      WriteAllAt(s, local, Init(refs), repo, validate, r);
      assert r in refs <==> r in Init(refs) || r == Last(refs);
    }
  }

  lemma {:induction false} RemoveAllAt(s: Store, local: string, refs: seq<RowRef>, r: RowRef)
    ensures S.Get(RemoveAll(s, local, refs), r) == if r in refs && r.hostOwner == local then None else S.Get(s, r)
  {
    if refs != [] {
      RemoveAllAt(s, local, Init(refs), r);
      assert r in refs <==> r in Init(refs) || r == Last(refs);
    }
  }

  /** What carrying out a plan leaves under one key. */
  lemma AppliedAt(s: Store, local: string, plan: DiffPlan, repo: seq<RepoRow>, validate: Validator, r: RowRef)
    ensures
      var want := Target(r.hostOwner, repo, validate);
      S.Get(Applied(s, local, plan, repo, validate), r) ==
      if r.hostOwner != local then S.Get(s, r)
      else if r in plan.toDelete then None
      else if (r in plan.toAdd || r in plan.toChange) && r.Name() in want then Some(Stored(want[r.Name()], false))
      else S.Get(s, r)
  {
    var added := WriteAll(s, local, plan.toAdd, repo, validate);
    var changed := WriteAll(added, local, plan.toChange, repo, validate);
    WriteAllAt(s, local, plan.toAdd, repo, validate, r);
    WriteAllAt(added, local, plan.toChange, repo, validate, r);
    RemoveAllAt(changed, local, plan.toDelete, r);
  }

  lemma PlanSaysOf(plan: DiffPlan, hosts: set<string>, repo: seq<RepoRow>, live: seq<LiveRow>, validate: Validator, r: RowRef)
    requires PlanSays(plan, hosts, repo, live, validate)
    ensures
      var want := Target(r.hostOwner, repo, validate);
      var have := Owned(r.hostOwner, live);
      && (r in plan.toAdd <==> r.hostOwner in hosts && r.Name() in want && r.Name() !in have)
      && (r in plan.toChange <==>
          r.hostOwner in hosts && r.Name() in want && r.Name() in have && want[r.Name()] != have[r.Name()])
      && (r in plan.toDelete <==> r.hostOwner in hosts && r.Name() in have && r.Name() !in want)
  {
  }

  /** The rows `host` owns in the store are exactly the wanted ones. */
  ghost predicate AtTarget(s: Store, host: string, want: map<RowName, Json>) {
    forall n: RowName ::
      && (OwnsRow(s, host, n) <==> n in want)
      && (n in want ==> S.Get(s, RefTo(host, n)) == Some(Stored(want[n], false)))
  }

  /** On its own host a system's plan reaches the target: exactly the last valid checkout row of each name. */
  lemma ApplyingReachesTarget(
    local: string, plan: DiffPlan, hosts: set<string>, repo: seq<RepoRow>, live: seq<LiveRow>, validate: Validator)
    requires UniqueKeys(live) && PlanSays(plan, hosts, repo, live, validate) && local in hosts
    ensures AtTarget(Applied(StoreOf(live), local, plan, repo, validate), local, Target(local, repo, validate))
  {
    var after, want := Applied(StoreOf(live), local, plan, repo, validate), Target(local, repo, validate);
    forall n: RowName
      ensures OwnsRow(after, local, n) <==> n in want
      ensures n in want ==> S.Get(after, RefTo(local, n)) == Some(Stored(want[n], false))
    {
      var r := RefTo(local, n);
      assert r.Name() == n && r.hostOwner == local;
      OwnedIsOwnsRow(local, live, n);
      PlanSaysOf(plan, hosts, repo, live, validate, r);
      AppliedAt(StoreOf(live), local, plan, repo, validate, r);
    }
  }

  /** The owner check: no row of another system changes, and none of a host the plan does not consider. */
  lemma OnlyOwnRowsChange(
    local: string, plan: DiffPlan, hosts: set<string>, repo: seq<RepoRow>, live: seq<LiveRow>, validate: Validator, r: RowRef)
    requires PlanSays(plan, hosts, repo, live, validate) && (r.hostOwner != local || r.hostOwner !in hosts)
    ensures S.Get(Applied(StoreOf(live), local, plan, repo, validate), r) == S.Get(StoreOf(live), r)
  {
    PlanSaysOf(plan, hosts, repo, live, validate, r);
    AppliedAt(StoreOf(live), local, plan, repo, validate, r);
  }

  lemma SameRowsSameTarget(s: Store, s': Store, host: string, want: map<RowName, Json>)
    requires forall n: RowName :: S.Get(s, RefTo(host, n)) == S.Get(s', RefTo(host, n))
    ensures AtTarget(s, host, want) <==> AtTarget(s', host, want)
  {
    forall n: RowName ensures OwnsRow(s, host, n) <==> OwnsRow(s', host, n) {
      assert S.Get(s, RefTo(host, n)) == S.Get(s', RefTo(host, n));
    }
  }

  /**
   A considered host is at its target afterwards exactly when it is the system's own or was at its
   target before: for any other host both kinds of write are refused.
   */
  lemma TargetReachedIff(
    local: string, plan: DiffPlan, hosts: set<string>, repo: seq<RepoRow>, live: seq<LiveRow>, validate: Validator,
    host: string)
    requires UniqueKeys(live) && PlanSays(plan, hosts, repo, live, validate) && host in hosts
    ensures
      var want := Target(host, repo, validate);
      AtTarget(Applied(StoreOf(live), local, plan, repo, validate), host, want) <==>
      host == local || AtTarget(StoreOf(live), host, want)
  {
    if host == local {
      ApplyingReachesTarget(local, plan, hosts, repo, live, validate);
    } else {
      var after := Applied(StoreOf(live), local, plan, repo, validate);
      forall n: RowName ensures S.Get(after, RefTo(host, n)) == S.Get(StoreOf(live), RefTo(host, n)) {
        OnlyOwnRowsChange(local, plan, hosts, repo, live, validate, RefTo(host, n));
      }
      SameRowsSameTarget(after, StoreOf(live), host, Target(host, repo, validate));
    }
  }

  // ----- Replicas ---------------------------------------------------------------------------------

  /** How a row accepted from its owner over the mesh is stamped; an unresolved local id is empty. */
  predicate StampsReplica(localThen: string, hostOwner: string) {
    localThen == "" || hostOwner != localThen
  }

  /**
   A replica is left as it was exactly when it is not a row of the system's own id that the checkout
   wants; such a row is planned as an add, and the write takes it over as owned.
   */
  lemma ReplicaSurvivesIff(
    local: string, plan: DiffPlan, hosts: set<string>, repo: seq<RepoRow>, live: seq<LiveRow>, validate: Validator, r: RowRef)
    requires UniqueKeys(live) && PlanSays(plan, hosts, repo, live, validate)
    requires r in StoreOf(live) && StoreOf(live)[r].isReplica
    ensures
      var after := Applied(StoreOf(live), local, plan, repo, validate);
      S.Get(after, r) == S.Get(StoreOf(live), r) <==>
      !(r.hostOwner == local && local in hosts && r.Name() in Target(local, repo, validate))
  {
    OwnedIsOwnsRow(r.hostOwner, live, r.Name());
    assert RefTo(r.hostOwner, r.Name()) == r;
    PlanSaysOf(plan, hosts, repo, live, validate, r);
    AppliedAt(StoreOf(live), local, plan, repo, validate, r);
  }

  /** Replicas that arrived while the system knew its present id all survive every plan. */
  lemma ReplicasStampedByOwnIdSurvive(
    local: string, plan: DiffPlan, hosts: set<string>, repo: seq<RepoRow>, live: seq<LiveRow>, validate: Validator, r: RowRef)
    requires UniqueKeys(live) && PlanSays(plan, hosts, repo, live, validate)
    requires local != "" && r in StoreOf(live) && StoreOf(live)[r].isReplica && StampsReplica(local, r.hostOwner)
    ensures S.Get(Applied(StoreOf(live), local, plan, repo, validate), r) == S.Get(StoreOf(live), r)
  {
    ReplicaSurvivesIff(local, plan, hosts, repo, live, validate, r);
  }

  /**
   The other kind exists: a row of "h1" merged before the id "h1" was known is taken over by its plan. A
   merge takes rows from their owner only, so such a row comes from a peer that speaks under the id this
   system takes later, as when a machine is set up again under its old id.
   */
  lemma EarlyReplicaIsTakenOver(plan: DiffPlan, validate: Validator)
    requires
      var live := [LiveRow("h1", "display", "main", "old", StampsReplica("", "h1"))];
      PlanSays(plan, {"h1"}, [RepoRow("h1", "display", "main", "new")], live, validate)
    requires validate(RepoRow("h1", "display", "main", "new")) == []
    ensures
      var live := [LiveRow("h1", "display", "main", "old", true)];
      var after := Applied(StoreOf(live), "h1", plan, [RepoRow("h1", "display", "main", "new")], validate);
      S.Get(StoreOf(live), RowRef("h1", "display", "main")) == Some(Stored("old", true))
      && S.Get(after, RowRef("h1", "display", "main")) == Some(Stored("new", false))
  {
    var repo := [RepoRow("h1", "display", "main", "new")];
    var live := [LiveRow("h1", "display", "main", "old", true)];
    var r := RowRef("h1", "display", "main");
    assert Init(live) == [] && Init(repo) == [];
    assert Target("h1", repo, validate) == map[("display", "main") := "new"];
    assert Owned("h1", live) == map[];
    PlanSaysOf(plan, {"h1"}, repo, live, validate, r);
    AppliedAt(StoreOf(live), "h1", plan, repo, validate, r);
  }

  // ----- Rows that fail their schema --------------------------------------------------------------

  /** A checkout row that fails its schema does not protect its live row, which is planned for deletion. */
  lemma InvalidRowDoesNotProtect(
    plan: DiffPlan, hosts: set<string>, repo: seq<RepoRow>, live: seq<LiveRow>, validate: Validator, r: RowRef)
    requires UniqueKeys(live) && PlanSays(plan, hosts, repo, live, validate)
    requires r.hostOwner in hosts && OwnsRow(StoreOf(live), r.hostOwner, r.Name())
    ensures r in plan.toDelete <==>
            !exists q :: q in repo && q.hostOwner == r.hostOwner && (q.noun, q.name) == r.Name() && validate(q) == []
  {
    OwnedIsOwnsRow(r.hostOwner, live, r.Name());
    TargetHasValidRow(r.hostOwner, repo, validate, r.Name());
    var want, have := Target(r.hostOwner, repo, validate), Owned(r.hostOwner, live);
    assert r in plan.toDelete <==> r.Name() in Missing(have, want);
  }

  lemma {:induction false} TargetHasValidRow(host: string, repo: seq<RepoRow>, validate: Validator, n: RowName)
    ensures n in Target(host, repo, validate) <==>
            exists q :: q in repo && q.hostOwner == host && (q.noun, q.name) == n && validate(q) == []
  {
    if repo != [] {
      TargetHasValidRow(host, Init(repo), validate, n);
      assert forall q :: q in repo <==> q in Init(repo) || q == Last(repo);
    }
  }

  /** A live row whose only checkout row became invalid is deleted by carrying out the plan. */
  lemma InvalidEditDeletesTheRow(plan: DiffPlan, validate: Validator)
    requires
      PlanSays(plan, {"h1"}, [RepoRow("h1", "backup", "daily", "bad")], [LiveRow("h1", "backup", "daily", "good", false)],
               validate)
    requires validate(RepoRow("h1", "backup", "daily", "bad")) != []
    ensures
      var live := [LiveRow("h1", "backup", "daily", "good", false)];
      var after := Applied(StoreOf(live), "h1", plan, [RepoRow("h1", "backup", "daily", "bad")], validate);
      RowRef("h1", "backup", "daily") in StoreOf(live) && RowRef("h1", "backup", "daily") !in after
  {
    var repo := [RepoRow("h1", "backup", "daily", "bad")];
    var live := [LiveRow("h1", "backup", "daily", "good", false)];
    var r := RowRef("h1", "backup", "daily");
    assert Init(live) == [] && Init(repo) == [];
    assert Target("h1", repo, validate) == map[];
    assert Owned("h1", live) == map[("backup", "daily") := "good"];
    PlanSaysOf(plan, {"h1"}, repo, live, validate, r);
    AppliedAt(StoreOf(live), "h1", plan, repo, validate, r);
  }

  // ----- Planning again ---------------------------------------------------------------------------

  /** What is planned twice: `again` is the plan made after `plan` was carried out on `local`. */
  ghost predicate PlannedAgain(
    local: string, plan: DiffPlan, again: DiffPlan, hosts: set<string>, repo: seq<RepoRow>, live: seq<LiveRow>,
    after: seq<LiveRow>, validate: Validator)
  {
    && UniqueKeys(live) && UniqueKeys(after)
    && PlanSays(plan, hosts, repo, live, validate)
    && StoreOf(after) == Applied(StoreOf(live), local, plan, repo, validate)
    && PlanSays(again, hosts, repo, after, validate)
  }

  lemma OwnedByOthersIsKept(
    local: string, plan: DiffPlan, again: DiffPlan, hosts: set<string>, repo: seq<RepoRow>, live: seq<LiveRow>,
    after: seq<LiveRow>, validate: Validator, r: RowRef)
    requires PlannedAgain(local, plan, again, hosts, repo, live, after, validate) && r.hostOwner != local
    ensures S.Get(Owned(r.hostOwner, after), r.Name()) == S.Get(Owned(r.hostOwner, live), r.Name())
  {
    OnlyOwnRowsChange(local, plan, hosts, repo, live, validate, r);
    assert RefTo(r.hostOwner, r.Name()) == r;
    OwnedIsOwnsRow(r.hostOwner, live, r.Name());
    OwnedIsOwnsRow(r.hostOwner, after, r.Name());
  }

  lemma OwnedHereIsWanted(
    local: string, plan: DiffPlan, again: DiffPlan, hosts: set<string>, repo: seq<RepoRow>, live: seq<LiveRow>,
    after: seq<LiveRow>, validate: Validator, n: RowName)
    requires PlannedAgain(local, plan, again, hosts, repo, live, after, validate) && local in hosts
    ensures S.Get(Owned(local, after), n) == S.Get(Target(local, repo, validate), n)
  {
    ApplyingReachesTarget(local, plan, hosts, repo, live, validate);
    OwnedIsOwnsRow(local, after, n);
    assert OwnsRow(StoreOf(after), local, n) <==> n in Target(local, repo, validate);
  }

  /** The second plan is the first without the system's own rows: those are done, the others repeat. */
  lemma SecondPlanIsWhatWasRefused(
    local: string, plan: DiffPlan, again: DiffPlan, hosts: set<string>, repo: seq<RepoRow>, live: seq<LiveRow>,
    after: seq<LiveRow>, validate: Validator, r: RowRef)
    requires PlannedAgain(local, plan, again, hosts, repo, live, after, validate)
    ensures r in again.toAdd <==> r in plan.toAdd && r.hostOwner != local
    ensures r in again.toChange <==> r in plan.toChange && r.hostOwner != local
    ensures r in again.toDelete <==> r in plan.toDelete && r.hostOwner != local
  {
    PlanSaysOf(plan, hosts, repo, live, validate, r);
    PlanSaysOf(again, hosts, repo, after, validate, r);
    if r.hostOwner != local {
      OwnedByOthersIsKept(local, plan, again, hosts, repo, live, after, validate, r);
    } else if local in hosts {
      OwnedHereIsWanted(local, plan, again, hosts, repo, live, after, validate, r.Name());
    }
  }

  predicate AsksNothing(plan: DiffPlan) {
    plan.toAdd == [] && plan.toChange == [] && plan.toDelete == []
  }

  predicate AllOwnedBy(refs: seq<RowRef>, host: string) {
    forall i :: 0 <= i < |refs| ==> refs[i].hostOwner == host
  }

  lemma EmptyIffAllOwned(refs: seq<RowRef>, again: seq<RowRef>, local: string)
    requires forall r :: r in again <==> r in refs && r.hostOwner != local
    ensures again == [] <==> AllOwnedBy(refs, local)
  {
    if again != [] {
      assert again[0] in again;
    } else {
      forall i | 0 <= i < |refs| ensures refs[i].hostOwner == local {
        assert refs[i] in refs;
      }
    }
  }

  /** The plan made after carrying one out asks for nothing exactly when the first was all about the system itself. */
  lemma SecondPlanIsEmptyIff(
    local: string, plan: DiffPlan, again: DiffPlan, hosts: set<string>, repo: seq<RepoRow>, live: seq<LiveRow>,
    after: seq<LiveRow>, validate: Validator)
    requires PlannedAgain(local, plan, again, hosts, repo, live, after, validate)
    ensures AsksNothing(again) <==>
            AllOwnedBy(plan.toAdd, local) && AllOwnedBy(plan.toChange, local) && AllOwnedBy(plan.toDelete, local)
  {
    forall r: RowRef
      ensures r in again.toAdd <==> r in plan.toAdd && r.hostOwner != local
      ensures r in again.toChange <==> r in plan.toChange && r.hostOwner != local
      ensures r in again.toDelete <==> r in plan.toDelete && r.hostOwner != local
    {
      SecondPlanIsWhatWasRefused(local, plan, again, hosts, repo, live, after, validate, r);
    }
    EmptyIffAllOwned(plan.toAdd, again.toAdd, local);
    EmptyIffAllOwned(plan.toChange, again.toChange, local);
    EmptyIffAllOwned(plan.toDelete, again.toDelete, local);
  }
}
