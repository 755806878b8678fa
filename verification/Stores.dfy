/**
 The two persistence boundaries of the container loop. The breaker and the wedge machine each have
 a file-backed and an in-memory store of the same shape; both are instances of the classes below,
 with `keyOf` reading a record's own key and `actionable` saying which records outlive their
 container (`Held` breaker records, `escalated` wedge records).
 */
module Stores {
  import opened Prelude

  datatype StoreError = ReadFailed | WriteFailed

  function Get<K, V>(m: map<K, V>, k: K): Option<V> {
    if k in m then Some(m[k]) else None
  }

  /** What garbage collection leaves: live keys and actionable records. */
  function Retained<K, V>(m: map<K, V>, live: set<K>, actionable: V -> bool): map<K, V> {
    map k | k in m && (k in live || actionable(m[k])) :: m[k]
  }

  /** The map a freshly opened store builds from the record list on disk: later records win. */
  function Decode<K, V>(keyOf: V -> K, records: seq<V>): (m: map<K, V>)
    ensures forall k <- m :: keyOf(m[k]) == k
  {
    if records == [] then map[] else Decode(keyOf, Init(records))[keyOf(Last(records)) := Last(records)]
  }

  ghost predicate WellKeyed<K, V>(keyOf: V -> K, m: map<K, V>) {
    forall k <- m :: keyOf(m[k]) == k
  }

  /** Of several records with one key the last counts, and a key without a record is absent. */
  lemma {:induction false} DecodeTakesTheLast<K, V>(keyOf: V -> K, records: seq<V>, k: K)
    ensures k in Decode(keyOf, records) <==> exists i :: 0 <= i < |records| && keyOf(records[i]) == k
    ensures k in Decode(keyOf, records) ==>
              exists i :: && 0 <= i < |records| && keyOf(records[i]) == k && records[i] == Decode(keyOf, records)[k]
                          && forall j :: i < j < |records| ==> keyOf(records[j]) != k
  {
    if records != [] {
      var n := |records| - 1;
      DecodeTakesTheLast(keyOf, Init(records), k);
      assert forall i :: 0 <= i < n ==> records[i] == Init(records)[i];
      if keyOf(records[n]) != k && k in Decode(keyOf, Init(records)) {
        var i :| && 0 <= i < n && keyOf(Init(records)[i]) == k && Init(records)[i] == Decode(keyOf, Init(records))[k]
                 && forall j :: i < j < n ==> keyOf(Init(records)[j]) != k;
        assert keyOf(records[i]) == k && records[i] == Decode(keyOf, records)[k];
      }
    }
  }

  /** Dropping entries without the size changing drops nothing, so a skipped flush loses nothing. */
  lemma {:induction false} SameSizeRetainsAll<K, V>(m: map<K, V>, live: set<K>, actionable: V -> bool)
    requires |Retained(m, live, actionable)| == |m|
    ensures Retained(m, live, actionable) == m
  {
    var kept := Retained(m, live, actionable);
    assert kept.Keys <= m.Keys;
    if kept.Keys != m.Keys {
      assert kept.Keys < m.Keys;
      ProperSubsetIsSmaller(kept.Keys, m.Keys);
    }
  }

  lemma {:induction false} ProperSubsetIsSmaller<T>(a: set<T>, b: set<T>)
    requires a < b
    ensures |a| < |b|
  {
    assert b == a + (b - a);
    assert b - a != {};
  }

  /** JSON-file store with an in-memory cache that is filled on first use. */
  class FileStore<K(==), V(==)> {
    const keyOf: V -> K
    const actionable: V -> bool

    var inner: map<K, V>
    var loaded: bool

    // The file, and whether the operating system lets us read and replace it right now.
    // No operation below changes `readable` or `writable`.
    var file: Option<seq<V>>
    var readable: bool
    var writable: bool

    ghost predicate Valid()
      reads this
    {
      WellKeyed(keyOf, inner) && (!loaded ==> inner == map[])
    }

    /** What a second store opened on the same path would load. */
    ghost function Reopened(): map<K, V>
      reads this
    {
      if file.None? then map[] else Decode(keyOf, file.value)
    }

    /** The map this store answers from. */
    ghost function Contents(): map<K, V>
      reads this
    {
      if loaded then inner else Reopened()
    }

    /** No flush has been lost: the cache and the file hold the same map. */
    ghost predicate Coherent()
      reads this
    {
      Contents() == Reopened()
    }

    predicate CanRead()
      reads this
    {
      loaded || file.None? || readable
    }

    constructor (keyOf: V -> K, actionable: V -> bool, file: Option<seq<V>>, readable: bool, writable: bool)
      ensures Valid() && Coherent() && !loaded
      ensures this.keyOf == keyOf && this.actionable == actionable
      ensures this.file == file && this.readable == readable && this.writable == writable
    {
      this.keyOf, this.actionable := keyOf, actionable;
      this.file, this.readable, this.writable := file, readable, writable;
      inner, loaded := map[], false;
    }

    method EnsureLoaded() returns (ok: bool)
      requires Valid()
      modifies this`inner, this`loaded
      ensures Valid() && Contents() == old(Contents()) && loaded == (old(loaded) || ok)
      ensures ok == old(CanRead())
    {
      if loaded {
        return true;
      }
      if file.Some? {
        if !readable {
          return false;
        }
        var records := file.value;
        for i := 0 to |records|
          invariant !loaded && file == Some(records) && inner == Decode(keyOf, records[..i])
        {
          assert Init(records[..i + 1]) == records[..i];
          inner := inner[keyOf(records[i]) := records[i]];
        }
        assert records[..|records|] == records;
      }
      loaded := true;
      return true;
    }

    /** The values of the cache, in whatever order the hash map yields them. */
    method Values() returns (records: seq<V>)
      requires Valid()
      ensures Decode(keyOf, records) == inner && |records| == |inner|
      ensures forall v :: v in records <==> v in inner.Values
    {
      records := [];
      var rest := inner.Keys;
      while rest != {}
        invariant rest <= inner.Keys
        invariant Decode(keyOf, records) == map k | k in inner && k !in rest :: inner[k]
        invariant |records| == |inner| - |rest|
        invariant forall v :: v in records <==> exists k :: k in inner && k !in rest && inner[k] == v
        decreases |rest|
      {
        var k :| k in rest;
        ghost var before := records;
        records := records + [inner[k]];
        assert Init(records) == before && Last(records) == inner[k];
        rest := rest - {k};
      }
      assert Decode(keyOf, records) == inner;
    }

    method Flush() returns (ok: bool)
      requires Valid() && loaded
      modifies this`file
      ensures ok == writable
      ensures ok ==> Reopened() == inner
      ensures !ok ==> file == old(file)
    {
      var records := Values();
      if writable {
        file := Some(records);
      }
      return writable;
    }

    method Load(k: K) returns (r: Result<Option<V>, StoreError>)
      requires Valid()
      modifies this`inner, this`loaded
      ensures Valid() && Contents() == old(Contents()) && loaded == old(loaded || CanRead())
      ensures r == if old(CanRead()) then Ok(Get(Contents(), k)) else Err(ReadFailed)
    {
      var ok := EnsureLoaded();
      if !ok {
        return Err(ReadFailed);
      }
      return Ok(Get(inner, k));
    }

    /** A failed flush reports an error but the cache already holds the record. */
    method Save(v: V) returns (r: Result<(), StoreError>)
      requires Valid()
      modifies this`inner, this`loaded, this`file
      ensures Valid() && loaded == old(loaded || CanRead())
      ensures Contents() == if old(CanRead()) then old(Contents())[keyOf(v) := v] else old(Contents())
      ensures r == if !old(CanRead()) then Err(ReadFailed) else if !writable then Err(WriteFailed) else Ok(())
      ensures r.Ok? ==> Coherent()
      ensures r.Err? ==> file == old(file)
    {
      var ok := EnsureLoaded();
      if !ok {
        return Err(ReadFailed);
      }
      inner := inner[keyOf(v) := v];
      ok := Flush();
      return if ok then Ok(()) else Err(WriteFailed);
    }

    /** Flushes only when there was something to remove. */
    method Delete(k: K) returns (r: Result<(), StoreError>)
      requires Valid()
      modifies this`inner, this`loaded, this`file
      ensures Valid() && loaded == old(loaded || CanRead())
      ensures Contents() == if old(CanRead()) then old(Contents()) - {k} else old(Contents())
      ensures r.Ok? && old(Coherent()) ==> Coherent()
      ensures r.Err? <==> !old(CanRead()) || (old(k in Contents()) && !writable)
      ensures r.Err? ==> file == old(file)
    {
      var ok := EnsureLoaded();
      if !ok {
        return Err(ReadFailed);
      }
      if k in inner {
        inner := inner - {k};
        ok := Flush();
        if !ok {
          return Err(WriteFailed);
        }
      } else {
        assert inner - {k} == inner;
      }
      return Ok(());
    }

    method List() returns (r: Result<seq<V>, StoreError>)
      requires Valid()
      modifies this`inner, this`loaded
      ensures Valid() && Contents() == old(Contents()) && loaded == old(loaded || CanRead())
      ensures r.Ok? == old(CanRead())
      ensures r.Ok? ==> |r.value| == |Contents()|
      ensures r.Ok? ==> forall v :: v in r.value <==> v in Contents().Values
    {
      var ok := EnsureLoaded();
      if !ok {
        return Err(ReadFailed);
      }
      var values := Values();
      return Ok(values);
    }

    /** Garbage collection; skips the flush when the size did not change. */
    method RetainActive(live: set<K>) returns (r: Result<(), StoreError>)
      requires Valid()
      modifies this`inner, this`loaded, this`file
      ensures Valid() && loaded == old(loaded || CanRead())
      ensures Contents() == if old(CanRead()) then Retained(old(Contents()), live, actionable) else old(Contents())
      ensures r.Ok? && old(Coherent()) ==> Coherent()
      ensures r.Err? ==> file == old(file)
      ensures old(CanRead()) && writable ==> r.Ok?
    {
      var ok := EnsureLoaded();
      if !ok {
        return Err(ReadFailed);
      }
      var before := |inner|;
      ghost var all := inner;
      inner := map k | k in inner && (k in live || actionable(inner[k])) :: inner[k];
      assert inner == Retained(all, live, actionable);
      if |inner| != before {
        ok := Flush();
        if !ok {
          return Err(WriteFailed);
        }
      } else {
        SameSizeRetainsAll(all, live, actionable);
      }
      return Ok(());
    }
  }

  /** In-memory store: the same operations with nothing to lose. */
  class MemoryStore<K(==), V(==)> {
    const keyOf: V -> K
    const actionable: V -> bool
    var inner: map<K, V>

    constructor (keyOf: V -> K, actionable: V -> bool)
      ensures this.keyOf == keyOf && this.actionable == actionable && inner == map[]
    {
      this.keyOf, this.actionable, inner := keyOf, actionable, map[];
    }

    method Load(k: K) returns (r: Option<V>)
      ensures r == Get(inner, k)
    {
      return if k in inner then Some(inner[k]) else None;
    }

    method Save(v: V)
      modifies this
      ensures inner == old(inner)[keyOf(v) := v]
    {
      inner := inner[keyOf(v) := v];
    }

    method Delete(k: K)
      modifies this
      ensures inner == old(inner) - {k}
    {
      inner := inner - {k};
    }

    method List() returns (values: set<V>)
      ensures values == inner.Values
    {
      return inner.Values;
    }

    method RetainActive(live: set<K>)
      modifies this
      ensures inner == Retained(old(inner), live, actionable)
    {
      inner := map k | k in inner && (k in live || actionable(inner[k])) :: inner[k];
    }
  }

  // ----- The two stores against one interpreter --------------------------------------------------

  datatype StoreOp<K, V> = LoadOp(k: K) | ListOp | SaveOp(v: V) | DeleteOp(k: K) | RetainOp(live: set<K>)

  datatype Answer<V> = Found(value: Option<V>) | Records(values: set<V>) | Done | Refused

  /** What a store is: the map after one operation. */
  function MapAfter<K, V>(keyOf: V -> K, actionable: V -> bool, m: map<K, V>, op: StoreOp<K, V>): map<K, V> {
    match op
    case LoadOp(_) => m
    case ListOp => m
    case SaveOp(v) => m[keyOf(v) := v]
    case DeleteOp(k) => m - {k}
    case RetainOp(live) => Retained(m, live, actionable)
  }

  /** What a store says: the answer to one operation. */
  function AnswerTo<K, V>(m: map<K, V>, op: StoreOp<K, V>): Answer<V> {
    match op
    case LoadOp(k) => Found(Get(m, k))
    case ListOp => Records(m.Values)
    case SaveOp(_) => Done
    case DeleteOp(_) => Done
    case RetainOp(_) => Done
  }

  /** A whole run of a store on a map: the map it ends with and every answer it gave. */
  function Interpret<K, V>(keyOf: V -> K, actionable: V -> bool, m: map<K, V>, ops: seq<StoreOp<K, V>>)
    : (r: (map<K, V>, seq<Answer<V>>))
    ensures |r.1| == |ops|
  {
    if ops == [] then (m, [])
    else
      var (was, answers) := Interpret(keyOf, actionable, m, Init(ops));
      (MapAfter(keyOf, actionable, was, Last(ops)), answers + [AnswerTo(was, Last(ops))])
  }

  function Acknowledged<V>(r: Result<(), StoreError>): Answer<V> {
    if r.Ok? then Done else Refused
  }

  method AskFile<K, V>(f: FileStore<K, V>, op: StoreOp<K, V>) returns (a: Answer<V>)
    requires f.Valid() && f.Coherent() && f.readable && f.writable
    modifies f
    ensures f.Valid() && f.Coherent() && f.readable && f.writable
    ensures f.Contents() == MapAfter(f.keyOf, f.actionable, old(f.Contents()), op)
    ensures a == AnswerTo(old(f.Contents()), op)
  {
    match op
    case LoadOp(k) =>
      var r := f.Load(k);
      a := Found(r.value);
    case ListOp =>
      var r := f.List();
      a := Records(set v | v in r.value);
      assert a.values == f.Contents().Values;
    case SaveOp(v) =>
      var r := f.Save(v);
      a := Acknowledged(r);
    case DeleteOp(k) =>
      var r := f.Delete(k);
      a := Acknowledged(r);
    case RetainOp(live) =>
      var r := f.RetainActive(live);
      a := Acknowledged(r);
  }

  method AskMemory<K, V>(m: MemoryStore<K, V>, op: StoreOp<K, V>) returns (a: Answer<V>)
    modifies m
    ensures m.inner == MapAfter(m.keyOf, m.actionable, old(m.inner), op)
    ensures a == AnswerTo(old(m.inner), op)
  {
    a := Done;
    match op
    case LoadOp(k) =>
      var r := m.Load(k);
      a := Found(r);
    case ListOp =>
      var r := m.List();
      a := Records(r);
    case SaveOp(v) =>
      m.Save(v);
    case DeleteOp(k) =>
      m.Delete(k);
    case RetainOp(live) =>
      m.RetainActive(live);
  }

  /**
   Any sequence of operations on a healthy disk, performed on both stores: each ends with the map the
   operations describe and gives every answer they describe (lists as sets), and a store reopened on
   the file holds that map, each record under its own key.
   */
  method DriveBoth<K, V>(f: FileStore<K, V>, m: MemoryStore<K, V>, ops: seq<StoreOp<K, V>>)
    returns (fromFile: seq<Answer<V>>, fromMemory: seq<Answer<V>>)
    requires f.Valid() && f.Coherent() && f.readable && f.writable
    requires f.keyOf == m.keyOf && f.actionable == m.actionable && f.Contents() == m.inner
    modifies f, m
    ensures (m.inner, fromMemory) == Interpret(m.keyOf, m.actionable, old(m.inner), ops)
    ensures (f.Contents(), fromFile) == Interpret(m.keyOf, m.actionable, old(m.inner), ops)
    ensures f.Valid() && f.Reopened() == f.Contents() && WellKeyed(f.keyOf, f.Contents())
  {
    fromFile, fromMemory := [], [];
    for i := 0 to |ops|
      invariant f.Valid() && f.Coherent() && f.readable && f.writable
      invariant (m.inner, fromMemory) == Interpret(m.keyOf, m.actionable, old(m.inner), ops[..i])
      invariant (f.Contents(), fromFile) == (m.inner, fromMemory)
    {
      assert Init(ops[..i + 1]) == ops[..i];
      var a := AskFile(f, ops[i]);
      var b := AskMemory(m, ops[i]);
      fromFile, fromMemory := fromFile + [a], fromMemory + [b];
    }
    assert ops[..|ops|] == ops;
  }
}
