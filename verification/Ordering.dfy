/** Lexicographic order on strings, ordered maps as ascending entry lists, and a stable sort. */
module Ordering {
  import opened Prelude

  ghost predicate Total<T(!new)>(leq: (T, T) -> bool) {
    forall a, b :: leq(a, b) || leq(b, a)
  }

  ghost predicate Transitive<T(!new)>(leq: (T, T) -> bool) {
    forall a, b, c :: leq(a, b) && leq(b, c) ==> leq(a, c)
  }

  ghost predicate Antisymmetric<T(!new)>(leq: (T, T) -> bool) {
    forall a, b :: leq(a, b) && leq(b, a) ==> a == b
  }

  ghost predicate TotalPreorder<T(!new)>(leq: (T, T) -> bool) {
    Total(leq) && Transitive(leq)
  }

  ghost predicate TotalOrder<T(!new)>(leq: (T, T) -> bool) {
    TotalPreorder(leq) && Antisymmetric(leq)
  }

  // ----- Strings --------------------------------------------------------------------------------

  predicate StrLeq(a: string, b: string) {
    a == "" || (b != "" && (a[0] < b[0] || (a[0] == b[0] && StrLeq(a[1..], b[1..]))))
  }

  lemma {:induction false} StrLeqTotal(a: string, b: string)
    ensures StrLeq(a, b) || StrLeq(b, a)
  {
    if a != "" && b != "" {
      StrLeqTotal(a[1..], b[1..]);
    }
  }

  lemma {:induction false} StrLeqTransitive(a: string, b: string, c: string)
    requires StrLeq(a, b) && StrLeq(b, c)
    ensures StrLeq(a, c)
  {
    if a != "" && a[0] == b[0] == c[0] {
      StrLeqTransitive(a[1..], b[1..], c[1..]);
    }
  }

  lemma {:induction false} StrLeqAntisymmetric(a: string, b: string)
    requires StrLeq(a, b) && StrLeq(b, a)
    ensures a == b
  {
    if a != "" {
      StrLeqAntisymmetric(a[1..], b[1..]);
      assert a == [a[0]] + a[1..] && b == [b[0]] + b[1..];
    }
  }

  lemma StringsAreOrdered()
    ensures TotalOrder(StrLeq)
  {
    forall a, b ensures StrLeq(a, b) || StrLeq(b, a) { StrLeqTotal(a, b); }
    forall a, b, c | StrLeq(a, b) && StrLeq(b, c) ensures StrLeq(a, c) { StrLeqTransitive(a, b, c); }
    forall a, b | StrLeq(a, b) && StrLeq(b, a) ensures a == b { StrLeqAntisymmetric(a, b); }
  }

  /** `a` and `b` agree up to `k`, where `a` ends or has the smaller character. */
  predicate DiffersAt(a: string, b: string, k: nat) {
    k <= |a| && k <= |b| && a[..k] == b[..k] && (k == |a| || (k < |b| && a[k] < b[k]))
  }

  lemma FirstCharacter(a: string, b: string, k: nat)
    requires a != "" && b != "" && DiffersAt(a, b, k)
    ensures a[0] <= b[0]
  {
    if k > 0 {
      assert a[..k][0] == b[..k][0];
    }
  }

  /** The order is the dictionary's. */
  lemma {:induction false} StrLeqIff(a: string, b: string)
    ensures StrLeq(a, b) <==> exists k: nat :: DiffersAt(a, b, k)
  {
    if a == "" {
      assert DiffersAt(a, b, 0);
    } else if b != "" && a[0] == b[0] {
      StrLeqIff(a[1..], b[1..]);
      if StrLeq(a[1..], b[1..]) {
        var k: nat :| DiffersAt(a[1..], b[1..], k);
        assert a[..k + 1] == [a[0]] + a[1..][..k] && b[..k + 1] == [b[0]] + b[1..][..k];
        assert DiffersAt(a, b, k + 1);
      }
      if k: nat :| DiffersAt(a, b, k) {
        assert k != 0;
        assert a[1..][..k - 1] == a[..k][1..] && b[1..][..k - 1] == b[..k][1..];
        assert DiffersAt(a[1..], b[1..], k - 1);
      }
    } else if b != "" {
      if a[0] < b[0] {
        assert DiffersAt(a, b, 0);
      }
      if k: nat :| DiffersAt(a, b, k) {
        FirstCharacter(a, b, k);
      }
    }
  }

  predicate PairLeq(a: (string, string), b: (string, string)) {
    StrLeq(a.0, b.0) && (a.0 == b.0 ==> StrLeq(a.1, b.1))
  }

  lemma PairsAreOrdered()
    ensures TotalOrder(PairLeq)
  {
    StringsAreOrdered();
  }

  // ----- Ordered maps ---------------------------------------------------------------------------

  /** Keys strictly ascending: what a `BTreeMap` iterates over. */
  ghost predicate Ascending<K, V>(leq: (K, K) -> bool, entries: seq<(K, V)>) {
    forall i, j :: 0 <= i < j < |entries| ==> leq(entries[i].0, entries[j].0) && entries[i].0 != entries[j].0
  }

  /** `BTreeMap::insert`: replaces the value of an existing key, keeps the order otherwise. */
  function Put<K(==), V>(leq: (K, K) -> bool, entries: seq<(K, V)>, k: K, v: V): seq<(K, V)> {
    if entries == [] then [(k, v)]
    else if entries[0].0 == k then [(k, v)] + entries[1..]
    else if leq(k, entries[0].0) then [(k, v)] + entries
    else [entries[0]] + Put(leq, entries[1..], k, v)
  }

  function AsMap<K, V>(entries: seq<(K, V)>): map<K, V> {
    if entries == [] then map[] else AsMap(entries[1..])[entries[0].0 := entries[0].1]
  }

  lemma {:induction false} PutKeys<K, V>(leq: (K, K) -> bool, entries: seq<(K, V)>, k: K, v: V)
    ensures forall e :: e in Put(leq, entries, k, v) ==> e.0 == k || e in entries
  {
    if entries != [] && entries[0].0 != k && !leq(k, entries[0].0) {
      PutKeys(leq, entries[1..], k, v);
    }
  }

  /** A key below every key of an ascending list goes in front. */
  lemma ConsAscending<K, V>(leq: (K, K) -> bool, e: (K, V), rest: seq<(K, V)>)
    requires Ascending(leq, rest)
    requires forall r :: r in rest ==> leq(e.0, r.0) && e.0 != r.0
    ensures Ascending(leq, [e] + rest)
  {
    var s := [e] + rest;
    forall i, j | 0 <= i < j < |s| ensures leq(s[i].0, s[j].0) && s[i].0 != s[j].0 {
      assert s[j] == rest[j - 1];
    }
  }

  lemma {:induction false} PutAscending<K(!new), V>(leq: (K, K) -> bool, entries: seq<(K, V)>, k: K, v: V)
    requires TotalOrder(leq) && Ascending(leq, entries)
    ensures Ascending(leq, Put(leq, entries, k, v))
  {
    if entries == [] {
    } else {
      var first, rest := entries[0], entries[1..];
      assert forall r :: r in rest ==> leq(first.0, r.0) && first.0 != r.0;
      if first.0 == k {
        ConsAscending(leq, (k, v), rest);
      } else if leq(k, first.0) {
        forall r | r in entries ensures leq(k, r.0) && k != r.0 {
          assert r == first || r in rest;
          assert leq(first.0, r.0) || r == first;
        }
        ConsAscending(leq, (k, v), entries);
      } else {
        PutAscending(leq, rest, k, v);
        PutKeys(leq, rest, k, v);
        ConsAscending(leq, first, Put(leq, rest, k, v));
      }
    }
  }

  lemma {:induction false} PutAsMap<K, V>(leq: (K, K) -> bool, entries: seq<(K, V)>, k: K, v: V)
    ensures AsMap(Put(leq, entries, k, v)) == AsMap(entries)[k := v]
  {
    if entries != [] && entries[0].0 != k && !leq(k, entries[0].0) {
      PutAsMap(leq, entries[1..], k, v);
      var out := Put(leq, entries, k, v);
      assert out[0] == entries[0] && out[1..] == Put(leq, entries[1..], k, v);
    } else if entries != [] && entries[0].0 == k {
      var out := Put(leq, entries, k, v);
      assert out[0] == (k, v) && out[1..] == entries[1..];
    } else {
      var out := Put(leq, entries, k, v);
      assert out[0] == (k, v) && out[1..] == entries;
    }
  }

  lemma {:induction false} AsMapHas<K, V>(leq: (K, K) -> bool, entries: seq<(K, V)>, i: nat)
    requires Ascending(leq, entries) && i < |entries|
    ensures entries[i].0 in AsMap(entries) && AsMap(entries)[entries[i].0] == entries[i].1
  {
    if i > 0 {
      AsMapHas(leq, entries[1..], i - 1);
    }
  }

  lemma {:induction false} AsMapFrom<K, V>(entries: seq<(K, V)>, k: K) returns (i: nat)
    requires k in AsMap(entries)
    ensures i < |entries| && entries[i].0 == k
  {
    if entries[0].0 == k {
      i := 0;
    } else {
      var j := AsMapFrom(entries[1..], k);
      i := j + 1;
    }
  }

  // ----- Stable sort ----------------------------------------------------------------------------

  ghost predicate Sorted<T>(leq: (T, T) -> bool, s: seq<T>) {
    forall i, j :: 0 <= i < j < |s| ==> leq(s[i], s[j])
  }

  function Insert<T>(leq: (T, T) -> bool, x: T, s: seq<T>): seq<T> {
    if s == [] then [x]
    else if leq(x, s[0]) then [x] + s
    else [s[0]] + Insert(leq, x, s[1..])
  }

  /** A stable sort: equal elements keep their order. */
  function Sort<T>(leq: (T, T) -> bool, s: seq<T>): seq<T> {
    if s == [] then [] else Insert(leq, s[0], Sort(leq, s[1..]))
  }

  lemma {:induction false} InsertIsPermutation<T>(leq: (T, T) -> bool, x: T, s: seq<T>)
    ensures multiset(Insert(leq, x, s)) == multiset(s) + multiset{x}
  {
    if s != [] {
      assert s == [s[0]] + s[1..];
      if !leq(x, s[0]) {
        InsertIsPermutation(leq, x, s[1..]);
      }
    }
  }

  lemma {:induction false} InsertSorts<T(!new)>(leq: (T, T) -> bool, x: T, s: seq<T>)
    requires TotalPreorder(leq) && Sorted(leq, s)
    ensures Sorted(leq, Insert(leq, x, s))
  {
    if s != [] && !leq(x, s[0]) {
      var rest := s[1..];
      InsertSorts(leq, x, rest);
      InsertIsPermutation(leq, x, rest);
      var out := Insert(leq, x, rest);
      forall i | 0 <= i < |out| ensures leq(s[0], out[i]) {
        assert out[i] in multiset(out);
        assert out[i] in multiset(rest) || out[i] == x;
      }
    }
  }

  lemma {:induction false} SortIsSortedPermutation<T(!new)>(leq: (T, T) -> bool, s: seq<T>)
    requires TotalPreorder(leq)
    ensures Sorted(leq, Sort(leq, s)) && multiset(Sort(leq, s)) == multiset(s)
  {
    if s != [] {
      SortIsSortedPermutation(leq, s[1..]);
      InsertSorts(leq, s[0], Sort(leq, s[1..]));
      InsertIsPermutation(leq, s[0], Sort(leq, s[1..]));
      assert s == [s[0]] + s[1..];
    }
  }

  ghost predicate Pointwise<T>(related: (T, T) -> bool, a: seq<T>, b: seq<T>) {
    |a| == |b| && forall i :: 0 <= i < |a| ==> related(a[i], b[i])
  }

  /** Related elements compare alike. */
  ghost predicate RespectsOrder<T(!new)>(leq: (T, T) -> bool, related: (T, T) -> bool) {
    forall x, x', y, y' :: related(x, x') && related(y, y') ==> leq(x, y) == leq(x', y')
  }

  /** Sorting keeps a pointwise relation that the order cannot tell apart. */
  lemma {:induction false} SortKeepsRelation<T(!new)>(leq: (T, T) -> bool, related: (T, T) -> bool, a: seq<T>, b: seq<T>)
    requires RespectsOrder(leq, related) && Pointwise(related, a, b)
    ensures Pointwise(related, Sort(leq, a), Sort(leq, b))
  {
    if a != [] {
      SortKeepsRelation(leq, related, a[1..], b[1..]);
      InsertKeepsRelation(leq, related, a[0], b[0], Sort(leq, a[1..]), Sort(leq, b[1..]));
    }
  }

  lemma {:induction false} InsertKeepsRelation<T(!new)>(
    leq: (T, T) -> bool, related: (T, T) -> bool, x: T, y: T, a: seq<T>, b: seq<T>)
    requires RespectsOrder(leq, related) && related(x, y) && Pointwise(related, a, b)
    ensures Pointwise(related, Insert(leq, x, a), Insert(leq, y, b))
  {
    if a != [] && !leq(x, a[0]) {
      assert leq(x, a[0]) == leq(y, b[0]);
      InsertKeepsRelation(leq, related, x, y, a[1..], b[1..]);
    } else if a != [] {
      assert leq(x, a[0]) == leq(y, b[0]);
    }
  }

  /** The elements of `s` that satisfy `p`, in order. */
  function Only<T>(p: T -> bool, s: seq<T>): seq<T> {
    if s == [] then [] else (if p(s[0]) then [s[0]] else []) + Only(p, s[1..])
  }

  lemma OnlyCons<T>(p: T -> bool, x: T, s: seq<T>)
    ensures Only(p, [x] + s) == (if p(x) then [x] else []) + Only(p, s)
  {
    assert ([x] + s)[1..] == s;
  }

  lemma SwapOne<T>(a: seq<T>, b: seq<T>, rest: seq<T>)
    requires a == [] || b == []
    ensures a + (b + rest) == b + (a + rest)
  {
  }

  lemma {:induction false} InsertKeepsOrderOfTies<T(!new)>(leq: (T, T) -> bool, p: T -> bool, x: T, s: seq<T>)
    requires forall a, b :: p(a) && p(b) ==> leq(a, b)
    ensures Only(p, Insert(leq, x, s)) == (if p(x) then [x] else []) + Only(p, s)
  {
    if s == [] || leq(x, s[0]) {
      OnlyCons(p, x, s);
      assert s == [] ==> [x] + s == [x];
    } else {
      InsertKeepsOrderOfTies(leq, p, x, s[1..]);
      OnlyCons(p, s[0], Insert(leq, x, s[1..]));
      OnlyCons(p, s[0], s[1..]);
      assert s == [s[0]] + s[1..];
      assert !(p(x) && p(s[0]));
      SwapOne(if p(s[0]) then [s[0]] else [], if p(x) then [x] else [], Only(p, s[1..]));
    }
  }

  /** The sort is stable: elements that tie with one another keep their order. */
  lemma {:induction false} SortIsStable<T(!new)>(leq: (T, T) -> bool, p: T -> bool, s: seq<T>)
    requires forall a, b :: p(a) && p(b) ==> leq(a, b)
    ensures Only(p, Sort(leq, s)) == Only(p, s)
  {
    if s != [] {
      SortIsStable(leq, p, s[1..]);
      InsertKeepsOrderOfTies(leq, p, s[0], Sort(leq, s[1..]));
    }
  }
}
