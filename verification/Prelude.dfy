/** Small shared vocabulary: optional values, results, and filters over sequences of instants. */
module Prelude {

  datatype Option<+T> = None | Some(value: T)

  datatype Result<+T, +E> = Ok(value: T) | Err(error: E)

  /** An instant, in whole seconds. */
  type Time = int

  type U32 = n: nat | n < 0x1_0000_0000

  const U32_MAX: U32 := 0xFFFF_FFFF

  /** `as u32` on a length: the low 32 bits. */
  function AsU32(n: nat): U32 {
    n % 0x1_0000_0000
  }

  function SaturatingIncrement(n: U32): U32 {
    if n < U32_MAX then n + 1 else n
  }

  function Init<T>(s: seq<T>): seq<T>
    requires s != []
  {
    s[..|s| - 1]
  }

  function Last<T>(s: seq<T>): T
    requires s != []
  {
    s[|s| - 1]
  }

  lemma Assoc<T>(a: seq<T>, b: seq<T>, c: seq<T>)
    ensures a + (b + c) == a + b + c
  {
  }

  /** `Vec::retain(|t| *t >= cutoff)`. */
  function From(ts: seq<Time>, cutoff: Time): (r: seq<Time>)
    ensures |r| <= |ts|
  {
    if ts == [] then []
    else if Last(ts) >= cutoff then From(Init(ts), cutoff) + [Last(ts)]
    else From(Init(ts), cutoff)
  }

  function Repeat<T>(x: T, n: nat): (r: seq<T>)
    ensures |r| == n
    ensures forall i :: 0 <= i < n ==> r[i] == x
  {
    seq(n, _ => x)
  }

  lemma {:induction false} FromConcat(a: seq<Time>, b: seq<Time>, cutoff: Time)
    ensures From(a + b, cutoff) == From(a, cutoff) + From(b, cutoff)
  {
    if b == [] {
      assert a + b == a;
    } else {
      FromConcat(a, Init(b), cutoff);
      assert Init(a + b) == a + Init(b);
    }
  }

  /** Pruning twice with a rising cutoff is pruning once. */
  lemma {:induction false} FromFrom(ts: seq<Time>, early: Time, late: Time)
    requires early <= late
    ensures From(From(ts, early), late) == From(ts, late)
  {
    if ts != [] {
      FromFrom(Init(ts), early, late);
      if Last(ts) >= early {
        FromConcat(From(Init(ts), early), [Last(ts)], late);
        FromSingle(Last(ts), late);
      }
    }
  }

  lemma FromSingle(t: Time, cutoff: Time)
    ensures From([t], cutoff) == if t >= cutoff then [t] else []
  {
    assert Init([t]) == [];
  }

  lemma FromPush(ts: seq<Time>, t: Time, cutoff: Time)
    requires t >= cutoff
    ensures From(ts + [t], cutoff) == From(ts, cutoff) + [t]
  {
    assert Init(ts + [t]) == ts;
  }

  lemma {:induction false} FromAllRecent(ts: seq<Time>, cutoff: Time)
    requires forall i :: 0 <= i < |ts| ==> ts[i] >= cutoff
    ensures From(ts, cutoff) == ts
  {
    if ts != [] {
      assert Last(ts) >= cutoff;
      var front := Init(ts);
      assert forall i :: 0 <= i < |front| ==> front[i] == ts[i];
      FromAllRecent(front, cutoff);
      assert ts == front + [Last(ts)];
    }
  }

  lemma {:induction false} LaterCutKeepsLess(ts: seq<Time>, early: Time, late: Time)
    requires early <= late
    ensures |From(ts, late)| <= |From(ts, early)|
  {
    if ts != [] {
      LaterCutKeepsLess(Init(ts), early, late);
    }
  }

  /** The window a later pass sees is the window of everything ever recorded. */
  lemma FromAppend(all: seq<Time>, news: seq<Time>, early: Time, late: Time)
    requires early <= late
    requires forall i :: 0 <= i < |news| ==> news[i] >= late
    ensures From(From(all, early), late) + news == From(all + news, late)
  {
    FromFrom(all, early, late);
    FromConcat(all, news, late);
    FromAllRecent(news, late);
  }

  /** Positions from `from` on at which `p` holds of what came before and what happens. */
  ghost function IndicesWhere<T>(p: (seq<T>, T) -> bool, h: seq<T>, from: nat): set<nat> {
    set j: nat | from <= j < |h| && p(h[..j], h[j])
  }

  lemma IndicesStep<T>(p: (seq<T>, T) -> bool, h: seq<T>, from: nat)
    requires from < |h|
    ensures IndicesWhere(p, h, from) ==
            IndicesWhere(p, Init(h), from) + if p(Init(h), Last(h)) then {|h| - 1} else {}
  {
    var n := |h| - 1;
    assert h[..n] == Init(h) && h[n] == Last(h);
    forall j: nat | j < n ensures h[..j] == Init(h)[..j] && h[j] == Init(h)[j] {
    }
  }

  // ----- Flat maps --------------------------------------------------------------------------------

  function FlatMap<A, B>(f: A -> seq<B>, xs: seq<A>): seq<B> {
    if xs == [] then [] else FlatMap(f, Init(xs)) + f(Last(xs))
  }

  lemma FlatMapPush<A, B>(f: A -> seq<B>, xs: seq<A>, x: A, all: seq<A>)
    requires all == xs + [x]
    ensures FlatMap(f, all) == FlatMap(f, xs) + f(x)
  {
    assert Init(all) == xs;
  }

  lemma FlatMapOne<A, B>(f: A -> seq<B>, x: A)
    ensures FlatMap(f, [x]) == f(x)
  {
    FlatMapPush(f, [], x, [x]);
  }

  lemma {:induction false} FlatMapConcat<A, B>(f: A -> seq<B>, xs: seq<A>, ys: seq<A>)
    ensures FlatMap(f, xs + ys) == FlatMap(f, xs) + FlatMap(f, ys)
  {
    if ys == [] {
      assert xs + ys == xs;
    } else {
      FlatMapConcat(f, xs, Init(ys));
      FlatMapPush(f, xs + Init(ys), Last(ys), xs + ys);
      FlatMapPush(f, Init(ys), Last(ys), ys);
      Assoc(FlatMap(f, xs), FlatMap(f, Init(ys)), f(Last(ys)));
    }
  }

  // ----- Folds ------------------------------------------------------------------------------------

  function FoldLeft<S, A>(step: (S, A) -> S, s: S, xs: seq<A>): S {
    if xs == [] then s else step(FoldLeft(step, s, Init(xs)), Last(xs))
  }

  lemma FoldPush<S, A>(step: (S, A) -> S, s: S, xs: seq<A>, x: A)
    ensures FoldLeft(step, s, xs + [x]) == step(FoldLeft(step, s, xs), x)
  {
    assert Init(xs + [x]) == xs;
  }

  lemma {:induction false} FoldConcat<S, A>(step: (S, A) -> S, s: S, xs: seq<A>, ys: seq<A>)
    ensures FoldLeft(step, s, xs + ys) == FoldLeft(step, FoldLeft(step, s, xs), ys)
  {
    if ys == [] {
      assert xs + ys == xs;
    } else {
      FoldConcat(step, s, xs, Init(ys));
      assert Init(xs + ys) == xs + Init(ys);
    }
  }

  /** What grows by the same steps is the fold. */
  lemma {:induction false} FoldUnique<S, A>(step: (S, A) -> S, g: seq<A> -> S, xs: seq<A>, n: nat)
    requires n <= |xs| && forall k: nat :: k < |xs| ==> g(xs[..k + 1]) == step(g(xs[..k]), xs[k])
    ensures g(xs[..n]) == FoldLeft(step, g([]), xs[..n])
  {
    if n == 0 {
      assert xs[..n] == [];
    } else {
      FoldUnique(step, g, xs, n - 1);
      assert g(xs[..(n - 1) + 1]) == step(g(xs[..n - 1]), xs[n - 1]);
      assert Init(xs[..n]) == xs[..n - 1];
    }
  }
}
