/** Shared datatypes and sequence utilities. */
module Prelude {

  datatype Option<+T> = None | Some(value: T)

  const U16_MAX: nat := 0xFFFF
  const U64_MAX: nat := 0xFFFF_FFFF_FFFF_FFFF

  /** The widths the source gives to ports and to the back-off settings. */
  type Port = n: nat | n <= 0xFFFF
  type U64 = n: nat | n <= 0xFFFF_FFFF_FFFF_FFFF

  function Min(a: nat, b: nat): nat {
    if a <= b then a else b
  }

  function Max(a: nat, b: nat): nat {
    if a <= b then b else a
  }

  ghost predicate IsFirst<T(!new)>(s: seq<T>, p: T -> bool, i: nat) {
    i < |s| && p(s[i]) && forall j :: 0 <= j < i ==> !p(s[j])
  }

  lemma {:induction false} FirstExists<T(!new)>(s: seq<T>, p: T -> bool, k: nat)
    requires k < |s| && p(s[k])
    ensures exists i :: IsFirst(s, p, i)
    decreases k
  {
    if j :| 0 <= j < k && p(s[j]) {
      FirstExists(s, p, j);
    } else {
      assert IsFirst(s, p, k);
    }
  }

  lemma NoneFirst<T(!new)>(s: seq<T>, p: T -> bool)
    requires forall k: nat :: !(k < |s| && p(s[k]) && forall j :: 0 <= j < k ==> !p(s[j]))
    ensures forall i :: 0 <= i < |s| ==> !p(s[i])
  {
    if i :| 0 <= i < |s| && p(s[i]) {
      FirstExists(s, p, i);
    }
  }

  /** `Iterator::find` on positions: the first index whose element satisfies `p`. */
  function FindFirst<T(!new)>(s: seq<T>, p: T -> bool): (r: Option<nat>)
    ensures r.Some? ==> IsFirst(s, p, r.value)
    ensures r.None? ==> forall i :: 0 <= i < |s| ==> !p(s[i])
  {
    if k: nat :| k < |s| && p(s[k]) && forall j :: 0 <= j < k ==> !p(s[j]) then Some(k)
    else
      NoneFirst(s, p);
      None
  }

  ghost predicate NoDup<T(!new)>(s: seq<T>) {
    forall i, j :: 0 <= i < j < |s| ==> s[i] != s[j]
  }

  lemma NoDupConcat<T(!new)>(s: seq<T>, t: seq<T>)
    requires NoDup(s) && NoDup(t) && forall x :: x in t ==> x !in s
    ensures NoDup(s + t)
  {
    forall i, j | 0 <= i < j < |s + t| ensures (s + t)[i] != (s + t)[j] {
      if i < |s| <= j {
        assert s[i] in s && t[j - |s|] in t;
      }
    }
  }

  function ToSet<T>(s: seq<T>): set<T> {
    set x | x in s
  }

  /** A duplicate-free sequence over a finite set is no longer than the set. */
  lemma {:induction false} NoDupBound<T(!new)>(s: seq<T>, u: set<T>)
    requires NoDup(s)
    requires forall x :: x in s ==> x in u
    ensures |s| <= |u|
  {
    if s != [] {
      var x, rest := s[|s| - 1], s[..|s| - 1];
      forall y | y in rest ensures y in u - {x} {
        var i :| 0 <= i < |rest| && rest[i] == y;
        assert s[i] != s[|s| - 1];
      }
      NoDupBound(rest, u - {x});
    }
  }

  // ----- stable sort, descending -----

  ghost predicate Descends<T(!new)>(s: seq<T>, key: T -> int) {
    forall x, y :: 0 <= x < y < |s| ==> key(s[x]) >= key(s[y])
  }

  /** After every element with the same or a higher key. */
  function InsertByKey<T(!new)>(s: seq<T>, x: T, key: T -> int): (r: seq<T>)
    ensures forall y :: y in r <==> y in s || y == x
    ensures multiset(r) == multiset(s) + multiset{x}
  {
    if s != [] && key(s[|s| - 1]) < key(x) then
      assert s == s[..|s| - 1] + [s[|s| - 1]];
      InsertByKey(s[..|s| - 1], x, key) + [s[|s| - 1]]
    else s + [x]
  }

  lemma {:induction false} InsertDescends<T(!new)>(s: seq<T>, x: T, key: T -> int)
    requires Descends(s, key)
    ensures Descends(InsertByKey(s, x, key), key)
  {
    if s != [] && key(s[|s| - 1]) < key(x) {
      var front, last := s[..|s| - 1], s[|s| - 1];
      InsertDescends(front, x, key);
      var r := InsertByKey(front, x, key);
      forall i | 0 <= i < |r| ensures key(r[i]) >= key(last) {
        assert r[i] in r;
      }
    }
  }

  /** `sort_by_key` with `Reverse(key)`. */
  function SortByKey<T(!new)>(s: seq<T>, key: T -> int): (r: seq<T>)
    ensures multiset(r) == multiset(s)
    ensures Descends(r, key)
  {
    if s == [] then []
    else
      assert s == s[..|s| - 1] + [s[|s| - 1]];
      var r := SortByKey(s[..|s| - 1], key);
      InsertDescends(r, s[|s| - 1], key);
      InsertByKey(r, s[|s| - 1], key)
  }

  lemma SameMultiset<T(!new)>(r: seq<T>, s: seq<T>)
    requires multiset(r) == multiset(s)
    ensures forall x :: x in r <==> x in s
    ensures |r| == |s|
  {
    forall x ensures x in r <==> x in s {
      assert x in r <==> x in multiset(r);
      assert x in s <==> x in multiset(s);
    }
    assert |multiset(r)| == |r| && |multiset(s)| == |s|;
  }

  /** A permutation of a duplicate-free sequence has no duplicates either. */
  lemma NoDupSorted<T(!new)>(r: seq<T>, s: seq<T>)
    requires multiset(r) == multiset(s) && NoDup(s)
    ensures NoDup(r)
  {
    forall i, j | 0 <= i < j < |r| ensures r[i] != r[j] {
      if r[i] == r[j] {
        assert r == r[..i] + [r[i]] + r[i + 1..j] + [r[j]] + r[j + 1..];
        assert multiset(s)[r[i]] >= 2;
        NoDupOnce(s, r[i]);
      }
    }
  }

  lemma {:induction false} NoDupOnce<T(!new)>(s: seq<T>, x: T)
    requires NoDup(s)
    ensures multiset(s)[x] <= 1
  {
    if s != [] {
      var front, last := s[..|s| - 1], s[|s| - 1];
      assert s == front + [last];
      NoDupOnce(front, x);
      if x == last {
        assert x !in front;
        assert x !in multiset(front);
      }
    }
  }

  // ----- a table updated in place, one index at a time -----

  /** The table while its update to `target` has reached the indices in `done`. */
  function Mixed<T>(was: seq<T>, target: seq<T>, done: set<nat>): seq<T>
    requires |was| == |target|
  {
    seq(|was|, i requires 0 <= i < |was| => if i in done then target[i] else was[i])
  }

  lemma MixStep<T>(was: seq<T>, target: seq<T>, done: set<nat>, i: nat)
    requires |was| == |target| && i < |was|
    ensures Mixed(was, target, done)[i := target[i]] == Mixed(was, target, done + {i})
    ensures i !in done ==> Mixed(was, target, done)[i] == was[i]
    ensures was[i] == target[i] ==> Mixed(was, target, done) == Mixed(was, target, done + {i})
  {
  }

  lemma MixEnds<T>(was: seq<T>, target: seq<T>, done: set<nat>)
    requires |was| == |target|
    ensures Mixed(was, target, {}) == was
    ensures (forall i: nat :: i < |was| && i !in done ==> was[i] == target[i]) ==> Mixed(was, target, done) == target
  {
  }

  // ----- invariants of runs -----

  /** What holds at the start and is kept by every step holds all along a run. */
  lemma {:induction false} AlongRun<S(!new), E(!new)>(
      ss: seq<S>, es: seq<E>, step: (S, E, S) -> bool, inv: (S, nat) -> bool, k: nat)
    requires |ss| == |es| + 1 && k < |ss|
    requires forall j {:trigger es[j]} :: 0 <= j < |es| ==> step(ss[j], es[j], ss[j + 1])
    requires inv(ss[0], 0)
    requires forall s, e, s', j: nat :: inv(s, j) && step(s, e, s') ==> inv(s', j + 1)
    ensures inv(ss[k], k)
  {
    if k > 0 {
      AlongRun(ss, es, step, inv, k - 1);
      assert step(ss[k - 1], es[k - 1], ss[k]);
      assert inv(ss[k], (k - 1) + 1);
    }
  }

  /** The same by position: what holds at `a` and passes from each state to the next up to `b` holds at `b`. */
  lemma {:induction false} AlongStates<S(!new)>(ss: seq<S>, inv: (S, nat) -> bool, a: nat, b: nat)
    requires a <= b < |ss|
    requires inv(ss[a], a)
    requires forall j: nat {:trigger inv(ss[j], j)} :: a <= j < b && inv(ss[j], j) ==> inv(ss[j + 1], j + 1)
    ensures inv(ss[b], b)
    decreases b
  {
    if a < b {
      AlongStates(ss, inv, a, b - 1);
    }
  }

  /** Induction on numbers from `a` to `b`. */
  lemma {:induction false} Climb(inv: nat -> bool, a: nat, b: nat)
    requires a <= b && inv(a)
    requires forall n: nat :: a <= n < b && inv(n) ==> inv(n + 1)
    ensures inv(b)
    decreases b
  {
    if a < b {
      Climb(inv, a, b - 1);
    }
  }
}
