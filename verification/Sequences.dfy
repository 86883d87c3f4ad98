/** Counting, summing, mapping and rearranging sequences. */
module Sequences {

  function Count<T>(s: seq<T>, p: T -> bool): (n: nat)
    ensures n <= |s|
  {
    if s == [] then 0 else Count(s[..|s| - 1], p) + if p(s[|s| - 1]) then 1 else 0
  }

  lemma {:induction false} CountUpdate<T>(s: seq<T>, i: nat, x: T, p: T -> bool)
    requires i < |s|
    ensures Count(s[i := x], p) ==
            Count(s, p) - (if p(s[i]) then 1 else 0) + (if p(x) then 1 else 0)
  {
    var last := |s| - 1;
    if i == last {
      assert s[i := x][..last] == s[..last];
    } else {
      assert s[i := x][..last] == s[..last][i := x];
      CountUpdate(s[..last], i, x, p);
    }
  }

  lemma {:induction false} CountPointwise<T>(s: seq<T>, t: seq<T>, p: T -> bool, q: T -> bool)
    requires |s| == |t|
    requires forall i :: 0 <= i < |s| ==> p(s[i]) ==> q(t[i])
    ensures Count(s, p) <= Count(t, q)
  {
    if s != [] {
      CountPointwise(s[..|s| - 1], t[..|t| - 1], p, q);
    }
  }

  function Sum<T>(s: seq<T>, f: T -> nat): (n: nat)
  {
    if s == [] then 0 else Sum(s[..|s| - 1], f) + f(s[|s| - 1])
  }

  lemma {:induction false} SumUpdate<T>(s: seq<T>, i: nat, x: T, f: T -> nat)
    requires i < |s|
    ensures Sum(s[i := x], f) == Sum(s, f) - f(s[i]) + f(x)
  {
    var last := |s| - 1;
    if i == last {
      assert s[i := x][..last] == s[..last];
    } else {
      assert s[i := x][..last] == s[..last][i := x];
      SumUpdate(s[..last], i, x, f);
    }
  }

  lemma {:induction false} SumPointwise<T>(s: seq<T>, t: seq<T>, f: T -> nat, g: T -> nat)
    requires |s| == |t|
    requires forall i :: 0 <= i < |s| ==> f(s[i]) <= g(t[i])
    ensures Sum(s, f) <= Sum(t, g)
  {
    if s != [] {
      SumPointwise(s[..|s| - 1], t[..|t| - 1], f, g);
    }
  }

  lemma {:induction false} SumBound<T>(s: seq<T>, f: T -> nat, m: nat)
    requires forall i :: 0 <= i < |s| ==> f(s[i]) <= m
    ensures Sum(s, f) <= |s| * m
  {
    if s != [] {
      SumBound(s[..|s| - 1], f, m);
    }
  }

  // ---- Loops over a range of indices ----

  /** for k := i to n { s := step(s, k); } */
  function Sweep<S>(s: S, i: nat, n: nat, step: (S, nat) -> S): (r: S)
    decreases n - i
  {
    if i >= n then s else Sweep(step(s, i), i + 1, n, step)
  }

  lemma {:induction false} SweepKeeps<S(!new)>(s: S, i: nat, n: nat, step: (S, nat) -> S, inv: S -> bool)
    requires inv(s)
    requires forall t: S, k: nat :: inv(t) && i <= k < n ==> inv(step(t, k))
    ensures inv(Sweep(s, i, n, step))
    decreases n - i
  {
    if i < n {
      SweepKeeps(step(s, i), i + 1, n, step, inv);
    }
  }

  /** An invariant that may depend on how far the loop is. */
  lemma {:induction false} SweepKeepsAt<S(!new)>(s: S, i: nat, n: nat, step: (S, nat) -> S, inv: (S, nat) -> bool)
    requires i <= n && inv(s, i)
    requires forall t: S, k: nat :: inv(t, k) && i <= k < n ==> inv(step(t, k), k + 1)
    ensures inv(Sweep(s, i, n, step), n)
    decreases n - i
  {
    if i < n {
      SweepKeepsAt(step(s, i), i + 1, n, step, inv);
    }
  }

  lemma {:induction false} SweepSplit<S>(s: S, i: nat, m: nat, n: nat, step: (S, nat) -> S)
    requires i <= m <= n
    ensures Sweep(s, i, n, step) == Sweep(Sweep(s, i, m, step), m, n, step)
    decreases m - i
  {
    if i < m {
      SweepSplit(step(s, i), i + 1, m, n, step);
    }
  }

  // ---- Rearrangement ----

  function Map<S, T>(s: seq<S>, f: S -> T): (r: seq<T>)
    ensures |r| == |s|
    ensures forall i :: 0 <= i < |s| ==> r[i] == f(s[i])
  {
    seq(|s|, i requires 0 <= i < |s| => f(s[i]))
  }

  lemma MultisetInsert<T>(s: seq<T>, k: nat, x: T)
    requires k <= |s|
    ensures multiset(s[..k] + [x] + s[k..]) == multiset(s) + multiset{x}
  {
    assert s == s[..k] + s[k..];
  }

  lemma MultisetWithout<T>(s: seq<T>, k: nat, rest: seq<T>)
    requires k < |s| && rest == s[..k] + s[k + 1..]
    ensures multiset(s) == multiset(rest) + multiset{s[k]}
  {
    assert s == s[..k] + [s[k]] + s[k + 1..];
  }

  lemma MapWithout<S, T>(s: seq<S>, k: nat, rest: seq<S>, f: S -> T)
    requires k < |s| && rest == s[..k] + s[k + 1..]
    ensures multiset(Map(s, f)) == multiset(Map(rest, f)) + multiset{f(s[k])}
  {
    MultisetWithout(Map(s, f), k, Map(rest, f));
  }

  lemma Locate<T>(x: T, t: seq<T>) returns (k: nat, rest: seq<T>)
    requires x in multiset(t)
    ensures k < |t| && t[k] == x && rest == t[..k] + t[k + 1..]
  {
    k :| 0 <= k < |t| && t[k] == x;
    rest := t[..k] + t[k + 1..];
  }

  lemma Cancel<T>(a: multiset<T>, b: multiset<T>, x: T)
    requires a + multiset{x} == b + multiset{x}
    ensures a == b
  {
    assert a == (a + multiset{x}) - multiset{x};
    assert b == (b + multiset{x}) - multiset{x};
  }

  lemma Unpair<S, T>(s: seq<S>, t: seq<S>, f: S -> T) returns (s': seq<S>, t': seq<S>, y: T)
    requires multiset(s) == multiset(t) && s != []
    ensures multiset(s') == multiset(t') && |s'| < |s|
    ensures multiset(Map(s, f)) == multiset(Map(s', f)) + multiset{y}
    ensures multiset(Map(t, f)) == multiset(Map(t', f)) + multiset{y}
  {
    var x := s[0];
    assert x in multiset(s);
    y := f(x);
    var i, j;
    i, s' := Locate(x, s);
    j, t' := Locate(x, t);
    MultisetWithout(s, i, s');
    MultisetWithout(t, j, t');
    Cancel(multiset(s'), multiset(t'), x);
    MapWithout(s, i, s', f);
    MapWithout(t, j, t', f);
  }

  /** Mapping respects rearrangement. */
  lemma {:induction false} MapMultiset<S, T>(s: seq<S>, t: seq<S>, f: S -> T)
    requires multiset(s) == multiset(t)
    ensures multiset(Map(s, f)) == multiset(Map(t, f))
    decreases |s|
  {
    if s == [] {
      assert |multiset(t)| == 0;
    } else {
      var s', t', y := Unpair(s, t, f);
      MapMultiset(s', t', f);
    }
  }
}
