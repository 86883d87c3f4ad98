/** Path MTU search: a ladder of sizes, then bisection between the largest good and the smallest bad size. */
module PathMtu {
  import opened Bytes

  const GRANULARITY: nat := 8
  const LOSS_THRESHOLD: nat := 2

  datatype State = Base | Searching | SearchComplete | Error

  datatype Probe = Probe(base: nat, steps: seq<nat>, ladder: nat, low: nat, high: nat, current: nat, effective: nat,
                         losses: nat, state: State)

  // ---- The ladder ----

  predicate Sorted(s: seq<int>) { forall i, j :: 0 <= i < j < |s| ==> s[i] <= s[j] }

  predicate Ascending(s: seq<int>) { forall i, j :: 0 <= i < j < |s| ==> s[i] < s[j] }

  function Insert(v: int, s: seq<int>): (r: seq<int>)
    requires Sorted(s)
    ensures Sorted(r) && forall x :: x in r <==> x == v || x in s
  {
    if s == [] || v <= s[0] then [v] + s
    else
      var t := Insert(v, s[1..]);
      PrependSorted(s[0], t);
      [s[0]] + t
  }

  lemma PrependSorted(a: int, t: seq<int>)
    requires Sorted(t) && forall x :: x in t ==> a <= x
    ensures Sorted([a] + t)
  {
    assert forall i :: 0 <= i < |t| ==> t[i] in t;
  }

  lemma AppendAscending(r: seq<int>, x: int)
    requires Ascending(r) && forall y :: y in r ==> y < x
    ensures Ascending(r + [x])
  {
    assert forall i :: 0 <= i < |r| ==> r[i] in r;
  }

  function Sort(s: seq<int>): (r: seq<int>)
    ensures Sorted(r) && forall x :: x in r <==> x in s
  {
    if s == [] then [] else Insert(s[0], Sort(s[1..]))
  }

  /** Drop repeats of the element before. */
  function Unique(s: seq<int>): (r: seq<int>)
  {
    if s == [] then []
    else
      var r := Unique(s[..|s| - 1]);
      if r != [] && r[|r| - 1] == s[|s| - 1] then r else r + [s[|s| - 1]]
  }

  predicate Usable(base: nat, v: int) { v > 0 && v > base }

  function Keep(base: nat, s: seq<int>): (r: seq<nat>)
  {
    if s == [] then []
    else Keep(base, s[..|s| - 1]) + if Usable(base, s[|s| - 1]) then [s[|s| - 1]] else []
  }

  function Rungs(base: nat, raw: seq<int>): (r: seq<nat>) { Keep(base, Unique(Sort(raw))) }

  lemma {:induction false} UniqueAscends(s: seq<int>)
    requires Sorted(s)
    ensures Ascending(Unique(s)) && (forall x :: x in Unique(s) <==> x in s)
    ensures s != [] ==> Unique(s) != [] && Unique(s)[|Unique(s)| - 1] == s[|s| - 1]
  {
    if s != [] {
      var last := |s| - 1;
      var t := s[..last];
      UniqueAscends(t);
      assert s == t + [s[last]];
      forall y | y in Unique(t)
        ensures y <= s[last]
      {
        assert y in t;
      }
      UniqueStep(Unique(t), s[last]);
    }
  }

  lemma UniqueStep(r: seq<int>, x: int)
    requires Ascending(r) && forall y :: y in r ==> y <= x
    ensures r == [] || r[|r| - 1] != x ==> Ascending(r + [x])
    ensures r != [] && r[|r| - 1] == x ==> x in r
  {
    if r == [] || r[|r| - 1] != x {
      forall y | y in r
        ensures y < x
      {
        var i :| 0 <= i < |r| && r[i] == y;
        assert r[|r| - 1] in r;
      }
      AppendAscending(r, x);
    }
  }

  lemma {:induction false} KeepAscends(base: nat, s: seq<int>)
    requires Ascending(s)
    ensures Ascending(Keep(base, s)) && forall x :: x in Keep(base, s) <==> x in s && Usable(base, x)
  {
    if s != [] {
      var last := |s| - 1;
      KeepAscends(base, s[..last]);
      assert s == s[..last] + [s[last]];
      AppendAscending(Keep(base, s[..last]), s[last]);
    }
  }

  /** The rungs are the configured sizes above the base, each once, in ascending order. */
  lemma RungsExact(base: nat, raw: seq<int>)
    ensures Ascending(Rungs(base, raw)) && forall x :: x in Rungs(base, raw) <==> x in raw && Usable(base, x)
  {
    UniqueAscends(Sort(raw));
    KeepAscends(base, Unique(Sort(raw)));
  }

  // ---- The search ----

  function Start(base: nat, raw: seq<int>): (p: Probe)
  {
    var steps := Rungs(base, raw);
    if steps == [] then Probe(base, steps, 0, 0, 0, 0, base, 0, SearchComplete)
    else Probe(base, steps, 0, 0, 0, steps[0], base, 0, Searching)
  }

  /** Stop when the window is narrow, otherwise probe its middle. */
  function Bisect(p: Probe): (r: Probe)
  {
    if p.high - p.low <= GRANULARITY then p.(state := SearchComplete, current := 0)
    else p.(current := (p.low + p.high) / 2, state := Searching)
  }

  function Climb(p: Probe): (r: Probe)
  {
    if p.ladder + 1 >= |p.steps| then p.(state := SearchComplete, current := 0)
    else p.(ladder := p.ladder + 1, current := p.steps[p.ladder + 1], state := Searching)
  }

  function Ack(p: Probe): (r: Probe)
  {
    if p.state == SearchComplete then p
    else
      var q := p.(effective := p.current, losses := 0);
      if q.high != 0 then Bisect(q.(low := q.current)) else Climb(q)
  }

  function Loss(p: Probe): (r: Probe)
  {
    if p.state == SearchComplete then p
    else if p.losses + 1 < LOSS_THRESHOLD then p.(losses := p.losses + 1)
    else Bisect(p.(losses := 0, state := Error, high := p.current, low := p.effective))
  }

  function After(p: Probe, acked: bool): (r: Probe) { if acked then Ack(p) else Loss(p) }

  /** The state after a history of acknowledged and lost probes. */
  function Run(base: nat, raw: seq<int>, es: seq<bool>): (p: Probe)
  {
    if es == [] then Start(base, raw) else After(Run(base, raw, es[..|es| - 1]), es[|es| - 1])
  }

  predicate Climbing(p: Probe) {
    && p.high == 0 && p.ladder < |p.steps| && p.current == p.steps[p.ladder]
    && p.effective == (if p.ladder == 0 then p.base else p.steps[p.ladder - 1])
  }

  predicate Bisecting(p: Probe) {
    && p.steps != [] && p.low == p.effective && p.current == (p.low + p.high) / 2 && p.high - p.low > GRANULARITY
    && p.high <= p.steps[|p.steps| - 1]
  }

  predicate Finished(p: Probe) {
    || (p.steps == [] && p.effective == p.base && p.high == 0)
    || (p.steps != [] && p.high == 0 && p.effective == p.steps[|p.steps| - 1])
    || (p.high > p.effective && p.high - p.effective <= GRANULARITY)
  }

  predicate Ok(p: Probe) {
    && Ascending(p.steps) && (forall i :: 0 <= i < |p.steps| ==> p.steps[i] > p.base)
    && p.effective >= p.base && p.losses < LOSS_THRESHOLD
    && if p.state == SearchComplete then Finished(p) else Climbing(p) || Bisecting(p)
  }

  lemma AckOk(p: Probe)
    requires Ok(p)
    ensures Ok(Ack(p)) && Ack(p).effective >= p.effective
    ensures Ack(p).steps == p.steps && Ack(p).base == p.base
  {
  }

  lemma LossOk(p: Probe)
    requires Ok(p)
    ensures Ok(Loss(p)) && Loss(p).effective >= p.effective
    ensures Loss(p).steps == p.steps && Loss(p).base == p.base
  {
  }

  lemma StepOk(p: Probe, acked: bool)
    requires Ok(p)
    ensures Ok(After(p, acked)) && After(p, acked).effective >= p.effective
    ensures After(p, acked).steps == p.steps && After(p, acked).base == p.base
  {
    AckOk(p);
    LossOk(p);
  }

  lemma {:induction false} RunOk(base: nat, raw: seq<int>, es: seq<bool>)
    ensures Ok(Run(base, raw, es))
    ensures Run(base, raw, es).steps == Rungs(base, raw) && Run(base, raw, es).base == base
  {
    if es == [] {
      RungsExact(base, raw);
      var r := Rungs(base, raw);
      assert forall i :: 0 <= i < |r| ==> r[i] in r;
    } else {
      RunOk(base, raw, es[..|es| - 1]);
      StepOk(Run(base, raw, es[..|es| - 1]), es[|es| - 1]);
    }
  }

  /** The confirmed size never drops. */
  lemma {:induction false} EffectiveNeverDrops(base: nat, raw: seq<int>, es: seq<bool>, n: nat)
    requires n <= |es|
    ensures Run(base, raw, es[..n]).effective <= Run(base, raw, es).effective
    decreases |es| - n
  {
    if n == |es| {
      assert es[..n] == es;
    } else {
      RunOk(base, raw, es[..n]);
      StepOk(Run(base, raw, es[..n]), es[n]);
      assert es[..n + 1][..n] == es[..n];
      EffectiveNeverDrops(base, raw, es, n + 1);
    }
  }

  // ---- Sizes declared bad ----

  /** The sizes lost twice in a row, in the order they were given up. */
  function Bad(base: nat, raw: seq<int>, es: seq<bool>): (r: seq<nat>)
  {
    if es == [] then []
    else
      var p := Run(base, raw, es[..|es| - 1]);
      Bad(base, raw, es[..|es| - 1])
      + if p.state != SearchComplete && !es[|es| - 1] && p.losses + 1 >= LOSS_THRESHOLD then [p.current] else []
  }

  lemma {:induction false} BadAboveWindow(base: nat, raw: seq<int>, es: seq<bool>)
    ensures var p := Run(base, raw, es);
            && (p.high == 0 ==> Bad(base, raw, es) == [])
            && forall b :: b in Bad(base, raw, es) ==> p.high <= b
  {
    if es != [] {
      var last := |es| - 1;
      BadAboveWindow(base, raw, es[..last]);
      RunOk(base, raw, es[..last]);
    }
  }

  /** Every probe is above what is confirmed and below every size declared bad. */
  lemma ProbesBelowBad(base: nat, raw: seq<int>, es: seq<bool>, b: nat)
    requires Run(base, raw, es).state != SearchComplete
    ensures Run(base, raw, es).current > Run(base, raw, es).effective
    ensures b in Bad(base, raw, es) ==> Run(base, raw, es).current < b
  {
    BadAboveWindow(base, raw, es);
    RunOk(base, raw, es);
  }

  // ---- A path that carries exactly the sizes up to m ----

  /** Every probe up to m is acknowledged and every larger one is lost. */
  ghost predicate Carries(base: nat, raw: seq<int>, es: seq<bool>, m: nat) {
    forall k :: 0 <= k < |es| ==>
                  var p := Run(base, raw, es[..k]);
                  p.state != SearchComplete ==> (es[k] <==> p.current <= m)
  }

  lemma CarriesPrefix(base: nat, raw: seq<int>, es: seq<bool>, m: nat, n: nat)
    requires Carries(base, raw, es, m) && n <= |es|
    ensures Carries(base, raw, es[..n], m)
  {
    forall k | 0 <= k < n
      ensures var p := Run(base, raw, es[..n][..k]); p.state != SearchComplete ==> (es[..n][k] <==> p.current <= m)
    {
      assert es[..n][..k] == es[..k];
    }
  }

  lemma {:induction false} NeverAbovePath(base: nat, raw: seq<int>, es: seq<bool>, m: nat)
    requires base <= m && Carries(base, raw, es, m)
    ensures var p := Run(base, raw, es);
            && p.effective <= m && (p.high == 0 || m < p.high)
            && (p.losses > 0 && p.state != SearchComplete ==> p.current > m)
  {
    if es != [] {
      var last := |es| - 1;
      CarriesPrefix(base, raw, es, m, last);
      NeverAbovePath(base, raw, es[..last], m);
      RunOk(base, raw, es[..last]);
      var p := Run(base, raw, es[..last]);
      assert p.state != SearchComplete ==> (es[last] <==> p.current <= m);
    }
  }

  /**
   * Against such a path a finished search never claims more than the path carries, and falls short of it by less than
   * the granularity unless it ran out of ladder.
   */
  lemma SearchIsExact(base: nat, raw: seq<int>, es: seq<bool>, m: nat)
    requires base <= m && Carries(base, raw, es, m) && Run(base, raw, es).state == SearchComplete
    ensures var e, rungs := Run(base, raw, es).effective, Rungs(base, raw);
            && e <= m
            && (m - e < GRANULARITY || (rungs == [] && e == base) || (rungs != [] && e == rungs[|rungs| - 1]))
  {
    NeverAbovePath(base, raw, es, m);
    RunOk(base, raw, es);
  }

  // ---- Termination ----

  /** Bisection probes a window of width w can still take. */
  function Halvings(w: nat): (n: nat)
  {
    if w <= GRANULARITY then 0 else 1 + Halvings((w + 1) / 2)
  }

  function CeilLog2(w: nat): (n: nat)
    decreases w
  {
    if w <= 1 then 0 else 1 + CeilLog2((w + 1) / 2)
  }

  lemma {:induction false} CeilLog2Exact(w: nat)
    requires w >= 1
    ensures w <= Pow2(CeilLog2(w)) && (w > 1 ==> Pow2(CeilLog2(w) - 1) < w)
    decreases w
  {
    if w > 1 {
      CeilLog2Exact((w + 1) / 2);
      var n := CeilLog2(w);
      assert Pow2(n) == 2 * Pow2(n - 1);
      if n >= 2 {
        assert Pow2(n - 1) == 2 * Pow2(n - 2);
      }
    }
  }

  lemma {:induction false} HalvingsBelowLog(w: nat)
    ensures Halvings(w) <= CeilLog2(w)
  {
    if w > GRANULARITY {
      HalvingsBelowLog((w + 1) / 2);
    }
  }

  lemma {:induction false} HalvingsMonotone(v: nat, w: nat)
    requires v <= w
    ensures Halvings(v) <= Halvings(w)
    decreases w
  {
    if v > GRANULARITY {
      HalvingsMonotone((v + 1) / 2, (w + 1) / 2);
    }
  }

  function Top(p: Probe): (r: nat) { if p.steps == [] then p.base else p.steps[|p.steps| - 1] }

  /** Events until completion, at most. */
  function Left(p: Probe): (n: int)
  {
    if p.state == SearchComplete then 0
    else if p.high == 0 then
      2 * (|p.steps| - p.ladder + Halvings(if Top(p) >= p.base then Top(p) - p.base else 0)) - p.losses
    else 2 * Halvings(if p.high >= p.low then p.high - p.low else 0) - p.losses
  }

  lemma AckLeft(p: Probe)
    requires Ok(p) && p.state != SearchComplete
    ensures 0 < Left(p) && Left(Ack(p)) < Left(p)
  {
    if p.high != 0 {
      HalvingsMonotone(p.high - p.current, (p.high - p.low + 1) / 2);
    }
  }

  lemma LossLeft(p: Probe)
    requires Ok(p) && p.state != SearchComplete
    ensures 0 < Left(p) && Left(Loss(p)) < Left(p)
  {
    if p.high != 0 {
      HalvingsMonotone(p.current - p.low, (p.high - p.low + 1) / 2);
    } else {
      HalvingsMonotone(p.current - p.effective, Top(p) - p.base);
    }
  }

  lemma {:induction false} LeftShrinks(base: nat, raw: seq<int>, es: seq<bool>)
    requires Run(base, raw, es).state != SearchComplete
    ensures Left(Run(base, raw, es)) + |es| <= Left(Start(base, raw)) && Start(base, raw).state != SearchComplete
  {
    if es != [] {
      var last := |es| - 1;
      RunOk(base, raw, es[..last]);
      LeftShrinks(base, raw, es[..last]);
      AckLeft(Run(base, raw, es[..last]));
      LossLeft(Run(base, raw, es[..last]));
    }
  }

  lemma StartLeft(base: nat, raw: seq<int>)
    requires Start(base, raw).state != SearchComplete
    ensures var rungs := Rungs(base, raw);
            && rungs != [] && rungs[|rungs| - 1] > base
            && Left(Start(base, raw)) == 2 * (|rungs| + Halvings(rungs[|rungs| - 1] - base))
  {
    RunOk(base, raw, []);
  }

  /** Whatever is acknowledged or lost, the search ends within twice the rungs plus the logarithm of their span. */
  lemma SearchEnds(base: nat, raw: seq<int>, es: seq<bool>)
    requires Run(base, raw, es).state != SearchComplete
    ensures var rungs := Rungs(base, raw);
            && rungs != [] && rungs[|rungs| - 1] > base
            && |es| < 2 * (|rungs| + CeilLog2(rungs[|rungs| - 1] - base))
  {
    LeftShrinks(base, raw, es);
    StartLeft(base, raw);
    HalvingsBelowLog(Rungs(base, raw)[|Rungs(base, raw)| - 1] - base);
    LeftPositive(base, raw, es);
  }

  lemma LeftPositive(base: nat, raw: seq<int>, es: seq<bool>)
    requires Run(base, raw, es).state != SearchComplete
    ensures Left(Run(base, raw, es)) > 0
  {
    RunOk(base, raw, es);
    AckLeft(Run(base, raw, es));
  }

  // ---- The object ----

  class PathMtuProbe {
    const base: nat
    const steps: seq<nat>
    var ladder: nat
    var low: nat
    var high: nat
    var current: nat
    var effective: nat
    var losses: nat
    var state: State

    ghost function View(): (p: Probe)
      reads this
    {
      Probe(base, steps, ladder, low, high, current, effective, losses, state)
    }

    constructor (base: nat, raw: seq<int>)
      ensures View() == Start(base, raw)
    {
      var rungs := PruneSteps(base, raw);
      this.base, steps := base, rungs;
      ladder, low, high, losses, effective := 0, 0, 0, 0, base;
      if rungs == [] {
        current, state := 0, SearchComplete;
      } else {
        current, state := rungs[0], Searching;
      }
    }

    static method PruneSteps(base: nat, raw: seq<int>) returns (rungs: seq<nat>)
      ensures rungs == Rungs(base, raw)
    {
      var sorted := Sort(raw);
      var unique: seq<int> := [];
      for i := 0 to |sorted|
        invariant unique == Unique(sorted[..i])
      {
        assert sorted[..i + 1][..i] == sorted[..i];
        if unique == [] || unique[|unique| - 1] != sorted[i] {
          unique := unique + [sorted[i]];
        }
      }
      assert sorted[..|sorted|] == sorted;
      rungs := [];
      for i := 0 to |unique|
        invariant rungs == Keep(base, unique[..i])
      {
        assert unique[..i + 1][..i] == unique[..i];
        if unique[i] > 0 && unique[i] > base {
          rungs := rungs + [unique[i]];
        }
      }
      assert unique[..|unique|] == unique;
    }

    method NextProbeSize() returns (size: Option<nat>)
      ensures size.Some? <==> state != SearchComplete && current != 0
      ensures size.Some? ==> size.value == current
      ensures Ok(View()) && state != SearchComplete ==> size.Some? && size.value > effective
    {
      if state == SearchComplete || current == 0 {
        return None;
      }
      return Some(current);
    }

    method OnProbeAck()
      modifies this
      ensures View() == Ack(old(View()))
    {
      if state == SearchComplete {
        return;
      }
      effective := current;
      losses := 0;
      if high != 0 {
        low := current;
        Narrow();
        return;
      }
      if ladder + 1 >= |steps| {
        state, current := SearchComplete, 0;
        return;
      }
      ladder := ladder + 1;
      current := steps[ladder];
      state := Searching;
    }

    method OnProbeLoss()
      modifies this
      ensures View() == Loss(old(View()))
    {
      if state == SearchComplete {
        return;
      }
      losses := losses + 1;
      if losses < LOSS_THRESHOLD {
        return;
      }
      losses := 0;
      state := Error;
      high := current;
      low := effective;
      Narrow();
    }

    method Narrow()
      modifies `state, `current
      ensures View() == Bisect(old(View()))
    {
      if high - low <= GRANULARITY {
        state, current := SearchComplete, 0;
        return;
      }
      current := (low + high) / 2;
      state := Searching;
    }
  }
}
