/** What happens to a checking session when nothing arrives: it ends, and every unanswered pair fails on schedule. */
module Silence {
  import opened Bytes
  import opened Sequences
  import opened Candidates
  import opened CheckList
  import opened CheckListLaws
  import opened Session
  import opened SessionLaws

  // ---- Failure is declared only on an exhausted list ----

  /** A tick that gives up leaves no frozen, waiting or in-progress pair anywhere in the list. */
  lemma FailureMeansExhausted(cfg: Config, s: Session, now: nat)
    requires s.phase == Checking && RunNextCheck(cfg, s, now).phase == Phase.Failed
    ensures !AnyPending(RunNextCheck(cfg, s, now).checks.pairs)
  {
    PromoteIdle(cfg, Walked(cfg, s.checks, now), now);
  }

  lemma PromoteIdle(cfg: Config, c: Checks, now: nat)
    requires !AnyPending(c.pairs)
    ensures Promote(cfg, c, now) == c
  {
    var inv := (d: Checks) => d == c;
    SweepKeeps(c, 0, |c.pairs|, PromoteStep(cfg, now), inv);
  }

  /**
   * A wait timer fails a session exactly when it is current and the session is not connected; the list is not asked.
   */
  lemma WaitTimerFails(s: Session, gen: nat)
    requires s.phase != Phase.Failed
    ensures FireWait(s, gen).phase == Phase.Failed <==> gen == s.timers.waitGen && s.phase != Connected
    ensures FireWait(s, gen).checks == s.checks
  {
  }

  /** So a timer that fails a checking session leaves pending pairs exactly if it is a wait timer and there are some. */
  lemma FailurePending(cfg: Config, tieBreaker: u64, s: Session, e: Event, ch: Choices, now: nat)
    requires s.phase == Checking && (e.CheckTimer? || e.WaitTimer?)
    requires Step(cfg, tieBreaker, s, e, ch, now).phase == Phase.Failed
    ensures AnyPending(Step(cfg, tieBreaker, s, e, ch, now).checks.pairs) <==>
            e.WaitTimer? && AnyPending(s.checks.pairs)
  {
    if e.CheckTimer? {
      FailureMeansExhausted(cfg, s.(timers := s.timers.(checks := s.timers.checks - {e.gen})), now);
    } else {
      WaitTimerFails(s, e.gen);
    }
  }

  lemma PromoteAtPending(cfg: Config, c: Checks, k: nat, i: nat, now: nat)
    requires ListOk(cfg, c) && k < |c.pairs| && i < |c.pairs| && IsPending(c.pairs[i])
    ensures IsPending(PromoteAt(cfg, c, k, now).pairs[i])
  {
    assert PairOk(cfg, c.pairs[k]);
    if c.pairs[k].state.Waiting? && !AtCap(c.pairs) {
      StartEffect(cfg, c, k, now);
    }
  }

  lemma PromoteKeepsPending(cfg: Config, c: Checks, now: nat)
    requires ListOk(cfg, c) && AnyPending(c.pairs)
    ensures AnyPending(Promote(cfg, c, now).pairs)
  {
    var i :| 0 <= i < |c.pairs| && IsPending(c.pairs[i]);
    var step, n := PromoteStep(cfg, now), |c.pairs|;
    var inv := (d: Checks) => |d.pairs| == n && ListOk(cfg, d) && IsPending(d.pairs[i]);
    forall d: Checks, k: nat | inv(d) && k < n
      ensures inv(step(d, k))
    {
      PromoteAtOk(cfg, d, k, now);
      PromoteAtPending(cfg, d, k, i, now);
    }
    SweepKeeps(c, 0, n, step, inv);
  }

  /** The first tick on a built list that is not empty finds pending pairs and leaves some. */
  lemma BuiltListPends(cfg: Config, from: Sides, ps: seq<CheckPair>, now: nat)
    requires IsBuilt(cfg, from, ps) && ps != []
    ensures var walked := Walked(cfg, Checks(ps, 0), now);
            AnyPending(walked.pairs) && AnyPending(Promote(cfg, walked, now).pairs)
  {
    var c := Checks(ps, 0);
    BuiltOk(cfg, from, ps);
    WalkedKept(cfg, c, now);
    var inv := (d: Checks) => d == c;
    forall k | 0 <= k < |ps|
      ensures !ps[k].state.InProgress? && IsPending(ps[k])
    {
      assert InitialState(ps, k);
    }
    SweepKeeps(c, 0, |ps|, RetransmitStep(cfg, now), inv);
    PromoteKeepsPending(cfg, c, now);
  }

  /**
   * That happens: a rebuild that yields any pair leaves an armed wait timer current, and its firing fails the session
   * over pairs still pending.
   */
  lemma WaitSurvivesRebuild(cfg: Config, s: Session, b: Builder, now: nat)
    requires s.phase == Checking && s.timers.waitArmed && s.timers.waitGen in s.timers.waits
    requires Builds(cfg, b) && b(SidesOf(cfg, s)) != []
    ensures var r, gen := RebuildAndRun(cfg, s, b, now), s.timers.waitGen;
            && r.phase == Checking && gen in r.timers.waits
            && FireWait(r, gen).phase == Phase.Failed && AnyPending(FireWait(r, gen).checks.pairs)
  {
    var from := SidesOf(cfg, s);
    assert Outcome(cfg, b, from);
    BuiltListPends(cfg, from, b(from), now);
  }

  // ---- One tick, seen from one pair ----

  /** What a tick does to an in-progress pair. */
  function PairTick(cfg: Config, p: CheckPair, now: nat): (r: CheckPair)
  {
    if !p.state.InProgress? || Resting(cfg, p, now) then p
    else if p.retries >= cfg.maxRetries then p.(state := PairState.Failed)
    else p.(retries := p.retries + 1, sentAt := now)
  }

  predicate Settled(p: CheckPair) { !p.state.Frozen? && !p.state.Waiting? }

  lemma RetransmitAtOther(cfg: Config, c: Checks, k: nat, i: nat, now: nat)
    requires k < |c.pairs| && i < |c.pairs| && i != k && Settled(c.pairs[i])
    ensures RetransmitAt(cfg, c, k, now).pairs[i] == c.pairs[i]
  {
  }

  lemma RetransmitAtSelf(cfg: Config, c: Checks, i: nat, now: nat)
    requires i < |c.pairs|
    ensures c.pairs[i].state.InProgress? ==> RetransmitAt(cfg, c, i, now).pairs[i] == PairTick(cfg, c.pairs[i], now)
  {
  }

  /** A stretch of the walk that does not meet pair i leaves it alone. */
  lemma RetransmitSkips(cfg: Config, c: Checks, from: nat, to: nat, i: nat, now: nat)
    requires i < |c.pairs| && Settled(c.pairs[i]) && to <= |c.pairs| && !(from <= i < to)
    ensures |Sweep(c, from, to, RetransmitStep(cfg, now)).pairs| == |c.pairs|
    ensures Sweep(c, from, to, RetransmitStep(cfg, now)).pairs[i] == c.pairs[i]
  {
    var step, inv := RetransmitStep(cfg, now), (d: Checks) => |d.pairs| == |c.pairs| && d.pairs[i] == c.pairs[i];
    forall d: Checks, k: nat | inv(d) && from <= k < to
      ensures inv(step(d, k))
    {
      RetransmitAtOther(cfg, d, k, i, now);
    }
    SweepKeeps(c, from, to, step, inv);
  }

  lemma RetransmitPair(cfg: Config, c: Checks, i: nat, now: nat)
    requires i < |c.pairs| && c.pairs[i].state.InProgress?
    ensures i < |Retransmit(cfg, c, now).pairs|
    ensures Retransmit(cfg, c, now).pairs[i] == PairTick(cfg, c.pairs[i], now)
  {
    var step, n := RetransmitStep(cfg, now), |c.pairs|;
    var before := Sweep(c, 0, i, step);
    RetransmitSkips(cfg, c, 0, i, i, now);
    var after := step(before, i);
    RetransmitAtSelf(cfg, before, i, now);
    RetransmitSkips(cfg, after, i + 1, n, i, now);
    SweepSplit(c, 0, i, n, step);
  }

  lemma PromotePair(cfg: Config, c: Checks, i: nat, now: nat)
    requires i < |c.pairs| && Settled(c.pairs[i])
    ensures i < |Promote(cfg, c, now).pairs| && Promote(cfg, c, now).pairs[i] == c.pairs[i]
  {
    var step, inv := PromoteStep(cfg, now), (d: Checks) => |d.pairs| == |c.pairs| && d.pairs[i] == c.pairs[i];
    SweepKeeps(c, 0, |c.pairs|, step, inv);
  }

  lemma TickPair(cfg: Config, c: Checks, i: nat, now: nat)
    requires ListOk(cfg, c) && i < |c.pairs| && c.pairs[i].state.InProgress?
    ensures i < |Promote(cfg, Walked(cfg, c, now), now).pairs|
    ensures Promote(cfg, Walked(cfg, c, now), now).pairs[i] == PairTick(cfg, c.pairs[i], now)
    ensures i < |Walked(cfg, c, now).pairs| && Walked(cfg, c, now).pairs[i] == PairTick(cfg, c.pairs[i], now)
  {
    WalkedKept(cfg, c, now);
    RetransmitPair(cfg, c, i, now);
    PromotePair(cfg, Walked(cfg, c, now), i, now);
  }

  // ---- The work left in a list ----

  /** Microseconds of patience left at time t. */
  function Rest(cfg: Config, p: CheckPair, t: nat): (r: nat)
  {
    if p.sentAt == 0 || p.sentAt + Patience(cfg, p.retries) <= t then 0 else p.sentAt + Patience(cfg, p.retries) - t
  }

  /** Sends and waits still ahead of a pair sent this often. */
  function Tail(cfg: Config, retries: nat): (r: nat)
    decreases cfg.maxRetries - retries
  {
    if retries >= cfg.maxRetries then 1 else 1 + Patience(cfg, retries + 1) + Tail(cfg, retries + 1)
  }

  function PairWork(cfg: Config, p: CheckPair, t: nat): (r: nat)
  {
    match p.state
    case Frozen => Tail(cfg, 0) + 1
    case Waiting => Tail(cfg, 0)
    case InProgress => Rest(cfg, p, t) + Tail(cfg, p.retries)
    case _ => 0
  }

  function WorkAt(cfg: Config, t: nat): CheckPair -> nat { (p: CheckPair) => PairWork(cfg, p, t) }

  function Work(cfg: Config, c: Checks, t: nat): (r: nat)
  {
    Sum(c.pairs, WorkAt(cfg, t))
  }

  /** Thawing siblings never adds work. */
  lemma CompleteWork(cfg: Config, ps: seq<CheckPair>, i: nat, p: CheckPair, t: nat)
    requires i < |ps| && PairWork(cfg, p, t) == 0
    ensures Sum(Complete(ps, i, p), WorkAt(cfg, t)) <= Sum(ps, WorkAt(cfg, t)) - PairWork(cfg, ps[i], t)
  {
    var f := WorkAt(cfg, t);
    SumUpdate(ps, i, p, f);
    SumPointwise(Complete(ps, i, p), ps[i := p], f, f);
  }

  /** Acting on an in-progress pair whose patience is over removes work. */
  lemma RetransmitAtWork(cfg: Config, c: Checks, i: nat, now: nat)
    requires i < |c.pairs| && now > 0
    ensures Work(cfg, RetransmitAt(cfg, c, i, now), now) <= Work(cfg, c, now)
    ensures c.pairs[i].state.InProgress? && !Resting(cfg, c.pairs[i], now) ==>
              Work(cfg, RetransmitAt(cfg, c, i, now), now) < Work(cfg, c, now)
  {
    var p := c.pairs[i];
    if p.state.InProgress? && !Resting(cfg, p, now) {
      if p.retries >= cfg.maxRetries {
        CompleteWork(cfg, c.pairs, i, p.(state := PairState.Failed), now);
      } else {
        SumUpdate(c.pairs, i, p.(retries := p.retries + 1, sentAt := now), WorkAt(cfg, now));
      }
    }
  }

  lemma RetransmitWork(cfg: Config, c: Checks, from: nat, to: nat, now: nat)
    requires to <= |c.pairs| && now > 0
    ensures Work(cfg, Sweep(c, from, to, RetransmitStep(cfg, now)), now) <= Work(cfg, c, now)
  {
    var step, bound := RetransmitStep(cfg, now), Work(cfg, c, now);
    var inv := (d: Checks) => |d.pairs| == |c.pairs| && Work(cfg, d, now) <= bound;
    forall d: Checks, k: nat | inv(d) && from <= k < to
      ensures inv(step(d, k))
    {
      RetransmitAtWork(cfg, d, k, now);
    }
    SweepKeeps(c, from, to, step, inv);
  }

  /** If the walk acts on pair i, work goes down. */
  lemma RetransmitActs(cfg: Config, c: Checks, i: nat, now: nat)
    requires i < |c.pairs| && c.pairs[i].state.InProgress? && !Resting(cfg, c.pairs[i], now) && now > 0
    ensures Work(cfg, Retransmit(cfg, c, now), now) < Work(cfg, c, now)
  {
    var step, n := RetransmitStep(cfg, now), |c.pairs|;
    var before := Sweep(c, 0, i, step);
    RetransmitSkips(cfg, c, 0, i, i, now);
    RetransmitWork(cfg, c, 0, i, now);
    RetransmitAtWork(cfg, before, i, now);
    RetransmitWork(cfg, step(before, i), i + 1, n, now);
    SweepSplit(c, 0, i, n, step);
  }

  lemma StartWork(cfg: Config, c: Checks, i: nat, now: nat)
    requires i < |c.pairs| && c.pairs[i].state.Waiting? && c.pairs[i].retries == 0 && now > 0
    ensures Work(cfg, Start(cfg, c, i, now), now) < Work(cfg, c, now)
  {
    var q := c.pairs[i].(state := InProgress, retries := 1, sentAt := now);
    StartEffect(cfg, c, i, now);
    SumUpdate(c.pairs, i, q, WorkAt(cfg, now));
  }

  lemma PromoteAtWork(cfg: Config, c: Checks, i: nat, now: nat)
    requires ListOk(cfg, c) && i < |c.pairs| && now > 0
    ensures Work(cfg, PromoteAt(cfg, c, i, now), now) <= Work(cfg, c, now)
    ensures c.pairs[i].state.Waiting? && !AtCap(c.pairs) ==>
              Work(cfg, PromoteAt(cfg, c, i, now), now) < Work(cfg, c, now)
  {
    assert PairOk(cfg, c.pairs[i]);
    if c.pairs[i].state.Waiting? && !AtCap(c.pairs) {
      StartWork(cfg, c, i, now);
    }
  }

  lemma PromoteWork(cfg: Config, c: Checks, from: nat, to: nat, now: nat)
    requires ListOk(cfg, c) && to <= |c.pairs| && now > 0
    ensures Work(cfg, Sweep(c, from, to, PromoteStep(cfg, now)), now) <= Work(cfg, c, now)
  {
    var step, bound := PromoteStep(cfg, now), Work(cfg, c, now);
    var inv := (d: Checks) => |d.pairs| == |c.pairs| && ListOk(cfg, d) && Work(cfg, d, now) <= bound;
    forall d: Checks, k: nat | inv(d) && from <= k < to
      ensures inv(step(d, k))
    {
      PromoteAtOk(cfg, d, k, now);
      PromoteAtWork(cfg, d, k, now);
    }
    SweepKeeps(c, from, to, step, inv);
  }

  /** With nothing in flight, promotion starts the first waiting pair. */
  lemma PromoteActs(cfg: Config, c: Checks, i: nat, now: nat)
    requires ListOk(cfg, c) && i < |c.pairs| && c.pairs[i].state.Waiting? && now > 0
    requires forall k :: 0 <= k < |c.pairs| ==> !c.pairs[k].state.InProgress?
    requires forall k :: 0 <= k < i ==> !c.pairs[k].state.Waiting?
    ensures Work(cfg, Promote(cfg, c, now), now) < Work(cfg, c, now)
  {
    var step, n := PromoteStep(cfg, now), |c.pairs|;
    var inv := (d: Checks) => d == c;
    SweepKeeps(c, 0, i, step, inv);
    NoneInFlight(c.pairs);
    PromoteAtOk(cfg, c, i, now);
    PromoteAtWork(cfg, c, i, now);
    PromoteWork(cfg, step(c, i), i + 1, n, now);
    SweepSplit(c, 0, i, n, step);
  }

  lemma {:induction false} NoneInFlight(ps: seq<CheckPair>)
    requires forall k :: 0 <= k < |ps| ==> !ps[k].state.InProgress?
    ensures Count(ps, IsInFlight) == 0
  {
    if ps != [] {
      NoneInFlight(ps[..|ps| - 1]);
    }
  }

  lemma {:induction false} FirstWaiting(ps: seq<CheckPair>, i: nat) returns (j: nat)
    requires i < |ps| && ps[i].state.Waiting?
    ensures j < |ps| && ps[j].state.Waiting? && forall k :: 0 <= k < j ==> !ps[k].state.Waiting?
  {
    if k :| 0 <= k < i && ps[k].state.Waiting? {
      j := FirstWaiting(ps, k);
    } else {
      j := i;
    }
  }

  /** Time passing alone removes work while a pair rests. */
  lemma TimeWork(cfg: Config, c: Checks, t: nat, now: nat)
    requires t <= now
    ensures Work(cfg, c, now) <= Work(cfg, c, t)
  {
    SumPointwise(c.pairs, c.pairs, WorkAt(cfg, now), WorkAt(cfg, t));
  }

  lemma {:induction false} SumStrict(ps: seq<CheckPair>, f: CheckPair -> nat, g: CheckPair -> nat, i: nat)
    requires i < |ps| && f(ps[i]) < g(ps[i]) && forall k :: 0 <= k < |ps| ==> f(ps[k]) <= g(ps[k])
    ensures Sum(ps, f) < Sum(ps, g)
  {
    var rest := ps[..|ps| - 1];
    if i == |ps| - 1 {
      SumPointwise(rest, rest, f, g);
    } else {
      SumStrict(rest, f, g, i);
    }
  }

  lemma RestingWork(cfg: Config, c: Checks, i: nat, t: nat, now: nat)
    requires t < now && i < |c.pairs| && c.pairs[i].state.InProgress? && Resting(cfg, c.pairs[i], now)
    ensures Work(cfg, c, now) < Work(cfg, c, t)
  {
    SumStrict(c.pairs, WorkAt(cfg, now), WorkAt(cfg, t), i);
  }

  /** Every tick on a list with a pending pair removes work. */
  lemma TickWork(cfg: Config, c: Checks, t: nat, now: nat)
    requires ListOk(cfg, c) && t < now && AnyPending(c.pairs)
    ensures Work(cfg, Promote(cfg, Walked(cfg, c, now), now), now) < Work(cfg, c, t)
  {
    WalkedKept(cfg, c, now);
    var walked := Walked(cfg, c, now);
    TimeWork(cfg, c, t, now);
    RetransmitWork(cfg, c, 0, |c.pairs|, now);
    PromoteWork(cfg, walked, 0, |walked.pairs|, now);
    if i :| 0 <= i < |c.pairs| && c.pairs[i].state.InProgress? {
      if Resting(cfg, c.pairs[i], now) {
        RestingWork(cfg, c, i, t, now);
      } else {
        RetransmitActs(cfg, c, i, now);
      }
    } else {
      WaitingActs(cfg, c, now);
    }
  }

  lemma WaitingActs(cfg: Config, c: Checks, now: nat)
    requires ListOk(cfg, c) && now > 0 && AnyPending(c.pairs)
    requires forall k :: 0 <= k < |c.pairs| ==> !c.pairs[k].state.InProgress?
    ensures Work(cfg, Promote(cfg, Walked(cfg, c, now), now), now) < Work(cfg, c, now)
  {
    WalkedKept(cfg, c, now);
    var inv := (d: Checks) => d == c;
    SweepKeeps(c, 0, |c.pairs|, RetransmitStep(cfg, now), inv);
    var i :| 0 <= i < |c.pairs| && IsPending(c.pairs[i]);
    assert HasRepresentative(c.pairs, i);
    var j :| 0 <= j < |c.pairs| && c.pairs[j].state.Waiting?;
    j := FirstWaiting(c.pairs, j);
    PromoteActs(cfg, c, j, now);
  }

  // ---- Silence ends checking ----

  lemma TcpTimeoutWork(cfg: Config, c: Checks, e: Endpoint, t: nat)
    ensures Work(cfg, TcpTimeout(c, e), t) <= Work(cfg, c, t)
  {
    var step, bound := TcpTimeoutStep(e), Work(cfg, c, t);
    var inv := (d: Checks) => Work(cfg, d, t) <= bound;
    forall d: Checks, k: nat | inv(d) && k < |c.pairs|
      ensures inv(step(d, k))
    {
      if k < |d.pairs| {
        CompleteWork(cfg, d.pairs, k, d.pairs[k].(state := PairState.Failed), t);
      }
    }
    SweepKeeps(c, 0, |c.pairs|, step, inv);
  }

  /** The firing of a check or wait timer that is still to fire. */
  predicate IsFiring(s: Session, e: Event) {
    (e.CheckTimer? && e.gen in s.timers.checks) || (e.WaitTimer? && e.gen in s.timers.waits)
  }

  /** What happens with no inbound traffic: timers fire, those of the list at strictly increasing times. */
  ghost predicate SilentStep(cfg: Config, s: Session, t: nat, e: Event, now: nat, s': Session) {
    && t <= now
    && ((IsFiring(s, e) && t < now) || e.KeepaliveTimer? || e.TcpConnectTimeout?)
    && exists ch: Choices :: s' == Step(cfg, 0, s, e, ch, now)
  }

  /** How many check and wait timers fire. */
  function Firings(events: seq<Event>): (n: nat)
  {
    if events == [] then 0
    else (if events[0].CheckTimer? || events[0].WaitTimer? then 1 else 0) + Firings(events[1..])
  }

  function Measure(cfg: Config, s: Session, t: nat): (r: nat)
  {
    Work(cfg, s.checks, t) + 2 * |s.timers.checks| + |s.timers.waits|
  }

  lemma DeadTimer(cfg: Config, s: Session, t: nat, now: nat, u: Session)
    requires t < now && u.checks == s.checks
    requires (exists g :: g in s.timers.checks && u.timers == s.timers.(checks := s.timers.checks - {g}))
             || (exists g :: g in s.timers.waits && u.timers == s.timers.(waits := s.timers.waits - {g}))
    ensures Measure(cfg, u, now) < Measure(cfg, s, t)
  {
    TimeWork(cfg, s.checks, t, now);
  }

  lemma LiveTick(cfg: Config, s: Session, t: nat, now: nat)
    requires Full(cfg) && ListOk(cfg, s.checks) && s.phase == Checking
    requires t < now && s.timers.checkGen in s.timers.checks
    ensures var u := FireCheck(cfg, s, s.timers.checkGen, now);
            u.phase == Checking ==> Measure(cfg, u, now) < Measure(cfg, s, t)
  {
    var gen := s.timers.checkGen;
    var rest := s.timers.checks - {gen};
    assert |rest| == |s.timers.checks| - 1;
    var walked := Walked(cfg, s.checks, now);
    if AnyPending(walked.pairs) {
      WalkedPending(cfg, s.checks, now);
      TickWork(cfg, s.checks, t, now);
    } else {
      WalkedKept(cfg, s.checks, now);
      TimeWork(cfg, s.checks, t, now);
      RetransmitWork(cfg, s.checks, 0, |s.checks.pairs|, now);
      PromoteIdle(cfg, walked, now);
    }
  }

  /** A walk makes no pair pending that was not. */
  lemma WalkedPending(cfg: Config, c: Checks, now: nat)
    requires ListOk(cfg, c) && AnyPending(Walked(cfg, c, now).pairs)
    ensures AnyPending(c.pairs)
  {
    WalkedKept(cfg, c, now);
    if !AnyPending(c.pairs) {
      var inv := (d: Checks) => d == c;
      SweepKeeps(c, 0, |c.pairs|, RetransmitStep(cfg, now), inv);
    }
  }

  lemma FiringMeasure(cfg: Config, s: Session, t: nat, e: Event, now: nat, s': Session)
    requires Full(cfg) && ListOk(cfg, s.checks) && s.phase == Checking && s'.phase == Checking
    requires IsFiring(s, e) && SilentStep(cfg, s, t, e, now, s')
    ensures Measure(cfg, s', now) < Measure(cfg, s, t)
  {
    if e.CheckTimer? && e.gen == s.timers.checkGen {
      LiveTick(cfg, s, t, now);
    } else {
      DeadTimer(cfg, s, t, now, s');
    }
  }

  lemma OtherTimerMeasure(cfg: Config, s: Session, t: nat, e: Event, now: nat, s': Session)
    requires s.phase == Checking && !IsFiring(s, e) && SilentStep(cfg, s, t, e, now, s')
    ensures s' == if e.KeepaliveTimer? then s else s.(checks := TcpTimeout(s.checks, e.peer))
    ensures Measure(cfg, s', now) <= Measure(cfg, s, t)
  {
    TimeWork(cfg, s.checks, t, now);
    if e.TcpConnectTimeout? {
      TcpTimeoutWork(cfg, s.checks, e.peer, now);
    }
  }

  lemma SilentStepMeasure(cfg: Config, s: Session, t: nat, e: Event, now: nat, s': Session)
    requires Full(cfg) && ListOk(cfg, s.checks) && s.phase == Checking && s'.phase == Checking
    requires SilentStep(cfg, s, t, e, now, s')
    ensures Measure(cfg, s', now) + (if e.CheckTimer? || e.WaitTimer? then 1 else 0) <= Measure(cfg, s, t)
  {
    if IsFiring(s, e) {
      FiringMeasure(cfg, s, t, e, now, s');
    } else {
      OtherTimerMeasure(cfg, s, t, e, now, s');
    }
  }

  lemma SilentStepOk(cfg: Config, aim: Aim, s: Session, t: nat, e: Event, now: nat, s': Session)
    requires SessionOk(cfg, aim, s) && s.phase == Checking && SilentStep(cfg, s, t, e, now, s')
    ensures SessionOk(cfg, aim, s')
  {
    if e.CheckTimer? {
      FireCheckOk(cfg, aim, s, e.gen, now);
    } else if e.WaitTimer? {
      FireWaitOk(cfg, aim, s, e.gen);
    } else if e.TcpConnectTimeout? {
      TcpConnectTimeoutOk(cfg, aim, s, e.peer);
    }
  }

  /** A run of a checking session in which only timers fire. */
  ghost predicate SilentRun(cfg: Config, states: seq<Session>, events: seq<Event>, times: seq<nat>) {
    && |states| == |times| == |events| + 1
    && forall k :: 0 <= k < |events| ==>
         SilentStep(cfg, states[k], times[k], events[k], times[k + 1], states[k + 1])
  }

  /**
   * With no inbound traffic checking is left after a number of check and wait timer firings bounded by the work in the
   * list, however many keepalive and connect timers go off in between; and until then such a timer is there to fire.
   */
  lemma {:induction false} SilenceTerminates(cfg: Config, aim: Aim, states: seq<Session>, events: seq<Event>,
                                             times: seq<nat>)
    requires Full(cfg) && SilentRun(cfg, states, events, times) && SessionOk(cfg, aim, states[0])
    requires forall k :: 0 <= k < |states| ==> states[k].phase == Checking
    ensures Firings(events) <= Measure(cfg, states[0], times[0])
    ensures Live(states[|events|].timers)
    decreases |events|
  {
    if events != [] {
      var s, e, now := states[0], events[0], times[1];
      assert SilentStep(cfg, s, times[0], e, now, states[1]);
      SilentStepMeasure(cfg, s, times[0], e, now, states[1]);
      SilentStepOk(cfg, aim, s, times[0], e, now, states[1]);
      SilentTail(cfg, states, events, times);
      SilenceTerminates(cfg, aim, states[1..], events[1..], times[1..]);
    }
  }

  /** So it is from every state a run can reach. */
  lemma SilenceEndsEveryRun(cfg: Config, tieBreaker: u64, controlling: bool, inputs: seq<Input>, states: seq<Session>,
                            events: seq<Event>, times: seq<nat>)
    requires Full(cfg) && forall j :: 0 <= j < |inputs| ==> Sound(cfg, inputs[j].choices)
    requires SilentRun(cfg, states, events, times) && states[0] == After(cfg, tieBreaker, controlling, inputs)
    requires Firings(events) > Measure(cfg, states[0], times[0])
    ensures exists k :: 0 <= k < |states| && states[k].phase != Checking
  {
    RunOk(cfg, None, tieBreaker, controlling, inputs);
    if forall k :: 0 <= k < |states| ==> states[k].phase == Checking {
      SilenceTerminates(cfg, None, states, events, times);
      assert false;
    }
  }

  /** In silence checking is left only for failure. */
  lemma SilenceEndsInFailure(cfg: Config, s: Session, t: nat, e: Event, now: nat, s': Session)
    requires s.phase == Checking && SilentStep(cfg, s, t, e, now, s')
    ensures s'.phase == Checking || s'.phase == Phase.Failed
  {
  }

  lemma SilentTail(cfg: Config, states: seq<Session>, events: seq<Event>, times: seq<nat>)
    requires SilentRun(cfg, states, events, times) && events != []
    ensures SilentRun(cfg, states[1..], events[1..], times[1..])
  {
    forall k | 0 <= k < |events[1..]|
      ensures SilentStep(cfg, states[1..][k], times[1..][k], events[1..][k], times[1..][k + 1], states[1..][k + 1])
    {
      assert SilentStep(cfg, states[k + 1], times[k + 1], events[k + 1], times[k + 2], states[k + 2]);
    }
  }

  // ---- The schedule of an unanswered pair ----

  /** One tick of the check list. */
  function Tick(cfg: Config, c: Checks, now: nat): (r: Checks)
  {
    Promote(cfg, Walked(cfg, c, now), now)
  }

  /** When the n-th tick after time t fires. */
  function TickTime(cfg: Config, t: nat, n: nat): (us: nat)
  {
    if n == 0 then t else TickTime(cfg, t, n - 1) + cfg.intervalMs * 1000
  }

  lemma {:induction false} Elapsed(cfg: Config, t: nat, k: nat, n: nat)
    requires k <= n
    ensures TickTime(cfg, t, n) - TickTime(cfg, t, k) == (n - k) * (cfg.intervalMs * 1000)
  {
    if k < n {
      Elapsed(cfg, t, k, n - 1);
      Distribute(n - k, cfg.intervalMs * 1000);
    }
  }

  lemma Distribute(a: int, m: int)
    ensures a * m == (a - 1) * m + m
  {
  }

  lemma {:induction false} TickTimePositive(cfg: Config, t: nat, n: nat)
    requires t > 0
    ensures TickTime(cfg, t, n) > 0
  {
    if n > 0 {
      TickTimePositive(cfg, t, n - 1);
    }
  }

  function SessionTick(cfg: Config, t: nat): (Session, nat) -> Session
  {
    (s: Session, k: nat) => RunNextCheck(cfg, s, TickTime(cfg, t, k + 1))
  }

  /** The session after n ticks, one check interval apart, after time t. */
  function Ticks(cfg: Config, s: Session, t: nat, n: nat): (r: Session)
  {
    Sweep(s, 0, n, SessionTick(cfg, t))
  }

  lemma TickOk(cfg: Config, c: Checks, now: nat)
    requires ListOk(cfg, c)
    ensures ListOk(cfg, Tick(cfg, c, now))
  {
    WalkedKept(cfg, c, now);
    PromoteOk(cfg, Walked(cfg, c, now), now);
  }

  /** Ticks a pair waits after its r-th send. */
  function WaitTicks(cfg: Config, r: nat): (k: nat)
    requires r >= 1
  {
    if r < cfg.maxRetries then 5 * Pow2(Min(r, 5)) else 5 * Pow2(r - 1)
  }

  /** Ticks from the first send to the r-th. */
  function SendTick(r: nat): (k: nat)
    requires r >= 1
  {
    if r == 1 then 0 else SendTick(r - 1) + 5 * Pow2(Min(r - 1, 5))
  }

  /** Ticks from the first send to failure; from the sixth send on the wait between sends is clipped. */
  function FailTick(retries: nat): (k: int)
    requires retries >= 1
  {
    if retries <= 6 then 5 * (3 * Pow2(retries - 1) - 2) else 310 + 160 * (retries - 6) + 5 * Pow2(retries - 1)
  }

  lemma {:induction false} SendTickClosed(r: nat)
    requires r >= 1
    ensures SendTick(r) == if r <= 6 then 5 * (Pow2(r) - 2) else 310 + 160 * (r - 6)
    ensures FailTick(r) == SendTick(r) + 5 * Pow2(r - 1)
  {
    assert Pow2(r) == 2 * Pow2(r - 1);
    if r > 1 {
      SendTickClosed(r - 1);
      Pow2Of5();
    }
  }

  lemma Pow2Of5()
    ensures Pow2(5) == 32 && Pow2(6) == 64
  {
    assert Pow2(3) == 8;
  }

  lemma MulLess(a: int, b: int, m: int)
    requires m > 0
    ensures a < b <==> a * m < b * m
  {
  }

  lemma {:induction false} RtoTicks(cfg: Config, shift: nat)
    ensures Rto(cfg, shift) == 5 * Pow2(shift) * (cfg.intervalMs * 1000)
  {
    if shift > 0 {
      RtoTicks(cfg, shift - 1);
      Doubled(5 * Pow2(shift - 1), cfg.intervalMs * 1000);
    }
  }

  lemma Doubled(a: int, m: int)
    ensures 2 * (a * m) == (2 * a) * m
  {
  }

  /** The wait after a send is WaitTicks check intervals, for every retry budget. */
  lemma PatienceTicks(cfg: Config, r: nat)
    requires 1 <= r <= cfg.maxRetries
    ensures Patience(cfg, r) == WaitTicks(cfg, r) * (cfg.intervalMs * 1000)
  {
    RtoTicks(cfg, Min(r, 5));
    RtoTicks(cfg, r - 1);
  }

  /** The pair as it stands after its r-th send. */
  function Sent(cfg: Config, p: CheckPair, t: nat, r: nat): (q: CheckPair)
    requires r >= 1
  {
    p.(retries := r, sentAt := TickTime(cfg, t, SendTick(r)))
  }

  lemma RestsUntil(cfg: Config, p: CheckPair, t: nat, n: nat, r: nat)
    requires 1 <= r <= cfg.maxRetries && t > 0 && SendTick(r) <= n
    ensures Resting(cfg, Sent(cfg, p, t, r), TickTime(cfg, t, n)) <==> n < SendTick(r) + WaitTicks(cfg, r)
  {
    PatienceTicks(cfg, r);
    Elapsed(cfg, t, SendTick(r), n);
    TickTimePositive(cfg, t, SendTick(r));
    MulLess(n - SendTick(r), WaitTicks(cfg, r), cfg.intervalMs * 1000);
  }

  /** Sent r times, and not due again by tick n. */
  predicate OnSchedule(cfg: Config, p: CheckPair, q: CheckPair, t: nat, n: nat, r: nat) {
    && 1 <= r <= cfg.maxRetries && SendTick(r) <= n < SendTick(r) + WaitTicks(cfg, r)
    && q == Sent(cfg, p, t, r)
  }

  /** A tick inside the wait leaves the pair alone. */
  lemma TickRests(cfg: Config, p: CheckPair, t: nat, n: nat, r: nat)
    requires 1 <= r <= cfg.maxRetries && t > 0 && p.state == InProgress
    requires SendTick(r) <= n < SendTick(r) + WaitTicks(cfg, r)
    ensures PairTick(cfg, Sent(cfg, p, t, r), TickTime(cfg, t, n)) == Sent(cfg, p, t, r)
  {
    RestsUntil(cfg, p, t, n, r);
  }

  /** The tick that ends the wait sends the pair again, or fails it when its budget is spent. */
  lemma TickActs(cfg: Config, p: CheckPair, t: nat, n: nat, r: nat)
    requires 1 <= r <= cfg.maxRetries && t > 0 && p.state == InProgress && n == SendTick(r) + WaitTicks(cfg, r)
    ensures r < cfg.maxRetries ==> PairTick(cfg, Sent(cfg, p, t, r), TickTime(cfg, t, n)) == Sent(cfg, p, t, r + 1)
    ensures r == cfg.maxRetries ==> PairTick(cfg, Sent(cfg, p, t, r), TickTime(cfg, t, n)).state == PairState.Failed
  {
    RestsUntil(cfg, p, t, n, r);
  }

  /** The end of the last wait is FailTick, and every other wait ends before it. */
  lemma WaitEnds(cfg: Config, r: nat)
    requires 1 <= r <= cfg.maxRetries
    ensures r == cfg.maxRetries ==> SendTick(r) + WaitTicks(cfg, r) == FailTick(cfg.maxRetries)
    ensures r < cfg.maxRetries ==> SendTick(r) + WaitTicks(cfg, r) == SendTick(r + 1) < FailTick(cfg.maxRetries)
  {
    SendTickClosed(cfg.maxRetries);
    SendTickMonotone(r, cfg.maxRetries);
  }

  lemma ScheduleRests(cfg: Config, p: CheckPair, t: nat, n: nat, r: nat)
    requires t > 0 && p.state == InProgress
    requires 1 <= r && OnSchedule(cfg, p, Sent(cfg, p, t, r), t, n, r)
    requires n + 1 < SendTick(r) + WaitTicks(cfg, r)
    ensures OnSchedule(cfg, p, PairTick(cfg, Sent(cfg, p, t, r), TickTime(cfg, t, n + 1)), t, n + 1, r)
  {
    TickRests(cfg, p, t, n + 1, r);
  }

  lemma ScheduleActs(cfg: Config, p: CheckPair, t: nat, n: nat, r: nat)
    requires t > 0 && p.state == InProgress && 1 <= r < cfg.maxRetries
    requires n + 1 == SendTick(r) + WaitTicks(cfg, r)
    ensures OnSchedule(cfg, p, PairTick(cfg, Sent(cfg, p, t, r), TickTime(cfg, t, n + 1)), t, n + 1, r + 1)
  {
    TickActs(cfg, p, t, n + 1, r);
    WaitEnds(cfg, r);
  }

  /** One more tick keeps the pair on schedule, or ends it at FailTick. */
  lemma ScheduleStep(cfg: Config, p: CheckPair, q: CheckPair, t: nat, n: nat, r: nat) returns (r': nat)
    requires t > 0 && p.state == InProgress && OnSchedule(cfg, p, q, t, n, r)
    ensures var q' := PairTick(cfg, q, TickTime(cfg, t, n + 1));
            if n + 1 == FailTick(cfg.maxRetries) then q'.state == PairState.Failed
            else OnSchedule(cfg, p, q', t, n + 1, r')
  {
    WaitEnds(cfg, r);
    r' := r;
    if n + 1 < SendTick(r) + WaitTicks(cfg, r) {
      ScheduleRests(cfg, p, t, n, r);
    } else if r < cfg.maxRetries {
      r' := r + 1;
      ScheduleActs(cfg, p, t, n, r);
    } else {
      TickActs(cfg, p, t, n + 1, r);
    }
  }

  lemma {:induction false} SendTickMonotone(r: nat, m: nat)
    requires 1 <= r <= m
    ensures r < m ==> SendTick(r) + 5 * Pow2(Min(r, 5)) <= SendTick(m)
    ensures r == m ==> SendTick(r) == SendTick(m)
  {
    if r < m {
      SendTickMonotone(r, m - 1);
    }
  }

  /** A pair first sent at time t and not heard of since. */
  ghost predicate FirstSent(cfg: Config, c: Checks, t: nat, i: nat) {
    && t > 0 && ListOk(cfg, c) && i < |c.pairs|
    && c.pairs[i].state == InProgress && c.pairs[i].retries == 1 && c.pairs[i].sentAt == t
  }

  /** After n ticks the list is sound and its pair i, which was p when first sent, is on schedule. */
  ghost predicate Tracked(cfg: Config, p: CheckPair, d: Checks, t: nat, i: nat, n: nat, r: nat) {
    && t > 0 && p.state == InProgress
    && ListOk(cfg, d) && i < |d.pairs| && OnSchedule(cfg, p, d.pairs[i], t, n, r)
  }

  lemma TrackedStep(cfg: Config, p: CheckPair, d: Checks, t: nat, i: nat, n: nat, r: nat) returns (r': nat)
    requires Tracked(cfg, p, d, t, i, n, r) && n + 1 < FailTick(cfg.maxRetries)
    ensures Tracked(cfg, p, Tick(cfg, d, TickTime(cfg, t, n + 1)), t, i, n + 1, r')
    ensures AnyPending(Walked(cfg, d, TickTime(cfg, t, n + 1)).pairs)
  {
    var now := TickTime(cfg, t, n + 1);
    TickOk(cfg, d, now);
    TickPair(cfg, d, i, now);
    r' := ScheduleStep(cfg, p, d.pairs[i], t, n, r);
    assert IsPending(Walked(cfg, d, now).pairs[i]);
  }

  lemma LastTick(cfg: Config, p: CheckPair, d: Checks, t: nat, i: nat, n: nat, r: nat)
    requires Tracked(cfg, p, d, t, i, n, r) && n + 1 == FailTick(cfg.maxRetries)
    ensures Ended(Tick(cfg, d, TickTime(cfg, t, n + 1)).pairs, i)
  {
    TickPair(cfg, d, i, TickTime(cfg, t, n + 1));
    var r' := ScheduleStep(cfg, p, d.pairs[i], t, n, r);
  }

  predicate Ended(ps: seq<CheckPair>, i: nat) { i < |ps| && ps[i].state == PairState.Failed }

  predicate Unanswered(ps: seq<CheckPair>, i: nat) { i < |ps| && ps[i].state == InProgress }

  lemma RunsTick(cfg: Config, s: Session, now: nat)
    requires s.phase == Checking
    ensures RunNextCheck(cfg, s, now).checks == Tick(cfg, s.checks, now)
    ensures AnyPending(Walked(cfg, s.checks, now).pairs) ==> RunNextCheck(cfg, s, now).phase == Checking
  {
  }

  /** A property of the list that the first n ticks keep, each finding a pair pending. */
  ghost predicate KeptByTicks(cfg: Config, t: nat, n: nat, good: (Checks, nat) -> bool) {
    forall c: Checks, k: nat :: good(c, k) && k < n ==>
                                  good(Tick(cfg, c, TickTime(cfg, t, k + 1)), k + 1)
                                  && AnyPending(Walked(cfg, c, TickTime(cfg, t, k + 1)).pairs)
  }

  /** Such a property keeps the session checking. */
  lemma StaysChecking(cfg: Config, s: Session, t: nat, n: nat, good: (Checks, nat) -> bool)
    requires s.phase == Checking && good(s.checks, 0) && KeptByTicks(cfg, t, n, good)
    ensures Ticks(cfg, s, t, n).phase == Checking && good(Ticks(cfg, s, t, n).checks, n)
  {
    var step, inv := SessionTick(cfg, t), (u: Session, k: nat) => u.phase == Checking && good(u.checks, k);
    forall u: Session, k: nat | inv(u, k) && k < n
      ensures inv(step(u, k), k + 1)
    {
      RunsTick(cfg, u, TickTime(cfg, t, k + 1));
    }
    SweepKeepsAt(s, 0, n, step, inv);
  }

  /** Pair i is on schedule after n ticks. */
  ghost predicate OnTime(cfg: Config, p: CheckPair, c: Checks, t: nat, i: nat, n: nat) {
    exists r :: Tracked(cfg, p, c, t, i, n, r)
  }

  lemma OnTimeStep(cfg: Config, p: CheckPair, c: Checks, t: nat, i: nat, n: nat)
    requires OnTime(cfg, p, c, t, i, n) && n + 1 < FailTick(cfg.maxRetries)
    ensures OnTime(cfg, p, Tick(cfg, c, TickTime(cfg, t, n + 1)), t, i, n + 1)
    ensures AnyPending(Walked(cfg, c, TickTime(cfg, t, n + 1)).pairs)
  {
    var r :| Tracked(cfg, p, c, t, i, n, r);
    var r' := TrackedStep(cfg, p, c, t, i, n, r);
  }

  lemma OnTimeEnds(cfg: Config, p: CheckPair, c: Checks, t: nat, i: nat, n: nat)
    requires OnTime(cfg, p, c, t, i, n) && n + 1 == FailTick(cfg.maxRetries)
    ensures Ended(Tick(cfg, c, TickTime(cfg, t, n + 1)).pairs, i)
  {
    var r :| Tracked(cfg, p, c, t, i, n, r);
    LastTick(cfg, p, c, t, i, n, r);
  }

  lemma OnTimeFirst(cfg: Config, c: Checks, t: nat, i: nat)
    requires FirstSent(cfg, c, t, i)
    ensures OnTime(cfg, c.pairs[i], c, t, i, 0)
  {
    assert Min(1, 5) == 1 && Pow2(1) == 2;
    assert Tracked(cfg, c.pairs[i], c, t, i, 0, 1);
  }

  ghost function OnTimeOf(cfg: Config, p: CheckPair, t: nat, i: nat): (Checks, nat) -> bool
  {
    (c: Checks, k: nat) => OnTime(cfg, p, c, t, i, k)
  }

  lemma OnTimeKept(cfg: Config, p: CheckPair, t: nat, i: nat, n: nat)
    requires n < FailTick(cfg.maxRetries)
    ensures KeptByTicks(cfg, t, n, OnTimeOf(cfg, p, t, i))
  {
    forall c: Checks, k: nat | OnTime(cfg, p, c, t, i, k) && k < n
      ensures OnTime(cfg, p, Tick(cfg, c, TickTime(cfg, t, k + 1)), t, i, k + 1)
      ensures AnyPending(Walked(cfg, c, TickTime(cfg, t, k + 1)).pairs)
    {
      OnTimeStep(cfg, p, c, t, i, k);
    }
  }

  lemma Timeline(cfg: Config, p: CheckPair, s: Session, t: nat, i: nat, n: nat)
    requires s.phase == Checking && OnTime(cfg, p, s.checks, t, i, 0) && n < FailTick(cfg.maxRetries)
    ensures Ticks(cfg, s, t, n).phase == Checking && OnTime(cfg, p, Ticks(cfg, s, t, n).checks, t, i, n)
  {
    OnTimeKept(cfg, p, t, i, n);
    StaysChecking(cfg, s, t, n, OnTimeOf(cfg, p, t, i));
  }

  /**
   * An unanswered pair first sent at time t fails exactly FailTick ticks later: 5 * (3 * 2^(R-1) - 2) for a retry
   * budget R up to six and 310 + 160 * (R - 6) + 5 * 2^(R-1) above. After every smaller number of ticks it is in
   * progress and the session is checking.
   */
  lemma UnansweredPairIsInProgress(cfg: Config, s: Session, t: nat, i: nat, n: nat)
    requires FirstSent(cfg, s.checks, t, i) && s.phase == Checking && n < FailTick(cfg.maxRetries)
    ensures Ticks(cfg, s, t, n).phase == Checking && Unanswered(Ticks(cfg, s, t, n).checks.pairs, i)
  {
    OnTimeFirst(cfg, s.checks, t, i);
    Timeline(cfg, s.checks.pairs[i], s, t, i, n);
  }

  /** And after that number it has failed. */
  lemma UnansweredPairFails(cfg: Config, s: Session, t: nat, i: nat, n: nat)
    requires FirstSent(cfg, s.checks, t, i) && s.phase == Checking && n + 1 == FailTick(cfg.maxRetries)
    ensures Ended(Ticks(cfg, s, t, n + 1).checks.pairs, i)
  {
    OnTimeFirst(cfg, s.checks, t, i);
    Timeline(cfg, s.checks.pairs[i], s, t, i, n);
    LastOfTicks(cfg, s, t, n);
    OnTimeEnds(cfg, s.checks.pairs[i], Ticks(cfg, s, t, n).checks, t, i, n);
  }

  lemma LastOfTicks(cfg: Config, s: Session, t: nat, n: nat)
    requires Ticks(cfg, s, t, n).phase == Checking
    ensures Ticks(cfg, s, t, n + 1).checks == Tick(cfg, Ticks(cfg, s, t, n).checks, TickTime(cfg, t, n + 1))
  {
    SweepSplit(s, 0, n, n + 1, SessionTick(cfg, t));
    RunsTick(cfg, Ticks(cfg, s, t, n), TickTime(cfg, t, n + 1));
  }
}
