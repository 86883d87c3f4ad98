/** What every scheduling operation keeps true of a check list. */
module CheckListLaws {
  import opened Bytes
  import opened Sequences
  import opened Candidates
  import opened CheckList

  /** Every frozen pair shares its foundation tuple with a waiting or in-progress pair. */
  ghost predicate Represented(ps: seq<CheckPair>) {
    forall i :: 0 <= i < |ps| ==> HasRepresentative(ps, i)
  }

  ghost predicate HasRepresentative(ps: seq<CheckPair>, i: nat)
    requires i < |ps|
  {
    ps[i].state.Frozen? ==> exists j :: 0 <= j < |ps| && Represents(ps[j], ps[i])
  }

  predicate Represents(q: CheckPair, p: CheckPair) { SameTuple(p, q) && IsActive(q) }

  ghost predicate PairOk(cfg: Config, p: CheckPair) {
    && p.local.foundation != "" && p.remote.foundation != ""
    && p.retries <= cfg.maxRetries
    && (p.state.Frozen? || p.state.Waiting? ==> p.retries == 0)
    && (p.valid ==> p.state.Succeeded? || p.state.Failed?)
  }

  predicate Scheduled(p: CheckPair) { p.state.InProgress? && !p.triggered }

  function RetriesOf(p: CheckPair): nat { p.retries }

  /** The invariant of a list between two handlers. */
  ghost predicate ListOk(cfg: Config, c: Checks) {
    && Represented(c.pairs)
    && (forall i :: 0 <= i < |c.pairs| ==> PairOk(cfg, c.pairs[i]))
    && Count(c.pairs, Scheduled) <= CAP
    && c.sent == Sum(c.pairs, RetriesOf)
  }

  /** Everything about a pair that scheduling never touches. */
  function Ident(p: CheckPair): CheckPair { p.(state := Frozen, retries := 0, sentAt := 0) }

  ghost predicate SameIdent(ps: seq<CheckPair>, qs: seq<CheckPair>) {
    |ps| == |qs| && forall i :: 0 <= i < |ps| ==> Ident(ps[i]) == Ident(qs[i])
  }

  /** The budget of a list of n pairs: no more than n * maxRetries checks leave it. */
  lemma SendBudget(cfg: Config, c: Checks)
    requires ListOk(cfg, c)
    ensures c.sent <= |c.pairs| * cfg.maxRetries
  {
    SumBound(c.pairs, RetriesOf, cfg.maxRetries);
  }

  // ---- Single operations ----

  lemma CompleteRepresented(ps: seq<CheckPair>, i: nat, p: CheckPair)
    requires Represented(ps) && i < |ps| && SameTuple(p, ps[i])
    requires p.local.foundation != "" && p.remote.foundation != "" && !p.state.Frozen?
    ensures Represented(Complete(ps, i, p))
  {
    var qs := Complete(ps, i, p);
    forall k | 0 <= k < |qs|
      ensures HasRepresentative(qs, k)
    {
      if qs[k].state.Frozen? {
        assert HasRepresentative(ps, k);
        var j :| 0 <= j < |ps| && Represents(ps[j], ps[k]);
        assert Represents(qs[j], qs[k]);
      }
    }
  }

  lemma CompleteCounts(ps: seq<CheckPair>, i: nat, p: CheckPair)
    requires i < |ps| && !Scheduled(p) && p.retries == ps[i].retries
    ensures Count(Complete(ps, i, p), Scheduled) <= Count(ps, Scheduled)
    ensures Sum(Complete(ps, i, p), RetriesOf) == Sum(ps, RetriesOf)
  {
    var mid, qs := ps[i := p], Complete(ps, i, p);
    CountUpdate(ps, i, p, Scheduled);
    CountPointwise(qs, mid, Scheduled, Scheduled);
    SumUpdate(ps, i, p, RetriesOf);
    SumPointwise(qs, mid, RetriesOf, RetriesOf);
    SumPointwise(mid, qs, RetriesOf, RetriesOf);
  }

  lemma CompleteOk(cfg: Config, c: Checks, i: nat, p: CheckPair)
    requires ListOk(cfg, c) && i < |c.pairs|
    requires SameTuple(p, c.pairs[i]) && PairOk(cfg, p) && p.retries == c.pairs[i].retries
    requires p.state.Succeeded? || p.state.Failed?
    ensures ListOk(cfg, c.(pairs := Complete(c.pairs, i, p)))
  {
    CompleteRepresented(c.pairs, i, p);
    CompleteCounts(c.pairs, i, p);
  }

  /**
   * Replacing a pair by one of the same tuple that is active whenever the old one was keeps every frozen pair
   * covered.
   */
  lemma ReplaceRepresented(ps: seq<CheckPair>, i: nat, p: CheckPair)
    requires Represented(ps) && i < |ps| && SameTuple(p, ps[i])
    requires !p.state.Frozen? && (IsActive(ps[i]) ==> IsActive(p))
    ensures Represented(ps[i := p])
  {
    var qs := ps[i := p];
    forall k | 0 <= k < |qs|
      ensures HasRepresentative(qs, k)
    {
      if qs[k].state.Frozen? {
        assert HasRepresentative(ps, k);
        var j :| 0 <= j < |ps| && Represents(ps[j], ps[k]);
        assert Represents(qs[j], qs[k]);
      }
    }
  }

  lemma ReplaceOk(cfg: Config, c: Checks, i: nat, p: CheckPair, sent: nat)
    requires ListOk(cfg, c) && i < |c.pairs| && SameTuple(p, c.pairs[i]) && PairOk(cfg, p)
    requires !p.state.Frozen? && (IsActive(c.pairs[i]) ==> IsActive(p))
    requires Scheduled(p) && !Scheduled(c.pairs[i]) ==> Count(c.pairs, Scheduled) < CAP
    requires sent == c.sent - c.pairs[i].retries + p.retries
    ensures ListOk(cfg, Checks(c.pairs[i := p], sent))
  {
    ReplaceRepresented(c.pairs, i, p);
    CountUpdate(c.pairs, i, p, Scheduled);
    SumUpdate(c.pairs, i, p, RetriesOf);
  }

  lemma CompleteIdent(ps: seq<CheckPair>, i: nat, p: CheckPair)
    requires i < |ps| && Ident(p) == Ident(ps[i])
    ensures SameIdent(ps, Complete(ps, i, p))
  {
  }

  lemma SendCheckOk(cfg: Config, c: Checks, i: nat, now: nat)
    requires ListOk(cfg, c) && i < |c.pairs|
    requires !c.pairs[i].state.Frozen? && !c.pairs[i].state.Waiting?
    ensures ListOk(cfg, SendCheck(cfg, c, i, now))
    ensures SameIdent(c.pairs, SendCheck(cfg, c, i, now).pairs)
  {
    var p := c.pairs[i];
    assert PairOk(cfg, p);
    if p.retries >= cfg.maxRetries {
      var q := p.(state := Failed);
      CompleteOk(cfg, c, i, q);
      CompleteIdent(c.pairs, i, q);
    } else {
      var q := p.(retries := p.retries + 1, sentAt := now);
      ReplaceOk(cfg, c, i, q, c.sent + 1);
    }
  }

  lemma StartEffect(cfg: Config, c: Checks, i: nat, now: nat)
    requires i < |c.pairs| && c.pairs[i].retries == 0
    ensures Start(cfg, c, i, now) ==
            Checks(c.pairs[i := c.pairs[i].(state := InProgress, retries := 1, sentAt := now)], c.sent + 1)
  {
    var p := c.pairs[i];
    var q := p.(state := InProgress, retries := 1, sentAt := now);
    assert c.pairs[i := p.(state := InProgress)][i := q] == c.pairs[i := q];
  }

  lemma StartOk(cfg: Config, c: Checks, i: nat, now: nat)
    requires ListOk(cfg, c) && i < |c.pairs| && c.pairs[i].state.Waiting?
    requires Count(c.pairs, Scheduled) < CAP
    ensures Kept(cfg, c, Start(cfg, c, i, now))
    ensures Count(Start(cfg, c, i, now).pairs, Scheduled) <= Count(c.pairs, Scheduled) + 1
  {
    var p := c.pairs[i];
    assert PairOk(cfg, p);
    var q := p.(state := InProgress, retries := 1, sentAt := now);
    StartEffect(cfg, c, i, now);
    ReplaceOk(cfg, c, i, q, c.sent + 1);
    CountUpdate(c.pairs, i, q, Scheduled);
  }

  lemma RetransmitAtOk(cfg: Config, c: Checks, i: nat, now: nat)
    requires ListOk(cfg, c) && i < |c.pairs|
    ensures Kept(cfg, c, RetransmitAt(cfg, c, i, now))
  {
    var p := c.pairs[i];
    assert PairOk(cfg, p);
    if p.state.InProgress? && !Resting(cfg, p, now) {
      if p.retries >= cfg.maxRetries {
        var q := p.(state := PairState.Failed);
        CompleteOk(cfg, c, i, q);
        CompleteIdent(c.pairs, i, q);
      } else {
        SendCheckOk(cfg, c, i, now);
      }
    }
  }

  lemma PromoteAtOk(cfg: Config, c: Checks, i: nat, now: nat)
    requires ListOk(cfg, c) && i < |c.pairs|
    ensures Kept(cfg, c, PromoteAt(cfg, c, i, now))
  {
    if !AtCap(c.pairs) && c.pairs[i].state.Waiting? && c.pairs[i].retries < cfg.maxRetries {
      CountPointwise(c.pairs, c.pairs, Scheduled, IsInFlight);
      StartOk(cfg, c, i, now);
    }
  }

  // ---- Loops ----

  /** One operation: the invariant still holds and only states, retries and send times changed. */
  ghost predicate Kept(cfg: Config, c: Checks, d: Checks) { ListOk(cfg, d) && SameIdent(c.pairs, d.pairs) }

  lemma KeptTransitive(cfg: Config, c: Checks, d: Checks, e: Checks)
    requires Kept(cfg, c, d) && Kept(cfg, d, e)
    ensures Kept(cfg, c, e)
  {
  }

  lemma RetransmitOk(cfg: Config, c: Checks, now: nat)
    requires ListOk(cfg, c)
    ensures Kept(cfg, c, Retransmit(cfg, c, now))
  {
    var step, inv := RetransmitStep(cfg, now), (d: Checks) => Kept(cfg, c, d);
    forall d: Checks, k: nat | inv(d) && k < |c.pairs|
      ensures inv(step(d, k))
    {
      RetransmitAtOk(cfg, d, k, now);
      KeptTransitive(cfg, c, d, step(d, k));
    }
    SweepKeeps(c, 0, |c.pairs|, step, inv);
  }

  lemma PromoteOk(cfg: Config, c: Checks, now: nat)
    requires ListOk(cfg, c)
    ensures Kept(cfg, c, Promote(cfg, c, now))
  {
    var step, inv := PromoteStep(cfg, now), (d: Checks) => Kept(cfg, c, d);
    forall d: Checks, k: nat | inv(d) && k < |c.pairs|
      ensures inv(step(d, k))
    {
      PromoteAtOk(cfg, d, k, now);
      KeptTransitive(cfg, c, d, step(d, k));
    }
    SweepKeeps(c, 0, |c.pairs|, step, inv);
  }

  lemma TcpTimeoutAtOk(cfg: Config, c: Checks, e: Endpoint, i: nat)
    requires ListOk(cfg, c) && i < |c.pairs|
    ensures Kept(cfg, c, TcpTimeoutAt(c, e, i))
  {
    var p := c.pairs[i];
    if p.state.InProgress? && IsTcp(p.transport) && EndpointOf(p.remote) == e {
      var q := p.(state := PairState.Failed);
      assert PairOk(cfg, p);
      CompleteOk(cfg, c, i, q);
      CompleteIdent(c.pairs, i, q);
    }
  }

  lemma TcpTimeoutOk(cfg: Config, c: Checks, e: Endpoint)
    requires ListOk(cfg, c)
    ensures Kept(cfg, c, TcpTimeout(c, e))
  {
    var step, inv := TcpTimeoutStep(e), (d: Checks) => Kept(cfg, c, d);
    forall d: Checks, k: nat | inv(d) && k < |c.pairs|
      ensures inv(step(d, k))
    {
      TcpTimeoutAtOk(cfg, d, e, k);
      KeptTransitive(cfg, c, d, step(d, k));
    }
    SweepKeeps(c, 0, |c.pairs|, step, inv);
  }

  ghost predicate PrefireKept(cfg: Config, c: Checks, f: Prefiring) {
    Kept(cfg, c, f.checks) && FewScheduled(f.checks.pairs, f.v4, f.v6)
  }

  predicate FewScheduled(ps: seq<CheckPair>, v4: bool, v6: bool) {
    Count(ps, Scheduled) <= (if v4 then 1 else 0) + (if v6 then 1 else 0)
  }

  lemma PrefireAtOk(cfg: Config, c: Checks, f: Prefiring, i: nat, now: nat)
    requires PrefireKept(cfg, c, f) && i < |c.pairs|
    ensures PrefireKept(cfg, c, PrefireAt(cfg, f, i, now))
  {
    var g := PrefireAt(cfg, f, i, now);
    if g != f {
      StartOk(cfg, f.checks, i, now);
      KeptTransitive(cfg, c, f.checks, g.checks);
    }
  }

  lemma PrefireOk(cfg: Config, c: Checks, now: nat)
    requires ListOk(cfg, c) && Count(c.pairs, Scheduled) == 0
    ensures Kept(cfg, c, Prefire(cfg, c, now))
  {
    var step, inv := PrefireStep(cfg, now), (f: Prefiring) => PrefireKept(cfg, c, f);
    forall f: Prefiring, k: nat | inv(f) && k < |c.pairs|
      ensures inv(step(f, k))
    {
      PrefireAtOk(cfg, c, f, k, now);
    }
    SweepKeeps(Prefiring(c, false, false), 0, |c.pairs|, step, inv);
  }

  /** The rescue of stuck frozen pairs finds nothing to do in any list the invariant allows. */
  lemma UnfreezeStuckIsIdle(ps: seq<CheckPair>)
    requires Represented(ps)
    ensures UnfreezeStuck(ps) == ps
  {
    if !AnyActive(ps) {
      forall i | 0 <= i < |ps|
        ensures !ps[i].state.Frozen?
      {
        assert HasRepresentative(ps, i);
      }
      var inv := (l: Labelling) => l == Labelling(ps, {});
      SweepKeeps(Labelling(ps, {}), 0, |ps|, StuckStep, inv);
    }
  }

  lemma AppendOk(cfg: Config, c: Checks, p: CheckPair)
    requires ListOk(cfg, c) && PairOk(cfg, p) && p.state.InProgress? && p.triggered && p.retries == 0
    ensures ListOk(cfg, c.(pairs := c.pairs + [p]))
  {
    var qs := c.pairs + [p];
    assert qs[..|qs| - 1] == c.pairs;
    forall k | 0 <= k < |qs|
      ensures HasRepresentative(qs, k)
    {
      if qs[k].state.Frozen? {
        assert HasRepresentative(c.pairs, k);
        var j :| 0 <= j < |c.pairs| && Represents(c.pairs[j], c.pairs[k]);
        assert Represents(qs[j], qs[k]);
      }
    }
  }

  /** USE-CANDIDATE takes a frozen pair out of the freezer. */
  lemma WakeOk(cfg: Config, c: Checks, i: nat, p: CheckPair)
    requires ListOk(cfg, c) && i < |c.pairs|
    requires Ident(p.(pendingNomination := c.pairs[i].pendingNomination)) == Ident(c.pairs[i])
    requires p.retries == c.pairs[i].retries
    requires p.state == if c.pairs[i].state.Frozen? then Waiting else c.pairs[i].state
    ensures ListOk(cfg, c.(pairs := c.pairs[i := p]))
  {
    assert p.triggered == c.pairs[i].triggered && p.valid == c.pairs[i].valid && SameTuple(p, c.pairs[i]);
    ReplaceRepresented(c.pairs, i, p);
    CountUpdate(c.pairs, i, p, Scheduled);
    SumUpdate(c.pairs, i, p, RetriesOf);
  }

  // ---- A freshly built list ----

  predicate Fresh(p: CheckPair) {
    && p.local.foundation != "" && p.remote.foundation != ""
    && p.retries == 0 && p.sentAt == 0
    && !p.valid && !p.nomineeSent && !p.triggered && !p.pendingNomination
  }

  predicate AllFresh(ps: seq<CheckPair>) { forall p :: p in ps ==> Fresh(p) }

  lemma {:induction false} PredictionsFresh(p: CheckPair, stride: u16, from: nat, attempts: nat)
    requires Fresh(p)
    ensures AllFresh(Predictions(p, stride, from, attempts))
    decreases attempts + 1 - from
  {
    if from <= attempts && p.remote.port as int + stride as int * from <= 65535 {
      PredictionsFresh(p, stride, from + 1, attempts);
    }
  }

  lemma {:induction false} RowFresh(l: Candidate, rs: seq<Candidate>, controlling: bool, stride: u16, attempts: nat)
    requires l.foundation != "" && forall r :: r in rs ==> r.foundation != ""
    ensures AllFresh(Row(l, rs, controlling, stride, attempts))
  {
    if rs != [] {
      var r := rs[|rs| - 1];
      RowFresh(l, rs[..|rs| - 1], controlling, stride, attempts);
      PredictionsFresh(NewPair(l, r, controlling), stride, 1, attempts);
    }
  }

  lemma {:induction false} RowsFresh(ls: seq<Candidate>, rs: seq<Candidate>, controlling: bool, stride: u16,
                                     attempts: nat)
    requires (forall l :: l in ls ==> l.foundation != "") && forall r :: r in rs ==> r.foundation != ""
    ensures AllFresh(Rows(ls, rs, controlling, stride, attempts))
  {
    if ls != [] {
      RowsFresh(ls[..|ls| - 1], rs, controlling, stride, attempts);
      RowFresh(ls[|ls| - 1], rs, controlling, stride, attempts);
    }
  }

  lemma BuiltFresh(cfg: Config, from: Sides, ps: seq<CheckPair>)
    requires IsBuilt(cfg, from, ps)
    ensures forall i :: 0 <= i < |ps| ==> Fresh(ps[i])
  {
    var ls, rs := StampAll(cfg.hash, from.locals), StampAll(cfg.hash, from.remotes);
    var raw := Rows(ls, rs, from.controlling, from.stride, Attempts(cfg, from.stride));
    RowsFresh(ls, rs, from.controlling, from.stride, Attempts(cfg, from.stride));
    forall i | 0 <= i < |ps|
      ensures Fresh(ps[i])
    {
      assert BareAll(ps)[i] in multiset(BareAll(ps));
      assert Bare(ps[i]) in raw;
    }
  }

  /** The concatenated key determines the tuple, because foundations hold no '|'. */
  lemma KeyInjective(p: CheckPair, q: CheckPair)
    requires Key(p) == Key(q)
    ensures SameTuple(p, q)
  {
    var a, b := p.local.foundation, q.local.foundation;
    assert Key(p)[|a|] == '|' && forall k :: 0 <= k < |a| ==> Key(p)[k] == a[k] != '|';
    assert Key(q)[|b|] == '|' && forall k :: 0 <= k < |b| ==> Key(q)[k] == b[k] != '|';
    assert |a| == |b|;
    assert Key(p)[..|a|] == a && Key(q)[..|b|] == b;
    assert Key(p)[|a| + 1..] == p.remote.foundation && Key(q)[|b| + 1..] == q.remote.foundation;
  }

  lemma {:induction false} TupleHead(ps: seq<CheckPair>, i: nat) returns (j: nat)
    requires InitialStates(ps) && i < |ps|
    ensures j <= i && Key(ps[j]) == Key(ps[i]) && ps[j].state == Waiting
  {
    assert InitialState(ps, i);
    if k :| 0 <= k < i && Key(ps[k]) == Key(ps[i]) {
      j := TupleHead(ps, k);
    } else {
      j := i;
    }
  }

  /** Section 6.1.2.6 of RFC 8445: in a built list every tuple has one waiting pair, and it has the highest priority. */
  lemma BuiltHeads(cfg: Config, from: Sides, ps: seq<CheckPair>, j: nat) returns (i: nat)
    requires IsBuilt(cfg, from, ps) && j < |ps|
    ensures i < |ps| && ps[i].state == Waiting && Key(ps[i]) == Key(ps[j])
    ensures forall k :: 0 <= k < |ps| && Key(ps[k]) == Key(ps[j]) ==>
              ps[k].priority <= ps[i].priority && (k == i || ps[k].state == Frozen)
  {
    i := TupleHead(ps, j);
    forall k | 0 <= k < |ps| && Key(ps[k]) == Key(ps[j])
      ensures ps[k].priority <= ps[i].priority && (k == i || ps[k].state == Frozen)
    {
      assert InitialState(ps, i) && InitialState(ps, k);
    }
  }

  lemma {:induction false} SumZero(ps: seq<CheckPair>)
    requires forall i :: 0 <= i < |ps| ==> ps[i].retries == 0
    ensures Sum(ps, RetriesOf) == 0
  {
    if ps != [] {
      SumZero(ps[..|ps| - 1]);
    }
  }

  lemma {:induction false} NoneScheduled(ps: seq<CheckPair>)
    requires forall i :: 0 <= i < |ps| ==> !ps[i].state.InProgress?
    ensures Count(ps, Scheduled) == 0
  {
    if ps != [] {
      NoneScheduled(ps[..|ps| - 1]);
    }
  }

  lemma BuiltOk(cfg: Config, from: Sides, ps: seq<CheckPair>)
    requires IsBuilt(cfg, from, ps)
    ensures ListOk(cfg, Checks(ps, 0))
    ensures Count(ps, Scheduled) == 0
  {
    BuiltFresh(cfg, from, ps);
    SumZero(ps);
    forall i | 0 <= i < |ps|
      ensures !ps[i].state.InProgress?
    {
      assert InitialState(ps, i);
    }
    NoneScheduled(ps);
    forall i | 0 <= i < |ps|
      ensures HasRepresentative(ps, i)
    {
      var j := TupleHead(ps, i);
      KeyInjective(ps[j], ps[i]);
      assert Represents(ps[j], ps[i]);
    }
  }

  // ---- Some list can always be built ----

  ghost predicate KeysSeen(ps: seq<CheckPair>, i: nat, seen: set<string>)
    requires i <= |ps|
  {
    forall k :: k in seen <==> exists j :: 0 <= j < i && Key(ps[j]) == k
  }

  ghost predicate Labelled(l: Labelling, i: nat) {
    && i <= |l.pairs| && KeysSeen(l.pairs, i, l.seen)
    && forall k :: 0 <= k < i ==> InitialState(l.pairs, k)
  }

  lemma InitialStepLabels(l: Labelling, i: nat)
    requires Labelled(l, i) && i < |l.pairs|
    ensures Labelled(InitialStep(l, i), i + 1)
  {
    var ps, qs := l.pairs, InitialStep(l, i).pairs;
    assert forall j :: 0 <= j < |ps| ==> Key(qs[j]) == Key(ps[j]);
    forall k | 0 <= k < i + 1
      ensures InitialState(qs, k)
    {
      assert k < i ==> InitialState(ps, k);
    }
  }

  lemma {:induction false} AssignStatesInitial(l: Labelling, i: nat)
    requires Labelled(l, i)
    ensures InitialStates(Sweep(l, i, |l.pairs|, InitialStep).pairs)
    decreases |l.pairs| - i
  {
    if i < |l.pairs| {
      InitialStepLabels(l, i);
      AssignStatesInitial(InitialStep(l, i), i + 1);
    }
  }

  lemma AssignStatesBare(ps: seq<CheckPair>)
    ensures BareAll(AssignStates(ps)) == BareAll(ps)
  {
    var inv := (l: Labelling) => BareAll(l.pairs) == BareAll(ps);
    forall l: Labelling, k: nat | inv(l) && k < |ps|
      ensures inv(InitialStep(l, k))
    {
      assert BareAll(InitialStep(l, k).pairs) == BareAll(l.pairs);
    }
    SweepKeeps(Labelling(ps, {}), 0, |ps|, InitialStep, inv);
  }

  lemma BareDescending(ps: seq<CheckPair>, qs: seq<CheckPair>)
    requires BareAll(ps) == BareAll(qs) && Descending(ps)
    ensures Descending(qs)
  {
    assert forall i :: 0 <= i < |qs| ==> BareAll(ps)[i].priority == BareAll(qs)[i].priority;
  }

  function Canonical(cfg: Config, from: Sides): (ps: seq<CheckPair>)
  {
    AssignStates(Sorted(Rows(StampAll(cfg.hash, from.locals), StampAll(cfg.hash, from.remotes), from.controlling,
                             from.stride, Attempts(cfg, from.stride))))
  }

  lemma BareMultiset(ps: seq<CheckPair>, qs: seq<CheckPair>)
    requires multiset(ps) == multiset(qs)
    ensures multiset(BareAll(ps)) == multiset(BareAll(qs))
  {
    MapMultiset(ps, qs, Bare);
    assert BareAll(ps) == Map(ps, Bare) && BareAll(qs) == Map(qs, Bare);
  }

  /** Sorting raw pairs and assigning states gives a built list, whatever transaction ids the raw pairs carry. */
  lemma ArrangedIsBuilt(cfg: Config, from: Sides, raw: seq<CheckPair>, sorted: seq<CheckPair>)
    requires BareAll(raw) == Rows(StampAll(cfg.hash, from.locals), StampAll(cfg.hash, from.remotes), from.controlling,
                                  from.stride, Attempts(cfg, from.stride))
    requires multiset(sorted) == multiset(raw) && Descending(sorted)
    ensures IsBuilt(cfg, from, AssignStates(sorted))
  {
    BareMultiset(sorted, raw);
    AssignStatesInitial(Labelling(sorted, {}), 0);
    AssignStatesBare(sorted);
    BareDescending(sorted, AssignStates(sorted));
  }

  lemma {:induction false} RowsBare(ls: seq<Candidate>, rs: seq<Candidate>, controlling: bool, stride: u16,
                                    attempts: nat)
    ensures BareAll(Rows(ls, rs, controlling, stride, attempts)) == Rows(ls, rs, controlling, stride, attempts)
  {
    if ls != [] {
      RowsBare(ls[..|ls| - 1], rs, controlling, stride, attempts);
      RowBare(ls[|ls| - 1], rs, controlling, stride, attempts);
    }
  }

  lemma {:induction false} RowBare(l: Candidate, rs: seq<Candidate>, controlling: bool, stride: u16, attempts: nat)
    ensures BareAll(Row(l, rs, controlling, stride, attempts)) == Row(l, rs, controlling, stride, attempts)
  {
    if rs != [] {
      RowBare(l, rs[..|rs| - 1], controlling, stride, attempts);
      PredictionsBare(NewPair(l, rs[|rs| - 1], controlling), stride, 1, attempts);
    }
  }

  lemma {:induction false} PredictionsBare(p: CheckPair, stride: u16, from: nat, attempts: nat)
    requires Bare(p) == p
    ensures BareAll(Predictions(p, stride, from, attempts)) == Predictions(p, stride, from, attempts)
    decreases attempts + 1 - from
  {
    if from <= attempts && p.remote.port as int + stride as int * from <= 65535 {
      PredictionsBare(p, stride, from + 1, attempts);
    }
  }

  lemma CanonicalIsBuilt(cfg: Config, from: Sides)
    ensures IsBuilt(cfg, from, Canonical(cfg, from))
  {
    var ls, rs := StampAll(cfg.hash, from.locals), StampAll(cfg.hash, from.remotes);
    var raw := Rows(ls, rs, from.controlling, from.stride, Attempts(cfg, from.stride));
    RowsBare(ls, rs, from.controlling, from.stride, Attempts(cfg, from.stride));
    ArrangedIsBuilt(cfg, from, raw, Sorted(raw));
  }
}
