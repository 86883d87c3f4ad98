/** The check list: candidate pairs, how a list is built, and what each scheduling operation does to it. */
module CheckList {
  import opened Bytes
  import opened Sequences
  import opened Candidates

  type TxnId = nat

  const CAP: nat := 10

  datatype PairState = Frozen | Waiting | InProgress | Succeeded | Failed

  datatype CheckPair = CheckPair(
    local: Candidate, remote: Candidate, priority: u64, retries: nat, state: PairState,
    valid: bool, nomineeSent: bool, triggered: bool, pendingNomination: bool,
    txn: TxnId, sentAt: nat, transport: byte)

  /** A list and the number of checks sent since it was built. */
  datatype Checks = Checks(pairs: seq<CheckPair>, sent: nat)

  datatype RawConfig = RawConfig(
    lite: bool, aggressive: bool, timers: bool, maxRetries: int, intervalMs: int, nominationWaitMs: int,
    consentMaxFailures: int, consentMaxRecovery: int,
    prediction: bool, predictionAttempts: int, hash: FoundationHash)

  /** The ranges the configuration reader enforces. */
  type Config = c: RawConfig | 1 <= c.maxRetries <= 16 && 0 < c.intervalMs < 60000
    witness RawConfig(false, false, true, 4, 50, 500, 3, 3, true, 8, (_, _, _) => "0")

  // ---- Building ----

  predicate TcpPairs(l: byte, r: byte) {
    if l == TCP_ACTIVE then r == TCP_PASSIVE
    else if l == TCP_PASSIVE then r == TCP_ACTIVE
    else if l == TCP_SO then r == TCP_SO
    else false
  }

  predicate Compatible(l: Candidate, r: Candidate) {
    && l.kind != HOST_MDNS
    && !(r.kind == HOST_MDNS && r.hostname != [])
    && l.family == r.family
    && ((l.transport == UDP && r.transport == UDP) || TcpPairs(l.transport, r.transport))
  }

  function NewPair(l: Candidate, r: Candidate, controlling: bool): (p: CheckPair)
  {
    CheckPair(l, r, PairPriority(l.priority, r.priority, controlling), 0, Frozen,
              false, false, false, false, 0, 0, l.transport)
  }

  function PredictedPair(p: CheckPair, port: u16): (q: CheckPair)
  {
    p.(remote := p.remote.(port := port, foundation := p.remote.foundation + ":p" + Decimal(port)),
    priority := if p.priority > 0 then p.priority - 1 else 0)
  }

  /** Pairs for the ports port + stride * k with k in from..attempts, stopping at the first above 65535. */
  function Predictions(p: CheckPair, stride: u16, from: nat, attempts: nat): (r: seq<CheckPair>)
    decreases attempts + 1 - from
  {
    var port := p.remote.port as int + stride as int * from;
    if from > attempts || port > 65535 then []
    else [PredictedPair(p, port)] + Predictions(p, stride, from + 1, attempts)
  }

  function PairsFor(l: Candidate, r: Candidate, controlling: bool, stride: u16, attempts: nat): (ps: seq<CheckPair>)
  {
    if !Compatible(l, r) then []
    else
      var p := NewPair(l, r, controlling);
      [p] + if r.kind == SRFLX && stride != 0 then Predictions(p, stride, 1, attempts) else []
  }

  function Row(l: Candidate, rs: seq<Candidate>, controlling: bool, stride: u16, attempts: nat): (ps: seq<CheckPair>)
  {
    if rs == [] then []
    else Row(l, rs[..|rs| - 1], controlling, stride, attempts)
         + PairsFor(l, rs[|rs| - 1], controlling, stride, attempts)
  }

  function Rows(ls: seq<Candidate>, rs: seq<Candidate>, controlling: bool, stride: u16, attempts: nat):
    (ps: seq<CheckPair>)
  {
    if ls == [] then []
    else Rows(ls[..|ls| - 1], rs, controlling, stride, attempts)
         + Row(ls[|ls| - 1], rs, controlling, stride, attempts)
  }

  function StampAll(hash: FoundationHash, cs: seq<Candidate>): (r: seq<Candidate>)
    ensures |r| == |cs|
    ensures forall i :: 0 <= i < |cs| ==> r[i] == Stamped(hash, cs[i])
  {
    seq(|cs|, i requires 0 <= i < |cs| => Stamped(hash, cs[i]))
  }

  function Key(p: CheckPair): (k: string)
  {
    p.local.foundation + "|" + p.remote.foundation
  }

  /** A pair without what a build chooses freely (the transaction id) or derives from the order (the state). */
  function Bare(p: CheckPair): (q: CheckPair)
  {
    p.(txn := 0, state := Frozen)
  }

  function BareAll(ps: seq<CheckPair>): (r: seq<CheckPair>)
    ensures |r| == |ps|
    ensures forall i :: 0 <= i < |ps| ==> r[i] == Bare(ps[i])
  {
    seq(|ps|, i requires 0 <= i < |ps| => Bare(ps[i]))
  }

  predicate Descending(ps: seq<CheckPair>) {
    forall i, j :: 0 <= i < j < |ps| ==> ps[i].priority >= ps[j].priority
  }

  /** Waiting exactly on the first pair of each foundation tuple. */
  ghost predicate InitialStates(ps: seq<CheckPair>) {
    forall i :: 0 <= i < |ps| ==> InitialState(ps, i)
  }

  ghost predicate InitialState(ps: seq<CheckPair>, i: nat)
    requires i < |ps|
  {
    ps[i].state == if exists j :: 0 <= j < i && Key(ps[j]) == Key(ps[i]) then Frozen else Waiting
  }

  datatype Sides = Sides(locals: seq<Candidate>, remotes: seq<Candidate>, controlling: bool, stride: u16)

  function Attempts(cfg: Config, stride: u16): (n: nat)
  {
    if stride != 0 && cfg.predictionAttempts > 0 then cfg.predictionAttempts else 0
  }

  /**
   * The lists build_check_list may leave behind: every admissible pairing, in some order of descending priority (the
   * sort is not stable), with initial states by foundation tuple and arbitrary transaction ids.
   */
  ghost predicate IsBuilt(cfg: Config, from: Sides, ps: seq<CheckPair>) {
    && multiset(BareAll(ps)) ==
       multiset(Rows(StampAll(cfg.hash, from.locals), StampAll(cfg.hash, from.remotes), from.controlling, from.stride,
                     Attempts(cfg, from.stride)))
    && Descending(ps)
    && InitialStates(ps)
  }

  /** The first position at or after i whose pair has a lower priority than p. */
  function Position(p: CheckPair, ps: seq<CheckPair>, i: nat): (k: nat)
    requires i <= |ps|
    ensures i <= k <= |ps|
    ensures forall j :: i <= j < k ==> ps[j].priority >= p.priority
    ensures k < |ps| ==> ps[k].priority < p.priority
    decreases |ps| - i
  {
    if i == |ps| || ps[i].priority < p.priority then i else Position(p, ps, i + 1)
  }

  function Insert(p: CheckPair, ps: seq<CheckPair>): (r: seq<CheckPair>)
    requires Descending(ps)
    ensures multiset(r) == multiset(ps) + multiset{p}
    ensures Descending(r)
  {
    var k := Position(p, ps, 0);
    MultisetInsert(ps, k, p);
    InsertDescending(ps, k, p);
    ps[..k] + [p] + ps[k..]
  }

  lemma InsertDescending(ps: seq<CheckPair>, k: nat, p: CheckPair)
    requires Descending(ps) && k <= |ps|
    requires (forall j :: 0 <= j < k ==> ps[j].priority >= p.priority) && (k < |ps| ==> ps[k].priority < p.priority)
    ensures Descending(ps[..k] + [p] + ps[k..])
  {
  }

  /** A sort by descending priority. */
  function Sorted(ps: seq<CheckPair>): (r: seq<CheckPair>)
    ensures multiset(r) == multiset(ps)
    ensures Descending(r)
  {
    if ps == [] then []
    else
      var last := |ps| - 1;
      MultisetWithout(ps, last, ps[..last]);
      Insert(ps[last], Sorted(ps[..last]))
  }

  /** A list being relabelled and the foundation keys met so far. */
  datatype Labelling = Labelling(pairs: seq<CheckPair>, seen: set<string>)

  function InitialStep(l: Labelling, i: nat): (r: Labelling)
  {
    if i >= |l.pairs| then l
    else
      var key := Key(l.pairs[i]);
      Labelling(l.pairs[i := l.pairs[i].(state := if key in l.seen then Frozen else Waiting)], l.seen + {key})
  }

  function AssignStates(ps: seq<CheckPair>): (r: seq<CheckPair>)
  {
    Sweep(Labelling(ps, {}), 0, |ps|, InitialStep).pairs
  }

  // ---- Freezing ----

  predicate SameTuple(p: CheckPair, q: CheckPair) {
    p.local.foundation == q.local.foundation && p.remote.foundation == q.remote.foundation
  }

  function Thaw(p: CheckPair, lf: Foundation, rf: Foundation): (q: CheckPair)
  {
    if p.state.Frozen? && p.local.foundation == lf && p.remote.foundation == rf then p.(state := Waiting) else p
  }

  function UnfreezeSiblings(ps: seq<CheckPair>, lf: Foundation, rf: Foundation): (r: seq<CheckPair>)
    ensures |r| == |ps|
    ensures forall i :: 0 <= i < |ps| ==> r[i] == if lf == "" || rf == "" then ps[i] else Thaw(ps[i], lf, rf)
  {
    if lf == "" || rf == "" then ps
    else seq(|ps|, i requires 0 <= i < |ps| => Thaw(ps[i], lf, rf))
  }

  /** Pair i becomes p, a completed pair, and its foundation siblings thaw. */
  function Complete(ps: seq<CheckPair>, i: nat, p: CheckPair): (r: seq<CheckPair>)
    requires i < |ps|
    ensures |r| == |ps|
  {
    UnfreezeSiblings(ps[i := p], p.local.foundation, p.remote.foundation)
  }

  predicate IsActive(p: CheckPair) { p.state.Waiting? || p.state.InProgress? }

  predicate IsPending(p: CheckPair) { p.state.Frozen? || IsActive(p) }

  predicate IsInFlight(p: CheckPair) { p.state.InProgress? }

  predicate AnyActive(ps: seq<CheckPair>) { exists i :: 0 <= i < |ps| && IsActive(ps[i]) }

  predicate AnyPending(ps: seq<CheckPair>) { exists i :: 0 <= i < |ps| && IsPending(ps[i]) }

  predicate AnyValid(ps: seq<CheckPair>) { exists i :: 0 <= i < |ps| && ps[i].valid }

  function StuckStep(l: Labelling, i: nat): (r: Labelling)
  {
    if i >= |l.pairs| || !l.pairs[i].state.Frozen? || Key(l.pairs[i]) in l.seen then l
    else Labelling(l.pairs[i := l.pairs[i].(state := Waiting)], l.seen + {Key(l.pairs[i])})
  }

  function UnfreezeStuck(ps: seq<CheckPair>): (r: seq<CheckPair>)
  {
    if AnyActive(ps) then ps else Sweep(Labelling(ps, {}), 0, |ps|, StuckStep).pairs
  }

  // ---- Sending and scheduling ----

  function BaseRto(cfg: Config): (us: nat)
  {
    cfg.intervalMs * 5 * 1000
  }

  /** The base timeout shifted left. */
  function Rto(cfg: Config, shift: nat): (us: nat)
  {
    if shift == 0 then BaseRto(cfg) else 2 * Rto(cfg, shift - 1)
  }

  function SendCheck(cfg: Config, c: Checks, i: nat, now: nat): (r: Checks)
    requires i < |c.pairs|
    ensures |r.pairs| == |c.pairs|
  {
    var p := c.pairs[i];
    if p.retries >= cfg.maxRetries then c.(pairs := Complete(c.pairs, i, p.(state := Failed)))
    else Checks(c.pairs[i := p.(retries := p.retries + 1, sentAt := now)], c.sent + 1)
  }

  /** The wait after the last send that run_next_check grants before it acts on an in-progress pair again. */
  function Patience(cfg: Config, retries: nat): (us: nat)
  {
    if retries >= cfg.maxRetries then Rto(cfg, cfg.maxRetries - 1) else Rto(cfg, Min(retries, 5))
  }

  predicate Resting(cfg: Config, p: CheckPair, now: nat) {
    p.sentAt != 0 && now - p.sentAt < Patience(cfg, p.retries)
  }

  function RetransmitAt(cfg: Config, c: Checks, i: nat, now: nat): (r: Checks)
    requires i < |c.pairs|
    ensures |r.pairs| == |c.pairs|
  {
    var p := c.pairs[i];
    if !p.state.InProgress? || Resting(cfg, p, now) then c
    else if p.retries >= cfg.maxRetries then c.(pairs := Complete(c.pairs, i, p.(state := Failed)))
    else SendCheck(cfg, c, i, now)
  }

  function RetransmitStep(cfg: Config, now: nat): (Checks, nat) -> Checks
  {
    (c: Checks, i: nat) => if i < |c.pairs| then RetransmitAt(cfg, c, i, now) else c
  }

  function Retransmit(cfg: Config, c: Checks, now: nat): (r: Checks)
  {
    Sweep(c, 0, |c.pairs|, RetransmitStep(cfg, now))
  }

  function Start(cfg: Config, c: Checks, i: nat, now: nat): (r: Checks)
    requires i < |c.pairs|
    ensures |r.pairs| == |c.pairs|
  {
    SendCheck(cfg, c.(pairs := c.pairs[i := c.pairs[i].(state := InProgress)]), i, now)
  }

  predicate AtCap(ps: seq<CheckPair>) { Count(ps, IsInFlight) >= CAP }

  function PromoteAt(cfg: Config, c: Checks, i: nat, now: nat): (r: Checks)
    requires i < |c.pairs|
  {
    if !AtCap(c.pairs) && c.pairs[i].state.Waiting? && c.pairs[i].retries < cfg.maxRetries then Start(cfg, c, i, now)
    else c
  }

  function PromoteStep(cfg: Config, now: nat): (Checks, nat) -> Checks
  {
    (c: Checks, i: nat) => if i < |c.pairs| then PromoteAt(cfg, c, i, now) else c
  }

  /** Waiting pairs start in order until the cap is reached; leaving the loop early then changes nothing. */
  function Promote(cfg: Config, c: Checks, now: nat): (r: Checks)
  {
    Sweep(c, 0, |c.pairs|, PromoteStep(cfg, now))
  }

  /** Happy eyeballs in progress: which address families have been tried. */
  datatype Prefiring = Prefiring(checks: Checks, v4: bool, v6: bool)

  function PrefireAt(cfg: Config, f: Prefiring, i: nat, now: nat): (r: Prefiring)
    requires i < |f.checks.pairs|
  {
    var p := f.checks.pairs[i];
    if !p.state.Waiting? then f
    else if p.local.family == IPV4 && !f.v4 then Prefiring(Start(cfg, f.checks, i, now), true, f.v6)
    else if p.local.family == IPV6 && !f.v6 then Prefiring(Start(cfg, f.checks, i, now), f.v4, true)
    else f
  }

  function PrefireStep(cfg: Config, now: nat): (Prefiring, nat) -> Prefiring
  {
    (f: Prefiring, i: nat) => if i < |f.checks.pairs| then PrefireAt(cfg, f, i, now) else f
  }

  /** Happy eyeballs: the first waiting pair of each address family starts. */
  function Prefire(cfg: Config, c: Checks, now: nat): (r: Checks)
  {
    Sweep(Prefiring(c, false, false), 0, |c.pairs|, PrefireStep(cfg, now)).checks
  }

  /** The first pair with this transaction id, as the response handlers find it. */
  function FindTxn(ps: seq<CheckPair>, txn: TxnId, i: nat): (r: Option<nat>)
    requires i <= |ps|
    ensures r.Some? ==> i <= r.value < |ps| && ps[r.value].txn == txn
                        && forall j :: i <= j < r.value ==> ps[j].txn != txn
    ensures r.None? ==> forall j :: i <= j < |ps| ==> ps[j].txn != txn
    decreases |ps| - i
  {
    if i == |ps| then None else if ps[i].txn == txn then Some(i) else FindTxn(ps, txn, i + 1)
  }

  /** The first pair to this endpoint over this transport. */
  function FindEndpoint(ps: seq<CheckPair>, e: Endpoint, transport: byte, i: nat): (r: Option<nat>)
    requires i <= |ps|
    ensures r.Some? ==> i <= r.value < |ps| && EndpointOf(ps[r.value].remote) == e
                        && ps[r.value].transport == transport
    decreases |ps| - i
  {
    if i == |ps| then None
    else if EndpointOf(ps[i].remote) == e && ps[i].transport == transport then Some(i)
    else FindEndpoint(ps, e, transport, i + 1)
  }

  predicate Covers(ps: seq<CheckPair>, e: Endpoint) {
    exists i :: 0 <= i < |ps| && EndpointOf(ps[i].remote) == e
  }

  /** The valid pair of highest priority, the earliest of equals: the nominee a regular controller picks. */
  function BestValid(ps: seq<CheckPair>, i: nat, best: Option<nat>): (r: Option<nat>)
    requires i <= |ps|
    requires best.Some? ==> best.value < i && ps[best.value].valid
                            && forall j :: 0 <= j < i && ps[j].valid ==> ps[j].priority <= ps[best.value].priority
    requires best.None? ==> forall j :: 0 <= j < i ==> !ps[j].valid
    ensures r.Some? ==> r.value < |ps| && ps[r.value].valid
                        && forall j :: 0 <= j < |ps| && ps[j].valid ==> ps[j].priority <= ps[r.value].priority
    ensures r.None? ==> forall j :: 0 <= j < |ps| ==> !ps[j].valid
    decreases |ps| - i
  {
    if i == |ps| then best
    else if ps[i].valid && (best.None? || ps[i].priority > ps[best.value].priority) then BestValid(ps, i + 1, Some(i))
    else BestValid(ps, i + 1, best)
  }

  function TcpTimeoutAt(c: Checks, e: Endpoint, i: nat): (r: Checks)
    requires i < |c.pairs|
  {
    var p := c.pairs[i];
    if p.state.InProgress? && IsTcp(p.transport) && EndpointOf(p.remote) == e then
      c.(pairs := Complete(c.pairs, i, p.(state := Failed)))
    else c
  }

  function TcpTimeoutStep(e: Endpoint): (Checks, nat) -> Checks
  {
    (c: Checks, i: nat) => if i < |c.pairs| then TcpTimeoutAt(c, e, i) else c
  }

  /** Every in-progress TCP pair to the endpoint fails, and its siblings thaw. */
  function TcpTimeout(c: Checks, e: Endpoint): (r: Checks)
  {
    Sweep(c, 0, |c.pairs|, TcpTimeoutStep(e))
  }
}
