/**
 * The session state machine: what every handler that runs on the session's strand does to the state. A handler is one
 * atomic step. Random transaction ids, the order among pairs of equal priority and the verdict of the auto-restart
 * budget are the step's free choices.
 */
module Session {
  import opened Bytes
  import opened Sequences
  import opened Candidates
  import opened CheckList
  import opened CheckListLaws

  datatype Phase = New | Gathering | WaitingRemote | Checking | Connected | Failed

  datatype Nomination = Nomination(endpoint: Endpoint, transport: byte)

  /** The empty address string. */
  const NOWHERE: Address := Named([])
  const NO_NOMINATION: Nomination := Nomination(Endpoint(NOWHERE, 0), UDP)

  /** A nominee when it was chosen: the list then, and its place in it. */
  datatype Nominee = Nominee(pairs: seq<CheckPair>, index: nat)

  /** A binding response: the transaction id it carries and the pair it matched. */
  datatype Answer = Answer(pair: nat, txn: TxnId)

  /**
   * One on_connected callback: the role, list and nominees at that moment, and the answer that caused it, if one did.
   */
  datatype Connect = Connect(controlling: bool, nomination: Nomination, pairs: seq<CheckPair>, answer: Option<Answer>,
                             nominees: seq<Nominee>)

  /** nominee_selected_, with the nominees chosen since the last restart and the callbacks fired so far. */
  datatype History = History(nomineeSelected: bool, nominees: seq<Nominee>, connects: seq<Connect>)

  /** A generation counter and the generations of the timers still to fire, for checks and for the nomination wait. */
  datatype Timers = Timers(checkGen: nat, checks: set<nat>, waitGen: nat, waits: set<nat>, waitArmed: bool)

  datatype Session = Session(
    phase: Phase, controlling: bool, checks: Checks, locals: seq<Candidate>, remotes: seq<Candidate>,
    history: History, timers: Timers, pending: Nomination, nominated: Nomination,
    consentMissed: nat, recoveries: nat, peerSymmetric: bool, ownStride: u16)

  /** How the budget of automatic restarts answers a loss of consent. */
  datatype Loss = LossRestarts | LossCoalesces | LossFails

  datatype Choices = Choices(build: Builder, rebuild: Builder, txn: TxnId, loss: Loss)

  function Initial(cfg: Config, controlling: bool): (s: Session)
  {
    Session(New, if cfg.lite then false else controlling, Checks([], 0), [], [], History(false, [], []),
            Timers(0, {}, 0, {}, false), NO_NOMINATION, NO_NOMINATION, 0, 0, false, 0)
  }

  // ---- Rebuilding ----

  function Stride(cfg: Config, s: Session): (r: u16)
  {
    if !s.peerSymmetric || !cfg.prediction then 0 else if s.ownStride != 0 then s.ownStride else 1
  }

  function SidesOf(cfg: Config, s: Session): (r: Sides)
  {
    Sides(s.locals, s.remotes, s.controlling, Stride(cfg, s))
  }

  /** One way for builds to come out, for every input of a build. */
  type Builder = Sides -> seq<CheckPair>

  ghost predicate Outcome(cfg: Config, b: Builder, from: Sides) { IsBuilt(cfg, from, b(from)) }

  ghost predicate Builds(cfg: Config, b: Builder) { forall from :: Outcome(cfg, b, from) }

  ghost predicate Sound(cfg: Config, ch: Choices) { Builds(cfg, ch.build) && Builds(cfg, ch.rebuild) }

  function Rebuild(cfg: Config, s: Session, b: Builder): (r: Session)
  {
    s.(checks := Checks(b(SidesOf(cfg, s)), 0),
       locals := StampAll(cfg.hash, s.locals), remotes := StampAll(cfg.hash, s.remotes))
  }

  // ---- Scheduling ----

  function ArmCheck(cfg: Config, t: Timers): (r: Timers)
  {
    if cfg.timers then t.(checkGen := t.checkGen + 1, checks := t.checks + {t.checkGen + 1}) else t
  }

  function ArmWait(cfg: Config, t: Timers): (r: Timers)
  {
    if cfg.timers then t.(waitArmed := true, waitGen := t.waitGen + 1, waits := t.waits + {t.waitGen + 1})
    else t.(waitArmed := true)
  }

  /** Both counters move on, so that no timer armed before is the current one. */
  function Cancelled(t: Timers): (r: Timers)
  {
    t.(checkGen := t.checkGen + 1, waitGen := t.waitGen + 1, waitArmed := false)
  }

  /** Pass one of a tick, after the rescue of stuck pairs. */
  function Walked(cfg: Config, c: Checks, now: nat): (r: Checks)
  {
    Retransmit(cfg, c.(pairs := UnfreezeStuck(c.pairs)), now)
  }

  function RunNextCheck(cfg: Config, s: Session, now: nat): (r: Session)
  {
    if s.phase != Checking then s
    else
      var walked := Walked(cfg, s.checks, now);
      var checks := Promote(cfg, walked, now);
      if AnyPending(walked.pairs) then s.(checks := checks, timers := ArmCheck(cfg, s.timers))
      else if !s.controlling && !s.timers.waitArmed && cfg.nominationWaitMs > 0 && AnyValid(checks.pairs) then
        s.(checks := checks, timers := ArmWait(cfg, s.timers))
      else s.(checks := checks, phase := Phase.Failed)
  }

  function BeginChecks(cfg: Config, s: Session, now: nat): (r: Session)
  {
    if cfg.lite then s else RunNextCheck(cfg, s.(checks := Prefire(cfg, s.checks, now)), now)
  }

  function EnterChecking(cfg: Config, s: Session, b: Builder, now: nat): (r: Session)
  {
    BeginChecks(cfg, Rebuild(cfg, s.(phase := Checking), b), now)
  }

  function RebuildAndRun(cfg: Config, s: Session, b: Builder, now: nat): (r: Session)
  {
    RunNextCheck(cfg, Rebuild(cfg, s, b), now)
  }

  // ---- Restart, close, consent, nomination ----

  function Restart(s: Session): (r: Session)
  {
    if s.phase == Phase.Failed then s
    else
      s.(phase := Gathering, checks := Checks([], 0), locals := [], remotes := [],
         history := s.history.(nomineeSelected := false, nominees := []), timers := Cancelled(s.timers),
         nominated := NO_NOMINATION.(transport := s.nominated.transport), consentMissed := 0, recoveries := 0,
         peerSymmetric := false, ownStride := 0)
  }

  function Close(s: Session): (r: Session)
  {
    s.(phase := Phase.Failed, timers := Cancelled(s.timers))
  }

  /** Consent lost with the recovery budget spent. */
  function ConsentLost(s: Session, loss: Loss): (r: Session)
  {
    match loss
    case LossRestarts => Restart(s)
    case LossCoalesces => s.(consentMissed := 0)
    case LossFails => s.(consentMissed := s.consentMissed + 1, phase := Phase.Failed)
  }

  /** Consent lost: check again, within the recovery budget. Checking does not touch the two counters. */
  function Recover(cfg: Config, s: Session, b: Builder, now: nat): (r: Session)
  {
    EnterChecking(cfg, s, b, now).(consentMissed := 0, recoveries := s.recoveries + 1)
  }

  function Keepalive(cfg: Config, s: Session, b: Builder, loss: Loss, now: nat): (r: Session)
  {
    if s.phase != Connected || cfg.lite then s
    else if s.consentMissed + 1 < cfg.consentMaxFailures then s.(consentMissed := s.consentMissed + 1)
    else if s.recoveries < cfg.consentMaxRecovery then Recover(cfg, s, b, now)
    else ConsentLost(s, loss)
  }

  /** The state at the moment on_connected fires. */
  function Connecting(s: Session, nomination: Nomination, answer: Option<Answer>): (r: Session)
  {
    var connect := Connect(s.controlling, nomination, s.checks.pairs, answer, s.history.nominees);
    s.(phase := Connected, timers := Cancelled(s.timers), consentMissed := 0, recoveries := 0, nominated := nomination,
       history := s.history.(connects := s.history.connects + [connect]))
  }

  /** Nomination ends by sending the first keepalive, which already counts as one missed answer. */
  function OnNominated(cfg: Config, s: Session, nomination: Nomination, answer: Option<Answer>, ch: Choices, now: nat):
    (r: Session)
  {
    Keepalive(cfg, Connecting(s, nomination, answer), ch.rebuild, ch.loss, now)
  }

  /** A regular controller commits to the best valid pair and sends it the nominating check. */
  function SelectNominee(cfg: Config, s: Session, now: nat): (r: Session)
  {
    match BestValid(s.checks.pairs, 0, None)
    case None => s
    case Some(i) =>
      var pairs := s.checks.pairs[i := s.checks.pairs[i].(nomineeSent := true)];
      s.(history := s.history.(nomineeSelected := true, nominees := s.history.nominees + [Nominee(s.checks.pairs, i)]),
         checks := SendCheck(cfg, s.checks.(pairs := pairs), i, now))
  }

  // ---- Timers ----

  function FireCheck(cfg: Config, s: Session, gen: nat, now: nat): (r: Session)
  {
    var t := s.(timers := s.timers.(checks := s.timers.checks - {gen}));
    if gen != s.timers.checkGen then t else RunNextCheck(cfg, t, now)
  }

  function FireWait(s: Session, gen: nat): (r: Session)
  {
    var t := s.(timers := s.timers.(waits := s.timers.waits - {gen}));
    if gen != s.timers.waitGen || s.phase == Connected then t else t.(phase := Phase.Failed)
  }

  // ---- Signalling ----

  predicate SameCandidate(a: Candidate, b: Candidate) {
    EndpointOf(a) == EndpointOf(b) && a.kind == b.kind && a.transport == b.transport
  }

  function Merge(remotes: seq<Candidate>, cands: seq<Candidate>): (r: seq<Candidate>)
    decreases |cands|
  {
    if cands == [] then remotes
    else
      var c := cands[0];
      var known := exists i :: 0 <= i < |remotes| && SameCandidate(remotes[i], c);
      Merge(if known then remotes else remotes + [c], cands[1..])
  }

  predicate AwaitsRemote(s: Session) { s.phase == WaitingRemote || s.phase == Gathering }

  function SetRemote(cfg: Config, s: Session, cands: seq<Candidate>, ch: Choices, now: nat): (r: Session)
  {
    var t := s.(remotes := cands);
    if AwaitsRemote(t) && t.locals != [] then EnterChecking(cfg, t, ch.build, now) else t
  }

  /** New credentials mean the peer restarted: its candidates and the list go. */
  function DropRemote(s: Session, newCredentials: bool): (r: Session)
  {
    if newCredentials then s.(remotes := [], checks := Checks([], 0)) else s
  }

  /** The end of candidates lets a regular controller commit at once. */
  function EndOfCandidates(cfg: Config, s: Session, ended: bool, now: nat): (r: Session)
  {
    if ended && s.controlling && !cfg.aggressive && !s.history.nomineeSelected then SelectNominee(cfg, s, now) else s
  }

  /** Changed remote candidates start the checks of an agent that waited for them, and restart running ones. */
  function Recheck(cfg: Config, s: Session, ch: Choices, now: nat): (r: Session)
  {
    if AwaitsRemote(s) then (if s.locals != [] then EnterChecking(cfg, s, ch.build, now) else s)
    else if s.phase == Checking then RebuildAndRun(cfg, s, ch.build, now)
    else s
  }

  function AddRemote(cfg: Config, s: Session, newCredentials: bool, cands: seq<Candidate>, ended: bool, ch: Choices,
                     now: nat): (r: Session)
  {
    var u := EndOfCandidates(cfg, DropRemote(s, newCredentials), ended, now);
    var t := u.(remotes := Merge(u.remotes, cands));
    if t.remotes == [] then t else Recheck(cfg, t, ch, now)
  }

  function PeerFlags(cfg: Config, s: Session, symmetric: bool, ch: Choices, now: nat): (r: Session)
  {
    var t := s.(peerSymmetric := symmetric);
    if symmetric != s.peerSymmetric && t.phase == Checking && t.remotes != [] && t.locals != [] then
      RebuildAndRun(cfg, t, ch.build, now)
    else t
  }

  /** The remote candidate a multicast DNS query was for is still in its place. */
  predicate AskedFor(remotes: seq<Candidate>, slot: nat, name: seq<byte>) {
    slot < |remotes| && remotes[slot].kind == HOST_MDNS && remotes[slot].hostname == name
  }

  /** The first address found goes into the candidate's place, the others become candidates of their own. */
  function Rewritten(remotes: seq<Candidate>, slot: nat, name: seq<byte>, found: seq<Address>): (r: seq<Candidate>)
  {
    if !AskedFor(remotes, slot, name) then remotes
    else
      var c := remotes[slot].(kind := HOST, hostname := []);
      if found == [] then remotes[slot := c]
      else
        var first := WithAddress(c, found[0]).(priority := ComputePriority(HOST, 65535, 1));
        remotes[slot := first] + HostsAt(found[1..], c.port)
  }

  /** A multicast DNS answer rewrites the remote candidates; only a useful one restarts the checks. */
  function Resolved(cfg: Config, s: Session, remotes: seq<Candidate>, useful: bool, ch: Choices, now: nat): (r: Session)
  {
    if s.phase == Phase.Failed then s
    else
      var t := s.(remotes := remotes);
      if useful then Recheck(cfg, t, ch, now) else t
  }

  function GatherComplete(cfg: Config, s: Session, ch: Choices, now: nat): (r: Session)
  {
    if s.phase != Gathering then s
    else if s.remotes != [] then EnterChecking(cfg, s, ch.build, now)
    else s.(phase := WaitingRemote)
  }

  /** A relay candidate arrived: fold it in. */
  function Refold(cfg: Config, s: Session, ch: Choices, now: nat): (r: Session)
  {
    if s.remotes != [] && s.phase == Checking then RebuildAndRun(cfg, s, ch.build, now) else s
  }

  /** The failed relay's candidates go, and the new one's comes if the filter lets it. */
  function SwapRelay(locals: seq<Candidate>, relay: Endpoint, allowed: bool): (r: seq<Candidate>)
  {
    WithoutRelays(locals) + if allowed then [CandidateAt(RELAY, relay.address, relay.port)] else []
  }

  /** A backup relay takes over: a connected session goes back to checking. */
  function Failover(cfg: Config, s: Session, ch: Choices, now: nat): (r: Session)
  {
    if s.remotes != [] && s.phase == Checking then RebuildAndRun(cfg, s, ch.build, now)
    else if s.phase == Connected then RebuildAndRun(cfg, s.(phase := Checking), ch.build, now)
    else s
  }

  // ---- Answers ----

  /** A peer-reflexive candidate at an endpoint; an address that is neither IPv4 nor IPv6 leaves the zero address. */
  function Reflexive(e: Endpoint): (c: Candidate)
    ensures c.foundation == "" && (IsIp(e.address) ==> EndpointOf(c) == e)
  {
    CandidateAt(PRFLX, e.address, e.port)
  }

  /** Pair i has its answer: it is valid and Succeeded, its siblings thaw, a new mapped address becomes a candidate. */
  function Succeed(s: Session, i: nat, mapped: Option<Endpoint>): (r: Session)
    requires i < |s.checks.pairs|
  {
    var p := s.checks.pairs[i];
    var discovered := mapped.Some? && mapped.value != EndpointOf(p.local);
    s.(checks := s.checks.(pairs := Complete(s.checks.pairs, i, p.(valid := true, state := Succeeded))),
       locals := if discovered then s.locals + [Reflexive(mapped.value)] else s.locals)
  }

  function CheckResponse(cfg: Config, s: Session, txn: TxnId, mapped: Option<Endpoint>, ch: Choices, now: nat):
    (r: Session)
  {
    var found := FindTxn(s.checks.pairs, txn, 0);
    if s.phase != Checking || found.None? then s
    else
      var i := found.value;
      var p := s.checks.pairs[i];
      var t := Succeed(s, i, mapped);
      if !s.controlling && p.pendingNomination then
        var pairs := t.checks.pairs[i := t.checks.pairs[i].(pendingNomination := false)];
        OnNominated(cfg, t.(checks := t.checks.(pairs := pairs)), s.pending, Some(Answer(i, txn)), ch, now)
      else if s.controlling && (cfg.aggressive || p.nomineeSent) then
        OnNominated(cfg, t, Nomination(EndpointOf(p.remote), p.transport), Some(Answer(i, txn)), ch, now)
      else if s.controlling && !s.history.nomineeSelected && !p.valid then SelectNominee(cfg, t, now)
      else t
  }

  /** A binding response: consent to a path-MTU probe or while connected, otherwise the answer to a check. */
  function Response(cfg: Config, s: Session, txn: TxnId, mapped: Option<Endpoint>, probe: bool, ch: Choices, now: nat):
    (r: Session)
  {
    if probe || s.phase == Connected then s.(consentMissed := 0) else CheckResponse(cfg, s, txn, mapped, ch, now)
  }

  /** The other role, and a list whose priorities reflect it. A 487 does this unconditionally. */
  function FlipRole(cfg: Config, s: Session, ch: Choices, now: nat): (r: Session)
  {
    var t := s.(controlling := !s.controlling);
    if t.phase == Checking && t.locals != [] && t.remotes != [] then RebuildAndRun(cfg, t, ch.build, now) else t
  }

  function ErrorResponse(s: Session, txn: TxnId): (r: Session)
  {
    match FindTxn(s.checks.pairs, txn, 0)
    case None => s
    case Some(i) =>
      s.(checks := s.checks.(pairs := Complete(s.checks.pairs, i, s.checks.pairs[i].(state := PairState.Failed))))
  }

  // ---- Requests ----

  /** The role attributes of a request, each with its tie-breaker. */
  datatype Claim = Claim(controlling: Option<u64>, controlled: Option<u64>)

  predicate SameRole(s: Session, claim: Claim) {
    (claim.controlling.Some? && s.controlling) || (claim.controlled.Some? && !s.controlling)
  }

  function ClaimedTieBreaker(claim: Claim): (r: u64)
  {
    match (claim.controlling, claim.controlled)
    case (Some(tb), _) => tb
    case (None, Some(tb)) => tb
    case (None, None) => 0
  }

  /** We switch exactly when the sender holds the larger tie-breaker. */
  predicate Yields(s: Session, claim: Claim, tieBreaker: u64) {
    claim.controlling.Some? == s.controlling && tieBreaker < ClaimedTieBreaker(claim)
  }

  /** A nomination whose pair is not verified yet, or not there yet, waits; the pair is thawed for checking. */
  function Defer(cfg: Config, s: Session, nomination: Nomination, found: Option<nat>, now: nat): (r: Session)
    requires found.Some? ==> found.value < |s.checks.pairs|
  {
    match found
    case None => RunNextCheck(cfg, s.(pending := nomination), now)
    case Some(i) =>
      var p := s.checks.pairs[i];
      var q := p.(state := if p.state == Frozen then Waiting else p.state, pendingNomination := true);
      RunNextCheck(cfg, s.(pending := nomination, checks := s.checks.(pairs := s.checks.pairs[i := q])), now)
  }

  function UseCandidate(cfg: Config, s: Session, peer: Endpoint, fromTcp: bool, ch: Choices, now: nat): (r: Session)
  {
    var nomination := Nomination(peer, if fromTcp then TCP_ACTIVE else UDP);
    var found := FindEndpoint(s.checks.pairs, peer, nomination.transport, 0);
    if s.controlling || peer.address == NOWHERE then s
    else if found.Some? && s.checks.pairs[found.value].state == Succeeded then
      OnNominated(cfg, s, nomination, None, ch, now)
    else Defer(cfg, s, nomination, found, now)
  }

  /** The pair a triggered check mints for an endpoint no pair covers, if a local candidate has its family. */
  function TriggeredPair(cfg: Config, s: Session, peer: Endpoint, txn: TxnId): (r: Option<CheckPair>)
  {
    var remote := Reflexive(peer);
    var i := FindFamily(s.locals, remote.family, 0);
    if i.None? then None
    else
      var local := s.locals[i.value];
      Some(CheckPair(Stamped(cfg.hash, local), Stamped(cfg.hash, remote),
                     PairPriority(local.priority, remote.priority, s.controlling), 0, InProgress, false, false, true,
                     !s.controlling && s.pending.endpoint.address != NOWHERE
                     && EndpointOf(remote) == s.pending.endpoint,
                     txn, 0, UDP))
  }

  function FindFamily(cs: seq<Candidate>, family: byte, i: nat): (r: Option<nat>)
    requires i <= |cs|
    ensures r.Some? ==> i <= r.value < |cs| && cs[r.value].family == family
    decreases |cs| - i
  {
    if i == |cs| then None else if cs[i].family == family then Some(i) else FindFamily(cs, family, i + 1)
  }

  function Trigger(cfg: Config, s: Session, peer: Endpoint, txn: TxnId, now: nat): (r: Session)
  {
    var minted := TriggeredPair(cfg, s, peer, txn);
    if peer.address == NOWHERE || s.locals == [] || cfg.lite || Covers(s.checks.pairs, peer) || minted.None? then s
    else
      var c := s.checks.(pairs := s.checks.pairs + [minted.value]);
      s.(checks := if s.phase == Checking || s.phase == Connected then SendCheck(cfg, c, |s.checks.pairs|, now) else c)
  }

  /** The rest of a request, once the roles agree: USE-CANDIDATE, then the triggered check. */
  function Finish(cfg: Config, s: Session, useCandidate: bool, peer: Endpoint, fromTcp: bool, ch: Choices, now: nat):
    (r: Session)
  {
    Trigger(cfg, if useCandidate then UseCandidate(cfg, s, peer, fromTcp, ch, now) else s, peer, ch.txn, now)
  }

  /** A binding request. Winning the role conflict ends it with a 487. */
  function Request(cfg: Config, s: Session, tieBreaker: u64, claim: Claim, useCandidate: bool, peer: Endpoint,
                   fromTcp: bool, ch: Choices, now: nat): (r: Session)
  {
    if !SameRole(s, claim) then Finish(cfg, s, useCandidate, peer, fromTcp, ch, now)
    else if Yields(s, claim, tieBreaker) then
      Finish(cfg, FlipRole(cfg, s, ch, now), useCandidate, peer, fromTcp, ch, now)
    else s
  }

  // ---- Runs ----

  datatype Event =
    | CheckTimer(gen: nat)
    | WaitTimer(gen: nat)
    | KeepaliveTimer
    | SignalSetRemote(cands: seq<Candidate>)
    | SignalAddRemote(newCredentials: bool, cands: seq<Candidate>, ended: bool)
    | SignalFlags(symmetric: bool)
    | MdnsAnswer(slot: nat, name: seq<byte>, found: seq<Address>)
    | LocalsChanged(locals: seq<Candidate>, stride: u16)
    | GatheringDone
    | RelayReady
    | RelayFailover(relay: Endpoint, allowed: bool)
    | GatherCalled
    | RestartCalled
    | CloseCalled
    | GotResponse(txn: TxnId, mapped: Option<Endpoint>, probe: bool)
    | GotRoleConflict
    | GotError(txn: TxnId)
    | GotRequest(claim: Claim, useCandidate: bool, peer: Endpoint, fromTcp: bool)
    | TcpConnectTimeout(peer: Endpoint)

  function Step(cfg: Config, tieBreaker: u64, s: Session, e: Event, ch: Choices, now: nat): (r: Session)
  {
    match e
    case CheckTimer(gen) => FireCheck(cfg, s, gen, now)
    case WaitTimer(gen) => FireWait(s, gen)
    case KeepaliveTimer => Keepalive(cfg, s, ch.rebuild, ch.loss, now)
    case SignalSetRemote(cands) => SetRemote(cfg, s, cands, ch, now)
    case SignalAddRemote(newCredentials, cands, ended) => AddRemote(cfg, s, newCredentials, cands, ended, ch, now)
    case SignalFlags(symmetric) => PeerFlags(cfg, s, symmetric, ch, now)
    case MdnsAnswer(slot, name, found) =>
      Resolved(cfg, s, Rewritten(s.remotes, slot, name, found), AskedFor(s.remotes, slot, name) && found != [], ch, now)
    case LocalsChanged(locals, stride) => s.(locals := locals, ownStride := stride)
    case GatheringDone => GatherComplete(cfg, s, ch, now)
    case RelayReady => Refold(cfg, s, ch, now)
    case RelayFailover(relay, allowed) => Failover(cfg, s.(locals := SwapRelay(s.locals, relay, allowed)), ch, now)
    case GatherCalled => s.(phase := Gathering)
    case RestartCalled => Restart(s)
    case CloseCalled => Close(s)
    case GotResponse(txn, mapped, probe) => Response(cfg, s, txn, mapped, probe, ch, now)
    case GotRoleConflict => FlipRole(cfg, s, ch, now)
    case GotError(txn) => ErrorResponse(s, txn)
    case GotRequest(claim, useCandidate, peer, fromTcp) =>
      Request(cfg, s, tieBreaker, claim, useCandidate, peer, fromTcp, ch, now)
    case TcpConnectTimeout(peer) => s.(checks := TcpTimeout(s.checks, peer))
  }

  datatype Input = Input(event: Event, choices: Choices, now: nat)

  /** The state after a run of inputs from the initial state. */
  function After(cfg: Config, tieBreaker: u64, controlling: bool, inputs: seq<Input>): (s: Session)
  {
    if inputs == [] then Initial(cfg, controlling)
    else
      var i := inputs[|inputs| - 1];
      Step(cfg, tieBreaker, After(cfg, tieBreaker, controlling, inputs[..|inputs| - 1]), i.event, i.choices, i.now)
  }
}
