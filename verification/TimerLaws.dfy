/**
 * Stale timers: a timer acts only while its generation is the current one, and a nomination, a restart or a close
 * leaves every timer armed before it behind for good.
 */
module TimerLaws {
  import opened Bytes
  import opened Candidates
  import opened CheckList
  import opened Session
  import opened SessionLaws

  /** Every timer still to fire was armed under a generation the counters have reached. */
  predicate Armed(t: Timers) {
    (forall g :: g in t.checks ==> g <= t.checkGen) && (forall g :: g in t.waits ==> g <= t.waitGen)
  }

  /** What time does to timers: counters never go back, and new timers get generations of their own. */
  predicate Later(t: Timers, u: Timers) {
    && t.checkGen <= u.checkGen && t.waitGen <= u.waitGen
    && (forall g :: g in u.checks ==> g in t.checks || t.checkGen < g <= u.checkGen)
    && (forall g :: g in u.waits ==> g in t.waits || t.waitGen < g <= u.waitGen)
  }

  /** Every generation there was is left behind. */
  predicate Outdated(t: Timers, u: Timers) { t.checkGen < u.checkGen && t.waitGen < u.waitGen }

  /** A handler that connects the session, or takes it back to gathering, leaves all timers behind. */
  predicate Moves(s: Session, r: Session) {
    && Later(s.timers, r.timers)
    && |s.history.connects| <= |r.history.connects|
    && (|s.history.connects| < |r.history.connects| ==> Outdated(s.timers, r.timers))
    && (r.phase == Gathering ==> s.phase == Gathering || Outdated(s.timers, r.timers))
  }

  lemma LaterArmed(t: Timers, u: Timers)
    requires Armed(t) && Later(t, u)
    ensures Armed(u)
  {
  }

  lemma LaterTransitive(t: Timers, u: Timers, v: Timers)
    requires Later(t, u) && Later(u, v)
    ensures Later(t, v)
  {
  }

  lemma MovesTransitive(s: Session, t: Session, r: Session)
    requires Moves(s, t) && Moves(t, r)
    ensures Moves(s, r)
  {
    LaterTransitive(s.timers, t.timers, r.timers);
  }

  /** Once the counters have moved on, nothing that was pending is live. */
  lemma CancelledIsDead(t: Timers)
    requires Armed(t)
    ensures Armed(Cancelled(t)) && !Live(Cancelled(t)) && Outdated(t, Cancelled(t))
  {
  }

  /** So a nomination, a restart and a close leave no timer that will act. */
  lemma NothingLive(s: Session, n: Nomination, answer: Option<Answer>)
    requires Armed(s.timers)
    ensures !Live(Connecting(s, n, answer).timers) && !Live(Close(s).timers)
    ensures s.phase != Phase.Failed ==> !Live(Restart(s).timers)
  {
    CancelledIsDead(s.timers);
  }

  // ---- Every handler ----

  lemma RunMoves(cfg: Config, s: Session, now: nat)
    ensures Moves(s, RunNextCheck(cfg, s, now))
    ensures s.phase == Checking ==> RunNextCheck(cfg, s, now).phase != Gathering
  {
  }

  lemma CheckingMoves(cfg: Config, s: Session, b: Builder, now: nat)
    ensures Moves(s, EnterChecking(cfg, s, b, now))
    ensures Moves(s, RebuildAndRun(cfg, s, b, now))
  {
    var t := Rebuild(cfg, s.(phase := Checking), b);
    RunMoves(cfg, t.(checks := Prefire(cfg, t.checks, now)), now);
    RunMoves(cfg, Rebuild(cfg, s, b), now);
  }

  lemma RecoverMoves(cfg: Config, s: Session, b: Builder, now: nat)
    ensures Moves(s, Recover(cfg, s, b, now))
  {
    CheckingMoves(cfg, s, b, now);
  }

  lemma ConsentLostMoves(s: Session, loss: Loss)
    ensures Moves(s, ConsentLost(s, loss))
  {
  }

  lemma KeepaliveMoves(cfg: Config, s: Session, b: Builder, loss: Loss, now: nat)
    ensures Moves(s, Keepalive(cfg, s, b, loss, now))
  {
    RecoverMoves(cfg, s, b, now);
    ConsentLostMoves(s, loss);
  }

  lemma ConnectingMoves(s: Session, n: Nomination, answer: Option<Answer>)
    ensures Moves(s, Connecting(s, n, answer))
  {
  }

  lemma OnNominatedMoves(cfg: Config, s: Session, n: Nomination, answer: Option<Answer>, ch: Choices, now: nat)
    ensures Moves(s, OnNominated(cfg, s, n, answer, ch, now))
  {
    var t := Connecting(s, n, answer);
    ConnectingMoves(s, n, answer);
    KeepaliveMoves(cfg, t, ch.rebuild, ch.loss, now);
    MovesTransitive(s, t, Keepalive(cfg, t, ch.rebuild, ch.loss, now));
  }

  lemma SelectMoves(cfg: Config, s: Session, now: nat)
    ensures Moves(s, SelectNominee(cfg, s, now))
  {
  }

  lemma AnswerMoves(cfg: Config, s: Session, i: nat, txn: TxnId, mapped: Option<Endpoint>, ch: Choices, now: nat)
    requires i < |s.checks.pairs| && s.phase == Checking && FindTxn(s.checks.pairs, txn, 0) == Some(i)
    ensures Moves(s, CheckResponse(cfg, s, txn, mapped, ch, now))
  {
    var p, t := s.checks.pairs[i], Succeed(s, i, mapped);
    if !s.controlling && p.pendingNomination {
      var pairs := t.checks.pairs[i := t.checks.pairs[i].(pendingNomination := false)];
      OnNominatedMoves(cfg, t.(checks := t.checks.(pairs := pairs)), s.pending, Some(Answer(i, txn)), ch, now);
    } else if s.controlling && (cfg.aggressive || p.nomineeSent) {
      OnNominatedMoves(cfg, t, Nomination(EndpointOf(p.remote), p.transport), Some(Answer(i, txn)), ch, now);
    } else {
      SelectMoves(cfg, t, now);
    }
  }

  lemma ResponseMoves(cfg: Config, s: Session, txn: TxnId, mapped: Option<Endpoint>, probe: bool, ch: Choices, now: nat)
    ensures Moves(s, Response(cfg, s, txn, mapped, probe, ch, now))
  {
    var found := FindTxn(s.checks.pairs, txn, 0);
    if s.phase == Checking && found.Some? {
      AnswerMoves(cfg, s, found.value, txn, mapped, ch, now);
    }
  }

  lemma DeferMoves(cfg: Config, s: Session, n: Nomination, found: Option<nat>, now: nat)
    requires found.Some? ==> found.value < |s.checks.pairs|
    ensures Moves(s, Defer(cfg, s, n, found, now))
  {
    forall t: Session
      ensures Moves(t, RunNextCheck(cfg, t, now))
    {
      RunMoves(cfg, t, now);
    }
  }

  lemma UseCandidateMoves(cfg: Config, s: Session, peer: Endpoint, fromTcp: bool, ch: Choices, now: nat)
    ensures Moves(s, UseCandidate(cfg, s, peer, fromTcp, ch, now))
  {
    var nomination := Nomination(peer, if fromTcp then TCP_ACTIVE else UDP);
    OnNominatedMoves(cfg, s, nomination, None, ch, now);
    DeferMoves(cfg, s, nomination, FindEndpoint(s.checks.pairs, peer, nomination.transport, 0), now);
  }

  lemma FinishMoves(cfg: Config, s: Session, useCandidate: bool, peer: Endpoint, fromTcp: bool, ch: Choices, now: nat)
    ensures Moves(s, Finish(cfg, s, useCandidate, peer, fromTcp, ch, now))
  {
    UseCandidateMoves(cfg, s, peer, fromTcp, ch, now);
  }

  lemma FlipRoleMoves(cfg: Config, s: Session, ch: Choices, now: nat)
    ensures Moves(s, FlipRole(cfg, s, ch, now))
  {
    CheckingMoves(cfg, s.(controlling := !s.controlling), ch.build, now);
  }

  lemma RequestMoves(cfg: Config, s: Session, tieBreaker: u64, claim: Claim, useCandidate: bool, peer: Endpoint,
                     fromTcp: bool, ch: Choices, now: nat)
    ensures Moves(s, Request(cfg, s, tieBreaker, claim, useCandidate, peer, fromTcp, ch, now))
  {
    var t := FlipRole(cfg, s, ch, now);
    FlipRoleMoves(cfg, s, ch, now);
    FinishMoves(cfg, s, useCandidate, peer, fromTcp, ch, now);
    FinishMoves(cfg, t, useCandidate, peer, fromTcp, ch, now);
    MovesTransitive(s, t, Finish(cfg, t, useCandidate, peer, fromTcp, ch, now));
  }

  lemma RecheckMoves(cfg: Config, s: Session, ch: Choices, now: nat)
    ensures Moves(s, Recheck(cfg, s, ch, now))
  {
    CheckingMoves(cfg, s, ch.build, now);
  }

  lemma AddRemoteMoves(cfg: Config, s: Session, newCredentials: bool, cands: seq<Candidate>, ended: bool, ch: Choices,
                       now: nat)
    ensures Moves(s, AddRemote(cfg, s, newCredentials, cands, ended, ch, now))
  {
    SelectMoves(cfg, DropRemote(s, newCredentials), now);
    var u := EndOfCandidates(cfg, DropRemote(s, newCredentials), ended, now);
    var t := u.(remotes := Merge(u.remotes, cands));
    RecheckMoves(cfg, t, ch, now);
    MovesTransitive(s, u, Recheck(cfg, t, ch, now));
  }

  lemma SetRemoteMoves(cfg: Config, s: Session, cands: seq<Candidate>, ch: Choices, now: nat)
    ensures Moves(s, SetRemote(cfg, s, cands, ch, now))
  {
    CheckingMoves(cfg, s.(remotes := cands), ch.build, now);
  }

  lemma PeerFlagsMoves(cfg: Config, s: Session, symmetric: bool, ch: Choices, now: nat)
    ensures Moves(s, PeerFlags(cfg, s, symmetric, ch, now))
  {
    CheckingMoves(cfg, s.(peerSymmetric := symmetric), ch.build, now);
  }

  lemma ResolvedMoves(cfg: Config, s: Session, remotes: seq<Candidate>, useful: bool, ch: Choices, now: nat)
    ensures Moves(s, Resolved(cfg, s, remotes, useful, ch, now))
  {
    RecheckMoves(cfg, s.(remotes := remotes), ch, now);
  }

  lemma RelayMoves(cfg: Config, s: Session, ch: Choices, now: nat)
    ensures Moves(s, GatherComplete(cfg, s, ch, now))
    ensures Moves(s, Refold(cfg, s, ch, now))
    ensures Moves(s, Failover(cfg, s, ch, now))
  {
    CheckingMoves(cfg, s, ch.build, now);
    CheckingMoves(cfg, s.(phase := Checking), ch.build, now);
  }

  lemma FiringMoves(cfg: Config, s: Session, gen: nat, now: nat)
    ensures Moves(s, FireCheck(cfg, s, gen, now)) && Moves(s, FireWait(s, gen))
  {
    var t := s.(timers := s.timers.(checks := s.timers.checks - {gen}));
    RunMoves(cfg, t, now);
    MovesTransitive(s, t, RunNextCheck(cfg, t, now));
  }

  lemma SignalStepMoves(cfg: Config, tieBreaker: u64, s: Session, e: Event, ch: Choices, now: nat)
    requires IsSignal(e)
    ensures Moves(s, Step(cfg, tieBreaker, s, e, ch, now))
  {
    match e
    case SignalSetRemote(cands) => SetRemoteMoves(cfg, s, cands, ch, now);
    case SignalAddRemote(newCredentials, cands, ended) => AddRemoteMoves(cfg, s, newCredentials, cands, ended, ch, now);
    case SignalFlags(symmetric) => PeerFlagsMoves(cfg, s, symmetric, ch, now);
    case MdnsAnswer(slot, name, found) =>
      var useful := AskedFor(s.remotes, slot, name) && found != [];
      ResolvedMoves(cfg, s, Rewritten(s.remotes, slot, name, found), useful, ch, now);
    case GatheringDone => RelayMoves(cfg, s, ch, now);
    case RelayReady => RelayMoves(cfg, s, ch, now);
    case RelayFailover(relay, allowed) =>
      RelayMoves(cfg, s.(locals := SwapRelay(s.locals, relay, allowed)), ch, now);
  }

  lemma StepMoves(cfg: Config, tieBreaker: u64, s: Session, e: Event, ch: Choices, now: nat)
    requires !e.GatherCalled?
    ensures Moves(s, Step(cfg, tieBreaker, s, e, ch, now))
  {
    if IsSignal(e) {
      SignalStepMoves(cfg, tieBreaker, s, e, ch, now);
    } else {
      OtherStepMoves(cfg, tieBreaker, s, e, ch, now);
    }
  }

  lemma OtherStepMoves(cfg: Config, tieBreaker: u64, s: Session, e: Event, ch: Choices, now: nat)
    requires !e.GatherCalled? && !IsSignal(e)
    ensures Moves(s, Step(cfg, tieBreaker, s, e, ch, now))
  {
    match e
    case CheckTimer(gen) => FiringMoves(cfg, s, gen, now);
    case WaitTimer(gen) => FiringMoves(cfg, s, gen, now);
    case KeepaliveTimer => KeepaliveMoves(cfg, s, ch.rebuild, ch.loss, now);
    case GotResponse(txn, mapped, probe) => ResponseMoves(cfg, s, txn, mapped, probe, ch, now);
    case GotRoleConflict => FlipRoleMoves(cfg, s, ch, now);
    case GotRequest(claim, useCandidate, peer, fromTcp) =>
      RequestMoves(cfg, s, tieBreaker, claim, useCandidate, peer, fromTcp, ch, now);
    case _ =>
  }

  lemma StepLater(cfg: Config, tieBreaker: u64, s: Session, e: Event, ch: Choices, now: nat)
    ensures Later(s.timers, Step(cfg, tieBreaker, s, e, ch, now).timers)
  {
    if !e.GatherCalled? {
      StepMoves(cfg, tieBreaker, s, e, ch, now);
    }
  }

  // ---- Every run ----

  /** In every run, no timer carries a generation its counter has not reached. */
  lemma {:induction false} ArmedInEveryRun(cfg: Config, tieBreaker: u64, controlling: bool, inputs: seq<Input>)
    ensures Armed(After(cfg, tieBreaker, controlling, inputs).timers)
  {
    if inputs != [] {
      var i, n := inputs[|inputs| - 1], |inputs| - 1;
      var s := After(cfg, tieBreaker, controlling, inputs[..n]);
      ArmedInEveryRun(cfg, tieBreaker, controlling, inputs[..n]);
      StepLater(cfg, tieBreaker, s, i.event, i.choices, i.now);
      LaterArmed(s.timers, After(cfg, tieBreaker, controlling, inputs).timers);
    }
  }

  lemma AfterStep(cfg: Config, tieBreaker: u64, controlling: bool, inputs: seq<Input>, i: Input)
    ensures After(cfg, tieBreaker, controlling, inputs + [i]) ==
            Step(cfg, tieBreaker, After(cfg, tieBreaker, controlling, inputs), i.event, i.choices, i.now)
  {
    assert (inputs + [i])[..|inputs|] == inputs;
  }

  lemma {:induction false} RunLater(cfg: Config, tieBreaker: u64, controlling: bool, inputs: seq<Input>,
                                    more: seq<Input>)
    ensures Later(After(cfg, tieBreaker, controlling, inputs).timers,
                  After(cfg, tieBreaker, controlling, inputs + more).timers)
    decreases |more|
  {
    if more == [] {
      assert inputs + more == inputs;
    } else {
      var i, rest := more[|more| - 1], more[..|more| - 1];
      RunLater(cfg, tieBreaker, controlling, inputs, rest);
      assert inputs + more == inputs + rest + [i];
      AfterStep(cfg, tieBreaker, controlling, inputs + rest, i);
      var s := After(cfg, tieBreaker, controlling, inputs + rest);
      StepLater(cfg, tieBreaker, s, i.event, i.choices, i.now);
      LaterTransitive(After(cfg, tieBreaker, controlling, inputs).timers, s.timers,
                      Step(cfg, tieBreaker, s, i.event, i.choices, i.now).timers);
    }
  }

  /** The step nominates, restarts (called for, or on a loss of consent) or closes. */
  predicate Cancels(s: Session, e: Event, r: Session) {
    || |s.history.connects| < |r.history.connects|
    || (e.RestartCalled? && s.phase != Phase.Failed)
    || (r.phase == Gathering && s.phase != Gathering && !e.GatherCalled?)
    || e.CloseCalled?
  }

  lemma CancelsOutdates(cfg: Config, tieBreaker: u64, s: Session, e: Event, ch: Choices, now: nat)
    requires Cancels(s, e, Step(cfg, tieBreaker, s, e, ch, now))
    ensures Outdated(s.timers, Step(cfg, tieBreaker, s, e, ch, now).timers)
  {
    if !e.GatherCalled? {
      StepMoves(cfg, tieBreaker, s, e, ch, now);
    }
  }

  /** Whatever is pending in t, its firing in r only takes it off the pending timers. */
  ghost predicate OnlyExpires(cfg: Config, t: Timers, r: Session, g: nat, now: nat) {
    && (g in t.checks ==> FireCheck(cfg, r, g, now) == r.(timers := r.timers.(checks := r.timers.checks - {g})))
    && (g in t.waits ==> FireWait(r, g) == r.(timers := r.timers.(waits := r.timers.waits - {g})))
  }

  lemma StaleExpires(cfg: Config, t: Timers, u: Timers, r: Session, g: nat, now: nat)
    requires Armed(t) && Outdated(t, u) && Later(u, r.timers)
    ensures OnlyExpires(cfg, t, r, g, now)
  {
  }

  /**
   * A timer armed before a nomination, a restart or a close never acts again: whenever it fires later, in any
   * continuation of the run, all that happens is that it is no longer pending.
   */
  lemma CancelledTimersNeverAct(cfg: Config, tieBreaker: u64, controlling: bool, inputs: seq<Input>, i: Input,
                                more: seq<Input>, g: nat, now: nat)
    ensures var s, t := After(cfg, tieBreaker, controlling, inputs), After(cfg, tieBreaker, controlling, inputs + [i]);
            Cancels(s, i.event, t) ==>
              OnlyExpires(cfg, s.timers, After(cfg, tieBreaker, controlling, inputs + [i] + more), g, now)
  {
    var s, t := After(cfg, tieBreaker, controlling, inputs), After(cfg, tieBreaker, controlling, inputs + [i]);
    AfterStep(cfg, tieBreaker, controlling, inputs, i);
    if Cancels(s, i.event, t) {
      ArmedInEveryRun(cfg, tieBreaker, controlling, inputs);
      CancelsOutdates(cfg, tieBreaker, s, i.event, i.choices, i.now);
      RunLater(cfg, tieBreaker, controlling, inputs + [i], more);
      StaleExpires(cfg, s.timers, t.timers, After(cfg, tieBreaker, controlling, inputs + [i] + more), g, now);
    }
  }
}
