/** Invariants of every run of a session: the list laws, no silent stall, and at most one nominee between restarts. */
module SessionLaws {
  import opened Bytes
  import opened Sequences
  import opened Candidates
  import opened CheckList
  import opened CheckListLaws
  import opened Session

  /** A full agent with a timer context. */
  predicate Full(cfg: Config) { !cfg.lite && cfg.timers }

  /** A timer that will still act when it fires. */
  predicate Live(t: Timers) { t.checkGen in t.checks || t.waitGen in t.waits }

  function ChosenPair(n: Nominee): CheckPair
    requires n.index < |n.pairs|
  {
    n.pairs[n.index]
  }

  /** A nominee was valid and of maximal priority among the valid pairs when it was chosen. */
  ghost predicate WellChosen(n: Nominee) {
    && n.index < |n.pairs| && n.pairs[n.index].valid
    && forall j :: 0 <= j < |n.pairs| && n.pairs[j].valid ==> n.pairs[j].priority <= n.pairs[n.index].priority
  }

  ghost predicate NomineesOk(ns: seq<Nominee>) { |ns| <= 1 && forall k :: 0 <= k < |ns| ==> WellChosen(ns[k]) }

  predicate SamePair(p: CheckPair, q: CheckPair) {
    p.txn == q.txn && p.local == q.local && p.remote == q.remote && p.transport == q.transport
  }

  /** Only the chosen pair carries the nominating flag. */
  ghost predicate Flagged(ps: seq<CheckPair>, ns: seq<Nominee>) {
    forall i :: 0 <= i < |ps| && ps[i].nomineeSent ==>
      |ns| == 1 && ns[0].index < |ns[0].pairs| && SamePair(ps[i], ChosenPair(ns[0])) && ps[i].valid
  }

  /** The one endpoint every USE-CANDIDATE request of a run names, for runs that have one. */
  type Aim = Option<Endpoint>

  predicate AimedAt(n: Nomination, aim: Aim) {
    aim.Some? ==> n == NO_NOMINATION || n.endpoint == aim.value
  }

  /** Nominations wait only on pairs to the endpoint the requests name. */
  ghost predicate Aimed(ps: seq<CheckPair>, n: Nomination, aim: Aim) {
    aim.Some? ==> forall i :: 0 <= i < |ps| && ps[i].pendingNomination ==>
      EndpointOf(ps[i].remote) == aim.value && n.endpoint == aim.value
  }

  ghost predicate ConnectOk(cfg: Config, aim: Aim, c: Connect) {
    RegularConnect(cfg, c) && (aim.Some? ==> ControlledConnect(c, aim.value))
  }

  /** A controlled agent connects to the named endpoint, and some pair to it has succeeded. */
  ghost predicate ControlledConnect(c: Connect, e: Endpoint) {
    !c.controlling ==>
      && c.nomination.endpoint == e
      && Reached(c.pairs, e)
  }

  ghost predicate Reached(ps: seq<CheckPair>, e: Endpoint) {
    exists i :: 0 <= i < |ps| && EndpointOf(ps[i].remote) == e && ps[i].state == Succeeded
  }

  /** A regular controller connects only through the answer of the one nominee. */
  ghost predicate RegularConnect(cfg: Config, c: Connect) {
    c.controlling && !cfg.aggressive ==>
      && NomineesOk(c.nominees) && |c.nominees| == 1
      && c.answer.Some? && c.answer.value.pair < |c.pairs|
      && c.answer.value.txn == ChosenPair(c.nominees[0]).txn
      && var p := c.pairs[c.answer.value.pair];
         && SamePair(p, ChosenPair(c.nominees[0]))
         && p.nomineeSent && p.valid && p.state == Succeeded
         && c.nomination == Nomination(EndpointOf(p.remote), p.transport)
  }

  ghost predicate HistoryOk(cfg: Config, aim: Aim, h: History, n: Nomination) {
    && AimedAt(n, aim)
    && NomineesOk(h.nominees) && (h.nomineeSelected <==> |h.nominees| == 1)
    && forall k :: 0 <= k < |h.connects| ==> ConnectOk(cfg, aim, h.connects[k])
  }

  ghost predicate Quiet(cfg: Config, aim: Aim, c: Checks, h: History, n: Nomination) {
    HistoryOk(cfg, aim, h, n) && ListOk(cfg, c) && Flagged(c.pairs, h.nominees) && Aimed(c.pairs, n, aim)
  }

  /** The connection in use is the last one recorded. */
  predicate LastConnect(h: History, n: Nomination) {
    h.connects != [] && h.connects[|h.connects| - 1].nomination == n
  }

  ghost predicate SessionOk(cfg: Config, aim: Aim, s: Session) {
    && Quiet(cfg, aim, s.checks, s.history, s.pending)
    && (Full(cfg) && s.phase == Checking ==> Live(s.timers))
    && (s.phase == Connected ==> LastConnect(s.history, s.nominated))
  }

  // ---- Pieces of handlers ----

  lemma FlaggedSameIdent(ps: seq<CheckPair>, qs: seq<CheckPair>, ns: seq<Nominee>)
    requires Flagged(ps, ns) && SameIdent(ps, qs)
    ensures Flagged(qs, ns)
  {
    forall i | 0 <= i < |qs| && qs[i].nomineeSent
      ensures |ns| == 1 && ns[0].index < |ns[0].pairs| && SamePair(qs[i], ChosenPair(ns[0])) && qs[i].valid
    {
      assert Ident(ps[i]) == Ident(qs[i]);
    }
  }

  lemma AimedSameIdent(ps: seq<CheckPair>, qs: seq<CheckPair>, n: Nomination, aim: Aim)
    requires Aimed(ps, n, aim) && SameIdent(ps, qs)
    ensures Aimed(qs, n, aim)
  {
    forall i | aim.Some? && 0 <= i < |qs| && qs[i].pendingNomination
      ensures EndpointOf(qs[i].remote) == aim.value && n.endpoint == aim.value
    {
      assert Ident(ps[i]) == Ident(qs[i]);
    }
  }

  lemma KeptQuiet(cfg: Config, aim: Aim, c: Checks, d: Checks, h: History, n: Nomination)
    requires Quiet(cfg, aim, c, h, n) && Kept(cfg, c, d)
    ensures Quiet(cfg, aim, d, h, n)
  {
    FlaggedSameIdent(c.pairs, d.pairs, h.nominees);
    AimedSameIdent(c.pairs, d.pairs, n, aim);
  }

  lemma WalkedKept(cfg: Config, c: Checks, now: nat)
    requires ListOk(cfg, c)
    ensures Kept(cfg, c, Walked(cfg, c, now))
    ensures Walked(cfg, c, now) == Retransmit(cfg, c, now)
  {
    UnfreezeStuckIsIdle(c.pairs);
    assert c.(pairs := UnfreezeStuck(c.pairs)) == c;
    RetransmitOk(cfg, c, now);
  }

  lemma TickKept(cfg: Config, c: Checks, now: nat)
    requires ListOk(cfg, c)
    ensures Kept(cfg, c, Promote(cfg, Walked(cfg, c, now), now))
  {
    var walked := Walked(cfg, c, now);
    WalkedKept(cfg, c, now);
    PromoteOk(cfg, walked, now);
    KeptTransitive(cfg, c, walked, Promote(cfg, walked, now));
  }

  lemma TickQuiet(cfg: Config, aim: Aim, c: Checks, h: History, n: Nomination, now: nat)
    requires Quiet(cfg, aim, c, h, n)
    ensures Quiet(cfg, aim, Promote(cfg, Walked(cfg, c, now), now), h, n)
  {
    TickKept(cfg, c, now);
    KeptQuiet(cfg, aim, c, Promote(cfg, Walked(cfg, c, now), now), h, n);
  }

  /** A tick arms a timer unless it ends the checking. */
  lemma RunNextCheckLive(cfg: Config, s: Session, now: nat)
    ensures s.phase == Checking && Full(cfg) && RunNextCheck(cfg, s, now).phase == Checking ==>
              Live(RunNextCheck(cfg, s, now).timers)
    ensures RunNextCheck(cfg, s, now).phase == Checking ==> s.phase == Checking
    ensures RunNextCheck(cfg, s, now).phase == Connected ==> s.phase == Connected
    ensures RunNextCheck(cfg, s, now).nominated == s.nominated
    ensures RunNextCheck(cfg, s, now).checks ==
            if s.phase == Checking then Promote(cfg, Walked(cfg, s.checks, now), now) else s.checks
    ensures RunNextCheck(cfg, s, now).history == s.history && RunNextCheck(cfg, s, now).pending == s.pending
  {
  }

  lemma RunNextCheckOk(cfg: Config, aim: Aim, s: Session, now: nat)
    requires Quiet(cfg, aim, s.checks, s.history, s.pending)
    requires s.phase == Connected ==> LastConnect(s.history, s.nominated)
    ensures SessionOk(cfg, aim, RunNextCheck(cfg, s, now))
  {
    TickQuiet(cfg, aim, s.checks, s.history, s.pending, now);
    RunNextCheckLive(cfg, s, now);
  }

  lemma BuiltQuiet(cfg: Config, aim: Aim, from: Sides, ps: seq<CheckPair>, h: History, n: Nomination)
    requires HistoryOk(cfg, aim, h, n) && IsBuilt(cfg, from, ps)
    ensures Quiet(cfg, aim, Checks(ps, 0), h, n)
  {
    BuiltOk(cfg, from, ps);
    BuiltFresh(cfg, from, ps);
  }

  lemma RebuildAndRunOk(cfg: Config, aim: Aim, s: Session, b: Builder, now: nat)
    requires Builds(cfg, b) && (s.phase == Connected ==> LastConnect(s.history, s.nominated))
    requires HistoryOk(cfg, aim, s.history, s.pending)
    ensures SessionOk(cfg, aim, RebuildAndRun(cfg, s, b, now))
  {
    assert Outcome(cfg, b, SidesOf(cfg, s));
    BuiltQuiet(cfg, aim, SidesOf(cfg, s), b(SidesOf(cfg, s)), s.history, s.pending);
    RunNextCheckOk(cfg, aim, Rebuild(cfg, s, b), now);
  }

  lemma PrefireQuiet(cfg: Config, aim: Aim, from: Sides, ps: seq<CheckPair>, h: History, n: Nomination, now: nat)
    requires HistoryOk(cfg, aim, h, n) && IsBuilt(cfg, from, ps)
    ensures Quiet(cfg, aim, Prefire(cfg, Checks(ps, 0), now), h, n)
  {
    var c := Checks(ps, 0);
    BuiltQuiet(cfg, aim, from, ps, h, n);
    BuiltOk(cfg, from, ps);
    PrefireOk(cfg, c, now);
    KeptQuiet(cfg, aim, c, Prefire(cfg, c, now), h, n);
  }

  lemma EnterCheckingOk(cfg: Config, aim: Aim, s: Session, b: Builder, now: nat)
    requires Builds(cfg, b)
    requires HistoryOk(cfg, aim, s.history, s.pending)
    ensures SessionOk(cfg, aim, EnterChecking(cfg, s, b, now))
  {
    var t := Rebuild(cfg, s.(phase := Checking), b);
    var from := SidesOf(cfg, s.(phase := Checking));
    assert Outcome(cfg, b, from);
    BuiltQuiet(cfg, aim, from, t.checks.pairs, s.history, s.pending);
    PrefireQuiet(cfg, aim, from, t.checks.pairs, s.history, s.pending, now);
    if !cfg.lite {
      RunNextCheckOk(cfg, aim, t.(checks := Prefire(cfg, t.checks, now)), now);
    }
  }

  lemma EmptyQuiet(cfg: Config, aim: Aim, h: History, n: Nomination)
    requires HistoryOk(cfg, aim, h, n)
    ensures Quiet(cfg, aim, Checks([], 0), h, n)
  {
  }

  lemma RestartOk(cfg: Config, aim: Aim, s: Session)
    requires SessionOk(cfg, aim, s)
    ensures SessionOk(cfg, aim, Restart(s))
  {
    EmptyQuiet(cfg, aim, s.history.(nomineeSelected := false, nominees := []), s.pending);
  }

  /** The invariant reads only the list, the history, the pending nomination and, while checking, the timers. */
  lemma SameCore(cfg: Config, aim: Aim, s: Session, t: Session)
    requires SessionOk(cfg, aim, s)
    requires t.checks == s.checks && t.history == s.history && t.pending == s.pending
    requires t.phase == Checking ==> s.phase == Checking && t.timers == s.timers
    requires t.phase == Connected ==> s.phase == Connected && t.nominated == s.nominated
    ensures SessionOk(cfg, aim, t)
  {
  }

  lemma ConsentLostOk(cfg: Config, aim: Aim, s: Session, loss: Loss)
    requires SessionOk(cfg, aim, s) && s.phase == Connected
    ensures SessionOk(cfg, aim, ConsentLost(s, loss))
  {
    match loss
    case LossRestarts => RestartOk(cfg, aim, s);
    case LossCoalesces =>
    case LossFails =>
  }

  lemma RecoverOk(cfg: Config, aim: Aim, s: Session, b: Builder, now: nat)
    requires Builds(cfg, b) && HistoryOk(cfg, aim, s.history, s.pending)
    ensures SessionOk(cfg, aim, Recover(cfg, s, b, now))
  {
    EnterCheckingOk(cfg, aim, s, b, now);
    SameCore(cfg, aim, EnterChecking(cfg, s, b, now), Recover(cfg, s, b, now));
  }

  lemma KeepaliveOk(cfg: Config, aim: Aim, s: Session, b: Builder, loss: Loss, now: nat)
    requires Builds(cfg, b)
    requires SessionOk(cfg, aim, s)
    ensures SessionOk(cfg, aim, Keepalive(cfg, s, b, loss, now))
  {
    if s.phase != Connected || cfg.lite {
    } else if s.consentMissed + 1 < cfg.consentMaxFailures {
      SameCore(cfg, aim, s, s.(consentMissed := s.consentMissed + 1));
    } else if s.recoveries < cfg.consentMaxRecovery {
      RecoverOk(cfg, aim, s, b, now);
    } else {
      ConsentLostOk(cfg, aim, s, loss);
    }
  }

  lemma ConnectedHistory(cfg: Config, aim: Aim, h: History, n: Nomination, c: Connect)
    requires HistoryOk(cfg, aim, h, n) && ConnectOk(cfg, aim, c)
    ensures HistoryOk(cfg, aim, h.(connects := h.connects + [c]), n)
  {
  }

  lemma OnNominatedOk(cfg: Config, aim: Aim, s: Session, nomination: Nomination, answer: Option<Answer>, ch: Choices,
                      now: nat)
    requires Sound(cfg, ch)
    requires Quiet(cfg, aim, s.checks, s.history, s.pending)
    requires ConnectOk(cfg, aim, Connect(s.controlling, nomination, s.checks.pairs, answer, s.history.nominees))
    ensures SessionOk(cfg, aim, OnNominated(cfg, s, nomination, answer, ch, now))
  {
    var c := Connect(s.controlling, nomination, s.checks.pairs, answer, s.history.nominees);
    ConnectedHistory(cfg, aim, s.history, s.pending, c);
    KeepaliveOk(cfg, aim, Connecting(s, nomination, answer), ch.rebuild, ch.loss, now);
  }

  lemma NomineeHistory(cfg: Config, aim: Aim, h: History, n: Nomination, chosen: Nominee)
    requires HistoryOk(cfg, aim, h, n) && !h.nomineeSelected && WellChosen(chosen)
    ensures HistoryOk(cfg, aim, h.(nomineeSelected := true, nominees := h.nominees + [chosen]), n)
  {
  }

  lemma NomineeFlagged(cfg: Config, aim: Aim, c: Checks, h: History, n: Nomination, i: nat)
    requires Quiet(cfg, aim, c, h, n) && !h.nomineeSelected && i < |c.pairs| && c.pairs[i].valid
    ensures ListOk(cfg, c.(pairs := c.pairs[i := c.pairs[i].(nomineeSent := true)]))
    ensures Flagged(c.pairs[i := c.pairs[i].(nomineeSent := true)], h.nominees + [Nominee(c.pairs, i)])
    ensures Aimed(c.pairs[i := c.pairs[i].(nomineeSent := true)], n, aim)
  {
    assert PairOk(cfg, c.pairs[i]);
    ReplaceOk(cfg, c, i, c.pairs[i].(nomineeSent := true), c.sent);
  }

  lemma SelectNomineeOk(cfg: Config, aim: Aim, s: Session, now: nat)
    requires Quiet(cfg, aim, s.checks, s.history, s.pending) && !s.history.nomineeSelected
    ensures Quiet(cfg, aim, SelectNominee(cfg, s, now).checks, SelectNominee(cfg, s, now).history, s.pending)
  {
    var best := BestValid(s.checks.pairs, 0, None);
    if best.Some? {
      var i := best.value;
      var n, chosen := s.pending, Nominee(s.checks.pairs, i);
      var h := s.history.(nomineeSelected := true, nominees := s.history.nominees + [chosen]);
      var c := s.checks.(pairs := s.checks.pairs[i := s.checks.pairs[i].(nomineeSent := true)]);
      NomineeHistory(cfg, aim, s.history, n, chosen);
      NomineeFlagged(cfg, aim, s.checks, s.history, n, i);
      assert PairOk(cfg, c.pairs[i]);
      SendCheckOk(cfg, c, i, now);
      KeptQuiet(cfg, aim, c, SendCheck(cfg, c, i, now), h, n);
    }
  }

  /** Choosing a nominee touches only the list and the history. */
  lemma SelectNomineeFrame(cfg: Config, s: Session, now: nat)
    ensures SelectNominee(cfg, s, now) ==
            s.(history := SelectNominee(cfg, s, now).history, checks := SelectNominee(cfg, s, now).checks)
  {
  }

  lemma CompletedQuiet(cfg: Config, aim: Aim, c: Checks, h: History, n: Nomination, i: nat, p: CheckPair)
    requires Quiet(cfg, aim, c, h, n) && i < |c.pairs|
    requires p == c.pairs[i].(state := PairState.Failed) || p == c.pairs[i].(valid := true, state := Succeeded)
    ensures Quiet(cfg, aim, c.(pairs := Complete(c.pairs, i, p)), h, n)
    ensures Complete(c.pairs, i, p)[i] == p
  {
    assert PairOk(cfg, c.pairs[i]);
    CompleteOk(cfg, c, i, p);
    var mid := c.pairs[i := p];
    assert Flagged(mid, h.nominees);
    assert SameIdent(mid, Complete(c.pairs, i, p));
    FlaggedSameIdent(mid, Complete(c.pairs, i, p), h.nominees);
    assert Aimed(mid, n, aim);
    AimedSameIdent(mid, Complete(c.pairs, i, p), n, aim);
  }

  lemma DeferredQuiet(cfg: Config, aim: Aim, c: Checks, h: History, n: Nomination, i: nat)
    requires Quiet(cfg, aim, c, h, n) && i < |c.pairs| && !c.pairs[i].state.Frozen?
    ensures Quiet(cfg, aim, c.(pairs := c.pairs[i := c.pairs[i].(pendingNomination := false)]), h, n)
  {
    assert PairOk(cfg, c.pairs[i]);
    ReplaceOk(cfg, c, i, c.pairs[i].(pendingNomination := false), c.sent);
  }

  lemma SucceedOk(cfg: Config, aim: Aim, s: Session, i: nat, mapped: Option<Endpoint>)
    requires SessionOk(cfg, aim, s) && i < |s.checks.pairs|
    ensures SessionOk(cfg, aim, Succeed(s, i, mapped))
    ensures Succeed(s, i, mapped).checks.pairs[i] == s.checks.pairs[i].(valid := true, state := Succeeded)
  {
    CompletedQuiet(cfg, aim, s.checks, s.history, s.pending, i, s.checks.pairs[i].(valid := true, state := Succeeded));
  }

  /** The answer a remembered nomination waited for. */
  lemma AwaitedAnswerOk(cfg: Config, aim: Aim, s: Session, i: nat, txn: TxnId, mapped: Option<Endpoint>, ch: Choices,
                        now: nat)
    requires Sound(cfg, ch) && SessionOk(cfg, aim, s)
    requires s.phase == Checking && FindTxn(s.checks.pairs, txn, 0) == Some(i)
    requires !s.controlling && s.checks.pairs[i].pendingNomination
    ensures SessionOk(cfg, aim, CheckResponse(cfg, s, txn, mapped, ch, now))
  {
    var p, t := s.checks.pairs[i], Succeed(s, i, mapped);
    SucceedOk(cfg, aim, s, i, mapped);
    var pairs := t.checks.pairs[i := t.checks.pairs[i].(pendingNomination := false)];
    DeferredQuiet(cfg, aim, t.checks, t.history, s.pending, i);
    assert aim.Some? ==> Reached(pairs, aim.value) by {
      assert pairs[i].state == Succeeded && pairs[i].remote == p.remote;
    }
    OnNominatedOk(cfg, aim, t.(checks := t.checks.(pairs := pairs)), s.pending, Some(Answer(i, txn)), ch, now);
  }

  lemma CheckResponseOk(cfg: Config, aim: Aim, s: Session, txn: TxnId, mapped: Option<Endpoint>, ch: Choices, now: nat)
    requires Sound(cfg, ch)
    requires SessionOk(cfg, aim, s)
    ensures SessionOk(cfg, aim, CheckResponse(cfg, s, txn, mapped, ch, now))
  {
    var found := FindTxn(s.checks.pairs, txn, 0);
    if s.phase == Checking && found.Some? {
      var i := found.value;
      var p, t := s.checks.pairs[i], Succeed(s, i, mapped);
      SucceedOk(cfg, aim, s, i, mapped);
      if !s.controlling && p.pendingNomination {
        AwaitedAnswerOk(cfg, aim, s, i, txn, mapped, ch, now);
      } else if s.controlling && (cfg.aggressive || p.nomineeSent) {
        OnNominatedOk(cfg, aim, t, Nomination(EndpointOf(p.remote), p.transport), Some(Answer(i, txn)), ch, now);
      } else if s.controlling && !s.history.nomineeSelected && !p.valid {
        SelectNomineeOk(cfg, aim, t, now);
        SelectNomineeFrame(cfg, t, now);
      }
    }
  }

  lemma ResponseOk(cfg: Config, aim: Aim, s: Session, txn: TxnId, mapped: Option<Endpoint>, probe: bool, ch: Choices,
                   now: nat)
    requires Sound(cfg, ch)
    requires SessionOk(cfg, aim, s)
    ensures SessionOk(cfg, aim, Response(cfg, s, txn, mapped, probe, ch, now))
  {
    if probe || s.phase == Connected {
      SameCore(cfg, aim, s, s.(consentMissed := 0));
    } else {
      CheckResponseOk(cfg, aim, s, txn, mapped, ch, now);
    }
  }

  lemma FlipRoleOk(cfg: Config, aim: Aim, s: Session, ch: Choices, now: nat)
    requires Sound(cfg, ch)
    requires SessionOk(cfg, aim, s)
    ensures SessionOk(cfg, aim, FlipRole(cfg, s, ch, now))
  {
    RebuildAndRunOk(cfg, aim, s.(controlling := !s.controlling), ch.build, now);
  }

  lemma WokenQuiet(cfg: Config, aim: Aim, c: Checks, h: History, n: Nomination, i: nat, q: CheckPair, m: Nomination)
    requires Quiet(cfg, aim, c, h, n) && i < |c.pairs|
    requires aim.Some? ==> EndpointOf(c.pairs[i].remote) == aim.value && m.endpoint == aim.value
    requires q == c.pairs[i].(state := if c.pairs[i].state == Frozen then Waiting else c.pairs[i].state,
                              pendingNomination := true)
    ensures Quiet(cfg, aim, c.(pairs := c.pairs[i := q]), h, m)
  {
    WakeOk(cfg, c, i, q);
  }

  lemma UseCandidateOk(cfg: Config, aim: Aim, s: Session, peer: Endpoint, fromTcp: bool, ch: Choices, now: nat)
    requires Sound(cfg, ch)
    requires SessionOk(cfg, aim, s) && (aim.Some? ==> peer == aim.value)
    ensures SessionOk(cfg, aim, UseCandidate(cfg, s, peer, fromTcp, ch, now))
  {
    var nomination := Nomination(peer, if fromTcp then TCP_ACTIVE else UDP);
    var found := FindEndpoint(s.checks.pairs, peer, nomination.transport, 0);
    if !s.controlling && peer.address != NOWHERE {
      if found.None? {
        RunNextCheckOk(cfg, aim, s.(pending := nomination), now);
      } else {
        var i := found.value;
        var p := s.checks.pairs[i];
        if p.state == Succeeded {
          assert Reached(s.checks.pairs, peer);
          OnNominatedOk(cfg, aim, s, nomination, None, ch, now);
        } else {
          var q := p.(state := if p.state == Frozen then Waiting else p.state, pendingNomination := true);
          WokenQuiet(cfg, aim, s.checks, s.history, s.pending, i, q, nomination);
          var c := s.checks.(pairs := s.checks.pairs[i := q]);
          RunNextCheckOk(cfg, aim, s.(pending := nomination, checks := c), now);
        }
      }
    }
  }

  lemma AppendedQuiet(cfg: Config, aim: Aim, c: Checks, h: History, n: Nomination, p: CheckPair)
    requires Quiet(cfg, aim, c, h, n) && PairOk(cfg, p)
    requires p.state.InProgress? && p.triggered && p.retries == 0 && !p.nomineeSent && Aimed([p], n, aim)
    ensures Quiet(cfg, aim, c.(pairs := c.pairs + [p]), h, n)
  {
    AppendOk(cfg, c, p);
    var d := c.(pairs := c.pairs + [p]);
    assert Flagged(d.pairs, h.nominees) && Aimed(d.pairs, n, aim);
  }

  lemma SentQuiet(cfg: Config, aim: Aim, c: Checks, h: History, n: Nomination, i: nat, now: nat)
    requires Quiet(cfg, aim, c, h, n) && i < |c.pairs| && c.pairs[i].state.InProgress?
    ensures Quiet(cfg, aim, SendCheck(cfg, c, i, now), h, n)
  {
    SendCheckOk(cfg, c, i, now);
    KeptQuiet(cfg, aim, c, SendCheck(cfg, c, i, now), h, n);
  }

  lemma TriggerOk(cfg: Config, aim: Aim, s: Session, peer: Endpoint, txn: TxnId, now: nat)
    requires SessionOk(cfg, aim, s)
    ensures SessionOk(cfg, aim, Trigger(cfg, s, peer, txn, now))
  {
    var minted := TriggeredPair(cfg, s, peer, txn);
    if minted.Some? {
      AppendedQuiet(cfg, aim, s.checks, s.history, s.pending, minted.value);
      var c := s.checks.(pairs := s.checks.pairs + [minted.value]);
      SentQuiet(cfg, aim, c, s.history, s.pending, |s.checks.pairs|, now);
    }
  }

  lemma RequestOk(cfg: Config, aim: Aim, s: Session, tieBreaker: u64, claim: Claim, useCandidate: bool, peer: Endpoint,
                  fromTcp: bool, ch: Choices, now: nat)
    requires Sound(cfg, ch)
    requires SessionOk(cfg, aim, s) && (aim.Some? && useCandidate ==> peer == aim.value)
    ensures SessionOk(cfg, aim, Request(cfg, s, tieBreaker, claim, useCandidate, peer, fromTcp, ch, now))
  {
    FlipRoleOk(cfg, aim, s, ch, now);
    var t := if SameRole(s, claim) then FlipRole(cfg, s, ch, now) else s;
    if useCandidate {
      UseCandidateOk(cfg, aim, t, peer, fromTcp, ch, now);
    }
    var u := if useCandidate then UseCandidate(cfg, t, peer, fromTcp, ch, now) else t;
    TriggerOk(cfg, aim, u, peer, ch.txn, now);
  }

  lemma DropRemoteOk(cfg: Config, aim: Aim, s: Session, newCredentials: bool)
    requires SessionOk(cfg, aim, s)
    ensures SessionOk(cfg, aim, DropRemote(s, newCredentials))
  {
    EmptyQuiet(cfg, aim, s.history, s.pending);
  }

  lemma EndOfCandidatesOk(cfg: Config, aim: Aim, s: Session, ended: bool, now: nat)
    requires SessionOk(cfg, aim, s)
    ensures SessionOk(cfg, aim, EndOfCandidates(cfg, s, ended, now))
  {
    if !s.history.nomineeSelected {
      SelectNomineeOk(cfg, aim, s, now);
      SelectNomineeFrame(cfg, s, now);
    }
  }

  lemma RecheckOk(cfg: Config, aim: Aim, s: Session, ch: Choices, now: nat)
    requires Sound(cfg, ch)
    requires SessionOk(cfg, aim, s)
    ensures SessionOk(cfg, aim, Recheck(cfg, s, ch, now))
  {
    if AwaitsRemote(s) {
      EnterCheckingOk(cfg, aim, s, ch.build, now);
    } else if s.phase == Checking {
      RebuildAndRunOk(cfg, aim, s, ch.build, now);
    }
  }

  lemma AddRemoteOk(cfg: Config, aim: Aim, s: Session, newCredentials: bool, cands: seq<Candidate>, ended: bool,
                    ch: Choices, now: nat)
    requires Sound(cfg, ch)
    requires SessionOk(cfg, aim, s)
    ensures SessionOk(cfg, aim, AddRemote(cfg, s, newCredentials, cands, ended, ch, now))
  {
    DropRemoteOk(cfg, aim, s, newCredentials);
    EndOfCandidatesOk(cfg, aim, DropRemote(s, newCredentials), ended, now);
    var u := EndOfCandidates(cfg, DropRemote(s, newCredentials), ended, now);
    var t := u.(remotes := Merge(u.remotes, cands));
    SameCore(cfg, aim, u, t);
    RecheckOk(cfg, aim, t, ch, now);
  }

  lemma FireCheckOk(cfg: Config, aim: Aim, s: Session, gen: nat, now: nat)
    requires SessionOk(cfg, aim, s)
    ensures SessionOk(cfg, aim, FireCheck(cfg, s, gen, now))
  {
    RunNextCheckOk(cfg, aim, s.(timers := s.timers.(checks := s.timers.checks - {gen})), now);
  }

  lemma FireWaitOk(cfg: Config, aim: Aim, s: Session, gen: nat)
    requires SessionOk(cfg, aim, s)
    ensures SessionOk(cfg, aim, FireWait(s, gen))
  {
    assert Quiet(cfg, aim, s.checks, s.history, s.pending);
  }

  lemma SetRemoteOk(cfg: Config, aim: Aim, s: Session, cands: seq<Candidate>, ch: Choices, now: nat)
    requires Sound(cfg, ch)
    requires SessionOk(cfg, aim, s)
    ensures SessionOk(cfg, aim, SetRemote(cfg, s, cands, ch, now))
  {
    EnterCheckingOk(cfg, aim, s.(remotes := cands), ch.build, now);
  }

  lemma PeerFlagsOk(cfg: Config, aim: Aim, s: Session, symmetric: bool, ch: Choices, now: nat)
    requires Sound(cfg, ch)
    requires SessionOk(cfg, aim, s)
    ensures SessionOk(cfg, aim, PeerFlags(cfg, s, symmetric, ch, now))
  {
    RebuildAndRunOk(cfg, aim, s.(peerSymmetric := symmetric), ch.build, now);
  }

  lemma ResolvedOk(cfg: Config, aim: Aim, s: Session, remotes: seq<Candidate>, useful: bool, ch: Choices, now: nat)
    requires Sound(cfg, ch)
    requires SessionOk(cfg, aim, s)
    ensures SessionOk(cfg, aim, Resolved(cfg, s, remotes, useful, ch, now))
  {
    SameCore(cfg, aim, s, s.(remotes := remotes));
    RecheckOk(cfg, aim, s.(remotes := remotes), ch, now);
  }

  lemma GatherCompleteOk(cfg: Config, aim: Aim, s: Session, ch: Choices, now: nat)
    requires Sound(cfg, ch)
    requires SessionOk(cfg, aim, s)
    ensures SessionOk(cfg, aim, GatherComplete(cfg, s, ch, now))
  {
    EnterCheckingOk(cfg, aim, s, ch.build, now);
  }

  lemma RefoldOk(cfg: Config, aim: Aim, s: Session, ch: Choices, now: nat)
    requires Sound(cfg, ch)
    requires SessionOk(cfg, aim, s)
    ensures SessionOk(cfg, aim, Refold(cfg, s, ch, now))
  {
    RebuildAndRunOk(cfg, aim, s, ch.build, now);
  }

  lemma FailoverOk(cfg: Config, aim: Aim, s: Session, ch: Choices, now: nat)
    requires Sound(cfg, ch)
    requires SessionOk(cfg, aim, s)
    ensures SessionOk(cfg, aim, Failover(cfg, s, ch, now))
  {
    if s.phase == Connected {
      RebuildAndRunOk(cfg, aim, s.(phase := Checking), ch.build, now);
    } else {
      RebuildAndRunOk(cfg, aim, s, ch.build, now);
    }
  }

  lemma TcpConnectTimeoutOk(cfg: Config, aim: Aim, s: Session, peer: Endpoint)
    requires SessionOk(cfg, aim, s)
    ensures SessionOk(cfg, aim, s.(checks := TcpTimeout(s.checks, peer)))
  {
    TcpTimeoutOk(cfg, s.checks, peer);
    KeptQuiet(cfg, aim, s.checks, TcpTimeout(s.checks, peer), s.history, s.pending);
  }

  lemma ErrorResponseOk(cfg: Config, aim: Aim, s: Session, txn: TxnId)
    requires SessionOk(cfg, aim, s)
    ensures SessionOk(cfg, aim, ErrorResponse(s, txn))
  {
    var found := FindTxn(s.checks.pairs, txn, 0);
    if found.Some? {
      var p := s.checks.pairs[found.value].(state := PairState.Failed);
      CompletedQuiet(cfg, aim, s.checks, s.history, s.pending, found.value, p);
    }
  }

  /** A USE-CANDIDATE request that names an endpoint names this one. */
  predicate Names(e: Event, aim: Aim) { aim.Some? && e.GotRequest? && e.useCandidate ==> e.peer == aim.value }

  predicate IsSignal(e: Event) {
    e.SignalSetRemote? || e.SignalAddRemote? || e.SignalFlags? || e.MdnsAnswer? || e.GatheringDone?
    || e.RelayReady? || e.RelayFailover?
  }

  predicate IsLocal(e: Event) {
    e.CheckTimer? || e.WaitTimer? || e.KeepaliveTimer? || e.LocalsChanged? || e.GatherCalled? || e.RestartCalled?
    || e.CloseCalled?
  }

  lemma SignalStepOk(cfg: Config, aim: Aim, tieBreaker: u64, s: Session, e: Event, ch: Choices, now: nat)
    requires Sound(cfg, ch)
    requires SessionOk(cfg, aim, s) && IsSignal(e)
    ensures SessionOk(cfg, aim, Step(cfg, tieBreaker, s, e, ch, now))
  {
    match e
    case SignalSetRemote(cands) => SetRemoteOk(cfg, aim, s, cands, ch, now);
    case SignalAddRemote(newCredentials, cands, ended) =>
      AddRemoteOk(cfg, aim, s, newCredentials, cands, ended, ch, now);
    case SignalFlags(symmetric) => PeerFlagsOk(cfg, aim, s, symmetric, ch, now);
    case MdnsAnswer(slot, name, found) =>
      var useful := AskedFor(s.remotes, slot, name) && found != [];
      ResolvedOk(cfg, aim, s, Rewritten(s.remotes, slot, name, found), useful, ch, now);
    case GatheringDone => GatherCompleteOk(cfg, aim, s, ch, now);
    case RelayReady => RefoldOk(cfg, aim, s, ch, now);
    case RelayFailover(relay, allowed) =>
      var t := s.(locals := SwapRelay(s.locals, relay, allowed));
      SameCore(cfg, aim, s, t);
      FailoverOk(cfg, aim, t, ch, now);
  }

  lemma LocalStepOk(cfg: Config, aim: Aim, tieBreaker: u64, s: Session, e: Event, ch: Choices, now: nat)
    requires Sound(cfg, ch)
    requires SessionOk(cfg, aim, s) && IsLocal(e)
    ensures SessionOk(cfg, aim, Step(cfg, tieBreaker, s, e, ch, now))
  {
    match e
    case CheckTimer(gen) => FireCheckOk(cfg, aim, s, gen, now);
    case WaitTimer(gen) => FireWaitOk(cfg, aim, s, gen);
    case KeepaliveTimer => KeepaliveOk(cfg, aim, s, ch.rebuild, ch.loss, now);
    case LocalsChanged(locals, stride) => SameCore(cfg, aim, s, s.(locals := locals, ownStride := stride));
    case GatherCalled => SameCore(cfg, aim, s, s.(phase := Gathering));
    case RestartCalled => RestartOk(cfg, aim, s);
    case CloseCalled => SameCore(cfg, aim, s, Close(s));
  }

  /** Every handler keeps the invariant. */
  lemma StepOk(cfg: Config, aim: Aim, tieBreaker: u64, s: Session, e: Event, ch: Choices, now: nat)
    requires Sound(cfg, ch)
    requires SessionOk(cfg, aim, s) && Names(e, aim)
    ensures SessionOk(cfg, aim, Step(cfg, tieBreaker, s, e, ch, now))
  {
    if IsSignal(e) {
      SignalStepOk(cfg, aim, tieBreaker, s, e, ch, now);
    } else if IsLocal(e) {
      LocalStepOk(cfg, aim, tieBreaker, s, e, ch, now);
    } else {
      match e
      case GotResponse(txn, mapped, probe) => ResponseOk(cfg, aim, s, txn, mapped, probe, ch, now);
      case GotRoleConflict => FlipRoleOk(cfg, aim, s, ch, now);
      case GotError(txn) => ErrorResponseOk(cfg, aim, s, txn);
      case GotRequest(claim, useCandidate, peer, fromTcp) =>
        RequestOk(cfg, aim, s, tieBreaker, claim, useCandidate, peer, fromTcp, ch, now);
      case TcpConnectTimeout(peer) => TcpConnectTimeoutOk(cfg, aim, s, peer);
    }
  }

  /** The invariant holds in every reachable state. */
  lemma {:induction false} RunOk(cfg: Config, aim: Aim, tieBreaker: u64, controlling: bool, inputs: seq<Input>)
    requires forall k :: 0 <= k < |inputs| ==> Sound(cfg, inputs[k].choices) && Names(inputs[k].event, aim)
    ensures SessionOk(cfg, aim, After(cfg, tieBreaker, controlling, inputs))
  {
    if inputs == [] {
      EmptyQuiet(cfg, aim, History(false, [], []), NO_NOMINATION);
    } else {
      var i := inputs[|inputs| - 1];
      var s := After(cfg, tieBreaker, controlling, inputs[..|inputs| - 1]);
      RunOk(cfg, aim, tieBreaker, controlling, inputs[..|inputs| - 1]);
      StepOk(cfg, aim, tieBreaker, s, i.event, i.choices, i.now);
    }
  }

  // ---- What the invariant says, for every run ----

  /** No silent stall: a full agent that is still checking has a timer that will act. */
  lemma NoSilentStall(cfg: Config, tieBreaker: u64, controlling: bool, inputs: seq<Input>)
    requires forall j :: 0 <= j < |inputs| ==> Sound(cfg, inputs[j].choices)
    requires !cfg.lite && cfg.timers
    requires After(cfg, tieBreaker, controlling, inputs).phase == Checking
    ensures var t := After(cfg, tieBreaker, controlling, inputs).timers;
            t.checkGen in t.checks || t.waitGen in t.waits
  {
    RunOk(cfg, None, tieBreaker, controlling, inputs);
  }

  /**
   * In every run the connection in use is the last one recorded, so what is proved of recorded connections holds of
   * it.
   */
  lemma ConnectionsAreRecorded(cfg: Config, tieBreaker: u64, controlling: bool, inputs: seq<Input>)
    requires forall j :: 0 <= j < |inputs| ==> Sound(cfg, inputs[j].choices)
    requires After(cfg, tieBreaker, controlling, inputs).phase == Connected
    ensures var s := After(cfg, tieBreaker, controlling, inputs); LastConnect(s.history, s.nominated)
  {
    RunOk(cfg, None, tieBreaker, controlling, inputs);
  }

  /** Every frozen pair waits for an active pair of its foundation tuple, so the rescue of stuck pairs never acts. */
  lemma FrozenPairsAreRepresented(cfg: Config, tieBreaker: u64, controlling: bool, inputs: seq<Input>, i: nat)
    requires forall j :: 0 <= j < |inputs| ==> Sound(cfg, inputs[j].choices)
    ensures var ps := After(cfg, tieBreaker, controlling, inputs).checks.pairs;
            && (i < |ps| && ps[i].state == Frozen ==>
                  exists j :: 0 <= j < |ps| && Represents(ps[j], ps[i]))
            && UnfreezeStuck(ps) == ps
  {
    RunOk(cfg, None, tieBreaker, controlling, inputs);
    var ps := After(cfg, tieBreaker, controlling, inputs).checks.pairs;
    UnfreezeStuckIsIdle(ps);
    assert i < |ps| ==> HasRepresentative(ps, i);
  }

  /** The pacing limits: scheduled checks in flight, sends per pair, sends per list. */
  lemma PacingLimits(cfg: Config, tieBreaker: u64, controlling: bool, inputs: seq<Input>)
    requires forall j :: 0 <= j < |inputs| ==> Sound(cfg, inputs[j].choices)
    ensures var c := After(cfg, tieBreaker, controlling, inputs).checks;
            && Count(c.pairs, Scheduled) <= 10
            && (forall i :: 0 <= i < |c.pairs| ==> c.pairs[i].retries <= cfg.maxRetries)
            && c.sent == Sum(c.pairs, RetriesOf) <= |c.pairs| * cfg.maxRetries
  {
    RunOk(cfg, None, tieBreaker, controlling, inputs);
    var c := After(cfg, tieBreaker, controlling, inputs).checks;
    SendBudget(cfg, c);
    assert forall i :: 0 <= i < |c.pairs| ==> PairOk(cfg, c.pairs[i]);
  }

  /** Between two restarts at most one pair is nominated, and it was valid and best among the valid when chosen. */
  lemma OneNominee(cfg: Config, tieBreaker: u64, controlling: bool, inputs: seq<Input>)
    requires forall j :: 0 <= j < |inputs| ==> Sound(cfg, inputs[j].choices)
    ensures var h := After(cfg, tieBreaker, controlling, inputs).history;
            |h.nominees| <= 1 && forall k :: 0 <= k < |h.nominees| ==> WellChosen(h.nominees[k])
  {
    RunOk(cfg, None, tieBreaker, controlling, inputs);
  }

  /** Whenever a regular-mode agent connects as controller, it is on the answer of the one nominee. */
  lemma RegularControllerConnects(cfg: Config, tieBreaker: u64, controlling: bool, inputs: seq<Input>, k: nat)
    requires forall j :: 0 <= j < |inputs| ==> Sound(cfg, inputs[j].choices)
    requires k < |After(cfg, tieBreaker, controlling, inputs).history.connects|
    requires !cfg.aggressive && After(cfg, tieBreaker, controlling, inputs).history.connects[k].controlling
    ensures var c := After(cfg, tieBreaker, controlling, inputs).history.connects[k];
            && |c.nominees| == 1 && WellChosen(c.nominees[0])
            && c.answer.Some? && c.answer.value.pair < |c.pairs|
            && c.answer.value.txn == ChosenPair(c.nominees[0]).txn
            && SamePair(c.pairs[c.answer.value.pair], ChosenPair(c.nominees[0]))
            && c.nomination.endpoint == EndpointOf(c.pairs[c.answer.value.pair].remote)
  {
    RunOk(cfg, None, tieBreaker, controlling, inputs);
    var h := After(cfg, tieBreaker, controlling, inputs).history;
    assert ConnectOk(cfg, None, h.connects[k]);
  }

  /** When all USE-CANDIDATE requests name one endpoint, an agent connects as controlled to that endpoint only, and only
      once some pair to it has succeeded. */
  lemma ControlledAgentConnects(cfg: Config, tieBreaker: u64, controlling: bool, inputs: seq<Input>, e: Endpoint,
                                k: nat)
    requires forall j :: 0 <= j < |inputs| ==> Sound(cfg, inputs[j].choices) && Names(inputs[j].event, Some(e))
    requires k < |After(cfg, tieBreaker, controlling, inputs).history.connects|
    requires !After(cfg, tieBreaker, controlling, inputs).history.connects[k].controlling
    ensures var c := After(cfg, tieBreaker, controlling, inputs).history.connects[k];
            c.nomination.endpoint == e && Reached(c.pairs, e)
  {
    RunOk(cfg, Some(e), tieBreaker, controlling, inputs);
    var h := After(cfg, tieBreaker, controlling, inputs).history;
    assert ConnectOk(cfg, Some(e), h.connects[k]);
  }

  // ---- Merging trickled candidates ----

  ghost predicate Distinct(cs: seq<Candidate>) {
    forall i, j :: 0 <= i < j < |cs| ==> !SameCandidate(cs[i], cs[j])
  }

  ghost predicate TakenIn(cs: seq<Candidate>, c: Candidate) {
    exists i :: 0 <= i < |cs| && SameCandidate(cs[i], c)
  }

  /** Merging keeps what was there, takes in every new candidate once, and adds nothing else. */
  lemma {:induction false} MergeIsUnion(remotes: seq<Candidate>, cands: seq<Candidate>)
    ensures remotes <= Merge(remotes, cands)
    ensures forall c :: c in cands ==> TakenIn(Merge(remotes, cands), c)
    ensures forall c :: c in Merge(remotes, cands) ==> c in remotes || c in cands
    ensures Distinct(remotes) ==> Distinct(Merge(remotes, cands))
    decreases |cands|
  {
    if cands != [] {
      var c := cands[0];
      var next := if TakenIn(remotes, c) then remotes else remotes + [c];
      MergeIsUnion(next, cands[1..]);
      assert TakenIn(next, c) by {
        if next == remotes + [c] {
          assert SameCandidate(next[|remotes|], c);
        }
      }
      var i :| 0 <= i < |next| && SameCandidate(next[i], c);
      assert SameCandidate(Merge(next, cands[1..])[i], c);
      assert cands == [c] + cands[1..];
    }
  }

  /**
   * A useful answer puts a host candidate at every address found, with the port of the candidate that was asked for.
   */
  lemma AnswerResolves(remotes: seq<Candidate>, slot: nat, name: seq<byte>, found: seq<Address>, k: nat)
    requires AskedFor(remotes, slot, name) && k < |found| && IsIp(found[k])
    ensures exists c :: c in Rewritten(remotes, slot, name, found) && c.kind == HOST
                        && EndpointOf(c) == Endpoint(found[k], remotes[slot].port)
  {
    var r, n := Rewritten(remotes, slot, name, found), |remotes|;
    if k == 0 {
      assert r[slot] in r && r[slot].kind == HOST;
    } else {
      assert r[n + k - 1] == CandidateAt(HOST, found[1..][k - 1], remotes[slot].port);
      assert r[n + k - 1] in r;
    }
  }

  /** No answer touches another candidate, and an answer is taken once. */
  lemma AnswerIsLocal(remotes: seq<Candidate>, slot: nat, name: seq<byte>, found: seq<Address>)
    ensures var r := Rewritten(remotes, slot, name, found);
            && |r| >= |remotes| && !AskedFor(r, slot, name)
            && forall i :: 0 <= i < |remotes| && i != slot ==> r[i] == remotes[i]
  {
  }

  /** After a failover the relay candidates are the new one or none, and the others are as they were. */
  lemma OneRelay(locals: seq<Candidate>, relay: Endpoint, allowed: bool, c: Candidate)
    ensures c in SwapRelay(locals, relay, allowed) <==>
            (c in locals && c.kind != RELAY) || (allowed && c == CandidateAt(RELAY, relay.address, relay.port))
  {
    WithoutRelaysExactly(locals, c);
  }
}
