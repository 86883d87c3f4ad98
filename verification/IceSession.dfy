/**
 * The session object: its fields, and its handlers as loops and assignments. Every handler is proved equal to the
 * state function of the same name, so what holds of every run of those functions holds of every object.
 */
module Agent {
  import opened Bytes
  import opened Sequences
  import opened Candidates
  import opened L = CheckList
  import opened CheckListLaws
  import opened S = Session
  import SessionLaws
  import TimerLaws

  function DefaultBuilder(cfg: Config): Builder { (from: Sides) => Canonical(cfg, from) }

  lemma DefaultBuilds(cfg: Config)
    ensures Builds(cfg, DefaultBuilder(cfg))
  {
    forall from
      ensures Outcome(cfg, DefaultBuilder(cfg), from)
    {
      CanonicalIsBuilt(cfg, from);
    }
  }

  /** The builder that gives this list for these sides. */
  function BuilderOf(cfg: Config, sides: Sides, ps: seq<CheckPair>): Builder
  {
    (from: Sides) => if from == sides then ps else Canonical(cfg, from)
  }

  lemma BuilderOfBuilds(cfg: Config, sides: Sides, ps: seq<CheckPair>)
    requires IsBuilt(cfg, sides, ps)
    ensures Builds(cfg, BuilderOf(cfg, sides, ps))
  {
    forall from
      ensures Outcome(cfg, BuilderOf(cfg, sides, ps), from)
    {
      if from != sides {
        CanonicalIsBuilt(cfg, from);
      }
    }
  }

  /** Leaving the promotion loop at the cap skips nothing. */
  lemma PromoteAtCap(cfg: Config, c: Checks, i: nat, now: nat)
    requires AtCap(c.pairs)
    ensures Sweep(c, i, |c.pairs|, PromoteStep(cfg, now)) == c
  {
    var inv := (d: Checks) => d == c;
    SweepKeeps(c, i, |c.pairs|, PromoteStep(cfg, now), inv);
  }

  /** Leaving the happy-eyeballs loop with both families tried skips nothing. */
  lemma PrefireDone(cfg: Config, f: Prefiring, i: nat, n: nat, now: nat)
    requires f.v4 && f.v6
    ensures Sweep(f, i, n, PrefireStep(cfg, now)) == f
  {
    var inv := (g: Prefiring) => g == f;
    SweepKeeps(f, i, n, PrefireStep(cfg, now), inv);
  }

  lemma {:induction false} CountExtends(ps: seq<CheckPair>, i: nat)
    requires i < |ps|
    ensures Count(ps[..i + 1], IsInFlight) == Count(ps[..i], IsInFlight) + if ps[i].state.InProgress? then 1 else 0
  {
    assert ps[..i + 1][..i] == ps[..i];
  }

  lemma AssocPairs(a: seq<CheckPair>, b: seq<CheckPair>, c: seq<CheckPair>)
    ensures a + b + c == a + (b + c)
  {
  }

  lemma RowExtends(l: Candidate, rs: seq<Candidate>, j: nat, controlling: bool, stride: u16, attempts: nat,
                   prior: seq<CheckPair>)
    requires j < |rs|
    ensures prior + Row(l, rs[..j], controlling, stride, attempts) + PairsFor(l, rs[j], controlling, stride, attempts)
            == prior + Row(l, rs[..j + 1], controlling, stride, attempts)
  {
    assert rs[..j + 1][..j] == rs[..j];
    AssocPairs(prior, Row(l, rs[..j], controlling, stride, attempts),
               PairsFor(l, rs[j], controlling, stride, attempts));
  }

  lemma RowsExtend(ls: seq<Candidate>, i: nat, rs: seq<Candidate>, controlling: bool, stride: u16, attempts: nat)
    requires i < |ls|
    ensures Rows(ls[..i], rs, controlling, stride, attempts) + Row(ls[i], rs, controlling, stride, attempts)
            == Rows(ls[..i + 1], rs, controlling, stride, attempts)
  {
    assert ls[..i + 1][..i] == ls[..i];
  }

  lemma BareAppend(ps: seq<CheckPair>, p: CheckPair)
    ensures BareAll(ps + [p]) == BareAll(ps) + [Bare(p)]
  {
  }

  class IceSession {
    const cfg: Config
    const tieBreaker: u64
    var phase: Phase
    var controlling: bool
    var checkList: seq<CheckPair>
    ghost var sent: nat
    var locals: seq<Candidate>
    var remotes: seq<Candidate>
    var history: History
    var timers: Timers
    var pending: Nomination
    var nominated: Nomination
    var consentMissed: nat
    var recoveries: nat
    var peerSymmetric: bool
    var ownStride: u16

    ghost function List(): (c: Checks)
      reads `checkList, `sent
    {
      Checks(checkList, sent)
    }

    ghost function View(): (s: Session)
      reads this
    {
      Session(phase, controlling, List(), locals, remotes, history,
              timers, pending, nominated, consentMissed, recoveries, peerSymmetric, ownStride)
    }

    constructor (config: Config, tieBreaker: u64, isControlling: bool)
      ensures cfg == config && this.tieBreaker == tieBreaker && View() == Initial(config, isControlling)
      ensures TimerLaws.Armed(timers)
    {
      cfg, this.tieBreaker := config, tieBreaker;
      phase, controlling := New, if config.lite then false else isControlling;
      checkList, sent, locals, remotes := [], 0, [], [];
      history := History(false, [], []);
      timers := Timers(0, {}, 0, {}, false);
      pending, nominated := NO_NOMINATION, NO_NOMINATION;
      consentMissed, recoveries, peerSymmetric, ownStride := 0, 0, false, 0;
    }

    // ---- The check list ----

    method InProgressCount() returns (n: nat)
      ensures n == Count(checkList, IsInFlight)
    {
      n := 0;
      for i := 0 to |checkList|
        invariant n == Count(checkList[..i], IsInFlight)
      {
        CountExtends(checkList, i);
        if checkList[i].state.InProgress? {
          n := n + 1;
        }
      }
      assert checkList[..|checkList|] == checkList;
    }

    method HasActive() returns (found: bool)
      ensures found == AnyActive(checkList)
    {
      for i := 0 to |checkList|
        invariant forall k :: 0 <= k < i ==> !IsActive(checkList[k])
      {
        if IsActive(checkList[i]) {
          return true;
        }
      }
      return false;
    }

    method HasPending() returns (found: bool)
      ensures found == AnyPending(checkList)
    {
      for i := 0 to |checkList|
        invariant forall k :: 0 <= k < i ==> !IsPending(checkList[k])
      {
        if IsPending(checkList[i]) {
          return true;
        }
      }
      return false;
    }

    method HasValid() returns (found: bool)
      ensures found == AnyValid(checkList)
    {
      for i := 0 to |checkList|
        invariant forall k :: 0 <= k < i ==> !checkList[k].valid
      {
        if checkList[i].valid {
          return true;
        }
      }
      return false;
    }

    method UnfreezeSiblings(lf: Foundation, rf: Foundation)
      modifies `checkList
      ensures checkList == L.UnfreezeSiblings(old(checkList), lf, rf)
    {
      if lf == "" || rf == "" {
        return;
      }
      ghost var was := checkList;
      for i := 0 to |checkList|
        invariant |checkList| == |was|
        invariant forall k :: 0 <= k < i ==> checkList[k] == Thaw(was[k], lf, rf)
        invariant forall k :: i <= k < |was| ==> checkList[k] == was[k]
      {
        var p := checkList[i];
        if p.state.Frozen? && p.local.foundation == lf && p.remote.foundation == rf {
          checkList := checkList[i := p.(state := Waiting)];
        }
      }
    }

    /** Pair i fails and its foundation siblings thaw. */
    method Fail(i: nat)
      requires i < |checkList|
      modifies `checkList
      ensures checkList == Complete(old(checkList), i, old(checkList)[i].(state := PairState.Failed))
    {
      var p := checkList[i].(state := PairState.Failed);
      checkList := checkList[i := p];
      UnfreezeSiblings(p.local.foundation, p.remote.foundation);
    }

    method SendCheck(i: nat, now: nat)
      requires i < |checkList|
      modifies `checkList, `sent
      ensures List() == L.SendCheck(cfg, old(List()), i, now)
    {
      var p := checkList[i];
      if p.retries >= cfg.maxRetries {
        Fail(i);
      } else {
        checkList := checkList[i := p.(retries := p.retries + 1, sentAt := now)];
        sent := sent + 1;
      }
    }

    /** Pair i enters InProgress with its first check. */
    method StartCheck(i: nat, now: nat)
      requires i < |checkList|
      modifies `checkList, `sent
      ensures List() == Start(cfg, old(List()), i, now)
    {
      checkList := checkList[i := checkList[i].(state := InProgress)];
      SendCheck(i, now);
    }

    method UnfreezeStuckPairs()
      modifies `checkList
      ensures checkList == UnfreezeStuck(old(checkList))
    {
      var active := HasActive();
      if active {
        return;
      }
      var promoted: set<string> := {};
      ghost var n, final := |checkList|, Sweep(Labelling(checkList, {}), 0, |checkList|, StuckStep);
      for i := 0 to |checkList|
        invariant |checkList| == n
        invariant Sweep(Labelling(checkList, promoted), i, n, StuckStep) == final
      {
        var p := checkList[i];
        if p.state.Frozen? && Key(p) !in promoted {
          promoted := promoted + {Key(p)};
          checkList := checkList[i := p.(state := Waiting)];
        }
      }
    }

    method AssignInitialPairStates()
      modifies `checkList
      ensures checkList == AssignStates(old(checkList))
    {
      var seen: set<string> := {};
      ghost var n, final := |checkList|, Sweep(Labelling(checkList, {}), 0, |checkList|, InitialStep);
      for i := 0 to |checkList|
        invariant |checkList| == n
        invariant Sweep(Labelling(checkList, seen), i, n, InitialStep) == final
      {
        var p := checkList[i];
        checkList := checkList[i := p.(state := if Key(p) in seen then Frozen else Waiting)];
        seen := seen + {Key(p)};
      }
    }

    /** First pass of a tick: retransmit what is due, fail what is spent. */
    method RetransmitDue(now: nat)
      modifies `checkList, `sent
      ensures List() == Retransmit(cfg, old(List()), now)
    {
      ghost var n, final := |checkList|, Retransmit(cfg, List(), now);
      for i := 0 to |checkList|
        invariant |checkList| == n
        invariant Sweep(List(), i, n, RetransmitStep(cfg, now)) == final
      {
        var p := checkList[i];
        ghost var before := List();
        if p.state.InProgress? && !Resting(cfg, p, now) {
          if p.retries >= cfg.maxRetries {
            Fail(i);
          } else {
            SendCheck(i, now);
          }
        }
        assert List() == RetransmitStep(cfg, now)(before, i);
      }
    }

    /** Second pass: waiting pairs start until the cap is reached. */
    method PromoteWaiting(now: nat)
      modifies `checkList, `sent
      ensures List() == Promote(cfg, old(List()), now)
    {
      ghost var n, final := |checkList|, Promote(cfg, List(), now);
      for i := 0 to |checkList|
        invariant |checkList| == n
        invariant Sweep(List(), i, n, PromoteStep(cfg, now)) == final
      {
        var p := checkList[i];
        ghost var before := List();
        var inFlight := InProgressCount();
        if inFlight >= CAP {
          PromoteAtCap(cfg, List(), i, now);
          return;
        }
        if p.state.Waiting? && p.retries < cfg.maxRetries {
          StartCheck(i, now);
        }
        assert List() == PromoteStep(cfg, now)(before, i);
      }
    }

    /** Happy eyeballs. */
    method PrefireFamilies(now: nat)
      modifies `checkList, `sent
      ensures List() == Prefire(cfg, old(List()), now)
    {
      var v4, v6 := false, false;
      ghost var n, final := |checkList|, Sweep(Prefiring(List(), false, false), 0, |checkList|, PrefireStep(cfg, now));
      for i := 0 to |checkList|
        invariant |checkList| == n
        invariant Sweep(Prefiring(List(), v4, v6), i, n, PrefireStep(cfg, now)) == final
      {
        if v4 && v6 {
          PrefireDone(cfg, Prefiring(List(), v4, v6), i, n, now);
          return;
        }
        var p := checkList[i];
        ghost var before := Prefiring(List(), v4, v6);
        if p.state.Waiting? && p.local.family == IPV4 && !v4 {
          StartCheck(i, now);
          v4 := true;
        } else if p.state.Waiting? && p.local.family == IPV6 && !v6 {
          StartCheck(i, now);
          v6 := true;
        }
        assert Prefiring(List(), v4, v6) == PrefireStep(cfg, now)(before, i);
      }
    }

    // ---- Building ----

    method AddPredictions(pair: CheckPair, stride: u16, attempts: nat)
      requires pair.state == Frozen
      modifies `checkList
      ensures BareAll(checkList) == old(BareAll(checkList)) + Predictions(Bare(pair), stride, 1, attempts)
    {
      ghost var final := BareAll(checkList) + Predictions(Bare(pair), stride, 1, attempts);
      var k: nat := 1;
      while k <= attempts
        invariant BareAll(checkList) + Predictions(Bare(pair), stride, k, attempts) == final
        decreases attempts + 1 - k
      {
        var port := pair.remote.port as int + stride as int * k;
        if port > 65535 {
          return;
        }
        var txn: TxnId := *;
        var predicted := PredictedPair(pair, port).(txn := txn);
        BareAppend(checkList, predicted);
        checkList := checkList + [predicted];
        k := k + 1;
      }
    }

    method AddPairs(l: Candidate, r: Candidate, stride: u16, attempts: nat)
      modifies `checkList
      ensures BareAll(checkList) == old(BareAll(checkList)) + PairsFor(l, r, controlling, stride, attempts)
    {
      if !Compatible(l, r) {
        return;
      }
      var txn: TxnId := *;
      var pair := NewPair(l, r, controlling).(txn := txn);
      BareAppend(checkList, pair);
      checkList := checkList + [pair];
      if r.kind == SRFLX && stride != 0 {
        AddPredictions(pair, stride, attempts);
      }
    }

    method AddRow(l: Candidate, stride: u16, attempts: nat)
      modifies `checkList
      ensures BareAll(checkList) == old(BareAll(checkList)) + Row(l, remotes, controlling, stride, attempts)
    {
      ghost var prior := BareAll(checkList);
      for j := 0 to |remotes|
        invariant BareAll(checkList) == prior + Row(l, remotes[..j], controlling, stride, attempts)
      {
        AddPairs(l, remotes[j], stride, attempts);
        RowExtends(l, remotes, j, controlling, stride, attempts, prior);
      }
      assert remotes[..|remotes|] == remotes;
    }

    method AssignFoundations()
      modifies `locals, `remotes
      ensures locals == StampAll(cfg.hash, old(locals)) && remotes == StampAll(cfg.hash, old(remotes))
    {
      for i := 0 to |locals|
        invariant remotes == old(remotes) && |locals| == |old(locals)|
        invariant forall k :: 0 <= k < i ==> locals[k] == Stamped(cfg.hash, old(locals)[k])
        invariant forall k :: i <= k < |locals| ==> locals[k] == old(locals)[k]
      {
        locals := locals[i := Stamped(cfg.hash, locals[i])];
      }
      for i := 0 to |remotes|
        invariant locals == StampAll(cfg.hash, old(locals)) && |remotes| == |old(remotes)|
        invariant forall k :: 0 <= k < i ==> remotes[k] == Stamped(cfg.hash, old(remotes)[k])
        invariant forall k :: i <= k < |remotes| ==> remotes[k] == old(remotes)[k]
      {
        remotes := remotes[i := Stamped(cfg.hash, remotes[i])];
      }
    }

    /** Every admissible pair, unsorted. */
    method AddRows(stride: u16, attempts: nat)
      modifies `checkList
      ensures BareAll(checkList) == Rows(locals, remotes, controlling, stride, attempts)
    {
      checkList := [];
      for i := 0 to |locals|
        invariant BareAll(checkList) == Rows(locals[..i], remotes, controlling, stride, attempts)
      {
        AddRow(locals[i], stride, attempts);
        RowsExtend(locals, i, remotes, controlling, stride, attempts);
      }
      assert locals[..|locals|] == locals;
    }

    /** Sorting and labelling the raw pairs of these sides gives a built list. */
    method Arrange(ghost sides: Sides)
      requires BareAll(checkList) == Rows(StampAll(cfg.hash, sides.locals), StampAll(cfg.hash, sides.remotes),
                                          sides.controlling, sides.stride, Attempts(cfg, sides.stride))
      modifies `checkList
      ensures IsBuilt(cfg, sides, checkList)
    {
      ghost var raw := checkList;
      checkList := Sorted(checkList);
      ArrangedIsBuilt(cfg, sides, raw, checkList);
      AssignInitialPairStates();
    }

    method PredictionStride() returns (stride: u16)
      ensures stride == Stride(cfg, View())
    {
      if !peerSymmetric || !cfg.prediction {
        return 0;
      }
      return if ownStride != 0 then ownStride else 1;
    }

    method BuildPairs() returns (ghost sides: Sides)
      modifies `checkList, `locals, `remotes
      ensures sides == SidesOf(cfg, old(View())) && IsBuilt(cfg, sides, checkList)
      ensures locals == StampAll(cfg.hash, old(locals)) && remotes == StampAll(cfg.hash, old(remotes))
    {
      sides := SidesOf(cfg, View());
      var stride := PredictionStride();
      var attempts: nat := if stride != 0 && cfg.predictionAttempts > 0 then cfg.predictionAttempts else 0;
      AssignFoundations();
      AddRows(stride, attempts);
      Arrange(sides);
    }

    method BuildCheckList() returns (ghost b: Builder)
      modifies `checkList, `sent, `locals, `remotes
      ensures Builds(cfg, b) && View() == Rebuild(cfg, old(View()), b)
    {
      ghost var sides := BuildPairs();
      sent := 0;
      b := BuilderOf(cfg, sides, checkList);
      BuilderOfBuilds(cfg, sides, checkList);
    }

    // ---- Scheduling ----

    method ArmCheckTimer()
      modifies `timers
      ensures timers == ArmCheck(cfg, old(timers))
    {
      if cfg.timers {
        var gen := timers.checkGen + 1;
        timers := timers.(checkGen := gen, checks := timers.checks + {gen});
      }
    }

    method ArmWaitTimer()
      modifies `timers
      ensures timers == ArmWait(cfg, old(timers))
    {
      timers := timers.(waitArmed := true);
      if cfg.timers {
        var gen := timers.waitGen + 1;
        timers := timers.(waitGen := gen, waits := timers.waits + {gen});
      }
    }

    method Walk(now: nat)
      modifies `checkList, `sent
      ensures List() == Walked(cfg, old(List()), now)
    {
      UnfreezeStuckPairs();
      RetransmitDue(now);
    }

    /**
     * Nothing is pending: a controlled agent with a valid pair waits for the nomination, otherwise the session fails.
     */
    method Exhausted()
      modifies `phase, `timers
      ensures View() == if !controlling && !old(timers).waitArmed && cfg.nominationWaitMs > 0 && AnyValid(checkList)
                        then old(View()).(timers := ArmWait(cfg, old(View()).timers))
                        else old(View()).(phase := Phase.Failed)
    {
      if !controlling && !timers.waitArmed && cfg.nominationWaitMs > 0 {
        var valid := HasValid();
        if valid {
          ArmWaitTimer();
          return;
        }
      }
      phase := Phase.Failed;
    }

    method RunNextCheck(now: nat)
      modifies `checkList, `sent, `phase, `timers
      ensures View() == S.RunNextCheck(cfg, old(View()), now)
    {
      if phase != Checking {
        return;
      }
      Walk(now);
      var anyPending := HasPending();
      PromoteWaiting(now);
      if anyPending {
        ArmCheckTimer();
      } else {
        Exhausted();
      }
    }

    method BeginChecks(now: nat)
      modifies `checkList, `sent, `phase, `timers
      ensures View() == S.BeginChecks(cfg, old(View()), now)
    {
      if cfg.lite {
        return;
      }
      PrefireFamilies(now);
      RunNextCheck(now);
    }

    method EnterChecking(now: nat) returns (ghost b: Builder)
      modifies this
      ensures Builds(cfg, b) && View() == S.EnterChecking(cfg, old(View()), b, now)
    {
      phase := Checking;
      b := BuildCheckList();
      BeginChecks(now);
    }

    method RebuildAndRun(now: nat) returns (ghost b: Builder)
      modifies this
      ensures Builds(cfg, b) && View() == S.RebuildAndRun(cfg, old(View()), b, now)
    {
      b := BuildCheckList();
      RunNextCheck(now);
    }

    // ---- Restart, close, consent, nomination ----

    method CancelTimers()
      modifies `timers
      ensures timers == Cancelled(old(timers))
      ensures TimerLaws.Armed(old(timers)) ==> TimerLaws.Armed(timers) && !SessionLaws.Live(timers)
    {
      timers := timers.(checkGen := timers.checkGen + 1, waitGen := timers.waitGen + 1, waitArmed := false);
    }

    method Gather()
      modifies `phase
      ensures View() == old(View()).(phase := Gathering)
    {
      phase := Gathering;
    }

    method DropCandidates()
      modifies `locals, `remotes, `checkList, `sent, `history
      ensures locals == [] && remotes == [] && List() == Checks([], 0)
      ensures history == old(history).(nomineeSelected := false, nominees := [])
    {
      locals, remotes, checkList, sent := [], [], [], 0;
      history := history.(nomineeSelected := false, nominees := []);
    }

    method ResetCounters()
      modifies `consentMissed, `recoveries, `peerSymmetric, `ownStride
      ensures consentMissed == 0 && recoveries == 0 && !peerSymmetric && ownStride == 0
    {
      consentMissed, recoveries, peerSymmetric, ownStride := 0, 0, false, 0;
    }

    method Restart()
      modifies this
      ensures View() == S.Restart(old(View()))
    {
      if phase == Phase.Failed {
        return;
      }
      CancelTimers();
      DropCandidates();
      ResetCounters();
      nominated := NO_NOMINATION.(transport := nominated.transport);
      phase := Gathering;
    }

    method Close()
      modifies `phase, `timers
      ensures View() == S.Close(old(View()))
      ensures TimerLaws.Armed(old(timers)) ==> !SessionLaws.Live(timers)
    {
      phase := Phase.Failed;
      CancelTimers();
    }

    method RecoverConsent(now: nat) returns (ghost b: Builder)
      modifies this
      ensures Builds(cfg, b) && View() == Recover(cfg, old(View()), b, now)
    {
      var attempt := recoveries + 1;
      b := EnterChecking(now);
      recoveries, consentMissed := attempt, 0;
    }

    method LoseConsent(loss: Loss)
      modifies this
      ensures View() == ConsentLost(old(View()), loss)
    {
      match loss {
        case LossRestarts => Restart();
        case LossCoalesces => consentMissed := 0;
        case LossFails =>
          consentMissed := consentMissed + 1;
          phase := Phase.Failed;
      }
    }

    method OnKeepalive(loss: Loss, now: nat) returns (ghost b: Builder)
      modifies this
      ensures Builds(cfg, b) && View() == Keepalive(cfg, old(View()), b, loss, now)
    {
      DefaultBuilds(cfg);
      b := DefaultBuilder(cfg);
      if phase != Connected || cfg.lite {
        return;
      }
      if consentMissed + 1 < cfg.consentMaxFailures {
        consentMissed := consentMissed + 1;
      } else if recoveries < cfg.consentMaxRecovery {
        b := RecoverConsent(now);
      } else {
        LoseConsent(loss);
      }
    }

    method MarkConnected(nomination: Nomination, answer: Option<Answer>)
      modifies `phase, `timers, `history, `consentMissed, `recoveries, `nominated
      ensures View() == Connecting(old(View()), nomination, answer)
    {
      CancelTimers();
      var connect := Connect(controlling, nomination, checkList, answer, history.nominees);
      history := history.(connects := history.connects + [connect]);
      phase := Connected;
      consentMissed, recoveries := 0, 0;
      nominated := nomination;
    }

    method OnNominated(nomination: Nomination, answer: Option<Answer>, loss: Loss, now: nat) returns (ghost b: Builder)
      modifies this
      ensures Builds(cfg, b)
      ensures View() == Keepalive(cfg, Connecting(old(View()), nomination, answer), b, loss, now)
    {
      MarkConnected(nomination, answer);
      b := OnKeepalive(loss, now);
    }

    method FindBestValid() returns (best: Option<nat>)
      ensures best == BestValid(checkList, 0, None)
    {
      best := None;
      for i := 0 to |checkList|
        invariant best.Some? ==> best.value < i && checkList[best.value].valid
                                 && forall j :: 0 <= j < i && checkList[j].valid ==>
                                                  checkList[j].priority <= checkList[best.value].priority
        invariant best.None? ==> forall j :: 0 <= j < i ==> !checkList[j].valid
        invariant BestValid(checkList, i, best) == BestValid(checkList, 0, None)
      {
        if checkList[i].valid && (best.None? || checkList[i].priority > checkList[best.value].priority) {
          best := Some(i);
        }
      }
    }

    /** A regular controller commits to the best valid pair. */
    method SelectNominee(now: nat)
      modifies `checkList, `sent, `history
      ensures View() == S.SelectNominee(cfg, old(View()), now)
    {
      var best := FindBestValid();
      if best.Some? {
        history := history.(nomineeSelected := true, nominees := history.nominees + [Nominee(checkList, best.value)]);
        checkList := checkList[best.value := checkList[best.value].(nomineeSent := true)];
        SendCheck(best.value, now);
      }
    }

    // ---- Timers ----

    method OnCheckTimer(gen: nat, now: nat)
      modifies this
      ensures View() == FireCheck(cfg, old(View()), gen, now)
    {
      timers := timers.(checks := timers.checks - {gen});
      if timers.checkGen != gen {
        return;
      }
      RunNextCheck(now);
    }

    method OnWaitTimer(gen: nat)
      modifies `timers, `phase
      ensures View() == FireWait(old(View()), gen)
    {
      timers := timers.(waits := timers.waits - {gen});
      if timers.waitGen != gen || phase == Connected {
        return;
      }
      phase := Phase.Failed;
    }

    // ---- Signalling ----

    method Known(c: Candidate) returns (found: bool)
      ensures found == exists i :: 0 <= i < |remotes| && SameCandidate(remotes[i], c)
    {
      for i := 0 to |remotes|
        invariant forall k :: 0 <= k < i ==> !SameCandidate(remotes[k], c)
      {
        if SameCandidate(remotes[i], c) {
          return true;
        }
      }
      return false;
    }

    method MergeRemotes(cands: seq<Candidate>)
      modifies `remotes
      ensures remotes == Merge(old(remotes), cands)
    {
      for i := 0 to |cands|
        invariant Merge(remotes, cands[i..]) == Merge(old(remotes), cands)
      {
        assert cands[i..][0] == cands[i] && cands[i..][1..] == cands[i + 1..];
        var known := Known(cands[i]);
        if !known {
          remotes := remotes + [cands[i]];
        }
      }
    }

    method SetRemoteCandidates(cands: seq<Candidate>, now: nat) returns (ghost ch: Choices)
      modifies this
      ensures Sound(cfg, ch) && View() == SetRemote(cfg, old(View()), cands, ch, now)
    {
      ch := Defaults();
      remotes := cands;
      if (phase == WaitingRemote || phase == Gathering) && locals != [] {
        ghost var b := EnterChecking(now);
        ch := ch.(build := b);
      }
    }

    ghost method Defaults() returns (ch: Choices)
      ensures Sound(cfg, ch)
    {
      DefaultBuilds(cfg);
      ch := Choices(DefaultBuilder(cfg), DefaultBuilder(cfg), 0, LossFails);
    }

    /** New credentials drop the old remote state; the end of candidates lets a regular controller commit. */
    method PrepareRemote(newCredentials: bool, ended: bool, now: nat)
      modifies `remotes, `checkList, `sent, `history
      ensures View() == EndOfCandidates(cfg, DropRemote(old(View()), newCredentials), ended, now)
    {
      if newCredentials {
        remotes, checkList, sent := [], [], 0;
      }
      if ended && controlling && !cfg.aggressive && !history.nomineeSelected {
        SelectNominee(now);
      }
    }

    method RecheckRemotes(now: nat) returns (ghost ch: Choices)
      modifies this
      ensures Sound(cfg, ch) && View() == Recheck(cfg, old(View()), ch, now)
    {
      ch := Defaults();
      if phase == WaitingRemote || phase == Gathering {
        if locals != [] {
          ghost var b := EnterChecking(now);
          ch := ch.(build := b);
        }
      } else if phase == Checking {
        ghost var b := RebuildAndRun(now);
        ch := ch.(build := b);
      }
    }

    method AddRemoteCandidates(newCredentials: bool, cands: seq<Candidate>, ended: bool, now: nat)
      returns (ghost ch: Choices)
      modifies this
      ensures Sound(cfg, ch) && View() == AddRemote(cfg, old(View()), newCredentials, cands, ended, ch, now)
    {
      ch := Defaults();
      PrepareRemote(newCredentials, ended, now);
      MergeRemotes(cands);
      if remotes != [] {
        ch := RecheckRemotes(now);
      }
    }

    method SetPeerSignalFlags(symmetric: bool, now: nat) returns (ghost ch: Choices)
      modifies this
      ensures Sound(cfg, ch) && View() == PeerFlags(cfg, old(View()), symmetric, ch, now)
    {
      ch := Defaults();
      var changed := symmetric != peerSymmetric;
      peerSymmetric := symmetric;
      if changed && phase == Checking && remotes != [] && locals != [] {
        ghost var b := RebuildAndRun(now);
        ch := ch.(build := b);
      }
    }

    /** The in-place rewriting of the slot, and the candidates appended for further addresses. */
    method RewriteSlot(slot: nat, name: seq<byte>, found: seq<Address>) returns (useful: bool)
      modifies `remotes
      ensures remotes == Rewritten(old(remotes), slot, name, found)
      ensures useful <==> AskedFor(old(remotes), slot, name) && found != []
    {
      if slot >= |remotes| || remotes[slot].kind != HOST_MDNS || remotes[slot].hostname != name {
        return false;
      }
      var c := remotes[slot].(kind := HOST, hostname := []);
      if found == [] {
        remotes := remotes[slot := c];
        return false;
      }
      c := WithAddress(c, found[0]).(priority := ComputePriority(HOST, 65535, 1));
      remotes := remotes[slot := c];
      ghost var first := remotes;
      for k := 1 to |found|
        invariant remotes == first + HostsAt(found[1..k], c.port)
      {
        HostsAtAppend(found[1..k], found[k], c.port);
        assert found[1..k] + [found[k]] == found[1..k + 1];
        remotes := remotes + [CandidateAt(HOST, found[k], c.port)];
      }
      assert found[1..|found|] == found[1..];
      return true;
    }

    method OnMdnsAnswer(slot: nat, name: seq<byte>, found: seq<Address>, now: nat) returns (ghost ch: Choices)
      modifies this
      ensures Sound(cfg, ch)
      ensures var s := old(View());
              View() == Resolved(cfg, s, Rewritten(s.remotes, slot, name, found),
                                 AskedFor(s.remotes, slot, name) && found != [], ch, now)
    {
      ch := Defaults();
      if phase == Phase.Failed {
        return;
      }
      var useful := RewriteSlot(slot, name, found);
      if useful {
        ch := RecheckRemotes(now);
      }
    }

    method OnGatheringComplete(now: nat) returns (ghost ch: Choices)
      modifies this
      ensures Sound(cfg, ch) && View() == GatherComplete(cfg, old(View()), ch, now)
    {
      ch := Defaults();
      if phase == Gathering {
        if remotes != [] {
          ghost var b := EnterChecking(now);
          ch := ch.(build := b);
        } else {
          phase := WaitingRemote;
        }
      }
    }

    method FoldRelay(now: nat) returns (ghost ch: Choices)
      modifies this
      ensures Sound(cfg, ch) && View() == Refold(cfg, old(View()), ch, now)
    {
      ch := Defaults();
      if remotes != [] && phase == Checking {
        ghost var b := RebuildAndRun(now);
        ch := ch.(build := b);
      }
    }

    method SwapRelayCandidate(relay: Endpoint, allowed: bool)
      modifies `locals
      ensures locals == SwapRelay(old(locals), relay, allowed)
    {
      var kept := DropRelays(locals);
      locals := if allowed then kept + [CandidateAt(RELAY, relay.address, relay.port)] else kept;
    }

    method PromoteTurnBackup(relay: Endpoint, allowed: bool, now: nat) returns (ghost ch: Choices)
      modifies this
      ensures Sound(cfg, ch)
      ensures var s := old(View());
              View() == Failover(cfg, s.(locals := SwapRelay(s.locals, relay, allowed)), ch, now)
    {
      ch := Defaults();
      SwapRelayCandidate(relay, allowed);
      if remotes != [] && phase == Checking {
        ghost var b := RebuildAndRun(now);
        ch := ch.(build := b);
      } else if phase == Connected {
        phase := Checking;
        ghost var b := RebuildAndRun(now);
        ch := ch.(build := b);
      }
    }

    // ---- Answers ----

    method FindTransaction(txn: TxnId) returns (found: Option<nat>)
      ensures found == FindTxn(checkList, txn, 0)
    {
      for i := 0 to |checkList|
        invariant FindTxn(checkList, txn, i) == FindTxn(checkList, txn, 0)
      {
        if checkList[i].txn == txn {
          return Some(i);
        }
      }
      return None;
    }

    method MarkSucceeded(i: nat, mapped: Option<Endpoint>)
      requires i < |checkList|
      modifies `checkList, `locals
      ensures View() == Succeed(old(View()), i, mapped)
    {
      var p := checkList[i];
      if mapped.Some? && mapped.value != EndpointOf(p.local) {
        locals := locals + [Reflexive(mapped.value)];
      }
      checkList := checkList[i := p.(valid := true, state := Succeeded)];
      UnfreezeSiblings(p.local.foundation, p.remote.foundation);
    }

    method HandleCheckResponse(txn: TxnId, mapped: Option<Endpoint>, loss: Loss, now: nat) returns (ghost ch: Choices)
      modifies this
      ensures Sound(cfg, ch) && View() == CheckResponse(cfg, old(View()), txn, mapped, ch, now)
    {
      ch := Defaults();
      ch := ch.(loss := loss);
      var found := FindTransaction(txn);
      if phase != Checking || found.None? {
        return;
      }
      var i := found.value;
      var p := checkList[i];
      MarkSucceeded(i, mapped);
      if !controlling && p.pendingNomination {
        checkList := checkList[i := checkList[i].(pendingNomination := false)];
        ghost var b := OnNominated(pending, Some(Answer(i, txn)), loss, now);
        ch := ch.(rebuild := b);
      } else if controlling && (cfg.aggressive || p.nomineeSent) {
        ghost var b := OnNominated(Nomination(EndpointOf(p.remote), p.transport), Some(Answer(i, txn)), loss, now);
        ch := ch.(rebuild := b);
      } else if controlling && !history.nomineeSelected && !p.valid {
        SelectNominee(now);
      }
    }

    method HandleResponse(txn: TxnId, mapped: Option<Endpoint>, probe: bool, loss: Loss, now: nat)
      returns (ghost ch: Choices)
      modifies this
      ensures Sound(cfg, ch) && View() == Response(cfg, old(View()), txn, mapped, probe, ch, now)
    {
      if probe || phase == Connected {
        ch := Defaults();
        consentMissed := 0;
      } else {
        ch := HandleCheckResponse(txn, mapped, loss, now);
      }
    }

    method SwitchRole(now: nat) returns (ghost ch: Choices)
      modifies this
      ensures Sound(cfg, ch) && View() == FlipRole(cfg, old(View()), ch, now)
    {
      ch := Defaults();
      controlling := !controlling;
      if phase == Checking && locals != [] && remotes != [] {
        ghost var b := RebuildAndRun(now);
        ch := ch.(build := b);
      }
    }

    method HandleError(txn: TxnId)
      modifies `checkList
      ensures View() == ErrorResponse(old(View()), txn)
    {
      var found := FindTransaction(txn);
      if found.Some? {
        Fail(found.value);
      }
    }

    method OnTcpConnectTimeout(peer: Endpoint)
      modifies `checkList
      ensures View() == old(View()).(checks := TcpTimeout(old(List()), peer))
    {
      ghost var n, final := |checkList|, TcpTimeout(List(), peer);
      for i := 0 to |checkList|
        invariant |checkList| == n
        invariant Sweep(List(), i, n, TcpTimeoutStep(peer)) == final
      {
        var p := checkList[i];
        ghost var before := List();
        if p.state.InProgress? && IsTcp(p.transport) && EndpointOf(p.remote) == peer {
          Fail(i);
        }
        assert List() == TcpTimeoutStep(peer)(before, i);
      }
    }

    // ---- Requests ----

    method FindNominated(peer: Endpoint, transport: byte) returns (found: Option<nat>)
      ensures found == FindEndpoint(checkList, peer, transport, 0)
    {
      for i := 0 to |checkList|
        invariant FindEndpoint(checkList, peer, transport, i) == FindEndpoint(checkList, peer, transport, 0)
      {
        if EndpointOf(checkList[i].remote) == peer && checkList[i].transport == transport {
          return Some(i);
        }
      }
      return None;
    }

    /** The pair is not verified yet, or not there yet: remember the nomination and let the scheduler run. */
    method DeferNomination(nomination: Nomination, found: Option<nat>, now: nat)
      requires found.Some? ==> found.value < |checkList|
      modifies `pending, `checkList, `sent, `phase, `timers
      ensures View() == Defer(cfg, old(View()), nomination, found, now)
    {
      if found.Some? {
        var p := checkList[found.value];
        var q := p.(state := if p.state == Frozen then Waiting else p.state, pendingNomination := true);
        checkList := checkList[found.value := q];
      }
      pending := nomination;
      RunNextCheck(now);
    }

    method HandleUseCandidate(peer: Endpoint, fromTcp: bool, loss: Loss, now: nat) returns (ghost ch: Choices)
      modifies this
      ensures Sound(cfg, ch) && ch.loss == loss && View() == UseCandidate(cfg, old(View()), peer, fromTcp, ch, now)
    {
      ch := Defaults();
      ch := ch.(loss := loss);
      if controlling || peer.address == NOWHERE {
        return;
      }
      var nomination := Nomination(peer, if fromTcp then TCP_ACTIVE else UDP);
      var found := FindNominated(peer, nomination.transport);
      if found.Some? && checkList[found.value].state == Succeeded {
        ghost var b := OnNominated(nomination, None, loss, now);
        ch := ch.(rebuild := b);
        return;
      }
      DeferNomination(nomination, found, now);
    }

    method IsCovered(peer: Endpoint) returns (found: bool)
      ensures found == Covers(checkList, peer)
    {
      for i := 0 to |checkList|
        invariant forall k :: 0 <= k < i ==> EndpointOf(checkList[k].remote) != peer
      {
        if EndpointOf(checkList[i].remote) == peer {
          return true;
        }
      }
      return false;
    }

    method FindLocal(family: byte) returns (found: Option<nat>)
      ensures found == FindFamily(locals, family, 0)
    {
      for i := 0 to |locals|
        invariant FindFamily(locals, family, i) == FindFamily(locals, family, 0)
      {
        if locals[i].family == family {
          return Some(i);
        }
      }
      return None;
    }

    /** The pair for an endpoint no pair covers, with its pending nomination already marked. */
    method MintTriggeredPair(peer: Endpoint) returns (minted: Option<CheckPair>, txn: TxnId)
      ensures minted == TriggeredPair(cfg, View(), peer, txn)
    {
      txn := *;
      var remote := Reflexive(peer);
      var found := FindLocal(remote.family);
      if found.None? {
        return None, txn;
      }
      var local := locals[found.value];
      var deferred := !controlling && pending.endpoint.address != NOWHERE && EndpointOf(remote) == pending.endpoint;
      minted := Some(CheckPair(Stamped(cfg.hash, local), Stamped(cfg.hash, remote),
                               PairPriority(local.priority, remote.priority, controlling), 0, InProgress,
                               false, false, true, deferred, txn, 0, UDP));
    }

    method MaybeTriggerCheck(peer: Endpoint, now: nat) returns (txn: TxnId)
      modifies `checkList, `sent
      ensures View() == Trigger(cfg, old(View()), peer, txn, now)
    {
      var minted, id := MintTriggeredPair(peer);
      txn := id;
      var covered := IsCovered(peer);
      if peer.address == NOWHERE || locals == [] || cfg.lite || covered || minted.None? {
        return;
      }
      checkList := checkList + [minted.value];
      if phase == Checking || phase == Connected {
        SendCheck(|checkList| - 1, now);
      }
    }

    /** True if the tie-breakers make us switch; a same-role claim that does not gets a 487. */
    method HandleRoleConflict(claim: Claim, now: nat) returns (switched: bool, ghost ch: Choices)
      requires SameRole(View(), claim)
      modifies this
      ensures switched == Yields(old(View()), claim, tieBreaker) && Sound(cfg, ch)
      ensures View() == if switched then FlipRole(cfg, old(View()), ch, now) else old(View())
    {
      switched := claim.controlling.Some? == controlling && tieBreaker < ClaimedTieBreaker(claim);
      ch := Defaults();
      if switched {
        ch := SwitchRole(now);
      }
    }

    /** USE-CANDIDATE and the triggered check, in the role settled on. */
    method FinishRequest(useCandidate: bool, peer: Endpoint, fromTcp: bool, loss: Loss, now: nat)
      returns (ghost ch: Choices)
      modifies this
      ensures Sound(cfg, ch) && View() == Finish(cfg, old(View()), useCandidate, peer, fromTcp, ch, now)
    {
      ch := Defaults();
      if useCandidate {
        ch := HandleUseCandidate(peer, fromTcp, loss, now);
      }
      ghost var nominating := ch;
      var txn := MaybeTriggerCheck(peer, now);
      ch := ch.(txn := txn);
      UseCandidateIgnores(cfg, old(View()), peer, fromTcp, nominating, ch, now);
    }

    method HandleBindingRequest(claim: Claim, useCandidate: bool, peer: Endpoint, fromTcp: bool, loss: Loss, now: nat)
      returns (rejected: bool, ghost ch: Choices)
      modifies this
      ensures rejected == (SameRole(old(View()), claim) && !Yields(old(View()), claim, tieBreaker)) && Sound(cfg, ch)
      ensures View() == Request(cfg, old(View()), tieBreaker, claim, useCandidate, peer, fromTcp, ch, now)
    {
      ghost var s := View();
      if !((claim.controlling.Some? && controlling) || (claim.controlled.Some? && !controlling)) {
        rejected := false;
        ch := FinishRequest(useCandidate, peer, fromTcp, loss, now);
      } else {
        var switched;
        ghost var flip;
        switched, flip := HandleRoleConflict(claim, now);
        rejected, ch := !switched, flip;
        if switched {
          ghost var t := View();
          ghost var rest := FinishRequest(useCandidate, peer, fromTcp, loss, now);
          ch := rest.(build := flip.build);
          FinishIgnores(cfg, t, useCandidate, peer, fromTcp, rest, ch, now);
          FlipRoleIgnores(cfg, s, flip, ch, now);
        }
      }
    }

    // ---- Events ----

    method DispatchSignal(e: Event, now: nat) returns (ghost ch: Choices)
      requires SessionLaws.IsSignal(e)
      modifies this
      ensures Sound(cfg, ch) && View() == Step(cfg, tieBreaker, old(View()), e, ch, now)
    {
      match e {
        case SignalSetRemote(cands) => ch := SetRemoteCandidates(cands, now);
        case SignalAddRemote(newCredentials, cands, ended) =>
          ch := AddRemoteCandidates(newCredentials, cands, ended, now);
        case SignalFlags(symmetric) => ch := SetPeerSignalFlags(symmetric, now);
        case MdnsAnswer(slot, name, found) => ch := OnMdnsAnswer(slot, name, found, now);
        case GatheringDone => ch := OnGatheringComplete(now);
        case RelayReady => ch := FoldRelay(now);
        case RelayFailover(relay, allowed) => ch := PromoteTurnBackup(relay, allowed, now);
      }
    }

    method DispatchTimer(e: Event, loss: Loss, now: nat) returns (ghost ch: Choices)
      requires e.CheckTimer? || e.WaitTimer? || e.KeepaliveTimer?
      modifies this
      ensures Sound(cfg, ch) && View() == Step(cfg, tieBreaker, old(View()), e, ch, now)
    {
      ch := Defaults();
      match e {
        case CheckTimer(gen) => OnCheckTimer(gen, now);
        case WaitTimer(gen) => OnWaitTimer(gen);
        case KeepaliveTimer =>
          ghost var b := OnKeepalive(loss, now);
          ch := ch.(rebuild := b, loss := loss);
      }
    }

    method DispatchLocal(e: Event, loss: Loss, now: nat) returns (ghost ch: Choices)
      requires SessionLaws.IsLocal(e)
      modifies this
      ensures Sound(cfg, ch) && View() == Step(cfg, tieBreaker, old(View()), e, ch, now)
    {
      if e.CheckTimer? || e.WaitTimer? || e.KeepaliveTimer? {
        ch := DispatchTimer(e, loss, now);
        return;
      }
      ch := Defaults();
      match e {
        case LocalsChanged(gathered, stride) => locals, ownStride := gathered, stride;
        case GatherCalled => Gather();
        case RestartCalled => Restart();
        case CloseCalled => Close();
      }
    }

    method DispatchPacket(e: Event, loss: Loss, now: nat) returns (ghost ch: Choices)
      requires !SessionLaws.IsSignal(e) && !SessionLaws.IsLocal(e)
      modifies this
      ensures Sound(cfg, ch) && View() == Step(cfg, tieBreaker, old(View()), e, ch, now)
    {
      match e {
        case GotResponse(txn, mapped, probe) => ch := HandleResponse(txn, mapped, probe, loss, now);
        case GotRoleConflict => ch := SwitchRole(now);
        case GotError(txn) =>
          ch := Defaults();
          HandleError(txn);
        case GotRequest(claim, useCandidate, peer, fromTcp) =>
          var rejected;
          rejected, ch := HandleBindingRequest(claim, useCandidate, peer, fromTcp, loss, now);
        case TcpConnectTimeout(peer) =>
          ch := Defaults();
          OnTcpConnectTimeout(peer);
      }
    }

    /**
     * Every event takes the object one step of the state machine, keeps the invariant of all runs, and leaves all
     * timers behind when it nominates, restarts or closes.
     */
    method Dispatch(e: Event, loss: Loss, now: nat, ghost aim: SessionLaws.Aim) returns (ghost ch: Choices)
      requires SessionLaws.SessionOk(cfg, aim, View()) && TimerLaws.Armed(timers) && SessionLaws.Names(e, aim)
      modifies this
      ensures Sound(cfg, ch) && View() == Step(cfg, tieBreaker, old(View()), e, ch, now)
      ensures SessionLaws.SessionOk(cfg, aim, View()) && TimerLaws.Armed(timers)
      ensures TimerLaws.Cancels(old(View()), e, View()) ==> TimerLaws.Outdated(old(timers), timers)
    {
      ghost var s := View();
      if SessionLaws.IsSignal(e) {
        ch := DispatchSignal(e, now);
      } else if SessionLaws.IsLocal(e) {
        ch := DispatchLocal(e, loss, now);
      } else {
        ch := DispatchPacket(e, loss, now);
      }
      SessionLaws.StepOk(cfg, aim, tieBreaker, s, e, ch, now);
      KeepArmed(cfg, tieBreaker, s, e, ch, now);
    }
  }

  lemma KeepArmed(cfg: Config, tieBreaker: u64, s: Session, e: Event, ch: Choices, now: nat)
    requires TimerLaws.Armed(s.timers)
    ensures TimerLaws.Armed(Step(cfg, tieBreaker, s, e, ch, now).timers)
    ensures TimerLaws.Cancels(s, e, Step(cfg, tieBreaker, s, e, ch, now)) ==>
            TimerLaws.Outdated(s.timers, Step(cfg, tieBreaker, s, e, ch, now).timers)
  {
    var r := Step(cfg, tieBreaker, s, e, ch, now);
    TimerLaws.StepLater(cfg, tieBreaker, s, e, ch, now);
    TimerLaws.LaterArmed(s.timers, r.timers);
    if TimerLaws.Cancels(s, e, r) {
      TimerLaws.CancelsOutdates(cfg, tieBreaker, s, e, ch, now);
    }
  }

  // ---- Which choices matter where ----

  lemma UseCandidateIgnores(cfg: Config, s: Session, peer: Endpoint, fromTcp: bool, ch: Choices, ch': Choices, now: nat)
    requires ch.rebuild == ch'.rebuild && ch.loss == ch'.loss
    ensures UseCandidate(cfg, s, peer, fromTcp, ch, now) == UseCandidate(cfg, s, peer, fromTcp, ch', now)
  {
  }

  lemma FinishIgnores(cfg: Config, s: Session, useCandidate: bool, peer: Endpoint, fromTcp: bool, ch: Choices,
                      ch': Choices, now: nat)
    requires ch.rebuild == ch'.rebuild && ch.loss == ch'.loss && ch.txn == ch'.txn
    ensures Finish(cfg, s, useCandidate, peer, fromTcp, ch, now) ==
            Finish(cfg, s, useCandidate, peer, fromTcp, ch', now)
  {
    UseCandidateIgnores(cfg, s, peer, fromTcp, ch, ch', now);
  }

  lemma FlipRoleIgnores(cfg: Config, s: Session, ch: Choices, ch': Choices, now: nat)
    requires ch.build == ch'.build
    ensures FlipRole(cfg, s, ch, now) == FlipRole(cfg, s, ch', now)
  {
  }
}
