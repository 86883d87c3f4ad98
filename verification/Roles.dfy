/** Role conflicts between two agents whose requests and 487 answers may be lost, repeated and reordered. */
module Roles {
  import opened Bytes
  import opened Candidates
  import opened CheckList
  import opened Session
  import opened SessionLaws

  // ---- Which events change the role ----

  function RoleAfter(tieBreaker: u64, s: Session, e: Event): (controlling: bool)
  {
    match e
    case GotRoleConflict => !s.controlling
    case GotRequest(claim, _, _, _) =>
      if SameRole(s, claim) && Yields(s, claim, tieBreaker) then !s.controlling else s.controlling
    case _ => s.controlling
  }

  lemma CheckingKeepsRole(cfg: Config, s: Session, b: Builder, now: nat)
    ensures RunNextCheck(cfg, s, now).controlling == s.controlling
    ensures EnterChecking(cfg, s, b, now).controlling == s.controlling
    ensures RebuildAndRun(cfg, s, b, now).controlling == s.controlling
  {
  }

  lemma KeepaliveKeepsRole(cfg: Config, s: Session, b: Builder, loss: Loss, now: nat)
    ensures Keepalive(cfg, s, b, loss, now).controlling == s.controlling
  {
    CheckingKeepsRole(cfg, s.(consentMissed := 0, recoveries := s.recoveries + 1), b, now);
  }

  lemma OnNominatedKeepsRole(cfg: Config, s: Session, n: Nomination, answer: Option<Answer>, ch: Choices, now: nat)
    ensures OnNominated(cfg, s, n, answer, ch, now).controlling == s.controlling
  {
    KeepaliveKeepsRole(cfg, Connecting(s, n, answer), ch.rebuild, ch.loss, now);
  }

  lemma ResponseKeepsRole(cfg: Config, s: Session, txn: TxnId, mapped: Option<Endpoint>, probe: bool, ch: Choices,
                          now: nat)
    ensures Response(cfg, s, txn, mapped, probe, ch, now).controlling == s.controlling
  {
    forall t: Session, n: Nomination, answer: Option<Answer>
      ensures OnNominated(cfg, t, n, answer, ch, now).controlling == t.controlling
    {
      OnNominatedKeepsRole(cfg, t, n, answer, ch, now);
    }
  }

  lemma UseCandidateKeepsRole(cfg: Config, s: Session, peer: Endpoint, fromTcp: bool, ch: Choices, now: nat)
    ensures UseCandidate(cfg, s, peer, fromTcp, ch, now).controlling == s.controlling
  {
    forall t: Session, n: Nomination, answer: Option<Answer>
      ensures OnNominated(cfg, t, n, answer, ch, now).controlling == t.controlling
    {
      OnNominatedKeepsRole(cfg, t, n, answer, ch, now);
    }
  }

  lemma FlipRoleFlips(cfg: Config, s: Session, ch: Choices, now: nat)
    ensures FlipRole(cfg, s, ch, now).controlling == !s.controlling
  {
    CheckingKeepsRole(cfg, s.(controlling := !s.controlling), ch.build, now);
  }

  lemma RequestRole(cfg: Config, s: Session, tieBreaker: u64, claim: Claim, useCandidate: bool, peer: Endpoint,
                    fromTcp: bool, ch: Choices, now: nat)
    ensures Request(cfg, s, tieBreaker, claim, useCandidate, peer, fromTcp, ch, now).controlling
            == RoleAfter(tieBreaker, s, GotRequest(claim, useCandidate, peer, fromTcp))
  {
    if SameRole(s, claim) && !Yields(s, claim, tieBreaker) {
    } else {
      FlipRoleFlips(cfg, s, ch, now);
      var t := if SameRole(s, claim) then FlipRole(cfg, s, ch, now) else s;
      UseCandidateKeepsRole(cfg, t, peer, fromTcp, ch, now);
    }
  }

  lemma SignalKeepsRole(cfg: Config, s: Session, newCredentials: bool, cands: seq<Candidate>, ended: bool, ch: Choices,
                        now: nat)
    ensures AddRemote(cfg, s, newCredentials, cands, ended, ch, now).controlling == s.controlling
  {
    var u := EndOfCandidates(cfg, DropRemote(s, newCredentials), ended, now);
    assert u.controlling == s.controlling;
    CheckingKeepsRole(cfg, u.(remotes := Merge(u.remotes, cands)), ch.build, now);
  }

  lemma FoldKeepsRole(cfg: Config, s: Session, remotes: seq<Candidate>, useful: bool, ch: Choices, now: nat)
    ensures SetRemote(cfg, s, remotes, ch, now).controlling == s.controlling
    ensures PeerFlags(cfg, s, useful, ch, now).controlling == s.controlling
    ensures Resolved(cfg, s, remotes, useful, ch, now).controlling == s.controlling
  {
    CheckingKeepsRole(cfg, s.(remotes := remotes), ch.build, now);
    CheckingKeepsRole(cfg, s.(peerSymmetric := useful), ch.build, now);
  }

  lemma RelayKeepsRole(cfg: Config, s: Session, ch: Choices, now: nat)
    ensures GatherComplete(cfg, s, ch, now).controlling == s.controlling
    ensures Refold(cfg, s, ch, now).controlling == s.controlling
    ensures Failover(cfg, s, ch, now).controlling == s.controlling
  {
    CheckingKeepsRole(cfg, s, ch.build, now);
    CheckingKeepsRole(cfg, s.(phase := Checking), ch.build, now);
  }

  lemma SignalStepRole(cfg: Config, tieBreaker: u64, s: Session, e: Event, ch: Choices, now: nat)
    requires IsSignal(e)
    ensures Step(cfg, tieBreaker, s, e, ch, now).controlling == s.controlling
  {
    match e
    case SignalSetRemote(cands) => FoldKeepsRole(cfg, s, cands, false, ch, now);
    case SignalAddRemote(newCredentials, cands, ended) =>
      SignalKeepsRole(cfg, s, newCredentials, cands, ended, ch, now);
    case SignalFlags(symmetric) => FoldKeepsRole(cfg, s, [], symmetric, ch, now);
    case MdnsAnswer(slot, name, found) =>
      var useful := AskedFor(s.remotes, slot, name) && found != [];
      FoldKeepsRole(cfg, s, Rewritten(s.remotes, slot, name, found), useful, ch, now);
    case GatheringDone => RelayKeepsRole(cfg, s, ch, now);
    case RelayReady => RelayKeepsRole(cfg, s, ch, now);
    case RelayFailover(relay, allowed) =>
      RelayKeepsRole(cfg, s.(locals := SwapRelay(s.locals, relay, allowed)), ch, now);
  }

  /** Only a 487, or a request from a same-role peer with the larger tie-breaker, changes the role. */
  lemma StepRole(cfg: Config, tieBreaker: u64, s: Session, e: Event, ch: Choices, now: nat)
    ensures Step(cfg, tieBreaker, s, e, ch, now).controlling == RoleAfter(tieBreaker, s, e)
  {
    if IsSignal(e) {
      SignalStepRole(cfg, tieBreaker, s, e, ch, now);
    } else {
      match e
      case KeepaliveTimer => KeepaliveKeepsRole(cfg, s, ch.rebuild, ch.loss, now);
      case GotResponse(txn, mapped, probe) => ResponseKeepsRole(cfg, s, txn, mapped, probe, ch, now);
      case GotRoleConflict => FlipRoleFlips(cfg, s, ch, now);
      case GotRequest(claim, useCandidate, peer, fromTcp) =>
        RequestRole(cfg, s, tieBreaker, claim, useCandidate, peer, fromTcp, ch, now);
      case _ =>
    }
  }

  // ---- Two agents and the packets between them ----

  /** A request carrying its sender's role at the time, or a 487 on its way to an agent. Agent zero is `true`. */
  datatype Packet = Ask(sender: bool, controlling: bool) | Conflict(receiver: bool)

  datatype Agent = Agent(cfg: Config, tieBreaker: u64, session: Session)

  /** Packets in flight may be delivered any number of times, in any order, or dropped. */
  datatype World = World(zero: Agent, one: Agent, net: set<Packet>)

  function At(w: World, who: bool): (a: Agent) { if who then w.zero else w.one }

  function Set(w: World, who: bool, s: Session): (r: World)
  {
    if who then w.(zero := w.zero.(session := s)) else w.(one := w.one.(session := s))
  }

  predicate Role(w: World, who: bool) { At(w, who).session.controlling }

  /** The claim a request makes. */
  function ClaimOf(a: Agent, controlling: bool): (c: Claim)
  {
    if controlling then Claim(Some(a.tieBreaker), None) else Claim(None, Some(a.tieBreaker))
  }

  /** Whether the receiver answers a claim with a 487. */
  predicate Rejects(a: Agent, claim: Claim) {
    SameRole(a.session, claim) && !Yields(a.session, claim, a.tieBreaker)
  }

  datatype Action =
    | Emit(who: bool)
    | Drop(packet: Packet)
    | Deliver(packet: Packet, useCandidate: bool, peer: Endpoint, fromTcp: bool, choices: Choices, now: nat)
    | Local(who: bool, event: Event, choices: Choices, now: nat)

  function Handle(w: World, who: bool, e: Event, ch: Choices, now: nat): (r: World)
  {
    var a := At(w, who);
    Set(w, who, Step(a.cfg, a.tieBreaker, a.session, e, ch, now))
  }

  predicate Allowed(w: World, a: Action) {
    match a
    case Emit(_) => true
    case Drop(p) => p in w.net
    case Deliver(p, _, _, _, _, _) => p in w.net
    case Local(_, e, _, _) => !e.GotRequest? && !e.GotRoleConflict?
  }

  /** A delivered request is handled by the other agent, which may answer it with a 487. */
  function DeliverAsk(w: World, sender: bool, controlling: bool, useCandidate: bool, peer: Endpoint, fromTcp: bool,
                      ch: Choices, now: nat): (r: World)
  {
    var claim := ClaimOf(At(w, sender), controlling);
    var answered := if Rejects(At(w, !sender), claim) then w.(net := w.net + {Conflict(sender)}) else w;
    Handle(answered, !sender, GotRequest(claim, useCandidate, peer, fromTcp), ch, now)
  }

  function Act(w: World, a: Action): (r: World)
  {
    match a
    case Emit(who) => w.(net := w.net + {Ask(who, Role(w, who))})
    case Drop(p) => w.(net := w.net - {p})
    case Deliver(Ask(sender, controlling), useCandidate, peer, fromTcp, ch, now) =>
      DeliverAsk(w, sender, controlling, useCandidate, peer, fromTcp, ch, now)
    case Deliver(Conflict(receiver), _, _, _, ch, now) => Handle(w, receiver, GotRoleConflict, ch, now)
    case Local(who, e, ch, now) => Handle(w, who, e, ch, now)
  }

  ghost predicate IsRun(ws: seq<World>, actions: seq<Action>) {
    && |ws| == |actions| + 1
    && forall k :: 0 <= k < |actions| ==> Allowed(ws[k], actions[k]) && ws[k + 1] == Act(ws[k], actions[k])
  }

  lemma HandleRole(w: World, who: bool, e: Event, ch: Choices, now: nat)
    ensures Role(Handle(w, who, e, ch, now), who) == RoleAfter(At(w, who).tieBreaker, At(w, who).session, e)
    ensures At(Handle(w, who, e, ch, now), !who) == At(w, !who)
    ensures At(Handle(w, who, e, ch, now), who).tieBreaker == At(w, who).tieBreaker
    ensures Handle(w, who, e, ch, now).net == w.net
  {
    var a := At(w, who);
    StepRole(a.cfg, a.tieBreaker, a.session, e, ch, now);
  }

  lemma DeliverAskRole(w: World, sender: bool, controlling: bool, useCandidate: bool, peer: Endpoint, fromTcp: bool,
                       ch: Choices, now: nat)
    ensures var r := DeliverAsk(w, sender, controlling, useCandidate, peer, fromTcp, ch, now);
            var loses := At(w, !sender).tieBreaker < At(w, sender).tieBreaker;
            && At(r, sender) == At(w, sender) && At(r, !sender).tieBreaker == At(w, !sender).tieBreaker
            && Role(r, !sender) == (Role(w, !sender) != (controlling == Role(w, !sender) && loses))
            && r.net == if controlling == Role(w, !sender) && !loses then w.net + {Conflict(sender)} else w.net
  {
    var claim := ClaimOf(At(w, sender), controlling);
    var answered := if Rejects(At(w, !sender), claim) then w.(net := w.net + {Conflict(sender)}) else w;
    HandleRole(answered, !sender, GotRequest(claim, useCandidate, peer, fromTcp), ch, now);
  }

  // ---- The larger tie-breaker's owner ----

  /** No 487 is on its way to `who`, whose tie-breaker is the larger, and its role is `role`. */
  predicate Firm(w: World, who: bool, role: bool) {
    At(w, who).tieBreaker > At(w, !who).tieBreaker && Conflict(who) !in w.net && Role(w, who) == role
  }

  lemma FirmStep(w: World, a: Action, who: bool, role: bool)
    requires Firm(w, who, role) && Allowed(w, a)
    ensures Firm(Act(w, a), who, role)
  {
    match a
    case Deliver(Ask(sender, controlling), useCandidate, peer, fromTcp, ch, now) =>
      DeliverAskRole(w, sender, controlling, useCandidate, peer, fromTcp, ch, now);
    case Deliver(Conflict(receiver), _, _, _, ch, now) => HandleRole(w, receiver, GotRoleConflict, ch, now);
    case Local(other, e, ch, now) => HandleRole(w, other, e, ch, now);
    case _ =>
  }

  /** The owner of the larger tie-breaker never changes role. */
  lemma {:induction false} LargerKeepsRole(ws: seq<World>, actions: seq<Action>, who: bool)
    requires IsRun(ws, actions)
    requires At(ws[0], who).tieBreaker > At(ws[0], !who).tieBreaker && Conflict(who) !in ws[0].net
    ensures Firm(ws[|actions|], who, Role(ws[0], who))
    decreases |actions|
  {
    if actions != [] {
      var n := |actions| - 1;
      LargerKeepsRole(ws[..n + 1], actions[..n], who);
      FirmStep(ws[n], actions[n], who, Role(ws[0], who));
    }
  }

  // ---- Opposite roles are stable ----

  /** Opposite roles, no 487 in flight, and no request in flight whose sender has changed role since. */
  predicate Settled(w: World) {
    && Role(w, true) != Role(w, false)
    && forall p :: p in w.net ==> p.Ask? && p.controlling == Role(w, p.sender)
  }

  lemma SettledStep(w: World, a: Action)
    requires Settled(w) && Allowed(w, a)
    ensures Settled(Act(w, a)) && Role(Act(w, a), true) == Role(w, true)
  {
    match a
    case Deliver(Ask(sender, controlling), useCandidate, peer, fromTcp, ch, now) =>
      DeliverAskRole(w, sender, controlling, useCandidate, peer, fromTcp, ch, now);
    case Local(who, e, ch, now) => HandleRole(w, who, e, ch, now);
    case _ =>
  }

  /** Settled roles never change again. */
  lemma {:induction false} SettledForever(ws: seq<World>, actions: seq<Action>)
    requires IsRun(ws, actions) && Settled(ws[0])
    ensures Settled(ws[|actions|])
    ensures Role(ws[|actions|], true) == Role(ws[0], true) && Role(ws[|actions|], false) == Role(ws[0], false)
    decreases |actions|
  {
    if actions != [] {
      var n := |actions| - 1;
      SettledForever(ws[..n + 1], actions[..n]);
      SettledStep(ws[n], actions[n]);
    }
  }

  // ---- One exchange at a time ----

  /** A request sent, delivered and dropped. */
  function Asked(w: World, sender: bool, useCandidate: bool, peer: Endpoint, fromTcp: bool, ch: Choices, now: nat):
    (r: World)
  {
    var ask := Ask(sender, Role(w, sender));
    Act(Act(Act(w, Emit(sender)), Deliver(ask, useCandidate, peer, fromTcp, ch, now)), Drop(ask))
  }

  /** One whole exchange: the request, and the 487 if there is one. */
  function Exchange(w: World, sender: bool, useCandidate: bool, peer: Endpoint, fromTcp: bool, ch: Choices, now: nat):
    (r: World)
  {
    var u := Asked(w, sender, useCandidate, peer, fromTcp, ch, now);
    if Conflict(sender) !in u.net then u
    else Act(Act(u, Deliver(Conflict(sender), useCandidate, peer, fromTcp, ch, now)), Drop(Conflict(sender)))
  }

  lemma AskedRoles(w: World, sender: bool, useCandidate: bool, peer: Endpoint, fromTcp: bool, ch: Choices, now: nat)
    requires w.net == {}
    ensures var u := Asked(w, sender, useCandidate, peer, fromTcp, ch, now);
            var clash := Role(w, sender) == Role(w, !sender);
            var loses := At(w, !sender).tieBreaker < At(w, sender).tieBreaker;
            && At(u, sender) == At(w, sender)
            && Role(u, !sender) == (if clash && loses then !Role(w, !sender) else Role(w, !sender))
            && u.net == if clash && !loses then {Conflict(sender)} else {}
  {
    DeliverAskRole(Act(w, Emit(sender)), sender, Role(w, sender), useCandidate, peer, fromTcp, ch, now);
  }

  /** From a quiet network one exchange, whoever starts it, leaves opposite roles and a quiet network. */
  lemma ExchangeResolves(w: World, sender: bool, useCandidate: bool, peer: Endpoint, fromTcp: bool, ch: Choices,
                         now: nat)
    requires w.net == {}
    ensures var r := Exchange(w, sender, useCandidate, peer, fromTcp, ch, now);
            && Settled(r) && r.net == {}
            && (Role(w, true) != Role(w, false) ==> Role(r, true) == Role(w, true))
  {
    AskedRoles(w, sender, useCandidate, peer, fromTcp, ch, now);
    HandleRole(Asked(w, sender, useCandidate, peer, fromTcp, ch, now), sender, GotRoleConflict, ch, now);
  }

  // ---- Every run: when the roles end opposite ----

  predicate Opposed(w: World) { Role(w, true) != Role(w, false) }

  /**
   * What a delivery does to the roles being opposite: the request of the owner of the larger tie-breaker makes them so,
   * and a 487 to anyone else turns them over. With equal tie-breakers `larger` is nobody.
   */
  predicate Effect(opposed: bool, larger: Option<bool>, p: Packet) {
    match p
    case Ask(sender, _) => opposed || larger == Some(sender)
    case Conflict(receiver) => opposed != (larger != Some(receiver))
  }

  predicate OpposedAfter(opposed: bool, larger: Option<bool>, ps: seq<Packet>) {
    if ps == [] then opposed
    else Effect(OpposedAfter(opposed, larger, ps[..|ps| - 1]), larger, ps[|ps| - 1])
  }

  /** The packets a run delivers, in order. */
  function Delivered(actions: seq<Action>): (ps: seq<Packet>)
  {
    if actions == [] then []
    else
      var n := |actions| - 1;
      Delivered(actions[..n]) + if actions[n].Deliver? then [actions[n].packet] else []
  }

  /** `larger` owns the larger tie-breaker, awaits no 487, and its requests in flight carry its role. */
  predicate Steady(w: World, larger: Option<bool>) {
    match larger
    case None => At(w, true).tieBreaker == At(w, false).tieBreaker
    case Some(who) => Firm(w, who, Role(w, who)) && Ask(who, !Role(w, who)) !in w.net
  }

  lemma SteadyAsk(w: World, a: Action, larger: Option<bool>)
    requires Steady(w, larger) && Allowed(w, a) && a.Deliver? && a.packet.Ask?
    ensures Steady(Act(w, a), larger) && Opposed(Act(w, a)) == Effect(Opposed(w), larger, a.packet)
  {
    DeliverAskRole(w, a.packet.sender, a.packet.controlling, a.useCandidate, a.peer, a.fromTcp, a.choices, a.now);
  }

  lemma SteadyConflict(w: World, a: Action, larger: Option<bool>)
    requires Steady(w, larger) && Allowed(w, a) && a.Deliver? && a.packet.Conflict?
    ensures Steady(Act(w, a), larger) && Opposed(Act(w, a)) == Effect(Opposed(w), larger, a.packet)
  {
    HandleRole(w, a.packet.receiver, GotRoleConflict, a.choices, a.now);
  }

  lemma SteadyOther(w: World, a: Action, larger: Option<bool>)
    requires Steady(w, larger) && Allowed(w, a) && !a.Deliver?
    ensures Steady(Act(w, a), larger) && Opposed(Act(w, a)) == Opposed(w)
  {
    if a.Local? {
      HandleRole(w, a.who, a.event, a.choices, a.now);
    }
  }

  lemma SteadyStep(w: World, a: Action, v: World, larger: Option<bool>)
    requires Steady(w, larger) && Allowed(w, a) && v == Act(w, a)
    ensures Steady(v, larger) && Opposed(v) == if a.Deliver? then Effect(Opposed(w), larger, a.packet) else Opposed(w)
  {
    if !a.Deliver? {
      SteadyOther(w, a, larger);
    } else if a.packet.Ask? {
      SteadyAsk(w, a, larger);
    } else {
      SteadyConflict(w, a, larger);
    }
  }

  lemma LastStep(ws: seq<World>, actions: seq<Action>, n: nat)
    requires IsRun(ws, actions) && |actions| == n + 1
    ensures IsRun(ws[..n + 1], actions[..n])
    ensures Allowed(ws[n], actions[n]) && ws[n + 1] == Act(ws[n], actions[n])
    ensures ws[..n + 1][n] == ws[n] && ws[..n + 1][0] == ws[0]
  {
  }

  lemma OneMore(opposed: bool, larger: Option<bool>, actions: seq<Action>)
    requires actions != []
    ensures var n := |actions| - 1; var before := OpposedAfter(opposed, larger, Delivered(actions[..n]));
            OpposedAfter(opposed, larger, Delivered(actions)) ==
            if actions[n].Deliver? then Effect(before, larger, actions[n].packet) else before
  {
    var n := |actions| - 1;
    var ps := Delivered(actions[..n]);
    if actions[n].Deliver? {
      assert (ps + [actions[n].packet])[..|ps|] == ps;
    } else {
      assert ps + [] == ps;
    }
  }

  /** Exactly when a run ends in opposite roles, whatever is emitted, delivered, repeated, dropped or done locally. */
  lemma {:induction false} OppositeExactly(ws: seq<World>, actions: seq<Action>, larger: Option<bool>)
    requires IsRun(ws, actions) && Steady(ws[0], larger)
    ensures Steady(ws[|actions|], larger)
    ensures Opposed(ws[|actions|]) <==> OpposedAfter(Opposed(ws[0]), larger, Delivered(actions))
    decreases |actions|
  {
    if actions != [] {
      var n := |actions| - 1;
      LastStep(ws, actions, n);
      OppositeExactly(ws[..n + 1], actions[..n], larger);
      OneMore(Opposed(ws[0]), larger, actions);
      SteadyStep(ws[n], actions[n], ws[n + 1], larger);
    }
  }

  lemma TwoDeliveries(opposed: bool, larger: Option<bool>, p: Packet, q: Packet)
    ensures OpposedAfter(opposed, larger, [p]) == Effect(opposed, larger, p)
    ensures OpposedAfter(opposed, larger, [p, q]) == Effect(Effect(opposed, larger, p), larger, q)
  {
    assert [p, q][..1] == [p];
  }

  lemma ThreeDeliveries(opposed: bool, larger: Option<bool>, p: Packet, q: Packet, r: Packet)
    ensures OpposedAfter(opposed, larger, [p, q, r]) == Effect(Effect(Effect(opposed, larger, p), larger, q), larger, r)
  {
    TwoDeliveries(opposed, larger, p, q);
    assert [p, q, r][..2] == [p, q];
  }

  /** A run that delivers one request, and the 487 when there is a conflict its sender loses, ends in opposite roles. */
  lemma ExchangeEndsOpposed(ws: seq<World>, actions: seq<Action>, larger: Option<bool>, sender: bool, role: bool)
    requires IsRun(ws, actions) && Steady(ws[0], larger)
    requires Delivered(actions) == if Opposed(ws[0]) || larger == Some(sender) then [Ask(sender, role)]
                                   else [Ask(sender, role), Conflict(sender)]
    ensures Opposed(ws[|actions|])
  {
    OppositeExactly(ws, actions, larger);
    TwoDeliveries(Opposed(ws[0]), larger, Ask(sender, role), Conflict(sender));
  }

  // ---- Exchanges that cross ----

  /**
   * When both requests and the 487 are delivered, in any order, between agents that shared a role, the conflict is
   * resolved exactly if the 487 comes before the request of the larger tie-breaker's owner.
   */
  lemma CrossingOrder(ws: seq<World>, actions: seq<Action>, larger: bool, c: nat, l: nat)
    requires IsRun(ws, actions) && Steady(ws[0], Some(larger)) && !Opposed(ws[0])
    requires c < 3 && l < 3 && c != l && |Delivered(actions)| == 3
    requires var ps := Delivered(actions); var other := ps[3 - c - l];
             && ps[c] == Conflict(!larger)
             && ps[l].Ask? && ps[l].sender == larger
             && other.Ask? && other.sender == !larger
    ensures Opposed(ws[|actions|]) <==> c < l
  {
    var ps := Delivered(actions);
    OppositeExactly(ws, actions, Some(larger));
    assert ps == [ps[0], ps[1], ps[2]];
    ThreeDeliveries(false, Some(larger), ps[0], ps[1], ps[2]);
  }

  /** Both agents ask at once, the smaller one's request arrives, and the 487 is late or early. */
  function Crossed(w: World, larger: bool, late: bool, peer: Endpoint, ch: Choices, now: nat): (r: World)
  {
    var conflict := Deliver(Conflict(!larger), false, peer, false, ch, now);
    var ask := Deliver(Ask(larger, Role(w, larger)), false, peer, false, ch, now);
    var u := Act(Act(w, Emit(true)), Emit(false));
    var v := Act(u, Deliver(Ask(!larger, Role(w, !larger)), false, peer, false, ch, now));
    if late then Act(Act(v, ask), conflict) else Act(Act(v, conflict), ask)
  }

  /**
   * Both orders happen. With the late 487 the smaller tie-breaker's owner switches for the request and switches back,
   * so the two agents share their role again.
   */
  lemma CrossedExchanges(w: World, larger: bool, late: bool, peer: Endpoint, ch: Choices, now: nat)
    requires Role(w, true) == Role(w, false) && At(w, larger).tieBreaker > At(w, !larger).tieBreaker
    ensures var r := Crossed(w, larger, late, peer, ch, now);
            Role(r, larger) == Role(w, larger) && (Role(r, !larger) == Role(w, larger) <==> late)
  {
    var u := Act(Act(w, Emit(true)), Emit(false));
    DeliverAskRole(u, !larger, Role(w, !larger), false, peer, false, ch, now);
    var v := Act(u, Deliver(Ask(!larger, Role(w, !larger)), false, peer, false, ch, now));
    DeliverAskRole(v, larger, Role(w, larger), false, peer, false, ch, now);
    var asked := Act(v, Deliver(Ask(larger, Role(w, larger)), false, peer, false, ch, now));
    HandleRole(asked, !larger, GotRoleConflict, ch, now);
    HandleRole(v, !larger, GotRoleConflict, ch, now);
    var told := Act(v, Deliver(Conflict(!larger), false, peer, false, ch, now));
    DeliverAskRole(told, larger, Role(w, larger), false, peer, false, ch, now);
  }
}
