/** Two agents that hold each other's candidates and opposite roles build mirror-image check lists. */
module Mirror {
  import opened Bytes
  import opened Sequences
  import opened Candidates
  import opened CheckList
  import Signal

  function Faces(cs: seq<Candidate>): (r: set<Candidate>) { set c | c in cs :: Face(c) }

  ghost predicate OnList(ps: seq<CheckPair>, l: Candidate, r: Candidate) {
    exists i :: 0 <= i < |ps| && Face(ps[i].local) == l && Face(ps[i].remote) == r
  }

  /** Each agent's candidates are the other's remotes, the roles are opposite and neither predicts ports. */
  predicate Mirrored(a: Sides, b: Sides) {
    && Faces(a.locals) == Faces(b.remotes) && Faces(a.remotes) == Faces(b.locals)
    && a.controlling != b.controlling && a.stride == 0 && b.stride == 0
  }

  // ---- What is on a built list ----

  lemma {:induction false} RowMember(l: Candidate, rs: seq<Candidate>, controlling: bool, n: nat, p: CheckPair)
    ensures p in Row(l, rs, controlling, 0, n) <==>
            exists r :: r in rs && Compatible(l, r) && p == NewPair(l, r, controlling)
  {
    if rs != [] {
      var last := |rs| - 1;
      RowMember(l, rs[..last], controlling, n, p);
      assert rs == rs[..last] + [rs[last]];
    }
  }

  lemma {:induction false} RowsMember(ls: seq<Candidate>, rs: seq<Candidate>, controlling: bool, n: nat, p: CheckPair)
    ensures p in Rows(ls, rs, controlling, 0, n) <==>
            exists l, r :: l in ls && r in rs && Compatible(l, r) && p == NewPair(l, r, controlling)
  {
    if ls != [] {
      var last := |ls| - 1;
      RowsMember(ls[..last], rs, controlling, n, p);
      RowMember(ls[last], rs, controlling, n, p);
      assert ls == ls[..last] + [ls[last]];
    }
  }

  function Raw(cfg: Config, from: Sides): (ps: seq<CheckPair>)
  {
    Rows(StampAll(cfg.hash, from.locals), StampAll(cfg.hash, from.remotes), from.controlling, from.stride,
         Attempts(cfg, from.stride))
  }

  lemma BareInRaw(cfg: Config, from: Sides, ps: seq<CheckPair>, i: nat)
    requires IsBuilt(cfg, from, ps) && i < |ps|
    ensures Bare(ps[i]) in Raw(cfg, from)
  {
    assert BareAll(ps)[i] in multiset(BareAll(ps));
  }

  lemma RawInBare(cfg: Config, from: Sides, ps: seq<CheckPair>, p: CheckPair) returns (i: nat)
    requires IsBuilt(cfg, from, ps) && p in Raw(cfg, from)
    ensures i < |ps| && Bare(ps[i]) == p
  {
    assert p in multiset(BareAll(ps));
    i :| i < |ps| && BareAll(ps)[i] == p;
  }

  /** Every pair on a built list without prediction comes from an admissible pairing and carries its priority. */
  lemma BuiltPair(cfg: Config, from: Sides, ps: seq<CheckPair>, i: nat)
    requires IsBuilt(cfg, from, ps) && from.stride == 0 && i < |ps|
    ensures var l, r := Face(ps[i].local), Face(ps[i].remote);
            && l in Faces(from.locals) && r in Faces(from.remotes) && Compatible(l, r)
            && ps[i].priority == PairPriority(l.priority, r.priority, from.controlling)
  {
    var ls, rs := StampAll(cfg.hash, from.locals), StampAll(cfg.hash, from.remotes);
    BareInRaw(cfg, from, ps, i);
    RowsMember(ls, rs, from.controlling, Attempts(cfg, 0), Bare(ps[i]));
    var l, r :| l in ls && r in rs && Compatible(l, r) && Bare(ps[i]) == NewPair(l, r, from.controlling);
    StampedFace(cfg, from.locals, l);
    StampedFace(cfg, from.remotes, r);
  }

  lemma StampedFace(cfg: Config, cs: seq<Candidate>, c: Candidate)
    requires c in StampAll(cfg.hash, cs)
    ensures Face(c) in Faces(cs)
  {
    var k :| 0 <= k < |cs| && StampAll(cfg.hash, cs)[k] == c;
    assert cs[k] in cs && Face(cs[k]) == Face(c);
  }

  lemma FaceStamped(cfg: Config, cs: seq<Candidate>, f: Candidate) returns (c: Candidate)
    requires f in Faces(cs)
    ensures c in StampAll(cfg.hash, cs) && Face(c) == f
  {
    var d :| d in cs && Face(d) == f;
    var k :| 0 <= k < |cs| && cs[k] == d;
    c := StampAll(cfg.hash, cs)[k];
  }

  /** A built list holds exactly the compatible pairings. */
  lemma BuiltExactly(cfg: Config, from: Sides, ps: seq<CheckPair>, l: Candidate, r: Candidate)
    requires IsBuilt(cfg, from, ps) && from.stride == 0
    ensures OnList(ps, l, r) <==> l in Faces(from.locals) && r in Faces(from.remotes) && Compatible(l, r)
  {
    if OnList(ps, l, r) {
      var i :| 0 <= i < |ps| && Face(ps[i].local) == l && Face(ps[i].remote) == r;
      BuiltPair(cfg, from, ps, i);
    }
    if l in Faces(from.locals) && r in Faces(from.remotes) && Compatible(l, r) {
      var x := FaceStamped(cfg, from.locals, l);
      var y := FaceStamped(cfg, from.remotes, r);
      var p := NewPair(x, y, from.controlling);
      var ls, rs := StampAll(cfg.hash, from.locals), StampAll(cfg.hash, from.remotes);
      RowsMember(ls, rs, from.controlling, Attempts(cfg, 0), p);
      var i := RawInBare(cfg, from, ps, p);
      assert Face(ps[i].local) == l && Face(ps[i].remote) == r;
    }
  }

  // ---- The mirror ----

  /** Exactly one of the two is an mDNS candidate, and it has no name: it is skipped as a local but not as a remote. */
  predicate Lopsided(l: Candidate, r: Candidate) {
    && l.family == r.family
    && ((l.transport == UDP && r.transport == UDP) || TcpPairs(l.transport, r.transport))
    && ((l.kind == HOST_MDNS && l.hostname == [] && r.kind != HOST_MDNS)
        || (r.kind == HOST_MDNS && r.hostname == [] && l.kind != HOST_MDNS))
  }

  lemma CompatibleMirror(l: Candidate, r: Candidate)
    ensures (Compatible(l, r) <==> Compatible(r, l)) <==> !Lopsided(l, r)
  {
  }

  ghost predicate MirrorImages(ps: seq<CheckPair>, qs: seq<CheckPair>) {
    forall l, r :: OnList(ps, l, r) <==> OnList(qs, r, l)
  }

  ghost predicate NoLopsided(a: Sides) {
    forall l, r :: l in Faces(a.locals) && r in Faces(a.remotes) ==> !Lopsided(l, r)
  }

  /**
   * A pair is on one list exactly when its mirror is on the other, if and only if no admissible pairing matches an mDNS
   * candidate without a name with a candidate that is not mDNS.
   */
  lemma MirrorLists(cfgA: Config, a: Sides, ps: seq<CheckPair>, cfgB: Config, b: Sides, qs: seq<CheckPair>)
    requires IsBuilt(cfgA, a, ps) && IsBuilt(cfgB, b, qs) && Mirrored(a, b)
    ensures MirrorImages(ps, qs) <==> NoLopsided(a)
  {
    forall l, r
      ensures (OnList(ps, l, r) <==> OnList(qs, r, l)) <==>
              (l in Faces(a.locals) && r in Faces(a.remotes) ==> !Lopsided(l, r))
    {
      BuiltExactly(cfgA, a, ps, l, r);
      BuiltExactly(cfgB, b, qs, r, l);
      CompatibleMirror(l, r);
    }
  }

  /** It can fail: one agent has only a nameless mDNS candidate, the other only a host candidate. */
  lemma NamelessBreaksMirror(cfgA: Config, ps: seq<CheckPair>, cfgB: Config, qs: seq<CheckPair>, m: Candidate,
                             h: Candidate)
    requires m == CandidateAt(HOST_MDNS, V4([10, 0, 0, 1]), 5000) && h == CandidateAt(HOST, V4([10, 0, 0, 2]), 5001)
    requires IsBuilt(cfgA, Sides([m], [h], true, 0), ps) && IsBuilt(cfgB, Sides([h], [m], false, 0), qs)
    ensures !MirrorImages(ps, qs)
  {
    var a, b := Sides([m], [h], true, 0), Sides([h], [m], false, 0);
    assert m in a.locals && h in a.remotes;
    assert Face(m) in Faces(a.locals) && Face(h) in Faces(a.remotes) && Lopsided(Face(m), Face(h));
    MirrorLists(cfgA, a, ps, cfgB, b, qs);
  }

  /** A candidate read from some accepted blob. */
  ghost predicate Signalled(c: Candidate) {
    exists blob :: Signal.Deserialize(blob).Some? && c in Signal.Deserialize(blob).value.cands
  }

  lemma SignalledIsNamed(cs: seq<Candidate>, f: Candidate)
    requires (forall i :: 0 <= i < |cs| ==> Signalled(cs[i])) && f in Faces(cs)
    ensures f.kind == HOST_MDNS ==> f.hostname != []
  {
    var c :| c in cs && Face(c) == f;
    assert Signalled(c);
    var blob :| Signal.Deserialize(blob).Some? && c in Signal.Deserialize(blob).value.cands;
    Signal.AcceptedIsNamed(blob);
    assert Signal.Named(c);
  }

  /** Agents that learned each other's candidates through signalling always build mirror lists. */
  lemma SignalledMirror(cfgA: Config, a: Sides, ps: seq<CheckPair>, cfgB: Config, b: Sides, qs: seq<CheckPair>)
    requires IsBuilt(cfgA, a, ps) && IsBuilt(cfgB, b, qs) && Mirrored(a, b)
    requires forall i :: 0 <= i < |a.remotes| ==> Signalled(a.remotes[i])
    requires forall i :: 0 <= i < |b.remotes| ==> Signalled(b.remotes[i])
    ensures MirrorImages(ps, qs)
  {
    forall l, r | l in Faces(a.locals) && r in Faces(a.remotes)
      ensures !Lopsided(l, r)
    {
      SignalledIsNamed(b.remotes, l);
      SignalledIsNamed(a.remotes, r);
    }
    MirrorLists(cfgA, a, ps, cfgB, b, qs);
  }

  ghost predicate MirrorPair(p: CheckPair, q: CheckPair) {
    Face(p.local) == Face(q.remote) && Face(p.remote) == Face(q.local)
  }

  /** Mirror pairs carry the same priority, whichever list they are on. */
  lemma MirrorPriority(cfgA: Config, a: Sides, ps: seq<CheckPair>, cfgB: Config, b: Sides, qs: seq<CheckPair>,
                       i: nat, j: nat)
    requires IsBuilt(cfgA, a, ps) && IsBuilt(cfgB, b, qs) && Mirrored(a, b)
    requires i < |ps| && j < |qs| && MirrorPair(ps[i], qs[j])
    ensures ps[i].priority == qs[j].priority
  {
    BuiltPair(cfgA, a, ps, i);
    BuiltPair(cfgB, b, qs, j);
    PairPriorityMirror(Face(ps[i].local).priority, Face(ps[i].remote).priority, a.controlling);
  }

  /** So the two agents work through mirror pairs of different priority in the same order. */
  lemma MirrorOrder(cfgA: Config, a: Sides, ps: seq<CheckPair>, cfgB: Config, b: Sides, qs: seq<CheckPair>,
                    i: nat, i': nat, j: nat, j': nat)
    requires IsBuilt(cfgA, a, ps) && IsBuilt(cfgB, b, qs) && Mirrored(a, b)
    requires i < |ps| && i' < |ps| && j < |qs| && j' < |qs|
    requires MirrorPair(ps[i], qs[j]) && MirrorPair(ps[i'], qs[j'])
    ensures ps[i].priority > ps[i'].priority <==> qs[j].priority > qs[j'].priority
    ensures ps[i].priority != ps[i'].priority ==> (i < i' <==> j < j')
  {
    MirrorPriority(cfgA, a, ps, cfgB, b, qs, i, j);
    MirrorPriority(cfgA, a, ps, cfgB, b, qs, i', j');
  }

  /** Ties are exactly the shared numbers; with priorities up to 2^31 they are only ties of both ends. */
  lemma MirrorTies(cfg: Config, a: Sides, ps: seq<CheckPair>, i: nat, i': nat)
    requires IsBuilt(cfg, a, ps) && a.stride == 0 && i < |ps| && i' < |ps|
    ensures var l, r := ps[i].local.priority, ps[i].remote.priority;
            var l', r' := ps[i'].local.priority, ps[i'].remote.priority;
            && (ps[i].priority == ps[i'].priority <==>
                  if a.controlling then Shares(l, r, l', r') else Shares(r, l, r', l'))
            && (l <= 0x8000_0000 && r <= 0x8000_0000 && l' <= 0x8000_0000 && r' <= 0x8000_0000 ==>
                  (ps[i].priority == ps[i'].priority <==> l == l' && r == r'))
  {
    var l, r, l', r' := ps[i].local.priority, ps[i].remote.priority, ps[i'].local.priority, ps[i'].remote.priority;
    BuiltPair(cfg, a, ps, i);
    BuiltPair(cfg, a, ps, i');
    PairPriorityCollision(l, r, l', r');
    if l <= 0x8000_0000 && r <= 0x8000_0000 && l' <= 0x8000_0000 && r' <= 0x8000_0000 {
      PairPriorityLexicographic(l, r, l', r', a.controlling);
    }
  }
}
