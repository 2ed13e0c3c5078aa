/** The distributed system: correct peers running the handlers of `PbftPeer`, faulty peers sending
    anything under their own name, and a network that may delay, reorder, repeat or drop messages. */
module PbftSafety {
  import opened Collections
  import opened Quorums
  import opened Voting
  import opened PbftPeer

  /** The correct peers' states and every message sent so far. */
  datatype System = System(peers: map<int, Peer>, net: set<Msg>)

  datatype Action =
    | DoPropose(p: int, sn: int, d: Digest)
    | DoPreprepare(p: int, sender: int, sn: int, pp: Preprepare, adm: Admission, release: bool)
    | DoPrepare(p: int, sender: int, sn: int, view: nat, d: Digest, release: bool)
    | DoCommit(p: int, sender: int, sn: int, view: nat, d: Digest, release: bool)
    | DoRelease(p: int, sn: int)
    | DoTimeout(p: int)
    | DoViewChange(p: int, sender: int, vc: ViewChange)
    | DoBuild(p: int, u: nat, choices: map<int, Choice>)
    | DoAnswer(p: int, l: Loc)
    | DoMissing(p: int, sender: int, sn: int, pp: Preprepare)
    | DoSendNewView(p: int)
    | DoDropNewView(p: int)
    | DoNewView(p: int, sender: int, nv: NewView, choices: map<int, Choice>)

  /** VIEWCHANGEs of correct peers inside a NEWVIEW were really sent by them. */
  ghost predicate GenuineVset(c: Config, net: set<Msg>, vset: map<int, ViewChange>) {
    vset.Keys <= c.m.peers && forall s :: s in vset && c.m.Correct(s) ==> ViewChangeMsg(s, vset[s]) in net
  }

  ghost predicate Enabled(c: Config, s: System, a: Action) {
    && a.p in s.peers && Runnable(c, s.peers[a.p])
    && var ps := s.peers[a.p];
    match a
    case DoPropose(p, sn, d) =>
      && ps.view == 0 && sn in c.sns && c.Leader(0) == p
      && ps.slots[Loc(0, sn)].pp.None? && !ps.slots[Loc(0, sn)].committed
    case DoPreprepare(p, sender, sn, pp, adm, release) => PreprepareMsg(sender, pp) in s.net
    case DoPrepare(p, sender, sn, view, d, release) => PrepareMsg(sender, sn, view, d) in s.net
    case DoCommit(p, sender, sn, view, d, release) => CommitMsg(sender, sn, view, d) in s.net
    case DoRelease(p, sn) => sn in c.sns
    case DoTimeout(p) => true
    case DoViewChange(p, sender, vc) => ViewChangeMsg(sender, vc) in s.net
    case DoBuild(p, u, choices) => CanBuild(c, ps, u, choices)
    case DoAnswer(p, l) => true
    case DoMissing(p, sender, sn, pp) => MissingPreprepareMsg(sender, sn, pp) in s.net
    case DoSendNewView(p) => CanAnnounce(c, ps)
    case DoDropNewView(p) => CanAnnounce(c, ps)
    case DoNewView(p, sender, nv, choices) =>
      NewViewMsg(sender, nv) in s.net && GenuineVset(c, s.net, nv.vset) && CanAccept(c, ps, sender, nv, choices)
  }

  /** What the acting peer does. */
  ghost function Effect(c: Config, s: System, a: Action): Outcome
    requires Enabled(c, s, a)
  {
    var ps := s.peers[a.p];
    match a
    case DoPropose(p, sn, d) => Propose(ps, sn, d)
    case DoPreprepare(p, sender, sn, pp, adm, release) => OnPreprepare(c, ps, sender, sn, pp, adm, release)
    case DoPrepare(p, sender, sn, view, d, release) => OnPrepare(c, ps, sender, sn, view, d, release)
    case DoCommit(p, sender, sn, view, d, release) => OnCommit(c, ps, sender, sn, view, d, release)
    case DoRelease(p, sn) => Release(c, ps, sn)
    case DoTimeout(p) => SendViewChange(c, ps)
    case DoViewChange(p, sender, vc) => OnViewChange(ps, sender, vc)
    case DoBuild(p, u, choices) => BuildNewView(c, ps, u, choices)
    case DoAnswer(p, l) => OnMissingRequest(ps, l)
    case DoMissing(p, sender, sn, pp) => OnMissingPreprepare(ps, sn, pp)
    case DoSendNewView(p) => SendNewView(c, ps)
    case DoDropNewView(p) => DropNewView(ps)
    case DoNewView(p, sender, nv, choices) => AcceptNewView(c, ps, sender, nv, choices)
  }

  /** One correct peer acts, or a faulty peer sends something. */
  ghost predicate Step(c: Config, s: System, s': System) {
    || (exists a: Action :: Enabled(c, s, a) &&
          s' == System(s.peers[a.p := Effect(c, s, a).peer], s.net + Effect(c, s, a).sent))
    || (exists m: Msg :: m.sender in c.m.faulty && s' == System(s.peers, s.net + {m}))
  }

  ghost predicate Start(c: Config, s: System) {
    && c.Valid() && s.net == {}
    && (forall p :: p in s.peers <==> c.m.Correct(p))
    && forall p :: p in s.peers ==> s.peers[p] == InitPeer(c, p)
  }

  // ---------- Refinement mapping ----------

  /** Views for which the peer has state of `sn`. */
  function ViewsOf(ps: Peer, sn: int): set<int> {
    set l | l in ps.slots && l.sn == sn :: l.view
  }

  predicate AcceptedAt(ps: Peer, sn: int, v: int) {
    0 <= v && Loc(v, sn) in ps.slots && ps.slots[Loc(v, sn)].preprepared && ps.slots[Loc(v, sn)].digest.Some?
  }

  predicate VotedAt(ps: Peer, sn: int, v: int) {
    0 <= v && Loc(v, sn) in ps.slots && ps.slots[Loc(v, sn)].prepared && ps.slots[Loc(v, sn)].digest.Some?
  }

  function BallotOf(ps: Peer, sn: int): (b: Ballot)
    ensures forall v :: v in b.accepted <==> AcceptedAt(ps, sn, v)
    ensures forall v :: v in b.voted <==> VotedAt(ps, sn, v)
  {
    Ballot(ps.view,
           map v | v in ViewsOf(ps, sn) && AcceptedAt(ps, sn, v) :: ps.slots[Loc(v, sn)].digest.value,
           map v | v in ViewsOf(ps, sn) && VotedAt(ps, sn, v) :: ps.slots[Loc(v, sn)].digest.value)
  }

  function ClaimOf(sender: int, vc: ViewChange, sn: int): Claim {
    Claim(sender, vc.view, Lookup(vc.pset, sn), Lookup(vc.qset, sn))
  }

  ghost function ClaimsOf(c: Config, net: set<Msg>, sn: int): set<Claim> {
    set m | m in net && m.ViewChangeMsg? && c.m.Correct(m.sender) :: ClaimOf(m.sender, m.vc, sn)
  }

  /** One slot of the system, seen as a vote. */
  ghost function Project(c: Config, s: System, sn: int): Votes {
    Votes(map p | p in s.peers :: BallotOf(s.peers[p], sn), ClaimsOf(c, s.net, sn))
  }

  // ---------- Invariant ----------

  ghost predicate SlotInv(v: nat, sl: Slot) {
    && SlotOk(sl) && (sl.preprepared ==> sl.pp.value.view == v)
    && sl.valid == |CountedCommits(sl)|
    && (CountedCommits(sl) != {} ==> sl.prepared)
  }

  /** Facts about one peer alone. After view 0 a peer that is not changing views has taken over
      every proposal of the view from its NEWVIEW message, so fresh proposals find no open slot. */
  ghost predicate PeerInv(c: Config, id: int, ps: Peer)
    ensures PeerInv(c, id, ps) ==> Runnable(c, ps)
  {
    && Shape(c, ps) && ps.id == id && (ps.view == 0 ==> !ps.inViewChange)
    && (forall l :: l in ps.slots ==> SlotInv(l.view, ps.slots[l]))
    && (forall l :: l in ps.slots && l.view > 0 && ps.slots[l].preprepared ==> InfoFor(ps, l.view).accepted)
    && ChangesOk(c, ps)
    && (ps.view > 0 && !ps.inViewChange ==> forall sn :: sn in c.sns ==> ps.slots[ps.Here(sn)].preprepared)
  }

  /** COMMITs recorded for correct peers were sent by them. */
  ghost predicate RecordOk(c: Config, net: set<Msg>, v: nat, sn: int, sl: Slot) {
    forall p :: p in sl.commits ==>
      && p in c.m.peers
      && (c.m.Correct(p) ==>
            match sl.commits[p]
            case Some(d) => CommitMsg(p, sn, v, d) in net
            case None => sl.digest.Some? && CommitMsg(p, sn, v, sl.digest.value) in net)
  }

  /** `d` was chosen for `sn` in view `v` or before. */
  ghost predicate DecidedBy(c: Config, s: System, sn: int, v: int, d: Digest) {
    exists w: int :: w <= v && Chosen(c.m, Project(c, s, sn), w, d)
  }

  /** COMMITs are genuine and a decision is backed by a quorum, in an earlier view if the slot holds
      no proposal of its own. */
  ghost predicate SlotFacts(c: Config, s: System, v: nat, sn: int, sl: Slot) {
    && RecordOk(c, s.net, v, sn, sl)
    && (sl.committed && sl.digest.Some? ==>
          DecidedBy(c, s, sn, if sl.preprepared then v else v - 1, sl.digest.value))
  }

  ghost predicate SlotsInv(c: Config, s: System, ps: Peer) {
    forall l :: l in ps.slots ==> SlotFacts(c, s, l.view, l.sn, ps.slots[l])
  }

  /** A decision at `l` holds, with its digest, in the later view of `k`. */
  ghost predicate KeepsPair(ps: Peer, l: Loc, k: Loc) {
    l in ps.slots && k in ps.slots && l.sn == k.sn && l.view <= k.view && ps.slots[l].committed ==>
      ps.slots[k].committed && ps.slots[k].digest == ps.slots[l].digest
  }

  /** Decisions carry over to every later view. */
  ghost predicate KeepsDecisions(ps: Peer) {
    forall l, k {:trigger KeepsPair(ps, l, k)} :: KeepsPair(ps, l, k)
  }

  /** An earlier slot with a proposal from which the decision at `l` was carried over. */
  ghost predicate Origin(ps: Peer, l: Loc, k: Loc) {
    && k in ps.slots && k.sn == l.sn && k.view < l.view
    && ps.slots[k].committed && ps.slots[k].preprepared
  }

  ghost predicate HasOrigins(ps: Peer) {
    forall l :: l in ps.slots && ps.slots[l].committed && !ps.slots[l].preprepared ==> exists k :: Origin(ps, l, k)
  }

  /** A batch about to be proposed again is justified and agrees with what the leader has decided. */
  ghost predicate ReproposalOk(c: Config, s: System, ps: Peer, sn: int, rp: Reproposal)
    requires ps.Here(sn) in ps.slots
  {
    && Justified(c.m, Project(c, s, sn), ps.view, rp.digest)
    && (rp.pp.Some? ==> rp.pp.value.view == ps.view)
    && (rp.committed ==> DecidedBy(c, s, sn, ps.view, rp.digest))
    && (ps.slots[ps.Here(sn)].committed ==> rp.committed && ps.slots[ps.Here(sn)].digest == Some(rp.digest))
  }

  /** The leader of a view being set up has fixed proposals that are safe to send. */
  ghost predicate Preparing(ps: Peer) {
    ps.inViewChange && ps.view in ps.changes && ps.changes[ps.view].enough && !ps.changes[ps.view].accepted
  }

  ghost predicate ReproposalsInv(c: Config, s: System, ps: Peer)
    requires Shape(c, ps)
  {
    Preparing(ps) ==> forall sn :: sn in ps.changes[ps.view].repropose && sn in c.sns ==>
      ReproposalOk(c, s, ps, sn, ps.changes[ps.view].repropose[sn])
  }

  /** VIEWCHANGEs collected from correct peers were sent by them for that view. */
  ghost predicate ChangesInv(c: Config, net: set<Msg>, ps: Peer) {
    forall u :: u in ps.changes ==>
      GenuineVset(c, net, ps.changes[u].s) && forall p :: p in ps.changes[u].s ==> ps.changes[u].s[p].view == u
  }

  ghost predicate NetInv(c: Config, s: System) {
    forall m :: m in s.net ==>
      && m.sender in c.m.peers
      && (c.m.Correct(m.sender) && m.CommitMsg? ==> SentCommit(s, m.sender, m.sn, m.view, m.digest))
      && (c.m.Correct(m.sender) && m.ViewChangeMsg? ==> m.vc.h == -1 && m.vc.cset == [-1])
  }

  ghost predicate SentCommit(s: System, p: int, sn: int, v: nat, d: Digest) {
    && p in s.peers && Loc(v, sn) in s.peers[p].slots
    && s.peers[p].slots[Loc(v, sn)].prepared && s.peers[p].slots[Loc(v, sn)].digest == Some(d)
  }

  ghost predicate Populated(c: Config, s: System) {
    c.Valid() && forall p :: p in s.peers <==> c.m.Correct(p)
  }

  ghost predicate Inv(c: Config, s: System) {
    && Populated(c, s)
    && (forall p :: p in s.peers ==> PeerInv(c, p, s.peers[p]))
    && (forall p :: p in s.peers ==> SlotsInv(c, s, s.peers[p]))
    && (forall p :: p in s.peers ==> KeepsDecisions(s.peers[p]) && HasOrigins(s.peers[p]))
    && (forall p :: p in s.peers ==> ReproposalsInv(c, s, s.peers[p]))
    && (forall p :: p in s.peers ==> ChangesInv(c, s.net, s.peers[p]))
    && NetInv(c, s)
    && forall sn :: sn in c.sns ==> Voting.Inv(c.m, Project(c, s, sn))
  }
}
