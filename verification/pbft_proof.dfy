/** Proof that every step of the system keeps its invariant, by showing that each step is a step
    of `Voting` for every slot. */
module PbftProof {
  import opened Collections
  import opened Quorums
  import opened Voting
  import opened PbftPeer
  import opened PbftSafety

  // ---------- From one peer's step to the whole system ----------

  /** `r` moves from its state in `s` to `ps'`, and messages are added to the network. */
  ghost predicate Acts(c: Config, s: System, s': System, r: int, ps': Peer) {
    && Populated(c, s) && r in s.peers
    && s'.peers == s.peers[r := ps'] && s.net <= s'.net
  }

  /** The messages added are `r`'s own, and its COMMITs and VIEWCHANGEs match its new state. */
  ghost predicate SendsOk(c: Config, s: System, s': System, r: int, ps': Peer) {
    forall m :: m in s'.net && m !in s.net ==>
      && m.sender == r
      && (m.CommitMsg? ==> SentCommit(s', r, m.sn, m.view, m.digest))
      && (m.ViewChangeMsg? ==>
            && m.vc.h == -1 && m.vc.cset == [-1]
            && forall sn :: sn in c.sns ==> Truthful(BallotOf(ps', sn), ClaimOf(r, m.vc, sn)))
  }

  lemma ProjectNext(c: Config, s: System, s': System, r: int, ps': Peer, sn: int)
    requires Acts(c, s, s', r, ps') && SendsOk(c, s, s', r, ps') && sn in c.sns
    requires BallotStep(c.m, Project(c, s, sn), BallotOf(s.peers[r], sn), BallotOf(ps', sn))
    ensures Next(c.m, Project(c, s, sn), Project(c, s', sn))
  {
    var st, st' := Project(c, s, sn), Project(c, s', sn);
    forall p | p in st.ballots
      ensures BallotStep(c.m, st, st.ballots[p], st'.ballots[p])
    {
      assert p != r ==> st'.ballots[p] == st.ballots[p];
    }
    forall cl | cl in st'.claims && cl !in st.claims
      ensures cl.sender in st'.ballots && Truthful(st'.ballots[cl.sender], cl)
    {
      var m :| m in s'.net && m.ViewChangeMsg? && c.m.Correct(m.sender) && cl == ClaimOf(m.sender, m.vc, sn);
      assert m !in s.net;
    }
  }

  ghost predicate AllNext(c: Config, s: System, s': System) {
    forall sn :: sn in c.sns ==> Next(c.m, Project(c, s, sn), Project(c, s', sn))
  }

  lemma DecidedStays(c: Config, s: System, s': System, sn: int, v: int, d: Digest)
    requires Populated(c, s) && AllNext(c, s, s') && sn in c.sns && DecidedBy(c, s, sn, v, d)
    ensures DecidedBy(c, s', sn, v, d)
  {
    var w: int :| w <= v && Chosen(c.m, Project(c, s, sn), w, d);
    ChosenIsStable(c.m, Project(c, s, sn), Project(c, s', sn), w, d);
  }

  lemma JustifiedStays(c: Config, s: System, s': System, sn: int, u: int, d: Digest)
    requires AllNext(c, s, s') && sn in c.sns && Justified(c.m, Project(c, s, sn), u, d)
    ensures Justified(c.m, Project(c, s', sn), u, d)
  {
    var vs: map<int, Claim> :| JustifiedBy(c.m, Project(c, s, sn), u, d, vs);
    assert JustifiedBy(c.m, Project(c, s', sn), u, d, vs);
  }

  lemma SlotFactsStay(c: Config, s: System, s': System, v: nat, sn: int, sl: Slot)
    requires Populated(c, s) && AllNext(c, s, s') && s.net <= s'.net && sn in c.sns
    requires SlotFacts(c, s, v, sn, sl)
    ensures SlotFacts(c, s', v, sn, sl)
  {
    if sl.committed && sl.digest.Some? {
      DecidedStays(c, s, s', sn, if sl.preprepared then v else v - 1, sl.digest.value);
    }
  }

  lemma SlotsInvStays(c: Config, s: System, s': System, ps: Peer)
    requires Populated(c, s) && AllNext(c, s, s') && s.net <= s'.net && Shape(c, ps) && SlotsInv(c, s, ps)
    ensures SlotsInv(c, s', ps)
  {
    forall l | l in ps.slots
      ensures SlotFacts(c, s', l.view, l.sn, ps.slots[l])
    {
      SlotFactsStay(c, s, s', l.view, l.sn, ps.slots[l]);
    }
  }

  lemma ReproposalStays(c: Config, s: System, s': System, ps: Peer, sn: int, rp: Reproposal)
    requires Populated(c, s) && AllNext(c, s, s') && sn in c.sns
    requires ps.Here(sn) in ps.slots && ReproposalOk(c, s, ps, sn, rp)
    ensures ReproposalOk(c, s', ps, sn, rp)
  {
    JustifiedStays(c, s, s', sn, ps.view, rp.digest);
    if rp.committed {
      DecidedStays(c, s, s', sn, ps.view, rp.digest);
    }
  }

  lemma ReproposalsInvStays(c: Config, s: System, s': System, ps: Peer)
    requires Populated(c, s) && AllNext(c, s, s') && Shape(c, ps) && ReproposalsInv(c, s, ps)
    ensures ReproposalsInv(c, s', ps)
  {
    if Preparing(ps) {
      forall sn | sn in ps.changes[ps.view].repropose && sn in c.sns
        ensures ReproposalOk(c, s', ps, sn, ps.changes[ps.view].repropose[sn])
      {
        ReproposalStays(c, s, s', ps, sn, ps.changes[ps.view].repropose[sn]);
      }
    }
  }

  lemma SentCommitStays(c: Config, s: System, s': System, p: int, sn: int, v: nat, d: Digest)
    requires AllNext(c, s, s') && SentCommit(s, p, sn, v, d) && sn in c.sns
    ensures SentCommit(s', p, sn, v, d)
  {
    var st, st' := Project(c, s, sn), Project(c, s', sn);
    assert st.ballots[p].voted[v] == d;
    assert BallotStep(c.m, st, st.ballots[p], st'.ballots[p]);
    assert v in st'.ballots[p].voted;
  }

  lemma NetInvStays(c: Config, s: System, s': System, r: int, ps': Peer)
    requires Acts(c, s, s', r, ps') && SendsOk(c, s, s', r, ps') && AllNext(c, s, s') && NetInv(c, s)
    requires forall p :: p in s.peers ==> PeerInv(c, p, s.peers[p])
    ensures NetInv(c, s')
  {
    forall m | m in s'.net && c.m.Correct(m.sender) && m.CommitMsg?
      ensures SentCommit(s', m.sender, m.sn, m.view, m.digest)
    {
      if m in s.net {
        assert PeerInv(c, m.sender, s.peers[m.sender]);
        SentCommitStays(c, s, s', m.sender, m.sn, m.view, m.digest);
      }
    }
  }

  /** What remains to be shown of the acting peer once its step is known to be a voting step. */
  ghost predicate LandsOk(c: Config, s': System, r: int, ps': Peer) {
    && PeerInv(c, r, ps') && SlotsInv(c, s', ps') && KeepsDecisions(ps') && HasOrigins(ps')
    && ReproposalsInv(c, s', ps') && ChangesInv(c, s'.net, ps')
  }

  lemma OthersLand(c: Config, s: System, s': System, p: int)
    requires Populated(c, s) && AllNext(c, s, s') && s.net <= s'.net && p in s.peers && LandsOk(c, s, p, s.peers[p])
    ensures LandsOk(c, s', p, s.peers[p])
  {
    SlotsInvStays(c, s, s', s.peers[p]);
    ReproposalsInvStays(c, s, s', s.peers[p]);
  }

  lemma Assemble(c: Config, s: System, s': System, r: int, ps': Peer)
    requires PbftSafety.Inv(c, s) && Acts(c, s, s', r, ps') && SendsOk(c, s, s', r, ps') && AllNext(c, s, s')
    requires LandsOk(c, s', r, ps')
    ensures PbftSafety.Inv(c, s')
  {
    forall p | p in s'.peers
      ensures LandsOk(c, s', p, s'.peers[p])
    {
      if p != r {
        OthersLand(c, s, s', p);
      }
    }
    NetInvStays(c, s, s', r, ps');
    forall sn | sn in c.sns
      ensures Voting.Inv(c.m, Project(c, s', sn))
    {
      NextInv(c.m, Project(c, s, sn), Project(c, s', sn));
    }
  }

  /** A step of a peer is a voting step for `k` if accepted proposals and votes are kept, votes are
      cast in views not yet left, and proposals accepted after view 0 are justified. */
  lemma BallotStepIf(m: Membership, st: Votes, ps: Peer, ps': Peer, k: int)
    requires ps.view <= ps'.view
    requires forall v :: AcceptedAt(ps, k, v) ==>
               AcceptedAt(ps', k, v) && ps'.slots[Loc(v, k)].digest == ps.slots[Loc(v, k)].digest
    requires forall v :: VotedAt(ps, k, v) ==>
               VotedAt(ps', k, v) && ps'.slots[Loc(v, k)].digest == ps.slots[Loc(v, k)].digest
    requires forall v :: VotedAt(ps', k, v) && !VotedAt(ps, k, v) ==> ps.view <= v <= ps'.view && AcceptedAt(ps', k, v)
    requires forall v :: AcceptedAt(ps', k, v) && !AcceptedAt(ps, k, v) ==>
               v <= ps'.view && (v > 0 ==> Justified(m, st, v, ps'.slots[Loc(v, k)].digest.value))
    ensures BallotStep(m, st, BallotOf(ps, k), BallotOf(ps', k))
  {
  }

  // ---------- Steps that change one slot of the current view ----------

  /** How a slot may change while its view is current. */
  ghost predicate SlotStep(c: Config, view: nat, sl: Slot, sl': Slot) {
    && SlotInv(view, sl')
    && (sl.preprepared ==> sl'.preprepared && sl'.pp == sl.pp && sl'.digest == sl.digest)
    && (sl.prepared ==> sl'.prepared)
    && (sl.committed ==> sl'.committed && sl'.digest == sl.digest)
    && (sl'.preprepared && !sl.preprepared ==> view == 0)
    && (sl'.committed && !sl.committed ==> EnoughCommits(c, sl'))
  }

  /** Enough counted COMMITs are a quorum of votes. */
  lemma EnoughIsChosen(c: Config, s: System, v: nat, sn: int, sl: Slot)
    requires Populated(c, s) && NetInv(c, s) && sn in c.sns
    requires SlotInv(v, sl) && EnoughCommits(c, sl) && RecordOk(c, s.net, v, sn, sl)
    ensures Chosen(c.m, Project(c, s, sn), v, sl.digest.value)
  {
    var q, d := CountedCommits(sl), sl.digest.value;
    assert q <= c.m.peers by {
      forall p | p in q
        ensures p in c.m.peers
      {
        assert p in sl.commits;
      }
    }
    forall p | p in q && c.m.Correct(p)
      ensures VotedFor(Project(c, s, sn), p, v, d)
    {
      assert CommitMsg(p, sn, v, d) in s.net;
      assert SentCommit(s, p, sn, v, d);
    }
    assert AllVoted(c.m, Project(c, s, sn), q, v, d);
  }

  lemma SlotBallotStep(c: Config, st: Votes, ps: Peer, sn: int, sl': Slot, k: int)
    requires Shape(c, ps) && sn in c.sns && SlotInv(ps.view, ps.slots[ps.Here(sn)])
    requires SlotStep(c, ps.view, ps.slots[ps.Here(sn)], sl')
    ensures BallotStep(c.m, st, BallotOf(ps, k), BallotOf(SetSlot(ps, sn, sl'), k))
  {
    BallotStepIf(c.m, st, ps, SetSlot(ps, sn, sl'), k);
  }

  lemma SlotPeerInv(c: Config, r: int, ps: Peer, sn: int, sl': Slot)
    requires PeerInv(c, r, ps) && sn in c.sns
    requires SlotStep(c, ps.view, ps.slots[ps.Here(sn)], sl')
    ensures PeerInv(c, r, SetSlot(ps, sn, sl'))
  {
    var ps' := SetSlot(ps, sn, sl');
    forall l | l in ps'.slots
      ensures SlotInv(l.view, ps'.slots[l])
    {
      assert SlotInv(l.view, ps.slots[l]);
    }
    SlotRest(c, ps, sn, sl');
  }

  lemma SlotRest(c: Config, ps: Peer, sn: int, sl': Slot)
    requires Shape(c, ps) && ChangesOk(c, ps) && sn in c.sns && SlotStep(c, ps.view, ps.slots[ps.Here(sn)], sl')
    requires forall l :: l in ps.slots && l.view > 0 && ps.slots[l].preprepared ==> InfoFor(ps, l.view).accepted
    requires ps.view > 0 && !ps.inViewChange ==> forall k :: k in c.sns ==> ps.slots[ps.Here(k)].preprepared
    ensures var ps' := SetSlot(ps, sn, sl');
            && Shape(c, ps') && ChangesOk(c, ps')
            && (forall l :: l in ps'.slots && l.view > 0 && ps'.slots[l].preprepared ==> InfoFor(ps', l.view).accepted)
            && (ps'.view > 0 && !ps'.inViewChange ==> forall k :: k in c.sns ==> ps'.slots[ps'.Here(k)].preprepared)
  {
  }

  lemma SlotKeepsDecisions(c: Config, ps: Peer, sn: int, sl': Slot)
    requires Shape(c, ps) && sn in c.sns && KeepsDecisions(ps)
    requires SlotStep(c, ps.view, ps.slots[ps.Here(sn)], sl')
    ensures KeepsDecisions(SetSlot(ps, sn, sl'))
  {
    forall l, k
      ensures KeepsPair(SetSlot(ps, sn, sl'), l, k)
    {
      assert KeepsPair(ps, l, k);
    }
  }

  lemma SlotHasOrigins(c: Config, ps: Peer, sn: int, sl': Slot)
    requires Shape(c, ps) && sn in c.sns && HasOrigins(ps)
    requires SlotStep(c, ps.view, ps.slots[ps.Here(sn)], sl')
    ensures HasOrigins(SetSlot(ps, sn, sl'))
  {
    var ps' := SetSlot(ps, sn, sl');
    forall l | l in ps'.slots && ps'.slots[l].committed && !ps'.slots[l].preprepared
      ensures exists k :: Origin(ps', l, k)
    {
      assert l in ps.slots && ps.slots[l].committed && !ps.slots[l].preprepared;
      var k :| Origin(ps, l, k);
      assert Origin(ps', l, k);
    }
  }

  lemma SlotActionNext(c: Config, s: System, s': System, r: int, ps: Peer, sn: int, sl': Slot)
    requires Populated(c, s) && r in s.peers && ps == s.peers[r] && sn in c.sns && PeerInv(c, r, ps)
    requires Acts(c, s, s', r, SetSlot(ps, sn, sl')) && SendsOk(c, s, s', r, SetSlot(ps, sn, sl'))
    requires SlotStep(c, ps.view, ps.slots[ps.Here(sn)], sl')
    ensures AllNext(c, s, s')
  {
    forall k | k in c.sns
      ensures Next(c.m, Project(c, s, k), Project(c, s', k))
    {
      SlotBallotStep(c, Project(c, s, k), ps, sn, sl', k);
      ProjectNext(c, s, s', r, SetSlot(ps, sn, sl'), k);
    }
  }

  lemma SlotActionFacts(c: Config, s: System, s': System, ps: Peer, sn: int, sl': Slot)
    requires Populated(c, s) && Populated(c, s') && AllNext(c, s, s') && s.net <= s'.net && NetInv(c, s')
    requires Shape(c, ps) && sn in c.sns && SlotsInv(c, s, ps)
    requires SlotStep(c, ps.view, ps.slots[ps.Here(sn)], sl') && RecordOk(c, s'.net, ps.view, sn, sl')
    ensures SlotsInv(c, s', SetSlot(ps, sn, sl'))
  {
    var sl := ps.slots[ps.Here(sn)];
    SlotsInvStays(c, s, s', ps);
    assert SlotFacts(c, s', ps.view, sn, sl);
    if sl'.committed && !sl.committed {
      EnoughIsChosen(c, s', ps.view, sn, sl');
    }
    assert SlotFacts(c, s', ps.view, sn, sl');
  }

  lemma SlotActionLands(c: Config, s: System, s': System, r: int, ps: Peer, sn: int, sl': Slot)
    requires Populated(c, s) && Populated(c, s') && AllNext(c, s, s') && s.net <= s'.net && NetInv(c, s')
    requires LandsOk(c, s, r, ps) && sn in c.sns && !Preparing(ps)
    requires SlotStep(c, ps.view, ps.slots[ps.Here(sn)], sl') && RecordOk(c, s'.net, ps.view, sn, sl')
    ensures LandsOk(c, s', r, SetSlot(ps, sn, sl'))
  {
    SlotPeerInv(c, r, ps, sn, sl');
    SlotKeepsDecisions(c, ps, sn, sl');
    SlotHasOrigins(c, ps, sn, sl');
    SlotActionFacts(c, s, s', ps, sn, sl');
  }

  lemma SlotAction(c: Config, s: System, s': System, r: int, ps: Peer, sn: int, sl': Slot)
    requires PbftSafety.Inv(c, s) && r in s.peers && ps == s.peers[r] && sn in c.sns && !Preparing(ps)
    requires LandsOk(c, s, r, ps)
    requires Acts(c, s, s', r, SetSlot(ps, sn, sl')) && SendsOk(c, s, s', r, SetSlot(ps, sn, sl'))
    requires SlotStep(c, ps.view, ps.slots[ps.Here(sn)], sl') && RecordOk(c, s'.net, ps.view, sn, sl')
    ensures PbftSafety.Inv(c, s') && AllNext(c, s, s')
  {
    SlotActionNext(c, s, s', r, ps, sn, sl');
    NetInvStays(c, s, s', r, SetSlot(ps, sn, sl'));
    SlotActionLands(c, s, s', r, ps, sn, sl');
    Assemble(c, s, s', r, SetSlot(ps, sn, sl'));
  }

  lemma InvAt(c: Config, s: System, r: int)
    requires PbftSafety.Inv(c, s) && r in s.peers
    ensures LandsOk(c, s, r, s.peers[r]) && c.m.Correct(r)
  {
  }

  lemma CountCommitsOk(c: Config, net: set<Msg>, view: nat, sn: int, sl: Slot)
    requires SlotInv(view, sl) && RecordOk(c, net, view, sn, sl)
    ensures SlotInv(view, CountCommits(sl)) && RecordOk(c, net, view, sn, CountCommits(sl))
  {
    var sl' := CountCommits(sl);
    if sl.prepared {
      assert CountedCommits(sl') == CountedCommits(sl) + NewCommits(sl);
    }
  }

  lemma TryCommitOk(c: Config, net: set<Msg>, view: nat, sn: int, sl: Slot, release: bool)
    requires SlotInv(view, sl) && RecordOk(c, net, view, sn, sl)
    ensures SlotInv(view, TryCommit(c, sl, release)) && RecordOk(c, net, view, sn, TryCommit(c, sl, release))
  {
    CountCommitsOk(c, net, view, sn, sl);
    var counted := CountCommits(sl);
    assert CountedCommits(counted.(committed := true)) == CountedCommits(counted);
  }

  lemma TryPrepareOk(c: Config, net: set<Msg>, net': set<Msg>, id: int, view: nat, sn: int, sl: Slot)
    requires SlotInv(view, sl) && RecordOk(c, net, view, sn, sl) && id in c.m.peers && net <= net'
    requires TryPrepare(c, id, sl).prepared && !sl.prepared ==> CommitMsg(id, sn, view, sl.digest.value) in net'
    ensures SlotInv(view, TryPrepare(c, id, sl)) && RecordOk(c, net', view, sn, TryPrepare(c, id, sl))
  {
    var sl' := TryPrepare(c, id, sl);
    assert CountedCommits(sl') == CountedCommits(sl);
  }

  /** A change to one slot that the acting peer may make, with the messages it sends. */
  ghost predicate SlotMove(c: Config, net: set<Msg>, r: int, ps: Peer, sn: int, sl': Slot, sent: set<Msg>)
    requires ps.Here(sn) in ps.slots
  {
    && SlotStep(c, ps.view, ps.slots[ps.Here(sn)], sl')
    && RecordOk(c, net + sent, ps.view, sn, sl')
    && forall m :: m in sent ==>
         && m.sender == r && !m.ViewChangeMsg?
         && (m.CommitMsg? ==> m.sn == sn && m.view == ps.view && sl'.prepared && sl'.digest == Some(m.digest))
  }

  /** The common tail of accepting a PREPREPARE or a PREPARE. */
  lemma FinishMove(c: Config, net: set<Msg>, r: int, ps: Peer, sn: int, sl: Slot, release: bool, sent: set<Msg>)
    requires r in c.m.peers && ps.id == r && ps.Here(sn) in ps.slots && SlotMove(c, net, r, ps, sn, sl, sent)
    requires sl.committed == ps.slots[ps.Here(sn)].committed
    ensures var o := Finish(c, ps, sn, sl, release, sent);
            var sl2 := TryCommit(c, TryPrepare(c, ps.id, sl), release);
            o.peer == SetSlot(ps, sn, sl2) && SlotMove(c, net, r, ps, sn, sl2, o.sent)
  {
    var o := Finish(c, ps, sn, sl, release, sent);
    var sl1 := TryPrepare(c, ps.id, sl);
    TryPrepareOk(c, net + sent, net + o.sent, r, ps.view, sn, sl);
    TryCommitOk(c, net + o.sent, ps.view, sn, sl1, release);
  }

  /** The system after `r` has done what `o` says. */
  function After(s: System, r: int, o: Outcome): System {
    System(s.peers[r := o.peer], s.net + o.sent)
  }

  /** Nothing decided is undone or changed. */
  ghost predicate Persists(ps: Peer, ps': Peer) {
    forall l :: l in ps.slots && ps.slots[l].committed ==>
      l in ps'.slots && ps'.slots[l].committed && ps'.slots[l].digest == ps.slots[l].digest
  }

  ghost predicate StepOk(c: Config, s: System, s': System) {
    PbftSafety.Inv(c, s') && AllNext(c, s, s') && AllPersist(s, s')
  }

  ghost predicate AllPersist(s: System, s': System) {
    forall p :: p in s.peers ==> p in s'.peers && Persists(s.peers[p], s'.peers[p])
  }

  lemma OnePersists(s: System, r: int, ps: Peer, o: Outcome)
    requires r in s.peers && ps == s.peers[r] && Persists(ps, o.peer)
    ensures AllPersist(s, After(s, r, o))
  {
  }

  lemma MoveSends(c: Config, s: System, r: int, ps: Peer, sn: int, sl': Slot, o: Outcome)
    requires Populated(c, s) && r in s.peers && ps == s.peers[r] && ps.Here(sn) in ps.slots
    requires o.peer == SetSlot(ps, sn, sl') && SlotMove(c, s.net, r, ps, sn, sl', o.sent)
    ensures Acts(c, s, After(s, r, o), r, o.peer) && SendsOk(c, s, After(s, r, o), r, o.peer)
  {
  }

  lemma MovePersists(c: Config, ps: Peer, sn: int, sl': Slot)
    requires ps.Here(sn) in ps.slots && SlotStep(c, ps.view, ps.slots[ps.Here(sn)], sl')
    ensures Persists(ps, SetSlot(ps, sn, sl'))
  {
  }

  lemma MoveStep(c: Config, s: System, r: int, ps: Peer, sn: int, sl': Slot, o: Outcome)
    requires PbftSafety.Inv(c, s) && r in s.peers && ps == s.peers[r] && sn in c.sns && !Preparing(ps)
    requires LandsOk(c, s, r, ps)
    requires o.peer == SetSlot(ps, sn, sl') && SlotMove(c, s.net, r, ps, sn, sl', o.sent)
    ensures StepOk(c, s, After(s, r, o))
  {
    MoveSends(c, s, r, ps, sn, sl', o);
    MovePersists(c, ps, sn, sl');
    OnePersists(s, r, ps, o);
    SlotAction(c, s, After(s, r, o), r, ps, sn, sl');
  }

  lemma IdleStep(c: Config, s: System, r: int)
    requires PbftSafety.Inv(c, s) && r in s.peers
    ensures StepOk(c, s, After(s, r, Outcome(s.peers[r], {})))
  {
    var s' := After(s, r, Outcome(s.peers[r], {}));
    assert s'.peers == s.peers && s' == s;
    forall k | k in c.sns
      ensures Next(c.m, Project(c, s, k), Project(c, s, k))
    {
      ProjectNext(c, s, s, r, s.peers[r], k);
    }
  }

  /** Recording a first proposal leaves the COMMITs received so far valid. */
  lemma FreshProposalOk(c: Config, net: set<Msg>, view: nat, sn: int, sl: Slot, sl': Slot)
    requires SlotInv(view, sl) && RecordOk(c, net, view, sn, sl) && sl.pp.None? && !sl.committed
    requires sl' == sl.(pp := sl'.pp, digest := sl'.digest, preprepared := true, prepares := sl'.prepares)
    requires sl'.pp.Some? && sl'.pp.value.view == view && sl'.digest.Some?
    ensures SlotInv(view, sl') && RecordOk(c, net, view, sn, sl')
  {
    assert CountedCommits(sl') == CountedCommits(sl) == {};
    forall p | p in sl'.commits
      ensures sl'.commits[p].Some?
    {
      assert sl'.commits[p].None? ==> p in CountedCommits(sl');
    }
  }

  lemma ProposeMove(c: Config, net: set<Msg>, ps: Peer, sn: int, d: Digest, sl': Slot)
    requires ps.view == 0 && ps.Here(sn) in ps.slots && SlotInv(ps.view, ps.slots[ps.Here(sn)])
    requires RecordOk(c, net, ps.view, sn, ps.slots[ps.Here(sn)])
    requires ps.slots[ps.Here(sn)].pp.None? && !ps.slots[ps.Here(sn)].committed
    requires sl' == ps.slots[ps.Here(sn)].(pp := Some(Preprepare(sn, ps.view, ps.id, d, false)),
                                           digest := Some(d), preprepared := true)
    ensures SlotMove(c, net, ps.id, ps, sn, sl', Propose(ps, sn, d).sent)
    ensures Propose(ps, sn, d).peer == SetSlot(ps, sn, sl')
  {
    FreshProposalOk(c, net, ps.view, sn, ps.slots[ps.Here(sn)], sl');
  }

  lemma ProposeStep(c: Config, s: System, r: int, ps: Peer, sn: int, d: Digest)
    requires PbftSafety.Inv(c, s) && r in s.peers && ps == s.peers[r]
    requires ps.view == 0 && sn in c.sns && ps.Here(sn) in ps.slots
    requires ps.slots[ps.Here(sn)].pp.None? && !ps.slots[ps.Here(sn)].committed
    ensures StepOk(c, s, After(s, r, Propose(ps, sn, d)))
  {
    InvAt(c, s, r);
    assert SlotFacts(c, s, ps.view, sn, ps.slots[ps.Here(sn)]);
    var sl' := ps.slots[ps.Here(sn)].(pp := Some(Preprepare(sn, ps.view, ps.id, d, false)),
                                      digest := Some(d), preprepared := true);
    ProposeMove(c, s.net, ps, sn, d, sl');
    MoveStep(c, s, r, ps, sn, sl', Propose(ps, sn, d));
  }

  /** A change to a slot's PREPAREs or its decision leaves the rest of the slot as it was. */
  lemma PlainMove(c: Config, net: set<Msg>, ps: Peer, sn: int, sl': Slot)
    requires ps.Here(sn) in ps.slots && SlotInv(ps.view, ps.slots[ps.Here(sn)])
    requires RecordOk(c, net, ps.view, sn, ps.slots[ps.Here(sn)])
    requires sl' == ps.slots[ps.Here(sn)].(prepares := sl'.prepares, committed := sl'.committed)
    requires sl'.committed != ps.slots[ps.Here(sn)].committed ==> sl'.committed && EnoughCommits(c, sl')
    ensures SlotMove(c, net, ps.id, ps, sn, sl', {})
  {
    assert CountedCommits(sl') == CountedCommits(ps.slots[ps.Here(sn)]);
    assert net + {} == net;
  }

  lemma AcceptMove(c: Config, net: set<Msg>, ps: Peer, sn: int, pp: Preprepare)
    requires ps.Here(sn) in ps.slots && SlotInv(ps.view, ps.slots[ps.Here(sn)]) && ps.view == 0
    requires RecordOk(c, net, ps.view, sn, ps.slots[ps.Here(sn)]) && pp.view == ps.view
    requires ps.slots[ps.Here(sn)].pp.None? && !ps.slots[ps.Here(sn)].committed
    ensures SlotMove(c, net, ps.id, ps, sn, AcceptedSlot(ps.id, ps.slots[ps.Here(sn)], pp),
                     {PrepareMsg(ps.id, sn, ps.view, pp.digest)})
  {
    FreshProposalOk(c, net, ps.view, sn, ps.slots[ps.Here(sn)], AcceptedSlot(ps.id, ps.slots[ps.Here(sn)], pp));
  }

  lemma AcceptPreprepareStep(c: Config, s: System, r: int, ps: Peer, sender: int, sn: int, pp: Preprepare,
                             release: bool)
    requires PbftSafety.Inv(c, s) && r in s.peers && ps == s.peers[r] && Shape(c, ps)
    requires Considered(c, ps, sender, sn, pp)
    ensures StepOk(c, s, After(s, r, OnPreprepare(c, ps, sender, sn, pp, Admit, release)))
  {
    InvAt(c, s, r);
    var sl := ps.slots[ps.Here(sn)];
    assert SlotFacts(c, s, ps.view, sn, sl) && SlotInv(ps.view, sl);
    var sl', sent := AcceptedSlot(ps.id, sl, pp), {PrepareMsg(ps.id, sn, ps.view, pp.digest)};
    AcceptMove(c, s.net, ps, sn, pp);
    FinishMove(c, s.net, r, ps, sn, sl', release, sent);
    MoveStep(c, s, r, ps, sn, TryCommit(c, TryPrepare(c, ps.id, sl'), release), Finish(c, ps, sn, sl', release, sent));
  }

  lemma PrepareStep(c: Config, s: System, r: int, ps: Peer, sender: int, sn: int, view: nat, d: Digest, release: bool)
    requires PbftSafety.Inv(c, s) && r in s.peers && ps == s.peers[r] && Digested(ps)
    ensures StepOk(c, s, After(s, r, OnPrepare(c, ps, sender, sn, view, d, release)))
  {
    InvAt(c, s, r);
    if Active(ps, sn, view) && sender !in ps.slots[ps.Here(sn)].prepares {
      var sl := ps.slots[ps.Here(sn)];
      assert SlotFacts(c, s, ps.view, sn, sl) && SlotInv(ps.view, sl);
      var sl' := sl.(prepares := sl.prepares[sender := d]);
      PlainMove(c, s.net, ps, sn, sl');
      FinishMove(c, s.net, r, ps, sn, sl', release, {});
      MoveStep(c, s, r, ps, sn, TryCommit(c, TryPrepare(c, ps.id, sl'), release), Finish(c, ps, sn, sl', release, {}));
    } else {
      IdleStep(c, s, r);
    }
  }

  lemma CommitMove(c: Config, net: set<Msg>, ps: Peer, sender: int, sn: int, d: Digest, release: bool)
    requires ps.Here(sn) in ps.slots && SlotInv(ps.view, ps.slots[ps.Here(sn)])
    requires RecordOk(c, net, ps.view, sn, ps.slots[ps.Here(sn)])
    requires sender in c.m.peers && CommitMsg(sender, sn, ps.view, d) in net && sender !in ps.slots[ps.Here(sn)].commits
    ensures var sl := ps.slots[ps.Here(sn)];
            SlotMove(c, net, ps.id, ps, sn, TryCommit(c, sl.(commits := sl.commits[sender := Some(d)]), release), {})
  {
    var sl := ps.slots[ps.Here(sn)];
    var sl1 := sl.(commits := sl.commits[sender := Some(d)]);
    assert CountedCommits(sl1) == CountedCommits(sl);
    TryCommitOk(c, net, ps.view, sn, sl1, release);
    assert net + {} == net;
  }

  lemma CommitStep(c: Config, s: System, r: int, ps: Peer, sender: int, sn: int, view: nat, d: Digest, release: bool)
    requires PbftSafety.Inv(c, s) && r in s.peers && ps == s.peers[r] && CommitMsg(sender, sn, view, d) in s.net
    ensures StepOk(c, s, After(s, r, OnCommit(c, ps, sender, sn, view, d, release)))
  {
    if Active(ps, sn, view) && sender !in ps.slots[ps.Here(sn)].commits {
      CountStep(c, s, r, ps, sender, sn, view, d, release);
    } else {
      IdleStep(c, s, r);
    }
  }

  lemma CountStep(c: Config, s: System, r: int, ps: Peer, sender: int, sn: int, view: nat, d: Digest, release: bool)
    requires PbftSafety.Inv(c, s) && r in s.peers && ps == s.peers[r] && CommitMsg(sender, sn, view, d) in s.net
    requires Active(ps, sn, view) && sender !in ps.slots[ps.Here(sn)].commits
    ensures StepOk(c, s, After(s, r, OnCommit(c, ps, sender, sn, view, d, release)))
  {
    InvAt(c, s, r);
    ActiveFacts(c, s, r, ps, sn, view);
    SenderIsPeer(c, s, CommitMsg(sender, sn, view, d));
    var sl', o := CommitIs(c, s.net, ps, sender, sn, view, d, release);
    MoveStep(c, s, r, ps, sn, sl', o);
  }

  lemma ActiveFacts(c: Config, s: System, r: int, ps: Peer, sn: int, view: nat)
    requires LandsOk(c, s, r, ps) && Active(ps, sn, view)
    ensures sn in c.sns && !Preparing(ps) && ps.id == r
    ensures var sl := ps.slots[ps.Here(sn)]; SlotInv(ps.view, sl) && RecordOk(c, s.net, ps.view, sn, sl)
  {
    var sl := ps.slots[ps.Here(sn)];
    assert SlotFacts(c, s, ps.view, sn, sl) && SlotInv(ps.view, sl);
  }

  lemma SenderIsPeer(c: Config, s: System, m: Msg)
    requires NetInv(c, s) && m in s.net
    ensures m.sender in c.m.peers
  {
  }

  lemma CommitIs(c: Config, net: set<Msg>, ps: Peer, sender: int, sn: int, view: nat, d: Digest, release: bool)
    returns (sl': Slot, o: Outcome)
    requires Active(ps, sn, view) && SlotInv(ps.view, ps.slots[ps.Here(sn)])
    requires RecordOk(c, net, ps.view, sn, ps.slots[ps.Here(sn)])
    requires sender in c.m.peers && CommitMsg(sender, sn, ps.view, d) in net && sender !in ps.slots[ps.Here(sn)].commits
    ensures o == OnCommit(c, ps, sender, sn, view, d, release) && o.peer == SetSlot(ps, sn, sl')
    ensures SlotMove(c, net, ps.id, ps, sn, sl', o.sent)
  {
    var sl := ps.slots[ps.Here(sn)];
    sl' := TryCommit(c, sl.(commits := sl.commits[sender := Some(d)]), release);
    o := OnCommit(c, ps, sender, sn, view, d, release);
    CommitMove(c, net, ps, sender, sn, d, release);
  }

  lemma ReleaseStep(c: Config, s: System, r: int, ps: Peer, sn: int)
    requires PbftSafety.Inv(c, s) && r in s.peers && ps == s.peers[r] && sn in c.sns && ps.Here(sn) in ps.slots
    ensures StepOk(c, s, After(s, r, Release(c, ps, sn)))
  {
    InvAt(c, s, r);
    var sl := ps.slots[ps.Here(sn)];
    if EnoughCommits(c, sl) {
      assert SlotFacts(c, s, ps.view, sn, sl) && SlotInv(ps.view, sl);
      var sl' := sl.(committed := true);
      PlainMove(c, s.net, ps, sn, sl');
      MoveStep(c, s, r, ps, sn, sl', Release(c, ps, sn));
    } else {
      IdleStep(c, s, r);
    }
  }

  // ---------- Steps that leave a view or collect VIEWCHANGEs ----------

  /** A step that may start a new view but accepts and votes for nothing. */
  ghost predicate Quiet(c: Config, ps: Peer, ps': Peer) {
    && ps'.id == ps.id && ps.view <= ps'.view
    && (forall l :: l in ps.slots ==> l in ps'.slots && ps'.slots[l] == ps.slots[l])
    && (forall l :: l in ps'.slots && l !in ps.slots ==>
          && ps.view < l.view == ps'.view && l.sn in c.sns && ps.Here(l.sn) in ps.slots
          && ps'.slots[l] == Carry(ps.slots[ps.Here(l.sn)]))
    && (forall sn :: sn in c.sns ==> ps'.Here(sn) in ps'.slots)
    && (ps'.view == 0 ==> !ps'.inViewChange)
    && (ps.view != ps'.view ==> ps'.inViewChange)
    && (ps.view == ps'.view && ps.inViewChange ==> ps'.inViewChange)
    && (forall u :: InfoFor(ps, u).accepted ==> InfoFor(ps', u).accepted)
    && ChangesOk(c, ps')
  }

  lemma QuietPeerInv(c: Config, r: int, ps: Peer, ps': Peer)
    requires PeerInv(c, r, ps) && Quiet(c, ps, ps')
    ensures PeerInv(c, r, ps')
  {
    QuietSlots(c, ps, ps');
    QuietRest(c, ps, ps');
  }

  lemma QuietSlots(c: Config, ps: Peer, ps': Peer)
    requires Quiet(c, ps, ps') && forall l :: l in ps.slots ==> SlotInv(l.view, ps.slots[l])
    ensures forall l :: l in ps'.slots ==> SlotInv(l.view, ps'.slots[l])
  {
    forall l | l in ps'.slots
      ensures SlotInv(l.view, ps'.slots[l])
    {
      if l !in ps.slots {
        var sl := ps.slots[ps.Here(l.sn)];
        assert SlotInv(ps.view, sl);
        CarrySlotInv(ps.view, l.view, sl);
      }
    }
  }

  lemma CarrySlotInv(v: nat, w: nat, sl: Slot)
    requires SlotInv(v, sl)
    ensures SlotInv(w, Carry(sl))
  {
    assert CountedCommits(Carry(sl)) == {};
  }

  lemma QuietRest(c: Config, ps: Peer, ps': Peer)
    requires Shape(c, ps) && Quiet(c, ps, ps')
    requires forall l :: l in ps.slots && l.view > 0 && ps.slots[l].preprepared ==> InfoFor(ps, l.view).accepted
    requires ps.view > 0 && !ps.inViewChange ==> forall sn :: sn in c.sns ==> ps.slots[ps.Here(sn)].preprepared
    ensures Shape(c, ps')
    ensures forall l :: l in ps'.slots && l.view > 0 && ps'.slots[l].preprepared ==> InfoFor(ps', l.view).accepted
    ensures ps'.view > 0 && !ps'.inViewChange ==> forall sn :: sn in c.sns ==> ps'.slots[ps'.Here(sn)].preprepared
  {
  }

  lemma QuietKeepsDecisions(c: Config, ps: Peer, ps': Peer)
    requires Shape(c, ps) && Quiet(c, ps, ps') && KeepsDecisions(ps)
    ensures KeepsDecisions(ps')
  {
    forall l, k
      ensures KeepsPair(ps', l, k)
    {
      QuietKeepsPair(c, ps, ps', l, k);
    }
  }

  lemma QuietKeepsPair(c: Config, ps: Peer, ps': Peer, l: Loc, k: Loc)
    requires Shape(c, ps) && Quiet(c, ps, ps') && KeepsDecisions(ps)
    ensures KeepsPair(ps', l, k)
  {
    if l in ps'.slots && k in ps'.slots && l.sn == k.sn && l.view <= k.view && ps'.slots[l].committed {
      var here := ps.Here(l.sn);
      if l in ps.slots {
        assert KeepsPair(ps, l, k) && KeepsPair(ps, l, here);
      } else {
        assert l == Loc(ps'.view, l.sn);
      }
      if k !in ps.slots {
        assert k == Loc(ps'.view, k.sn);
      }
    }
  }

  lemma QuietHasOrigins(c: Config, ps: Peer, ps': Peer)
    requires Quiet(c, ps, ps') && HasOrigins(ps)
    ensures HasOrigins(ps')
  {
    forall l | l in ps'.slots && ps'.slots[l].committed && !ps'.slots[l].preprepared
      ensures exists k :: Origin(ps', l, k)
    {
      var l0 := if l in ps.slots then l else ps.Here(l.sn);
      if ps.slots[l0].preprepared {
        assert Origin(ps', l, l0);
      } else {
        var k :| Origin(ps, l0, k);
        assert Origin(ps', l, k);
      }
    }
  }

  lemma QuietBallotStep(c: Config, st: Votes, ps: Peer, ps': Peer, k: int)
    requires Quiet(c, ps, ps')
    ensures BallotStep(c.m, st, BallotOf(ps, k), BallotOf(ps', k))
  {
    BallotStepIf(c.m, st, ps, ps', k);
  }

  lemma CarriedFacts(c: Config, s: System, v: nat, w: nat, sn: int, sl: Slot)
    requires SlotFacts(c, s, v, sn, sl) && v < w
    ensures SlotFacts(c, s, w, sn, Carry(sl))
  {
    if sl.committed && sl.digest.Some? {
      var u: int :| u <= v && Chosen(c.m, Project(c, s, sn), u, sl.digest.value);
      assert u <= w - 1;
    }
  }

  lemma QuietSlotsInv(c: Config, s: System, s': System, r: int, ps: Peer, ps': Peer)
    requires Populated(c, s) && AllNext(c, s, s') && s.net <= s'.net && Shape(c, ps)
    requires Quiet(c, ps, ps') && SlotsInv(c, s, ps)
    ensures SlotsInv(c, s', ps')
  {
    SlotsInvStays(c, s, s', ps);
    forall l | l in ps'.slots
      ensures SlotFacts(c, s', l.view, l.sn, ps'.slots[l])
    {
      if l !in ps.slots {
        CarriedFacts(c, s', ps.view, l.view, l.sn, ps.slots[ps.Here(l.sn)]);
      }
    }
  }

  lemma QuietNext(c: Config, s: System, s': System, r: int, ps: Peer, ps': Peer)
    requires Populated(c, s) && r in s.peers && ps == s.peers[r] && Quiet(c, ps, ps')
    requires Acts(c, s, s', r, ps') && SendsOk(c, s, s', r, ps')
    ensures AllNext(c, s, s')
  {
    forall k | k in c.sns
      ensures Next(c.m, Project(c, s, k), Project(c, s', k))
    {
      QuietBallotStep(c, Project(c, s, k), ps, ps', k);
      ProjectNext(c, s, s', r, ps', k);
    }
  }

  lemma QuietLands(c: Config, s: System, s': System, r: int, ps: Peer, ps': Peer)
    requires Populated(c, s) && AllNext(c, s, s') && s.net <= s'.net && LandsOk(c, s, r, ps) && Quiet(c, ps, ps')
    requires Shape(c, ps') && ReproposalsInv(c, s', ps') && ChangesInv(c, s'.net, ps')
    ensures LandsOk(c, s', r, ps')
  {
    QuietPeerInv(c, r, ps, ps');
    QuietKeepsDecisions(c, ps, ps');
    QuietHasOrigins(c, ps, ps');
    QuietSlotsInv(c, s, s', r, ps, ps');
  }

  lemma QuietStep(c: Config, s: System, r: int, ps: Peer, o: Outcome)
    requires PbftSafety.Inv(c, s) && r in s.peers && ps == s.peers[r] && LandsOk(c, s, r, ps)
    requires Quiet(c, ps, o.peer) && Shape(c, o.peer)
    requires ReproposalsInv(c, s, o.peer) && ChangesInv(c, s.net + o.sent, o.peer)
    requires SendsOk(c, s, After(s, r, o), r, o.peer)
    ensures StepOk(c, s, After(s, r, o))
  {
    var s' := After(s, r, o);
    OnePersists(s, r, ps, o);
    QuietNext(c, s, s', r, ps, o.peer);
    ReproposalsInvStays(c, s, s', o.peer);
    QuietLands(c, s, s', r, ps, o.peer);
    Assemble(c, s, s', r, o.peer);
  }

  /** The P set reports the last view in which the slot was prepared. */
  lemma {:induction false} LatestPreparedOk(slots: map<Loc, Slot>, sn: int, v: nat)
    requires forall l :: l in slots ==> SlotInv(l.view, slots[l])
    ensures match LatestPrepared(slots, sn, v)
            case None => forall w: nat :: w < v && Loc(w, sn) in slots ==> !slots[Loc(w, sn)].prepared
            case Some(e) =>
              && 0 <= e.view < v && Loc(e.view, sn) in slots && slots[Loc(e.view, sn)].prepared
              && slots[Loc(e.view, sn)].digest == Some(e.digest)
              && forall w: nat :: e.view < w < v && Loc(w, sn) in slots ==> !slots[Loc(w, sn)].prepared
  {
    if v > 0 {
      LatestPreparedOk(slots, sn, v - 1);
      assert Loc(v - 1, sn) in slots ==> SlotInv(v - 1, slots[Loc(v - 1, sn)]);
    }
  }

  /** The Q set reports a proposal the peer accepted. */
  lemma {:induction false} LatestPrepreparedOk(slots: map<Loc, Slot>, sn: int, v: nat)
    requires forall l :: l in slots ==> SlotInv(l.view, slots[l])
    ensures match LatestPreprepared(slots, sn, v)
            case None => true
            case Some(e) =>
              && 0 <= e.view < v && Loc(e.view, sn) in slots && slots[Loc(e.view, sn)].preprepared
              && slots[Loc(e.view, sn)].digest == Some(e.digest)
  {
    if v > 0 {
      LatestPrepreparedOk(slots, sn, v - 1);
      assert Loc(v - 1, sn) in slots ==> SlotInv(v - 1, slots[Loc(v - 1, sn)]);
    }
  }

  /** A VIEWCHANGE tells the truth about every slot. */
  lemma ViewChangeTruthful(c: Config, ps: Peer, sn: int)
    requires sn in c.sns && ps.view > 0 && forall l :: l in ps.slots ==> SlotInv(l.view, ps.slots[l])
    ensures Truthful(BallotOf(ps, sn), ClaimOf(ps.id, MakeViewChange(c, ps), sn))
  {
    LatestPreparedOk(ps.slots, sn, ps.view);
    LatestPrepreparedOk(ps.slots, sn, ps.view);
    var b, cl := BallotOf(ps, sn), ClaimOf(ps.id, MakeViewChange(c, ps), sn);
    assert cl.p == LatestPrepared(ps.slots, sn, ps.view);
    assert cl.q == LatestPreprepared(ps.slots, sn, ps.view);
    forall v | v in b.voted && v < cl.view
      ensures cl.p.Some? && v <= cl.p.value.view && (cl.p.value.view == v ==> cl.p.value.digest == b.voted[v])
    {
      assert VotedAt(ps, sn, v);
    }
    if cl.q.Some? {
      assert AcceptedAt(ps, sn, cl.q.value.view);
    }
  }

  /** `slots'` has `slots` of view `v` and those of a view `u` started from it. */
  ghost predicate StartedSlots(c: Config, v: nat, slots: map<Loc, Slot>, u: nat, slots': map<Loc, Slot>) {
    && (forall l :: l in slots' ==> l in slots || (v < l.view == u && l.sn in c.sns))
    && (forall l :: l in slots ==> l in slots' && slots'[l] == slots[l])
    && (v < u ==> forall sn :: sn in c.sns ==>
          Loc(u, sn) in slots' && Loc(v, sn) in slots && slots'[Loc(u, sn)] == Carry(slots[Loc(v, sn)]))
  }

  ghost predicate Started(c: Config, ps: Peer, ps': Peer, u: nat) {
    ps'.id == ps.id && ps'.view == u && ps.view <= u && StartedSlots(c, ps.view, ps.slots, u, ps'.slots)
  }

  lemma StartViewStarted(c: Config, ps: Peer, u: nat)
    requires Shape(c, ps) && ps.view <= u
    ensures Started(c, ps, StartView(c, ps, u), u)
  {
    if ps.view < u {
      var ps' := StartView(c, ps, u);
      forall sn | sn in c.sns
        ensures Loc(u, sn) in ps'.slots && Loc(ps.view, sn) in ps.slots
                && ps'.slots[Loc(u, sn)] == Carry(ps.slots[Loc(ps.view, sn)])
      {
        assert ps.Here(sn) in ps.slots;
      }
    }
  }

  /** Entering a view change, together with any bookkeeping that keeps what was accepted. */
  lemma StartedQuiet(c: Config, ps: Peer, ps': Peer, u: nat)
    requires Shape(c, ps) && Started(c, ps, ps', u) && 0 < u && ps'.inViewChange
    requires forall v :: InfoFor(ps, v).accepted ==> InfoFor(ps', v).accepted
    requires ChangesOk(c, ps')
    ensures Quiet(c, ps, ps') && Shape(c, ps')
  {
    forall sn | sn in c.sns
      ensures ps'.Here(sn) in ps'.slots
    {
      assert ps.Here(sn) in ps.slots;
    }
    forall l | l in ps'.slots && l !in ps.slots
      ensures ps.view < l.view == ps'.view && l.sn in c.sns && ps.Here(l.sn) in ps.slots
              && ps'.slots[l] == Carry(ps.slots[ps.Here(l.sn)])
    {
      assert l == Loc(u, l.sn) && ps.Here(l.sn) == Loc(ps.view, l.sn);
    }
  }

  /** `ps1` is `ps` in the next view, about to report the truth in `vc`. */
  ghost predicate Reporting(c: Config, ps: Peer, ps1: Peer, vc: ViewChange) {
    && Started(c, ps, ps1, Following(ps.view)) && ps1.inViewChange && ps1.changes == ps.changes
    && vc.view == ps1.view && vc.h == -1 && vc.cset == [-1]
    && forall sn :: sn in c.sns ==> Truthful(BallotOf(ps1, sn), ClaimOf(ps.id, vc, sn))
  }

  lemma ReportQuiet(c: Config, r: int, ps: Peer, ps1: Peer, vc: ViewChange)
    requires PeerInv(c, r, ps) && Reporting(c, ps, ps1, vc)
    ensures var ps' := Report(c, ps1, vc).peer;
            Quiet(c, ps, ps') && Shape(c, ps') && !Preparing(ps')
  {
    StartedQuiet(c, ps, Report(c, ps1, vc).peer, Following(ps.view));
  }

  lemma ReportChanges(c: Config, net: set<Msg>, r: int, ps: Peer, ps1: Peer, vc: ViewChange)
    requires ps.id == r && ChangesInv(c, net, ps) && c.m.Correct(r) && |c.leaders| > 0 && Reporting(c, ps, ps1, vc)
    ensures var o := Report(c, ps1, vc); ChangesInv(c, net + o.sent, o.peer)
  {
    var o := Report(c, ps1, vc);
    forall u | u in o.peer.changes
      ensures GenuineVset(c, net + o.sent, o.peer.changes[u].s)
              && forall p :: p in o.peer.changes[u].s ==> o.peer.changes[u].s[p].view == u
    {
      assert u in ps.changes ==> GenuineVset(c, net, ps.changes[u].s);
    }
  }

  lemma ReportSends(c: Config, s: System, r: int, ps: Peer, ps1: Peer, vc: ViewChange)
    requires ps.id == r && |c.leaders| > 0 && Reporting(c, ps, ps1, vc)
    ensures var o := Report(c, ps1, vc); SendsOk(c, s, After(s, r, o), r, o.peer)
  {
    var o := Report(c, ps1, vc);
    forall sn | sn in c.sns
      ensures Truthful(BallotOf(o.peer, sn), ClaimOf(r, vc, sn))
    {
      assert Truthful(BallotOf(ps1, sn), ClaimOf(r, vc, sn));
      assert o.peer.slots == ps1.slots && o.peer.view == ps1.view;
    }
  }

  lemma ReportStep(c: Config, s: System, r: int, ps: Peer, ps1: Peer, vc: ViewChange)
    requires PbftSafety.Inv(c, s) && r in s.peers && ps == s.peers[r] && |c.leaders| > 0 && Reporting(c, ps, ps1, vc)
    ensures StepOk(c, s, After(s, r, Report(c, ps1, vc)))
  {
    InvAt(c, s, r);
    ReportQuiet(c, r, ps, ps1, vc);
    ReportChanges(c, s.net, r, ps, ps1, vc);
    ReportSends(c, s, r, ps, ps1, vc);
    QuietStep(c, s, r, ps, Report(c, ps1, vc));
  }

  lemma StartedReports(c: Config, r: int, ps: Peer, ps1: Peer)
    requires PeerInv(c, r, ps) && Started(c, ps, ps1, Following(ps.view)) && ps1.inViewChange
    requires ps1.changes == ps.changes
    ensures Reporting(c, ps, ps1, MakeViewChange(c, ps1))
  {
    StartedQuiet(c, ps, ps1, Following(ps.view));
    QuietPeerInv(c, r, ps, ps1);
    forall sn | sn in c.sns
      ensures Truthful(BallotOf(ps1, sn), ClaimOf(ps.id, MakeViewChange(c, ps1), sn))
    {
      ViewChangeTruthful(c, ps1, sn);
    }
  }

  lemma SendViewChangeIs(c: Config, r: int, ps: Peer) returns (ps1: Peer, vc: ViewChange)
    requires PeerInv(c, r, ps)
    ensures Reporting(c, ps, ps1, vc) && SendViewChange(c, ps) == Report(c, ps1, vc)
  {
    ps1 := EnteredView(c, ps, Following(ps.view));
    StartedReports(c, r, ps, ps1);
    vc := MakeViewChange(c, ps1);
    ReportsOwn(c, ps, ps1);
  }

  lemma ReportsOwn(c: Config, ps: Peer, ps1: Peer)
    requires Shape(c, ps) && ps1 == Entered(c, ps, Following(ps.view))
    ensures SendViewChange(c, ps) == Report(c, ps1, MakeViewChange(c, ps1))
  {
  }

  lemma EnteredView(c: Config, ps: Peer, u: nat) returns (ps1: Peer)
    requires Shape(c, ps) && ps.view <= u
    ensures ps1 == Entered(c, ps, u)
    ensures Started(c, ps, ps1, u) && ps1.inViewChange && ps1.changes == ps.changes
  {
    StartViewStarted(c, ps.(inViewChange := true), u);
    ps1 := Entered(c, ps, u);
  }

  lemma SendViewChangeStep(c: Config, s: System, r: int, ps: Peer)
    requires PbftSafety.Inv(c, s) && r in s.peers && ps == s.peers[r] && Shape(c, ps)
    ensures StepOk(c, s, After(s, r, SendViewChange(c, ps)))
  {
    InvAt(c, s, r);
    var ps1, vc := SendViewChangeIs(c, r, ps);
    ReportStep(c, s, r, ps, ps1, vc);
  }

  /** Bookkeeping that leaves views, slots and proposals alone. */
  ghost predicate Bookkeeping(c: Config, ps: Peer, ps': Peer) {
    && ps' == ps.(changes := ps'.changes)
    && (forall u :: InfoFor(ps, u).accepted ==> InfoFor(ps', u).accepted)
    && ChangesOk(c, ps')
  }

  lemma BookkeepingQuiet(c: Config, ps: Peer, ps': Peer)
    requires Shape(c, ps) && (ps.view == 0 ==> !ps.inViewChange) && Bookkeeping(c, ps, ps')
    ensures Quiet(c, ps, ps') && Shape(c, ps')
  {
    assert ps'.slots == ps.slots && ps'.view == ps.view;
  }

  lemma NoSends(c: Config, s: System, r: int, o: Outcome)
    requires o.sent == {}
    ensures SendsOk(c, s, After(s, r, o), r, o.peer)
  {
  }

  lemma BookkeepingStep(c: Config, s: System, r: int, ps: Peer, o: Outcome)
    requires PbftSafety.Inv(c, s) && r in s.peers && ps == s.peers[r] && Shape(c, o.peer)
    requires Bookkeeping(c, ps, o.peer) && o.sent == {}
    requires ReproposalsInv(c, s, o.peer) && ChangesInv(c, s.net, o.peer)
    ensures StepOk(c, s, After(s, r, o))
  {
    InvAt(c, s, r);
    BookkeepingQuiet(c, ps, o.peer);
    NoSends(c, s, r, o);
    assert s.net + o.sent == s.net;
    QuietStep(c, s, r, ps, o);
  }

  lemma ViewChangeBooks(c: Config, ps: Peer, sender: int, vc: ViewChange)
    requires ChangesOk(c, ps)
    ensures var ps' := OnViewChange(ps, sender, vc).peer;
            && Bookkeeping(c, ps, ps')
            && (Preparing(ps') ==> Preparing(ps) && ps'.changes[ps.view] == ps.changes[ps.view])
  {
  }

  lemma ViewChangeChanges(c: Config, net: set<Msg>, ps: Peer, sender: int, vc: ViewChange)
    requires ChangesInv(c, net, ps) && sender in c.m.peers && ViewChangeMsg(sender, vc) in net
    ensures ChangesInv(c, net, OnViewChange(ps, sender, vc).peer)
  {
    assert vc.view in ps.changes ==> GenuineVset(c, net, ps.changes[vc.view].s);
  }

  /** Proposals fixed for the current view stay in order if they are not touched. */
  lemma SameReproposals(c: Config, s: System, ps: Peer, ps': Peer)
    requires Shape(c, ps) && Shape(c, ps') && ReproposalsInv(c, s, ps) && ps' == ps.(changes := ps'.changes)
    requires Preparing(ps') ==> Preparing(ps) && ps'.changes[ps.view] == ps.changes[ps.view]
    ensures ReproposalsInv(c, s, ps')
  {
    if Preparing(ps') {
      forall sn | sn in ps'.changes[ps.view].repropose && sn in c.sns
        ensures ReproposalOk(c, s, ps', sn, ps'.changes[ps.view].repropose[sn])
      {
        assert ReproposalOk(c, s, ps, sn, ps.changes[ps.view].repropose[sn]);
      }
    }
  }

  lemma ViewChangeStep(c: Config, s: System, r: int, ps: Peer, sender: int, vc: ViewChange)
    requires PbftSafety.Inv(c, s) && r in s.peers && ps == s.peers[r] && ViewChangeMsg(sender, vc) in s.net
    ensures StepOk(c, s, After(s, r, OnViewChange(ps, sender, vc)))
  {
    InvAt(c, s, r);
    var o := OnViewChange(ps, sender, vc);
    ViewChangeBooks(c, ps, sender, vc);
    ViewChangeChanges(c, s.net, ps, sender, vc);
    BookkeepingQuiet(c, ps, o.peer);
    SameReproposals(c, s, ps, o.peer);
    BookkeepingStep(c, s, r, ps, o);
  }

  lemma MissingBooks(c: Config, s: System, r: int, ps: Peer, sn: int, pp: Preprepare)
    requires LandsOk(c, s, r, ps)
    ensures var ps' := OnMissingPreprepare(ps, sn, pp).peer;
            && Bookkeeping(c, ps, ps') && Shape(c, ps')
            && ReproposalsInv(c, s, ps') && ChangesInv(c, s.net, ps')
  {
    MissingShape(c, ps, sn, pp);
    MissingReproposals(c, s, ps, sn, pp);
    MissingChanges(c, s.net, ps, sn, pp);
  }

  lemma MissingShape(c: Config, ps: Peer, sn: int, pp: Preprepare)
    requires Shape(c, ps) && ChangesOk(c, ps)
    ensures var ps' := OnMissingPreprepare(ps, sn, pp).peer; Bookkeeping(c, ps, ps') && Shape(c, ps')
  {
  }

  lemma MissingChanges(c: Config, net: set<Msg>, ps: Peer, sn: int, pp: Preprepare)
    requires ChangesInv(c, net, ps)
    ensures ChangesInv(c, net, OnMissingPreprepare(ps, sn, pp).peer)
  {
  }

  lemma MissingReproposals(c: Config, s: System, ps: Peer, sn: int, pp: Preprepare)
    requires Shape(c, ps) && Shape(c, OnMissingPreprepare(ps, sn, pp).peer) && ReproposalsInv(c, s, ps)
    ensures ReproposalsInv(c, s, OnMissingPreprepare(ps, sn, pp).peer)
  {
    var ps' := OnMissingPreprepare(ps, sn, pp).peer;
    if Preparing(ps') {
      forall k | k in ps'.changes[ps.view].repropose && k in c.sns
        ensures ReproposalOk(c, s, ps', k, ps'.changes[ps.view].repropose[k])
      {
        assert ReproposalOk(c, s, ps, k, ps.changes[ps.view].repropose[k]);
      }
    }
  }

  lemma MissingStep(c: Config, s: System, r: int, ps: Peer, sn: int, pp: Preprepare)
    requires PbftSafety.Inv(c, s) && r in s.peers && ps == s.peers[r]
    ensures StepOk(c, s, After(s, r, OnMissingPreprepare(ps, sn, pp)))
  {
    InvAt(c, s, r);
    MissingBooks(c, s, r, ps, sn, pp);
    BookkeepingStep(c, s, r, ps, OnMissingPreprepare(ps, sn, pp));
  }

  lemma DropBooks(c: Config, net: set<Msg>, ps: Peer)
    requires ps.view in ps.changes && ChangesInv(c, net, ps)
    requires ChangesOk(c, ps)
    ensures var ps' := DropNewView(ps).peer; Bookkeeping(c, ps, ps') && ChangesInv(c, net, ps') && !Preparing(ps')
  {
  }

  lemma DropStep(c: Config, s: System, r: int, ps: Peer)
    requires PbftSafety.Inv(c, s) && r in s.peers && ps == s.peers[r] && ps.view in ps.changes
    ensures StepOk(c, s, After(s, r, DropNewView(ps)))
  {
    InvAt(c, s, r);
    DropBooks(c, s.net, ps);
    BookkeepingQuiet(c, ps, DropNewView(ps).peer);
    BookkeepingStep(c, s, r, ps, DropNewView(ps));
  }

  // ---------- Fixing the proposals of a new view ----------

  function ClaimsIn(vset: map<int, ViewChange>, sn: int): map<int, Claim> {
    map s | s in vset :: ClaimOf(s, vset[s], sn)
  }

  /** The conditions the code checks imply those of `Voting`. */
  lemma AllowedConditions(f: nat, vset: map<int, ViewChange>, sn: int, ch: Choice)
    requires Allowed(f, vset, sn, ch)
    ensures CondB(f, ClaimsIn(vset, sn)) || (ch.Reuse? && CondA(f, ClaimsIn(vset, sn), ch.e))
    ensures ch.Abort? ==> CondB(f, ClaimsIn(vset, sn))
  {
    var vs := ClaimsIn(vset, sn);
    match ch {
      case Abort =>
        SubsetSize(UnpreparedAt(vset, sn), Unprepared(vs));
      case Reuse(e) =>
        SubsetSize(ConsistentAt(vset, sn, e), Consistent(vs, e));
        SubsetSize(SupportingAt(vset, sn, e), Supporting(vs, e));
    }
  }

  lemma GenuineClaims(c: Config, s: System, vset: map<int, ViewChange>, u: nat, sn: int)
    requires GenuineVset(c, s.net, vset) && forall p :: p in vset ==> vset[p].view >= u
    ensures Genuine(c.m, Project(c, s, sn), u, ClaimsIn(vset, sn))
  {
    var vs := ClaimsIn(vset, sn);
    forall p | p in vs && c.m.Correct(p)
      ensures vs[p] in ClaimsOf(c, s.net, sn)
    {
      var m := ViewChangeMsg(p, vset[p]);
      assert m in s.net && vs[p] == ClaimOf(m.sender, m.vc, sn);
    }
  }

  /** Whatever the conditions allow for a slot is justified. */
  lemma AllowedJustified(c: Config, s: System, vset: map<int, ViewChange>, u: nat, sn: int, ch: Choice)
    requires GenuineVset(c, s.net, vset) && forall p :: p in vset ==> vset[p].view >= u
    requires Allowed(c.F(), vset, sn, ch)
    ensures Justified(c.m, Project(c, s, sn), u, ch.Digest())
  {
    GenuineClaims(c, s, vset, u, sn);
    AllowedConditions(c.F(), vset, sn, ch);
    assert JustifiedBy(c.m, Project(c, s, sn), u, ch.Digest(), ClaimsIn(vset, sn));
  }

  /** A justified proposal agrees with every earlier decision. */
  lemma JustifiedAgrees(c: Config, s: System, u: nat, sn: int, x: Digest, d: Digest)
    requires Voting.Inv(c.m, Project(c, s, sn)) && Justified(c.m, Project(c, s, sn), u, x)
    requires DecidedBy(c, s, sn, u - 1, d)
    ensures d == x
  {
    var st := Project(c, s, sn);
    JustifiedIsSafe(c.m, st, u, x);
    var w: int :| w <= u - 1 && Chosen(c.m, st, w, d);
    ChosenNonNegative(c.m, st, w, d);
    ChosenIsChoosable(c.m, st, w, d);
  }

  lemma ChosenNonNegative(m: Membership, st: Votes, v: int, d: Digest)
    requires Voting.Inv(m, st) && Chosen(m, st, v, d)
    ensures 0 <= v
  {
    var q: set<int> :| AllVoted(m, st, q, v, d);
    var p := WeakQuorumHasCorrect(m, q);
    assert VotedFor(st, p, v, d) && BallotInv(m, st, st.ballots[p]);
  }

  /** An empty batch is never proposed for a decided slot. */
  lemma AbortUndecided(c: Config, s: System, vset: map<int, ViewChange>, u: nat, sn: int, d: Digest)
    requires Voting.Inv(c.m, Project(c, s, sn))
    requires GenuineVset(c, s.net, vset) && forall p :: p in vset ==> vset[p].view >= u
    requires Allowed(c.F(), vset, sn, Abort)
    ensures !DecidedBy(c, s, sn, u - 1, d)
  {
    var st := Project(c, s, sn);
    GenuineClaims(c, s, vset, u, sn);
    AllowedConditions(c.F(), vset, sn, Abort);
    forall w: int | w <= u - 1
      ensures !Chosen(c.m, st, w, d)
    {
      CondBExcludes(c.m, st, u, ClaimsIn(vset, sn), w, d);
      if Chosen(c.m, st, w, d) {
        ChosenIsChoosable(c.m, st, w, d);
      }
    }
  }

  /** `FindBatch` returns the last slot below `v` that holds a proposal. */
  lemma {:induction false} FindBatchLatest(slots: map<Loc, Slot>, sn: int, v: nat, k: Loc)
    requires k in slots && k.sn == sn && k.view < v && slots[k].pp.Some?
    ensures exists w: nat :: k.view <= w < v && Loc(w, sn) in slots && slots[Loc(w, sn)].pp.Some?
                             && FindBatch(slots, sn, v) == Some(slots[Loc(w, sn)])
  {
    if !(Loc(v - 1, sn) in slots && slots[Loc(v - 1, sn)].pp.Some?) {
      assert k == Loc(k.view, sn);
      FindBatchLatest(slots, sn, v - 1, k);
    }
  }

  lemma {:induction false} FindBatchIn(slots: map<Loc, Slot>, sn: int, v: nat)
    requires FindBatch(slots, sn, v).Some?
    ensures exists w: nat :: w < v && Loc(w, sn) in slots && FindBatch(slots, sn, v).value == slots[Loc(w, sn)]
  {
    if !(Loc(v - 1, sn) in slots && slots[Loc(v - 1, sn)].pp.Some?) {
      FindBatchIn(slots, sn, v - 1);
    }
  }

  /** For a slot the leader has decided, the batch it finds is the decided one. */
  lemma FindDecided(c: Config, r: int, ps: Peer, sn: int, u: nat, l: Loc)
    requires PeerInv(c, r, ps) && KeepsDecisions(ps) && HasOrigins(ps)
    requires l in ps.slots && l.sn == sn && l.view <= u && ps.slots[l].committed
    requires l.view == u ==> !ps.slots[l].preprepared
    ensures var found := FindBatch(ps.slots, sn, u);
            found.Some? && found.value.committed && found.value.digest == ps.slots[l].digest
  {
    var k := l;
    if !ps.slots[l].preprepared {
      k :| Origin(ps, l, k);
    }
    assert SlotInv(k.view, ps.slots[k]);
    FindBatchLatest(ps.slots, sn, u, k);
    var w: nat :| k.view <= w < u && Loc(w, sn) in ps.slots && ps.slots[Loc(w, sn)].pp.Some?
                  && FindBatch(ps.slots, sn, u) == Some(ps.slots[Loc(w, sn)]);
    assert KeepsPair(ps, k, Loc(w, sn)) && KeepsPair(ps, k, l);
  }

  /** A batch chosen by the conditions can be proposed again. */
  lemma ReproposeOk(c: Config, s: System, r: int, ps: Peer, ps': Peer, u: nat, sn: int, ch: Choice,
                    vset: map<int, ViewChange>)
    requires LandsOk(c, s, r, ps) && Voting.Inv(c.m, Project(c, s, sn)) && sn in c.sns
    requires GenuineVset(c, s.net, vset) && (forall p :: p in vset ==> vset[p].view == u)
    requires Allowed(c.F(), vset, sn, ch) && 0 < u && !InfoFor(ps, u).accepted
    requires Started(c, ps, ps', u) && ps'.Here(sn) in ps'.slots
    ensures ReproposalOk(c, s, ps', sn, Repropose(ps, u, sn, ch))
  {
    var rp, l := Repropose(ps, u, sn, ch), ps.Here(sn);
    AllowedJustified(c, s, vset, u, sn, ch);
    if ps.slots[l].committed {
      DecidedReproposed(c, s, r, ps, u, sn, ch, vset);
    }
    if rp.committed {
      FoundDecided(c, s, ps, sn, u, rp.digest);
    }
    StartedCommitted(c, ps, ps', u, sn);
  }

  lemma StartedCommitted(c: Config, ps: Peer, ps': Peer, u: nat, sn: int)
    requires Shape(c, ps) && sn in c.sns && Started(c, ps, ps', u) && ps'.Here(sn) in ps'.slots
    ensures ps'.slots[ps'.Here(sn)].committed ==>
              ps.slots[ps.Here(sn)].committed && ps'.slots[ps'.Here(sn)].digest == ps.slots[ps.Here(sn)].digest
  {
  }

  /** What the leader has decided is what it proposes again. */
  lemma DecidedReproposed(c: Config, s: System, r: int, ps: Peer, u: nat, sn: int, ch: Choice,
                          vset: map<int, ViewChange>)
    requires LandsOk(c, s, r, ps) && Voting.Inv(c.m, Project(c, s, sn)) && sn in c.sns && ps.view <= u
    requires GenuineVset(c, s.net, vset) && (forall p :: p in vset ==> vset[p].view == u)
    requires Allowed(c.F(), vset, sn, ch) && 0 < u && !InfoFor(ps, u).accepted && ps.slots[ps.Here(sn)].committed
    ensures var rp := Repropose(ps, u, sn, ch); rp.committed && ps.slots[ps.Here(sn)].digest == Some(rp.digest)
  {
    var rp, l := Repropose(ps, u, sn, ch), ps.Here(sn);
    AllowedJustified(c, s, vset, u, sn, ch);
    assert SlotInv(ps.view, ps.slots[l]);
    CommittedAgrees(c, s, ps, u, sn, rp.digest);
    if ch.Abort? {
      AbortUndecided(c, s, vset, u, sn, rp.digest);
    } else {
      FindDecided(c, r, ps, sn, u, l);
    }
  }

  lemma DecidedEarlier(c: Config, s: System, sn: int, v: int, w: int, d: Digest)
    requires DecidedBy(c, s, sn, v, d) && v <= w
    ensures DecidedBy(c, s, sn, w, d)
  {
    var x: int :| x <= v && Chosen(c.m, Project(c, s, sn), x, d);
    assert x <= w;
  }

  lemma FoundDecided(c: Config, s: System, ps: Peer, sn: int, u: nat, d: Digest)
    requires SlotsInv(c, s, ps) && FindBatch(ps.slots, sn, u).Some?
    requires FindBatch(ps.slots, sn, u).value.committed && FindBatch(ps.slots, sn, u).value.digest == Some(d)
    ensures DecidedBy(c, s, sn, u, d)
  {
    FindBatchIn(ps.slots, sn, u);
    var w: nat :| w < u && Loc(w, sn) in ps.slots && FindBatch(ps.slots, sn, u).value == ps.slots[Loc(w, sn)];
    assert SlotFacts(c, s, w, sn, ps.slots[Loc(w, sn)]);
    DecidedEarlier(c, s, sn, if ps.slots[Loc(w, sn)].preprepared then w else w - 1, u, d);
  }

  /** The leader's state once it has fixed its proposals `rps`. */
  ghost predicate Built(c: Config, ps: Peer, ps': Peer, u: nat, choices: map<int, Choice>) {
    && Started(c, ps, ps', u) && ps'.inViewChange && choices.Keys == c.sns
    && u in ps.changes && u in ps'.changes && ps'.changes == ps.changes[u := ps'.changes[u]]
    && ps'.changes[u].s == ps.changes[u].s && ps'.changes[u].enough && !ps'.changes[u].accepted
    && ps'.changes[u].repropose.Keys == c.sns
    && forall sn :: sn in c.sns ==> ps'.changes[u].repropose[sn] == Repropose(ps, u, sn, choices[sn])
  }

  lemma BuildIs(c: Config, ps: Peer, u: nat, choices: map<int, Choice>) returns (ps': Peer)
    requires CanBuild(c, ps, u, choices)
    ensures BuildNewView(c, ps, u, choices) == Outcome(ps', {}) && Built(c, ps, ps', u, choices)
  {
    StartViewStarted(c, ps.(inViewChange := true), u);
    ps' := BuildNewView(c, ps, u, choices).peer;
  }

  lemma BuiltQuiet(c: Config, r: int, ps: Peer, ps': Peer, u: nat, choices: map<int, Choice>)
    requires PeerInv(c, r, ps) && CanBuild(c, ps, u, choices) && Built(c, ps, ps', u, choices)
    ensures Quiet(c, ps, ps') && Shape(c, ps')
  {
    StartedQuiet(c, ps, ps', u);
  }

  lemma BuiltReproposals(c: Config, s: System, r: int, ps: Peer, ps': Peer, u: nat, choices: map<int, Choice>)
    requires LandsOk(c, s, r, ps) && CanBuild(c, ps, u, choices) && Built(c, ps, ps', u, choices) && Shape(c, ps')
    requires forall sn :: sn in c.sns ==> Voting.Inv(c.m, Project(c, s, sn))
    ensures ReproposalsInv(c, s, ps')
  {
    assert GenuineVset(c, s.net, ps.changes[u].s);
    forall sn | sn in c.sns
      ensures ReproposalOk(c, s, ps', sn, ps'.changes[u].repropose[sn])
    {
      ReproposeOk(c, s, r, ps, ps', u, sn, choices[sn], ps.changes[u].s);
    }
  }

  lemma BuiltChanges(c: Config, net: set<Msg>, ps: Peer, ps': Peer, u: nat, choices: map<int, Choice>)
    requires ChangesInv(c, net, ps) && CanBuild(c, ps, u, choices) && Built(c, ps, ps', u, choices)
    ensures ChangesInv(c, net, ps')
  {
    assert GenuineVset(c, net, ps.changes[u].s);
  }

  lemma BuildStep(c: Config, s: System, r: int, ps: Peer, u: nat, choices: map<int, Choice>)
    requires PbftSafety.Inv(c, s) && r in s.peers && ps == s.peers[r] && CanBuild(c, ps, u, choices)
    ensures StepOk(c, s, After(s, r, BuildNewView(c, ps, u, choices)))
  {
    var ps' := BuildIs(c, ps, u, choices);
    BuiltStep(c, s, r, ps, ps', u, choices);
  }

  lemma BuiltStep(c: Config, s: System, r: int, ps: Peer, ps': Peer, u: nat, choices: map<int, Choice>)
    requires PbftSafety.Inv(c, s) && r in s.peers && ps == s.peers[r] && CanBuild(c, ps, u, choices)
    requires Built(c, ps, ps', u, choices)
    ensures StepOk(c, s, After(s, r, Outcome(ps', {})))
  {
    InvAt(c, s, r);
    BuiltQuiet(c, r, ps, ps', u, choices);
    BuiltReproposals(c, s, r, ps, ps', u, choices);
    BuiltChanges(c, s.net, ps, ps', u, choices);
    NoSends(c, s, r, Outcome(ps', {}));
    assert s.net + {} == s.net;
    QuietStep(c, s, r, ps, Outcome(ps', {}));
  }

  // ---------- Taking over the proposals of a new view ----------

  /** The slot of `sn` in view `u` before the view's proposals are taken over. */
  function Base(ps: Peer, u: nat, sn: int): Slot
    requires ps.Here(sn) in ps.slots
  {
    if ps.view == u then ps.slots[ps.Here(sn)] else Carry(ps.slots[ps.Here(sn)])
  }

  /** `sl'` is `base` with the justified proposal `x`, and no decision is lost or invented. */
  ghost predicate Takeover(c: Config, s: System, u: nat, sn: int, base: Slot, sl': Slot, x: Digest) {
    && !base.preprepared && !base.prepared && sl' == base.(pp := sl'.pp, digest := Some(x), preprepared := true,
                                          committed := sl'.committed, prepares := sl'.prepares)
    && sl'.pp.Some? && sl'.pp.value.view == u
    && (base.committed ==> sl'.committed && base.digest == Some(x))
    && (sl'.committed ==> DecidedBy(c, s, sn, u, x))
    && Justified(c.m, Project(c, s, sn), u, x)
  }

  /** `ps'` works in view `u`, and differs from `ps` only in the slots of that view. */
  ghost predicate Replaced(c: Config, ps: Peer, ps': Peer, u: nat) {
    && ps'.id == ps.id && ps'.view == u && !ps'.inViewChange
    && (forall l :: l in ps.slots && l.view < u ==> l in ps'.slots && ps'.slots[l] == ps.slots[l])
    && (forall l :: l in ps'.slots ==> (l in ps.slots && l.view < u) || (l.view == u && l.sn in c.sns))
    && (forall sn :: sn in c.sns ==> Loc(u, sn) in ps'.slots)
  }

  ghost predicate Installed(c: Config, s: System, ps: Peer, ps': Peer, u: nat, xs: map<int, Digest>) {
    && 0 < u && ps.view <= u && Shape(c, ps) && xs.Keys == c.sns
    && Replaced(c, ps, ps', u)
    && (forall sn :: sn in c.sns ==>
          Loc(u, sn) in ps'.slots && Takeover(c, s, u, sn, Base(ps, u, sn), ps'.slots[Loc(u, sn)], xs[sn]))
    && (forall v :: InfoFor(ps, v).accepted ==> InfoFor(ps', v).accepted) && InfoFor(ps', u).accepted
    && ChangesOk(c, ps')
  }

  lemma TakeoverSlot(c: Config, s: System, u: nat, sn: int, base: Slot, sl': Slot, x: Digest)
    requires SlotInv(u, base) && Takeover(c, s, u, sn, base, sl', x)
    ensures SlotInv(u, sl') && forall p :: p in sl'.commits ==> sl'.commits[p].Some?
  {
    assert CountedCommits(sl') == CountedCommits(base) == {};
    forall p | p in sl'.commits
      ensures sl'.commits[p].Some?
    {
      assert sl'.commits[p].None? ==> p in CountedCommits(sl');
    }
  }

  lemma BaseOk(c: Config, r: int, ps: Peer, u: nat, sn: int)
    requires PeerInv(c, r, ps) && ps.view <= u && sn in c.sns
    ensures SlotInv(u, Base(ps, u, sn))
  {
    assert SlotInv(ps.view, ps.slots[ps.Here(sn)]);
    assert CountedCommits(FRESH) == {};
    assert CountedCommits(Carry(ps.slots[ps.Here(sn)])) == {};
  }

  lemma InstalledPeerInv(c: Config, s: System, r: int, ps: Peer, ps': Peer, u: nat, xs: map<int, Digest>)
    requires PeerInv(c, r, ps) && Installed(c, s, ps, ps', u, xs)
    ensures PeerInv(c, r, ps')
  {
    forall l | l in ps'.slots
      ensures SlotInv(l.view, ps'.slots[l])
      ensures (l.view > 0 && ps'.slots[l].preprepared ==> InfoFor(ps', l.view).accepted)
    {
      if l.view < u {
        assert SlotInv(l.view, ps.slots[l]);
      } else {
        assert l == Loc(u, l.sn);
        BaseOk(c, r, ps, u, l.sn);
        TakeoverSlot(c, s, u, l.sn, Base(ps, u, l.sn), ps'.slots[l], xs[l.sn]);
      }
    }
  }

  lemma InstalledKeepsDecisions(c: Config, s: System, ps: Peer, ps': Peer, u: nat, xs: map<int, Digest>)
    requires Installed(c, s, ps, ps', u, xs) && KeepsDecisions(ps)
    ensures KeepsDecisions(ps')
  {
    forall l, k
      ensures KeepsPair(ps', l, k)
    {
      if l in ps'.slots && k in ps'.slots && l.sn == k.sn && l.view <= k.view && ps'.slots[l].committed {
        assert KeepsPair(ps, l, k) && KeepsPair(ps, l, ps.Here(l.sn));
        if l.view < u == k.view {
          assert k == Loc(u, l.sn);
          assert Takeover(c, s, u, l.sn, Base(ps, u, l.sn), ps'.slots[k], xs[l.sn]);
        }
      }
    }
  }

  lemma InstalledHasOrigins(c: Config, s: System, ps: Peer, ps': Peer, u: nat, xs: map<int, Digest>)
    requires Installed(c, s, ps, ps', u, xs) && HasOrigins(ps)
    ensures HasOrigins(ps')
  {
    forall sn | sn in c.sns
      ensures ps'.slots[Loc(u, sn)].preprepared
    {
      assert Takeover(c, s, u, sn, Base(ps, u, sn), ps'.slots[Loc(u, sn)], xs[sn]);
    }
    forall l | l in ps'.slots && ps'.slots[l].committed && !ps'.slots[l].preprepared
      ensures exists k :: Origin(ps', l, k)
    {
      assert l == Loc(l.view, l.sn);
      var k :| Origin(ps, l, k);
      assert Origin(ps', l, k);
    }
  }

  lemma InstalledBallotStep(c: Config, s: System, ps: Peer, ps': Peer, u: nat, xs: map<int, Digest>, k: int)
    requires Installed(c, s, ps, ps', u, xs) && k in c.sns
    ensures BallotStep(c.m, Project(c, s, k), BallotOf(ps, k), BallotOf(ps', k))
  {
    assert Takeover(c, s, u, k, Base(ps, u, k), ps'.slots[Loc(u, k)], xs[k]);
    assert ps.view == u ==> ps.Here(k) == Loc(u, k);
    assert !AcceptedAt(ps, k, u) && !VotedAt(ps, k, u);
    forall v | AcceptedAt(ps, k, v) || VotedAt(ps, k, v)
      ensures v < u && Loc(v, k) in ps'.slots && ps'.slots[Loc(v, k)] == ps.slots[Loc(v, k)]
    {
    }
    forall v | AcceptedAt(ps', k, v) && !AcceptedAt(ps, k, v)
      ensures v == u
    {
      assert Loc(v, k) in ps'.slots;
    }
    forall v | VotedAt(ps', k, v)
      ensures VotedAt(ps, k, v)
    {
      assert Loc(v, k) in ps'.slots;
    }
    BallotStepIf(c.m, Project(c, s, k), ps, ps', k);
  }

  lemma TakeoverFacts(c: Config, s: System, s': System, u: nat, sn: int, base: Slot, sl': Slot, x: Digest)
    requires Populated(c, s) && AllNext(c, s, s') && s.net <= s'.net && sn in c.sns
    requires SlotInv(u, base) && RecordOk(c, s.net, u, sn, base) && Takeover(c, s, u, sn, base, sl', x)
    ensures SlotFacts(c, s', u, sn, sl')
  {
    TakeoverSlot(c, s, u, sn, base, sl', x);
    if sl'.committed {
      DecidedStays(c, s, s', sn, u, x);
    }
  }

  lemma InstalledSlotsInv(c: Config, s: System, s': System, r: int, ps: Peer, ps': Peer, u: nat, xs: map<int, Digest>)
    requires Populated(c, s) && AllNext(c, s, s') && s.net <= s'.net && PeerInv(c, r, ps)
    requires Installed(c, s, ps, ps', u, xs) && SlotsInv(c, s, ps)
    ensures SlotsInv(c, s', ps')
  {
    SlotsInvStays(c, s, s', ps);
    forall l | l in ps'.slots
      ensures SlotFacts(c, s', l.view, l.sn, ps'.slots[l])
    {
      if l.view == u {
        assert l == Loc(u, l.sn) && SlotFacts(c, s, ps.view, l.sn, ps.slots[ps.Here(l.sn)]);
        BaseOk(c, r, ps, u, l.sn);
        assert RecordOk(c, s.net, u, l.sn, Base(ps, u, l.sn));
        TakeoverFacts(c, s, s', u, l.sn, Base(ps, u, l.sn), ps'.slots[l], xs[l.sn]);
      }
    }
  }

  lemma InstalledNext(c: Config, s: System, s': System, r: int, ps: Peer, ps': Peer, u: nat, xs: map<int, Digest>)
    requires Populated(c, s) && r in s.peers && ps == s.peers[r] && Installed(c, s, ps, ps', u, xs)
    requires Acts(c, s, s', r, ps') && SendsOk(c, s, s', r, ps')
    ensures AllNext(c, s, s')
  {
    forall k | k in c.sns
      ensures Next(c.m, Project(c, s, k), Project(c, s', k))
    {
      InstalledBallotStep(c, s, ps, ps', u, xs, k);
      ProjectNext(c, s, s', r, ps', k);
    }
  }

  lemma InstalledPersists(c: Config, s: System, ps: Peer, ps': Peer, u: nat, xs: map<int, Digest>)
    requires Installed(c, s, ps, ps', u, xs)
    ensures Persists(ps, ps')
  {
    forall l | l in ps.slots && ps.slots[l].committed
      ensures l in ps'.slots && ps'.slots[l].committed && ps'.slots[l].digest == ps.slots[l].digest
    {
      if l.view == u {
        assert l == Loc(u, l.sn) && l == ps.Here(l.sn);
        assert Takeover(c, s, u, l.sn, Base(ps, u, l.sn), ps'.slots[l], xs[l.sn]);
      }
    }
  }

  lemma InstalledStep(c: Config, s: System, r: int, ps: Peer, o: Outcome, u: nat, xs: map<int, Digest>)
    requires PbftSafety.Inv(c, s) && r in s.peers && ps == s.peers[r] && Installed(c, s, ps, o.peer, u, xs)
    requires ChangesInv(c, s.net, o.peer)
    requires forall m :: m in o.sent ==> m.sender == r && !m.CommitMsg? && !m.ViewChangeMsg?
    ensures StepOk(c, s, After(s, r, o))
  {
    var s' := After(s, r, o);
    InvAt(c, s, r);
    InstalledPersists(c, s, ps, o.peer, u, xs);
    OnePersists(s, r, ps, o);
    InstalledNext(c, s, s', r, ps, o.peer, u, xs);
    InstalledPeerInv(c, s, r, ps, o.peer, u, xs);
    InstalledKeepsDecisions(c, s, ps, o.peer, u, xs);
    InstalledHasOrigins(c, s, ps, o.peer, u, xs);
    InstalledSlotsInv(c, s, s', r, ps, o.peer, u, xs);
    Assemble(c, s, s', r, o.peer);
  }

  /** A view whose NEWVIEW has not been accepted holds no proposals yet. */
  lemma BaseUntouched(c: Config, r: int, ps: Peer, u: nat, sn: int)
    requires PeerInv(c, r, ps) && ps.view <= u && 0 < u && sn in c.sns && !InfoFor(ps, u).accepted
    ensures !Base(ps, u, sn).preprepared && !Base(ps, u, sn).prepared
  {
    assert SlotInv(ps.view, ps.slots[ps.Here(sn)]);
  }

  lemma SendNewViewTakes(c: Config, s: System, r: int, ps: Peer, sn: int)
    requires LandsOk(c, s, r, ps) && CanAnnounce(c, ps) && sn in c.sns
    ensures var rp := ps.changes[ps.view].repropose[sn];
            Takeover(c, s, ps.view, sn, Base(ps, ps.view, sn), ReproposedSlot(ps.slots[ps.Here(sn)], rp), rp.digest)
  {
    var rp := ps.changes[ps.view].repropose[sn];
    assert ReproposalOk(c, s, ps, sn, rp);
    BaseUntouched(c, r, ps, ps.view, sn);
  }

  lemma SendNewViewIs(c: Config, ps: Peer) returns (ps': Peer, m: Msg)
    requires CanAnnounce(c, ps)
    ensures SendNewView(c, ps) == Outcome(ps', {m}) && m.NewViewMsg? && m.sender == ps.id
    ensures Replaced(c, ps, ps', ps.view)
    ensures forall sn :: sn in c.sns ==>
              ps'.slots[Loc(ps.view, sn)] == ReproposedSlot(ps.slots[ps.Here(sn)], ps.changes[ps.view].repropose[sn])
    ensures ps'.changes == ps.changes[ps.view := ps.changes[ps.view].(accepted := true)]
  {
    var o := SendNewView(c, ps);
    ps' := o.peer;
    m :| o.sent == {m};
    forall sn | sn in c.sns
      ensures Loc(ps.view, sn) in ps'.slots
      ensures ps'.slots[Loc(ps.view, sn)] == ReproposedSlot(ps.slots[ps.Here(sn)], ps.changes[ps.view].repropose[sn])
    {
      assert ps.Here(sn) == Loc(ps.view, sn);
    }
  }

  lemma SendNewViewInstalls(c: Config, s: System, r: int, ps: Peer, ps': Peer) returns (xs: map<int, Digest>)
    requires LandsOk(c, s, r, ps) && CanAnnounce(c, ps) && Replaced(c, ps, ps', ps.view)
    requires forall sn :: sn in c.sns ==>
               ps'.slots[Loc(ps.view, sn)] == ReproposedSlot(ps.slots[ps.Here(sn)], ps.changes[ps.view].repropose[sn])
    requires ps'.changes == ps.changes[ps.view := ps.changes[ps.view].(accepted := true)]
    ensures Installed(c, s, ps, ps', ps.view, xs)
  {
    xs := map sn | sn in c.sns :: ps.changes[ps.view].repropose[sn].digest;
    forall sn | sn in c.sns
      ensures Takeover(c, s, ps.view, sn, Base(ps, ps.view, sn), ps'.slots[Loc(ps.view, sn)], xs[sn])
    {
      SendNewViewTakes(c, s, r, ps, sn);
    }
  }

  lemma SendNewViewStep(c: Config, s: System, r: int, ps: Peer)
    requires PbftSafety.Inv(c, s) && r in s.peers && ps == s.peers[r] && CanAnnounce(c, ps)
    ensures StepOk(c, s, After(s, r, SendNewView(c, ps)))
  {
    InvAt(c, s, r);
    var ps', m := SendNewViewIs(c, ps);
    var xs := SendNewViewInstalls(c, s, r, ps, ps');
    AcceptChanges(c, s.net, ps, ps', ps.view);
    InstalledStep(c, s, r, ps, Outcome(ps', {m}), ps.view, xs);
  }

  /** No quorum holds a checkpoint inside the segment, so a NEWVIEW speaks for every slot. */
  lemma CheckpointIsInitial(c: Config, s: System, vset: map<int, ViewChange>, h: int)
    requires c.Valid() && NetInv(c, s) && GenuineVset(c, s.net, vset) && CheckpointPossible(c.F(), vset, h)
    ensures h == -1
  {
    forall p | p in vset && c.m.Correct(p)
      ensures vset[p].cset == [-1]
    {
      assert ViewChangeMsg(p, vset[p]) in s.net;
    }
    if h != -1 {
      var p := WeakQuorumHasCorrect(c.m, set p | p in vset && h in vset[p].cset);
    }
  }

  lemma AcceptTakes(c: Config, s: System, r: int, ps: Peer, u: nat, vset: map<int, ViewChange>, sn: int, ch: Choice,
                    pp: Preprepare)
    requires PeerInv(c, r, ps) && SlotsInv(c, s, ps) && Voting.Inv(c.m, Project(c, s, sn)) && sn in c.sns
    requires ps.view <= u && 0 < u && !InfoFor(ps, u).accepted
    requires GenuineVset(c, s.net, vset) && (forall p :: p in vset ==> vset[p].view >= u)
    requires Allowed(c.F(), vset, sn, ch) && pp.digest == ch.Digest() && pp.view == u
    ensures var base := Base(ps, u, sn);
            && (base.committed ==> base.digest.Some?)
            && Takeover(c, s, u, sn, base, InstalledSlot(c, ps, u, base, pp), pp.digest)
  {
    var base, l := Base(ps, u, sn), ps.Here(sn);
    BaseOk(c, r, ps, u, sn);
    BaseUntouched(c, r, ps, u, sn);
    AllowedJustified(c, s, vset, u, sn, ch);
    if base.committed {
      CommittedAgrees(c, s, ps, u, sn, pp.digest);
    }
    InstalledTakes(c, s, ps, u, sn, base, pp);
  }

  lemma InstalledTakes(c: Config, s: System, ps: Peer, u: nat, sn: int, base: Slot, pp: Preprepare)
    requires |c.leaders| > 0 && !base.preprepared && !base.prepared && pp.view == u
    requires Justified(c.m, Project(c, s, sn), u, pp.digest)
    requires base.committed ==> base.digest == Some(pp.digest) && DecidedBy(c, s, sn, u, pp.digest)
    ensures Takeover(c, s, u, sn, base, InstalledSlot(c, ps, u, base, pp), pp.digest)
  {
  }

  /** What a peer has decided before view `u` is what is justified there. */
  lemma CommittedAgrees(c: Config, s: System, ps: Peer, u: nat, sn: int, x: Digest)
    requires SlotsInv(c, s, ps) && ps.Here(sn) in ps.slots && Voting.Inv(c.m, Project(c, s, sn))
    requires Justified(c.m, Project(c, s, sn), u, x) && ps.view <= u
    requires ps.slots[ps.Here(sn)].committed && ps.slots[ps.Here(sn)].digest.Some?
    requires ps.view == u ==> !ps.slots[ps.Here(sn)].preprepared
    ensures ps.slots[ps.Here(sn)].digest == Some(x) && DecidedBy(c, s, sn, u - 1, x) && DecidedBy(c, s, sn, u, x)
  {
    var l := ps.Here(sn);
    var d := ps.slots[l].digest.value;
    assert SlotFacts(c, s, ps.view, sn, ps.slots[l]);
    DecidedEarlier(c, s, sn, if ps.slots[l].preprepared then ps.view else ps.view - 1, u - 1, d);
    JustifiedAgrees(c, s, u, sn, x, d);
    DecidedEarlier(c, s, sn, u - 1, u, d);
  }

  /** What accepting a NEWVIEW puts into the slots of its view. */
  ghost predicate Accepts(c: Config, ps: Peer, ps': Peer, nv: NewView) {
    && Shape(c, ps) && Replaced(c, ps, ps', nv.view)
    && (forall sn :: sn in c.sns ==>
          && sn in nv.xset
          && (Base(ps, nv.view, sn).committed ==> Base(ps, nv.view, sn).digest.Some?)
          && ps'.slots[Loc(nv.view, sn)] == InstalledSlot(c, ps, nv.view, Base(ps, nv.view, sn), nv.xset[sn]))
    && ps'.changes == ps.changes[nv.view := InfoFor(ps, nv.view).(accepted := true)]
  }

  lemma InstalledSlotsAt(c: Config, ps: Peer, ps1: Peer, nv: NewView, slots': map<Loc, Slot>)
    requires Shape(c, ps) && Shape(c, ps1) && DecidedDigested(ps1) && nv.checkpoint == -1 && ps1.id == ps.id
    requires ps1.view == nv.view && (forall sn :: sn in c.sns ==> sn in nv.xset)
    requires slots' == InstalledSlots(c, ps1, nv)
    ensures forall l :: l in slots' <==> l in ps1.slots
    ensures forall l :: l in ps1.slots && l.view < nv.view ==> slots'[l] == ps1.slots[l]
    ensures forall sn :: sn in c.sns ==>
              Loc(nv.view, sn) in slots' && Loc(nv.view, sn) in ps1.slots &&
              slots'[Loc(nv.view, sn)] == InstalledSlot(c, ps, nv.view, ps1.slots[Loc(nv.view, sn)], nv.xset[sn])
  {
    forall sn | sn in c.sns
      ensures Loc(nv.view, sn) in slots' && Loc(nv.view, sn) in ps1.slots
      ensures slots'[Loc(nv.view, sn)] == InstalledSlot(c, ps, nv.view, ps1.slots[Loc(nv.view, sn)], nv.xset[sn])
    {
      assert ps1.Here(sn) == Loc(nv.view, sn) && sn > nv.checkpoint;
    }
  }

  lemma StartedBase(c: Config, ps: Peer, ps1: Peer, u: nat, sn: int)
    requires Shape(c, ps) && Started(c, ps, ps1, u) && sn in c.sns
    ensures Loc(u, sn) in ps1.slots && ps1.slots[Loc(u, sn)] == Base(ps, u, sn)
  {
    assert ps.Here(sn) == Loc(ps.view, sn) && ps.Here(sn) in ps.slots;
  }

  lemma StartedShape(c: Config, ps: Peer, ps1: Peer, u: nat)
    requires Shape(c, ps) && DecidedDigested(ps) && Started(c, ps, ps1, u)
    ensures Shape(c, ps1) && DecidedDigested(ps1)
  {
    forall sn | sn in c.sns
      ensures ps1.Here(sn) in ps1.slots
    {
      StartedBase(c, ps, ps1, u, sn);
    }
    forall l | l in ps1.slots && ps1.slots[l].committed
      ensures ps1.slots[l].digest.Some?
    {
      if l !in ps.slots {
        StartedBase(c, ps, ps1, u, l.sn);
        assert l == Loc(u, l.sn) && ps.Here(l.sn) in ps.slots;
      }
    }
  }

  lemma AcceptShape(c: Config, ps: Peer, ps1: Peer, nv: NewView, ps': Peer)
    requires Shape(c, ps) && DecidedDigested(ps) && Started(c, ps, ps1, nv.view) && nv.checkpoint == -1
    requires Shape(c, ps1) && DecidedDigested(ps1) && (forall sn :: sn in c.sns ==> sn in nv.xset)
    requires ps1.changes == ps.changes
    requires ps' == ps1.(inViewChange := false, slots := InstalledSlots(c, ps1, nv),
                         changes := ps.changes[nv.view := InfoFor(ps, nv.view).(accepted := true)])
    ensures Accepts(c, ps, ps', nv)
  {
    InstalledSlotsAt(c, ps, ps1, nv, ps'.slots);
    forall sn | sn in c.sns
      ensures ps1.slots[Loc(nv.view, sn)] == Base(ps, nv.view, sn)
    {
      StartedBase(c, ps, ps1, nv.view, sn);
    }
  }

  lemma AcceptIs(c: Config, ps: Peer, sender: int, nv: NewView, choices: map<int, Choice>)
    returns (ps': Peer, sent: set<Msg>)
    requires CanAccept(c, ps, sender, nv, choices) && DecidedDigested(ps) && nv.checkpoint == -1
    ensures AcceptNewView(c, ps, sender, nv, choices) == Outcome(ps', sent) && Accepts(c, ps, ps', nv)
    ensures forall m :: m in sent ==> m.PrepareMsg? && m.sender == ps.id
  {
    var o := AcceptNewView(c, ps, sender, nv, choices);
    ps', sent := o.peer, o.sent;
    StartViewStarted(c, ps, nv.view);
    var ps1 := StartView(c, ps, nv.view);
    StartedShape(c, ps, ps1, nv.view);
    AcceptShape(c, ps, ps1, nv, ps');
  }

  lemma AcceptInstalls(c: Config, s: System, r: int, ps: Peer, ps': Peer, sender: int, nv: NewView,
                       choices: map<int, Choice>)
    returns (xs: map<int, Digest>)
    requires LandsOk(c, s, r, ps) && (forall sn :: sn in c.sns ==> Voting.Inv(c.m, Project(c, s, sn)))
    requires nv.checkpoint == -1 && CanAccept(c, ps, sender, nv, choices) && GenuineVset(c, s.net, nv.vset)
    requires Accepts(c, ps, ps', nv)
    ensures Installed(c, s, ps, ps', nv.view, xs)
  {
    xs := map sn | sn in c.sns :: nv.xset[sn].digest;
    forall sn | sn in c.sns
      ensures Takeover(c, s, nv.view, sn, Base(ps, nv.view, sn), ps'.slots[Loc(nv.view, sn)], xs[sn])
    {
      AcceptTakes(c, s, r, ps, nv.view, nv.vset, sn, choices[sn], nv.xset[sn]);
    }
  }

  lemma AcceptStep(c: Config, s: System, r: int, ps: Peer, sender: int, nv: NewView, choices: map<int, Choice>)
    requires PbftSafety.Inv(c, s) && r in s.peers && ps == s.peers[r]
    requires CanAccept(c, ps, sender, nv, choices) && DecidedDigested(ps) && GenuineVset(c, s.net, nv.vset)
    ensures StepOk(c, s, After(s, r, AcceptNewView(c, ps, sender, nv, choices)))
  {
    InvAt(c, s, r);
    CheckpointIsInitial(c, s, nv.vset, nv.checkpoint);
    var ps', sent := AcceptIs(c, ps, sender, nv, choices);
    var xs := AcceptInstalls(c, s, r, ps, ps', sender, nv, choices);
    AcceptChanges(c, s.net, ps, ps', nv.view);
    InstalledStep(c, s, r, ps, Outcome(ps', sent), nv.view, xs);
  }

  lemma AcceptChanges(c: Config, net: set<Msg>, ps: Peer, ps': Peer, u: nat)
    requires ChangesInv(c, net, ps) && ps'.changes == ps.changes[u := InfoFor(ps, u).(accepted := true)]
    ensures ChangesInv(c, net, ps')
  {
    assert u in ps.changes ==> GenuineVset(c, net, ps.changes[u].s);
  }

  // ---------- The whole system ----------

  lemma PreprepareStep(c: Config, s: System, r: int, ps: Peer, sender: int, sn: int, pp: Preprepare, adm: Admission,
                       release: bool)
    requires PbftSafety.Inv(c, s) && r in s.peers && ps == s.peers[r] && Shape(c, ps)
    ensures StepOk(c, s, After(s, r, OnPreprepare(c, ps, sender, sn, pp, adm, release)))
  {
    var o := PreprepareCases(c, ps, sender, sn, pp, adm, release);
    if Considered(c, ps, sender, sn, pp) && adm.Admit? {
      AcceptPreprepareStep(c, s, r, ps, sender, sn, pp, release);
    } else if o == SendViewChange(c, ps) {
      SendViewChangeStep(c, s, r, ps);
    } else {
      IdleStep(c, s, r);
    }
  }

  /** A proposal is taken up, makes the peer leave the view, or is passed over. */
  lemma PreprepareCases(c: Config, ps: Peer, sender: int, sn: int, pp: Preprepare, adm: Admission, release: bool)
    returns (o: Outcome)
    requires Shape(c, ps)
    ensures o == OnPreprepare(c, ps, sender, sn, pp, adm, release)
    ensures (Considered(c, ps, sender, sn, pp) && adm.Admit?) || o == SendViewChange(c, ps) || o == Outcome(ps, {})
  {
    o := OnPreprepare(c, ps, sender, sn, pp, adm, release);
  }

  /** Every enabled action of a correct peer keeps the invariant and every decision. */
  lemma ActionStep(c: Config, s: System, a: Action)
    requires PbftSafety.Inv(c, s) && Enabled(c, s, a)
    ensures StepOk(c, s, After(s, a.p, Effect(c, s, a)))
  {
    var ps := s.peers[a.p];
    match a {
      case DoPropose(r, sn, d) => ProposeStep(c, s, r, ps, sn, d);
      case DoPreprepare(r, sender, sn, pp, adm, release) => PreprepareStep(c, s, r, ps, sender, sn, pp, adm, release);
      case DoPrepare(r, sender, sn, view, d, release) => PrepareStep(c, s, r, ps, sender, sn, view, d, release);
      case DoCommit(r, sender, sn, view, d, release) => CommitStep(c, s, r, ps, sender, sn, view, d, release);
      case DoRelease(r, sn) => ReleaseStep(c, s, r, ps, sn);
      case DoTimeout(r) => SendViewChangeStep(c, s, r, ps);
      case DoViewChange(r, sender, vc) => ViewChangeStep(c, s, r, ps, sender, vc);
      case DoBuild(r, u, choices) => BuildStep(c, s, r, ps, u, choices);
      case DoAnswer(r, l) => AnswerStep(c, s, r, ps, l);
      case DoMissing(r, sender, sn, pp) => MissingStep(c, s, r, ps, sn, pp);
      case DoSendNewView(r) => SendNewViewStep(c, s, r, ps);
      case DoDropNewView(r) => DropStep(c, s, r, ps);
      case DoNewView(r, sender, nv, choices) => AcceptStep(c, s, r, ps, sender, nv, choices);
    }
  }

  lemma AnswerStep(c: Config, s: System, r: int, ps: Peer, l: Loc)
    requires PbftSafety.Inv(c, s) && r in s.peers && ps == s.peers[r]
    ensures StepOk(c, s, After(s, r, OnMissingRequest(ps, l)))
  {
    assert PeerInv(c, r, ps) && c.m.Correct(r);
    if l in ps.slots && ps.slots[l].pp.Some? {
      var m := AnswerIs(s, r, ps, l);
      MessageStep(c, s, m);
    } else {
      IdleStep(c, s, r);
    }
  }

  lemma AnswerIs(s: System, r: int, ps: Peer, l: Loc) returns (m: Msg)
    requires r in s.peers && ps == s.peers[r] && ps.id == r && l in ps.slots && ps.slots[l].pp.Some?
    ensures m.sender == r && m.MissingPreprepareMsg?
    ensures After(s, r, OnMissingRequest(ps, l)) == System(s.peers, s.net + {m})
  {
    m := MissingPreprepareMsg(r, l.sn, ps.slots[l].pp.value);
  }

  /** A message that says nothing about votes of correct peers. */
  ghost predicate Harmless(c: Config, m: Msg) {
    m.sender in c.m.peers && (c.m.Correct(m.sender) ==> m.MissingPreprepareMsg?)
  }

  /** Messages of faulty peers, and answers to requests, change nothing that matters. */
  lemma MessageStep(c: Config, s: System, m: Msg)
    requires PbftSafety.Inv(c, s) && Harmless(c, m)
    ensures StepOk(c, s, System(s.peers, s.net + {m}))
  {
    var s' := System(s.peers, s.net + {m});
    forall k | k in c.sns
      ensures Project(c, s', k) == Project(c, s, k)
      ensures Next(c.m, Project(c, s, k), Project(c, s', k))
    {
      assert ClaimsOf(c, s'.net, k) == ClaimsOf(c, s.net, k);
    }
    forall p | p in s'.peers
      ensures LandsOk(c, s', p, s'.peers[p])
    {
      InvAt(c, s, p);
      OthersLand(c, s, s', p);
    }
    MessageNet(c, s, m);
  }

  lemma MessageNet(c: Config, s: System, m: Msg)
    requires Populated(c, s) && NetInv(c, s) && Harmless(c, m)
    ensures NetInv(c, System(s.peers, s.net + {m}))
  {
    var s' := System(s.peers, s.net + {m});
    forall x | x in s'.net && c.m.Correct(x.sender) && x.CommitMsg?
      ensures SentCommit(s', x.sender, x.sn, x.view, x.digest)
    {
      assert SentCommit(s, x.sender, x.sn, x.view, x.digest);
    }
  }

  lemma StepKeeps(c: Config, s: System, s': System)
    requires PbftSafety.Inv(c, s) && Step(c, s, s')
    ensures StepOk(c, s, s')
  {
    if a: Action :| Enabled(c, s, a) && s' == After(s, a.p, Effect(c, s, a)) {
      ActionStep(c, s, a);
    } else {
      var m: Msg :| m.sender in c.m.faulty && s' == System(s.peers, s.net + {m});
      MessageStep(c, s, m);
    }
  }

  lemma StartInv(c: Config, s: System)
    requires Start(c, s)
    ensures PbftSafety.Inv(c, s)
  {
    assert CountedCommits(FRESH) == {};
    forall p | p in s.peers
      ensures LandsOk(c, s, p, s.peers[p])
    {
      var ps := s.peers[p];
      assert forall sn :: sn in c.sns ==> ps.Here(sn) in ps.slots && ps.slots[ps.Here(sn)] == FRESH;
      assert forall l :: l in ps.slots ==> ps.slots[l] == FRESH;
    }
    forall sn | sn in c.sns
      ensures Voting.Inv(c.m, Project(c, s, sn))
    {
      forall p | p in s.peers
        ensures BallotOf(s.peers[p], sn) == Ballot(0, map[], map[])
      {
        assert forall v :: !AcceptedAt(s.peers[p], sn, v) && !VotedAt(s.peers[p], sn, v);
        assert BallotOf(s.peers[p], sn).accepted == map[];
        assert BallotOf(s.peers[p], sn).voted == map[];
      }
      InitInv(c.m, Project(c, s, sn));
    }
  }

  /** A run of the system. */
  ghost predicate Run(c: Config, run: seq<System>) {
    |run| > 0 && Start(c, run[0]) && forall i :: 0 < i < |run| ==> Step(c, run[i - 1], run[i])
  }

  lemma {:induction false} RunInv(c: Config, run: seq<System>, i: nat)
    requires Run(c, run) && i < |run|
    ensures PbftSafety.Inv(c, run[i])
  {
    if i == 0 {
      StartInv(c, run[0]);
    } else {
      RunInv(c, run, i - 1);
      StepKeeps(c, run[i - 1], run[i]);
    }
  }

  /** Correct peer `p` has committed digest `d` at `l`. */
  ghost predicate Committed(s: System, p: int, l: Loc, d: Digest) {
    p in s.peers && l in s.peers[p].slots && s.peers[p].slots[l].committed && s.peers[p].slots[l].digest == Some(d)
  }

  /** The handlers can always run: a correct peer's state never loses its shape. */
  lemma ReachableRunnable(c: Config, run: seq<System>, i: nat, p: int)
    requires Run(c, run) && i < |run| && c.m.Correct(p)
    ensures p in run[i].peers && Runnable(c, run[i].peers[p])
  {
    RunInv(c, run, i);
  }

  lemma RunPersists(c: Config, run: seq<System>, i: nat)
    requires Run(c, run) && 0 < i < |run|
    ensures AllPersist(run[i - 1], run[i])
  {
    RunInv(c, run, i - 1);
    StepKeeps(c, run[i - 1], run[i]);
  }

  lemma {:induction false} PersistForever(run: seq<System>, i: nat, j: nat, p: int, l: Loc, d: Digest)
    requires forall k :: 0 < k < |run| ==> AllPersist(run[k - 1], run[k])
    requires i <= j < |run| && Committed(run[i], p, l, d)
    ensures Committed(run[j], p, l, d)
  {
    if i < j {
      PersistForever(run, i, j - 1, p, l, d);
      assert Persists(run[j - 1].peers[p], run[j].peers[p]);
    }
  }

  /** A committed slot stays committed, with its digest, for the rest of the run. */
  lemma CommittedForever(c: Config, run: seq<System>, i: nat, j: nat, p: int, l: Loc, d: Digest)
    requires Run(c, run) && i <= j < |run| && Committed(run[i], p, l, d)
    ensures Committed(run[j], p, l, d)
  {
    forall k | 0 < k < |run|
      ensures AllPersist(run[k - 1], run[k])
    {
      RunPersists(c, run, k);
    }
    PersistForever(run, i, j, p, l, d);
  }

  /** A committed slot is committed, with its digest, in every later view the peer enters. */
  lemma CommittedCarried(c: Config, run: seq<System>, i: nat, p: int, l: Loc, d: Digest, k: Loc)
    requires Run(c, run) && i < |run| && Committed(run[i], p, l, d)
    requires k in run[i].peers[p].slots && k.sn == l.sn && l.view <= k.view
    ensures Committed(run[i], p, k, d)
  {
    RunInv(c, run, i);
    InvAt(c, run[i], p);
    assert KeepsPair(run[i].peers[p], l, k);
  }

  /** Agreement: no two correct peers ever commit different digests for one sequence number, at
      any time and in any views. */
  lemma Agreement(c: Config, run: seq<System>, i: nat, j: nat, p: int, l: Loc, d: Digest, q: int, k: Loc, e: Digest)
    requires Run(c, run) && i < |run| && j < |run| && l.sn == k.sn
    requires Committed(run[i], p, l, d) && Committed(run[j], q, k, e)
    ensures d == e
  {
    var n := if i <= j then j else i;
    CommittedForever(c, run, i, n, p, l, d);
    CommittedForever(c, run, j, n, q, k, e);
    RunInv(c, run, n);
    InvAt(c, run[n], p);
    InvAt(c, run[n], q);
    AgreementNow(c, run[n], p, l, d, q, k, e);
  }

  lemma AgreementNow(c: Config, s: System, p: int, l: Loc, d: Digest, q: int, k: Loc, e: Digest)
    requires Committed(s, p, l, d) && Committed(s, q, k, e) && l.sn == k.sn
    requires LandsOk(c, s, p, s.peers[p]) && LandsOk(c, s, q, s.peers[q])
    requires Voting.Inv(c.m, Project(c, s, l.sn))
    ensures d == e
  {
    assert SlotFacts(c, s, l.view, l.sn, s.peers[p].slots[l]) && SlotFacts(c, s, k.view, k.sn, s.peers[q].slots[k]);
    var v: int :| Chosen(c.m, Project(c, s, l.sn), v, d);
    var w: int :| Chosen(c.m, Project(c, s, l.sn), w, e);
    ChosenAgree(c.m, Project(c, s, l.sn), v, d, w, e);
  }

  /** Every proposal a correct peer works on is safe: no other digest has been, or can still be,
      decided for the slot in an earlier view. */
  lemma AcceptedSafe(c: Config, run: seq<System>, i: nat, p: int, l: Loc)
    requires Run(c, run) && i < |run| && c.m.Correct(p)
    requires p in run[i].peers && l in run[i].peers[p].slots && run[i].peers[p].slots[l].preprepared
    ensures run[i].peers[p].slots[l].digest.Some?
    ensures Safe(c.m, Project(c, run[i], l.sn), l.view, run[i].peers[p].slots[l].digest.value)
  {
    RunInv(c, run, i);
    InvAt(c, run[i], p);
    AcceptedSafeNow(c, run[i], p, l);
  }

  lemma AcceptedSafeNow(c: Config, s: System, p: int, l: Loc)
    requires p in s.peers && PeerInv(c, p, s.peers[p]) && l in s.peers[p].slots && s.peers[p].slots[l].preprepared
    requires Voting.Inv(c.m, Project(c, s, l.sn))
    ensures s.peers[p].slots[l].digest.Some?
    ensures Safe(c.m, Project(c, s, l.sn), l.view, s.peers[p].slots[l].digest.value)
  {
    var ps, st := s.peers[p], Project(c, s, l.sn);
    assert SlotInv(l.view, ps.slots[l]) && l == Loc(l.view, l.sn);
    assert AcceptedAt(ps, l.sn, l.view);
    assert BallotInv(c.m, st, st.ballots[p]);
  }
}
