/** How often a slot can be prepared in view 0. A leader's own PREPARE counts, so a prepared certificate has only 2f
    senders, and two of them need not share a correct one. */
module PbftPrepared {
  import opened Collections
  import opened Quorums
  import opened Voting
  import opened PbftPeer
  import opened PbftSafety
  import PbftProof

  /** Correct peer `p` has prepared `d` for `sn` in view 0. */
  ghost predicate PreparedAs(s: System, p: int, sn: int, d: Digest) {
    && p in s.peers && Loc(0, sn) in s.peers[p].slots
    && s.peers[p].slots[Loc(0, sn)].prepared && s.peers[p].slots[Loc(0, sn)].digest == Some(d)
  }

  // ---------- What a step does to a slot of view 0 ----------

  /** What the peer `r` may do to its slot `sn` of view 0, given the messages sent before and after. */
  ghost predicate SlotGrows(c: Config, net: set<Msg>, net': set<Msg>, r: int, sn: int, sl: Slot, sl': Slot)
    requires |c.leaders| > 0
  {
    && (sl.preprepared ==>
          && sl'.preprepared && sl'.digest == sl.digest
          && forall q :: q in sl.prepares ==> q in sl'.prepares && sl'.prepares[q] == sl.prepares[q])
    && (forall q :: q in sl'.prepares ==>
          (q in sl.prepares && sl'.prepares[q] == sl.prepares[q]) || PrepareMsg(q, sn, 0, sl'.prepares[q]) in net')
    && (sl'.prepared && !sl.prepared ==> sl'.preprepared && |MatchingPrepares(sl')| >= 2 * c.F())
    && (sl.prepared ==> sl'.prepared)
    && (sl'.preprepared && !sl.preprepared ==>
          sl'.digest.Some? && (r == c.Leader(0) || Announced(c, net, sn, sl'.digest.value)))
  }

  /** The leader of view 0 has proposed `d`. */
  ghost predicate Announced(c: Config, net: set<Msg>, sn: int, d: Digest)
    requires |c.leaders| > 0
  {
    exists pp: Preprepare :: PreprepareMsg(c.Leader(0), pp) in net && pp.sn == sn && pp.view == 0 && pp.digest == d
  }

  /** The messages `r` adds speak for its slots of view 0. */
  ghost predicate SendsMatch(c: Config, net: set<Msg>, net': set<Msg>, r: int, slots: map<Loc, Slot>)
    requires |c.leaders| > 0
  {
    forall m :: m in net' && m !in net ==>
      && (m.PrepareMsg? && m.view == 0 ==> m.sender == r && Proposed(slots, m.sn, m.digest))
      && (m.PreprepareMsg? && m.pp.view == 0 ==> m.sender == r == c.Leader(0) && Proposed(slots, m.pp.sn, m.pp.digest))
  }

  ghost predicate Proposed(slots: map<Loc, Slot>, sn: int, d: Digest) {
    Loc(0, sn) in slots && slots[Loc(0, sn)].preprepared && slots[Loc(0, sn)].digest == Some(d)
  }

  ghost predicate ZeroStep(c: Config, net: set<Msg>, net': set<Msg>, r: int, ps: Peer, ps': Peer)
    requires |c.leaders| > 0
  {
    && (forall l :: l in ps.slots ==> l in ps'.slots)
    && (forall sn :: Loc(0, sn) in ps'.slots ==> Loc(0, sn) in ps.slots)
    && (forall sn :: Loc(0, sn) in ps.slots ==>
          SlotGrows(c, net, net', r, sn, ps.slots[Loc(0, sn)], ps'.slots[Loc(0, sn)]))
    && SendsMatch(c, net, net', r, ps'.slots)
  }

  /** The common tail of the handlers. */
  lemma FinishGrows(c: Config, net: set<Msg>, net': set<Msg>, r: int, sn: int, sl: Slot, sl1: Slot, release: bool)
    requires |c.leaders| > 0 && (sl1.preprepared ==> sl1.digest.Some?) && SlotGrows(c, net, net', r, sn, sl, sl1)
    ensures SlotGrows(c, net, net', r, sn, sl, TryCommit(c, TryPrepare(c, r, sl1), release))
  {
    var sl2 := TryPrepare(c, r, sl1);
    var sl3 := TryCommit(c, sl2, release);
    assert sl3.prepares == sl1.prepares && sl3.digest == sl1.digest && sl3.preprepared == sl1.preprepared;
    assert MatchingPrepares(sl3) == MatchingPrepares(sl1);
  }

  lemma SetZero(c: Config, net: set<Msg>, net': set<Msg>, r: int, ps: Peer, sn: int, sl': Slot)
    requires |c.leaders| > 0 && ps.Here(sn) in ps.slots
    requires ps.view == 0 ==> SlotGrows(c, net, net', r, sn, ps.slots[ps.Here(sn)], sl')
    requires SendsMatch(c, net, net', r, SetSlot(ps, sn, sl').slots)
    ensures ZeroStep(c, net, net', r, ps, SetSlot(ps, sn, sl'))
  {
  }

  /** Steps that leave view 0 alone. */
  lemma SameZero(c: Config, net: set<Msg>, sent: set<Msg>, r: int, ps: Peer, ps': Peer)
    requires |c.leaders| > 0
    requires forall l :: l in ps.slots ==> l in ps'.slots
    requires forall sn :: Loc(0, sn) in ps'.slots ==>
               Loc(0, sn) in ps.slots && ps'.slots[Loc(0, sn)] == ps.slots[Loc(0, sn)]
    requires forall m :: m in sent ==> !m.PreprepareMsg? && (m.PrepareMsg? ==> m.view > 0)
    ensures ZeroStep(c, net, net + sent, r, ps, ps')
  {
  }

  lemma ProposeZero(c: Config, net: set<Msg>, r: int, ps: Peer, sn: int, d: Digest)
    requires |c.leaders| > 0 && ps.id == r == c.Leader(0) && ps.view == 0 && ps.Here(sn) in ps.slots
    requires SlotOk(ps.slots[ps.Here(sn)]) && ps.slots[ps.Here(sn)].pp.None?
    ensures var o := Propose(ps, sn, d); ZeroStep(c, net, net + o.sent, r, ps, o.peer)
  {
    var o := Propose(ps, sn, d);
    var sl' := o.peer.slots[ps.Here(sn)];
    assert SlotGrows(c, net, net + o.sent, r, sn, ps.slots[ps.Here(sn)], sl');
    SetZero(c, net, net + o.sent, r, ps, sn, sl');
  }

  lemma AcceptGrows(c: Config, net: set<Msg>, net': set<Msg>, r: int, sn: int, sl: Slot, pp: Preprepare)
    requires |c.leaders| > 0 && SlotOk(sl) && sl.pp.None? && PrepareMsg(r, sn, 0, pp.digest) in net'
    requires Announced(c, net, sn, pp.digest)
    ensures SlotGrows(c, net, net', r, sn, sl, AcceptedSlot(r, sl, pp))
  {
  }

  lemma AcceptSends(c: Config, net: set<Msg>, r: int, ps: Peer, sn: int, pp: Preprepare, o: Outcome)
    requires |c.leaders| > 0 && ps.Here(sn) in o.peer.slots
    requires o.peer.slots[ps.Here(sn)].preprepared && o.peer.slots[ps.Here(sn)].digest == Some(pp.digest)
    requires forall m :: m in o.sent ==> m == PrepareMsg(r, sn, ps.view, pp.digest) || m.CommitMsg?
    ensures SendsMatch(c, net, net + o.sent, r, o.peer.slots)
  {
  }

  lemma AcceptZero(c: Config, net: set<Msg>, r: int, ps: Peer, sender: int, sn: int, pp: Preprepare, release: bool)
    requires |c.leaders| > 0 && ps.id == r && Considered(c, ps, sender, sn, pp) && PreprepareMsg(sender, pp) in net
    requires SlotOk(ps.slots[ps.Here(sn)])
    ensures var o := Finish(c, ps, sn, AcceptedSlot(r, ps.slots[ps.Here(sn)], pp), release,
                            {PrepareMsg(r, sn, ps.view, pp.digest)});
            ZeroStep(c, net, net + o.sent, r, ps, o.peer)
  {
    var sl := ps.slots[ps.Here(sn)];
    var sl1 := AcceptedSlot(r, sl, pp);
    var m := PrepareMsg(r, sn, ps.view, pp.digest);
    var o := Finish(c, ps, sn, sl1, release, {m});
    var sl' := o.peer.slots[ps.Here(sn)];
    assert m in o.sent;
    AcceptSends(c, net, r, ps, sn, pp, o);
    if ps.view == 0 {
      assert Announced(c, net, sn, pp.digest);
      AcceptGrows(c, net, net + o.sent, r, sn, sl, pp);
      FinishGrows(c, net, net + o.sent, r, sn, sl, sl1, release);
    }
    SetZero(c, net, net + o.sent, r, ps, sn, sl');
  }

  lemma PrepareZero(c: Config, net: set<Msg>, r: int, ps: Peer, sender: int, sn: int, view: nat, d: Digest,
                    release: bool)
    requires |c.leaders| > 0 && ps.id == r && Digested(ps) && PrepareMsg(sender, sn, view, d) in net
    requires ps.Here(sn) in ps.slots ==> SlotOk(ps.slots[ps.Here(sn)])
    ensures var o := OnPrepare(c, ps, sender, sn, view, d, release); ZeroStep(c, net, net + o.sent, r, ps, o.peer)
  {
    var o := OnPrepare(c, ps, sender, sn, view, d, release);
    if Active(ps, sn, view) && sender !in ps.slots[ps.Here(sn)].prepares {
      var sl := ps.slots[ps.Here(sn)];
      var sl1 := sl.(prepares := sl.prepares[sender := d]);
      if ps.view == 0 {
        assert SlotGrows(c, net, net + o.sent, r, sn, sl, sl1);
        FinishGrows(c, net, net + o.sent, r, sn, sl, sl1, release);
      }
      SetZero(c, net, net + o.sent, r, ps, sn, o.peer.slots[ps.Here(sn)]);
    } else {
      SameZero(c, net, o.sent, r, ps, o.peer);
    }
  }

  lemma CommitZero(c: Config, net: set<Msg>, r: int, ps: Peer, sender: int, sn: int, view: nat, d: Digest,
                   release: bool)
    requires |c.leaders| > 0
    ensures var o := OnCommit(c, ps, sender, sn, view, d, release); ZeroStep(c, net, net + o.sent, r, ps, o.peer)
  {
    var o := OnCommit(c, ps, sender, sn, view, d, release);
    if Active(ps, sn, view) && sender !in ps.slots[ps.Here(sn)].commits {
      var sl, sl' := ps.slots[ps.Here(sn)], o.peer.slots[ps.Here(sn)];
      assert SlotGrows(c, net, net + o.sent, r, sn, sl, sl');
      SetZero(c, net, net + o.sent, r, ps, sn, sl');
    } else {
      SameZero(c, net, o.sent, r, ps, o.peer);
    }
  }

  lemma ReleaseZero(c: Config, net: set<Msg>, r: int, ps: Peer, sn: int)
    requires |c.leaders| > 0 && ps.Here(sn) in ps.slots
    ensures var o := Release(c, ps, sn); ZeroStep(c, net, net + o.sent, r, ps, o.peer)
  {
    var o := Release(c, ps, sn);
    if EnoughCommits(c, ps.slots[ps.Here(sn)]) {
      SetZero(c, net, net + o.sent, r, ps, sn, o.peer.slots[ps.Here(sn)]);
    } else {
      SameZero(c, net, o.sent, r, ps, o.peer);
    }
  }

  lemma LeaveZero(c: Config, net: set<Msg>, r: int, ps: Peer)
    requires Shape(c, ps)
    ensures var o := SendViewChange(c, ps); ZeroStep(c, net, net + o.sent, r, ps, o.peer)
  {
    var o := SendViewChange(c, ps);
    SameZero(c, net, o.sent, r, ps, o.peer);
  }

  lemma BuildZero(c: Config, net: set<Msg>, r: int, ps: Peer, u: nat, choices: map<int, Choice>)
    requires CanBuild(c, ps, u, choices)
    ensures var o := BuildNewView(c, ps, u, choices); ZeroStep(c, net, net + o.sent, r, ps, o.peer)
  {
    var o := BuildNewView(c, ps, u, choices);
    SameZero(c, net, o.sent, r, ps, o.peer);
  }

  lemma SendNewViewZero(c: Config, net: set<Msg>, r: int, ps: Peer)
    requires CanAnnounce(c, ps) && ps.view > 0
    ensures var o := SendNewView(c, ps); ZeroStep(c, net, net + o.sent, r, ps, o.peer)
  {
    var o := SendNewView(c, ps);
    SameZero(c, net, o.sent, r, ps, o.peer);
  }

  lemma AcceptNewViewZero(c: Config, net: set<Msg>, r: int, ps: Peer, sender: int, nv: NewView,
                          choices: map<int, Choice>)
    requires CanAccept(c, ps, sender, nv, choices) && DecidedDigested(ps)
    ensures var o := AcceptNewView(c, ps, sender, nv, choices); ZeroStep(c, net, net + o.sent, r, ps, o.peer)
  {
    var o := AcceptNewView(c, ps, sender, nv, choices);
    SameZero(c, net, o.sent, r, ps, o.peer);
  }

  lemma PreprepareZero(c: Config, net: set<Msg>, r: int, ps: Peer, sender: int, sn: int, pp: Preprepare, adm: Admission,
                       release: bool)
    requires Runnable(c, ps) && ps.id == r && PreprepareMsg(sender, pp) in net
    ensures var o := OnPreprepare(c, ps, sender, sn, pp, adm, release); ZeroStep(c, net, net + o.sent, r, ps, o.peer)
  {
    var o := PbftProof.PreprepareCases(c, ps, sender, sn, pp, adm, release);
    if Considered(c, ps, sender, sn, pp) && adm.Admit? {
      AcceptZero(c, net, r, ps, sender, sn, pp, release);
    } else if o == SendViewChange(c, ps) {
      LeaveZero(c, net, r, ps);
    } else {
      SameZero(c, net, o.sent, r, ps, o.peer);
    }
  }

  lemma ActionZero(c: Config, s: System, a: Action)
    requires Enabled(c, s, a) && s.peers[a.p].id == a.p && (s.peers[a.p].view == 0 ==> !s.peers[a.p].inViewChange)
    ensures var o := Effect(c, s, a); ZeroStep(c, s.net, s.net + o.sent, a.p, s.peers[a.p], o.peer)
  {
    var ps := s.peers[a.p];
    match a
    case DoPropose(p, sn, d) => ProposeZero(c, s.net, p, ps, sn, d);
    case DoPreprepare(p, sender, sn, pp, adm, release) => PreprepareZero(c, s.net, p, ps, sender, sn, pp, adm, release);
    case DoPrepare(p, sender, sn, view, d, release) => PrepareZero(c, s.net, p, ps, sender, sn, view, d, release);
    case DoCommit(p, sender, sn, view, d, release) => CommitZero(c, s.net, p, ps, sender, sn, view, d, release);
    case DoRelease(p, sn) => ReleaseZero(c, s.net, p, ps, sn);
    case DoTimeout(p) => LeaveZero(c, s.net, p, ps);
    case DoViewChange(p, sender, vc) => SameZero(c, s.net, {}, p, ps, OnViewChange(ps, sender, vc).peer);
    case DoBuild(p, u, choices) => BuildZero(c, s.net, p, ps, u, choices);
    case DoAnswer(p, l) => SameZero(c, s.net, Effect(c, s, a).sent, p, ps, ps);
    case DoMissing(p, sender, sn, pp) => SameZero(c, s.net, {}, p, ps, OnMissingPreprepare(ps, sn, pp).peer);
    case DoSendNewView(p) => SendNewViewZero(c, s.net, p, ps);
    case DoDropNewView(p) => SameZero(c, s.net, {}, p, ps, DropNewView(ps).peer);
    case DoNewView(p, sender, nv, choices) => AcceptNewViewZero(c, s.net, p, ps, sender, nv, choices);
  }

  // ---------- What holds of the slots of view 0 in every run ----------

  ghost predicate SlotBacked(c: Config, net: set<Msg>, p: int, sn: int, sl: Slot)
    requires |c.leaders| > 0
  {
    && (forall q :: q in sl.prepares ==> PrepareMsg(q, sn, 0, sl.prepares[q]) in net)
    && (sl.prepared ==> sl.preprepared && |MatchingPrepares(sl)| >= 2 * c.F())
    && (sl.preprepared ==> sl.digest.Some? && (p == c.Leader(0) || Announced(c, net, sn, sl.digest.value)))
  }

  ghost predicate PeerZero(c: Config, net: set<Msg>, p: int, ps: Peer)
    requires |c.leaders| > 0
  {
    forall sn :: Loc(0, sn) in ps.slots ==> SlotBacked(c, net, p, sn, ps.slots[Loc(0, sn)])
  }

  /** PREPAREs and proposals of correct peers agree with their slots. */
  ghost predicate NetZero(c: Config, s: System)
    requires |c.leaders| > 0
  {
    forall m :: m in s.net && m.sender in s.peers ==>
      && (m.PrepareMsg? && m.view == 0 ==> Proposed(s.peers[m.sender].slots, m.sn, m.digest))
      && (m.PreprepareMsg? && m.pp.view == 0 ==> Proposed(s.peers[m.sender].slots, m.pp.sn, m.pp.digest))
  }

  ghost predicate ZeroInv(c: Config, s: System)
    requires |c.leaders| > 0
  {
    NetZero(c, s) && forall p :: p in s.peers ==> PeerZero(c, s.net, p, s.peers[p])
  }

  lemma GrownBacked(c: Config, net: set<Msg>, net': set<Msg>, r: int, sn: int, sl: Slot, sl': Slot)
    requires |c.leaders| > 0 && net <= net' && SlotBacked(c, net, r, sn, sl) && SlotGrows(c, net, net', r, sn, sl, sl')
    ensures SlotBacked(c, net', r, sn, sl')
  {
    if sl.preprepared && sl.digest.Some? && r != c.Leader(0) {
      AnnouncedStays(c, net, net', sn, sl.digest.value);
    }
    if sl'.preprepared && !sl.preprepared && r != c.Leader(0) {
      AnnouncedStays(c, net, net', sn, sl'.digest.value);
    }
    if sl.prepared {
      forall x | x in MatchingPrepares(sl)
        ensures x in MatchingPrepares(sl')
      {
      }
      SubsetSize(MatchingPrepares(sl), MatchingPrepares(sl'));
    }
  }

  lemma AnnouncedStays(c: Config, net: set<Msg>, net': set<Msg>, sn: int, d: Digest)
    requires |c.leaders| > 0 && net <= net' && Announced(c, net, sn, d)
    ensures Announced(c, net', sn, d)
  {
    var pp: Preprepare :| PreprepareMsg(c.Leader(0), pp) in net && pp.sn == sn && pp.view == 0 && pp.digest == d;
    assert PreprepareMsg(c.Leader(0), pp) in net';
  }

  lemma BackedStays(c: Config, net: set<Msg>, net': set<Msg>, p: int, ps: Peer)
    requires |c.leaders| > 0 && net <= net' && PeerZero(c, net, p, ps)
    ensures PeerZero(c, net', p, ps)
  {
    forall sn | Loc(0, sn) in ps.slots
      ensures SlotBacked(c, net', p, sn, ps.slots[Loc(0, sn)])
    {
      var sl := ps.slots[Loc(0, sn)];
      if sl.preprepared && p != c.Leader(0) {
        AnnouncedStays(c, net, net', sn, sl.digest.value);
      }
    }
  }

  lemma ActionKeeps(c: Config, s: System, a: Action)
    requires PbftSafety.Inv(c, s) && Enabled(c, s, a) && ZeroInv(c, s)
    ensures var o := Effect(c, s, a); ZeroInv(c, System(s.peers[a.p := o.peer], s.net + o.sent))
  {
    var o := Effect(c, s, a);
    assert PeerInv(c, a.p, s.peers[a.p]);
    ActionZero(c, s, a);
    ZeroKeeps(c, s, System(s.peers[a.p := o.peer], s.net + o.sent), a.p);
  }

  lemma ZeroKeeps(c: Config, s: System, s': System, r: int)
    requires |c.leaders| > 0 && ZeroInv(c, s) && s.net <= s'.net && r in s.peers && r in s'.peers
    requires s'.peers == s.peers[r := s'.peers[r]]
    requires ZeroStep(c, s.net, s'.net, r, s.peers[r], s'.peers[r])
    ensures ZeroInv(c, s')
  {
    forall p | p in s'.peers
      ensures PeerZero(c, s'.net, p, s'.peers[p])
    {
      if p == r {
        var ps, ps' := s.peers[r], s'.peers[r];
        forall sn | Loc(0, sn) in ps'.slots
          ensures SlotBacked(c, s'.net, r, sn, ps'.slots[Loc(0, sn)])
        {
          GrownBacked(c, s.net, s'.net, r, sn, ps.slots[Loc(0, sn)], ps'.slots[Loc(0, sn)]);
        }
      } else {
        BackedStays(c, s.net, s'.net, p, s.peers[p]);
      }
    }
    NetKeeps(c, s, s', r);
  }

  lemma NetKeeps(c: Config, s: System, s': System, r: int)
    requires |c.leaders| > 0 && NetZero(c, s) && r in s.peers && r in s'.peers && s'.peers == s.peers[r := s'.peers[r]]
    requires ZeroStep(c, s.net, s'.net, r, s.peers[r], s'.peers[r])
    ensures NetZero(c, s')
  {
    forall m | m in s'.net && m.sender in s'.peers
      ensures m.PrepareMsg? && m.view == 0 ==> Proposed(s'.peers[m.sender].slots, m.sn, m.digest)
      ensures m.PreprepareMsg? && m.pp.view == 0 ==> Proposed(s'.peers[m.sender].slots, m.pp.sn, m.pp.digest)
    {
      if m in s.net && m.sender == r && (m.PrepareMsg? || m.PreprepareMsg?) {
        var sn := if m.PrepareMsg? then m.sn else m.pp.sn;
        if Loc(0, sn) in s.peers[r].slots {
          assert SlotGrows(c, s.net, s'.net, r, sn, s.peers[r].slots[Loc(0, sn)], s'.peers[r].slots[Loc(0, sn)]);
        }
      }
    }
  }

  lemma FaultyKeeps(c: Config, s: System, m: Msg)
    requires Populated(c, s) && ZeroInv(c, s) && m.sender in c.m.faulty
    ensures ZeroInv(c, System(s.peers, s.net + {m}))
  {
    forall p | p in s.peers
      ensures PeerZero(c, s.net + {m}, p, s.peers[p])
    {
      BackedStays(c, s.net, s.net + {m}, p, s.peers[p]);
    }
  }

  lemma StepKeeps(c: Config, s: System, s': System)
    requires PbftSafety.Inv(c, s) && ZeroInv(c, s) && Step(c, s, s')
    ensures ZeroInv(c, s')
  {
    if a: Action :| Enabled(c, s, a) && s' == PbftProof.After(s, a.p, Effect(c, s, a)) {
      ActionKeeps(c, s, a);
    } else {
      var m: Msg :| m.sender in c.m.faulty && s' == System(s.peers, s.net + {m});
      FaultyKeeps(c, s, m);
    }
  }

  lemma {:induction false} RunZero(c: Config, run: seq<System>, i: nat)
    requires PbftProof.Run(c, run) && i < |run|
    ensures PbftSafety.Inv(c, run[i]) && ZeroInv(c, run[i])
  {
    PbftProof.RunInv(c, run, i);
    if i == 0 {
      StartZero(c, run[0]);
    } else {
      RunZero(c, run, i - 1);
      StepKeeps(c, run[i - 1], run[i]);
    }
  }

  lemma StartZero(c: Config, s: System)
    requires Start(c, s)
    ensures ZeroInv(c, s)
  {
    forall p | p in s.peers
      ensures PeerZero(c, s.net, p, s.peers[p])
    {
      assert forall l :: l in s.peers[p].slots ==> s.peers[p].slots[l] == FRESH;
    }
  }

  // ---------- When preparedness is unique ----------

  /** With a correct leader, everyone has what it proposed. */
  lemma LeaderDecides(c: Config, s: System, p: int, sn: int, d: Digest)
    requires |c.leaders| > 0 && ZeroInv(c, s) && c.Leader(0) in s.peers && PreparedAs(s, p, sn, d)
    ensures Proposed(s.peers[c.Leader(0)].slots, sn, d)
  {
    assert SlotBacked(c, s.net, p, sn, s.peers[p].slots[Loc(0, sn)]);
    if p != c.Leader(0) {
      var pp: Preprepare :| PreprepareMsg(c.Leader(0), pp) in s.net && pp.sn == sn && pp.view == 0 && pp.digest == d;
    }
  }

  /** The senders of the PREPAREs behind a prepared slot. */
  lemma Certificate(c: Config, s: System, p: int, sn: int, d: Digest) returns (a: set<int>)
    requires |c.leaders| > 0 && NetInv(c, s) && p in s.peers && PeerZero(c, s.net, p, s.peers[p])
    requires PreparedAs(s, p, sn, d)
    ensures a <= c.m.peers && |a| >= 2 * c.F() && forall x :: x in a ==> PrepareMsg(x, sn, 0, d) in s.net
  {
    var sl := s.peers[p].slots[Loc(0, sn)];
    assert SlotBacked(c, s.net, p, sn, sl);
    a := MatchingPrepares(sl);
    assert |a| >= 2 * c.F();
    forall x | x in a
      ensures PrepareMsg(x, sn, 0, d) in s.net
    {
    }
    forall x | x in a
      ensures x in c.m.peers
    {
      assert PrepareMsg(x, sn, 0, d) in s.net;
      assert PrepareMsg(x, sn, 0, d).sender in c.m.peers;
    }
  }

  /** A correct peer sends PREPARE for one digest only. */
  lemma OnePrepare(c: Config, s: System, x: int, sn: int, d: Digest, e: Digest)
    requires |c.leaders| > 0 && NetZero(c, s) && x in s.peers
    requires PrepareMsg(x, sn, 0, d) in s.net && PrepareMsg(x, sn, 0, e) in s.net
    ensures d == e
  {
    var m, n := PrepareMsg(x, sn, 0, d), PrepareMsg(x, sn, 0, e);
    assert Proposed(s.peers[m.sender].slots, m.sn, m.digest) && Proposed(s.peers[n.sender].slots, n.sn, n.digest);
  }

  /** Two certificates for different digests share only faulty senders. */
  lemma CertificatesApart(c: Config, s: System, a: set<int>, b: set<int>, sn: int, d: Digest, e: Digest)
    requires Populated(c, s) && NetZero(c, s) && d != e && a <= c.m.peers && b <= c.m.peers
    requires |a| >= 2 * c.F() && forall x :: x in a ==> PrepareMsg(x, sn, 0, d) in s.net
    requires |b| >= 2 * c.F() && forall x :: x in b ==> PrepareMsg(x, sn, 0, e) in s.net
    ensures |c.m.faulty| + 1 >= c.F()
  {
    forall x | x in a && x in b
      ensures x in c.m.faulty
    {
      if x in s.peers {
        OnePrepare(c, s, x, sn, d, e);
      }
    }
    OverlapSize(a, b, c.m.peers);
    SubsetSize(a * b, c.m.faulty);
  }

  /** Whether correct peers can prepare different digests for one slot of view 0 in some run. */
  ghost predicate CanDiffer(c: Config) {
    exists run: seq<System>, p: int, q: int, sn: int, d: Digest, e: Digest ::
      Differ(c, run, p, q, sn, d, e)
  }

  ghost predicate Differ(c: Config, run: seq<System>, p: int, q: int, sn: int, d: Digest, e: Digest) {
    && PbftProof.Run(c, run) && d != e
    && PreparedAs(run[|run| - 1], p, sn, d) && PreparedAs(run[|run| - 1], q, sn, e)
  }

  lemma DifferNeeds(c: Config, run: seq<System>, p: int, q: int, sn: int, d: Digest, e: Digest)
    requires Differ(c, run, p, q, sn, d, e)
    ensures c.Leader(0) in c.m.faulty && |c.m.faulty| + 1 >= c.F()
  {
    var s := run[|run| - 1];
    RunZero(c, run, |run| - 1);
    var a := Certificate(c, s, p, sn, d);
    var b := Certificate(c, s, q, sn, e);
    CertificatesApart(c, s, a, b, sn, d, e);
    if c.Leader(0) in s.peers {
      LeaderDecides(c, s, p, sn, d);
      LeaderDecides(c, s, q, sn, e);
    } else {
      var pp := AcceptedFrom(c, s, p, sn, d);
    }
  }

  /** A prepared slot of a peer that is not the leader goes back to a proposal of the leader. */
  lemma AcceptedFrom(c: Config, s: System, p: int, sn: int, d: Digest) returns (pp: Preprepare)
    requires Populated(c, s) && NetInv(c, s) && ZeroInv(c, s) && PreparedAs(s, p, sn, d) && c.Leader(0) !in s.peers
    ensures PreprepareMsg(c.Leader(0), pp) in s.net && c.Leader(0) in c.m.faulty
  {
    assert SlotBacked(c, s.net, p, sn, s.peers[p].slots[Loc(0, sn)]);
    pp :| PreprepareMsg(c.Leader(0), pp) in s.net && pp.sn == sn && pp.view == 0 && pp.digest == d;
    assert PreprepareMsg(c.Leader(0), pp).sender in c.m.peers;
  }
}
