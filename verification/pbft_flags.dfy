/** When a correct leader can send a NEWVIEW that correct peers turn down. */
module PbftFlags {
  import opened Collections
  import opened Quorums
  import opened Voting
  import opened PbftPeer
  import opened PbftSafety
  import opened PbftNewView
  import opened PbftRuns
  import opened PbftLostFlag
  import PbftPrepared
  import PbftProof

  // ---------- A single peer prepares nothing ----------

  ghost predicate Unprepared(slots: map<Loc, Slot>) {
    forall l :: l in slots ==> !slots[l].prepared
  }

  /** What the step of a peer without others does. */
  ghost predicate LoneStep(ps: Peer, o: Outcome) {
    && Unprepared(o.peer.slots)
    && (forall u :: InfoFor(ps, u).accepted ==> InfoFor(o.peer, u).accepted)
    && (forall m :: m in o.sent ==>
          && !m.PrepareMsg?
          && (m.PreprepareMsg? ==> m.pp.view == 0)
          && (m.ViewChangeMsg? ==> m.vc.pset == map[])
          && (m.NewViewMsg? ==> InfoFor(o.peer, m.nv.view).accepted))
  }

  /** Nothing is prepared or reported as prepared, and every NEWVIEW sent has been dealt with by its sender. */
  ghost predicate LoneInv(s: System) {
    && (forall p :: p in s.peers ==> Unprepared(s.peers[p].slots))
    && (forall m :: m in s.net && m.sender in s.peers ==>
          && !m.PrepareMsg?
          && (m.PreprepareMsg? ==> m.pp.view == 0)
          && (m.ViewChangeMsg? ==> m.vc.pset == map[])
          && (m.NewViewMsg? ==> InfoFor(s.peers[m.sender], m.nv.view).accepted))
  }

  lemma {:induction false} NoneLatest(slots: map<Loc, Slot>, sn: int, v: nat)
    requires Unprepared(slots)
    ensures LatestPrepared(slots, sn, v).None?
  {
    if v > 0 {
      NoneLatest(slots, sn, v - 1);
    }
  }

  lemma EmptyPset(c: Config, slots: map<Loc, Slot>, v: nat)
    requires Unprepared(slots)
    ensures PsetAt(c, slots, v) == map[]
  {
    forall sn | sn in c.sns
      ensures LatestPrepared(slots, sn, v).None?
    {
      NoneLatest(slots, sn, v);
    }
  }

  lemma LeaveLone(c: Config, ps: Peer)
    requires Shape(c, ps) && Unprepared(ps.slots)
    ensures LoneStep(ps, SendViewChange(c, ps))
  {
    var o := SendViewChange(c, ps);
    var ps1 := Entered(c, ps, Following(ps.view));
    assert o.peer.slots == ps1.slots && Unprepared(ps1.slots);
    EmptyPset(c, ps1.slots, ps1.view);
  }

  /** A proposal of the peer itself is not taken up. */
  lemma PreprepareLone(c: Config, ps: Peer, sender: int, sn: int, pp: Preprepare, adm: Admission, release: bool)
    requires Runnable(c, ps) && Unprepared(ps.slots) && !Considered(c, ps, sender, sn, pp)
    ensures LoneStep(ps, OnPreprepare(c, ps, sender, sn, pp, adm, release))
  {
    var o := PbftProof.PreprepareCases(c, ps, sender, sn, pp, adm, release);
    LeaveLone(c, ps);
  }

  lemma BuildLone(c: Config, ps: Peer, u: nat, choices: map<int, Choice>)
    requires CanBuild(c, ps, u, choices) && Unprepared(ps.slots)
    ensures LoneStep(ps, BuildNewView(c, ps, u, choices))
  {
  }

  lemma SendLone(c: Config, ps: Peer)
    requires CanAnnounce(c, ps) && Unprepared(ps.slots)
    ensures LoneStep(ps, SendNewView(c, ps))
  {
  }

  lemma CommitLone(c: Config, ps: Peer, sender: int, sn: int, view: nat, d: Digest, release: bool)
    requires Unprepared(ps.slots)
    ensures LoneStep(ps, OnCommit(c, ps, sender, sn, view, d, release))
  {
  }

  /** Peers with no other members get messages from themselves alone. */
  lemma OnlyItself(c: Config, s: System, p: int, m: Msg)
    requires c.Valid() && c.F() == 0 && NetInv(c, s) && c.m.Correct(p) && m in s.net
    ensures m.sender == p
  {
    if m.sender != p {
      SubsetSize({p, m.sender}, c.m.peers);
    }
  }

  /** What the peer has proposed itself it does not take up. */
  lemma NotConsidered(c: Config, s: System, a: Action)
    requires PbftSafety.Inv(c, s) && PbftPrepared.ZeroInv(c, s) && LoneInv(s) && c.F() == 0
    requires a.DoPreprepare? && Enabled(c, s, a)
    ensures !Considered(c, s.peers[a.p], a.sender, a.sn, a.pp)
  {
    var ps, m := s.peers[a.p], PreprepareMsg(a.sender, a.pp);
    OnlyItself(c, s, a.p, m);
    assert PeerInv(c, a.p, ps);
    assert m.sender in s.peers && m.pp.view == 0 && PbftPrepared.Proposed(ps.slots, a.pp.sn, a.pp.digest);
  }

  /** PREPAREs are not sent, and a NEWVIEW comes back after it has been dealt with. */
  lemma NotReceived(c: Config, s: System, a: Action)
    requires PbftSafety.Inv(c, s) && LoneInv(s) && c.F() == 0 && Enabled(c, s, a)
    ensures !a.DoPrepare? && !a.DoNewView?
  {
    if a.DoPrepare? {
      OnlyItself(c, s, a.p, PrepareMsg(a.sender, a.sn, a.view, a.d));
    } else if a.DoNewView? {
      OnlyItself(c, s, a.p, NewViewMsg(a.sender, a.nv));
    }
  }

  /** Steps that leave the slots alone and send no votes. */
  lemma SameSlots(ps: Peer, o: Outcome)
    requires Unprepared(ps.slots) && o.peer.slots == ps.slots
    requires forall u :: InfoFor(ps, u).accepted ==> InfoFor(o.peer, u).accepted
    requires forall m :: m in o.sent ==> m.MissingPreprepareMsg?
    ensures LoneStep(ps, o)
  {
  }

  lemma OneSlot(ps: Peer, sn: int, sl: Slot, sent: set<Msg>)
    requires Unprepared(ps.slots) && !sl.prepared
    requires forall m :: m in sent ==> m.PreprepareMsg? && m.pp.view == 0
    ensures LoneStep(ps, Outcome(SetSlot(ps, sn, sl), sent))
  {
  }

  lemma ReleaseLone(c: Config, ps: Peer, sn: int)
    requires ps.Here(sn) in ps.slots && Unprepared(ps.slots)
    ensures LoneStep(ps, Release(c, ps, sn))
  {
  }

  lemma ActionLone(c: Config, s: System, a: Action)
    requires PbftSafety.Inv(c, s) && PbftPrepared.ZeroInv(c, s) && LoneInv(s) && c.F() == 0 && Enabled(c, s, a)
    ensures LoneStep(s.peers[a.p], Effect(c, s, a))
  {
    NotReceived(c, s, a);
    if a.DoPreprepare? {
      NotConsidered(c, s, a);
    }
    OtherLone(c, s, a);
  }

  lemma OtherLone(c: Config, s: System, a: Action)
    requires Enabled(c, s, a) && Unprepared(s.peers[a.p].slots) && !a.DoPrepare? && !a.DoNewView?
    requires a.DoPreprepare? ==> !Considered(c, s.peers[a.p], a.sender, a.sn, a.pp)
    ensures LoneStep(s.peers[a.p], Effect(c, s, a))
  {
    var ps := s.peers[a.p];
    match a
    case DoPropose(p, sn, d) => OneSlot(ps, sn, Propose(ps, sn, d).peer.slots[ps.Here(sn)], Propose(ps, sn, d).sent);
    case DoPreprepare(p, sender, sn, pp, adm, release) => PreprepareLone(c, ps, sender, sn, pp, adm, release);
    case DoCommit(p, sender, sn, view, d, release) => CommitLone(c, ps, sender, sn, view, d, release);
    case DoRelease(p, sn) => ReleaseLone(c, ps, sn);
    case DoTimeout(p) => LeaveLone(c, ps);
    case DoViewChange(p, sender, vc) => SameSlots(ps, OnViewChange(ps, sender, vc));
    case DoBuild(p, u, choices) => BuildLone(c, ps, u, choices);
    case DoAnswer(p, l) => SameSlots(ps, OnMissingRequest(ps, l));
    case DoMissing(p, sender, sn, pp) => SameSlots(ps, OnMissingPreprepare(ps, sn, pp));
    case DoSendNewView(p) => SendLone(c, ps);
    case DoDropNewView(p) => SameSlots(ps, DropNewView(ps));
  }

  lemma LoneKeeps(s: System, p: int, o: Outcome)
    requires LoneInv(s) && s.peers.Keys == {p} && LoneStep(s.peers[p], o)
    ensures LoneInv(PbftRuns.Next(s, p, o))
  {
    var s' := PbftRuns.Next(s, p, o);
    assert forall q :: q in s'.peers ==> q == p;
  }

  lemma OnePeer(c: Config, s: System, p: int)
    requires Populated(c, s) && c.F() == 0 && p in s.peers
    ensures s.peers.Keys == {p} && c.m.faulty == {}
  {
    forall q | q in s.peers
      ensures q == p
    {
      if q != p {
        SubsetSize({p, q}, c.m.peers);
      }
    }
  }

  lemma StepLone(c: Config, s: System, s': System)
    requires PbftSafety.Inv(c, s) && PbftPrepared.ZeroInv(c, s) && LoneInv(s) && c.F() == 0 && Step(c, s, s')
    ensures LoneInv(s')
  {
    assert c.m.faulty == {};
    var a: Action :| Enabled(c, s, a) && s' == PbftRuns.Next(s, a.p, Effect(c, s, a));
    OnePeer(c, s, a.p);
    ActionLone(c, s, a);
    LoneKeeps(s, a.p, Effect(c, s, a));
  }

  lemma {:induction false} RunLone(c: Config, run: seq<System>, i: nat)
    requires PbftProof.Run(c, run) && i < |run| && c.F() == 0
    ensures LoneInv(run[i])
  {
    if i == 0 {
      StartLone(c, run[0]);
    } else {
      RunLone(c, run, i - 1);
      RunOk(c, run, i - 1);
      StepLone(c, run[i - 1], run[i]);
    }
  }

  lemma RunOk(c: Config, run: seq<System>, i: nat)
    requires PbftProof.Run(c, run) && i + 1 < |run|
    ensures PbftSafety.Inv(c, run[i]) && PbftPrepared.ZeroInv(c, run[i]) && Step(c, run[i], run[i + 1])
  {
    PbftPrepared.RunZero(c, run, i);
  }

  lemma StartLone(c: Config, s: System)
    requires Start(c, s)
    ensures LoneInv(s)
  {
    forall p | p in s.peers
      ensures Unprepared(s.peers[p].slots)
    {
      assert forall l :: l in s.peers[p].slots ==> s.peers[p].slots[l] == FRESH;
    }
  }

  // ---------- The exact condition ----------

  /** Without the flag of a slot, some other slot is proposed again, which some member claims to have prepared. */
  lemma ReusedSlot(c: Config, nv: NewView, p: int, choices: map<int, Choice>, sn: int) returns (other: int, s: int)
    requires Carries(c, nv, p, choices) && |nv.vset| == 2 * c.F() + 1 && sn in c.sns && Unflagged(c.F(), nv, sn)
    ensures other in c.sns && other != sn && s in nv.vset && other in nv.vset[s].pset
  {
    BuiltRejectedIff(c, nv, p, choices, sn);
    other :| other in choices && choices[other].Reuse?;
    var e := choices[other].e;
    assert Allowed(c.F(), nv.vset, other, choices[other]);
    s :| s in nv.vset && other in nv.vset[s].pset && nv.vset[s].pset[other] == e;
  }

  lemma UnflagNeeds(c: Config, run: seq<System>, p: int, nv: NewView, sn: int)
    requires Unflags(c, run, p, nv, sn)
    ensures c.F() >= 1 && |c.sns| >= 2 && exists i :: 0 <= i < |c.leaders| && c.m.Correct(c.leaders[i])
  {
    var n := |run| - 1;
    var choices := Sent(c, run, n, p, nv);
    var other, q := ReusedSlot(c, nv, p, choices, sn);
    SubsetSize({sn, other}, c.sns);
    assert c.Leader(nv.view) == c.leaders[nv.view % |c.leaders|];
    if c.F() == 0 {
      NoClaims(c, run, n, nv, q);
    }
  }

  lemma NoClaims(c: Config, run: seq<System>, i: nat, nv: NewView, q: int)
    requires PbftProof.Run(c, run) && i < |run| && c.F() == 0 && GenuineVset(c, run[i].net, nv.vset) && q in nv.vset
    ensures nv.vset[q].pset == map[]
  {
    RunLone(c, run, i);
    PbftProof.RunInv(c, run, i);
    var m := ViewChangeMsg(q, nv.vset[q]);
    assert c.m.Correct(q);
    assert m in run[i].net && m.sender in run[i].peers;
  }

  /** Whether in some run a NEWVIEW with 2f+1 VIEWCHANGEs, sent by a correct leader, is turned down. */
  ghost predicate CanBeRejected(c: Config) {
    exists run: seq<System>, p: int, nv: NewView, sn: int :: Refused(c, run, p, nv, sn)
  }

  ghost predicate Refused(c: Config, run: seq<System>, p: int, nv: NewView, sn: int) {
    && PbftProof.Run(c, run) && c.m.Correct(p) && NewViewMsg(p, nv) in run[|run| - 1].net
    && |nv.vset| == 2 * c.F() + 1 && sn in c.sns && Rejected(c.F(), nv, sn, p)
  }

  lemma RefusedIff(c: Config, run: seq<System>, p: int, nv: NewView, sn: int)
    ensures Refused(c, run, p, nv, sn) <==> Unflags(c, run, p, nv, sn)
  {
    if PbftProof.Run(c, run) && c.m.Correct(p) && NewViewMsg(p, nv) in run[|run| - 1].net
       && |nv.vset| == 2 * c.F() + 1 && sn in c.sns {
      NewViewRejectedIff(c, run, |run| - 1, p, nv, sn);
    }
  }

  /** Correct peers can turn down a NEWVIEW that a correct leader has built from 2f+1 VIEWCHANGEs if and only if faults
      are tolerated, there are two slots, and some leader is correct. */
  lemma CanBeRejectedIff(c: Config)
    requires c.Valid() && c.Leader(0) in c.m.peers
    ensures CanBeRejected(c) <==>
            c.F() >= 1 && |c.sns| >= 2 && exists i :: 0 <= i < |c.leaders| && c.m.Correct(c.leaders[i])
  {
    if CanBeRejected(c) {
      var run: seq<System>, p: int, nv: NewView, sn: int :| Refused(c, run, p, nv, sn);
      RefusedIff(c, run, p, nv, sn);
      UnflagNeeds(c, run, p, nv, sn);
    }
    if c.F() >= 1 && |c.sns| >= 2 {
      if i :| 0 <= i < |c.leaders| && c.m.Correct(c.leaders[i]) {
        var run, nv, sn := LoseFlag(c, i);
        RefusedIff(c, run, c.leaders[i], nv, sn);
      }
    }
  }
}
