/** What the handlers do with enough votes, and how runs are built from steps. */
module PbftWork {
  import opened Collections
  import opened Quorums
  import opened Voting
  import opened PbftPeer
  import opened PbftSafety
  import PbftProof

  // ---------- When a slot is decided ----------

  /** The peers whose COMMIT has been counted or matches the proposal. */
  function Endorsers(sl: Slot): set<int> {
    set p | p in sl.commits && (sl.commits[p].None? || sl.commits[p] == sl.digest)
  }

  /** Counting finds all of them. */
  lemma CountsEndorsers(v: nat, sl: Slot)
    requires SlotInv(v, sl) && sl.prepared && sl.digest.Some?
    ensures CountCommits(sl).valid == |Endorsers(sl)|
  {
    assert CountedCommits(sl) !! NewCommits(sl) && CountedCommits(sl) + NewCommits(sl) == Endorsers(sl);
  }

  /** A slot that is not decided becomes decided exactly if it is prepared, the announcing code releases it, and a
      quorum endorses it. */
  lemma CommitsIff(c: Config, v: nat, sl: Slot, release: bool)
    requires c.Valid() && SlotInv(v, sl) && !sl.committed
    ensures TryCommit(c, sl, release).committed <==>
            sl.prepared && release && |Endorsers(sl)| >= Quorum(|c.m.peers|)
  {
    if sl.prepared {
      CountsEndorsers(v, sl);
    }
  }

  /** One more COMMIT for a slot: what was counted stays counted. */
  lemma RecordedInv(v: nat, sl: Slot, sender: int, d: Digest)
    requires SlotInv(v, sl) && sender !in sl.commits
    ensures var sl1 := sl.(commits := sl.commits[sender := Some(d)]);
            && SlotInv(v, sl1)
            && Endorsers(sl1) == Endorsers(sl) + if sl.digest == Some(d) then {sender} else {}
  {
    var sl1 := sl.(commits := sl.commits[sender := Some(d)]);
    assert CountedCommits(sl1) == CountedCommits(sl);
  }

  /** Handling a first COMMIT of a sender decides an undecided slot exactly if the slot is prepared, its block is
      released, and the peers whose COMMIT was counted before or matches the proposal are a quorum. */
  lemma CommitDecidesIff(c: Config, ps: Peer, sender: int, sn: int, d: Digest, release: bool)
    requires c.Valid() && !ps.inViewChange && ps.Here(sn) in ps.slots && SlotInv(ps.view, ps.slots[ps.Here(sn)])
    requires !ps.slots[ps.Here(sn)].committed && sender !in ps.slots[ps.Here(sn)].commits
    ensures var sl, ps' := ps.slots[ps.Here(sn)], OnCommit(c, ps, sender, sn, ps.view, d, release).peer;
            && ps.Here(sn) in ps'.slots && ps'.slots[ps.Here(sn)].digest == sl.digest
            && (ps'.slots[ps.Here(sn)].committed <==>
                && sl.prepared && release
                && |Endorsers(sl) + if sl.digest == Some(d) then {sender} else {}| >= Quorum(|c.m.peers|))
  {
    var sl := ps.slots[ps.Here(sn)];
    RecordedInv(ps.view, sl, sender, d);
    CommitsIff(c, ps.view, sl.(commits := sl.commits[sender := Some(d)]), release);
  }

  /** A block that was held back is decided when it is released, exactly if a quorum has been counted. */
  lemma ReleaseDecidesIff(c: Config, ps: Peer, sn: int)
    requires c.Valid() && ps.Here(sn) in ps.slots && SlotInv(ps.view, ps.slots[ps.Here(sn)])
    requires !ps.slots[ps.Here(sn)].committed
    ensures var sl, ps' := ps.slots[ps.Here(sn)], Release(c, ps, sn).peer;
            && ps.Here(sn) in ps'.slots
            && (ps'.slots[ps.Here(sn)].committed <==> sl.prepared && |CountedCommits(sl)| >= Quorum(|c.m.peers|))
  {
  }

  /** Handling a first PREPARE of a sender prepares an unprepared slot exactly if it holds a proposal and 2f senders'
      PREPAREs match it, and a COMMIT is sent exactly then. */
  lemma PrepareDecidesIff(c: Config, ps: Peer, sender: int, sn: int, d: Digest, release: bool)
    requires c.Valid() && !ps.inViewChange && ps.Here(sn) in ps.slots && Digested(ps)
    requires !ps.slots[ps.Here(sn)].prepared && sender !in ps.slots[ps.Here(sn)].prepares
    ensures var sl, o := ps.slots[ps.Here(sn)], OnPrepare(c, ps, sender, sn, ps.view, d, release);
            var all := sl.prepares[sender := d];
            var ready := sl.preprepared && |set p | p in all && Some(all[p]) == sl.digest| >= 2 * Faults(|c.m.peers|);
            && ps.Here(sn) in o.peer.slots && (o.peer.slots[ps.Here(sn)].prepared <==> ready)
            && o.sent == if ready then {CommitMsg(ps.id, sn, ps.view, sl.digest.value)} else {}
  {
    var sl := ps.slots[ps.Here(sn)];
    var sl1 := sl.(prepares := sl.prepares[sender := d]);
    assert MatchingPrepares(sl1) == set p | p in sl1.prepares && Some(sl1.prepares[p]) == sl.digest;
  }

  /** A peer that is changing views, or is in another view, leaves votes alone. */
  lemma VotesElsewhere(c: Config, ps: Peer, sender: int, sn: int, view: nat, d: Digest, release: bool)
    requires Digested(ps) && (ps.inViewChange || view != ps.view || ps.Here(sn) !in ps.slots)
    ensures OnPrepare(c, ps, sender, sn, view, d, release) == Outcome(ps, {})
    ensures OnCommit(c, ps, sender, sn, view, d, release) == Outcome(ps, {})
  {
  }

  /** The first VIEWCHANGE of a sender for the current or a later view counts, as long as the view has not been set
      up; no later one takes its place. */
  lemma FirstReportCounts(ps: Peer, sender: int, vc: ViewChange)
    ensures var ps' := OnViewChange(ps, sender, vc).peer;
            var was, now := InfoFor(ps, vc.view).s, InfoFor(ps', vc.view).s;
            && (forall q :: q in was ==> q in now && now[q] == was[q])
            && (forall q :: q in now && q !in was ==> q == sender && now[q] == vc)
            && (sender in now <==> sender in was || (vc.view >= ps.view && !InfoFor(ps, vc.view).enough))
            && ps'.slots == ps.slots && ps'.view == ps.view && ps'.inViewChange == ps.inViewChange
  {
  }

  /** A proposal makes a peer leave its view exactly if it names the wrong leader, is a second one for a slot the peer
      is working on, or is found suspicious; and it is taken up exactly if it is a first one, from the leader of the
      current view, and its requests are admitted. */
  lemma ProposalIff(c: Config, ps: Peer, sender: int, sn: int, pp: Preprepare, adm: Admission, release: bool)
    requires Runnable(c, ps) && sn == pp.sn
    ensures var o := OnPreprepare(c, ps, sender, sn, pp, adm, release);
            var led := sender == pp.leader == c.leaders[pp.view % |c.leaders|];
            var here := led && pp.view == ps.view && !ps.inViewChange && ps.Here(sn) in ps.slots
                        && !ps.slots[ps.Here(sn)].committed;
            var first := here && !ps.slots[ps.Here(sn)].preprepared;
            && (o.peer.view > ps.view <==> !led || (here && !first) || (first && adm.Suspect?))
            && (PrepareMsg(ps.id, sn, ps.view, pp.digest) in o.sent <==> first && adm.Admit?)
            && (first && adm.Admit? ==>
                  && o.peer.view == ps.view && ps.Here(sn) in o.peer.slots
                  && o.peer.slots[ps.Here(sn)].pp == Some(pp) && o.peer.slots[ps.Here(sn)].digest == Some(pp.digest))
  {
    var o := PbftProof.PreprepareCases(c, ps, sender, sn, pp, adm, release);
    assert SendViewChange(c, ps).peer.view == ps.view + 1;
  }

  // ---------- Runs ----------

  function Last(run: seq<System>): System
    requires run != []
  {
    run[|run| - 1]
  }

  lemma Extend(c: Config, run: seq<System>, s': System)
    requires PbftProof.Run(c, run) && Step(c, Last(run), s')
    ensures PbftProof.Run(c, run + [s']) && Last(run + [s']) == s'
  {
    var longer := run + [s'];
    forall i | 0 < i < |longer|
      ensures Step(c, longer[i - 1], longer[i])
    {
      if i < |run| {
        assert longer[i] == run[i] && longer[i - 1] == run[i - 1];
      }
    }
  }

  lemma Act(c: Config, run: seq<System>, a: Action) returns (longer: seq<System>)
    requires PbftProof.Run(c, run) && Enabled(c, Last(run), a)
    ensures PbftProof.Run(c, longer)
    ensures var s, o := Last(run), Effect(c, Last(run), a);
            Last(longer) == System(s.peers[a.p := o.peer], s.net + o.sent)
  {
    var s, o := Last(run), Effect(c, Last(run), a);
    var s' := System(s.peers[a.p := o.peer], s.net + o.sent);
    assert Step(c, s, s');
    Extend(c, run, s');
    longer := run + [s'];
  }

  /** The same, with what the action does worked out beforehand. */
  lemma ActPreprepare(c: Config, run: seq<System>, r: int, sender: int, sn: int, pp: Preprepare, o: Outcome)
    returns (longer: seq<System>)
    requires PbftProof.Run(c, run) && r in Last(run).peers && Runnable(c, Last(run).peers[r])
    requires PreprepareMsg(sender, pp) in Last(run).net
    requires o == OnPreprepare(c, Last(run).peers[r], sender, sn, pp, Admit, false)
    ensures PbftProof.Run(c, longer) && OnlyPeer(Last(run), Last(longer), r)
    ensures Last(longer).peers[r] == o.peer && o.sent <= Last(longer).net
  {
    longer := Act(c, run, DoPreprepare(r, sender, sn, pp, Admit, false));
  }

  /** Faulty peers send any finite set of messages. */
  lemma {:induction false} FaultySends(c: Config, run: seq<System>, msgs: set<Msg>) returns (longer: seq<System>)
    requires PbftProof.Run(c, run) && forall m :: m in msgs ==> m.sender in c.m.faulty
    ensures PbftProof.Run(c, longer) && Last(longer) == System(Last(run).peers, Last(run).net + msgs)
    decreases |msgs|
  {
    if msgs == {} {
      longer := run;
      assert Last(run).net + msgs == Last(run).net;
    } else {
      var m := Member(msgs);
      var rest := FaultySends(c, run, msgs - {m});
      var s := Last(rest);
      var s' := System(s.peers, s.net + {m});
      assert Step(c, s, s');
      Extend(c, rest, s');
      longer := rest + [s'];
      assert s'.net == Last(run).net + msgs;
    }
  }

  /** Nothing but peer `r` changes, and messages are added. */
  ghost predicate OnlyPeer(s: System, s': System, r: int) {
    s.net <= s'.net && s'.peers.Keys == s.peers.Keys && forall p :: p in s.peers && p != r ==> s'.peers[p] == s.peers[p]
  }

  /** Nothing changes but the slot at `l`. */
  ghost predicate OnlySlot(ps: Peer, ps': Peer, l: Loc) {
    && ps' == ps.(slots := ps'.slots) && l in ps'.slots && ps'.slots.Keys == ps.slots.Keys
    && forall h :: h in ps.slots && h != l ==> ps'.slots[h] == ps.slots[h]
  }

  // ---------- Receiving PREPAREs ----------

  /** The slot of peer `id` holds `d`, has PREPAREs for `d` only, and is prepared if there are enough of them; no COMMIT
      but its own has been received. */
  ghost predicate Holding(c: Config, id: int, sl: Slot, d: Digest) {
    Gathering(id, sl, d) && (|sl.prepares| >= 2 * c.F() ==> sl.prepared)
  }

  ghost predicate Gathering(id: int, sl: Slot, d: Digest) {
    && sl.preprepared && sl.digest == Some(d) && !sl.committed
    && (forall q :: q in sl.prepares ==> sl.prepares[q] == d)
    && sl.commits.Keys == (if sl.prepared then {id} else {})
    && (forall q :: q in sl.commits ==> sl.commits[q].None? || sl.commits[q] == Some(d))
  }

  /** Peer `r` works in view `v` and its slot `sn` holds `d`. */
  ghost predicate Accepted(c: Config, s: System, r: int, v: nat, sn: int, d: Digest) {
    && r in s.peers && s.peers[r].id == r && s.peers[r].view == v && !s.peers[r].inViewChange
    && Loc(v, sn) in s.peers[r].slots && Holding(c, r, s.peers[r].slots[Loc(v, sn)], d)
    && (s.peers[r].slots[Loc(v, sn)].prepared ==> CommitMsg(r, sn, v, d) in s.net)
  }

  lemma FinishHolds(c: Config, r: int, sl: Slot, d: Digest)
    requires Gathering(r, sl, d)
    ensures var sl' := TryCommit(c, TryPrepare(c, r, sl), false);
            Holding(c, r, sl', d) && sl'.prepares == sl.prepares && sl'.pp == sl.pp
  {
    var all := MatchingPrepares(sl);
    forall x | x in sl.prepares
      ensures x in all
    {
    }
    assert all == sl.prepares.Keys;
    assert |sl.prepares| == |sl.prepares.Keys|;
    var sl1 := TryPrepare(c, r, sl);
    assert CountCommits(sl1).commits.Keys == sl1.commits.Keys;
  }

  /** The common tail of the handlers, for a slot that gathers PREPAREs. */
  lemma FinishPeer(c: Config, ps: Peer, sn: int, sl: Slot, d: Digest) returns (o: Outcome)
    requires ps.Here(sn) in ps.slots && Gathering(ps.id, sl, d)
    ensures o == Finish(c, ps, sn, sl, false, {}) && OnlySlot(ps, o.peer, ps.Here(sn))
    ensures var sl' := o.peer.slots[ps.Here(sn)];
            && Holding(c, ps.id, sl', d) && sl'.prepares == sl.prepares && sl'.pp == sl.pp
            && (sl'.prepared && !sl.prepared ==> CommitMsg(ps.id, sn, ps.view, d) in o.sent)
  {
    o := Finish(c, ps, sn, sl, false, {});
    FinishHolds(c, ps.id, sl, d);
    assert o.peer == SetSlot(ps, sn, TryCommit(c, TryPrepare(c, ps.id, sl), false));
  }

  /** A PREPARE for the digest a slot holds is added to it. */
  lemma PrepareAdds(c: Config, ps: Peer, x: int, sn: int, d: Digest) returns (o: Outcome)
    requires Digested(ps) && !ps.inViewChange && ps.Here(sn) in ps.slots && Holding(c, ps.id, ps.slots[ps.Here(sn)], d)
    ensures o == OnPrepare(c, ps, x, sn, ps.view, d, false)
    ensures OnlySlot(ps, o.peer, ps.Here(sn)) && o.peer.slots[ps.Here(sn)].pp == ps.slots[ps.Here(sn)].pp
    ensures Holding(c, ps.id, o.peer.slots[ps.Here(sn)], d)
    ensures ps.slots[ps.Here(sn)].prepares.Keys + {x} <= o.peer.slots[ps.Here(sn)].prepares.Keys
    ensures o.peer.slots[ps.Here(sn)].prepared && !ps.slots[ps.Here(sn)].prepared ==>
              CommitMsg(ps.id, sn, ps.view, d) in o.sent
  {
    var sl := ps.slots[ps.Here(sn)];
    if x in sl.prepares {
      o := Outcome(ps, {});
    } else {
      o := FinishPeer(c, ps, sn, sl.(prepares := sl.prepares[x := d]), d);
    }
  }

  /** Peer `p` has received the PREPAREs of `senders` for its slot, and nothing else has happened. */
  ghost predicate Received(c: Config, s: System, s': System, p: int, senders: set<int>, v: nat, sn: int, d: Digest) {
    && OnlyPeer(s, s', p) && Accepted(c, s, p, v, sn, d) && Accepted(c, s', p, v, sn, d)
    && OnlySlot(s.peers[p], s'.peers[p], Loc(v, sn))
    && s'.peers[p].slots[Loc(v, sn)].pp == s.peers[p].slots[Loc(v, sn)].pp
    && s.peers[p].slots[Loc(v, sn)].prepares.Keys + senders <= s'.peers[p].slots[Loc(v, sn)].prepares.Keys
  }

  lemma ReceivedTwice(c: Config, s: System, s1: System, s2: System, p: int, a: set<int>, b: set<int>, v: nat, sn: int,
                      d: Digest)
    requires Received(c, s, s1, p, a - b, v, sn, d) && Received(c, s1, s2, p, b, v, sn, d)
    ensures Received(c, s, s2, p, a, v, sn, d)
  {
  }

  lemma ReceivedNone(c: Config, s: System, p: int, v: nat, sn: int, d: Digest)
    requires Accepted(c, s, p, v, sn, d)
    ensures Received(c, s, s, p, {}, v, sn, d)
  {
  }

  lemma ActPrepare(c: Config, run: seq<System>, p: int, x: int, v: nat, sn: int, d: Digest, o: Outcome)
    returns (longer: seq<System>)
    requires PbftProof.Run(c, run) && p in Last(run).peers && Runnable(c, Last(run).peers[p])
    requires PrepareMsg(x, sn, v, d) in Last(run).net && o == OnPrepare(c, Last(run).peers[p], x, sn, v, d, false)
    ensures PbftProof.Run(c, longer) && OnlyPeer(Last(run), Last(longer), p)
    ensures Last(longer).peers[p] == o.peer && o.sent <= Last(longer).net
  {
    longer := Act(c, run, DoPrepare(p, x, sn, v, d, false));
  }

  lemma ReceiveOne(c: Config, run: seq<System>, p: int, x: int, v: nat, sn: int, d: Digest)
    returns (longer: seq<System>)
    requires PbftProof.Run(c, run) && c.m.Correct(p) && Accepted(c, Last(run), p, v, sn, d)
    requires PrepareMsg(x, sn, v, d) in Last(run).net
    ensures PbftProof.Run(c, longer) && Received(c, Last(run), Last(longer), p, {x}, v, sn, d)
  {
    PbftProof.ReachableRunnable(c, run, |run| - 1, p);
    var o := PrepareAdds(c, Last(run).peers[p], x, sn, d);
    longer := ActPrepare(c, run, p, x, v, sn, d, o);
  }

  lemma {:induction false} ReceiveAll(c: Config, run: seq<System>, p: int, senders: set<int>, v: nat, sn: int,
                                      d: Digest)
    returns (longer: seq<System>)
    requires PbftProof.Run(c, run) && c.m.Correct(p) && Accepted(c, Last(run), p, v, sn, d)
    requires forall x :: x in senders ==> PrepareMsg(x, sn, v, d) in Last(run).net
    ensures PbftProof.Run(c, longer) && Received(c, Last(run), Last(longer), p, senders, v, sn, d)
    decreases |senders|
  {
    if senders == {} {
      longer := run;
      ReceivedNone(c, Last(run), p, v, sn, d);
    } else {
      var x := Member(senders);
      var rest := ReceiveAll(c, run, p, senders - {x}, v, sn, d);
      assert PrepareMsg(x, sn, v, d) in Last(run).net;
      longer := ReceiveOne(c, rest, p, x, v, sn, d);
      ReceivedTwice(c, Last(run), Last(rest), Last(longer), p, senders, {x}, v, sn, d);
    }
  }

  lemma PreparedByAll(c: Config, s: System, p: int, senders: set<int>, v: nat, sn: int, d: Digest)
    requires Accepted(c, s, p, v, sn, d) && |senders| >= 2 * c.F()
    requires senders <= s.peers[p].slots[Loc(v, sn)].prepares.Keys
    ensures s.peers[p].slots[Loc(v, sn)].prepared
  {
    var sl := s.peers[p].slots[Loc(v, sn)];
    SubsetSize(senders, sl.prepares.Keys);
    assert |sl.prepares| == |sl.prepares.Keys|;
  }

  ghost predicate IsPreparedAt(c: Config, s: System, r: int, v: nat, sn: int, d: Digest) {
    Accepted(c, s, r, v, sn, d) && s.peers[r].slots[Loc(v, sn)].prepared
  }

  /** The peers of `group`, and no others, have become prepared. */
  ghost predicate AllPrepared(c: Config, s: System, s': System, group: set<int>, v: nat, sn: int, d: Digest) {
    && s.net <= s'.net && s'.peers.Keys == s.peers.Keys
    && (forall r :: r in s.peers && r !in group ==> s'.peers[r] == s.peers[r])
    && forall r :: r in group ==> IsPreparedAt(c, s', r, v, sn, d)
  }

  lemma OneMorePrepared(c: Config, s: System, s1: System, s2: System, group: set<int>, r: int, v: nat, sn: int,
                        d: Digest)
    requires r in group && AllPrepared(c, s, s1, group - {r}, v, sn, d)
    requires OnlyPeer(s1, s2, r) && IsPreparedAt(c, s2, r, v, sn, d)
    ensures AllPrepared(c, s, s2, group, v, sn, d)
  {
    forall q | q in group
      ensures IsPreparedAt(c, s2, q, v, sn, d)
    {
      assert q != r ==> IsPreparedAt(c, s1, q, v, sn, d);
    }
  }

  lemma StaysAccepted(c: Config, s: System, s': System, r: int, v: nat, sn: int, d: Digest)
    requires Accepted(c, s, r, v, sn, d) && s.net <= s'.net && r in s'.peers && s'.peers[r] == s.peers[r]
    ensures Accepted(c, s', r, v, sn, d)
  {
  }

  /** All peers of `group` receive the PREPAREs of `senders`. */
  lemma {:induction false} AllPrepare(c: Config, run: seq<System>, group: set<int>, senders: set<int>, v: nat, sn: int,
                                      d: Digest)
    returns (longer: seq<System>)
    requires PbftProof.Run(c, run) && |senders| >= 2 * c.F()
    requires forall r :: r in group ==> c.m.Correct(r) && Accepted(c, Last(run), r, v, sn, d)
    requires forall x :: x in senders ==> PrepareMsg(x, sn, v, d) in Last(run).net
    ensures PbftProof.Run(c, longer) && AllPrepared(c, Last(run), Last(longer), group, v, sn, d)
    decreases |group|
  {
    if group == {} {
      longer := run;
    } else {
      var r := Member(group);
      var rest := AllPrepare(c, run, group - {r}, senders, v, sn, d);
      StaysAccepted(c, Last(run), Last(rest), r, v, sn, d);
      longer := ReceiveAll(c, rest, r, senders, v, sn, d);
      PreparedByAll(c, Last(longer), r, senders, v, sn, d);
      OneMorePrepared(c, Last(run), Last(rest), Last(longer), group, r, v, sn, d);
    }
  }

  // ---------- Receiving COMMITs ----------

  /** The slot is prepared, and all COMMITs for it match. */
  ghost predicate Endorsed(sl: Slot, d: Digest) {
    && sl.preprepared && sl.prepared && sl.digest == Some(d)
    && forall q :: q in sl.commits ==> sl.commits[q].None? || sl.commits[q] == Some(d)
  }

  lemma StaysEndorsed(c: Config, sl: Slot, d: Digest)
    requires Endorsed(sl, d)
    ensures var sl' := TryCommit(c, sl, true); Endorsed(sl', d) && sl'.commits.Keys == sl.commits.Keys
  {
  }

  lemma EndorsedDecided(c: Config, v: nat, sl: Slot, d: Digest)
    requires c.Valid() && SlotInv(v, sl) && Endorsed(sl, d) && |sl.commits| >= Quorum(|c.m.peers|)
    ensures TryCommit(c, sl, true).committed
  {
    if !sl.committed {
      CommitsIff(c, v, sl, true);
      forall p | p in sl.commits
        ensures p in Endorsers(sl)
      {
      }
      assert Endorsers(sl) == sl.commits.Keys;
      assert |sl.commits| == |sl.commits.Keys|;
    }
  }

  lemma RecordedEndorsed(v: nat, sl: Slot, x: int, d: Digest) returns (sl1: Slot)
    requires SlotInv(v, sl) && Endorsed(sl, d) && x !in sl.commits
    ensures sl1 == sl.(commits := sl.commits[x := Some(d)]) && SlotInv(v, sl1) && Endorsed(sl1, d)
    ensures sl1.commits.Keys == sl.commits.Keys + {x}
  {
    RecordedInv(v, sl, x, d);
    sl1 := sl.(commits := sl.commits[x := Some(d)]);
  }

  lemma SameSize(a: map<int, Option<Digest>>, b: map<int, Option<Digest>>)
    requires a.Keys == b.Keys
    ensures |a| == |b|
  {
    assert |a| == |a.Keys| && |b| == |b.Keys|;
  }

  /** A slot after one more matching COMMIT. */
  lemma CommitSlot(c: Config, v: nat, sl: Slot, x: int, d: Digest) returns (sl': Slot)
    requires c.Valid() && SlotInv(v, sl) && Endorsed(sl, d) && x !in sl.commits
    ensures sl' == TryCommit(c, sl.(commits := sl.commits[x := Some(d)]), true)
    ensures Endorsed(sl', d) && sl'.commits.Keys == sl.commits.Keys + {x}
    ensures |sl'.commits| >= Quorum(|c.m.peers|) ==> sl'.committed
  {
    var sl1 := RecordedEndorsed(v, sl, x, d);
    StaysEndorsed(c, sl1, d);
    sl' := TryCommit(c, sl1, true);
    SameSize(sl'.commits, sl1.commits);
    if |sl1.commits| >= Quorum(|c.m.peers|) {
      EndorsedDecided(c, v, sl1, d);
    }
  }

  lemma CommitAdds(c: Config, ps: Peer, x: int, sn: int, d: Digest) returns (o: Outcome)
    requires c.Valid() && !ps.inViewChange && ps.Here(sn) in ps.slots && SlotInv(ps.view, ps.slots[ps.Here(sn)])
    requires Endorsed(ps.slots[ps.Here(sn)], d) && x !in ps.slots[ps.Here(sn)].commits
    ensures o == OnCommit(c, ps, x, sn, ps.view, d, true) && OnlySlot(ps, o.peer, ps.Here(sn))
    ensures var sl, sl' := ps.slots[ps.Here(sn)], o.peer.slots[ps.Here(sn)];
            && Endorsed(sl', d) && sl'.commits.Keys == sl.commits.Keys + {x}
            && (|sl'.commits| >= Quorum(|c.m.peers|) ==> sl'.committed)
  {
    var sl' := CommitSlot(c, ps.view, ps.slots[ps.Here(sn)], x, d);
    o := OnCommit(c, ps, x, sn, ps.view, d, true);
  }

  /** Peer `r` works in view `v`, and its slot `sn` is prepared and has the COMMITs of `from`. */
  ghost predicate Collecting(s: System, r: int, v: nat, sn: int, d: Digest, from: set<int>) {
    && r in s.peers && s.peers[r].id == r && s.peers[r].view == v && !s.peers[r].inViewChange
    && Loc(v, sn) in s.peers[r].slots && Endorsed(s.peers[r].slots[Loc(v, sn)], d)
    && s.peers[r].slots[Loc(v, sn)].commits.Keys == from
  }

  /** Peer `r` has decided `d` for `sn` in view `v`. */
  ghost predicate DecidedAt(s: System, r: int, v: nat, sn: int, d: Digest) {
    && r in s.peers && Loc(v, sn) in s.peers[r].slots
    && s.peers[r].slots[Loc(v, sn)].committed && s.peers[r].slots[Loc(v, sn)].digest == Some(d)
  }

  lemma ActCommit(c: Config, run: seq<System>, p: int, x: int, v: nat, sn: int, d: Digest, o: Outcome)
    returns (longer: seq<System>)
    requires PbftProof.Run(c, run) && p in Last(run).peers && Runnable(c, Last(run).peers[p])
    requires CommitMsg(x, sn, v, d) in Last(run).net && o == OnCommit(c, Last(run).peers[p], x, sn, v, d, true)
    ensures PbftProof.Run(c, longer) && OnlyPeer(Last(run), Last(longer), p) && Last(longer).peers[p] == o.peer
  {
    longer := Act(c, run, DoCommit(p, x, sn, v, d, true));
  }

  lemma SlotInvAt(c: Config, run: seq<System>, p: int, l: Loc)
    requires PbftProof.Run(c, run) && c.m.Correct(p) && p in Last(run).peers && l in Last(run).peers[p].slots
    ensures SlotInv(l.view, Last(run).peers[p].slots[l]) && c.Valid()
  {
    PbftProof.RunInv(c, run, |run| - 1);
    assert PeerInv(c, p, Last(run).peers[p]);
  }

  lemma ReceiveCommit(c: Config, run: seq<System>, p: int, x: int, v: nat, sn: int, d: Digest, from: set<int>)
    returns (longer: seq<System>)
    requires PbftProof.Run(c, run) && c.m.Correct(p) && Collecting(Last(run), p, v, sn, d, from) && x !in from
    requires CommitMsg(x, sn, v, d) in Last(run).net
    ensures PbftProof.Run(c, longer) && OnlyPeer(Last(run), Last(longer), p)
    ensures Collecting(Last(longer), p, v, sn, d, from + {x})
    ensures |from + {x}| >= Quorum(|c.m.peers|) ==> DecidedAt(Last(longer), p, v, sn, d)
  {
    PbftProof.ReachableRunnable(c, run, |run| - 1, p);
    SlotInvAt(c, run, p, Loc(v, sn));
    var o := CommitAdds(c, Last(run).peers[p], x, sn, d);
    longer := ActCommit(c, run, p, x, v, sn, d, o);
    assert |o.peer.slots[Loc(v, sn)].commits| == |o.peer.slots[Loc(v, sn)].commits.Keys|;
  }

  lemma {:induction false} ReceiveCommits(c: Config, run: seq<System>, p: int, senders: set<int>, v: nat, sn: int,
                                          d: Digest, from: set<int>)
    returns (longer: seq<System>)
    requires PbftProof.Run(c, run) && c.m.Correct(p) && Collecting(Last(run), p, v, sn, d, from) && senders !! from
    requires forall x :: x in senders ==> CommitMsg(x, sn, v, d) in Last(run).net
    ensures PbftProof.Run(c, longer) && OnlyPeer(Last(run), Last(longer), p)
    ensures Collecting(Last(longer), p, v, sn, d, from + senders)
    ensures senders != {} && |from + senders| >= Quorum(|c.m.peers|) ==> DecidedAt(Last(longer), p, v, sn, d)
    decreases |senders|
  {
    if senders == {} {
      longer := run;
      assert from + senders == from;
    } else {
      var x := Member(senders);
      var rest := ReceiveCommits(c, run, p, senders - {x}, v, sn, d, from);
      assert CommitMsg(x, sn, v, d) in Last(run).net;
      var most := SplitOne(from, senders, x);
      longer := ReceiveCommit(c, rest, p, x, v, sn, d, most);
    }
  }

  lemma SplitOne(from: set<int>, senders: set<int>, x: int) returns (most: set<int>)
    requires x in senders && senders !! from
    ensures most == from + (senders - {x}) && x !in most && most + {x} == from + senders
  {
    most := from + (senders - {x});
  }

  /** The peers of `rs` receive the COMMITs of all of `group`. */
  lemma {:induction false} AllCommit(c: Config, run: seq<System>, rs: set<int>, group: set<int>, v: nat, sn: int,
                                     d: Digest)
    returns (longer: seq<System>)
    requires PbftProof.Run(c, run) && rs <= group && |group| >= 2 && |group| >= Quorum(|c.m.peers|)
    requires forall r :: r in rs ==> c.m.Correct(r) && IsPreparedAt(c, Last(run), r, v, sn, d)
    requires forall r :: r in group ==> CommitMsg(r, sn, v, d) in Last(run).net
    ensures PbftProof.Run(c, longer) && Last(run).net <= Last(longer).net
    ensures Last(longer).peers.Keys == Last(run).peers.Keys
    ensures forall r :: r in Last(run).peers && r !in rs ==> Last(longer).peers[r] == Last(run).peers[r]
    ensures forall r :: r in rs ==> DecidedAt(Last(longer), r, v, sn, d)
    decreases |rs|
  {
    if rs == {} {
      longer := run;
    } else {
      var r := Member(rs);
      var rest := AllCommit(c, run, rs - {r}, group, v, sn, d);
      assert IsPreparedAt(c, Last(run), r, v, sn, d);
      assert Collecting(Last(rest), r, v, sn, d, {r});
      Others(group, r);
      longer := ReceiveCommits(c, rest, r, group - {r}, v, sn, d, {r});
      forall q | q in rs
        ensures DecidedAt(Last(longer), q, v, sn, d)
      {
        assert q != r ==> DecidedAt(Last(rest), q, v, sn, d);
      }
    }
  }

  lemma Others(group: set<int>, r: int)
    requires r in group && |group| >= 2
    ensures group - {r} != {} && {r} + (group - {r}) == group
  {
    assert |group - {r}| == |group| - 1;
  }

  /** Once all correct peers have accepted a proposal and enough of them have sent PREPARE, they can all decide it. */
  lemma AllDecide(c: Config, run: seq<System>, senders: set<int>, v: nat, sn: int, d: Digest)
    returns (longer: seq<System>)
    requires PbftProof.Run(c, run) && c.Valid() && c.F() >= 1 && |senders| >= 2 * c.F()
    requires forall r :: c.m.Correct(r) ==> Accepted(c, Last(run), r, v, sn, d)
    requires forall x :: x in senders ==> PrepareMsg(x, sn, v, d) in Last(run).net
    ensures PbftProof.Run(c, longer) && forall r :: c.m.Correct(r) ==> DecidedAt(Last(longer), r, v, sn, d)
  {
    var group := c.m.peers - c.m.faulty;
    MinusSize(c.m.peers, c.m.faulty);
    var mid := AllPrepare(c, run, group, senders, v, sn, d);
    forall r | r in group
      ensures CommitMsg(r, sn, v, d) in Last(mid).net
    {
      assert IsPreparedAt(c, Last(mid), r, v, sn, d);
    }
    longer := AllCommit(c, mid, group, group, v, sn, d);
  }
}
