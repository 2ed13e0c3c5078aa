/** Runs in which all correct peers decide: in view 0, and after a view change. */
module PbftProgress {
  import opened Arithmetic
  import opened Collections
  import opened Quorums
  import opened Voting
  import opened PbftPeer
  import opened PbftSafety
  import opened PbftNewView
  import opened PbftWork
  import opened PbftEquivocation
  import opened PbftLostFlag
  import PbftFlags
  import PbftProof

  // ---------- View 0 ----------

  /** The initial system. */
  lemma StartState(c: Config) returns (s: System)
    requires c.Valid()
    ensures Start(c, s) && PbftProof.Run(c, [s]) && forall r, sn :: r in s.peers && sn in c.sns ==> Open(s, r, sn)
  {
    s := System(map r | r in c.m.peers - c.m.faulty :: InitPeer(c, r), {});
  }

  /** The leader's own slot, once it has proposed. */
  lemma ProposerHolds(c: Config, p: int, sn: int, d: Digest)
    requires |c.leaders| > 0 && c.F() >= 1
    ensures Holding(c, p, ProposedSlot(c, sn, d), d)
  {
  }

  /** How many correct peers there are beside one. */
  lemma EnoughOthers(m: Membership, p: int) returns (others: set<int>)
    requires m.Valid() && m.Correct(p)
    ensures others == m.peers - m.faulty - {p} && |others| >= 2 * m.F()
  {
    others := m.peers - m.faulty - {p};
    MinusSize(m.peers, m.faulty);
    assert |others| == |m.peers - m.faulty| - 1;
  }

  /** The leader of view 0 proposes, and all other correct peers accept. */
  lemma AllAccept(c: Config, sn: int, d: Digest) returns (run: seq<System>, others: set<int>)
    requires c.Valid() && c.F() >= 1 && c.m.Correct(c.Leader(0)) && sn in c.sns
    ensures PbftProof.Run(c, run) && forall r :: c.m.Correct(r) ==> Accepted(c, Last(run), r, 0, sn, d)
    ensures |others| >= 2 * c.F() && forall x :: x in others ==> PrepareMsg(x, sn, 0, d) in Last(run).net
  {
    var p := c.Leader(0);
    var s := StartState(c);
    var r1 := ActPropose(c, [s], p, sn, d);
    others := EnoughOthers(c.m, p);
    run := AcceptAll(c, r1, others, sn, d);
    ProposerHolds(c, p, sn, d);
    assert Last(run).peers[p] == Last(r1).peers[p];
  }

  /** For every slot and digest there is a run in which all correct peers decide it in view 0. */
  lemma DecideAtOnce(c: Config, sn: int, d: Digest) returns (run: seq<System>)
    requires c.Valid() && c.F() >= 1 && c.m.Correct(c.Leader(0)) && sn in c.sns
    ensures PbftProof.Run(c, run) && forall r :: c.m.Correct(r) ==> DecidedAt(Last(run), r, 0, sn, d)
  {
    var mid, others := AllAccept(c, sn, d);
    run := AllDecide(c, mid, others, 0, sn, d);
  }

  // ---------- Without other peers nothing is decided ----------

  /** A decision goes back to a slot that some correct peer has prepared. */
  lemma DecidedNeedsPrepared(c: Config, s: System, p: int, l: Loc) returns (q: int, k: Loc)
    requires PbftSafety.Inv(c, s) && p in s.peers && l in s.peers[p].slots && s.peers[p].slots[l].committed
    ensures q in s.peers && k in s.peers[q].slots && s.peers[q].slots[k].prepared
  {
    var sl := s.peers[p].slots[l];
    assert PeerInv(c, p, s.peers[p]) && SlotInv(l.view, sl) && SlotsInv(c, s, s.peers[p]);
    assert SlotFacts(c, s, l.view, l.sn, sl);
    var w := ViewOf(c, s, l.sn, if sl.preprepared then l.view else l.view - 1, sl.digest.value);
    q := ChosenVoter(c, s, l.sn, w, sl.digest.value);
    k := Loc(w, l.sn);
  }

  lemma ViewOf(c: Config, s: System, sn: int, v: int, d: Digest) returns (w: int)
    requires DecidedBy(c, s, sn, v, d)
    ensures Chosen(c.m, Project(c, s, sn), w, d)
  {
    w :| w <= v && Chosen(c.m, Project(c, s, sn), w, d);
  }

  lemma ChosenVoter(c: Config, s: System, sn: int, w: int, d: Digest) returns (q: int)
    requires Populated(c, s) && Chosen(c.m, Project(c, s, sn), w, d)
    ensures q in s.peers && VotedAt(s.peers[q], sn, w)
  {
    var group: set<int> :| AllVoted(c.m, Project(c, s, sn), group, w, d);
    q := QuorumsShareCorrect(c.m, group, group);
    assert VotedFor(Project(c, s, sn), q, w, d);
  }

  /** In no run does a peer without other members decide anything: nobody sends it a PREPARE, not even itself. */
  lemma AloneNothingDecided(c: Config, run: seq<System>, i: nat, p: int, l: Loc)
    requires PbftProof.Run(c, run) && i < |run| && c.F() == 0 && p in run[i].peers && l in run[i].peers[p].slots
    ensures !run[i].peers[p].slots[l].committed
  {
    PbftProof.RunInv(c, run, i);
    PbftFlags.RunLone(c, run, i);
    if run[i].peers[p].slots[l].committed {
      var q, k := DecidedNeedsPrepared(c, run[i], p, l);
    }
  }

  /** All correct peers have decided `d` for `sn`, in some views. */
  ghost predicate AllDecided(c: Config, s: System, sn: int, d: Digest) {
    forall r :: c.m.Correct(r) ==> exists v: nat :: DecidedAt(s, r, v, sn, d)
  }

  ghost predicate CanDecide(c: Config, sn: int, d: Digest) {
    exists run: seq<System> :: PbftProof.Run(c, run) && AllDecided(c, Last(run), sn, d)
  }

  /** With a correct leader of view 0, the correct peers can decide any digest for any slot if and only if there are
      enough peers to tolerate a fault. */
  lemma CanDecideIff(c: Config, sn: int, d: Digest)
    requires c.Valid() && c.m.Correct(c.Leader(0)) && sn in c.sns
    ensures CanDecide(c, sn, d) <==> c.F() >= 1
  {
    if c.F() >= 1 {
      var run := DecideAtOnce(c, sn, d);
      assert AllDecided(c, Last(run), sn, d);
    } else if CanDecide(c, sn, d) {
      var run: seq<System> :| PbftProof.Run(c, run) && AllDecided(c, Last(run), sn, d);
      var v: nat :| DecidedAt(Last(run), c.Leader(0), v, sn, d);
      AloneNothingDecided(c, run, |run| - 1, c.Leader(0), Loc(v, sn));
    }
  }

  // ---------- After a view change ----------

  /** What the new view proposes for a slot. */
  function Kept(k: Cast, sn: int): Digest {
    if sn == k.other then k.d else EMPTY
  }

  /** The leader gets the awaited batch, and no other, and can announce the view. */
  lemma AwaitedArrives(c: Config, k: Cast, ps: Peer, v: nat) returns (ps1: Peer)
    requires Casting(c, k) && Waits(c, k, ps, v) && Ready(c, k.p, v, ps.changes[v], ReuseOne(c, k))
    requires Flagged(ps.changes[v].repropose, ReuseOne(c, k))
    ensures OnMissingPreprepare(ps, k.other, Proposal(c, k.other, k.d)) == Outcome(ps1, {})
    ensures CanAnnounce(c, ps1) && ps1.id == k.p && ps1.view == v && ps1.slots == ps.slots
    ensures Ready(c, k.p, v, ps1.changes[v], ReuseOne(c, k)) && Flagged(ps1.changes[v].repropose, ReuseOne(c, k))
    ensures forall sn :: sn in c.sns ==> ps1.changes[v].repropose[sn].committed == ps.changes[v].repropose[sn].committed
  {
    var pp := Proposal(c, k.other, k.d);
    FetchReadyIff(c, ps, k.other, pp, ReuseOne(c, k));
    assert Fits(ps, k.other, pp);
    ps1 := OnMissingPreprepare(ps, k.other, pp).peer;
  }

  /** The leader's slot after it has announced the view. */
  lemma AnnouncerHolds(c: Config, k: Cast, ps: Peer, v: nat, sn: int)
    requires Casting(c, k) && CanAnnounce(c, ps) && ps.id == k.p && ps.view == v && sn in c.sns
    requires Ready(c, k.p, v, ps.changes[v], ReuseOne(c, k)) && !ps.changes[v].repropose[sn].committed
    requires Loc(v, sn) in ps.slots && ps.slots[Loc(v, sn)] == FRESH
    ensures var ps' := SendNewView(c, ps).peer;
            && ps'.id == k.p && ps'.view == v && !ps'.inViewChange && Loc(v, sn) in ps'.slots
            && Holding(c, k.p, ps'.slots[Loc(v, sn)], Kept(k, sn)) && !ps'.slots[Loc(v, sn)].prepared
  {
    var rp := ps.changes[v].repropose[sn];
    assert Matches(k.p, v, sn, ReuseOne(c, k)[sn], rp);
    assert SendNewView(c, ps).peer.slots[Loc(v, sn)] == ReproposedSlot(FRESH, rp);
  }

  lemma TurnBuilds(c: Config, k: Cast, ps: Peer, v: nat, w: nat) returns (ps1: Peer)
    requires Casting(c, k) && InTurn(c, k, ps, v, k.group) && w < v && LastAt(ps.slots, Loc(w, k.other), EMPTY)
    ensures CanBuild(c, ps, v, ReuseOne(c, k)) && BuildNewView(c, ps, v, ReuseOne(c, k)) == Outcome(ps1, {})
    ensures Waits(c, k, ps1, v) && ps1.slots == ps.slots
    ensures Ready(c, k.p, v, ps1.changes[v], ReuseOne(c, k)) && Flagged(ps1.changes[v].repropose, ReuseOne(c, k))
    ensures forall sn :: sn in c.sns ==> !ps1.changes[v].repropose[sn].committed
  {
    ps1 := SecondTurnBuilds(c, k, ps, v, w);
    BuildReady(c, ps, v, ReuseOne(c, k));
    LastFound(ps.slots, Loc(w, k.other), EMPTY, v);
    forall sn | sn in c.sns
      ensures !ps1.changes[v].repropose[sn].committed
    {
      assert ps1.changes[v].repropose[sn] == Repropose(ps, v, sn, ReuseOne(c, k)[sn]);
    }
  }

  /** The NEWVIEW is under way. */
  ghost predicate Waiting(c: Config, k: Cast, net: set<Msg>, v: nat, nv: NewView) {
    && NewViewMsg(k.p, nv) in net && nv.view == v && GenuineVset(c, net, nv.vset)
    && BuiltFrom(c, nv, k.p, ReuseOne(c, k)) && KeepsFlags(nv, ReuseOne(c, k))
  }

  lemma StaysWaiting(c: Config, k: Cast, net: set<Msg>, net': set<Msg>, v: nat, nv: NewView)
    requires Waiting(c, k, net, v, nv) && net <= net'
    ensures Waiting(c, k, net', v, nv)
  {
  }

  /** What the leader does in its turn. */
  lemma LeaderPart(c: Config, k: Cast, ps: Peer, v: nat, w: nat, sn: int)
    returns (ps1: Peer, ps2: Peer, o: Outcome, nv: NewView)
    requires Casting(c, k) && InTurn(c, k, ps, v, k.group) && w < v && LastAt(ps.slots, Loc(w, k.other), EMPTY)
    requires sn in c.sns && Blank(ps.slots, v)
    ensures CanBuild(c, ps, v, ReuseOne(c, k)) && BuildNewView(c, ps, v, ReuseOne(c, k)) == Outcome(ps1, {})
    ensures OnMissingPreprepare(ps1, k.other, Proposal(c, k.other, k.d)) == Outcome(ps2, {})
    ensures CanAnnounce(c, ps2) && o == SendNewView(c, ps2) && NewViewMsg(k.p, nv) in o.sent
    ensures v in ps2.changes && nv.view == v && nv.vset == ps2.changes[v].s
    ensures BuiltFrom(c, nv, k.p, ReuseOne(c, k)) && KeepsFlags(nv, ReuseOne(c, k))
    ensures o.peer.id == k.p && o.peer.view == v && !o.peer.inViewChange && Loc(v, sn) in o.peer.slots
    ensures Holding(c, k.p, o.peer.slots[Loc(v, sn)], Kept(k, sn)) && !o.peer.slots[Loc(v, sn)].prepared
  {
    assert ps.Here(sn) in ps.slots;
    ps1 := TurnBuilds(c, k, ps, v, w);
    ps2 := AwaitedArrives(c, k, ps1, v);
    AnnouncerHolds(c, k, ps2, v, sn);
    nv := Message(c, k, ps2, v);
    o := SendNewView(c, ps2);
  }

  /** The leader announces the view, and the others wait for it. */
  lemma Announces(c: Config, k: Cast, run: seq<System>, v: nat, w: nat, sn: int)
    returns (longer: seq<System>, nv: NewView)
    requires Casting(c, k) && PbftProof.Run(c, run) && k.p in Last(run).peers && w < v && sn in c.sns
    requires InTurn(c, k, Last(run).peers[k.p], v, k.group) && Answered(c, k, Last(run).net)
    requires LastAt(Last(run).peers[k.p].slots, Loc(w, k.other), EMPTY) && Blank(Last(run).peers[k.p].slots, v)
    ensures PbftProof.Run(c, longer) && Waiting(c, k, Last(longer).net, v, nv)
    ensures Accepted(c, Last(longer), k.p, v, sn, Kept(k, sn)) && OnlyPeer(Last(run), Last(longer), k.p)
  {
    var ps1, ps2, o;
    ps1, ps2, o, nv := LeaderPart(c, k, Last(run).peers[k.p], v, w, sn);
    var r1 := ActBuild(c, run, k.p, v, ReuseOne(c, k), ps1);
    var r2 := ActMissing(c, r1, k.p, k.x, k.other, Proposal(c, k.other, k.d), ps2);
    Genuine(c, r2, k.p, nv);
    longer := ActSend(c, r2, k.p, o);
    StaysGenuine(c, Last(r2).net, Last(longer).net, nv);
    ThirdTime(Last(run), k.p, ps1, ps2, o.peer, o.sent);
  }

  lemma StaysGenuine(c: Config, net: set<Msg>, net': set<Msg>, nv: NewView)
    requires GenuineVset(c, net, nv.vset) && net <= net'
    ensures GenuineVset(c, net', nv.vset)
  {
  }

  lemma ThirdTime(s: System, p: int, ps1: Peer, ps2: Peer, ps3: Peer, sent: set<Msg>)
    requires p in s.peers
    ensures OnlyPeer(s, System(s.peers[p := ps1][p := ps2][p := ps3], s.net + sent), p)
  {
  }

  lemma Message(c: Config, k: Cast, ps: Peer, v: nat) returns (nv: NewView)
    requires CanAnnounce(c, ps) && ps.id == k.p && ps.view == v && Ready(c, k.p, v, ps.changes[v], ReuseOne(c, k))
    requires Flagged(ps.changes[v].repropose, ReuseOne(c, k))
    ensures NewViewMsg(k.p, nv) in SendNewView(c, ps).sent && nv.view == v && nv.vset == ps.changes[v].s
    ensures BuiltFrom(c, nv, k.p, ReuseOne(c, k)) && KeepsFlags(nv, ReuseOne(c, k))
  {
    nv := NewView(v, ps.changes[v].s, map sn | sn in c.sns :: ps.changes[v].repropose[sn].pp.value, -1);
    ReadySendsBuilt(c, ps, ReuseOne(c, k), nv);
  }

  /** What a correct peer has collected was really sent. */
  lemma Genuine(c: Config, run: seq<System>, p: int, nv: NewView)
    requires PbftProof.Run(c, run) && c.m.Correct(p) && p in Last(run).peers && nv.view in Last(run).peers[p].changes
    requires nv.vset == Last(run).peers[p].changes[nv.view].s
    ensures GenuineVset(c, Last(run).net, nv.vset)
  {
    PbftProof.RunInv(c, run, |run| - 1);
    assert ChangesInv(c, Last(run).net, Last(run).peers[p]);
  }

  /** What a NEWVIEW with all flags proposes can be accepted. */
  lemma CanTake(c: Config, k: Cast, ps: Peer, nv: NewView)
    requires Runnable(c, ps) && ps.view <= nv.view && !InfoFor(ps, nv.view).accepted
    requires BuiltFrom(c, nv, k.p, ReuseOne(c, k)) && KeepsFlags(nv, ReuseOne(c, k))
    ensures CanAccept(c, ps, k.p, nv, ReuseOne(c, k)) && DecidedDigested(ps)
  {
  }

  /** A fresh slot after a NEWVIEW has been accepted. */
  lemma TakenSlot(c: Config, k: Cast, ps: Peer, nv: NewView, sn: int)
    requires Casting(c, k) && BuiltFrom(c, nv, k.p, ReuseOne(c, k)) && sn in c.sns
    requires c.Leader(nv.view) == k.p && ps.id != k.p
    ensures var sl := InstalledSlot(c, ps, nv.view, FRESH, nv.xset[sn]);
            Holding(c, ps.id, sl, Kept(k, sn)) && !sl.prepared
  {
    var sl := InstalledSlot(c, ps, nv.view, FRESH, nv.xset[sn]);
    assert nv.xset[sn].digest == ReuseOne(c, k)[sn].Digest() == Kept(k, sn);
    assert sl.prepares.Keys == {ps.id} && |sl.prepares| == |sl.prepares.Keys| == 1;
  }

  /** A peer that waits for the NEWVIEW can accept it, and then works on what it proposes. */
  lemma AcceptsNewView(c: Config, k: Cast, ps: Peer, nv: NewView, sn: int) returns (o: Outcome)
    requires Casting(c, k) && Runnable(c, ps) && ps.view == nv.view && ps.id != k.p && c.Leader(nv.view) == k.p
    requires CanAccept(c, ps, k.p, nv, ReuseOne(c, k)) && DecidedDigested(ps) && Blank(ps.slots, nv.view) && sn in c.sns
    requires BuiltFrom(c, nv, k.p, ReuseOne(c, k))
    ensures o == AcceptNewView(c, ps, k.p, nv, ReuseOne(c, k))
    ensures o.peer.id == ps.id && o.peer.view == nv.view && !o.peer.inViewChange
    ensures Loc(nv.view, sn) in o.peer.slots && Holding(c, ps.id, o.peer.slots[Loc(nv.view, sn)], Kept(k, sn))
    ensures !o.peer.slots[Loc(nv.view, sn)].prepared && PrepareMsg(ps.id, sn, nv.view, Kept(k, sn)) in o.sent
  {
    o := AcceptNewView(c, ps, k.p, nv, ReuseOne(c, k));
    TakenSlot(c, k, ps, nv, sn);
    var l := Loc(nv.view, sn);
    assert ps.Here(sn) == l && l in ps.slots && ps.slots[l] == FRESH;
    assert o.peer.slots[l] == InstalledSlot(c, ps, nv.view, FRESH, nv.xset[sn]);
  }

  lemma ActNewView(c: Config, run: seq<System>, q: int, p: int, nv: NewView, choices: map<int, Choice>, o: Outcome)
    returns (longer: seq<System>)
    requires PbftProof.Run(c, run) && q in Last(run).peers && Runnable(c, Last(run).peers[q])
    requires NewViewMsg(p, nv) in Last(run).net && GenuineVset(c, Last(run).net, nv.vset)
    requires CanAccept(c, Last(run).peers[q], p, nv, choices) && DecidedDigested(Last(run).peers[q])
    requires o == AcceptNewView(c, Last(run).peers[q], p, nv, choices)
    ensures PbftProof.Run(c, longer) && OnlyPeer(Last(run), Last(longer), q)
    ensures Last(longer).peers[q] == o.peer && o.sent <= Last(longer).net
  {
    longer := Act(c, run, DoNewView(q, p, nv, choices));
  }

  lemma OneAccepts(c: Config, k: Cast, run: seq<System>, q: int, v: nat, sn: int, nv: NewView)
    returns (longer: seq<System>)
    requires Casting(c, k) && PbftProof.Run(c, run) && c.m.Correct(q) && q != k.p && sn in c.sns && c.Leader(v) == k.p
    requires Waiting(c, k, Last(run).net, v, nv) && At(k, Last(run), q, v)
    ensures PbftProof.Run(c, longer) && OnlyPeer(Last(run), Last(longer), q)
    ensures Accepted(c, Last(longer), q, v, sn, Kept(k, sn)) && PrepareMsg(q, sn, v, Kept(k, sn)) in Last(longer).net
  {
    PbftProof.ReachableRunnable(c, run, |run| - 1, q);
    CanTake(c, k, Last(run).peers[q], nv);
    var o := AcceptsNewView(c, k, Last(run).peers[q], nv, sn);
    longer := ActNewView(c, run, q, k.p, nv, ReuseOne(c, k), o);
  }

  /** What holds of `q` once it has accepted. */
  ghost predicate Joined(c: Config, k: Cast, s: System, q: int, v: nat, sn: int) {
    Accepted(c, s, q, v, sn, Kept(k, sn)) && PrepareMsg(q, sn, v, Kept(k, sn)) in s.net
  }

  /** The peers of `rs`, and no others, have accepted. */
  ghost predicate HaveJoined(c: Config, k: Cast, s: System, s': System, rs: set<int>, v: nat, sn: int) {
    && s.net <= s'.net && s'.peers.Keys == s.peers.Keys
    && (forall q :: q in s.peers && q !in rs ==> s'.peers[q] == s.peers[q])
    && forall q :: q in rs ==> Joined(c, k, s', q, v, sn)
  }

  lemma OneMoreJoins(c: Config, k: Cast, s: System, s1: System, s2: System, rs: set<int>, q: int, v: nat, sn: int)
    requires q in rs && HaveJoined(c, k, s, s1, rs - {q}, v, sn) && OnlyPeer(s1, s2, q) && Joined(c, k, s2, q, v, sn)
    ensures HaveJoined(c, k, s, s2, rs, v, sn)
  {
    forall r | r in rs
      ensures Joined(c, k, s2, r, v, sn)
    {
      if r != q {
        assert Joined(c, k, s1, r, v, sn);
      }
    }
  }

  lemma StaysAt(k: Cast, s: System, s': System, q: int, v: nat)
    requires At(k, s, q, v) && q in s'.peers && s'.peers[q] == s.peers[q]
    ensures At(k, s', q, v)
  {
  }

  lemma {:induction false} OthersAccept(c: Config, k: Cast, run: seq<System>, rs: set<int>, v: nat, sn: int,
                                        nv: NewView)
    returns (longer: seq<System>)
    requires Casting(c, k) && PbftProof.Run(c, run) && sn in c.sns && c.Leader(v) == k.p && k.p !in rs
    requires Waiting(c, k, Last(run).net, v, nv) && forall q :: q in rs ==> c.m.Correct(q) && At(k, Last(run), q, v)
    ensures PbftProof.Run(c, longer) && HaveJoined(c, k, Last(run), Last(longer), rs, v, sn)
    decreases |rs|
  {
    if rs == {} {
      longer := run;
    } else {
      var q := Member(rs);
      var rest := OthersAccept(c, k, run, rs - {q}, v, sn, nv);
      StaysWaiting(c, k, Last(run).net, Last(rest).net, v, nv);
      StaysAt(k, Last(run), Last(rest), q, v);
      longer := OneAccepts(c, k, rest, q, v, sn, nv);
      OneMoreJoins(c, k, Last(run), Last(rest), Last(longer), rs, q, v, sn);
    }
  }

  /** The leader's second turn leads all correct peers to a decision. */
  lemma TurnDecides(c: Config, k: Cast, v1: nat, v2: nat, rs: set<int>, sn: int) returns (run: seq<System>)
    requires Casting(c, k) && c.Leader(0) in c.m.peers && 0 < v1 < v2 && c.Leader(v1) == k.p && c.Leader(v2) == k.p
    requires rs <= c.m.peers - {k.p, k.x} && |rs| == 2 * c.F() && sn in c.sns
    ensures PbftProof.Run(c, run) && forall r :: c.m.Correct(r) ==> DecidedAt(Last(run), r, v2, sn, Kept(k, sn))
  {
    var r1 := SecondGathering(c, k, v1, v2, rs);
    assert At(k, Last(r1), k.p, v2);
    var r2, nv := Announces(c, k, r1, v2, v1, sn);
    var others := EnoughOthers(c.m, k.p);
    OthersAt(c, k, r1, r2, v2);
    var r3 := OthersAccept(c, k, r2, others, v2, sn, nv);
    AllJoined(c, k, Last(r2), Last(r3), others, v2, sn);
    run := AllDecide(c, r3, others, v2, sn, Kept(k, sn));
  }

  lemma OthersAt(c: Config, k: Cast, run: seq<System>, longer: seq<System>, v: nat)
    requires PbftProof.Run(c, run) && forall r :: r in Last(run).peers ==> At(k, Last(run), r, v)
    requires PbftProof.Run(c, longer) && OnlyPeer(Last(run), Last(longer), k.p)
    ensures forall q :: c.m.Correct(q) && q != k.p ==> At(k, Last(longer), q, v)
  {
    PbftProof.RunInv(c, run, |run| - 1);
    forall q | c.m.Correct(q) && q != k.p
      ensures At(k, Last(longer), q, v)
    {
      assert At(k, Last(run), q, v);
    }
  }

  lemma AllJoined(c: Config, k: Cast, s: System, s': System, others: set<int>, v: nat, sn: int)
    requires c.m.Correct(k.p) && others == c.m.peers - c.m.faulty - {k.p} && Accepted(c, s, k.p, v, sn, Kept(k, sn))
    requires s.net <= s'.net && k.p in s'.peers && s'.peers[k.p] == s.peers[k.p]
    requires forall q :: q in others ==> Joined(c, k, s', q, v, sn)
    ensures forall r :: c.m.Correct(r) ==> Accepted(c, s', r, v, sn, Kept(k, sn))
    ensures forall x :: x in others ==> PrepareMsg(x, sn, v, Kept(k, sn)) in s'.net
  {
    forall r | c.m.Correct(r)
      ensures Accepted(c, s', r, v, sn, Kept(k, sn))
    {
      if r != k.p {
        assert Joined(c, k, s', r, v, sn);
      }
    }
    forall x | x in others
      ensures PrepareMsg(x, sn, v, Kept(k, sn)) in s'.net
    {
      assert Joined(c, k, s', x, v, sn);
    }
  }

  /** A batch that a peer has prepared survives a view change: for every correct leader and every digest of a slot
      `other` there is a run in which all correct peers decide that digest for that slot in a later view of that
      leader; and for every further slot `sn` one in which they decide an empty batch for it. */
  lemma DecideAfterViewChange(c: Config, i: nat, sn: int, other: int, d: Digest)
    returns (run: seq<System>, run2: seq<System>, v: nat)
    requires c.Valid() && c.F() >= 1 && c.Leader(0) in c.m.peers && i < |c.leaders| && c.m.Correct(c.leaders[i])
    requires sn in c.sns && other in c.sns && sn != other && d != EMPTY
    ensures v > 0 && c.Leader(v) == c.leaders[i] && PbftProof.Run(c, run) && PbftProof.Run(c, run2)
    ensures forall r :: c.m.Correct(r) ==> DecidedAt(Last(run), r, v, other, d)
    ensures forall r :: c.m.Correct(r) ==> DecidedAt(Last(run2), r, v, sn, EMPTY)
  {
    var k, rs := CastFor(c, c.leaders[i], sn, other, d);
    var n := |c.leaders|;
    Cycle(c, i, 1);
    Cycle(c, i, 2);
    v := i + 2 * n;
    run := TurnDecides(c, k, i + 1 * n, v, rs, other);
    run2 := TurnDecides(c, k, i + 1 * n, v, rs, sn);
  }
}
