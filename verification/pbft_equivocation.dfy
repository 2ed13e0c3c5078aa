/** A faulty leader of view 0 that makes correct peers prepare different digests, whenever there are enough faulty peers
    to help it. */
module PbftEquivocation {
  import opened Collections
  import opened Quorums
  import opened Voting
  import opened PbftPeer
  import opened PbftSafety
  import opened PbftPrepared
  import opened PbftWork
  import PbftProof

  // ---------- Accepting a proposal ----------

  function Proposal(c: Config, sn: int, d: Digest): Preprepare
    requires |c.leaders| > 0
  {
    Preprepare(sn, 0, c.Leader(0), d, false)
  }

  /** Peer `r` works in view 0 and its slot `sn` is untouched. */
  ghost predicate Open(s: System, r: int, sn: int) {
    && r in s.peers && s.peers[r].id == r && s.peers[r].view == 0 && !s.peers[r].inViewChange
    && Loc(0, sn) in s.peers[r].slots && s.peers[r].slots[Loc(0, sn)] == FRESH
  }

  /** What accepting the proposal of `d` for `sn` does. A single PREPARE prepares nothing. */
  ghost predicate TakesUp(c: Config, ps: Peer, ps': Peer, sn: int, d: Digest)
    requires |c.leaders| > 0
  {
    && OnlySlot(ps, ps', Loc(0, sn)) && ps'.slots[Loc(0, sn)].pp == Some(Proposal(c, sn, d))
    && (c.F() > 0 ==> !ps'.slots[Loc(0, sn)].prepared)
  }

  /** The leader's slot after it has proposed. */
  function ProposedSlot(c: Config, sn: int, d: Digest): Slot
    requires |c.leaders| > 0
  {
    FRESH.(pp := Some(Proposal(c, sn, d)), digest := Some(d), preprepared := true)
  }

  lemma ActPropose(c: Config, run: seq<System>, p: int, sn: int, d: Digest) returns (longer: seq<System>)
    requires PbftProof.Run(c, run) && c.m.Correct(p) && sn in c.sns && |c.leaders| > 0 && c.Leader(0) == p
    requires Open(Last(run), p, sn)
    ensures PbftProof.Run(c, longer) && OnlyPeer(Last(run), Last(longer), p)
    ensures OnlySlot(Last(run).peers[p], Last(longer).peers[p], Loc(0, sn))
    ensures Last(longer).peers[p].slots[Loc(0, sn)] == ProposedSlot(c, sn, d)
    ensures PreprepareMsg(p, Proposal(c, sn, d)) in Last(longer).net
  {
    PbftProof.ReachableRunnable(c, run, |run| - 1, p);
    longer := Act(c, run, DoPropose(p, sn, d));
  }

  lemma FirstPrepare(c: Config, r: int, pp: Preprepare)
    requires c.F() > 0
    ensures !TryPrepare(c, r, AcceptedSlot(r, FRESH, pp)).prepared
  {
    SubsetSize(MatchingPrepares(AcceptedSlot(r, FRESH, pp)), {r});
  }

  lemma AcceptPeer(c: Config, ps: Peer, sn: int, d: Digest) returns (o: Outcome)
    requires Shape(c, ps) && ps.view == 0 && !ps.inViewChange && Loc(0, sn) in ps.slots && ps.slots[Loc(0, sn)] == FRESH
    ensures o == OnPreprepare(c, ps, c.Leader(0), sn, Proposal(c, sn, d), Admit, false)
    ensures TakesUp(c, ps, o.peer, sn, d) && Holding(c, ps.id, o.peer.slots[Loc(0, sn)], d)
    ensures PrepareMsg(ps.id, sn, 0, d) in o.sent
    ensures o.peer.slots[Loc(0, sn)].prepared ==> CommitMsg(ps.id, sn, 0, d) in o.sent
  {
    var pp := Proposal(c, sn, d);
    o := OnPreprepare(c, ps, c.Leader(0), sn, pp, Admit, false);
    FinishHolds(c, ps.id, AcceptedSlot(ps.id, FRESH, pp), d);
    if c.F() > 0 {
      FirstPrepare(c, ps.id, pp);
    }
  }

  lemma AcceptOne(c: Config, run: seq<System>, r: int, sn: int, d: Digest) returns (longer: seq<System>)
    requires PbftProof.Run(c, run) && sn in c.sns && c.m.Correct(r) && Open(Last(run), r, sn)
    requires c.Valid() && PreprepareMsg(c.Leader(0), Proposal(c, sn, d)) in Last(run).net
    ensures PbftProof.Run(c, longer) && OnlyPeer(Last(run), Last(longer), r)
    ensures Accepted(c, Last(longer), r, 0, sn, d) && PrepareMsg(r, sn, 0, d) in Last(longer).net
    ensures TakesUp(c, Last(run).peers[r], Last(longer).peers[r], sn, d)
  {
    PbftProof.ReachableRunnable(c, run, |run| - 1, r);
    var o := AcceptPeer(c, Last(run).peers[r], sn, d);
    longer := ActPreprepare(c, run, r, c.Leader(0), sn, Proposal(c, sn, d), o);
  }

  lemma {:induction false} AcceptAll(c: Config, run: seq<System>, group: set<int>, sn: int, d: Digest)
    returns (longer: seq<System>)
    requires PbftProof.Run(c, run) && c.Valid() && sn in c.sns
    requires PreprepareMsg(c.Leader(0), Proposal(c, sn, d)) in Last(run).net
    requires forall r :: r in group ==> c.m.Correct(r) && Open(Last(run), r, sn)
    ensures PbftProof.Run(c, longer) && Last(run).net <= Last(longer).net
    ensures Last(longer).peers.Keys == Last(run).peers.Keys
    ensures forall p :: p in Last(run).peers && p !in group ==> Last(longer).peers[p] == Last(run).peers[p]
    ensures forall r :: r in group ==>
              && Accepted(c, Last(longer), r, 0, sn, d) && PrepareMsg(r, sn, 0, d) in Last(longer).net
              && TakesUp(c, Last(run).peers[r], Last(longer).peers[r], sn, d)
    decreases |group|
  {
    if group == {} {
      longer := run;
    } else {
      var r := Member(group);
      var rest := AcceptAll(c, run, group - {r}, sn, d);
      longer := AcceptOne(c, rest, r, sn, d);
      forall q | q in group
        ensures Accepted(c, Last(longer), q, 0, sn, d) && PrepareMsg(q, sn, 0, d) in Last(longer).net
        ensures TakesUp(c, Last(run).peers[q], Last(longer).peers[q], sn, d)
      {
        if q != r {
          assert Accepted(c, Last(rest), q, 0, sn, d) && PrepareMsg(q, sn, 0, d) in Last(rest).net;
        }
      }
    }
  }

  // ---------- The run ----------

  /** Two groups of correct peers, each of which makes a certificate together with the faulty peers. */
  lemma Groups(m: Membership) returns (a: set<int>, b: set<int>)
    requires m.Valid() && m.faulty != {} && |m.faulty| + 1 >= m.F()
    ensures a != {} && b != {} && a !! b && a <= m.peers - m.faulty && b <= m.peers - m.faulty
    ensures |a + m.faulty| >= 2 * m.F() && |b + m.faulty| >= 2 * m.F()
  {
    var correct, k := m.peers - m.faulty, 2 * m.F() - |m.faulty|;
    assert m.peers == correct + m.faulty && |correct| == |m.peers| - |m.faulty|;
    assert |m.faulty| >= 1;
    var x := Member(correct);
    a := SubsetAround(correct, {x}, k);
    var y := Member(correct - a);
    b := SubsetAround(correct - a, {y}, k);
  }

  /** Everything the faulty peers say. */
  ghost function Lies(c: Config, sn: int, d: Digest): set<Msg>
    requires |c.leaders| > 0
  {
    {PreprepareMsg(c.Leader(0), Proposal(c, sn, d))} + set q | q in c.m.faulty :: PrepareMsg(q, sn, 0, d)
  }

  /** The peers of `group` accept `d`, and `p` among them prepares it with their help and that of the faulty peers. */
  lemma Certify(c: Config, run: seq<System>, group: set<int>, p: int, sn: int, d: Digest) returns (longer: seq<System>)
    requires PbftProof.Run(c, run) && c.Valid() && sn in c.sns && Lies(c, sn, d) <= Last(run).net
    requires p in group && |group + c.m.faulty| >= 2 * c.F()
    requires forall r :: r in group ==> c.m.Correct(r) && Open(Last(run), r, sn)
    ensures PbftProof.Run(c, longer) && PreparedAs(Last(longer), p, sn, d) && Last(run).net <= Last(longer).net
    ensures forall r :: r in Last(run).peers && r !in group ==>
              r in Last(longer).peers && Last(longer).peers[r] == Last(run).peers[r]
  {
    var mid := AcceptAll(c, run, group, sn, d);
    LiesStay(c, sn, d, Last(run).net, Last(mid).net);
    longer := ReceiveAll(c, mid, p, group + c.m.faulty, 0, sn, d);
    PreparedByAll(c, Last(longer), p, group + c.m.faulty, 0, sn, d);
  }

  lemma Equivocate(c: Config, sn: int, d: Digest, e: Digest) returns (run: seq<System>, p: int, q: int)
    requires c.Valid() && sn in c.sns && d != e && c.Leader(0) in c.m.faulty && |c.m.faulty| + 1 >= c.F()
    ensures Differ(c, run, p, q, sn, d, e)
  {
    var a, b := Groups(c.m);
    p := Member(a);
    q := Member(b);
    var r1 := Informed(c, sn, d, e);
    var r2 := Certify(c, r1, a, p, sn, d);
    run := Certify(c, r2, b, q, sn, e);
  }

  lemma LiesStay(c: Config, sn: int, d: Digest, net: set<Msg>, net': set<Msg>)
    requires |c.leaders| > 0 && Lies(c, sn, d) <= net <= net'
    ensures forall x :: x in c.m.faulty ==> PrepareMsg(x, sn, 0, d) in net'
  {
    forall x | x in c.m.faulty
      ensures PrepareMsg(x, sn, 0, d) in net'
    {
      assert PrepareMsg(x, sn, 0, d) in Lies(c, sn, d);
    }
  }

  /** The initial system, in which the faulty peers have said all they want to say. */
  lemma Informed(c: Config, sn: int, d: Digest, e: Digest) returns (run: seq<System>)
    requires c.Valid() && c.Leader(0) in c.m.faulty
    ensures PbftProof.Run(c, run) && Lies(c, sn, d) <= Last(run).net && Lies(c, sn, e) <= Last(run).net
    ensures Last(run).peers.Keys == c.m.peers - c.m.faulty
    ensures forall r :: r in Last(run).peers ==> Last(run).peers[r] == InitPeer(c, r)
  {
    var s := System(map r | r in c.m.peers - c.m.faulty :: InitPeer(c, r), {});
    assert Start(c, s);
    run := FaultySends(c, [s], Lies(c, sn, d) + Lies(c, sn, e));
  }

  /** Correct peers can prepare different digests for one slot of view 0 if and only if the leader of view 0 is faulty
      and there are at least f - 1 faulty peers. */
  lemma CanDifferIff(c: Config, sn: int)
    requires c.Valid() && sn in c.sns
    ensures CanDiffer(c) <==> c.Leader(0) in c.m.faulty && |c.m.faulty| + 1 >= c.F()
  {
    if CanDiffer(c) {
      var run: seq<System>, p: int, q: int, k: int, d: Digest, e: Digest :| Differ(c, run, p, q, k, d, e);
      DifferNeeds(c, run, p, q, k, d, e);
    }
    if c.Leader(0) in c.m.faulty && |c.m.faulty| + 1 >= c.F() {
      var run, p, q := Equivocate(c, sn, 0, 1);
    }
  }
}
