/** The vote-counting core of one log slot, with everything but views, accepted proposals,
    commit votes and view-change claims abstracted away. The PBFT instance is shown to
    refine this protocol slot by slot; agreement is proved here once. */
module Voting {
  import opened Collections
  import opened Quorums

  /** The digest of a request batch. */
  type Digest = int

  /** The digest of the batch that holds no requests. */
  const EMPTY: Digest := 0

  /** A digest prepared (or preprepared) in a view. */
  datatype Entry = Entry(view: int, digest: Digest)

  /** What a VIEWCHANGE message for `view` says about one slot. */
  datatype Claim = Claim(sender: int, view: int, p: Option<Entry>, q: Option<Entry>)

  /** One correct peer's history for the slot: the digest it accepted and the digest it sent a
      COMMIT for, per view. */
  datatype Ballot = Ballot(view: int, accepted: map<int, Digest>, voted: map<int, Digest>)

  /** The ballots of the correct peers and every claim a correct peer has sent. */
  datatype Votes = Votes(ballots: map<int, Ballot>, claims: set<Claim>)

  ghost predicate WellFormed(m: Membership, st: Votes) {
    m.Valid() && (forall p :: p in st.ballots <==> m.Correct(p))
  }

  // ---------- Conditions on the claims carried by a NEWVIEW message ----------

  /** Senders whose claim does not contradict `e` being the latest prepared entry. */
  function Consistent(vs: map<int, Claim>, e: Entry): set<int> {
    set s | s in vs && (vs[s].p.None? || vs[s].p.value.view < e.view || vs[s].p.value == e)
  }

  /** Senders that preprepared the digest of `e` in its view or later. */
  function Supporting(vs: map<int, Claim>, e: Entry): set<int> {
    set s | s in vs && vs[s].q.Some? && vs[s].q.value.view >= e.view && vs[s].q.value.digest == e.digest
  }

  /** Senders that prepared nothing. */
  function Unprepared(vs: map<int, Claim>): set<int> {
    set s | s in vs && vs[s].p.None?
  }

  predicate CondA(f: nat, vs: map<int, Claim>, e: Entry) {
    |Consistent(vs, e)| >= 2 * f + 1 && |Supporting(vs, e)| >= f + 1
  }

  predicate CondB(f: nat, vs: map<int, Claim>) {
    |Unprepared(vs)| >= 2 * f + 1
  }

  /** The claims name members, are for view `u` or later, and those of correct peers were really sent. */
  ghost predicate Genuine(m: Membership, st: Votes, u: int, vs: map<int, Claim>) {
    && vs.Keys <= m.peers
    && forall s :: s in vs ==> vs[s].view >= u && (m.Correct(s) ==> vs[s].sender == s && vs[s] in st.claims)
  }

  /** The claims `vs` allow `d` to be proposed in view `u`. */
  ghost predicate JustifiedBy(m: Membership, st: Votes, u: int, d: Digest, vs: map<int, Claim>) {
    && Genuine(m, st, u, vs)
    && (CondB(m.F(), vs) || exists e: Entry :: e.digest == d && CondA(m.F(), vs, e))
  }

  ghost predicate Justified(m: Membership, st: Votes, u: int, d: Digest) {
    exists vs: map<int, Claim> :: JustifiedBy(m, st, u, d, vs)
  }

  // ---------- Steps ----------

  /** A truthful claim: it reports the latest view below its own in which the sender voted,
      and only digests the sender really accepted. */
  ghost predicate Truthful(b: Ballot, c: Claim) {
    && 0 < c.view <= b.view
    && (forall v :: v in b.voted && v < c.view ==>
          c.p.Some? && v <= c.p.value.view && (c.p.value.view == v ==> c.p.value.digest == b.voted[v]))
    && (c.q.Some? ==> c.q.value.view in b.accepted && b.accepted[c.q.value.view] == c.q.value.digest)
  }

  /** How one ballot may change: views only grow, nothing recorded is altered, votes are cast for
      the accepted digest and never in a view already left, and a proposal accepted after view 0
      is justified by genuine claims. */
  ghost predicate BallotStep(m: Membership, st: Votes, b: Ballot, b': Ballot) {
    && b.view <= b'.view
    && (forall v :: v in b.accepted ==> v in b'.accepted && b'.accepted[v] == b.accepted[v])
    && (forall v :: v in b.voted ==> v in b'.voted && b'.voted[v] == b.voted[v])
    && (forall v :: v in b'.voted && v !in b.voted ==>
          b.view <= v <= b'.view && v in b'.accepted && b'.accepted[v] == b'.voted[v])
    && (forall v :: v in b'.accepted && v !in b.accepted ==>
          0 <= v <= b'.view && (v > 0 ==> Justified(m, st, v, b'.accepted[v])))
  }

  ghost predicate Init(m: Membership, st: Votes) {
    && WellFormed(m, st) && st.claims == {}
    && forall p :: p in st.ballots ==> st.ballots[p] == Ballot(0, map[], map[])
  }

  ghost predicate Next(m: Membership, st: Votes, st': Votes) {
    && WellFormed(m, st') && st'.ballots.Keys == st.ballots.Keys
    && (forall p :: p in st.ballots ==> BallotStep(m, st, st.ballots[p], st'.ballots[p]))
    && st.claims <= st'.claims
    && (forall c :: c in st'.claims && c !in st.claims ==>
          c.sender in st'.ballots && Truthful(st'.ballots[c.sender], c))
  }

  // ---------- What may still be decided ----------

  /** `p` sent a COMMIT for `d` in view `v`. */
  ghost predicate VotedFor(st: Votes, p: int, v: int, d: Digest) {
    p in st.ballots && v in st.ballots[p].voted && st.ballots[p].voted[v] == d
  }

  /** `p` voted for `d` in view `v`, or has not voted there and may still do so. */
  ghost predicate MayVote(st: Votes, p: int, v: int, d: Digest) {
    VotedFor(st, p, v, d) || (p in st.ballots && v !in st.ballots[p].voted && st.ballots[p].view <= v)
  }

  ghost predicate AllVoted(m: Membership, st: Votes, q: set<int>, v: int, d: Digest) {
    m.IsQuorum(q) && forall p :: p in q && m.Correct(p) ==> VotedFor(st, p, v, d)
  }

  ghost predicate AllMayVote(m: Membership, st: Votes, q: set<int>, v: int, d: Digest) {
    m.IsQuorum(q) && forall p :: p in q && m.Correct(p) ==> MayVote(st, p, v, d)
  }

  /** A quorum whose correct members all sent a COMMIT for `d` in view `v`. */
  ghost predicate Chosen(m: Membership, st: Votes, v: int, d: Digest) {
    exists q: set<int> :: AllVoted(m, st, q, v, d)
  }

  /** A quorum that has committed, or could still commit, `d` in view `v`. */
  ghost predicate Choosable(m: Membership, st: Votes, v: int, d: Digest) {
    exists q: set<int> :: AllMayVote(m, st, q, v, d)
  }

  /** No digest other than `d` is or can become chosen in a view below `u`. */
  ghost predicate Safe(m: Membership, st: Votes, u: int, d: Digest) {
    forall v: int, d': Digest :: 0 <= v < u && Choosable(m, st, v, d') ==> d' == d
  }

  ghost predicate BallotInv(m: Membership, st: Votes, b: Ballot) {
    && (forall v :: v in b.voted ==> v in b.accepted && b.accepted[v] == b.voted[v])
    && (forall v :: v in b.accepted ==> 0 <= v <= b.view && Safe(m, st, v, b.accepted[v]))
  }

  ghost predicate Inv(m: Membership, st: Votes) {
    && WellFormed(m, st)
    && (forall p :: p in st.ballots ==> BallotInv(m, st, st.ballots[p]))
    && (forall c :: c in st.claims ==> c.sender in st.ballots && Truthful(st.ballots[c.sender], c))
  }

  // ---------- Proofs ----------

  /** Nothing new becomes choosable. */
  lemma ChoosableShrinks(m: Membership, st: Votes, st': Votes, v: int, d: Digest)
    requires WellFormed(m, st) && Next(m, st, st') && Choosable(m, st', v, d)
    ensures Choosable(m, st, v, d)
  {
    var q: set<int> :| AllMayVote(m, st', q, v, d);
    forall p | p in q && m.Correct(p)
      ensures MayVote(st, p, v, d)
    {
      assert MayVote(st', p, v, d) && BallotStep(m, st, st.ballots[p], st'.ballots[p]);
    }
    assert AllMayVote(m, st, q, v, d);
  }

  lemma ChosenIsChoosable(m: Membership, st: Votes, v: int, d: Digest)
    requires WellFormed(m, st) && Chosen(m, st, v, d)
    ensures Choosable(m, st, v, d)
  {
    var q: set<int> :| AllVoted(m, st, q, v, d);
    assert AllMayVote(m, st, q, v, d);
  }

  /** Condition B rules out every earlier decision. */
  lemma CondBExcludes(m: Membership, st: Votes, u: int, vs: map<int, Claim>, v: int, d: Digest)
    requires Inv(m, st) && Genuine(m, st, u, vs) && CondB(m.F(), vs) && v < u
    ensures !Choosable(m, st, v, d)
  {
    forall q: set<int>
      ensures !AllMayVote(m, st, q, v, d)
    {
      if m.IsQuorum(q) {
        var b := QuorumsShareCorrect(m, q, Unprepared(vs));
        assert vs[b] in st.claims && Truthful(st.ballots[b], vs[b]);
        assert !MayVote(st, b, v, d);
      }
    }
  }

  /** Conditions A1 and A2 for `e` rule out every earlier decision on another digest. */
  lemma CondAExcludes(m: Membership, st: Votes, u: int, vs: map<int, Claim>, e: Entry, v: int, d: Digest)
    requires Inv(m, st) && Genuine(m, st, u, vs) && CondA(m.F(), vs, e) && 0 <= v < u && Choosable(m, st, v, d)
    ensures d == e.digest
  {
    var q: set<int> :| AllMayVote(m, st, q, v, d);
    var b := QuorumsShareCorrect(m, q, Consistent(vs, e));
    assert MayVote(st, b, v, d) && vs[b] in st.claims && Truthful(st.ballots[b], vs[b]);
    assert v <= e.view;
    if v < e.view {
      var w := WeakQuorumHasCorrect(m, Supporting(vs, e));
      assert vs[w] in st.claims && Truthful(st.ballots[w], vs[w]) && BallotInv(m, st, st.ballots[w]);
      assert Safe(m, st, vs[w].q.value.view, e.digest);
    }
  }

  /** A digest justified by genuine claims is safe: whatever an earlier view decided, or could
      still decide, is that digest. */
  lemma JustifiedIsSafe(m: Membership, st: Votes, u: int, d: Digest)
    requires Inv(m, st) && Justified(m, st, u, d)
    ensures Safe(m, st, u, d)
  {
    var vs: map<int, Claim> :| JustifiedBy(m, st, u, d, vs);
    forall v: int, d': Digest | 0 <= v < u && Choosable(m, st, v, d')
      ensures d' == d
    {
      if CondB(m.F(), vs) {
        CondBExcludes(m, st, u, vs, v, d');
      } else {
        var e: Entry :| e.digest == d && CondA(m.F(), vs, e);
        CondAExcludes(m, st, u, vs, e, v, d');
      }
    }
  }

  lemma SafeIsStable(m: Membership, st: Votes, st': Votes, u: int, d: Digest)
    requires WellFormed(m, st) && Next(m, st, st') && Safe(m, st, u, d)
    ensures Safe(m, st', u, d)
  {
    forall v: int, d': Digest | 0 <= v < u && Choosable(m, st', v, d')
      ensures d' == d
    {
      ChoosableShrinks(m, st, st', v, d');
    }
  }

  lemma ChosenIsStable(m: Membership, st: Votes, st': Votes, v: int, d: Digest)
    requires WellFormed(m, st) && Next(m, st, st') && Chosen(m, st, v, d)
    ensures Chosen(m, st', v, d)
  {
    var q: set<int> :| AllVoted(m, st, q, v, d);
    forall p | p in q && m.Correct(p)
      ensures VotedFor(st', p, v, d)
    {
      assert VotedFor(st, p, v, d) && BallotStep(m, st, st.ballots[p], st'.ballots[p]);
    }
    assert AllVoted(m, st', q, v, d);
  }

  lemma InitInv(m: Membership, st: Votes)
    requires Init(m, st)
    ensures Inv(m, st)
  {
  }

  lemma BallotInvStep(m: Membership, st: Votes, st': Votes, p: int)
    requires Inv(m, st) && Next(m, st, st') && p in st.ballots
    ensures BallotInv(m, st', st'.ballots[p])
  {
    var b, b' := st.ballots[p], st'.ballots[p];
    assert BallotStep(m, st, b, b') && BallotInv(m, st, b);
    forall v | v in b'.accepted
      ensures 0 <= v <= b'.view && Safe(m, st', v, b'.accepted[v])
    {
      if v !in b.accepted && v > 0 {
        JustifiedIsSafe(m, st, v, b'.accepted[v]);
      }
      SafeIsStable(m, st, st', v, b'.accepted[v]);
    }
  }

  lemma ClaimStaysTruthful(m: Membership, st: Votes, st': Votes, c: Claim)
    requires Inv(m, st) && Next(m, st, st') && c in st.claims
    ensures c.sender in st'.ballots && Truthful(st'.ballots[c.sender], c)
  {
    assert Truthful(st.ballots[c.sender], c);
    assert BallotStep(m, st, st.ballots[c.sender], st'.ballots[c.sender]);
  }

  /** Every step keeps the invariant. */
  lemma NextInv(m: Membership, st: Votes, st': Votes)
    requires Inv(m, st) && Next(m, st, st')
    ensures Inv(m, st')
  {
    forall p | p in st'.ballots
      ensures BallotInv(m, st', st'.ballots[p])
    {
      BallotInvStep(m, st, st', p);
    }
    forall c | c in st'.claims
      ensures c.sender in st'.ballots && Truthful(st'.ballots[c.sender], c)
    {
      if c in st.claims {
        ClaimStaysTruthful(m, st, st', c);
      }
    }
  }

  /** At most one digest is ever chosen, in one view or across views. */
  lemma ChosenAgree(m: Membership, st: Votes, v1: int, d1: Digest, v2: int, d2: Digest)
    requires Inv(m, st) && Chosen(m, st, v1, d1) && Chosen(m, st, v2, d2)
    ensures d1 == d2
    decreases v1 > v2
  {
    if v1 > v2 {
      ChosenAgree(m, st, v2, d2, v1, d1);
    } else {
      var q1: set<int> :| AllVoted(m, st, q1, v1, d1);
      var q2: set<int> :| AllVoted(m, st, q2, v2, d2);
      var b := QuorumsShareCorrect(m, q1, q2);
      assert VotedFor(st, b, v1, d1) && VotedFor(st, b, v2, d2) && BallotInv(m, st, st.ballots[b]);
      if v1 < v2 {
        ChosenIsChoosable(m, st, v1, d1);
        assert Safe(m, st, v2, d2);
      }
    }
  }
}
