/** Membership arithmetic: how many peers may fail and what a quorum of peers guarantees. */
module Quorums {
  import opened Collections

  /** The number of faults `n` nodes are configured to tolerate. */
  function Faults(n: nat): nat {
    if n == 0 then 0 else (n - 1) / 3
  }

  function Quorum(n: nat): nat {
    2 * Faults(n) + 1
  }

  /** The peers of the system, some of which misbehave arbitrarily. */
  datatype Membership = Membership(peers: set<int>, faulty: set<int>) {

    ghost predicate Valid() {
      && |peers| % 3 == 1
      && faulty <= peers
      && |faulty| <= F()
    }

    function F(): nat {
      Faults(|peers|)
    }

    ghost predicate Correct(p: int) {
      p in peers && p !in faulty
    }

    ghost predicate IsQuorum(q: set<int>) {
      q <= peers && |q| >= 2 * F() + 1
    }
  }

  /** More than `f` peers always include a correct one. */
  lemma WeakQuorumHasCorrect(m: Membership, a: set<int>) returns (p: int)
    requires m.Valid() && a <= m.peers && |a| >= m.F() + 1
    ensures p in a && m.Correct(p)
  {
    if forall x :: x in a ==> x in m.faulty {
      SubsetSize(a, m.faulty);
      assert false;
    }
    p :| p in a && p !in m.faulty;
  }

  /** Any two quorums share a correct peer. */
  lemma QuorumsShareCorrect(m: Membership, a: set<int>, b: set<int>) returns (p: int)
    requires m.Valid() && m.IsQuorum(a) && m.IsQuorum(b)
    ensures p in a && p in b && m.Correct(p)
  {
    OverlapSize(a, b, m.peers);
    p := WeakQuorumHasCorrect(m, a * b);
  }

  /** Two quorums of a membership and no correct peer in both. */
  ghost predicate Split(m: Membership, a: set<int>, b: set<int>) {
    && m.faulty <= m.peers && |m.faulty| <= m.F()
    && m.IsQuorum(a) && m.IsQuorum(b)
    && forall p :: p in a && p in b ==> p in m.faulty
  }

  /** Whether quorums of size `Quorum(n)` among `n` peers always meet in a correct peer. */
  ghost predicate QuorumsMeet(n: nat) {
    forall m: Membership, a: set<int>, b: set<int> :: |m.peers| == n ==> !Split(m, a, b)
  }

  /** For n = 3f+2 and n = 3f+3 some two quorums overlap in faulty peers alone. */
  lemma SplitExists(n: nat) returns (m: Membership, a: set<int>, b: set<int>)
    requires n > 0 && n % 3 != 1
    ensures |m.peers| == n && Split(m, a, b)
  {
    var f, q := Faults(n), Quorum(n);
    assert n == 3 * f + 2 || n == 3 * f + 3;
    a, b := Interval(0, q), Interval(n - q, n);
    var shared := if n - q <= q then Interval(n - q, q) else {};
    assert |shared| <= f;
    m := Membership(Interval(0, n), shared);
    assert m.F() == f;
    assert forall p :: p in a && p in b ==> p in shared;
  }

  /** The quorum size is sound exactly for n = 3f+1. */
  lemma QuorumsMeetIff(n: nat)
    requires n > 0
    ensures QuorumsMeet(n) <==> n % 3 == 1
  {
    if n % 3 == 1 {
      forall m: Membership, a: set<int>, b: set<int> | |m.peers| == n
        ensures !Split(m, a, b)
      {
        if Split(m, a, b) {
          var p := QuorumsShareCorrect(m, a, b);
        }
      }
    } else {
      var m, a, b := SplitExists(n);
    }
  }
}
