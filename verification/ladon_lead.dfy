/** Proposing in the Ladon layer: ranks received from other peers make the leader skip sequence
    numbers of its segment. */
module LadonLead {
  import opened Arithmetic
  import opened Ladon
  import Segments

  /** A segment, its number over all epochs, and the number of nodes. The distance of the segment's numbers is
      the number of leaders in its epoch, which may be smaller than the number of nodes. */
  datatype Lead = Lead(seg: Segment, segId: nat, nodes: int) {
    ghost predicate Valid() {
      seg.n > 0 && seg.len > 0 && seg.first >= 0 && nodes > 0
    }

    /** All nodes lead and the segment's first number has the remainder of its ID. */
    ghost predicate Aligned()
      requires Valid()
    {
      seg.n == nodes && seg.first % nodes == segId % nodes
    }

    ghost function Last(): int
      requires seg.len > 0
    {
      seg.Sn(seg.len - 1)
    }
  }

  /** The highest of the known ranks. */
  ghost predicate IsMax(ranks: seq<int>, m: int) {
    m in ranks && forall r :: r in ranks ==> r <= m
  }

  method Highest(ranks: seq<int>) returns (m: int)
    requires |ranks| > 0
    ensures IsMax(ranks, m)
  {
    m := ranks[0];
    for i := 0 to |ranks|
      invariant m in ranks && forall j :: 0 <= j < i ==> ranks[j] <= m
    {
      if ranks[i] > m {
        m := ranks[i];
      }
    }
  }

  /** The sequence number that follows the highest known rank. */
  function Target(l: Lead, m: int): int
    requires l.nodes > 0
  {
    (m + 1) * l.nodes + l.segId % l.nodes
  }

  /** What is proposed when `sn` is next and the highest known rank is `m`. */
  ghost function Proposal(l: Lead, sn: int, m: int): int
    requires l.Valid()
  {
    var target := Target(l, m);
    if sn < target < l.Last() then target
    else if target >= l.Last() then l.Last()
    else sn
  }

  // ---------- Members of a segment ----------

  lemma {:induction false} MemberRemainder(g: Segment, k: nat)
    requires g.n > 0
    ensures (g.Sn(k) - g.first) % g.n == 0
  {
    NthIs(g.first, g.n, k);
    QuotientIs(g.Sn(k) - g.first, g.n, k, 0);
  }

  lemma NthMember(g: Segment, sn: int)
    requires g.n > 0 && g.len > 0 && g.first <= sn <= g.Sn(g.len - 1) && (sn - g.first) % g.n == 0
    ensures g.IsSn(sn)
  {
    var k := (sn - g.first) / g.n;
    NthIs(g.first, g.n, g.len - 1);
    assert sn - g.first == k * g.n;
    assert k * g.n == (k - (g.len - 1)) * g.n + (g.len - 1) * g.n;
    if k < 0 {
      MulAtLeast(-k, g.n);
    } else if k >= g.len {
      MulAtLeast(k - (g.len - 1), g.n);
    } else {
      NthIs(g.first, g.n, k);
      assert sn == g.Sn(k);
    }
  }

  /** A number with another remainder is not in the segment. */
  lemma NotMember(g: Segment, sn: int)
    requires g.n > 0 && (sn - g.first) % g.n != 0
    ensures !g.IsSn(sn)
  {
    forall k: nat | k < g.len
      ensures sn != g.Sn(k)
    {
      MemberRemainder(g, k);
    }
  }

  lemma NthBounds(g: Segment, k: nat)
    requires g.n > 0 && k < g.len
    ensures g.first <= g.Sn(k) <= g.Sn(g.len - 1)
  {
    NthOrdered(g.first, g.n, 0, k);
    NthOrdered(g.first, g.n, k, g.len - 1);
  }

  // ---------- Targets ----------

  /** The least target above the first number. */
  function FirstTarget(l: Lead): int
    requires l.nodes > 0
  {
    l.seg.first + 1 + (l.segId - l.seg.first - 1) % l.nodes
  }

  lemma TargetRemainder(l: Lead, m: int)
    requires l.nodes > 0
    ensures Target(l, m) % l.nodes == l.segId % l.nodes
  {
    ModPlus(l.segId % l.nodes, m + 1, l.nodes);
    QuotientIs(l.segId % l.nodes, l.nodes, 0, l.segId % l.nodes);
  }

  lemma FirstTargetRemainder(l: Lead)
    requires l.nodes > 0
    ensures FirstTarget(l) % l.nodes == l.segId % l.nodes
    ensures l.seg.first < FirstTarget(l) <= l.seg.first + l.nodes
  {
    var x := l.segId - l.seg.first - 1;
    ModPlus(l.segId, -(x / l.nodes), l.nodes);
    assert x == x / l.nodes * l.nodes + x % l.nodes;
    assert FirstTarget(l) == l.segId + -(x / l.nodes) * l.nodes;
  }

  /** The targets above the first number are the first target and those any number of rounds of all nodes after it. */
  lemma TargetsAbove(l: Lead, m: int) returns (j: nat)
    requires l.nodes > 0 && Target(l, m) > l.seg.first
    ensures Target(l, m) == FirstTarget(l) + j * l.nodes
  {
    var t, t0 := Target(l, m), FirstTarget(l);
    TargetRemainder(l, m);
    FirstTargetRemainder(l);
    SameRemainder(t0, t, l.nodes);
    var d := t / l.nodes - t0 / l.nodes;
    if d < 0 {
      MulAtLeast(-d, l.nodes);
    }
    j := d;
  }

  /** Some rank leads to each of them. */
  lemma TargetAt(l: Lead, j: nat) returns (m: int)
    requires l.Valid()
    ensures m >= -1 && Target(l, m) == FirstTarget(l) + j * l.nodes
  {
    var t := FirstTarget(l) + j * l.nodes;
    FirstTargetRemainder(l);
    ModPlus(FirstTarget(l), j, l.nodes);
    var q := t / l.nodes;
    assert t == q * l.nodes + t % l.nodes;
    m := q - 1;
    if q < 0 {
      MulAtLeast(-q, l.nodes);
    }
  }

  // ---------- Proposals stay in the segment ----------

  /** Whether every proposal is a member of the segment, whatever ranks, which are never below -1, are received. */
  ghost predicate AlwaysMember(l: Lead)
    requires l.Valid()
  {
    forall k: nat, m: int :: k < l.seg.len && m >= -1 ==> l.seg.IsSn(Proposal(l, l.seg.Sn(k), m))
  }

  /** No target lies inside the segment, or the first one does and is a member, and it is the only one or the
      number of nodes is a multiple of the segment's distance. */
  ghost predicate Fits(l: Lead)
    requires l.Valid()
  {
    var t := FirstTarget(l);
    || t >= l.Last()
    || ((t - l.seg.first) % l.seg.n == 0 && (t + l.nodes >= l.Last() || l.nodes % l.seg.n == 0))
  }

  lemma MultipleOf(j: nat, x: int, n: int)
    requires n > 0 && x % n == 0
    ensures j * x % n == 0
  {
    assert x == x / n * n;
    assert j * x == (j * (x / n)) * n;
    QuotientIs(j * x, n, j * (x / n), 0);
  }

  /** A target inside a segment that fits is a member. */
  lemma TargetFits(l: Lead, m: int)
    requires l.Valid() && Fits(l) && l.seg.first < Target(l, m) < l.Last()
    ensures l.seg.IsSn(Target(l, m))
  {
    var j := TargetsAbove(l, m);
    var t := FirstTarget(l);
    if j > 0 {
      MulAtLeast(j, l.nodes);
      MultipleOf(j, l.nodes, l.seg.n);
      PlusMultiple(t - l.seg.first, j * l.nodes, l.seg.n);
    }
    NthMember(l.seg, Target(l, m));
  }

  /** A proposal lies between the next sequence number and the last, and is a member of a segment that fits. */
  lemma ProposalPlaced(l: Lead, k: nat, m: int)
    requires l.Valid() && k < l.seg.len
    ensures l.seg.Sn(k) <= Proposal(l, l.seg.Sn(k), m) <= l.Last()
    ensures Fits(l) ==> l.seg.IsSn(Proposal(l, l.seg.Sn(k), m))
  {
    NthBounds(l.seg, k);
    if l.seg.Sn(k) < Target(l, m) < l.Last() && Fits(l) {
      TargetFits(l, m);
    }
  }

  /** A rank that leads the leader of a segment that does not fit outside of it. */
  lemma Stray(l: Lead) returns (m: int)
    requires l.Valid() && !Fits(l)
    ensures m >= -1 && !l.seg.IsSn(Proposal(l, l.seg.Sn(0), m))
  {
    var t := FirstTarget(l);
    FirstTargetRemainder(l);
    if (t - l.seg.first) % l.seg.n != 0 {
      m := TargetAt(l, 0);
      NotMember(l.seg, t);
    } else {
      m := TargetAt(l, 1);
      PlusMultiple(l.nodes, t - l.seg.first, l.seg.n);
      NotMember(l.seg, t + l.nodes);
    }
  }

  /** Fitting is exactly what keeps all proposals inside the segment. */
  lemma AlwaysMemberIff(l: Lead)
    requires l.Valid()
    ensures AlwaysMember(l) <==> Fits(l)
  {
    if Fits(l) {
      forall k: nat, m: int | k < l.seg.len && m >= -1
        ensures l.seg.IsSn(Proposal(l, l.seg.Sn(k), m))
      {
        ProposalPlaced(l, k, m);
      }
    } else {
      var m := Stray(l);
    }
  }

  /** Where all nodes lead, a segment of more than one number fits exactly if it is aligned. */
  lemma AllLeadIff(l: Lead)
    requires l.Valid() && l.seg.n == l.nodes && l.seg.len > 1
    ensures AlwaysMember(l) <==> l.Aligned()
  {
    AlwaysMemberIff(l);
    var t, n := FirstTarget(l), l.nodes;
    FirstTargetRemainder(l);
    NthIs(l.seg.first, n, 1);
    NthBounds(l.seg, 1);
    assert t == l.seg.first + n || t < l.Last();
    QuotientIs(n, n, 1, 0);
    if l.Aligned() {
      SameRemainder(l.seg.first, t, n);
      QuotientIs(t - l.seg.first, n, t / n - l.seg.first / n, 0);
    }
    if (t - l.seg.first) % n == 0 {
      PlusMultiple(l.seg.first, t - l.seg.first, n);
    }
  }

  /** Whether `v` is above every rank: for each of them, at least the number that follows it. */
  ghost predicate Above(l: Lead, ranks: seq<int>, v: int)
    requires l.nodes > 0
  {
    forall r :: r in ranks ==> (r + 1) * l.nodes + l.segId % l.nodes <= v
  }

  /** `v` is the least number from `sn` on that is above the ranks, or the last number of the segment if that is less.
      */
  ghost predicate LeastAbove(l: Lead, ranks: seq<int>, sn: int, v: int)
    requires l.Valid()
  {
    && sn <= v <= l.Last() && (v == l.Last() || Above(l, ranks, v))
    && forall w :: sn <= w < v ==> !Above(l, ranks, w)
  }

  lemma RanksOrdered(r: int, m: int, n: int)
    requires r <= m && n > 0
    ensures (r + 1) * n <= (m + 1) * n
  {
    if r < m {
      MulAtLeast(m - r, n);
      assert (m + 1) * n == (r + 1) * n + (m - r) * n;
    }
  }

  /** The proposal for the highest rank is the least number above all of them. */
  lemma ProposalLeast(l: Lead, ranks: seq<int>, k: nat, m: int)
    requires l.Valid() && k < l.seg.len && IsMax(ranks, m)
    ensures LeastAbove(l, ranks, l.seg.Sn(k), Proposal(l, l.seg.Sn(k), m))
  {
    NthBounds(l.seg, k);
    forall r | r in ranks
      ensures (r + 1) * l.nodes + l.segId % l.nodes <= Target(l, m)
    {
      RanksOrdered(r, m, l.nodes);
    }
    forall w | w < Target(l, m)
      ensures !Above(l, ranks, w)
    {
      assert (m + 1) * l.nodes + l.segId % l.nodes > w;
    }
  }

  /** The `i`-th proposal was made when the `k`-th number of the segment was the least above the previous proposal. */
  ghost predicate MadeAt(sns: seq<int>, proposals: seq<int>, i: int, k: int)
    requires 0 <= i < |proposals|
  {
    && 0 <= k < |sns| && (if i == 0 then k == 0 else proposals[i - 1] < sns[k])
    && (i > 0 && k > 0 ==> sns[k - 1] <= proposals[i - 1])
  }

  /** Every proposal is the least number above the ranks known when it was made. */
  ghost predicate FollowsRanks(l: Lead, sns: seq<int>, ranks: int -> seq<int>, proposals: seq<int>)
    requires l.Valid()
  {
    forall i :: 0 <= i < |proposals| ==> Right(l, sns, ranks, proposals, i)
  }

  ghost predicate Right(l: Lead, sns: seq<int>, ranks: int -> seq<int>, proposals: seq<int>, i: int)
    requires l.Valid() && 0 <= i < |proposals|
  {
    exists k :: RightAt(l, sns, ranks, proposals, i, k)
  }

  ghost predicate RightAt(l: Lead, sns: seq<int>, ranks: int -> seq<int>, proposals: seq<int>, i: int, k: int)
    requires l.Valid() && 0 <= i < |proposals|
  {
    MadeAt(sns, proposals, i, k) && LeastAbove(l, ranks(sns[k]), sns[k], proposals[i])
  }

  lemma RightStays(l: Lead, sns: seq<int>, ranks: int -> seq<int>, proposals: seq<int>, v: int, i: nat, k: int)
    requires l.Valid() && i < |proposals| && RightAt(l, sns, ranks, proposals, i, k)
    ensures RightAt(l, sns, ranks, proposals + [v], i, k)
  {
    var more := proposals + [v];
    assert more[i] == proposals[i] && (i > 0 ==> more[i - 1] == proposals[i - 1]);
  }

  lemma FollowsNext(l: Lead, sns: seq<int>, ranks: int -> seq<int>, proposals: seq<int>, k: int, v: int)
    requires l.Valid() && FollowsRanks(l, sns, ranks, proposals) && MadeAt(sns, proposals + [v], |proposals|, k)
    requires LeastAbove(l, ranks(sns[k]), sns[k], v)
    ensures FollowsRanks(l, sns, ranks, proposals + [v])
  {
    var more := proposals + [v];
    forall i | 0 <= i < |more|
      ensures Right(l, sns, ranks, more, i)
    {
      if i < |proposals| {
        assert Right(l, sns, ranks, proposals, i);
        var j :| RightAt(l, sns, ranks, proposals, i, j);
        RightStays(l, sns, ranks, proposals, v, i, j);
      } else {
        assert RightAt(l, sns, ranks, more, i, k);
      }
    }
  }

  /** Chooses what to propose when `sn` is next. */
  method ProposeOne(l: Lead, ghost k: nat, sn: int, last: int, ranks: seq<int>) returns (next: int)
    requires l.Valid() && k < l.seg.len && sn == l.seg.Sn(k) && last == l.Last() && |ranks| > 0
    ensures LeastAbove(l, ranks, sn, next) && sn <= next <= last
    ensures Fits(l) ==> l.seg.IsSn(next)
  {
    var m := Highest(ranks);
    ProposalPlaced(l, k, m);
    ProposalLeast(l, ranks, k, m);
    var target := Target(l, m);
    next := sn;
    if sn < target < last {
      next := target;
    } else if target >= last {
      next := last;
    }
  }

  /** Runs the proposing loop. `ranks(sn)` is what is known when `sn` is next. The proposals are strictly
      increasing, lie within the segment's bounds and end with its last sequence number; each is the least number above
      the ranks known at the time, and all are members of the segment if it fits. */
  method Propose(l: Lead, sns: seq<int>, ranks: int -> seq<int>) returns (proposals: seq<int>)
    requires l.Valid()
    requires |sns| == l.seg.len && forall k: nat :: k < |sns| ==> sns[k] == l.seg.Sn(k)
    requires forall sn :: |ranks(sn)| > 0
    ensures |proposals| > 0 && proposals[|proposals| - 1] == l.Last()
    ensures forall i, j :: 0 <= i < j < |proposals| ==> proposals[i] < proposals[j]
    ensures forall i :: 0 <= i < |proposals| ==> l.seg.first <= proposals[i]
    ensures FollowsRanks(l, sns, ranks, proposals)
    ensures Fits(l) ==> forall i :: 0 <= i < |proposals| ==> l.seg.IsSn(proposals[i])
  {
    proposals := [];
    var last := sns[|sns| - 1];
    var lastProposed := -1;
    for k := 0 to |sns|
      invariant lastProposed == if |proposals| == 0 then -1 else proposals[|proposals| - 1]
      invariant k > 0 ==> |proposals| > 0 && sns[k - 1] <= lastProposed
      invariant |proposals| > 0 ==> lastProposed <= l.Last()
      invariant forall i, j :: 0 <= i < j < |proposals| ==> proposals[i] < proposals[j]
      invariant forall i :: 0 <= i < |proposals| ==> l.seg.first <= proposals[i]
      invariant FollowsRanks(l, sns, ranks, proposals)
      invariant Fits(l) ==> forall i :: 0 <= i < |proposals| ==> l.seg.IsSn(proposals[i])
    {
      var sn := sns[k];
      NthBounds(l.seg, k);
      if sn <= lastProposed {
        continue;
      }
      var next := ProposeOne(l, k, sn, last, ranks(sn));
      FollowsNext(l, sns, ranks, proposals, k, next);
      proposals := proposals + [next];
      lastProposed := next;
    }
  }

  /** If all `n` nodes lead in every epoch and `n` divides the epoch length, then every segment ever issued is such
      that all its proposals, whatever ranks are received, are members of it. */
  lemma IssuedSegmentsPlaced(c: Segments.Config, epochs: seq<seq<int>>, segs: seq<Segments.Segment>, n: nat, i: nat)
    requires Segments.Issued(c, epochs, segs) && n > 0 && c.Length(n) % n == 0
    requires forall e :: 0 <= e < |epochs| ==> |epochs[e]| == n
    requires i < |segs| && |segs[i].sns| > 0
    ensures segs[i].offset >= 0 && AlwaysMember(Lead(Segment(segs[i].offset, n, |segs[i].sns|), segs[i].id, n))
  {
    Segments.LogAligned(c, epochs, segs, n);
    Segments.LogTiled(c, epochs, segs);
    Segments.StartsAtOffset(c, epochs, segs, i);
    var l := Lead(Segment(segs[i].offset, n, |segs[i].sns|), segs[i].id, n);
    assert segs[i].sns[0] in segs[i].sns;
    if l.seg.len > 1 {
      AllLeadIff(l);
    } else {
      FirstTargetRemainder(l);
      AlwaysMemberIff(l);
    }
  }

  // ---------- Which issued segments fit ----------

  function LeadOf(s: Segments.Segment, nodes: int): Lead {
    Lead(Segment(s.offset, s.distance, |s.sns|), s.id, nodes)
  }

  /** How far above a segment's first number its first target is, if `delta` is the difference of its ID and its first
      number, which is the same for all segments of an epoch. */
  function Gap(delta: int, nodes: int): int
    requires nodes > 0
  {
    1 + (delta - 1) % nodes
  }

  /** A segment that spans `span` numbers above its first one, `m` apart, fits. */
  predicate GapFits(gap: int, span: int, m: int, nodes: int)
    requires m > 0
  {
    gap >= span || (gap % m == 0 && (gap + nodes >= span || nodes % m == 0))
  }

  /** How far the last number of the first, and longest, of `m` segments is above its first one. */
  function Span(total: nat, m: nat): int
    requires m > 0
  {
    (Segments.Share(total, m, 0) - 1) * m
  }

  /** All segments of an epoch of `total` numbers with `m` leaders fit. */
  predicate EpochFits(total: nat, m: nat, delta: int, nodes: int)
    requires m > 0 && nodes > 0
  {
    total == 0 || GapFits(Gap(delta, nodes), Span(total, m), m, nodes)
  }

  lemma FitsByGap(l: Lead)
    requires l.Valid()
    ensures Fits(l) <==> GapFits(Gap(l.segId - l.seg.first, l.nodes), (l.seg.len - 1) * l.seg.n, l.seg.n, l.nodes)
  {
    NthIs(l.seg.first, l.seg.n, l.seg.len - 1);
    assert FirstTarget(l) == l.seg.first + Gap(l.segId - l.seg.first, l.nodes);
  }

  /** Every segment of the epoch that has a number always proposes members of it. */
  ghost predicate AllPlaced(segs: seq<Segments.Segment>, nodes: int) {
    forall i :: 0 <= i < |segs| && LeadOf(segs[i], nodes).Valid() ==> AlwaysMember(LeadOf(segs[i], nodes))
  }

  lemma SpanMonotone(a: int, b: int, m: int)
    requires a <= b && m > 0
    ensures a * m <= b * m
  {
    if a < b {
      MulAtLeast(b - a, m);
      assert b * m == a * m + (b - a) * m;
    }
  }

  lemma SegmentPlacedIff(s: Segments.Segment, leaders: seq<int>, i: nat, total: nat, start: nat, firstId: nat,
                         nodes: int)
    requires i < |leaders| && Segments.IsSegment(s, leaders, i, total, start, firstId) && nodes > 0 && |s.sns| > 0
    ensures LeadOf(s, nodes).Valid()
    ensures AlwaysMember(LeadOf(s, nodes)) <==>
            GapFits(Gap(firstId - start, nodes), (|s.sns| - 1) * |leaders|, |leaders|, nodes)
    ensures (|s.sns| - 1) * |leaders| <= Span(total, |leaders|)
  {
    var l := LeadOf(s, nodes);
    AlwaysMemberIff(l);
    FitsByGap(l);
    assert l.segId - l.seg.first == firstId - start;
    SpanMonotone(|s.sns| - 1, Segments.Share(total, |leaders|, 0) - 1, |leaders|);
  }

  /** The proposals of all segments of an epoch stay inside them if and only if its first segment fits, which is a
      matter of the epoch's length, the numbers of leaders and nodes, and where the epoch starts. */
  lemma EpochPlacedIff(segs: seq<Segments.Segment>, leaders: seq<int>, total: nat, start: nat, firstId: nat, nodes: int)
    requires leaders != [] && Segments.AreSegments(segs, leaders, total, start, firstId) && nodes > 0
    ensures AllPlaced(segs, nodes) <==> EpochFits(total, |leaders|, firstId - start, nodes)
  {
    var m := |leaders|;
    forall i | 0 <= i < |segs| && LeadOf(segs[i], nodes).Valid()
      ensures EpochFits(total, m, firstId - start, nodes) ==> AlwaysMember(LeadOf(segs[i], nodes))
    {
      SegmentPlacedIff(segs[i], leaders, i, total, start, firstId, nodes);
      NoneOfNothing(total, m, i);
    }
    if AllPlaced(segs, nodes) && total > 0 {
      SomeForFirst(total, m);
      SegmentPlacedIff(segs[0], leaders, 0, total, start, firstId, nodes);
    }
  }

  lemma NoneOfNothing(total: nat, m: nat, i: nat)
    requires m > 0 && Segments.Share(total, m, i) > 0
    ensures total > 0
  {
    if total == 0 {
      QuotientIs(0, m, 0, 0);
    }
  }

  lemma SomeForFirst(total: nat, m: nat)
    requires m > 0 && total > 0
    ensures Segments.Share(total, m, 0) > 0
  {
    if total < m {
      QuotientIs(total, m, 0, total);
    } else {
      assert total == total / m * m + total % m;
    }
  }

  /** The number of segments issued in epochs with these leaders. */
  function Count(epochs: seq<seq<int>>): nat {
    if epochs == [] then 0 else Count(epochs[..|epochs| - 1]) + |epochs[|epochs| - 1]|
  }

  /** All epochs fit. */
  predicate EpochsFit(c: Segments.Config, epochs: seq<seq<int>>, nodes: int)
    requires nodes > 0
  {
    epochs == [] ||
    var e := |epochs| - 1;
    && EpochsFit(c, epochs[..e], nodes) && |epochs[e]| > 0
    && EpochFits(c.Length(|epochs[e]|), |epochs[e]|, Count(epochs[..e]) - Segments.End(c, epochs[..e]), nodes)
  }

  /** For any leaders in all epochs: the proposals of all segments ever issued stay inside them if and only if all
      epochs fit. */
  lemma {:induction false} IssuedPlacedIff(c: Segments.Config, epochs: seq<seq<int>>, segs: seq<Segments.Segment>,
                                           nodes: int)
    requires Segments.Issued(c, epochs, segs) && nodes > 0
    ensures |segs| == Count(epochs) && (AllPlaced(segs, nodes) <==> EpochsFit(c, epochs, nodes))
  {
    if epochs != [] {
      var e := |epochs| - 1;
      var k := |segs| - |epochs[e]|;
      IssuedPlacedIff(c, epochs[..e], segs[..k], nodes);
      EpochPlacedIff(segs[k..], epochs[e], c.Length(|epochs[e]|), Segments.End(c, epochs[..e]), k, nodes);
      PlacedConcat(segs, k, nodes);
    }
  }

  lemma PlacedConcat(segs: seq<Segments.Segment>, k: nat, nodes: int)
    requires k <= |segs|
    ensures AllPlaced(segs, nodes) <==> AllPlaced(segs[..k], nodes) && AllPlaced(segs[k..], nodes)
  {
    assert forall i :: 0 <= i < k ==> segs[i] == segs[..k][i];
    assert forall i :: k <= i < |segs| ==> segs[i] == segs[k..][i - k];
    if AllPlaced(segs, nodes) {
      assert forall i :: 0 <= i < |segs[k..]| ==> segs[k..][i] == segs[k + i];
    }
  }

  /** In the first epoch, the segments fit if and only if the number of leaders divides the number of nodes or no
      segment reaches beyond the number of nodes. */
  lemma FirstEpochIff(segs: seq<Segments.Segment>, leaders: seq<int>, total: nat, nodes: int)
    requires leaders != [] && Segments.AreSegments(segs, leaders, total, 0, 0) && nodes > 0
    ensures AllPlaced(segs, nodes) <==> total == 0 || nodes % |leaders| == 0 || Span(total, |leaders|) <= nodes
  {
    EpochPlacedIff(segs, leaders, total, 0, 0, nodes);
    QuotientIs(-1, nodes, -1, nodes - 1);
    assert Gap(0, nodes) == nodes;
  }

  /** With four nodes, one of them banned, and epochs of twelve numbers, the first segment of the first epoch does not
      fit: rank 0 makes its leader propose 4, while its numbers are 0, 3, 6 and 9. */
  lemma OneOfFourBanned(segs: seq<Segments.Segment>, leaders: seq<int>)
    requires |leaders| == 3 && Segments.AreSegments(segs, leaders, 12, 0, 0)
    ensures var l := LeadOf(segs[0], 4);
            l.Valid() && segs[0].sns == [0, 3, 6, 9] && Proposal(l, 0, 0) == 4 && !l.seg.IsSn(4) && !AllPlaced(segs, 4)
  {
    assert Segments.IsSegment(segs[0], leaders, 0, 12, 0, 0);
    var l := LeadOf(segs[0], 4);
    NthIs(0, 3, 3);
    NotMember(l.seg, 4);
    FirstEpochIff(segs, leaders, 12, 4);
  }
}
