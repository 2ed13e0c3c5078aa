/** Dividing the log among leaders: every epoch is cut into one segment per leader, and the segments of all epochs
    together tile the log. */
module Segments {
  import opened Arithmetic
  import opened Collections

  datatype Config = Config(epochLength: nat, segmentLength: nat) {
    /** The number of sequence numbers in an epoch with `m` leaders. */
    function Length(m: nat): nat {
      if segmentLength != 0 then segmentLength * m else epochLength
    }
  }

  datatype Segment = Segment(id: nat, leader: int, offset: int, distance: nat, sns: seq<int>)

  /** How many of `total` numbers the `i`-th of `m` leaders gets. */
  function Share(total: nat, m: nat, i: nat): nat
    requires m > 0
  {
    total / m + if i < total % m then 1 else 0
  }

  ghost predicate Progression(sns: seq<int>, offset: int, distance: nat) {
    forall j :: 0 <= j < |sns| ==> sns[j] == offset + j * distance
  }

  /** The `i`-th segment of an epoch that starts at `start`. */
  ghost predicate IsSegment(s: Segment, leaders: seq<int>, i: nat, total: nat, start: int, firstId: nat)
    requires i < |leaders|
  {
    && s.id == firstId + i && s.leader == leaders[i] && s.offset == start + i && s.distance == |leaders|
    && |s.sns| == Share(total, |leaders|, i) && Progression(s.sns, s.offset, s.distance)
  }

  ghost predicate AreSegments(segs: seq<Segment>, leaders: seq<int>, total: nat, start: int, firstId: nat) {
    |segs| == |leaders| && forall i :: 0 <= i < |segs| ==> IsSegment(segs[i], leaders, i, total, start, firstId)
  }

  /** The segments hold every number from `lo` to below `hi` exactly once, and no other, each in increasing order. */
  ghost predicate Tiles(segs: seq<Segment>, lo: int, hi: int) {
    && (forall i, sn :: 0 <= i < |segs| && sn in segs[i].sns ==> lo <= sn < hi)
    && (forall sn :: lo <= sn < hi ==> Covered(segs, sn))
    && (forall i, j, sn :: 0 <= i < j < |segs| ==> !(sn in segs[i].sns && sn in segs[j].sns))
    && (forall i :: 0 <= i < |segs| ==> Increasing(segs[i].sns))
  }

  ghost predicate Covered(segs: seq<Segment>, sn: int) {
    exists i :: 0 <= i < |segs| && sn in segs[i].sns
  }

  // ---------- Cutting one epoch ----------

  method InitSNs(offset: int, distance: nat, length: nat) returns (sns: seq<int>)
    ensures |sns| == length && Progression(sns, offset, distance)
  {
    sns := [];
    for i := 0 to length
      invariant |sns| == i && Progression(sns, offset, distance)
    {
      sns := sns + [offset + i * distance];
    }
  }

  method SegmentLengths(total: nat, m: nat) returns (lengths: seq<nat>)
    requires m > 0
    ensures |lengths| == m && forall i :: 0 <= i < m ==> lengths[i] == Share(total, m, i)
  {
    var length, remainder := total / m, total % m;
    lengths := seq(m, i => length);
    for i := 0 to remainder
      invariant |lengths| == m
      invariant forall k :: 0 <= k < m ==> lengths[k] == length + if k < i then 1 else 0
    {
      lengths := lengths[i := lengths[i] + 1];
    }
  }

  method CreateSegments(c: Config, leaders: seq<int>, start: int, firstId: nat) returns (segs: seq<Segment>)
    requires leaders != []
    ensures AreSegments(segs, leaders, c.Length(|leaders|), start, firstId)
  {
    var total := c.Length(|leaders|);
    var lengths := SegmentLengths(total, |leaders|);
    segs := [];
    for i := 0 to |leaders|
      invariant |segs| == i && forall k :: 0 <= k < i ==> IsSegment(segs[k], leaders, k, total, start, firstId)
    {
      var sns := InitSNs(start + i, |leaders|, lengths[i]);
      segs := segs + [Segment(firstId + i, leaders[i], start + i, |leaders|, sns)];
    }
  }

  // ---------- One epoch is tiled ----------

  /** The numbers of a segment are those of the epoch with the segment's remainder. */
  lemma MemberIff(s: Segment, leaders: seq<int>, i: nat, total: nat, start: int, firstId: nat, sn: int)
    requires i < |leaders| && IsSegment(s, leaders, i, total, start, firstId)
    ensures sn in s.sns <==> start <= sn < start + total && (sn - start) % |leaders| == i
  {
    if sn in s.sns {
      var j :| 0 <= j < |s.sns| && s.sns[j] == sn;
      Forward(sn - start, total, |leaders|, i, j);
    }
    if start <= sn < start + total && (sn - start) % |leaders| == i {
      var j := Back(sn - start, total, |leaders|, i);
      assert s.sns[j] == sn;
    }
  }

  lemma Forward(x: int, total: nat, m: nat, i: nat, j: nat)
    requires i < m && j < Share(total, m, i) && x == i + j * m
    ensures 0 <= x < total && x % m == i
  {
    InShare(total, m, i, j);
    QuotientIs(x, m, j, i);
  }

  lemma Back(x: int, total: nat, m: nat, i: nat) returns (j: nat)
    requires i < m && 0 <= x < total && x % m == i
    ensures j < Share(total, m, i) && x == i + j * m
  {
    j := x / m;
    InShare(total, m, i, j);
  }

  /** A leader's share ends where the epoch does. */
  lemma InShare(total: nat, m: nat, i: nat, j: nat)
    requires i < m
    ensures j < Share(total, m, i) <==> i + j * m < total
  {
    var q, r := total / m, total % m;
    assert total == q * m + r;
    if j < q {
      MulAtLeast(q - j, m);
      assert q * m == j * m + (q - j) * m;
    } else if j > q {
      MulAtLeast(j - q, m);
      assert j * m == q * m + (j - q) * m;
    }
  }

  lemma ProgressionIncreases(sns: seq<int>, offset: int, distance: nat)
    requires Progression(sns, offset, distance) && distance > 0
    ensures Increasing(sns)
  {
    forall j, k | 0 <= j < k < |sns|
      ensures sns[j] < sns[k]
    {
      MulAtLeast(k - j, distance);
      assert k * distance == j * distance + (k - j) * distance;
    }
  }

  lemma EpochTiled(segs: seq<Segment>, leaders: seq<int>, total: nat, start: int, firstId: nat)
    requires leaders != [] && AreSegments(segs, leaders, total, start, firstId)
    ensures Tiles(segs, start, start + total)
  {
    forall i, sn | 0 <= i < |segs|
      ensures sn in segs[i].sns <==> start <= sn < start + total && (sn - start) % |leaders| == i
    {
      MemberIff(segs[i], leaders, i, total, start, firstId, sn);
    }
    forall sn | start <= sn < start + total
      ensures Covered(segs, sn)
    {
      var i := (sn - start) % |leaders|;
      assert sn in segs[i].sns;
    }
    forall i | 0 <= i < |segs|
      ensures Increasing(segs[i].sns)
    {
      ProgressionIncreases(segs[i].sns, segs[i].offset, segs[i].distance);
    }
  }

  /** Every leader gets the configured segment length, if there is one; otherwise the epoch is divided evenly, and what
      remains goes to the first leaders, one number each. */
  lemma EqualShares(c: Config, segs: seq<Segment>, leaders: seq<int>, start: int, firstId: nat, i: nat)
    requires leaders != [] && AreSegments(segs, leaders, c.Length(|leaders|), start, firstId) && i < |segs|
    ensures c.segmentLength != 0 ==> |segs[i].sns| == c.segmentLength
    ensures c.segmentLength == 0 ==>
              |segs[i].sns| == c.epochLength / |leaders| + if i < c.epochLength % |leaders| then 1 else 0
  {
    if c.segmentLength != 0 {
      QuotientIs(c.segmentLength * |leaders|, |leaders|, c.segmentLength, 0);
    }
  }

  lemma TilesConcat(a: seq<Segment>, b: seq<Segment>, lo: int, mid: int, hi: int)
    requires lo <= mid <= hi && Tiles(a, lo, mid) && Tiles(b, mid, hi)
    ensures Tiles(a + b, lo, hi)
  {
    var c := a + b;
    forall i, sn | 0 <= i < |c| && sn in c[i].sns
      ensures lo <= sn < hi && (sn < mid <==> i < |a|)
    {
      assert c[i] == if i < |a| then a[i] else b[i - |a|];
    }
    forall sn | lo <= sn < hi
      ensures Covered(c, sn)
    {
      if sn < mid {
        assert Covered(a, sn);
        var i :| 0 <= i < |a| && sn in a[i].sns;
        assert sn in c[i].sns;
      } else {
        assert Covered(b, sn);
        var i :| 0 <= i < |b| && sn in b[i].sns;
        assert sn in c[|a| + i].sns;
      }
    }
    forall i, j, sn | 0 <= i < j < |c|
      ensures !(sn in c[i].sns && sn in c[j].sns)
    {
      assert c[i] == if i < |a| then a[i] else b[i - |a|];
      assert c[j] == if j < |a| then a[j] else b[j - |a|];
    }
  }

  ghost predicate Numbered(segs: seq<Segment>) {
    forall i :: 0 <= i < |segs| ==> segs[i].id == i
  }

  lemma IdsConcat(a: seq<Segment>, b: seq<Segment>, leaders: seq<int>, total: nat, start: int)
    requires leaders != [] && Numbered(a) && AreSegments(b, leaders, total, start, |a|)
    ensures Numbered(a + b)
  {
  }

  /** If all epochs have `n` leaders and lengths that `n` divides, a segment's first number and its ID have the same
      remainder. */
  lemma AlignedStep(segs: seq<Segment>, leaders: seq<int>, total: nat, start: int, firstId: nat, i: nat)
    requires leaders != [] && AreSegments(segs, leaders, total, start, firstId) && i < |segs|
    requires start % |leaders| == 0 && firstId % |leaders| == 0 && total % |leaders| == 0
    ensures segs[i].offset % |leaders| == segs[i].id % |leaders| == i
    ensures (start + total) % |leaders| == 0 && (firstId + |segs|) % |leaders| == 0
  {
    var n := |leaders|;
    QuotientIs(i, n, 0, i);
    QuotientIs(n, n, 1, 0);
    PlusMultiple(i, start, n);
    PlusMultiple(i, firstId, n);
    PlusMultiple(start, total, n);
    PlusMultiple(firstId, n, n);
  }

  // ---------- Whole runs ----------

  /** The first sequence number after the epochs with these leaders, and the number of their segments. */
  function End(c: Config, epochs: seq<seq<int>>): nat {
    if epochs == [] then 0 else End(c, epochs[..|epochs| - 1]) + c.Length(|epochs[|epochs| - 1]|)
  }

  /** `segs` are the segments issued in epochs with these leaders. */
  ghost predicate Issued(c: Config, epochs: seq<seq<int>>, segs: seq<Segment>) {
    if epochs == [] then segs == []
    else
      var n := |epochs| - 1;
      var k := |segs| - |epochs[n]|;
      && epochs[n] != [] && k >= 0 && Issued(c, epochs[..n], segs[..k])
      && AreSegments(segs[k..], epochs[n], c.Length(|epochs[n]|), End(c, epochs[..n]), k)
  }

  /** Whatever the leaders of the epochs are, the segments issued so far tile the log up to the end of the last epoch.
      */
  lemma {:induction false} LogTiled(c: Config, epochs: seq<seq<int>>, segs: seq<Segment>)
    requires Issued(c, epochs, segs)
    ensures Tiles(segs, 0, End(c, epochs)) && Numbered(segs)
  {
    if epochs != [] {
      var n := |epochs| - 1;
      var k := |segs| - |epochs[n]|;
      LogTiled(c, epochs[..n], segs[..k]);
      var start, total := End(c, epochs[..n]), c.Length(|epochs[n]|);
      EpochTiled(segs[k..], epochs[n], total, start, k);
      TilesConcat(segs[..k], segs[k..], 0, start, start + total);
      IdsConcat(segs[..k], segs[k..], epochs[n], total, start);
      assert segs == segs[..k] + segs[k..];
    }
  }

  lemma {:induction false} StartsAtOffset(c: Config, epochs: seq<seq<int>>, segs: seq<Segment>, i: nat)
    requires Issued(c, epochs, segs) && i < |segs|
    ensures |segs[i].sns| > 0 ==> segs[i].sns[0] == segs[i].offset
  {
    if epochs != [] {
      var n := |epochs| - 1;
      var k := |segs| - |epochs[n]|;
      if i < k {
        StartsAtOffset(c, epochs[..n], segs[..k], i);
      } else {
        assert segs[i] == segs[k..][i - k];
      }
    }
  }

  /** If every epoch has `n` leaders and `n` divides its length, then every segment is aligned. */
  lemma {:induction false} LogAligned(c: Config, epochs: seq<seq<int>>, segs: seq<Segment>, n: nat)
    requires Issued(c, epochs, segs) && n > 0 && c.Length(n) % n == 0
    requires forall e :: 0 <= e < |epochs| ==> |epochs[e]| == n
    ensures End(c, epochs) % n == 0 && |segs| % n == 0
    ensures forall i :: 0 <= i < |segs| ==> segs[i].distance == n && segs[i].offset % n == segs[i].id % n
  {
    if epochs != [] {
      var e := |epochs| - 1;
      var k := |segs| - n;
      LogAligned(c, epochs[..e], segs[..k], n);
      var start := End(c, epochs[..e]);
      var more := segs[k..];
      forall i | 0 <= i < |segs|
        ensures segs[i].distance == n && segs[i].offset % n == segs[i].id % n
      {
        if i < k {
          assert segs[i] == segs[..k][i];
        } else {
          assert segs[i] == more[i - k];
          AlignedStep(more, epochs[e], c.Length(n), start, k, i - k);
        }
      }
      AlignedStep(more, epochs[e], c.Length(n), start, k, 0);
    }
  }

  // ---------- The epoch machine ----------

  class Manager {
    const cfg: Config
    var epoch: nat
    var nextSegmentId: nat
    /** The last sequence number of the current epoch. */
    var lastEpochSn: int
    /** The leaders of all epochs so far, and all segments issued. */
    ghost var epochs: seq<seq<int>>
    ghost var issued: seq<Segment>

    ghost predicate Valid()
      reads this
    {
      && |epochs| == epoch + 1 && Issued(cfg, epochs, issued)
      && lastEpochSn == End(cfg, epochs) - 1 && nextSegmentId == |issued|
    }

    /** Issues the segments of the first epoch. */
    constructor (cfg: Config, leaders: seq<int>)
      requires leaders != []
      ensures Valid() && this.cfg == cfg && epochs == [leaders] && Tiles(issued, 0, lastEpochSn + 1)
      ensures lastEpochSn + 1 == if cfg.segmentLength != 0 then cfg.segmentLength * |leaders| else cfg.epochLength
    {
      this.cfg := cfg;
      epoch := 0;
      var last := cfg.epochLength - 1;
      if cfg.segmentLength != 0 {
        last := cfg.segmentLength * |leaders| - 1;
      }
      lastEpochSn := last;
      var segs := CreateSegments(cfg, leaders, 0, 0);
      nextSegmentId := |segs|;
      issued, epochs := segs, [leaders];
      NextEpoch(cfg, [], [], leaders, segs);
      assert [] + [leaders] == [leaders] && [] + segs == segs;
      LogTiled(cfg, [leaders], segs);
    }

    /** Handles a delivered entry. The entry of the last sequence number of the epoch starts the next one, whose
        leaders are `leaders`. */
    method HandleEntry(sn: int, leaders: seq<int>) returns (segs: seq<Segment>)
      requires Valid() && leaders != []
      modifies this
      ensures Valid() && issued == old(issued) + segs && Tiles(issued, 0, lastEpochSn + 1)
      ensures epochs == if sn == old(lastEpochSn) then old(epochs) + [leaders] else old(epochs)
      ensures sn != old(lastEpochSn) ==> segs == [] && lastEpochSn == old(lastEpochSn)
      ensures var length := if cfg.segmentLength != 0 then cfg.segmentLength * |leaders| else cfg.epochLength;
              sn == old(lastEpochSn) ==> lastEpochSn == old(lastEpochSn) + length
    {
      segs := [];
      if sn == lastEpochSn {
        epoch := epoch + 1;
        segs := CreateSegments(cfg, leaders, sn + 1, nextSegmentId);
        nextSegmentId := nextSegmentId + |segs|;
        NextEpoch(cfg, epochs, issued, leaders, segs);
        issued, epochs := issued + segs, epochs + [leaders];
        if cfg.segmentLength != 0 {
          lastEpochSn := lastEpochSn + cfg.segmentLength * |leaders|;
        } else {
          lastEpochSn := lastEpochSn + cfg.epochLength;
        }
      }
      LogTiled(cfg, epochs, issued);
    }
  }

  lemma NextEpoch(c: Config, epochs: seq<seq<int>>, segs: seq<Segment>, leaders: seq<int>, more: seq<Segment>)
    requires Issued(c, epochs, segs) && leaders != []
    requires AreSegments(more, leaders, c.Length(|leaders|), End(c, epochs), |segs|)
    ensures Issued(c, epochs + [leaders], segs + more)
    ensures End(c, epochs + [leaders]) == End(c, epochs) + c.Length(|leaders|)
  {
    var all := epochs + [leaders];
    assert all[..|all| - 1] == epochs;
    assert (segs + more)[..|segs|] == segs && (segs + more)[|segs|..] == more;
  }

  // ---------- Leader lists in another order, and with repetitions ----------

  /** Every sequence number of the epoch is led by the same node in both divisions. */
  ghost predicate SameLeaders(s: seq<Segment>, t: seq<Segment>) {
    forall i, j, sn :: 0 <= i < |s| && 0 <= j < |t| && sn in s[i].sns && sn in t[j].sns ==> s[i].leader == t[j].leader
  }

  function Min(a: nat, b: nat): nat {
    if a <= b then a else b
  }

  /** Two lists of as many leaders divide an epoch alike if and only if they agree on all leaders that get anything; for
      an epoch with a number for each leader, if and only if they are equal. */
  lemma SameLeadersIff(s: seq<Segment>, t: seq<Segment>, ls: seq<int>, ms: seq<int>, total: nat, start: int,
                       firstId: nat)
    requires ls != [] && |ls| == |ms|
    requires AreSegments(s, ls, total, start, firstId) && AreSegments(t, ms, total, start, firstId)
    ensures SameLeaders(s, t) <==> ls[..Min(total, |ls|)] == ms[..Min(total, |ls|)]
  {
    var m := Min(total, |ls|);
    if SameLeaders(s, t) {
      forall i | 0 <= i < m
        ensures ls[i] == ms[i]
      {
        QuotientIs(i, |ls|, 0, i);
        MemberIff(s[i], ls, i, total, start, firstId, start + i);
        MemberIff(t[i], ms, i, total, start, firstId, start + i);
      }
    }
    if ls[..m] == ms[..m] {
      forall i, j, sn | 0 <= i < |s| && 0 <= j < |t| && sn in s[i].sns && sn in t[j].sns
        ensures s[i].leader == t[j].leader
      {
        MemberIff(s[i], ls, i, total, start, firstId, sn);
        MemberIff(t[j], ms, j, total, start, firstId, sn);
        RemainderBelow(sn - start, |ls|);
        assert i == j && i < m;
        assert ls[i] == ls[..m][i] && ms[i] == ms[..m][i];
      }
    }
  }

  lemma RemainderBelow(x: int, m: int)
    requires 0 <= x && 0 < m
    ensures x % m <= x
  {
    if x < m {
      QuotientIs(x, m, 0, x);
    }
  }

  /** The segments are kept by leader, so that of two with one leader the later one replaces the earlier. */
  ghost predicate Replaced(leaders: seq<int>, i: nat) {
    exists j :: i < j < |leaders| && leaders[j] == leaders[i]
  }

  /** The number is in a segment that is announced. */
  ghost predicate Announced(segs: seq<Segment>, leaders: seq<int>, sn: int) {
    exists i: nat :: i < |segs| && sn in segs[i].sns && !Replaced(leaders, i)
  }

  /** No number is lost if and only if no leader that gets anything is listed again. Lists without repetitions, which is
      what the leader policies return, lose nothing. */
  lemma NoneLostIff(segs: seq<Segment>, leaders: seq<int>, total: nat, start: int, firstId: nat)
    requires leaders != [] && AreSegments(segs, leaders, total, start, firstId)
    ensures (forall sn :: start <= sn < start + total ==> Announced(segs, leaders, sn)) <==>
            (forall i: nat :: i < Min(total, |leaders|) ==> !Replaced(leaders, i))
  {
    var m := Min(total, |leaders|);
    forall i: nat, sn | i < |segs|
      ensures sn in segs[i].sns <==> start <= sn < start + total && (sn - start) % |leaders| == i
    {
      MemberIff(segs[i], leaders, i, total, start, firstId, sn);
    }
    if forall sn :: start <= sn < start + total ==> Announced(segs, leaders, sn) {
      forall i: nat | i < m
        ensures !Replaced(leaders, i)
      {
        QuotientIs(i, |leaders|, 0, i);
        assert Announced(segs, leaders, start + i);
      }
    }
    if forall i: nat :: i < m ==> !Replaced(leaders, i) {
      forall sn | start <= sn < start + total
        ensures Announced(segs, leaders, sn)
      {
        RemainderBelow(sn - start, |leaders|);
        var i := (sn - start) % |leaders|;
        assert sn in segs[i].sns && !Replaced(leaders, i);
      }
    }
  }
}
