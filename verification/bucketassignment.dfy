/** Assigning the buckets to the leaders of an epoch. */
module BucketAssignment {
  import opened Arithmetic
  import opened Collections

  /** The node, by index, that first gets bucket `b` in an epoch. */
  function Index(b: int, epoch: int, n: nat): int
    requires n > 0
  {
    (b - epoch) % n
  }

  // ---------- Sorting the leaders ----------

  function Insert(x: int, s: seq<int>): seq<int> {
    if s == [] || x <= s[0] then [x] + s else [s[0]] + Insert(x, s[1..])
  }

  function Sort(s: seq<int>): seq<int> {
    if s == [] then [] else Insert(s[0], Sort(s[1..]))
  }

  lemma {:induction false} InsertIs(x: int, s: seq<int>)
    ensures |Insert(x, s)| == |s| + 1 && forall y :: y in Insert(x, s) <==> y == x || y in s
  {
    if !(s == [] || x <= s[0]) {
      InsertIs(x, s[1..]);
    }
  }

  lemma {:induction false} SortIs(s: seq<int>)
    ensures |Sort(s)| == |s| && forall y :: y in Sort(s) <==> y in s
  {
    if s != [] {
      SortIs(s[1..]);
      InsertIs(s[0], Sort(s[1..]));
    }
  }

  // ---------- The assignment ----------

  /** Nodes, leaders among them, the epoch, and the number of buckets. */
  datatype Input = Input(nodes: seq<int>, leaders: seq<int>, epoch: nat, buckets: nat) {
    ghost predicate Valid() {
      && Distinct(nodes) && Distinct(leaders) && leaders != []
      && forall l :: l in leaders ==> l in nodes
    }

    /** The node that first gets bucket `b`. */
    function First(b: int): int
      requires nodes != []
    {
      nodes[Index(b, epoch, |nodes|)]
    }

    /** The leader that gets bucket `b` if its first node is not a leader. */
    function Second(b: int): int
      requires leaders != []
    {
      SortIs(leaders);
      Sort(leaders)[(b + epoch) % |leaders|]
    }

    /** Whether bucket `b` first goes to a node that is not a leader. */
    predicate IsExtra(b: int)
      requires nodes != []
    {
      0 <= b < buckets && First(b) !in leaders
    }

    function Owner(b: int): int
      requires nodes != [] && leaders != []
    {
      if First(b) in leaders then First(b) else Second(b)
    }
  }

  /** Every bucket is in the list of exactly one leader, exactly once. */
  ghost predicate Partition(final: map<int, seq<int>>, leaders: seq<int>, buckets: nat) {
    && (forall l :: l in final <==> l in leaders)
    && (forall l :: l in final ==> Distinct(final[l]))
    && (forall l, b :: l in final && b in final[l] ==> 0 <= b < buckets)
    && (forall b :: 0 <= b < buckets ==> Held(final, b))
    && (forall l, k, b :: l in final && k in final && b in final[l] && b in final[k] ==> l == k)
  }

  ghost predicate Held(final: map<int, seq<int>>, b: int) {
    exists l :: l in final && b in final[l]
  }

  lemma ValidInput(x: Input)
    requires x.Valid()
    ensures x.nodes != []
  {
    assert x.leaders[0] in x.leaders;
  }

  lemma OwnerLeads(x: Input, b: nat)
    requires x.Valid() && x.nodes != []
    ensures x.Owner(b) in x.leaders
  {
    SortIs(x.leaders);
    assert x.Second(b) in Sort(x.leaders);
  }

  /** Lists that follow the owner form a partition. */
  lemma OwnersPartition(x: Input, final: map<int, seq<int>>)
    requires x.Valid() && x.nodes != []
    requires forall l :: l in final <==> l in x.leaders
    requires forall l :: l in final ==> Distinct(final[l])
    requires forall l, b {:trigger b in final[l]} :: l in final ==>
               (b in final[l] <==> 0 <= b < x.buckets && x.Owner(b) == l)
    ensures Partition(final, x.leaders, x.buckets)
  {
    forall b | 0 <= b < x.buckets
      ensures Held(final, b)
    {
      OwnerLeads(x, b);
      assert b in final[x.Owner(b)];
    }
    forall l, b | l in final && b in final[l]
      ensures 0 <= b < x.buckets && x.Owner(b) == l
    {
    }
    forall l, k, b | l in final && k in final && b in final[l] && b in final[k]
      ensures l == k
    {
      assert x.Owner(b) == l && x.Owner(b) == k;
    }
  }

  /** The buckets below `buckets` that a node gets first, in increasing order. */
  method RoundRobin(idx: nat, epoch: nat, n: nat, buckets: nat) returns (s: seq<int>)
    requires idx < n
    ensures Distinct(s) && forall b :: b in s <==> 0 <= b < buckets && Index(b, epoch, n) == idx
  {
    s := [];
    var b := (idx + epoch) % n;
    Start(idx, epoch, n);
    while b < buckets
      invariant 0 <= b && Index(b, epoch, n) == idx && Distinct(s)
      invariant forall x :: x in s <==> 0 <= x < b && x < buckets && Index(x, epoch, n) == idx
      decreases buckets - b
    {
      forall x | b < x < b + n
        ensures Index(x, epoch, n) != idx
      {
        Between(b - epoch, x - epoch, n);
      }
      ModPlus(b - epoch, 1, n);
      assert b + n - epoch == (b - epoch) + 1 * n;
      s := s + [b];
      b := b + n;
    }
  }

  lemma Start(idx: nat, epoch: nat, n: nat)
    requires idx < n
    ensures var b := (idx + epoch) % n; Index(b, epoch, n) == idx && forall x :: 0 <= x < b ==>
              Index(x, epoch, n) != idx
  {
    var b := (idx + epoch) % n;
    ModPlus(idx, -((idx + epoch) / n), n);
    assert b - epoch == idx + -((idx + epoch) / n) * n;
    QuotientIs(idx, n, 0, idx);
    forall x | 0 <= x < b
      ensures Index(x, epoch, n) != idx
    {
      Between(x - epoch, b - epoch, n);
    }
  }

  /** Numbers with the same remainder are at least `n` apart. */
  lemma Between(x: int, y: int, n: nat)
    requires n > 0 && x < y < x + n
    ensures x % n != y % n
  {
    if x % n == y % n {
      SameRemainder(x, y, n);
      if y / n - x / n >= 1 {
        MulAtLeast(y / n - x / n, n);
      } else {
        MulAtLeast(1 - (y / n - x / n), n);
      }
    }
  }

  method AssignBuckets(x: Input) returns (final: map<int, seq<int>>)
    requires x.Valid()
    ensures Partition(final, x.leaders, x.buckets)
    ensures x.nodes != [] && forall l, b :: l in final && b in final[l] ==> OwnedBy(x, b, l)
  {
    ValidInput(x);
    var init := InitBuckets(x);
    var extra := ExtraBuckets(x, init);
    final := Copy(x, init);
    final := Redistribute(x, final, extra);
    OwnersPartition(x, final);
    forall l, b | l in final && b in final[l]
      ensures OwnedBy(x, b, l)
    {
      OwnerIs(x, b);
    }
  }

  ghost predicate InitOk(x: Input, init: map<int, seq<int>>, upto: nat)
    requires x.nodes != [] && upto <= |x.nodes|
  {
    && (forall l :: l in init <==> l in x.nodes[..upto])
    && (forall l :: l in init ==> Distinct(init[l]))
    && (forall l, b {:trigger b in init[l]} :: l in init ==> (b in init[l] <==> 0 <= b < x.buckets && x.First(b) == l))
  }

  method InitBuckets(x: Input) returns (init: map<int, seq<int>>)
    requires x.Valid() && x.nodes != []
    ensures InitOk(x, init, |x.nodes|)
  {
    init := map[];
    for idx := 0 to |x.nodes|
      invariant InitOk(x, init, idx)
    {
      var s := RoundRobin(idx, x.epoch, |x.nodes|, x.buckets);
      forall b
        ensures Index(b, x.epoch, |x.nodes|) == idx <==> x.First(b) == x.nodes[idx]
      {
      }
      init := init[x.nodes[idx] := s];
      assert x.nodes[..idx + 1] == x.nodes[..idx] + [x.nodes[idx]];
    }
  }

  /** The buckets of nodes that are not leaders. */
  method ExtraBuckets(x: Input, init: map<int, seq<int>>) returns (extra: seq<int>)
    requires x.Valid() && x.nodes != [] && InitOk(x, init, |x.nodes|)
    ensures Distinct(extra) && forall b :: b in extra <==> x.IsExtra(b)
  {
    extra := [];
    assert x.nodes[..|x.nodes|] == x.nodes;
    for idx := 0 to |x.nodes|
      invariant Distinct(extra)
      invariant forall b :: b in extra <==> x.IsExtra(b) && Index(b, x.epoch, |x.nodes|) < idx
    {
      if x.nodes[idx] !in x.leaders {
        assert x.nodes[idx] in x.nodes[..|x.nodes|];
        var more := init[x.nodes[idx]];
        forall b
          ensures b in more <==> x.IsExtra(b) && Index(b, x.epoch, |x.nodes|) == idx
        {
          FirstAt(x, idx, b);
        }
        ConcatDistinct(extra, more);
        extra := extra + more;
      }
    }
  }

  lemma FirstAt(x: Input, idx: nat, b: int)
    requires x.Valid() && idx < |x.nodes|
    ensures x.First(b) == x.nodes[idx] <==> Index(b, x.epoch, |x.nodes|) == idx
  {
  }

  lemma ConcatDistinct(s: seq<int>, t: seq<int>)
    requires Distinct(s) && Distinct(t) && forall b :: b in t ==> b !in s
    ensures Distinct(s + t)
  {
    var u := s + t;
    forall i, j | 0 <= i < j < |u|
      ensures u[i] != u[j]
    {
      if i < |s| <= j {
        assert u[i] in s && u[j] in t;
      }
    }
  }

  method Copy(x: Input, init: map<int, seq<int>>) returns (final: map<int, seq<int>>)
    requires x.Valid() && x.nodes != [] && InitOk(x, init, |x.nodes|)
    ensures forall l :: l in final <==> l in x.leaders
    ensures forall l :: l in final ==> l in init && final[l] == init[l]
  {
    final := map[];
    SortIs(x.leaders);
    var sorted := Sort(x.leaders);
    assert x.nodes[..|x.nodes|] == x.nodes;
    for i := 0 to |sorted|
      invariant forall l :: l in final <==> l in sorted[..i]
      invariant forall l :: l in final ==> l in init && final[l] == init[l]
    {
      assert sorted[i] in sorted && sorted[i] in x.leaders && sorted[i] in x.nodes;
      final := final[sorted[i] := init[sorted[i]]];
      assert sorted[..i + 1] == sorted[..i] + [sorted[i]];
    }
  }

  method Redistribute(x: Input, copied: map<int, seq<int>>, extra: seq<int>) returns (final: map<int, seq<int>>)
    requires x.Valid() && x.nodes != []
    requires Distinct(extra) && forall b :: b in extra <==> x.IsExtra(b)
    requires forall l :: l in copied <==> l in x.leaders
    requires forall l :: l in copied ==> Distinct(copied[l])
    requires forall l, b {:trigger b in copied[l]} :: l in copied ==>
               (b in copied[l] <==> 0 <= b < x.buckets && x.First(b) == l)
    ensures forall l :: l in final <==> l in x.leaders
    ensures forall l :: l in final ==> Distinct(final[l])
    ensures forall l, b {:trigger b in final[l]} :: l in final ==>
              (b in final[l] <==> 0 <= b < x.buckets && x.Owner(b) == l)
  {
    final := copied;
    SortIs(x.leaders);
    var sorted := Sort(x.leaders);
    for e := 0 to |extra|
      invariant final.Keys == copied.Keys
      invariant forall l :: l in final ==> Distinct(final[l])
      invariant forall l, b {:trigger b in final[l]} :: l in final ==>
                  (b in final[l] <==> b in copied[l] || (b in extra[..e] && x.Second(b) == l))
    {
      var b := extra[e];
      assert b in extra;
      var l := sorted[(b + x.epoch) % |sorted|];
      assert l in sorted && l == x.Second(b);
      assert b !in extra[..e] && b !in copied[l];
      assert b !in final[l];
      assert extra[..e + 1] == extra[..e] + [b];
      final := final[l := final[l] + [b]];
    }
    assert extra[..|extra|] == extra;
    forall l, b | l in final
      ensures b in final[l] <==> 0 <= b < x.buckets && x.Owner(b) == l
    {
      OwnerOf(x, copied[l], extra, l, b);
    }
  }

  /** A leader ends up with what it got first and what it got of the extra buckets. */
  lemma OwnerOf(x: Input, own: seq<int>, extra: seq<int>, l: int, b: int)
    requires x.Valid() && x.nodes != [] && l in x.leaders
    requires b in extra <==> x.IsExtra(b)
    requires b in own <==> 0 <= b < x.buckets && x.First(b) == l
    ensures b in own || (b in extra && x.Second(b) == l) <==> 0 <= b < x.buckets && x.Owner(b) == l
  {
  }

  // ---------- Round robin over epochs ----------

  /** Over any `n` consecutive epochs, the round robin gives each bucket to each of the `n` nodes exactly once. */
  lemma EachNodeOnce(b: int, idx: nat, n: nat, from: int)
    requires idx < n
    ensures exists e :: from <= e < from + n && Index(b, e, n) == idx
    ensures forall e, f ::
              from <= e < from + n && from <= f < from + n && Index(b, e, n) == idx && Index(b, f, n) == idx ==> e == f
  {
    var k := (b - idx - from) % n;
    var e := from + k;
    var q := (b - idx - from) / n;
    ModPlus(idx, q, n);
    assert b - e == idx + q * n;
    QuotientIs(idx, n, 0, idx);
    assert Index(b, e, n) == idx;
    forall e, f | from <= e < from + n && from <= f < from + n && Index(b, e, n) == idx && Index(b, f, n) == idx
      ensures e == f
    {
      if e < f {
        Between(b - f, b - e, n);
      } else if f < e {
        Between(b - e, b - f, n);
      }
    }
  }

  // ---------- The order of the leader list does not matter ----------

  lemma {:induction false} InsertIncreases(x: int, s: seq<int>)
    requires Increasing(s) && x !in s
    ensures Increasing(Insert(x, s))
  {
    if !(s == [] || x <= s[0]) {
      InsertIncreases(x, s[1..]);
      InsertIs(x, s[1..]);
      var t := Insert(x, s[1..]);
      forall i | 0 <= i < |t|
        ensures s[0] < t[i]
      {
        assert t[i] in t;
      }
    }
  }

  lemma {:induction false} SortIncreases(s: seq<int>)
    requires Distinct(s)
    ensures Increasing(Sort(s))
  {
    if s != [] {
      SortIncreases(s[1..]);
      SortIs(s[1..]);
      InsertIncreases(s[0], Sort(s[1..]));
    }
  }

  lemma {:induction false} IncreasingUnique(s: seq<int>, t: seq<int>)
    requires Increasing(s) && Increasing(t) && forall y :: y in s <==> y in t
    ensures s == t
  {
    if s == [] {
      Inhabited(t);
    } else {
      assert s[0] in s;
      var j :| 0 <= j < |t| && t[j] == s[0];
      assert t[0] in t;
      var i :| 0 <= i < |s| && s[i] == t[0];
      assert s[0] == t[0];
      Tail(s, t);
      IncreasingUnique(s[1..], t[1..]);
      assert s == [s[0]] + s[1..] && t == [t[0]] + t[1..];
    }
  }

  lemma Inhabited(s: seq<int>)
    ensures s != [] ==> s[0] in s
  {
  }

  lemma Tail(s: seq<int>, t: seq<int>)
    requires s != [] && t != [] && s[0] == t[0] && Increasing(s) && Increasing(t) && forall y :: y in s <==> y in t
    ensures forall y :: y in s[1..] <==> y in t[1..]
  {
    assert forall y :: y in s[1..] <==> y in s && y != s[0];
    assert forall y :: y in t[1..] <==> y in t && y != t[0];
  }

  /** Peers that list the same leaders in different orders assign every bucket to the same leader. */
  lemma OrderFree(x: Input, leaders: seq<int>, b: int)
    requires x.Valid() && x.nodes != [] && x.(leaders := leaders).Valid()
    requires forall l :: l in leaders <==> l in x.leaders
    ensures x.(leaders := leaders).Owner(b) == x.Owner(b)
  {
    SortIs(x.leaders);
    SortIs(leaders);
    SortIncreases(x.leaders);
    SortIncreases(leaders);
    IncreasingUnique(Sort(x.leaders), Sort(leaders));
  }

  // ---------- The owner in numbers ----------

  /** The leaders with a smaller ID. */
  function Smaller(leaders: seq<int>, l: int): set<int> {
    set k | k in leaders && k < l
  }

  lemma {:induction false} RankIs(s: seq<int>, k: nat)
    requires Increasing(s) && k < |s|
    ensures |Smaller(s, s[k])| == k
  {
    if k == 0 {
      assert Smaller(s, s[0]) == {};
    } else {
      RankIs(s, k - 1);
      forall y
        ensures y in Smaller(s, s[k]) <==> y in Smaller(s, s[k - 1]) + {s[k - 1]}
      {
        if y in s {
          var i :| 0 <= i < |s| && s[i] == y;
        }
      }
      assert Smaller(s, s[k]) == Smaller(s, s[k - 1]) + {s[k - 1]};
    }
  }

  /** Bucket `b` goes to the node at place (b - epoch) mod n of the node list if that node leads, and otherwise to the
      leader that has (b + epoch) mod m leaders with smaller IDs, where there are m leaders. */
  ghost predicate OwnedBy(x: Input, b: int, l: int)
    requires x.nodes != [] && x.leaders != []
  {
    var node := x.nodes[(b - x.epoch) % |x.nodes|];
    l in x.leaders && if node in x.leaders then l == node else |Smaller(x.leaders, l)| == (b + x.epoch) % |x.leaders|
  }

  lemma OwnerIs(x: Input, b: nat)
    requires x.Valid() && x.nodes != []
    ensures OwnedBy(x, b, x.Owner(b))
  {
    OwnerLeads(x, b);
    SortIs(x.leaders);
    SortIncreases(x.leaders);
    var sorted, k := Sort(x.leaders), (b + x.epoch) % |x.leaders|;
    RankIs(sorted, k);
    assert Smaller(sorted, sorted[k]) == Smaller(x.leaders, sorted[k]);
  }
}
