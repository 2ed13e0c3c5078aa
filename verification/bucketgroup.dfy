/** Cutting a batch of requests from several buckets. */
module BucketGroup {
  import opened Bucket
  import opened Collections

  /** A batch being filled, and what the buckets still hold. */
  datatype Cutting = Cutting(batch: seq<Request>, lists: seq<seq<Request>>)

  function Min(a: int, b: int): int {
    if a <= b then a else b
  }

  function Valids(s: seq<Request>, valid: Request -> bool): seq<Request> {
    Filter(s, valid, true)
  }

  function TotalValid(lists: seq<seq<Request>>, valid: Request -> bool): nat {
    if lists == [] then 0 else |Valids(lists[0], valid)| + TotalValid(lists[1..], valid)
  }

  function Total(lists: seq<seq<Request>>): nat {
    if lists == [] then 0 else |lists[0]| + Total(lists[1..])
  }

  /** How often `r` is in the lists. */
  function All(lists: seq<seq<Request>>, r: Request): nat {
    if lists == [] then 0 else Count(lists[0], r) + All(lists[1..], r)
  }

  /** Division that truncates toward zero. */
  function Quotient(a: int, m: nat): int
    requires m > 0
  {
    if a >= 0 then a / m else -(-a / m)
  }

  /** How many requests each bucket may contribute first, given a count `total` that may be out of date. */
  function InitCut(size: int, total: nat, m: nat): int
    requires m > 0
  {
    if size <= total then Quotient(size, m) else total / m
  }

  function TakeAt(c: Cutting, valid: Request -> bool, i: nat, n: int): Cutting
    requires i < |c.lists|
  {
    Cutting(c.batch + Take(c.lists[i], valid, n), c.lists[i := Left(c.lists[i], valid, n)])
  }

  /** Takes up to `n` requests from each bucket from `i` on. */
  function Spread(c: Cutting, valid: Request -> bool, i: nat, n: int): Cutting
    requires i <= |c.lists|
    decreases |c.lists| - i
  {
    if i == |c.lists| then c else Spread(TakeAt(c, valid, i, n), valid, i + 1, n)
  }

  /** Fills the batch up to `size` from the buckets from `i` on. */
  function Fill(c: Cutting, valid: Request -> bool, i: nat, size: int): Cutting
    requires i <= |c.lists|
    decreases |c.lists| - i
  {
    if i == |c.lists| || |c.batch| >= size then c
    else Fill(TakeAt(c, valid, i, size - |c.batch|), valid, i + 1, size)
  }

  function Result(lists: seq<seq<Request>>, valid: Request -> bool, size: int, total: nat): Cutting {
    if lists == [] then Cutting([], [])
    else Fill(Spread(Cutting([], lists), valid, 0, InitCut(size, total, |lists|)), valid, 0, size)
  }

  // ---------- One bucket ----------

  lemma {:induction false} FilterAgain(s: seq<Request>, valid: Request -> bool)
    ensures Filter(Filter(s, valid, false), valid, true) == []
    ensures Filter(Filter(s, valid, false), valid, false) == Filter(s, valid, false)
  {
    if s != [] {
      FilterAgain(s[1..], valid);
      var t := Filter(s[1..], valid, false);
      assert valid(s[0]) ==> Filter(s, valid, false) == t;
      assert ([s[0]] + t)[1..] == t;
    }
  }

  /** After taking `n`, the valid requests left are those from the n-th on, the others are all left, and nothing
      is made up or lost. */
  lemma TakeExact(s: seq<Request>, valid: Request -> bool, n: int)
    ensures var k := Min(if n > 0 then n else 0, |Valids(s, valid)|);
            && Take(s, valid, n) == Valids(s, valid)[..k] && |Take(s, valid, n)| == k
            && Valids(Left(s, valid, n), valid) == Valids(s, valid)[k..]
            && Filter(Left(s, valid, n), valid, false) == Filter(s, valid, false)
    ensures multiset(Take(s, valid, n)) + multiset(Left(s, valid, n)) == multiset(s)
  {
    var c := Cut(s, valid, n);
    if n < 0 {
      assert c == 0 && Cut(s, valid, 0) == 0;
    }
    CutExact(s, valid, if n > 0 then n else 0);
    var a, b := s[..c], s[c..];
    assert s == a + b;
    FilterConcat(a, b, valid, true);
    FilterConcat(a, b, valid, false);
    FilterAgain(a, valid);
    FilterConcat(Filter(a, valid, false), b, valid, true);
    FilterConcat(Filter(a, valid, false), b, valid, false);
    TakenAndLeft(s, valid, c);
  }

  // ---------- Conservation ----------

  /** How often `r` is in a list. */
  function Count(s: seq<Request>, r: Request): nat {
    multiset(s)[r]
  }

  /** How often `r` is in the batch and in the buckets. */
  function Copies(c: Cutting, r: Request): nat {
    Count(c.batch, r) + All(c.lists, r)
  }

  lemma {:induction false} AllUpdate(lists: seq<seq<Request>>, i: nat, s: seq<Request>, r: Request)
    requires i < |lists|
    ensures All(lists[i := s], r) + Count(lists[i], r) == All(lists, r) + Count(s, r)
  {
    var rest := lists[1..];
    if i > 0 {
      AllUpdate(rest, i - 1, s, r);
      assert lists[i := s][1..] == rest[i - 1 := s] && lists[i := s][0] == lists[0];
    } else {
      assert lists[0 := s][1..] == rest;
    }
  }

  lemma {:induction false} ValidUpdate(lists: seq<seq<Request>>, valid: Request -> bool, i: nat, s: seq<Request>)
    requires i < |lists|
    ensures TotalValid(lists[i := s], valid) + |Valids(lists[i], valid)| ==
            TotalValid(lists, valid) + |Valids(s, valid)|
  {
    var rest := lists[1..];
    if i > 0 {
      ValidUpdate(rest, valid, i - 1, s);
      assert lists[i := s][1..] == rest[i - 1 := s] && lists[i := s][0] == lists[0];
    } else {
      assert lists[0 := s][1..] == rest;
    }
  }

  lemma TakeCopies(s: seq<Request>, valid: Request -> bool, n: int, r: Request)
    ensures Count(Take(s, valid, n), r) + Count(Left(s, valid, n), r) == Count(s, r)
  {
    TakeExact(s, valid, n);
    var whole := multiset(Take(s, valid, n)) + multiset(Left(s, valid, n));
    assert whole == multiset(s);
    assert whole[r] == Count(Take(s, valid, n), r) + Count(Left(s, valid, n), r);
  }

  lemma CountConcat(s: seq<Request>, t: seq<Request>, r: Request)
    ensures Count(s + t, r) == Count(s, r) + Count(t, r)
  {
  }

  lemma TakeAtConserves(c: Cutting, valid: Request -> bool, i: nat, n: int, r: Request)
    requires i < |c.lists|
    ensures Copies(TakeAt(c, valid, i, n), r) == Copies(c, r)
  {
    TakeCopies(c.lists[i], valid, n, r);
    CountConcat(c.batch, Take(c.lists[i], valid, n), r);
    AllUpdate(c.lists, i, Left(c.lists[i], valid, n), r);
  }

  lemma {:induction false} SpreadConserves(c: Cutting, valid: Request -> bool, i: nat, n: int, r: Request)
    requires i <= |c.lists|
    ensures Copies(Spread(c, valid, i, n), r) == Copies(c, r)
    decreases |c.lists| - i
  {
    if i < |c.lists| {
      TakeAtConserves(c, valid, i, n, r);
      SpreadConserves(TakeAt(c, valid, i, n), valid, i + 1, n, r);
    }
  }

  lemma {:induction false} FillConserves(c: Cutting, valid: Request -> bool, i: nat, size: int, r: Request)
    requires i <= |c.lists|
    ensures Copies(Fill(c, valid, i, size), r) == Copies(c, r)
    decreases |c.lists| - i
  {
    if i < |c.lists| && |c.batch| < size {
      TakeAtConserves(c, valid, i, size - |c.batch|, r);
      FillConserves(TakeAt(c, valid, i, size - |c.batch|), valid, i + 1, size, r);
    }
  }

  // ---------- How many are taken ----------

  lemma TakeAtCount(c: Cutting, valid: Request -> bool, i: nat, n: int)
    requires i < |c.lists|
    ensures var d, v := TakeAt(c, valid, i, n), |Valids(c.lists[i], valid)|;
            && |d.batch| == |c.batch| + Min(if n > 0 then n else 0, v)
            && |d.batch| + TotalValid(d.lists, valid) == |c.batch| + TotalValid(c.lists, valid)
            && (n >= v ==> Valids(d.lists[i], valid) == [])
  {
    TakeExact(c.lists[i], valid, n);
    ValidUpdate(c.lists, valid, i, Left(c.lists[i], valid, n));
  }

  lemma MulStep(n: int, k: int)
    ensures n * k == n + n * (k - 1)
  {
  }

  lemma {:induction false} SpreadCount(c: Cutting, valid: Request -> bool, i: nat, n: int)
    requires i <= |c.lists|
    ensures var d := Spread(c, valid, i, n);
            && |d.batch| + TotalValid(d.lists, valid) == |c.batch| + TotalValid(c.lists, valid)
            && |d.batch| <= |c.batch| + (if n > 0 then n else 0) * (|c.lists| - i)
            && |d.lists| == |c.lists|
    decreases |c.lists| - i
  {
    if i < |c.lists| {
      TakeAtCount(c, valid, i, n);
      SpreadCount(TakeAt(c, valid, i, n), valid, i + 1, n);
      MulStep(if n > 0 then n else 0, |c.lists| - i);
    }
  }

  /** Filling leaves the buckets before `i` alone, and ends with a full batch or with nothing valid in the others. */
  lemma {:induction false} FillCount(c: Cutting, valid: Request -> bool, i: nat, size: int)
    requires i <= |c.lists|
    requires forall j :: 0 <= j < i ==> Valids(c.lists[j], valid) == []
    ensures var d := Fill(c, valid, i, size);
            && |d.batch| + TotalValid(d.lists, valid) == |c.batch| + TotalValid(c.lists, valid)
            && (|c.batch| <= size ==> |d.batch| <= size)
            && |d.lists| == |c.lists|
            && (|d.batch| < size ==> TotalValid(d.lists, valid) == 0)
    decreases |c.lists| - i
  {
    if |c.batch| >= size {
    } else if i < |c.lists| {
      var n := size - |c.batch|;
      TakeAtCount(c, valid, i, n);
      var e := TakeAt(c, valid, i, n);
      if |e.batch| < size {
        FillCount(e, valid, i + 1, size);
      }
    } else {
      NoneValid(c.lists, valid);
    }
  }

  lemma {:induction false} NoneValid(lists: seq<seq<Request>>, valid: Request -> bool)
    requires forall j :: 0 <= j < |lists| ==> Valids(lists[j], valid) == []
    ensures TotalValid(lists, valid) == 0
  {
    if lists != [] {
      NoneValid(lists[1..], valid);
    }
  }

  lemma ShareFits(size: int, total: nat, m: nat)
    requires m > 0
    ensures var n := InitCut(size, total, m);
            (n > 0 ==> 0 < n * m <= size) && (size <= 0 ==> n <= 0)
  {
    if size <= 0 {
      assert -size / m >= 0;
    }
  }

  // ---------- Which ones are taken ----------

  /** `after` is `before` without its first valid requests, and at least `least` of them if there are that many. */
  predicate Drained(before: seq<Request>, after: seq<Request>, valid: Request -> bool, least: int) {
    var all, rest := Valids(before, valid), Valids(after, valid);
    && Filter(after, valid, false) == Filter(before, valid, false)
    && |rest| <= |all| - Min(|all|, least)
    && |rest| <= |all| && rest == all[|all| - |rest|..]
  }

  lemma DrainedTrans(a: seq<Request>, b: seq<Request>, c: seq<Request>, valid: Request -> bool, m: int, n: int)
    requires Drained(a, b, valid, m) && Drained(b, c, valid, n)
    ensures Drained(a, c, valid, m) && (n >= m && a == b ==> Drained(a, c, valid, n))
  {
  }

  lemma TakeDrains(s: seq<Request>, valid: Request -> bool, n: int)
    ensures Drained(s, Left(s, valid, n), valid, n) && Drained(s, s, valid, 0)
  {
    TakeExact(s, valid, n);
  }

  lemma {:induction false} SpreadDrains(c: Cutting, valid: Request -> bool, i: nat, n: int, j: nat)
    requires i <= |c.lists| && j < |c.lists|
    ensures var d := Spread(c, valid, i, n);
            && |d.lists| == |c.lists|
            && if j < i then d.lists[j] == c.lists[j] else d.lists[j] == Left(c.lists[j], valid, n)
    decreases |c.lists| - i
  {
    if i < |c.lists| {
      SpreadDrains(TakeAt(c, valid, i, n), valid, i + 1, n, j);
    }
  }

  lemma {:induction false} FillDrains(c: Cutting, valid: Request -> bool, i: nat, size: int, j: nat)
    requires i <= |c.lists| && j < |c.lists|
    ensures var d := Fill(c, valid, i, size);
            |d.lists| == |c.lists| && Drained(c.lists[j], d.lists[j], valid, 0) && (j < i ==> d.lists[j] == c.lists[j])
    decreases |c.lists| - i
  {
    NotDrained(c.lists[j], valid);
    if i < |c.lists| && |c.batch| < size {
      var n := size - |c.batch|;
      var e := TakeAt(c, valid, i, n);
      FillDrains(e, valid, i + 1, size, j);
      if j == i {
        TakeDrains(c.lists[j], valid, n);
        DrainedLess(c.lists[j], e.lists[j], valid, n);
      }
    }
  }

  lemma NotDrained(s: seq<Request>, valid: Request -> bool)
    ensures Drained(s, s, valid, 0)
  {
  }

  lemma DrainedLess(before: seq<Request>, after: seq<Request>, valid: Request -> bool, n: int)
    requires Drained(before, after, valid, n) && n >= 0
    ensures Drained(before, after, valid, 0)
  {
  }

  lemma {:induction false} SpreadValid(c: Cutting, valid: Request -> bool, i: nat, n: int, r: Request)
    requires i <= |c.lists|
    ensures r in Spread(c, valid, i, n).batch ==> r in c.batch || valid(r)
    decreases |c.lists| - i
  {
    if i < |c.lists| {
      SpreadValid(TakeAt(c, valid, i, n), valid, i + 1, n, r);
      FilterIn(c.lists[i][..Cut(c.lists[i], valid, n)], valid, true, r);
    }
  }

  lemma {:induction false} FillValid(c: Cutting, valid: Request -> bool, i: nat, size: int, r: Request)
    requires i <= |c.lists|
    ensures r in Fill(c, valid, i, size).batch ==> r in c.batch || valid(r)
    decreases |c.lists| - i
  {
    if i < |c.lists| && |c.batch| < size {
      var n := size - |c.batch|;
      FillValid(TakeAt(c, valid, i, n), valid, i + 1, size, r);
      FilterIn(c.lists[i][..Cut(c.lists[i], valid, n)], valid, true, r);
    }
  }

  // ---------- Main results ----------

  /** The batch holds as many valid requests as there are, up to `size`, even if `total` is wrong. */
  lemma CutCount(lists: seq<seq<Request>>, valid: Request -> bool, size: int, total: nat)
    ensures var d := Result(lists, valid, size, total);
            |d.lists| == |lists| && |d.batch| == Min(if size > 0 then size else 0, TotalValid(lists, valid))
  {
    if lists != [] {
      var m := |lists|;
      var n := InitCut(size, total, m);
      ShareFits(size, total, m);
      var c := Cutting([], lists);
      SpreadCount(c, valid, 0, n);
      FillCount(Spread(c, valid, 0, n), valid, 0, size);
    }
  }

  /** The share in numbers: the smaller of `size` and `total`, divided among the buckets. */
  lemma ShareIs(size: int, total: nat, m: nat)
    requires m > 0 && size >= 0
    ensures InitCut(size, total, m) == Min(size, total) / m
  {
  }

  /** Every bucket loses its first valid requests, at least its equal share of the smaller of `size` and `total` as far
      as it has them, and keeps the others. */
  lemma CutDrains(lists: seq<seq<Request>>, valid: Request -> bool, size: int, total: nat, i: nat)
    requires i < |lists|
    ensures var d := Result(lists, valid, size, total);
            && |d.lists| == |lists|
            && Drained(lists[i], d.lists[i], valid, if size >= 0 then Min(size, total) / |lists| else 0)
  {
    if size >= 0 {
      ShareIs(size, total, |lists|);
    }
    var n := InitCut(size, total, |lists|);
    var c := Cutting([], lists);
    SpreadDrains(c, valid, 0, n, i);
    TakeDrains(lists[i], valid, n);
    var e := Spread(c, valid, 0, n);
    FillDrains(e, valid, 0, size, i);
    DrainedTrans(lists[i], e.lists[i], Fill(e, valid, 0, size).lists[i], valid, n, 0);
  }

  /** Nothing is lost or made up, and only valid requests are taken. */
  lemma CutConserves(lists: seq<seq<Request>>, valid: Request -> bool, size: int, total: nat, r: Request)
    ensures var d := Result(lists, valid, size, total);
            Count(d.batch, r) + All(d.lists, r) == All(lists, r) && (r in d.batch ==> valid(r))
  {
    if lists != [] {
      var n := InitCut(size, total, |lists|);
      var c := Cutting([], lists);
      var e := Spread(c, valid, 0, n);
      SpreadConserves(c, valid, 0, n, r);
      FillConserves(e, valid, 0, size, r);
      SpreadValid(c, valid, 0, n, r);
      FillValid(e, valid, 0, size, r);
    }
  }

  /** If no request is in two places, the batch has no repetitions. */
  lemma CutDistinct(lists: seq<seq<Request>>, valid: Request -> bool, size: int, total: nat)
    requires forall r :: All(lists, r) <= 1
    ensures NoRepeats(Result(lists, valid, size, total).batch)
  {
    var s := Result(lists, valid, size, total).batch;
    forall i, j | 0 <= i < j < |s|
      ensures s[i] != s[j]
    {
      CutConserves(lists, valid, size, total, s[i]);
      TwiceIn(s, i, j);
      assert All(lists, s[i]) <= 1;
    }
  }

  lemma TwiceIn(s: seq<Request>, i: nat, j: nat)
    requires i < j < |s|
    ensures s[i] == s[j] ==> Count(s, s[i]) >= 2
  {
    CountConcat(s[..j], s[j..], s[i]);
    assert s == s[..j] + s[j..];
    assert s[i] == s[..j][i] && s[j] == s[j..][0];
  }

  // ---------- The bucket group ----------

  class BucketGroup {
    const buckets: seq<Bucket>
    /** The number of requests counted when the wait for requests began, plus those added since. */
    var total: nat

    constructor (buckets: seq<Bucket>)
      ensures this.buckets == buckets && total == 0
    {
      this.buckets, total := buckets, 0;
    }

    /** The buckets are well formed and share nothing. */
    ghost predicate Ready()
      reads buckets, set b, r | b in buckets && r in b.known :: r
    {
      && (forall i :: 0 <= i < |buckets| ==> buckets[i].Valid())
      && (forall i, j :: 0 <= i < j < |buckets| ==> buckets[i] != buckets[j] && buckets[i].known !! buckets[j].known)
    }

    ghost function Lists(): (s: seq<seq<Request>>)
      reads buckets
      ensures |s| == |buckets|
    {
      seq(|buckets|, i requires 0 <= i < |buckets| reads buckets => buckets[i].list)
    }

    method CountRequests() returns (n: int)
      requires Ready()
      ensures n == Total(Lists())
    {
      n := 0;
      for i := 0 to |buckets|
        invariant n + Total(Lists()[i..]) == Total(Lists())
      {
        assert Lists()[i..][1..] == Lists()[i + 1..];
        n := n + buckets[i].num;
      }
    }

    /** Takes up to `n` requests from the `i`-th bucket. All requests are in `pool`. */
    method TakeFrom(i: nat, n: int, batch: seq<Request>, valid: Request -> bool, ghost pool: set<Request>)
      returns (out: seq<Request>)
      requires Ready() && Within(pool) && i < |buckets|
      modifies buckets, pool
      ensures Ready() && Within(pool) && Cutting(out, Lists()) == TakeAt(Cutting(batch, old(Lists())), valid, i, n)
    {
      out := buckets[i].RemoveFirst(n, batch, valid);
      assert Lists() == old(Lists())[i := Left(old(buckets[i].list), valid, n)];
    }

    ghost predicate Within(pool: set<Request>)
      reads buckets
    {
      forall i :: 0 <= i < |buckets| ==> buckets[i].known <= pool
    }

    /** Takes the same number of requests from every bucket. */
    method SpreadOut(n: int, valid: Request -> bool, ghost pool: set<Request>) returns (batch: seq<Request>)
      requires Ready() && Within(pool)
      modifies buckets, pool
      ensures Ready() && Within(pool) && Cutting(batch, Lists()) == Spread(Cutting([], old(Lists())), valid, 0, n)
    {
      batch := [];
      ghost var goal := Spread(Cutting([], Lists()), valid, 0, n);
      var i := 0;
      while i < |buckets|
        invariant 0 <= i <= |buckets| && Ready() && Within(pool)
        invariant Spread(Cutting(batch, Lists()), valid, i, n) == goal
      {
        batch := TakeFrom(i, n, batch, valid, pool);
        i := i + 1;
      }
    }

    /** Fills the batch from the `i`-th bucket. */
    method FillOne(i: nat, initial: seq<Request>, size: int, valid: Request -> bool, ghost pool: set<Request>)
      returns (batch: seq<Request>)
      requires Ready() && Within(pool) && i < |buckets| && |initial| < size
      modifies buckets, pool
      ensures Ready() && Within(pool)
      ensures Fill(Cutting(batch, Lists()), valid, i + 1, size) == Fill(Cutting(initial, old(Lists())), valid, i, size)
    {
      batch := TakeFrom(i, size - |initial|, initial, valid, pool);
    }

    /** Fills the batch from the buckets in turn. */
    method FillUp(initial: seq<Request>, size: int, valid: Request -> bool, ghost pool: set<Request>)
      returns (batch: seq<Request>)
      requires Ready() && Within(pool)
      modifies buckets, pool
      ensures Ready() && Within(pool) && Cutting(batch, Lists()) == Fill(Cutting(initial, old(Lists())), valid, 0, size)
    {
      batch := initial;
      ghost var now := Cutting(batch, Lists());
      ghost var goal := Fill(now, valid, 0, size);
      var i := 0;
      while i < |buckets|
        invariant 0 <= i <= |buckets| == |now.lists| && Ready() && Within(pool)
        invariant now == Cutting(batch, Lists()) && Fill(now, valid, i, size) == goal
      {
        if |batch| >= size {
          return;
        }
        batch := FillOne(i, batch, size, valid, pool);
        now := Cutting(batch, Lists());
        i := i + 1;
      }
    }

    /** Cuts a batch of up to `size` valid requests, all different. */
    method CutBatch(size: int, valid: Request -> bool, ghost pool: set<Request>) returns (batch: seq<Request>)
      requires Ready() && Within(pool)
      modifies buckets, pool
      ensures Ready() && Within(pool) && Cutting(batch, Lists()) == Result(old(Lists()), valid, size, total)
      ensures NoRepeats(batch) && |batch| == Min(if size > 0 then size else 0, TotalValid(old(Lists()), valid))
      ensures size >= 0 ==> forall i :: 0 <= i < |buckets| ==>
                var all := |Valids(old(Lists())[i], valid)|;
                |Valids(Lists()[i], valid)| <= all - Min(all, Min(size, total) / |buckets|)
    {
      ApartLists();
      CutDistinct(Lists(), valid, size, total);
      CutCount(Lists(), valid, size, total);
      forall i | 0 <= i < |buckets|
        ensures var d := Result(Lists(), valid, size, total);
                |d.lists| == |buckets| && (size >= 0 ==>
                  Drained(Lists()[i], d.lists[i], valid, Min(size, total) / |buckets|))
      {
        CutDrains(Lists(), valid, size, total, i);
      }
      if |buckets| == 0 {
        return [];
      }
      var initCut := if size <= total then Quotient(size, |buckets|) else total / |buckets|;
      batch := SpreadOut(initCut, valid, pool);
      batch := FillUp(batch, size, valid, pool);
    }

    /** No request is in two buckets or twice in one. */
    lemma ApartLists()
      requires Ready()
      ensures forall r :: All(Lists(), r) <= 1
    {
      forall r: Request
        ensures All(Lists(), r) <= 1
      {
        ApartFrom(0, r);
      }
    }

    lemma ApartFrom(i: nat, r: Request)
      requires Ready() && i <= |buckets|
      ensures All(Lists()[i..], r) <= 1
      ensures All(Lists()[i..], r) > 0 ==> exists j :: i <= j < |buckets| && r in buckets[j].known
      decreases |buckets| - i
    {
      if i < |buckets| {
        ApartFrom(i + 1, r);
        var s := Lists()[i..];
        assert s[1..] == Lists()[i + 1..] && s[0] == buckets[i].list;
        ChainDistinct(buckets[i].list, buckets[i].known, buckets[i].links);
        DistinctOnce(buckets[i].list, r);
      }
    }
  }

  lemma {:induction false} DistinctOnce(s: seq<Request>, r: Request)
    requires NoRepeats(s)
    ensures Count(s, r) == if r in s then 1 else 0
  {
    if s != [] {
      DistinctOnce(s[1..], r);
      assert s == [s[0]] + s[1..];
      CountConcat([s[0]], s[1..], r);
    }
  }
}
