/** Options and facts about finite sets that the other modules share. */
module Collections {

  datatype Option<+T> = None | Some(value: T)

  /** A subset of a finite set is no larger than it. */
  lemma {:induction false} SubsetSize<T>(a: set<T>, b: set<T>)
    requires a <= b
    ensures |a| <= |b|
    decreases b
  {
    if a != {} {
      var x :| x in a;
      SubsetSize(a - {x}, b - {x});
    }
  }

  /** Taking out a set takes out no more elements than it has. */
  lemma MinusSize<T>(a: set<T>, b: set<T>)
    ensures |a - b| >= |a| - |b|
  {
    SubsetSize(a * b, b);
    assert a == (a - b) + (a * b);
    assert |a| == |a - b| + |a * b|;
  }

  /** Inclusion-exclusion inside a universe. */
  lemma OverlapSize<T>(a: set<T>, b: set<T>, u: set<T>)
    requires a <= u && b <= u
    ensures |a * b| >= |a| + |b| - |u|
  {
    assert |a + b| + |a * b| == |a| + |b|;
    SubsetSize(a + b, u);
  }

  /** Examining one more element of `rest` counts it if it belongs to `s`. */
  lemma CountOne<T>(s: set<T>, rest: set<T>, x: T)
    requires x in rest
    ensures |s - (rest - {x})| == |s - rest| + if x in s then 1 else 0
  {
    assert s - (rest - {x}) == if x in s then (s - rest) + {x} else s - rest;
  }

  /** What has been counted never exceeds the whole, and is the whole at the end. */
  lemma CountAll<T>(s: set<T>, rest: set<T>)
    ensures |s - rest| <= |s| && (rest == {} ==> |s - rest| == |s|) && (s <= rest ==> |s - rest| == 0)
  {
    SubsetSize(s - rest, s);
    assert rest == {} ==> s - rest == s;
    assert s <= rest ==> s - rest == {};
  }

  /** Some element of a non-empty set, in no particular order. */
  method Pick<T(==)>(s: set<T>) returns (x: T)
    requires s != {}
    ensures x in s
  {
    x :| x in s;
  }

  /** The integers from `lo` to below `hi`. */
  function Interval(lo: int, hi: int): (s: set<int>)
    requires lo <= hi
    ensures |s| == hi - lo
    ensures forall x :: x in s <==> lo <= x < hi
    decreases hi - lo
  {
    if lo == hi then {} else Interval(lo, hi - 1) + {hi - 1}
  }

  /** Some element of a non-empty set. */
  lemma Member<T>(s: set<T>) returns (x: T)
    requires s != {}
    ensures x in s
  {
    x :| x in s;
  }

  /** Appending a list from its second element on, one element at a time. */
  lemma AppendRest<T>(t: seq<T>, path: seq<T>)
    requires |path| > 1
    ensures t + [path[1]] + path[1..][1..] == t + path[1..]
  {
  }

  lemma ConcatAssoc<T>(a: seq<T>, b: seq<T>, c: seq<T>)
    ensures (a + b) + c == a + (b + c)
  {
  }

  /** A subset of a given size around some elements. */
  lemma {:induction false} SubsetAround<T>(s: set<T>, core: set<T>, n: nat) returns (t: set<T>)
    requires core <= s && |core| <= n <= |s|
    ensures core <= t <= s && |t| == n
    decreases n
  {
    if n == |core| {
      t := core;
    } else {
      var u := SubsetAround(s, core, n - 1);
      MinusSize(s, u);
      var y := Member(s - u);
      t := u + {y};
    }
  }

  /** The elements of a set as a list. */
  lemma {:induction false} Listing(s: set<int>) returns (list: seq<int>)
    ensures Distinct(list) && |list| == |s| && forall x :: x in list <==> x in s
    decreases |s|
  {
    if s == {} {
      list := [];
    } else {
      var x := Member(s);
      var rest := Listing(s - {x});
      list := rest + [x];
    }
  }

  ghost predicate NoRepeats<T>(s: seq<T>) {
    forall i, j :: 0 <= i < j < |s| ==> s[i] != s[j]
  }

  /** The same for integers. */
  ghost predicate Distinct(s: seq<int>) {
    forall i, j :: 0 <= i < j < |s| ==> s[i] != s[j]
  }

  ghost predicate Increasing(s: seq<int>) {
    forall i, j :: 0 <= i < j < |s| ==> s[i] < s[j]
  }

  function Flatten<T>(xs: seq<seq<T>>): seq<T> {
    if xs == [] then [] else xs[0] + Flatten(xs[1..])
  }
}
