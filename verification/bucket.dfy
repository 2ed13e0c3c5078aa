/** A bucket of client requests: a doubly linked list threaded through the requests themselves, an
    index of every request ever added, and a counter. */
module Bucket {
  import opened Collections

  /** Client ID and client sequence number. */
  datatype ReqId = ReqId(client: int, sn: int)

  class Request {
    const id: ReqId
    const digest: int
    /** The `SenderId` of the request message, which decides the bucket. */
    const sender: int
    /** Whether the client's signature is taken to be checked. */
    const verified: bool
    var next: Request?
    var prev: Request?

    constructor (id: ReqId, digest: int, sender: int, verified: bool)
      ensures this.id == id && this.digest == digest && this.sender == sender && this.verified == verified
      ensures next == null && prev == null
    {
      this.id, this.digest, this.sender, this.verified := id, digest, sender, verified;
      next, prev := null, null;
    }
  }

  // ---------- Decisions on the index ----------

  datatype Config = Config(sign: bool, verifyEarly: bool, buckets: nat)

  datatype Decision = Present | Refuse | Replace | Retry | Insert

  /** What to do with a new request, given the digest and the verified flag of the indexed request
      with the same ID. */
  function Decide(cfg: Config, stored: Option<(int, bool)>, digest: int, verified: bool): Decision {
    match stored
    case Some((oldDigest, oldVerified)) =>
      if oldDigest == digest then Present
      else if oldVerified || !cfg.sign then Refuse
      else if verified then Replace
      else Retry
    case None =>
      if cfg.sign && cfg.verifyEarly && !verified then Retry else Insert
  }

  predicate Taken(d: Decision) {
    d.Insert? || d.Replace?
  }

  /** A request is taken if its ID is new, unless signatures are checked early and its own has not been; and in place of
      one with another digest if signatures are checked and only the new one's has been. Another attempt makes sense
      exactly if this one fails for want of a checked signature. */
  lemma DecideIs(cfg: Config, stored: Option<(int, bool)>, digest: int, verified: bool)
    ensures var d := Decide(cfg, stored, digest, verified);
            && (d.Present? <==> stored.Some? && stored.value.0 == digest)
            && (d.Insert? <==> stored.None? && (verified || !cfg.sign || !cfg.verifyEarly))
            && (d.Replace? <==> stored.Some? && stored.value.0 != digest && cfg.sign && verified && !stored.value.1)
            && (d.Retry? <==> !Taken(d) && Taken(Decide(cfg, stored, digest, true)))
  {
  }

  /** A watermark movement of one client: from `low` up to, but without, `high`. */
  datatype Range = Range(low: int, high: int)

  /** Whether `id` lies in the watermark movement of its client. */
  predicate Covered(ranges: map<int, Range>, id: ReqId) {
    id.client in ranges && ranges[id.client].low <= id.sn < ranges[id.client].high
  }

  /** The bucket of a request depends on its sender alone. */
  function BucketNr(sender: int, buckets: nat): int
    requires buckets > 0
  {
    if sender >= 0 then sender % buckets else -(-sender % buckets)
  }

  /** The buckets are the remainders of the sender IDs. */
  lemma BucketNrIs(sender: nat, buckets: nat)
    requires buckets > 0
    ensures 0 <= BucketNr(sender, buckets) < buckets
    ensures sender == sender / buckets * buckets + BucketNr(sender, buckets)
  {
  }

  // ---------- Taking valid requests from a list ----------

  /** The requests of `s` whose validity is `b`, in order. */
  function Filter(s: seq<Request>, valid: Request -> bool, b: bool): seq<Request> {
    if s == [] then []
    else (if valid(s[0]) == b then [s[0]] else []) + Filter(s[1..], valid, b)
  }

  /** How far one must go in `s` to find `n` valid requests, or to its end. */
  function Cut(s: seq<Request>, valid: Request -> bool, n: int): (k: nat)
    ensures k <= |s|
  {
    if n <= 0 || s == [] then 0
    else 1 + Cut(s[1..], valid, if valid(s[0]) then n - 1 else n)
  }

  lemma {:induction false} FilterConcat(a: seq<Request>, b: seq<Request>, valid: Request -> bool, v: bool)
    ensures Filter(a + b, valid, v) == Filter(a, valid, v) + Filter(b, valid, v)
  {
    if a == [] {
      assert a + b == b;
    } else {
      FilterConcat(a[1..], b, valid, v);
      assert (a + b)[1..] == a[1..] + b;
      FilterPush(a, a + b, b, valid, v);
    }
  }

  /** What taking up to `n` valid requests yields, and what it leaves. */
  function Take(s: seq<Request>, valid: Request -> bool, n: int): seq<Request> {
    Filter(s[..Cut(s, valid, n)], valid, true)
  }

  function Left(s: seq<Request>, valid: Request -> bool, n: int): seq<Request> {
    Filter(s[..Cut(s, valid, n)], valid, false) + s[Cut(s, valid, n)..]
  }

  /** Taking up to `n` valid requests one by one: what has been taken, and what has been passed over
      followed by the rest. */
  function Run(s: seq<Request>,
               valid: Request -> bool, n: int, out: seq<Request>, pending: seq<Request>): (seq<Request>, seq<Request>) {
    if s == [] || n <= 0 then (out, pending + s)
    else if valid(s[0]) then Run(s[1..], valid, n - 1, out + [s[0]], pending)
    else Run(s[1..], valid, n, out, pending + [s[0]])
  }

  lemma {:induction false} RunIs(s: seq<Request>,
                                 valid: Request -> bool, n: int, out: seq<Request>, pending: seq<Request>)
    ensures Run(s, valid, n, out, pending) == (out + Take(s, valid, n), pending + Left(s, valid, n))
  {
    if s != [] && n > 0 {
      var rest, m := s[1..], if valid(s[0]) then n - 1 else n;
      RunIs(rest, valid, m, if valid(s[0]) then out + [s[0]] else out,
            if valid(s[0]) then pending else pending + [s[0]]);
      var c := Cut(rest, valid, m);
      assert Cut(s, valid, n) == c + 1;
      assert s[..c + 1][1..] == rest[..c];
      FilterStep(s[..c + 1], valid, true);
      FilterStep(s[..c + 1], valid, false);
      assert s[c + 1..] == rest[c..];
      if valid(s[0]) {
        assert Take(s, valid, n) == [s[0]] + Take(rest, valid, m);
        assert Left(s, valid, n) == Left(rest, valid, m);
        assert (out + [s[0]]) + Take(rest, valid, m) == out + Take(s, valid, n);
      } else {
        assert (pending + [s[0]]) + Left(rest, valid, m) == pending + ([s[0]] + Left(rest, valid, m));
        assert Take(s, valid, n) == Take(rest, valid, m);
        assert Left(s, valid, n) == [s[0]] + Left(rest, valid, m);
      }
    } else {
      assert Take(s, valid, n) == [] && Left(s, valid, n) == s;
      assert out + [] == out;
    }
  }

  ghost predicate Apart(q: seq<Request>, s: seq<Request>, known: set<Request>) {
    NoRepeats(q) && forall r :: r in q ==> r in known && r !in s
  }

  lemma ApartNext(q: seq<Request>, s: seq<Request>, known: set<Request>)
    requires s != [] && NoRepeats(s) && s[0] in known && Apart(q, s, known)
    ensures Apart(q, s[1..], known) && Apart(q + [s[0]], s[1..], known) && Minus(s, s[0]) == s[1..]
  {
  }

  lemma FilterPush(a: seq<Request>, both: seq<Request>, b: seq<Request>, valid: Request -> bool, v: bool)
    requires a != [] && both != [] && both[0] == a[0]
    requires Filter(both[1..], valid, v) == Filter(a[1..], valid, v) + Filter(b, valid, v)
    ensures Filter(both, valid, v) == Filter(a, valid, v) + Filter(b, valid, v)
  {
    ConcatAssoc(Head(a[0], valid, v), Filter(a[1..], valid, v), Filter(b, valid, v));
    FilterStep(both, valid, v);
    FilterStep(a, valid, v);
  }

  function Head(r: Request, valid: Request -> bool, v: bool): seq<Request> {
    if valid(r) == v then [r] else []
  }

  lemma FilterStep(s: seq<Request>, valid: Request -> bool, v: bool)
    requires s != []
    ensures Filter(s, valid, v) == Head(s[0], valid, v) + Filter(s[1..], valid, v)
  {
  }

  lemma {:induction false} FilterIn(s: seq<Request>, valid: Request -> bool, b: bool, r: Request)
    ensures r in Filter(s, valid, b) <==> r in s && valid(r) == b
  {
    if s != [] {
      FilterIn(s[1..], valid, b, r);
    }
  }

  /** The valid requests before the cut are the first `n` valid ones, or all of them. */
  lemma {:induction false} CutExact(s: seq<Request>, valid: Request -> bool, n: int)
    requires n >= 0
    ensures var all, c := Filter(s, valid, true), Cut(s, valid, n);
            Filter(s[..c], valid, true) == if n <= |all| then all[..n] else all
  {
    if n > 0 && s != [] {
      var m := if valid(s[0]) then n - 1 else n;
      CutExact(s[1..], valid, m);
      var c := Cut(s[1..], valid, m);
      assert s[..c + 1] == [s[0]] + s[1..][..c];
      assert s[..c + 1][1..] == s[1..][..c];
    }
  }

  /** What is taken and what is left are together what there was. */
  lemma TakenAndLeft(s: seq<Request>, valid: Request -> bool, k: nat)
    requires k <= |s|
    ensures multiset(Filter(s[..k], valid, true) + (Filter(s[..k], valid, false) + s[k..])) == multiset(s)
  {
    Partition(s[..k], valid);
    assert s == s[..k] + s[k..];
  }

  lemma {:induction false} Partition(s: seq<Request>, valid: Request -> bool)
    ensures multiset(Filter(s, valid, true)) + multiset(Filter(s, valid, false)) == multiset(s)
  {
    if s != [] {
      Partition(s[1..], valid);
      assert s == [s[0]] + s[1..];
    }
  }

  /** `s` without its element at position `k`. */
  function Without(s: seq<Request>, k: nat): seq<Request>
    requires k < |s|
  {
    s[..k] + s[k + 1..]
  }

  /** `s` without the first occurrence of `r`, if there is one. */
  function Minus(s: seq<Request>, r: Request): seq<Request> {
    if s == [] then [] else if s[0] == r then s[1..] else [s[0]] + Minus(s[1..], r)
  }

  function MinusAll(s: seq<Request>, reqs: seq<Request>): seq<Request>
    decreases |reqs|
  {
    if |reqs| == 0 then s else MinusAll(Minus(s, reqs[0]), reqs[1..])
  }

  lemma {:induction false} MinusAbsent(s: seq<Request>, r: Request)
    requires r !in s
    ensures Minus(s, r) == s
  {
    if s != [] {
      MinusAbsent(s[1..], r);
    }
  }

  lemma {:induction false} MinusAt(s: seq<Request>, k: nat)
    requires NoRepeats(s) && k < |s|
    ensures Minus(s, s[k]) == Without(s, k)
  {
    if k > 0 {
      MinusAt(s[1..], k - 1);
      assert s[1..][k - 1] == s[k];
      assert Without(s, k) == [s[0]] + Without(s[1..], k - 1);
    }
  }

  // ---------- Links ----------

  datatype Link = Link(prev: Request?, next: Request?)

  /** The neighbours of the request at position `i` of a list. */
  function LinkAt(s: seq<Request>, i: int): Link
    requires 0 <= i < |s|
  {
    Link(if i == 0 then null else s[i - 1], if i == |s| - 1 then null else s[i + 1])
  }

  function First(s: seq<Request>): Request? {
    if s == [] then null else s[0]
  }

  function Last(s: seq<Request>): Request? {
    if s == [] then null else s[|s| - 1]
  }

  /** The links of the requests in `known` form the list `s`; those outside it are loose. */
  ghost predicate Chain(s: seq<Request>, known: set<Request>, links: map<Request, Link>) {
    && links.Keys == known
    && (forall x :: x in s ==> x in known)
    && (forall i {:trigger LinkAt(s, i)} {:trigger links[s[i]]} :: 0 <= i < |s| ==> links[s[i]] == LinkAt(s, i))
    && (forall r :: r in known && r !in s ==> links[r] == Link(null, null))
  }

  /** A request is linked, or first, exactly if it is in the list. */
  lemma ChainIff(s: seq<Request>, known: set<Request>, links: map<Request, Link>, r: Request)
    requires Chain(s, known, links) && r in known
    ensures r in s <==> links[r] != Link(null, null) || First(s) == r
  {
    if r in s {
      var i :| 0 <= i < |s| && s[i] == r;
      assert links[r] == LinkAt(s, i);
    }
  }

  /** A chain has no repetitions: two equal requests would have equal predecessors, back to the first. */
  lemma ChainDistinct(s: seq<Request>, known: set<Request>, links: map<Request, Link>)
    requires Chain(s, known, links)
    ensures NoRepeats(s)
  {
    forall i, j | 0 <= i < j < |s|
      ensures s[i] != s[j]
    {
      ChainDiffer(s, known, links, i, j);
    }
  }

  lemma {:induction false} ChainDiffer(s: seq<Request>, known: set<Request>, links: map<Request, Link>, i: nat, j: nat)
    requires Chain(s, known, links) && i < j < |s|
    ensures s[i] != s[j]
  {
    assert links[s[i]] == LinkAt(s, i) && links[s[j]] == LinkAt(s, j);
    if i > 0 {
      ChainDiffer(s, known, links, i - 1, j - 1);
    }
  }

  lemma ChainEnds(s: seq<Request>, known: set<Request>, links: map<Request, Link>)
    requires Chain(s, known, links)
    ensures s != [] ==> First(s) in known && Last(s) in known && First(s) in s && Last(s) in s
  {
  }

  lemma ChainAppend(s: seq<Request>, known: set<Request>, links: map<Request, Link>, r: Request,
                    more: map<Request, Link>)
    requires Chain(s, known, links) && r !in s
    requires more.Keys == known + {r} && more[r] == Link(Last(s), null)
    requires forall x :: x in known && x != r ==> more[x] == if x == Last(s) then Link(links[x].prev, r) else links[x]
    ensures Chain(s + [r], known + {r}, more)
  {
    var t := s + [r];
    forall i | 0 <= i < |t|
      ensures more[t[i]] == LinkAt(t, i)
    {
      if i < |s| {
        assert t[i] == s[i];
      }
    }
    forall x | x in known + {r} && x !in t
      ensures more[x] == Link(null, null)
    {
      assert x !in s;
    }
  }

  lemma ChainPrepend(s: seq<Request>, known: set<Request>, links: map<Request, Link>, q: seq<Request>,
                     more: map<Request, Link>)
    requires Chain(s, known, links) && q != [] && Apart(q, s, known) && more.Keys == known
    requires forall i {:trigger more[q[i]]} :: 0 <= i < |q| ==>
               more[q[i]] == Link(LinkAt(q, i).prev, if i == |q| - 1 then First(s) else q[i + 1])
    requires forall x :: x in known && x !in q ==>
               more[x] == if x == First(s) then Link(Last(q), links[x].next) else links[x]
    ensures Chain(q + s, known, more)
  {
    var t := q + s;
    forall i | 0 <= i < |t|
      ensures more[t[i]] == LinkAt(t, i)
    {
      if i < |q| {
        assert t[i] == q[i] && q[i] in q;
      } else {
        assert t[i] == s[i - |q|] && s[i - |q|] in s;
      }
    }
    forall x | x in known && x !in t
      ensures more[x] == Link(null, null)
    {
      assert x !in s && x !in q;
    }
  }

  /** The links of `x` after the neighbours of the request at position `k` have been joined. */
  ghost function Joined(links: map<Request, Link>, r: Request, x: Request): Link
    requires r in links && x in links
  {
    if x == r then Link(null, null)
    else Link(if x == links[r].next then links[r].prev else links[x].prev,
              if x == links[r].prev then links[r].next else links[x].next)
  }

  /** Joining the neighbours of a request takes it out of the list. */
  lemma ChainUnlink(s: seq<Request>, known: set<Request>, links: map<Request, Link>, k: nat, more: map<Request, Link>)
    requires Chain(s, known, links) && k < |s| && s[k] in known && more.Keys == known
    requires forall x :: x in known ==> more[x] == Joined(links, s[k], x)
    ensures Chain(Without(s, k), known, more)
  {
    var t := Without(s, k);
    ChainDistinct(s, known, links);
    forall i | 0 <= i < |t|
      ensures t[i] in known && more[t[i]] == LinkAt(t, i)
    {
      UnlinkAt(s, known, links, k, i);
    }
    forall x | x in known && x !in t
      ensures more[x] == Link(null, null)
    {
      if x != s[k] {
        LooseStays(s, known, links, k, x);
      }
    }
  }

  lemma UnlinkAt(s: seq<Request>, known: set<Request>, links: map<Request, Link>, k: nat, i: nat)
    requires Chain(s, known, links) && NoRepeats(s) && k < |s| && i < |s| - 1
    ensures s[k] in known && Without(s, k)[i] in known
    ensures Joined(links, s[k], Without(s, k)[i]) == LinkAt(Without(s, k), i)
  {
    var j := if i < k then i else i + 1;
    assert s[k] in s && s[j] in s && Without(s, k)[i] == s[j];
    assert links[s[k]] == LinkAt(s, k) && links[s[j]] == LinkAt(s, j);
  }

  lemma LooseStays(s: seq<Request>, known: set<Request>, links: map<Request, Link>, k: nat, x: Request)
    requires Chain(s, known, links) && k < |s| && s[k] in known && x in known && x !in Without(s, k) && x != s[k]
    ensures Joined(links, s[k], x) == Link(null, null)
  {
    NotWithout(s, k, x);
    assert links[s[k]] == LinkAt(s, k);
    assert k > 0 ==> s[k - 1] in s;
    assert k < |s| - 1 ==> s[k + 1] in s;
  }

  /** The neighbours of the request at position `k`, and the ends of the list without it. */
  lemma Neighbours(s: seq<Request>, known: set<Request>, links: map<Request, Link>, k: nat) returns (link: Link)
    requires Chain(s, known, links) && k < |s|
    ensures s[k] in known && link == links[s[k]] && link.prev != s[k] && link.next != s[k]
    ensures (link.prev != null ==> link.prev in known) && (link.next != null ==> link.next in known)
    ensures var t := Without(s, k);
            && First(t) == (if link.prev == null then link.next else First(s))
            && Last(t) == if link.next == null then link.prev else Last(s)
  {
    link := links[s[k]];
    ChainDistinct(s, known, links);
    assert link == LinkAt(s, k);
    assert k > 0 ==> s[k - 1] in s;
    assert k < |s| - 1 ==> s[k + 1] in s;
  }

  lemma NotWithout(s: seq<Request>, k: nat, x: Request)
    requires k < |s| && x !in Without(s, k) && x != s[k]
    ensures x !in s
  {
    forall i | 0 <= i < |s|
      ensures s[i] != x
    {
      assert i != k ==> s[i] == Without(s, k)[if i < k then i else i - 1];
    }
  }

  // ---------- The bucket ----------

  class Bucket {
    const id: int
    var first: Request?
    var last: Request?
    var num: int
    /** Requests by ID. Entries stay when a request leaves the list. */
    var index: map<ReqId, Request>
    /** The requests in the list. */
    ghost var list: seq<Request>
    /** Every request that belongs to this bucket, and its links. */
    ghost var known: set<Request>
    ghost var links: map<Request, Link>

    ghost predicate Valid()
      reads this, known
    {
      && Chain(list, known, links)
      && (forall r :: r in known ==> links[r] == Link(r.prev, r.next))
      && num == |list| && first == First(list) && last == Last(list)
      && (forall i :: i in index ==> index[i] in known && index[i].id == i)
    }

    constructor (id: int)
      ensures this.id == id && Valid() && list == [] && known == {} && index == map[]
    {
      this.id := id;
      first, last, num, index := null, null, 0, map[];
      list, known, links := [], {}, map[];
    }

    /** A request has a neighbour or is first exactly if it is in the list. */
    lemma Linked(r: Request)
      requires Valid() && r in known
      ensures r in list <==> r.next != null || r.prev != null || first == r
    {
      ChainIff(list, known, links, r);
    }

    /** Adds `r` at the end. */
    method Append(r: Request)
      requires Valid() && r !in list && r.prev == null && r.next == null
      modifies this, known, r
      ensures Valid() && list == old(list) + [r] && known == old(known) + {r} && index == old(index)
    {
      ghost var now := AttachLast(r);
      num := num + 1;
      list, known, links := list + [r], known + {r}, now;
    }

    method AttachLast(r: Request) returns (ghost now: map<Request, Link>)
      requires Chain(list, known, links) && first == First(list) && last == Last(list) && r !in list && r.prev == null
      requires r.next == null
      requires forall x :: x in known ==> links[x] == Link(x.prev, x.next)
      modifies this`first, this`last, known, r
      ensures last == r && first == First(list + [r]) && Chain(list + [r], known + {r}, now)
      ensures forall x :: x in known + {r} ==> now[x] == Link(x.prev, x.next)
    {
      ChainEnds(list, known, links);
      HookLast(r);
      now := map x | x in known + {r} :: Link(x.prev, x.next);
      ChainAppend(list, known, links, r, now);
    }

    method HookLast(r: Request)
      requires (first == null <==> last == null) && (last == null || last in known) && last != r
      modifies this`first, this`last, known, r
      ensures last == r && first == if old(first) == null then r else old(first)
      ensures r.prev == (if old(last) == null then old(r.prev) else old(last)) && r.next == old(r.next)
      ensures forall x :: x in known && x != r ==> x.prev == old(x.prev)
      ensures forall x :: x in known && x != r ==> x.next == if x == old(last) then r else old(x.next)
    {
      if first == null {
        first := r;
      } else {
        last.next := r;
        r.prev := last;
      }
      last := r;
    }

    /** Puts `r` back at the start unless it is in the list. */
    method Prepend(r: Request)
      requires Valid() && r in known && r.id in index
      modifies this, known
      ensures Valid() && known == old(known) && index == old(index)
      ensures list == if r in old(list) then old(list) else [r] + old(list)
    {
      Linked(r);
      if r.prev == null && r.next == null && first != r {
        PrependMultiple([r]);
      }
    }

    /** Hangs a chain of requests from `start` to `end` in front of the first request. */
    method Hook(start: Request, end: Request)
      requires end in known && end != first && (first == null || first in known)
      modifies this`first, this`last, known
      ensures first == start && last == if old(first) == null then end else old(last)
      ensures forall x :: x in known ==> x.prev == if x == old(first) then end else old(x.prev)
      ensures forall x :: x in known ==> x.next == if x == end && old(first) != null then old(first) else old(x.next)
    {
      if first == null {
        first, last := start, end;
      } else {
        first.prev := end;
        end.next := first;
        first := start;
      }
    }

    /** Takes `r` out of the list if it is there. The index is not touched. */
    method Remove(r: Request)
      requires Valid() && r in known
      modifies this, known
      ensures Valid() && known == old(known) && index == old(index)
      ensures list == Minus(old(list), r)
    {
      Linked(r);
      if r.next == null && r.prev == null && first != r {
        MinusAbsent(list, r);
        return;
      }
      ghost var k :| 0 <= k < |list| && list[k] == r;
      ChainDistinct(list, known, links);
      MinusAt(list, k);
      Unlink(r, k);
    }

    method RemoveAll(reqs: seq<Request>)
      requires Valid() && forall r :: r in reqs ==> r in known
      modifies this, known
      ensures Valid() && known == old(known) && index == old(index) && list == MinusAll(old(list), reqs)
    {
      for i := 0 to |reqs|
        invariant Valid() && known == old(known) && index == old(index)
        invariant MinusAll(list, reqs[i..]) == MinusAll(old(list), reqs)
      {
        Remove(reqs[i]);
      }
    }

    /** Adds a request unless the index holds one with its ID. Returns the stored request, if any, and
        whether adding it again after checking its signature makes sense. */
    method Add(cfg: Config, r: Request) returns (stored: Request?, retry: bool)
      requires Valid()
      requires (r.id in index && index[r.id].digest == r.digest) || (r !in list && r.prev == null && r.next == null)
      modifies this, known, r
      ensures Valid()
      ensures var was :=
                if r.id in old(index) then Some((old(index)[r.id].digest, old(index)[r.id].verified)) else None;
              var d := Decide(cfg, was, r.digest, r.verified);
              && retry == d.Retry?
              && stored == (if d.Present? then old(index)[r.id] else if d.Insert? || d.Replace? then r else null)
              && index == (if d.Insert? || d.Replace? then old(index)[r.id := r] else old(index))
              && known == (if d.Insert? || d.Replace? then old(known) + {r} else old(known))
              && list == if d.Insert? then old(list) + [r]
                         else if d.Replace? then Minus(old(list), old(index)[r.id]) + [r]
                         else old(list)
    {
      stored, retry := null, false;
      if r.id in index {
        var was := index[r.id];
        if was.digest == r.digest {
          stored := was;
        } else if was.verified || !cfg.sign {
        } else if r.verified {
          ReplaceBy(was, r);
          stored := r;
        } else {
          retry := true;
        }
      } else if cfg.sign && cfg.verifyEarly && !r.verified {
        retry := true;
      } else {
        Insert(r);
        stored := r;
      }
    }

    /** Appends a request and indexes it. */
    method Insert(r: Request)
      requires Valid() && r !in list && r.prev == null && r.next == null
      modifies this, known, r
      ensures Valid() && list == old(list) + [r] && known == old(known) + {r} && index == old(index)[r.id := r]
    {
      Append(r);
      index := index[r.id := r];
    }

    /** Takes an indexed request out of the list and puts another one with its ID in its place in the index. */
    method ReplaceBy(was: Request, r: Request)
      requires Valid() && was in known && r != was && r !in list && r.prev == null && r.next == null
      modifies this, known, r
      ensures Valid() && list == Minus(old(list), was) + [r] && known == old(known) + {r}
      ensures index == old(index)[r.id := r]
    {
      ChainDistinct(list, known, links);
      MinusIn(list, was);
      RemoveKeepsLoose(was, r);
      Insert(r);
    }

    method RemoveKeepsLoose(was: Request, r: Request)
      requires Valid() && was in known && r !in list && r.prev == null && r.next == null
      modifies this, known
      ensures Valid() && known == old(known) && index == old(index) && list == Minus(old(list), was)
      ensures r !in list && r.prev == null && r.next == null
    {
      ChainDistinct(list, known, links);
      MinusIn(list, was);
      Remove(was);
      if r in known {
        Linked(r);
      }
    }

    /** Puts `reqs`, none of which is in the list, at its start. */
    method PrependMultiple(reqs: seq<Request>)
      requires Valid() && Apart(reqs, list, known)
      modifies this, known
      ensures Valid() && known == old(known) && index == old(index) && list == reqs + old(list)
    {
      if |reqs| == 0 {
        assert reqs + list == list;
        return;
      }
      ghost var now := Attach(reqs);
      num := num + |reqs|;
      list, links := reqs + list, now;
    }

    /** Threads `reqs` and hangs them in front of the list. */
    method Attach(reqs: seq<Request>) returns (ghost now: map<Request, Link>)
      requires reqs != [] && Chain(list, known, links) && first == First(list) && Apart(reqs, list, known)
      requires forall r :: r in known ==> links[r] == Link(r.prev, r.next)
      modifies this`first, this`last, known
      ensures first == reqs[0] && last == if old(first) == null then reqs[|reqs| - 1] else old(last)
      ensures forall r :: r in known ==> r in now && now[r] == Link(r.prev, r.next)
      ensures Chain(reqs + list, known, now)
    {
      ChainEnds(list, known, links);
      now := Rethread(reqs);
      ChainPrepend(list, known, links, reqs, now);
    }

    method Rethread(reqs: seq<Request>) returns (ghost now: map<Request, Link>)
      requires reqs != [] && NoRepeats(reqs) && links.Keys == known && first == First(list)
      requires first == null || (first in known && first !in reqs)
      requires forall r :: r in reqs ==> r in known && links[r] == Link(null, null)
      requires forall r :: r in known ==> links[r] == Link(r.prev, r.next)
      modifies this`first, this`last, known
      ensures first == reqs[0] && last == if old(first) == null then reqs[|reqs| - 1] else old(last)
      ensures now.Keys == known && forall r :: r in known ==> now[r] == Link(r.prev, r.next)
      ensures forall i {:trigger now[reqs[i]]} :: 0 <= i < |reqs| ==>
                now[reqs[i]] == Link(LinkAt(reqs, i).prev, if i == |reqs| - 1 then First(list) else reqs[i + 1])
      ensures forall x :: x in known && x !in reqs ==>
                now[x] == if x == First(list) then Link(Last(reqs), links[x].next) else links[x]
    {
      Thread(reqs);
      Hook(reqs[0], reqs[|reqs| - 1]);
      now := map x | x in known :: Link(x.prev, x.next);
    }

    /** Links loose requests to one another. */
    method Thread(reqs: seq<Request>)
      requires reqs != [] && NoRepeats(reqs)
      requires forall r :: r in reqs ==> r in known && r.prev == null && r.next == null
      modifies known
      ensures forall i {:trigger reqs[i].prev} :: 0 <= i < |reqs| ==>
                Link(reqs[i].prev, reqs[i].next) == LinkAt(reqs, i)
      ensures forall x :: x in known && x !in reqs ==> x.prev == old(x.prev) && x.next == old(x.next)
    {
      for i := 0 to |reqs| - 1
        invariant forall j {:trigger reqs[j].prev} :: 0 <= j < |reqs| ==>
                    reqs[j].prev == if 0 < j <= i then reqs[j - 1] else null
        invariant forall j {:trigger reqs[j].next} :: 0 <= j < |reqs| ==>
                    reqs[j].next == if j < i then reqs[j + 1] else null
        invariant forall x :: x in known && x !in reqs ==> x.prev == old(x.prev) && x.next == old(x.next)
      {
        reqs[i].next := reqs[i + 1];
        reqs[i + 1].prev := reqs[i];
      }
    }

    method RemoveHead(ghost passed: seq<Request>) returns (r: Request)
      requires Valid() && num > 0 && Apart(passed, list, known)
      modifies this, known
      ensures Valid() && known == old(known) && index == old(index) && num < old(num)
      ensures old(list) != [] && r == old(list)[0] && list == old(list)[1..]
      ensures Apart(passed, list, known) && Apart(passed + [r], list, known)
    {
      r := first;
      ChainDistinct(list, known, links);
      ApartNext(passed, list, known);
      Remove(r);
    }

    /** Takes the first request out of the list and sorts it by validity. */
    method TakeOne(m: int, dest: seq<Request>, passed: seq<Request>, valid: Request -> bool)
      returns (left: int, out: seq<Request>, pending: seq<Request>)
      requires Valid() && num > 0 && m > 0 && Apart(passed, list, known)
      modifies this, known
      ensures Valid() && known == old(known) && index == old(index) && num < old(num) && Apart(pending, list, known)
      ensures Run(list, valid, left, out, pending) == Run(old(list), valid, m, dest, passed)
    {
      left, out, pending := m, dest, passed;
      var r := RemoveHead(passed);
      if valid(r) {
        out := out + [r];
        left := left - 1;
      } else {
        pending := pending + [r];
      }
    }

    /** Takes the first `n` valid requests, or all of them, and puts back those passed over. */
    method RemoveFirst(n: int, dest: seq<Request>, valid: Request -> bool) returns (out: seq<Request>)
      requires Valid()
      modifies this, known
      ensures Valid() && known == old(known) && index == old(index)
      ensures out == dest + Take(old(list), valid, n) && list == Left(old(list), valid, n)
    {
      var pending;
      RunIs(list, valid, n, dest, []);
      out, pending := TakeOut(n, dest, valid);
      PrependMultiple(pending);
    }

    /** Takes requests from the start of the list until `n` valid ones are found or the list is empty. */
    method TakeOut(n: int, dest: seq<Request>, valid: Request -> bool)
      returns (out: seq<Request>, pending: seq<Request>)
      requires Valid()
      modifies this, known
      ensures Valid() && known == old(known) && index == old(index) && Apart(pending, list, known)
      ensures (out, pending + list) == Run(old(list), valid, n, dest, [])
    {
      var m := n;
      out, pending := dest, [];
      while num > 0 && m > 0
        invariant Valid() && known == old(known) && index == old(index) && Apart(pending, list, known)
        invariant Run(list, valid, m, out, pending) == Run(old(list), valid, n, dest, [])
        decreases num
      {
        m, out, pending := TakeOne(m, out, pending, valid);
      }
    }

    /** Forgets the requests over which their clients' watermarks have moved. */
    method PruneIndex(ranges: map<int, Range>, buckets: nat)
      requires Valid() && buckets > 0
      modifies this`index
      ensures Valid()
      ensures forall i :: i in index <==>
              i in old(index) && !(Covered(ranges, i) && BucketNr(old(index)[i].sender, buckets) == id)
      ensures forall i :: i in index ==> index[i] == old(index)[i]
    {
      var clients := ranges.Keys;
      while clients != {}
        invariant Valid() && clients <= ranges.Keys
        invariant forall i :: i in index ==> i in old(index) && index[i] == old(index)[i]
        invariant forall i :: i in old(index) ==>
                    (i !in index <==>
                     Covered(ranges, i) && i.client !in clients && BucketNr(old(index)[i].sender, buckets) == id)
        decreases clients
      {
        var c := Pick(clients);
        PruneClient(c, ranges[c], buckets);
        clients := clients - {c};
      }
    }

    method PruneClient(client: int, range: Range, buckets: nat)
      requires Valid() && buckets > 0
      modifies this`index
      ensures Valid()
      ensures forall i :: i in index ==> i in old(index) && index[i] == old(index)[i]
      ensures forall i :: i in old(index) ==>
                (i !in index <==>
                 i.client == client && range.low <= i.sn < range.high && BucketNr(old(index)[i].sender, buckets) == id)
    {
      var sn := range.low;
      while sn < range.high
        invariant Valid() && (sn <= range.high || sn == range.low)
        invariant forall i :: i in index ==> i in old(index) && index[i] == old(index)[i]
        invariant forall i :: i in old(index) ==>
                    (i !in index <==>
                     i.client == client && range.low <= i.sn < sn && BucketNr(old(index)[i].sender, buckets) == id)
      {
        var i := ReqId(client, sn);
        if i in index && BucketNr(index[i].sender, buckets) == id {
          index := index - {i};
        }
        sn := sn + 1;
      }
    }

    /** Takes `r`, which is at position `k`, out of the list. */
    method Unlink(r: Request, ghost k: nat)
      requires Valid() && k < |list| && r == list[k]
      modifies this, known
      ensures Valid() && known == old(known) && index == old(index) && list == Without(old(list), k)
    {
      ghost var now := Detach(r, k);
      list, links := Without(list, k), now;
    }

    method Detach(r: Request, ghost k: nat) returns (ghost now: map<Request, Link>)
      requires Chain(list, known, links) && first == First(list) && last == Last(list) && k < |list| && r == list[k]
      requires forall x :: x in known ==> links[x] == Link(x.prev, x.next)
      modifies this`first, this`last, this`num, known
      ensures num == old(num) - 1 && first == First(Without(list, k)) && last == Last(Without(list, k))
      ensures Chain(Without(list, k), known, now) && forall x :: x in known ==> now[x] == Link(x.prev, x.next)
    {
      ghost var link := Neighbours(list, known, links, k);
      Splice(r, link);
      now := map x | x in known :: Link(x.prev, x.next);
      ChainUnlink(list, known, links, k, now);
    }

    /** Joins the neighbours of `r`. */
    method Splice(r: Request, ghost link: Link)
      requires r in known && r.prev == link.prev && r.next == link.next && link.prev != r && link.next != r
      requires (link.prev != null ==> link.prev in known) && (link.next != null ==> link.next in known)
      modifies this`first, this`last, this`num, known
      ensures num == old(num) - 1
      ensures first == (if link.prev == null then link.next else old(first))
      ensures last == (if link.next == null then link.prev else old(last))
      ensures forall x :: x in known ==>
                x.prev == if x == r then null else if x == link.next then link.prev else old(x.prev)
      ensures forall x :: x in known ==>
                x.next == if x == r then null else if x == link.prev then link.next else old(x.next)
    {
      if r.next != null {
        r.next.prev := r.prev;
      } else {
        last := r.prev;
      }
      if r.prev != null {
        r.prev.next := r.next;
      } else {
        first := r.next;
      }
      r.prev, r.next := null, null;
      num := num - 1;
    }
  }

  lemma {:induction false} MinusIn(s: seq<Request>, r: Request)
    requires NoRepeats(s)
    ensures forall x :: x in Minus(s, r) <==> x in s && x != r
  {
    if s != [] {
      var rest := s[1..];
      MinusIn(rest, r);
      assert s == [s[0]] + rest;
      forall x | x in rest
        ensures x != s[0]
      {
        var i :| 0 <= i < |rest| && rest[i] == x;
        assert s[i + 1] == x;
      }
    }
  }

  lemma {:induction false} MinusAllIn(s: seq<Request>, reqs: seq<Request>, x: Request)
    requires NoRepeats(s)
    ensures NoRepeats(MinusAll(s, reqs)) && (x in MinusAll(s, reqs) <==> x in s && x !in reqs)
    decreases |reqs|
  {
    if |reqs| > 0 {
      MinusIn(s, reqs[0]);
      MinusDistinct(s, reqs[0]);
      MinusAllIn(Minus(s, reqs[0]), reqs[1..], x);
    }
  }

  lemma MinusDistinct(s: seq<Request>, r: Request)
    requires NoRepeats(s)
    ensures NoRepeats(Minus(s, r))
  {
    if r in s {
      var k :| 0 <= k < |s| && s[k] == r;
      MinusAt(s, k);
    } else {
      MinusAbsent(s, r);
    }
  }
}
