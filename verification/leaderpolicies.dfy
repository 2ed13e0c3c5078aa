/** The policies that choose the leaders of an epoch. */
module LeaderPolicies {
  import opened Collections
  import Quorums

  // ---------- Backoff ----------

  predicate Eligible(until: map<int, int>, id: int, e: int) {
    id !in until || until[id] < e
  }

  /** The nodes that are not banned in epoch `e`, in order. */
  function Leaders(nodes: seq<int>, until: map<int, int>, e: int): seq<int> {
    if nodes == [] then []
    else (if Eligible(until, nodes[0], e) then [nodes[0]] else []) + Leaders(nodes[1..], until, e)
  }

  lemma {:induction false} LeadersIn(nodes: seq<int>, until: map<int, int>, e: int, id: int)
    ensures id in Leaders(nodes, until, e) <==> id in nodes && Eligible(until, id, e)
  {
    if nodes != [] {
      LeadersIn(nodes[1..], until, e, id);
    }
  }

  /** Different places of `s` hold what different places of `t` hold, in the same order. */
  ghost predicate InOrder(s: seq<int>, t: seq<int>) {
    forall i, j :: 0 <= i < j < |s| ==> Before(s[i], s[j], t)
  }

  ghost predicate Before(x: int, y: int, t: seq<int>) {
    exists p, q :: 0 <= p < q < |t| && t[p] == x && t[q] == y
  }

  lemma {:induction false} LeadersAre(nodes: seq<int>, until: map<int, int>, e: int)
    ensures InOrder(Leaders(nodes, until, e), nodes)
    ensures forall x :: x in Leaders(nodes, until, e) <==> x in nodes && (x !in until || until[x] < e)
  {
    if nodes != [] {
      var rest := Leaders(nodes[1..], until, e);
      LeadersAre(nodes[1..], until, e);
      assert nodes == [nodes[0]] + nodes[1..];
      forall x, y | Before(x, y, nodes[1..])
        ensures Before(x, y, nodes)
      {
        var p, q :| 0 <= p < q < |nodes[1..]| && nodes[1..][p] == x && nodes[1..][q] == y;
        assert nodes[p + 1] == x && nodes[q + 1] == y;
      }
      forall y | y in rest
        ensures Before(nodes[0], y, nodes)
      {
        var q :| 0 <= q < |nodes[1..]| && nodes[1..][q] == y;
        assert nodes[q + 1] == y;
      }
    }
  }

  /** A node that is banned leads no epoch until its ban, shortened by as many epochs as the others, is over. */
  lemma BannedDoesNotLead(nodes: seq<int>, banned: map<int, int>, after: map<int, int>, e: int, k: nat, id: int, x: int)
    requires Shortened(nodes, banned, after, e, k) && id in banned && x <= banned[id] - k
    ensures id !in Leaders(nodes, after, x)
  {
    LeadersAre(nodes, after, x);
  }

  lemma LeadersNext(nodes: seq<int>, until: map<int, int>, e: int, i: nat)
    requires i < |nodes|
    ensures Leaders(nodes[i..], until, e)
            == (if nodes[i] !in until || until[nodes[i]] < e then [nodes[i]] else []) +
               Leaders(nodes[i + 1..], until, e)
  {
    assert nodes[i..][1..] == nodes[i + 1..];
  }

  /** All bans end `k` epochs earlier. */
  function Lower(until: map<int, int>, k: int): map<int, int> {
    map id | id in until :: until[id] - k
  }

  /** Ending all bans `k` epochs earlier is the same as skipping `k` epochs. */
  lemma {:induction false} SkippingEpochs(nodes: seq<int>, until: map<int, int>, k: int, e: int)
    ensures Leaders(nodes, Lower(until, k), e) == Leaders(nodes, until, e + k)
  {
    if nodes != [] {
      SkippingEpochs(nodes[1..], until, k, e);
    }
  }

  /** A node that leads in one epoch leads in all later ones, unless it is banned again. */
  lemma LeadersStay(nodes: seq<int>, until: map<int, int>, d: int, e: int)
    requires Leaders(nodes, until, d) != [] && d <= e
    ensures Leaders(nodes, until, e) != []
  {
    var l := Leaders(nodes, until, d)[0];
    LeadersIn(nodes, until, d, l);
    LeadersIn(nodes, until, e, l);
  }

  /** A number of epochs after which the node `id` is not banned. */
  function Wait(until: map<int, int>, id: int, e: int): nat {
    if id in until && until[id] >= e then until[id] - e + 1 else 0
  }

  lemma WaitEnough(nodes: seq<int>, until: map<int, int>, e: int, k: nat)
    requires nodes != [] && k >= Wait(until, nodes[0], e)
    ensures Leaders(nodes, until, e + k) != []
  {
    LeadersIn(nodes, until, e + k, nodes[0]);
  }

  lemma StillNone(nodes: seq<int>, until: map<int, int>, e: int, k: nat)
    requires nodes != [] && Leaders(nodes, Lower(until, k), e) == []
    ensures k < Wait(until, nodes[0], e) && NoneAfter(nodes, until, e, k)
  {
    SkippingEpochs(nodes, until, k, e);
    if k >= Wait(until, nodes[0], e) {
      WaitEnough(nodes, until, e, k);
    }
  }

  lemma LowerTwice(until: map<int, int>, k: int)
    ensures Lower(Lower(until, k), 1) == Lower(until, k + 1)
  {
  }

  /** `after` is `banned` with all bans shortened by the least `k` that leaves a leader in epoch `e`. */
  ghost predicate Shortened(nodes: seq<int>, banned: map<int, int>, after: map<int, int>, e: int, k: nat) {
    && after == Lower(banned, k) && Leaders(nodes, after, e) != []
    && forall j :: 0 <= j < k ==> NoneAfter(nodes, banned, e, j)
  }

  predicate NoneAfter(nodes: seq<int>, until: map<int, int>, e: int, j: int) {
    Leaders(nodes, until, e + j) == []
  }

  ghost predicate CanShorten(nodes: seq<int>, banned: map<int, int>, after: map<int, int>, e: int) {
    exists k: nat :: Shortened(nodes, banned, after, e, k)
  }

  /** The shortening is unique, and makes the leaders of each epoch those of `k` epochs later. */
  lemma ShortenedExactly(nodes: seq<int>, banned: map<int, int>, after: map<int, int>, e: int, k: nat, x: int)
    requires Shortened(nodes, banned, after, e, k)
    ensures Leaders(nodes, after, x) == Leaders(nodes, banned, x + k)
    ensures forall b, j: nat :: Shortened(nodes, banned, b, e, j) ==> j == k && b == after
  {
    SkippingEpochs(nodes, banned, k, x);
    forall b, j: nat | Shortened(nodes, banned, b, e, j)
      ensures j == k && b == after
    {
      assert j < k ==> NoneAfter(nodes, banned, e, j);
      assert k < j ==> NoneAfter(nodes, banned, e, k);
      SkippingEpochs(nodes, banned, k, e);
      SkippingEpochs(nodes, banned, j, e);
    }
  }

  class Backoff {
    const nodes: seq<int>
    const defaultBan: int
    /** The length of a node's last ban. */
    var ban: map<int, int>
    /** The last epoch for which a node is banned. */
    var until: map<int, int>

    constructor (nodes: seq<int>, defaultBan: int)
      ensures this.nodes == nodes && this.defaultBan == defaultBan && ban == map[] && until == map[]
    {
      this.nodes, this.defaultBan, ban, until := nodes, defaultBan, map[], map[];
    }

    /** The nodes that are not banned, or whose ban has ended before epoch `e`, in their order. */
    method GetLeaders(e: int) returns (leaders: seq<int>)
      ensures leaders == Leaders(nodes, until, e) && InOrder(leaders, nodes)
      ensures forall x :: x in leaders <==> x in nodes && (x !in until || until[x] < e)
    {
      LeadersAre(nodes, until, e);
      leaders := [];
      for i := 0 to |nodes|
        invariant leaders + Leaders(nodes[i..], until, e) == Leaders(nodes, until, e)
      {
        LeadersNext(nodes, until, e, i);
        var one := if nodes[i] !in until || until[nodes[i]] < e then [nodes[i]] else [];
        ConcatAssoc(leaders, one, Leaders(nodes[i + 1..], until, e));
        leaders := leaders + one;
      }
    }

    /** Bans a suspect and makes sure that the next epoch has a leader. */
    method Update(e: int, suspect: int) returns (ghost k: nat)
      requires nodes != []
      modifies this
      ensures var length := if suspect in old(ban) then old(ban)[suspect] * 2 else defaultBan;
              && ban == old(ban)[suspect := length]
              && Shortened(nodes, old(until)[suspect := e + length], until, e + 1, k)
      ensures Leaders(nodes, until, e + 1) != []
    {
      var length := if suspect in ban then ban[suspect] * 2 else defaultBan;
      ban := ban[suspect := length];
      until := until[suspect := e + length];
      k := Shorten(e + 1);
    }

    /** Lowers all bans until epoch `e` has a leader. */
    method Shorten(e: int) returns (ghost k: nat)
      requires nodes != []
      modifies this`until
      ensures Shortened(nodes, old(until), until, e, k)
    {
      k := 0;
      assert Lower(until, 0) == until;
      var leaders := GetLeaders(e);
      while |leaders| == 0
        invariant until == Lower(old(until), k) && leaders == Leaders(nodes, until, e)
        invariant forall j :: 0 <= j < k ==> NoneAfter(nodes, old(until), e, j)
        invariant k <= Wait(old(until), nodes[0], e)
        decreases Wait(old(until), nodes[0], e) - k
      {
        StillNone(nodes, old(until), e, k);
        LowerAll();
        LowerTwice(old(until), k);
        k := k + 1;
        leaders := GetLeaders(e);
      }
    }

    method LowerAll()
      modifies this`until
      ensures until == Lower(old(until), 1)
    {
      var keys := until.Keys;
      while keys != {}
        invariant keys <= until.Keys && until.Keys == old(until).Keys
        invariant forall id :: id in until ==> until[id] == old(until)[id] - if id in keys then 0 else 1
        decreases keys
      {
        var id := Pick(keys);
        until := until[id := until[id] - 1];
        keys := keys - {id};
      }
      assert until.Keys == Lower(old(until), 1).Keys;
      assert forall id :: id in until ==> until[id] == Lower(old(until), 1)[id];
    }
  }

  // ---------- Every epoch has a leader ----------

  /** What the manager does with the policy: report a suspect in the current epoch, or start the next epoch. */
  datatype Event = Suspect(id: int) | NextEpoch

  datatype Policy = Policy(epoch: int, ban: map<int, int>, until: map<int, int>)

  ghost predicate Step(nodes: seq<int>, defaultBan: int, p: Policy, ev: Event, q: Policy) {
    match ev
    case NextEpoch => q == p.(epoch := p.epoch + 1)
    case Suspect(id) =>
      var length := if id in p.ban then p.ban[id] * 2 else defaultBan;
      && q.epoch == p.epoch && q.ban == p.ban[id := length]
      && CanShorten(nodes, p.until[id := p.epoch + length], q.until, p.epoch + 1)
  }

  ghost predicate Run(nodes: seq<int>, defaultBan: int, ps: seq<Policy>, evs: seq<Event>) {
    && |ps| == |evs| + 1
    && if evs == [] then ps[0] == Policy(0, map[], map[])
       else var n := |evs| - 1;
         Run(nodes, defaultBan, ps[..n + 1], evs[..n]) && Step(nodes, defaultBan, ps[n], evs[n], ps[n + 1])
  }

  /** The first epoch has a leader, and at any time of any run the current epoch's successor would have one, so every
      epoch starts with a leader. */
  lemma {:induction false} AlwaysALeader(nodes: seq<int>, defaultBan: int, ps: seq<Policy>, evs: seq<Event>)
    requires nodes != [] && Run(nodes, defaultBan, ps, evs)
    ensures var p := ps[|evs|]; Leaders(nodes, p.until, p.epoch + 1) != []
    ensures evs == [] ==> Leaders(nodes, ps[0].until, 0) != []
    ensures evs != [] && evs[|evs| - 1].NextEpoch? ==> var p := ps[|evs|]; Leaders(nodes, p.until, p.epoch) != []
  {
    if evs == [] {
      assert Eligible(ps[0].until, nodes[0], 1) && Eligible(ps[0].until, nodes[0], 0);
      LeadersIn(nodes, ps[0].until, 0, nodes[0]);
      LeadersIn(nodes, ps[0].until, 1, nodes[0]);
    } else {
      var n := |evs| - 1;
      AlwaysALeader(nodes, defaultBan, ps[..n + 1], evs[..n]);
      assert ps[..n + 1][n] == ps[n];
      if evs[n].NextEpoch? {
        LeadersStay(nodes, ps[n].until, ps[n].epoch + 1, ps[n].epoch + 2);
      }
    }
  }

  // ---------- Blacklist ----------

  function LastOf(s: seq<int>, f: nat): seq<int> {
    if |s| > f then s[|s| - f..] else s
  }

  /** `x` is one of the last `f` entries of `s`. */
  ghost predicate AmongLast(s: seq<int>, f: nat, x: int) {
    exists i :: 0 <= i < |s| && |s| - f <= i && s[i] == x
  }

  lemma LastOfIs(s: seq<int>, f: nat, x: int)
    ensures x in LastOf(s, f) <==> AmongLast(s, f, x)
  {
    if AmongLast(s, f, x) {
      var i :| 0 <= i < |s| && |s| - f <= i && s[i] == x;
      assert LastOf(s, f)[i - (|s| - |LastOf(s, f)|)] == x;
    }
  }

  lemma LastOfNext(s: seq<int>, x: int, f: nat)
    ensures LastOf(s + [x], f) == LastOf(LastOf(s, f) + [x], f)
  {
  }

  function Outside(nodes: seq<int>, banned: set<int>): seq<int> {
    if nodes == [] then [] else (if nodes[0] in banned then [] else [nodes[0]]) + Outside(nodes[1..], banned)
  }

  function Elements(s: seq<int>): set<int> {
    set x | x in s
  }

  /** A list of banned nodes excludes no more nodes than it has entries. */
  lemma {:induction false} FewExcluded(nodes: seq<int>, banned: set<int>)
    requires Distinct(nodes)
    ensures |Outside(nodes, banned)| >= |nodes| - |banned|
    ensures forall x :: x in Outside(nodes, banned) <==> x in nodes && x !in banned
  {
    if nodes != [] {
      var rest := nodes[1..];
      if nodes[0] in banned {
        FewExcluded(rest, banned - {nodes[0]});
        SameOutside(rest, banned, nodes[0]);
        assert |banned - {nodes[0]}| == |banned| - 1;
      } else {
        FewExcluded(rest, banned);
      }
    }
  }

  lemma {:induction false} SameOutside(nodes: seq<int>, banned: set<int>, x: int)
    requires x !in nodes
    ensures Outside(nodes, banned - {x}) == Outside(nodes, banned)
  {
    if nodes != [] {
      SameOutside(nodes[1..], banned, x);
    }
  }

  lemma {:induction false} ElementsSize(s: seq<int>)
    ensures |Elements(s)| <= |s|
  {
    if s != [] {
      ElementsSize(s[1..]);
      assert Elements(s) == {s[0]} + Elements(s[1..]);
    }
  }

  class Blacklist {
    const nodes: seq<int>
    var bannedList: seq<int>
    var banned: set<int>
    /** All suspects reported so far. */
    ghost var history: seq<int>

    ghost predicate Valid()
      reads this
    {
      bannedList == LastOf(history, Quorums.Faults(|nodes|)) && banned == Elements(bannedList)
    }

    constructor (nodes: seq<int>)
      requires nodes != []
      ensures this.nodes == nodes && Valid() && history == []
    {
      this.nodes, bannedList, banned, history := nodes, [], {}, [];
    }

    /** Only the last `f` suspects stay banned. */
    method Update(suspect: int)
      requires Valid() && nodes != []
      modifies this
      ensures Valid() && history == old(history) + [suspect]
    {
      bannedList := bannedList + [suspect];
      var f := Quorums.Faults(|nodes|);
      if |bannedList| > f {
        bannedList := bannedList[|bannedList| - f..];
      }
      LastOfNext(history, suspect, f);
      history := history + [suspect];
      banned := SetOf(bannedList);
    }

    method SetOf(list: seq<int>) returns (s: set<int>)
      ensures s == Elements(list)
    {
      s := {};
      for i := 0 to |list|
        invariant s == Elements(list[..i])
      {
        assert list[..i + 1] == list[..i] + [list[i]];
        s := s + {list[i]};
      }
      assert list[..|list|] == list;
    }

    /** All nodes but the banned ones: at least `n - f`. */
    method GetLeaders() returns (leaders: seq<int>)
      requires Valid() && nodes != [] && Distinct(nodes)
      ensures forall x :: x in leaders <==> x in nodes && !AmongLast(history, Quorums.Faults(|nodes|), x)
      ensures |leaders| >= |nodes| - Quorums.Faults(|nodes|) >= 1
    {
      leaders := [];
      for i := 0 to |nodes|
        invariant leaders + Outside(nodes[i..], banned) == Outside(nodes, banned)
      {
        assert nodes[i..][1..] == nodes[i + 1..];
        if nodes[i] !in banned {
          leaders := leaders + [nodes[i]];
        }
      }
      FewExcluded(nodes, banned);
      ElementsSize(bannedList);
      forall x
        ensures x in banned <==> AmongLast(history, Quorums.Faults(|nodes|), x)
      {
        LastOfIs(history, Quorums.Faults(|nodes|), x);
      }
    }
  }

  // ---------- Combined ----------

  /** Lists the nodes that one of two policies selects, in no particular order. */
  method Combine(a: seq<int>, b: seq<int>) returns (leaders: seq<int>)
    ensures Distinct(leaders) && forall x :: x in leaders <==> x in a || x in b
  {
    var chosen: set<int> := {};
    for i := 0 to |a|
      invariant forall x :: x in chosen <==> x in a[..i]
    {
      chosen := chosen + {a[i]};
      assert a[..i + 1] == a[..i] + [a[i]];
    }
    assert a[..|a|] == a;
    for i := 0 to |b|
      invariant forall x :: x in chosen <==> x in a || x in b[..i]
    {
      chosen := chosen + {b[i]};
      assert b[..i + 1] == b[..i] + [b[i]];
    }
    assert b[..|b|] == b;
    leaders := [];
    var rest := chosen;
    while rest != {}
      invariant Distinct(leaders) && forall x :: x in leaders <==> x in chosen && x !in rest
      invariant rest <= chosen
      decreases rest
    {
      var x := Pick(rest);
      leaders := leaders + [x];
      rest := rest - {x};
    }
  }
}
