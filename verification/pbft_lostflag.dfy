/** A run in which a correct leader sends a NEWVIEW that correct peers turn down, because the empty batch of an
    abandoned slot has lost its aborted flag while the leader was waiting for the batch of another slot. */
module PbftLostFlag {
  import opened Arithmetic
  import opened Collections
  import opened Quorums
  import opened Voting
  import opened PbftPeer
  import opened PbftSafety
  import opened PbftNewView
  import opened PbftWork
  import opened PbftEquivocation
  import PbftProof

  /** The peers and slots of the run. Leader `p` abandons `sn` and misses the batch `d` of `other`, which the peers of
      `group` have preprepared and `x` has prepared. */
  datatype Cast = Cast(p: int, x: int, group: set<int>, sn: int, other: int, d: Digest)

  ghost predicate Casting(c: Config, k: Cast) {
    && c.Valid() && c.F() >= 1 && c.m.Correct(k.p) && c.m.Correct(k.x) && k.x in k.group
    && k.group <= c.m.peers - {k.p, c.Leader(0)} && |k.group| == 2 * c.F()
    && k.sn in c.sns && k.other in c.sns && k.sn != k.other && k.d != EMPTY
  }

  // ---------- What the peers have in their slots ----------

  /** The only slot that may be prepared is that of `other` in view 0 at `x`. */
  ghost predicate Sparse(k: Cast, r: int, slots: map<Loc, Slot>) {
    forall l :: l in slots && slots[l].prepared ==> r == k.x && l == Loc(0, k.other)
  }

  /** The slot at `l` holds a proposal with digest `d`, and no later slot holds any. */
  ghost predicate LastAt(slots: map<Loc, Slot>, l: Loc, d: Digest) {
    && l in slots && slots[l].pp.Some? && slots[l].pp.value.view == l.view && slots[l].digest == Some(d)
    && forall h :: h in slots && h.sn == l.sn && h.view > l.view ==> slots[h].pp.None?
  }

  /** What the peers' slots are like in the run: nothing has been decided. */
  ghost predicate Plays(k: Cast, r: int, slots: map<Loc, Slot>) {
    && Sparse(k, r, slots) && (forall l :: l in slots ==> !slots[l].committed)
    && (r in k.group ==> LastAt(slots, Loc(0, k.other), k.d))
    && (r == k.x ==> Loc(0, k.other) in slots && slots[Loc(0, k.other)].prepared)
  }

  /** `slots'` has further slots of later views, in which nothing has happened. */
  ghost predicate Later(view: nat, slots: map<Loc, Slot>, slots': map<Loc, Slot>) {
    && (forall l :: l in slots ==> l in slots' && slots'[l] == slots[l])
    && (forall l :: l in slots' && l !in slots ==> l.view > view && slots'[l] == FRESH)
  }

  lemma LaterPlays(k: Cast, r: int, view: nat, slots: map<Loc, Slot>, slots': map<Loc, Slot>)
    requires Plays(k, r, slots) && Later(view, slots, slots')
    ensures Plays(k, r, slots')
  {
  }

  lemma LaterLast(view: nat, slots: map<Loc, Slot>, slots': map<Loc, Slot>, l: Loc, d: Digest)
    requires LastAt(slots, l, d) && Later(view, slots, slots')
    ensures LastAt(slots', l, d)
  {
  }

  lemma {:induction false} LastFound(slots: map<Loc, Slot>, l: Loc, d: Digest, v: nat)
    requires LastAt(slots, l, d) && l.view < v
    ensures FindBatch(slots, l.sn, v) == Some(slots[l]) && LatestPreprepared(slots, l.sn, v) == Some(Entry(l.view, d))
  {
    if l.view < v - 1 {
      LastFound(slots, l, d, v - 1);
    } else {
      assert l == Loc(v - 1, l.sn);
    }
  }

  lemma {:induction false} NothingPrepared(k: Cast, r: int, slots: map<Loc, Slot>, sn: int, v: nat)
    requires Plays(k, r, slots) && (r != k.x || sn != k.other)
    ensures LatestPrepared(slots, sn, v).None?
  {
    if v > 0 {
      NothingPrepared(k, r, slots, sn, v - 1);
    }
  }

  lemma {:induction false} OnePrepared(k: Cast, slots: map<Loc, Slot>, v: nat)
    requires Plays(k, k.x, slots) && k.x in k.group && v > 0
    ensures LatestPrepared(slots, k.other, v) == Some(Entry(0, k.d))
  {
    if v > 1 {
      OnePrepared(k, slots, v - 1);
    }
  }

  /** What `r` reports when it changes to view `v`. */
  ghost predicate Reports(k: Cast, r: int, v: nat, vc: ViewChange) {
    && vc.view == v && vc.h == -1
    && vc.pset == (if r == k.x then map[k.other := Entry(0, k.d)] else map[])
    && (r in k.group ==> k.other in vc.qset && vc.qset[k.other] == Entry(0, k.d))
  }

  lemma ViewChangeReports(c: Config, k: Cast, ps: Peer)
    requires Casting(c, k) && Plays(k, ps.id, ps.slots) && ps.view > 0
    ensures Reports(k, ps.id, ps.view, MakeViewChange(c, ps))
  {
    var vc := MakeViewChange(c, ps);
    forall sn | sn in c.sns
      ensures LatestPrepared(ps.slots, sn, ps.view) ==
              if ps.id == k.x && sn == k.other then Some(Entry(0, k.d)) else None
    {
      if ps.id == k.x && sn == k.other {
        OnePrepared(k, ps.slots, ps.view);
      } else {
        NothingPrepared(k, ps.id, ps.slots, sn, ps.view);
      }
    }
    if ps.id in k.group {
      LastFound(ps.slots, Loc(0, k.other), k.d, ps.view);
    }
  }

  // ---------- Leaving views ----------

  /** No view ahead of the current one is known of. */
  ghost predicate NothingAhead(ps: Peer) {
    forall u :: u in ps.changes ==> u <= ps.view
  }

  /** Nothing has happened in view `v`. */
  ghost predicate Blank(slots: map<Loc, Slot>, v: nat) {
    forall l :: l in slots && l.view == v ==> slots[l] == FRESH
  }

  /** What a leader that arrives in its view knows: its own report. */
  function Alone(r: int, vc: ViewChange): Info {
    Info(map[r := vc], false, false, map[])
  }

  /** Peer `r` has come to view `v` by timeouts and sent `vc`. */
  ghost predicate Came(c: Config, k: Cast, ps: Peer, ps': Peer, r: int, v: nat, vc: ViewChange)
    requires |c.leaders| > 0
  {
    && ps'.id == r && ps'.view == v && ps'.inViewChange && NothingAhead(ps') && Later(ps.view, ps.slots, ps'.slots)
    && Reports(k, r, v, vc) && !InfoFor(ps', v).accepted && Blank(ps'.slots, v)
    && (c.Leader(v) == r ==> v in ps'.changes && ps'.changes[v] == Alone(r, vc))
  }

  lemma Timeout(c: Config, ps: Peer) returns (ps': Peer)
    requires Shape(c, ps) && NothingAhead(ps) && forall l :: l in ps.slots ==> !ps.slots[l].committed
    ensures SendViewChange(c, ps) == Outcome(ps', {ViewChangeMsg(ps.id, MakeViewChange(c, ps'))})
    ensures ps'.id == ps.id && ps'.view == ps.view + 1 && ps'.inViewChange && Later(ps.view, ps.slots, ps'.slots)
    ensures NothingAhead(ps') && !InfoFor(ps', ps'.view).accepted && Blank(ps'.slots, ps'.view)
    ensures c.Leader(ps'.view) == ps.id ==>
              ps'.view in ps'.changes && ps'.changes[ps'.view] == Alone(ps.id, MakeViewChange(c, ps'))
  {
    var ps1 := Entered(c, ps, Following(ps.view));
    ps' := SendViewChange(c, ps).peer;
    assert ps'.slots == ps1.slots && ps'.view == ps1.view;
    assert MakeViewChange(c, ps') == MakeViewChange(c, ps1);
  }

  lemma TimeoutCame(c: Config, k: Cast, ps: Peer) returns (ps': Peer, vc: ViewChange)
    requires Casting(c, k) && Shape(c, ps) && Plays(k, ps.id, ps.slots) && NothingAhead(ps)
    ensures SendViewChange(c, ps) == Outcome(ps', {ViewChangeMsg(ps.id, vc)})
    ensures Came(c, k, ps, ps', ps.id, ps.view + 1, vc)
  {
    ps' := Timeout(c, ps);
    LaterPlays(k, ps.id, ps.view, ps.slots, ps'.slots);
    ViewChangeReports(c, k, ps');
    vc := MakeViewChange(c, ps');
  }

  lemma ActTimeout(c: Config, run: seq<System>, r: int, ps': Peer, m: Msg) returns (longer: seq<System>)
    requires PbftProof.Run(c, run) && r in Last(run).peers && Runnable(c, Last(run).peers[r])
    requires SendViewChange(c, Last(run).peers[r]) == Outcome(ps', {m})
    ensures PbftProof.Run(c, longer) && OnlyPeer(Last(run), Last(longer), r)
    ensures Last(longer).peers[r] == ps' && m in Last(longer).net
  {
    longer := Act(c, run, DoTimeout(r));
  }

  lemma Leave(c: Config, k: Cast, run: seq<System>, r: int) returns (longer: seq<System>, vc: ViewChange)
    requires Casting(c, k) && PbftProof.Run(c, run) && c.m.Correct(r) && r in Last(run).peers
    requires var ps := Last(run).peers[r]; ps.id == r && Plays(k, r, ps.slots) && NothingAhead(ps)
    ensures PbftProof.Run(c, longer) && OnlyPeer(Last(run), Last(longer), r) && ViewChangeMsg(r, vc) in Last(longer).net
    ensures var ps := Last(run).peers[r]; Came(c, k, ps, Last(longer).peers[r], r, ps.view + 1, vc)
  {
    PbftProof.ReachableRunnable(c, run, |run| - 1, r);
    var ps';
    ps', vc := TimeoutCame(c, k, Last(run).peers[r]);
    longer := ActTimeout(c, run, r, ps', ViewChangeMsg(r, vc));
  }

  lemma LaterTwice(v: nat, w: nat, a: map<Loc, Slot>, b: map<Loc, Slot>, d: map<Loc, Slot>)
    requires Later(v, a, b) && Later(w, b, d) && v <= w
    ensures Later(v, a, d)
  {
  }

  /** A peer leaves views until it is in view `v`. */
  lemma {:induction false} Reach(c: Config, k: Cast, run: seq<System>, r: int, v: nat)
    returns (longer: seq<System>, vc: ViewChange)
    requires Casting(c, k) && PbftProof.Run(c, run) && c.m.Correct(r) && r in Last(run).peers
    requires var ps := Last(run).peers[r]; ps.id == r && Plays(k, r, ps.slots) && NothingAhead(ps) && ps.view < v
    ensures PbftProof.Run(c, longer) && OnlyPeer(Last(run), Last(longer), r) && ViewChangeMsg(r, vc) in Last(longer).net
    ensures Came(c, k, Last(run).peers[r], Last(longer).peers[r], r, v, vc)
    decreases v
  {
    var ps := Last(run).peers[r];
    if ps.view + 1 == v {
      longer, vc := Leave(c, k, run, r);
    } else {
      var mid, early := Reach(c, k, run, r, v - 1);
      var ps1 := Last(mid).peers[r];
      LaterPlays(k, r, ps.view, ps.slots, ps1.slots);
      longer, vc := Leave(c, k, mid, r);
      CameTwice(c, k, ps, ps1, Last(longer).peers[r], r, v, vc);
    }
  }

  lemma CameTwice(c: Config, k: Cast, ps: Peer, ps1: Peer, ps2: Peer, r: int, v: nat, vc: ViewChange)
    requires |c.leaders| > 0 && Later(ps.view, ps.slots, ps1.slots) && ps.view <= ps1.view
    requires Came(c, k, ps1, ps2, r, v, vc)
    ensures Came(c, k, ps, ps2, r, v, vc)
  {
    LaterTwice(ps.view, ps1.view, ps.slots, ps1.slots, ps2.slots);
  }

  /** Peer `r` is before view `v` and plays its part. */
  ghost predicate Before(k: Cast, s: System, r: int, v: nat) {
    && r in s.peers && s.peers[r].id == r && s.peers[r].view < v
    && Plays(k, r, s.peers[r].slots) && NothingAhead(s.peers[r])
  }

  /** Peer `r` is in view `v` and plays its part. */
  ghost predicate At(k: Cast, s: System, r: int, v: nat) {
    && r in s.peers && s.peers[r].id == r && s.peers[r].view == v && s.peers[r].inViewChange
    && !InfoFor(s.peers[r], v).accepted && Blank(s.peers[r].slots, v)
    && Plays(k, r, s.peers[r].slots) && NothingAhead(s.peers[r])
  }

  /** The reports of `vcs` for view `v` have been sent. */
  ghost predicate Reported(k: Cast, net: set<Msg>, v: nat, vcs: map<int, ViewChange>) {
    forall r :: r in vcs ==> ViewChangeMsg(r, vcs[r]) in net && Reports(k, r, v, vcs[r])
  }

  /** The peers of `rs`, and no others, have come to view `v`. */
  ghost predicate AllCame(c: Config, k: Cast, s: System, s': System, rs: set<int>, v: nat, vcs: map<int, ViewChange>)
    requires |c.leaders| > 0
  {
    && vcs.Keys == rs && Reported(k, s'.net, v, vcs)
    && s.net <= s'.net && s'.peers.Keys == s.peers.Keys
    && (forall r :: r in s.peers && r !in rs ==> s'.peers[r] == s.peers[r])
    && forall r :: r in vcs && r in s.peers ==> Came(c, k, s.peers[r], s'.peers[r], r, v, vcs[r])
  }

  lemma OneMore(c: Config, k: Cast, s: System, s1: System, s2: System, rs: set<int>, r: int, v: nat,
                vcs: map<int, ViewChange>, vc: ViewChange)
    requires |c.leaders| > 0 && AllCame(c, k, s, s1, rs, v, vcs) && r !in rs && r in s.peers
    requires OnlyPeer(s1, s2, r) && ViewChangeMsg(r, vc) in s2.net && Came(c, k, s1.peers[r], s2.peers[r], r, v, vc)
    ensures AllCame(c, k, s, s2, rs + {r}, v, vcs[r := vc])
  {
  }

  lemma {:induction false} AllReach(c: Config, k: Cast, run: seq<System>, rs: set<int>, v: nat)
    returns (longer: seq<System>, vcs: map<int, ViewChange>)
    requires Casting(c, k) && PbftProof.Run(c, run) && forall r :: r in rs ==>
               c.m.Correct(r) && Before(k, Last(run), r, v)
    ensures PbftProof.Run(c, longer) && AllCame(c, k, Last(run), Last(longer), rs, v, vcs)
    decreases |rs|
  {
    if rs == {} {
      longer, vcs := run, map[];
    } else {
      var r := Member(rs);
      var rest, vcs1 := AllReach(c, k, run, rs - {r}, v);
      assert Before(k, Last(run), r, v);
      var vc: ViewChange;
      longer, vc := Reach(c, k, rest, r, v);
      vcs := vcs1[r := vc];
      OneMore(c, k, Last(run), Last(rest), Last(longer), rs - {r}, r, v, vcs1, vc);
      assert rs - {r} + {r} == rs;
    }
  }

  // ---------- Collecting reports ----------

  /** The leader has recorded the reports of `rs` for its view. */
  ghost function Collected(ps: Peer, vcs: map<int, ViewChange>, rs: set<int>): Peer
    requires ps.view in ps.changes
  {
    var info := ps.changes[ps.view];
    ps.(changes := ps.changes[ps.view := info.(s := info.s + From(vcs, rs))])
  }

  lemma CollectedOne(ps: Peer, vcs: map<int, ViewChange>, rs: set<int>, q: int)
    requires ps.view in ps.changes && !ps.changes[ps.view].enough && q in vcs && q !in rs && q !in ps.changes[ps.view].s
    requires vcs[q].view == ps.view
    ensures OnViewChange(Collected(ps, vcs, rs), q, vcs[q]) == Outcome(Collected(ps, vcs, rs + {q}), {})
  {
    var info := ps.changes[ps.view];
    var ps1 := Collected(ps, vcs, rs);
    assert ps1.changes[ps.view] == info.(s := info.s + From(vcs, rs));
    assert (info.s + From(vcs, rs))[q := vcs[q]] == info.s + From(vcs, rs + {q});
    assert ps1.changes[ps.view := info.(s := info.s + From(vcs, rs + {q}))] ==
           ps.changes[ps.view := info.(s := info.s + From(vcs, rs + {q}))];
  }

  lemma CollectedNone(ps: Peer, vcs: map<int, ViewChange>)
    requires ps.view in ps.changes
    ensures Collected(ps, vcs, {}) == ps
  {
    var info := ps.changes[ps.view];
    assert From(vcs, {}) == map[] && info.s + From(vcs, {}) == info.s;
    assert info.(s := info.s + From(vcs, {})) == info;
    assert ps.changes[ps.view := info] == ps.changes;
  }

  lemma {:induction false} CollectAll(c: Config, run: seq<System>, p: int, vcs: map<int, ViewChange>, rs: set<int>)
    returns (longer: seq<System>)
    requires PbftProof.Run(c, run) && c.m.Correct(p) && p in Last(run).peers && rs <= vcs.Keys
    requires var ps := Last(run).peers[p];
             && ps.view in ps.changes && !ps.changes[ps.view].enough && rs !! ps.changes[ps.view].s.Keys
             && forall q :: q in rs ==> ViewChangeMsg(q, vcs[q]) in Last(run).net && vcs[q].view == ps.view
    ensures PbftProof.Run(c, longer)
    ensures Last(longer) == System(Last(run).peers[p := Collected(Last(run).peers[p], vcs, rs)], Last(run).net)
    decreases |rs|
  {
    var s, ps := Last(run), Last(run).peers[p];
    if rs == {} {
      longer := run;
      CollectedNone(ps, vcs);
    } else {
      var q := Member(rs);
      var rest := CollectAll(c, run, p, vcs, rs - {q});
      CollectedOne(ps, vcs, rs - {q}, q);
      assert rs - {q} + {q} == rs;
      longer := ActViewChange(c, rest, p, q, vcs[q], Collected(ps, vcs, rs));
      Overwritten(s.peers, p, Collected(ps, vcs, rs - {q}), Collected(ps, vcs, rs));
    }
  }

  lemma Overwritten(peers: map<int, Peer>, p: int, ps1: Peer, ps2: Peer)
    ensures peers[p := ps1][p := ps2] == peers[p := ps2]
  {
  }

  lemma ActViewChange(c: Config, run: seq<System>, p: int, q: int, vc: ViewChange, ps': Peer)
    returns (longer: seq<System>)
    requires PbftProof.Run(c, run) && c.m.Correct(p) && p in Last(run).peers && ViewChangeMsg(q, vc) in Last(run).net
    requires OnViewChange(Last(run).peers[p], q, vc) == Outcome(ps', {})
    ensures PbftProof.Run(c, longer) && Last(longer) == System(Last(run).peers[p := ps'], Last(run).net)
  {
    PbftProof.ReachableRunnable(c, run, |run| - 1, p);
    longer := Act(c, run, DoViewChange(p, q, vc));
    assert Last(run).net + {} == Last(run).net;
  }

  // ---------- What the reports allow ----------

  /** The leader has its own report and those of the peers in `rs`. */
  ghost predicate Quorate(c: Config, k: Cast, v: nat, rs: set<int>, vset: map<int, ViewChange>) {
    && vset.Keys == rs + {k.p} && k.p !in rs && |rs| == 2 * c.F()
    && forall r :: r in vset ==> Reports(k, r, v, vset[r])
  }

  lemma QuorateSize(c: Config, k: Cast, v: nat, rs: set<int>, vset: map<int, ViewChange>)
    requires Quorate(c, k, v, rs, vset)
    ensures |vset| == 2 * c.F() + 1
  {
    assert |vset| == |vset.Keys| == |rs + {k.p}|;
  }

  lemma AbortAllowed(c: Config, k: Cast, v: nat, rs: set<int>, vset: map<int, ViewChange>, sn: int)
    requires c.Valid() && Quorate(c, k, v, rs, vset) && sn in c.sns && (sn != k.other || (k.x !in rs && k.x != k.p))
    ensures Allowed(c.F(), vset, sn, Abort)
  {
    QuorateSize(c, k, v, rs, vset);
    forall r | r in vset
      ensures r in UnpreparedAt(vset, sn)
    {
      assert Reports(k, r, v, vset[r]);
    }
    assert UnpreparedAt(vset, sn) == vset.Keys;
  }

  lemma ReuseAllowed(c: Config, k: Cast, v: nat, vset: map<int, ViewChange>)
    requires Casting(c, k) && Quorate(c, k, v, k.group, vset)
    ensures Allowed(c.F(), vset, k.other, Reuse(Entry(0, k.d)))
  {
    var e := Entry(0, k.d);
    QuorateSize(c, k, v, k.group, vset);
    forall r | r in vset
      ensures r in ConsistentAt(vset, k.other, e) && (r in k.group ==> r in SupportingAt(vset, k.other, e))
    {
      assert Reports(k, r, v, vset[r]);
    }
    assert ConsistentAt(vset, k.other, e) == vset.Keys;
    SubsetSize(k.group, SupportingAt(vset, k.other, e));
    assert k.x in vset && k.other in vset[k.x].pset && vset[k.x].pset[k.other] == e;
  }

  // ---------- The leader's two turns ----------

  /** The leader is in its view `v` and has the reports of `rs`. */
  ghost predicate InTurn(c: Config, k: Cast, ps: Peer, v: nat, rs: set<int>) {
    && Shape(c, ps) && ps.id == k.p && ps.view == v > 0 && ps.inViewChange && c.Leader(v) == k.p && NothingAhead(ps)
    && v in ps.changes && !ps.changes[v].enough && !ps.changes[v].accepted && Quorate(c, k, v, rs, ps.changes[v].s)
    && Plays(k, k.p, ps.slots)
  }

  /** All slots are abandoned. */
  ghost function AbortAll(c: Config): map<int, Choice> {
    map sn | sn in c.sns :: Abort
  }

  lemma FirstTurnBuilds(c: Config, k: Cast, ps: Peer, v: nat, rs: set<int>) returns (ps1: Peer)
    requires Casting(c, k) && InTurn(c, k, ps, v, rs) && k.x !in rs
    ensures CanBuild(c, ps, v, AbortAll(c)) && BuildNewView(c, ps, v, AbortAll(c)) == Outcome(ps1, {})
    ensures CanAnnounce(c, ps1) && ps1.id == ps.id && ps1.view == v && ps1.slots == ps.slots && NothingAhead(ps1)
    ensures forall sn :: sn in c.sns ==> ps1.changes[v].repropose[sn] == Repropose(ps, v, sn, Abort)
  {
    QuorateSize(c, k, v, rs, ps.changes[v].s);
    forall sn | sn in c.sns
      ensures Allowed(c.F(), ps.changes[v].s, sn, Abort)
    {
      AbortAllowed(c, k, v, rs, ps.changes[v].s, sn);
    }
    ps1 := BuildNewView(c, ps, v, AbortAll(c)).peer;
  }

  /** After the first turn the leader's last proposal for every slot is the empty batch. */
  lemma FirstTurnSends(c: Config, k: Cast, ps: Peer, ps1: Peer, v: nat) returns (o: Outcome)
    requires Casting(c, k) && CanAnnounce(c, ps1) && ps1.view == v && NothingAhead(ps1) && Plays(k, k.p, ps1.slots)
    requires forall sn :: sn in c.sns ==> ps1.changes[v].repropose[sn] == Repropose(ps, v, sn, Abort)
    ensures o == SendNewView(c, ps1)
    ensures var ps2 := o.peer;
            && ps2.id == ps1.id && ps2.view == v && NothingAhead(ps2) && Plays(k, k.p, ps2.slots)
            && LastAt(ps2.slots, Loc(v, k.other), EMPTY)
  {
    o := SendNewView(c, ps1);
    var ps2 := o.peer;
    assert ps1.Here(k.other) in ps2.slots;
    assert ps2.slots[Loc(v, k.other)] ==
           ReproposedSlot(ps1.slots[Loc(v, k.other)], Repropose(ps, v, k.other, Abort));
  }

  /** The slot `other` is proposed again, the others are abandoned. */
  ghost function ReuseOne(c: Config, k: Cast): map<int, Choice> {
    map sn | sn in c.sns :: if sn == k.other then Reuse(Entry(0, k.d)) else Abort
  }

  /** The leader waits for the batch of `other`, and for no other. */
  ghost predicate Waits(c: Config, k: Cast, ps: Peer, v: nat) {
    && Shape(c, ps) && ps.id == k.p && ps.view == v && ps.inViewChange && v in ps.changes
    && ps.changes[v].enough && !ps.changes[v].accepted && ps.changes[v].repropose.Keys == c.sns
    && Quorate(c, k, v, k.group, ps.changes[v].s)
    && k.other in c.sns && k.sn in c.sns
    && ps.changes[v].repropose[k.other].digest == k.d && ps.changes[v].repropose[k.sn].digest == EMPTY
    && forall sn :: sn in c.sns ==> (ps.changes[v].repropose[sn].pp.None? <==> sn == k.other)
  }

  lemma SecondTurnBuilds(c: Config, k: Cast, ps: Peer, v: nat, w: nat) returns (ps1: Peer)
    requires Casting(c, k) && InTurn(c, k, ps, v, k.group) && w < v && LastAt(ps.slots, Loc(w, k.other), EMPTY)
    ensures CanBuild(c, ps, v, ReuseOne(c, k)) && BuildNewView(c, ps, v, ReuseOne(c, k)) == Outcome(ps1, {})
    ensures Waits(c, k, ps1, v)
  {
    QuorateSize(c, k, v, k.group, ps.changes[v].s);
    forall sn | sn in c.sns
      ensures Allowed(c.F(), ps.changes[v].s, sn, ReuseOne(c, k)[sn])
    {
      if sn == k.other {
        ReuseAllowed(c, k, v, ps.changes[v].s);
      } else {
        AbortAllowed(c, k, v, k.group, ps.changes[v].s, sn);
      }
    }
    LastFound(ps.slots, Loc(w, k.other), EMPTY, v);
    ps1 := BuildNewView(c, ps, v, ReuseOne(c, k)).peer;
    forall sn | sn in c.sns
      ensures ps1.changes[v].repropose[sn] == Repropose(ps, v, sn, ReuseOne(c, k)[sn])
    {
    }
  }

  /** The unflagged batch fits, and so does the awaited one. */
  lemma Fetches(c: Config, k: Cast, ps: Peer, v: nat) returns (ps1: Peer, ps2: Peer)
    requires Casting(c, k) && Waits(c, k, ps, v)
    ensures OnMissingPreprepare(ps, k.sn, Proposal(c, k.sn, EMPTY)) == Outcome(ps1, {})
    ensures OnMissingPreprepare(ps1, k.other, Proposal(c, k.other, k.d)) == Outcome(ps2, {})
    ensures CanAnnounce(c, ps2) && ps2.id == k.p && ps2.view == v && ps2.changes[v].s == ps.changes[v].s
    ensures ps2.changes[v].repropose[k.sn].pp == Some(Preprepare(k.sn, v, k.p, EMPTY, false))
  {
    assert Fits(ps, k.sn, Proposal(c, k.sn, EMPTY));
    ps1 := OnMissingPreprepare(ps, k.sn, Proposal(c, k.sn, EMPTY)).peer;
    assert ps1.changes[v].repropose[k.other] == ps.changes[v].repropose[k.other];
    assert Fits(ps1, k.other, Proposal(c, k.other, k.d));
    ps2 := OnMissingPreprepare(ps1, k.other, Proposal(c, k.other, k.d)).peer;
  }

  /** The NEWVIEW that is then sent has lost the flag. */
  lemma SendsUnflagged(c: Config, k: Cast, ps: Peer, v: nat) returns (nv: NewView)
    requires Casting(c, k) && CanAnnounce(c, ps) && ps.id == k.p && ps.view == v
    requires Quorate(c, k, v, k.group, ps.changes[v].s)
    requires ps.changes[v].repropose[k.sn].pp == Some(Preprepare(k.sn, v, k.p, EMPTY, false))
    ensures NewViewMsg(k.p, nv) in SendNewView(c, ps).sent
    ensures |nv.vset| == 2 * c.F() + 1 && Unflagged(c.F(), nv, k.sn)
  {
    var info := ps.changes[v];
    nv := NewView(v, info.s, map sn | sn in c.sns :: info.repropose[sn].pp.value, -1);
    QuorateSize(c, k, v, k.group, info.s);
    AbortAllowed(c, k, v, k.group, info.s, k.sn);
  }

  // ---------- Everyone changes views ----------

  /** What faulty peers report. */
  function FaultyReport(k: Cast, v: nat): ViewChange {
    ViewChange(v, -1, [-1], map[], map[k.other := Entry(0, k.d)])
  }

  /** All correct peers are before view `v`, and the faulty ones have reported for it. */
  ghost predicate Staged(c: Config, k: Cast, s: System, v: nat) {
    && Populated(c, s) && (forall r :: r in s.peers ==> Before(k, s, r, v))
    && forall r :: r in c.m.faulty ==> ViewChangeMsg(r, FaultyReport(k, v)) in s.net
  }

  /** All correct peers have come to view `v`, and its leader has the reports of `rs`. */
  ghost predicate Gathered(c: Config, k: Cast, s: System, s': System, v: nat, rs: set<int>) {
    && s.net <= s'.net && s'.peers.Keys == s.peers.Keys
    && (forall r :: r in s'.peers ==> At(k, s', r, v))
    && k.p in s.peers && InTurn(c, k, s'.peers[k.p], v, rs)
    && Later(s.peers[k.p].view, s.peers[k.p].slots, s'.peers[k.p].slots)
  }

  /** The reports of all peers. */
  lemma AllReports(c: Config, k: Cast, net: set<Msg>, v: nat, vcs: map<int, ViewChange>)
    returns (all: map<int, ViewChange>)
    requires Casting(c, k) && vcs.Keys == c.m.peers - c.m.faulty && Reported(k, net, v, vcs)
    requires forall r :: r in c.m.faulty ==> ViewChangeMsg(r, FaultyReport(k, v)) in net
    ensures all.Keys == c.m.peers && Reported(k, net, v, all) && k.p in vcs && all[k.p] == vcs[k.p]
  {
    all := map r | r in c.m.peers :: if r in vcs then vcs[r] else FaultyReport(k, v);
    assert c.m.Correct(k.p);
  }

  lemma HasCome(c: Config, k: Cast, s: System, s': System, v: nat, vcs: map<int, ViewChange>, r: int)
    requires Casting(c, k) && Staged(c, k, s, v) && AllCame(c, k, s, s', s.peers.Keys, v, vcs) && r in s'.peers
    ensures At(k, s', r, v)
  {
    assert Before(k, s, r, v) && Came(c, k, s.peers[r], s'.peers[r], r, v, vcs[r]);
    LaterPlays(k, r, s.peers[r].view, s.peers[r].slots, s'.peers[r].slots);
  }

  /** The leader has come to its view `v`, and the reports of `vcs` are under way. */
  ghost predicate Expecting(c: Config, k: Cast, net: set<Msg>, ps: Peer, v: nat, vcs: map<int, ViewChange>,
                            rs: set<int>)
    requires |c.leaders| > 0
  {
    && Shape(c, ps) && ps.id == k.p && ps.view == v > 0 && ps.inViewChange && c.Leader(v) == k.p
    && NothingAhead(ps) && Plays(k, k.p, ps.slots) && Reported(k, net, v, vcs) && rs + {k.p} <= vcs.Keys
    && v in ps.changes && ps.changes[v] == Alone(k.p, vcs[k.p]) && k.p !in rs && |rs| == 2 * c.F()
  }

  /** The leader's state when it has the reports. */
  lemma LeaderGathers(c: Config, k: Cast, net: set<Msg>, ps: Peer, v: nat, vcs: map<int, ViewChange>, rs: set<int>)
    requires Casting(c, k) && Expecting(c, k, net, ps, v, vcs, rs)
    ensures InTurn(c, k, Collected(ps, vcs, rs), v, rs)
  {
    OwnAndOthers(c, k, net, v, vcs, rs);
    assert Collected(ps, vcs, rs).changes[v].s == Alone(k.p, vcs[k.p]).s + From(vcs, rs);
  }

  lemma OwnAndOthers(c: Config, k: Cast, net: set<Msg>, v: nat, vcs: map<int, ViewChange>, rs: set<int>)
    requires Reported(k, net, v, vcs) && rs + {k.p} <= vcs.Keys && k.p !in rs && |rs| == 2 * c.F()
    ensures Quorate(c, k, v, rs, Alone(k.p, vcs[k.p]).s + From(vcs, rs))
  {
    var vset := Alone(k.p, vcs[k.p]).s + From(vcs, rs);
    assert vset.Keys == rs + {k.p};
    forall r | r in vset
      ensures Reports(k, r, v, vset[r])
    {
      assert vset[r] == vcs[r];
    }
  }

  lemma Gather(c: Config, k: Cast, run: seq<System>, v: nat, rs: set<int>) returns (longer: seq<System>)
    requires Casting(c, k) && PbftProof.Run(c, run) && Staged(c, k, Last(run), v) && c.Leader(v) == k.p
    requires rs <= c.m.peers - {k.p} && |rs| == 2 * c.F()
    ensures PbftProof.Run(c, longer) && Gathered(c, k, Last(run), Last(longer), v, rs)
  {
    var s := Last(run);
    var mid, vcs := AllReach(c, k, run, s.peers.Keys, v);
    PbftProof.ReachableRunnable(c, mid, |mid| - 1, k.p);
    var all := LeaderExpects(c, k, s, Last(mid), v, vcs, rs);
    longer := Receives(c, k, mid, v, all, rs);
    GatheredAll(c, k, s, Last(mid), Last(longer), v, vcs, all, rs);
  }

  lemma Receives(c: Config, k: Cast, run: seq<System>, v: nat, vcs: map<int, ViewChange>, rs: set<int>)
    returns (longer: seq<System>)
    requires Casting(c, k) && PbftProof.Run(c, run) && k.p in Last(run).peers
    requires Expecting(c, k, Last(run).net, Last(run).peers[k.p], v, vcs, rs)
    ensures PbftProof.Run(c, longer) && InTurn(c, k, Collected(Last(run).peers[k.p], vcs, rs), v, rs)
    ensures Last(longer) == System(Last(run).peers[k.p := Collected(Last(run).peers[k.p], vcs, rs)], Last(run).net)
  {
    LeaderGathers(c, k, Last(run).net, Last(run).peers[k.p], v, vcs, rs);
    longer := CollectAll(c, run, k.p, vcs, rs);
  }

  lemma StagedReports(c: Config, k: Cast, s: System, s': System, v: nat, vcs: map<int, ViewChange>)
    returns (all: map<int, ViewChange>)
    requires Casting(c, k) && Staged(c, k, s, v) && AllCame(c, k, s, s', s.peers.Keys, v, vcs)
    ensures all.Keys == c.m.peers && Reported(k, s'.net, v, all) && k.p in vcs && all[k.p] == vcs[k.p]
  {
    PeersAre(c, s);
    all := AllReports(c, k, s'.net, v, vcs);
  }

  lemma PeersAre(c: Config, s: System)
    requires Populated(c, s)
    ensures s.peers.Keys == c.m.peers - c.m.faulty
  {
    assert forall r :: r in s.peers.Keys <==> r in c.m.peers - c.m.faulty;
  }

  lemma LeaderCame(c: Config, k: Cast, s: System, s': System, v: nat, vcs: map<int, ViewChange>)
    requires Casting(c, k) && Staged(c, k, s, v) && AllCame(c, k, s, s', s.peers.Keys, v, vcs) && c.Leader(v) == k.p
    ensures k.p in s'.peers && k.p in vcs
    ensures var ps := s'.peers[k.p];
            && ps.id == k.p && ps.view == v > 0 && ps.inViewChange && NothingAhead(ps) && Plays(k, k.p, ps.slots)
            && v in ps.changes && ps.changes[v] == Alone(k.p, vcs[k.p])
  {
    assert Before(k, s, k.p, v) && Came(c, k, s.peers[k.p], s'.peers[k.p], k.p, v, vcs[k.p]);
    HasCome(c, k, s, s', v, vcs, k.p);
  }

  lemma LeaderExpects(c: Config, k: Cast, s: System, s': System, v: nat, vcs: map<int, ViewChange>, rs: set<int>)
    returns (all: map<int, ViewChange>)
    requires Casting(c, k) && Staged(c, k, s, v) && AllCame(c, k, s, s', s.peers.Keys, v, vcs) && c.Leader(v) == k.p
    requires k.p in s'.peers && Shape(c, s'.peers[k.p]) && rs <= c.m.peers - {k.p} && |rs| == 2 * c.F()
    ensures Expecting(c, k, s'.net, s'.peers[k.p], v, all, rs)
  {
    all := StagedReports(c, k, s, s', v, vcs);
    LeaderCame(c, k, s, s', v, vcs);
  }

  lemma CollectedAt(k: Cast, s: System, s': System, vcs: map<int, ViewChange>, rs: set<int>, r: int, v: nat)
    requires k.p in s.peers && s.peers[k.p].view in s.peers[k.p].changes && At(k, s, r, v)
    requires s' == System(s.peers[k.p := Collected(s.peers[k.p], vcs, rs)], s.net)
    ensures At(k, s', r, v)
  {
  }

  lemma AllAt(c: Config, k: Cast, s: System, s1: System, s2: System, v: nat, vcs: map<int, ViewChange>,
              all: map<int, ViewChange>, rs: set<int>)
    requires Casting(c, k) && Staged(c, k, s, v) && AllCame(c, k, s, s1, s.peers.Keys, v, vcs)
    requires k.p in s1.peers && s1.peers[k.p].view in s1.peers[k.p].changes
    requires s2 == System(s1.peers[k.p := Collected(s1.peers[k.p], all, rs)], s1.net)
    ensures forall r :: r in s2.peers ==> At(k, s2, r, v)
  {
    forall r | r in s2.peers
      ensures At(k, s2, r, v)
    {
      HasCome(c, k, s, s1, v, vcs, r);
      CollectedAt(k, s1, s2, all, rs, r, v);
    }
  }

  /** The leader has only left views and received reports. */
  lemma LeaderLater(c: Config, k: Cast, s: System, s1: System, v: nat, vcs: map<int, ViewChange>)
    requires Casting(c, k) && Staged(c, k, s, v) && AllCame(c, k, s, s1, s.peers.Keys, v, vcs)
    ensures s.net <= s1.net && s1.peers.Keys == s.peers.Keys
    ensures k.p in s.peers && Later(s.peers[k.p].view, s.peers[k.p].slots, s1.peers[k.p].slots)
  {
    assert c.m.Correct(k.p);
    assert Came(c, k, s.peers[k.p], s1.peers[k.p], k.p, v, vcs[k.p]);
  }

  lemma GatheredAll(c: Config, k: Cast, s: System, s1: System, s2: System, v: nat,
                    vcs: map<int, ViewChange>, all: map<int, ViewChange>, rs: set<int>)
    requires Casting(c, k) && Staged(c, k, s, v) && AllCame(c, k, s, s1, s.peers.Keys, v, vcs)
    requires k.p in s1.peers && s1.peers[k.p].view in s1.peers[k.p].changes
    requires s2 == System(s1.peers[k.p := Collected(s1.peers[k.p], all, rs)], s1.net)
    requires InTurn(c, k, s2.peers[k.p], v, rs)
    ensures Gathered(c, k, s, s2, v, rs)
  {
    AllAt(c, k, s, s1, s2, v, vcs, all, rs);
    LeaderLater(c, k, s, s1, v, vcs);
  }

  // ---------- The two turns ----------

  lemma ActBuild(c: Config, run: seq<System>, p: int, u: nat, choices: map<int, Choice>, ps': Peer)
    returns (longer: seq<System>)
    requires PbftProof.Run(c, run) && c.m.Correct(p) && p in Last(run).peers
    requires CanBuild(c, Last(run).peers[p], u, choices)
    requires BuildNewView(c, Last(run).peers[p], u, choices) == Outcome(ps', {})
    ensures PbftProof.Run(c, longer) && Last(longer) == System(Last(run).peers[p := ps'], Last(run).net)
  {
    PbftProof.ReachableRunnable(c, run, |run| - 1, p);
    longer := Act(c, run, DoBuild(p, u, choices));
    assert Last(run).net + {} == Last(run).net;
  }

  lemma ActMissing(c: Config, run: seq<System>, p: int, sender: int, sn: int, pp: Preprepare, ps': Peer)
    returns (longer: seq<System>)
    requires PbftProof.Run(c, run) && c.m.Correct(p) && p in Last(run).peers
    requires MissingPreprepareMsg(sender, sn, pp) in Last(run).net
    requires OnMissingPreprepare(Last(run).peers[p], sn, pp) == Outcome(ps', {})
    ensures PbftProof.Run(c, longer) && Last(longer) == System(Last(run).peers[p := ps'], Last(run).net)
  {
    PbftProof.ReachableRunnable(c, run, |run| - 1, p);
    longer := Act(c, run, DoMissing(p, sender, sn, pp));
    assert Last(run).net + {} == Last(run).net;
  }

  lemma ActSend(c: Config, run: seq<System>, p: int, o: Outcome) returns (longer: seq<System>)
    requires PbftProof.Run(c, run) && c.m.Correct(p) && p in Last(run).peers && CanAnnounce(c, Last(run).peers[p])
    requires o == SendNewView(c, Last(run).peers[p])
    ensures PbftProof.Run(c, longer) && Last(longer) == System(Last(run).peers[p := o.peer], Last(run).net + o.sent)
  {
    PbftProof.ReachableRunnable(c, run, |run| - 1, p);
    longer := Act(c, run, DoSendNewView(p));
  }

  lemma OnlyTwice(s: System, p: int, ps1: Peer, ps2: Peer, sent: set<Msg>)
    requires p in s.peers
    ensures OnlyPeer(s, System(s.peers[p := ps1][p := ps2], s.net + sent), p)
  {
  }

  /** The leader abandons all slots. */
  lemma FirstTurn(c: Config, k: Cast, run: seq<System>, v: nat, rs: set<int>) returns (longer: seq<System>)
    requires Casting(c, k) && PbftProof.Run(c, run) && k.p in Last(run).peers
    requires InTurn(c, k, Last(run).peers[k.p], v, rs)
    requires k.x !in rs
    ensures PbftProof.Run(c, longer) && OnlyPeer(Last(run), Last(longer), k.p)
    ensures var ps := Last(longer).peers[k.p];
            ps.id == k.p && ps.view == v && NothingAhead(ps) && Plays(k, k.p, ps.slots) &&
            LastAt(ps.slots, Loc(v, k.other), EMPTY)
  {
    var ps := Last(run).peers[k.p];
    var ps1 := FirstTurnBuilds(c, k, ps, v, rs);
    var mid := ActBuild(c, run, k.p, v, AbortAll(c), ps1);
    var o := FirstTurnSends(c, k, ps, ps1, v);
    longer := ActSend(c, mid, k.p, o);
    OnlyTwice(Last(run), k.p, ps1, o.peer, o.sent);
  }

  /** The leader awaits the batch of `other` and sends a NEWVIEW without the flag of `sn`. */
  lemma SecondTurn(c: Config, k: Cast, run: seq<System>, v: nat, w: nat) returns (longer: seq<System>, nv: NewView)
    requires Casting(c, k) && PbftProof.Run(c, run) && k.p in Last(run).peers
    requires InTurn(c, k, Last(run).peers[k.p], v, k.group) && w < v
    requires LastAt(Last(run).peers[k.p].slots, Loc(w, k.other), EMPTY)
    requires Answered(c, k, Last(run).net)
    ensures PbftProof.Run(c, longer) && NewViewMsg(k.p, nv) in Last(longer).net
    ensures |nv.vset| == 2 * c.F() + 1 && Unflagged(c.F(), nv, k.sn)
  {
    var ps1 := SecondTurnBuilds(c, k, Last(run).peers[k.p], v, w);
    var r1 := ActBuild(c, run, k.p, v, ReuseOne(c, k), ps1);
    var ps2, ps3 := Fetches(c, k, ps1, v);
    var r2 := ActMissing(c, r1, k.p, k.x, k.sn, Proposal(c, k.sn, EMPTY), ps2);
    var r3 := ActMissing(c, r2, k.p, k.x, k.other, Proposal(c, k.other, k.d), ps3);
    nv := SendsUnflagged(c, k, ps3, v);
    longer := ActSend(c, r3, k.p, SendNewView(c, ps3));
  }

  /** Peer `x` has answered requests for its proposals. */
  ghost predicate Answered(c: Config, k: Cast, net: set<Msg>)
    requires |c.leaders| > 0
  {
    && MissingPreprepareMsg(k.x, k.sn, Proposal(c, k.sn, EMPTY)) in net
    && MissingPreprepareMsg(k.x, k.other, Proposal(c, k.other, k.d)) in net
  }

  // ---------- The opening ----------

  /** Peer `r` works in view 0 and has heard nothing of other views. */
  ghost predicate AtWork(ps: Peer, r: int) {
    && ps.id == r && ps.view == 0 && !ps.inViewChange && ps.changes == map[]
    && forall l :: l in ps.slots ==> l.view == 0
  }

  ghost predicate Unprepared(ps: Peer) {
    forall l :: l in ps.slots ==> !ps.slots[l].prepared && !ps.slots[l].committed
  }

  /** What the faulty peers say: they prepare `d`, report it, and propose it if they lead. */
  ghost function Said(c: Config, k: Cast, v1: nat, v2: nat): set<Msg>
    requires |c.leaders| > 0
  {
    (set r | r in c.m.faulty :: PrepareMsg(r, k.other, 0, k.d))
    + (set r | r in c.m.faulty :: ViewChangeMsg(r, FaultyReport(k, v1)))
    + (set r | r in c.m.faulty :: ViewChangeMsg(r, FaultyReport(k, v2)))
    + if c.Leader(0) in c.m.faulty then Proposals(c, k) else {}
  }

  ghost function Proposals(c: Config, k: Cast): set<Msg>
    requires |c.leaders| > 0
  {
    {PreprepareMsg(c.Leader(0), Proposal(c, k.sn, EMPTY)), PreprepareMsg(c.Leader(0), Proposal(c, k.other, k.d))}
  }

  /** The leader of view 0 has proposed, and the other peers have not done anything yet. */
  ghost predicate Proposed(c: Config, k: Cast, s: System)
    requires |c.leaders| > 0
  {
    && Populated(c, s) && Proposals(c, k) <= s.net
    && (forall r :: r in s.peers ==> AtWork(s.peers[r], r) && Unprepared(s.peers[r]))
    && forall r :: r in s.peers && r != c.Leader(0) ==> Open(s, r, k.sn) && Open(s, r, k.other)
  }

  /** No peer has done anything yet. */
  ghost predicate Untouched(k: Cast, s: System) {
    forall r :: r in s.peers ==>
      AtWork(s.peers[r], r) && Unprepared(s.peers[r]) && Open(s, r, k.sn) && Open(s, r, k.other)
  }

  lemma StaysUntouched(k: Cast, s: System, s': System)
    requires Untouched(k, s) && s'.peers == s.peers
    ensures Untouched(k, s')
  {
  }

  lemma Beginning(c: Config, k: Cast) returns (s: System)
    requires Casting(c, k)
    ensures Start(c, s) && PbftProof.Run(c, [s]) && Untouched(k, s)
  {
    s := System(map r | r in c.m.peers - c.m.faulty :: InitPeer(c, r), {});
    InitialUntouched(c, k, s);
  }

  lemma InitialUntouched(c: Config, k: Cast, s: System)
    requires k.sn in c.sns && k.other in c.sns && forall r :: r in s.peers ==> s.peers[r] == InitPeer(c, r)
    ensures Untouched(k, s)
  {
    forall r | r in s.peers
      ensures AtWork(s.peers[r], r) && Unprepared(s.peers[r]) && Open(s, r, k.sn) && Open(s, r, k.other)
    {
      assert forall l :: l in InitPeer(c, r).slots ==> InitPeer(c, r).slots[l] == FRESH;
    }
  }

  lemma LeaderProposes(c: Config, k: Cast, run: seq<System>) returns (longer: seq<System>)
    requires Casting(c, k) && PbftProof.Run(c, run) && Populated(c, Last(run))
    requires c.Leader(0) in c.m.peers && (c.Leader(0) in c.m.faulty ==> Proposals(c, k) <= Last(run).net)
    requires Untouched(k, Last(run))
    ensures PbftProof.Run(c, longer) && Proposed(c, k, Last(longer)) && Last(run).net <= Last(longer).net
  {
    var p := c.Leader(0);
    if p in c.m.faulty {
      longer := run;
    } else {
      var mid := ActPropose(c, run, p, k.sn, EMPTY);
      longer := ActPropose(c, mid, p, k.other, k.d);
      BothProposed(c, k, Last(run), Last(mid), Last(longer));
    }
  }

  lemma BothProposed(c: Config, k: Cast, s: System, s1: System, s2: System)
    requires Casting(c, k) && Populated(c, s) && Untouched(k, s) && c.Leader(0) in s.peers
    requires OnlyPeer(s, s1, c.Leader(0)) && OnlyPeer(s1, s2, c.Leader(0)) && Proposals(c, k) <= s2.net
    requires var p := c.Leader(0);
             && OnlySlot(s.peers[p], s1.peers[p], Loc(0, k.sn))
             && s1.peers[p].slots[Loc(0, k.sn)] == ProposedSlot(c, k.sn, EMPTY)
             && OnlySlot(s1.peers[p], s2.peers[p], Loc(0, k.other))
             && s2.peers[p].slots[Loc(0, k.other)] == ProposedSlot(c, k.other, k.d)
    ensures Proposed(c, k, s2)
  {
    forall r | r in s2.peers
      ensures AtWork(s2.peers[r], r) && Unprepared(s2.peers[r])
      ensures r != c.Leader(0) ==> Open(s2, r, k.sn) && Open(s2, r, k.other)
    {
      assert AtWork(s.peers[r], r) && Unprepared(s.peers[r]) && Open(s, r, k.sn) && Open(s, r, k.other);
      if r == c.Leader(0) {
        ProposerAtWork(c, k, s.peers[r], s1.peers[r], s2.peers[r], r);
      } else {
        assert s2.peers[r] == s.peers[r];
      }
    }
  }

  lemma ProposerAtWork(c: Config, k: Cast, ps: Peer, ps1: Peer, ps2: Peer, r: int)
    requires |c.leaders| > 0 && AtWork(ps, r) && Unprepared(ps)
    requires OnlySlot(ps, ps1, Loc(0, k.sn)) && ps1.slots[Loc(0, k.sn)] == ProposedSlot(c, k.sn, EMPTY)
    requires OnlySlot(ps1, ps2, Loc(0, k.other)) && ps2.slots[Loc(0, k.other)] == ProposedSlot(c, k.other, k.d)
    ensures AtWork(ps2, r) && Unprepared(ps2)
  {
  }

  /** The correct peers of the group have accepted `d` for `other`, and nobody has prepared anything. */
  ghost predicate TakenUp(c: Config, k: Cast, s: System)
    requires |c.leaders| > 0
  {
    && Populated(c, s) && Proposals(c, k) <= s.net
    && (forall r :: r in s.peers ==> AtWork(s.peers[r], r) && Unprepared(s.peers[r]))
    && (forall r :: r in s.peers && r in k.group ==>
          && Accepted(c, s, r, 0, k.other, k.d) && LastAt(s.peers[r].slots, Loc(0, k.other), k.d)
          && Proposing(c, s.peers[r], k.other, k.d) && PrepareMsg(r, k.other, 0, k.d) in s.net)
    && Open(s, k.x, k.sn)
  }

  lemma TakesUpAt(c: Config, s: System, s': System, r: int, sn: int, d: Digest)
    requires |c.leaders| > 0 && c.F() > 0 && r in s.peers && r in s'.peers && AtWork(s.peers[r], r)
    requires Unprepared(s.peers[r])
    requires TakesUp(c, s.peers[r], s'.peers[r], sn, d) && Accepted(c, s', r, 0, sn, d)
    ensures AtWork(s'.peers[r], r) && Unprepared(s'.peers[r]) && LastAt(s'.peers[r].slots, Loc(0, sn), d)
  {
  }

  /** Peer `r` has accepted `d` for `other`. */
  ghost predicate TookUp(c: Config, k: Cast, s: System, s': System, r: int)
    requires |c.leaders| > 0
  {
    && r in s.peers && Accepted(c, s', r, 0, k.other, k.d) && PrepareMsg(r, k.other, 0, k.d) in s'.net
    && TakesUp(c, s.peers[r], s'.peers[r], k.other, k.d)
  }

  lemma GroupTakesUp(c: Config, k: Cast, run: seq<System>) returns (longer: seq<System>)
    requires Casting(c, k) && PbftProof.Run(c, run) && Proposed(c, k, Last(run))
    ensures PbftProof.Run(c, longer) && TakenUp(c, k, Last(longer)) && Last(run).net <= Last(longer).net
  {
    var correct := k.group - c.m.faulty;
    longer := AcceptAll(c, run, correct, k.other, k.d);
    assert forall r :: r in correct ==> TookUp(c, k, Last(run), Last(longer), r);
    AllTakenUp(c, k, Last(run), Last(longer), correct);
  }

  lemma AllTakenUp(c: Config, k: Cast, s: System, s': System, correct: set<int>)
    requires Casting(c, k) && Proposed(c, k, s) && correct == k.group - c.m.faulty
    requires s.net <= s'.net && s'.peers.Keys == s.peers.Keys
    requires forall p :: p in s.peers && p !in correct ==> s'.peers[p] == s.peers[p]
    requires forall r :: r in correct ==> TookUp(c, k, s, s', r)
    ensures TakenUp(c, k, s')
  {
    forall r | r in s'.peers
      ensures AtWork(s'.peers[r], r) && Unprepared(s'.peers[r])
      ensures r in k.group ==>
                && Accepted(c, s', r, 0, k.other, k.d) && LastAt(s'.peers[r].slots, Loc(0, k.other), k.d)
                && Proposing(c, s'.peers[r], k.other, k.d) && PrepareMsg(r, k.other, 0, k.d) in s'.net
    {
      assert AtWork(s.peers[r], r) && Unprepared(s.peers[r]);
      if r in correct {
        assert TookUp(c, k, s, s', r);
        TakesUpAt(c, s, s', r, k.other, k.d);
      } else {
        assert s'.peers[r] == s.peers[r] && r !in k.group;
      }
    }
    assert TookUp(c, k, s, s', k.x);
    StaysOpen(c, k, s, s');
  }

  lemma StaysOpen(c: Config, k: Cast, s: System, s': System)
    requires Casting(c, k) && Proposed(c, k, s) && TookUp(c, k, s, s', k.x)
    ensures Open(s', k.x, k.sn)
  {
    assert Open(s, k.x, k.sn) && Loc(0, k.sn) != Loc(0, k.other);
  }

  /** Now `x` has accepted the empty batch for `sn` too, and has prepared `d`. */
  ghost predicate Prepared(c: Config, k: Cast, s: System)
    requires |c.leaders| > 0
  {
    && Populated(c, s)
    && (forall r :: r in s.peers ==> AtWork(s.peers[r], r) && Plays(k, r, s.peers[r].slots))
    && k.x in s.peers && Proposing(c, s.peers[k.x], k.sn, EMPTY) && Proposing(c, s.peers[k.x], k.other, k.d)
  }

  /** The peer holds the proposal of `d` for `sn` in view 0. */
  ghost predicate Proposing(c: Config, ps: Peer, sn: int, d: Digest)
    requires |c.leaders| > 0
  {
    Loc(0, sn) in ps.slots && ps.slots[Loc(0, sn)].pp == Some(Proposal(c, sn, d))
  }

  lemma ShowsPart(c: Config, k: Cast, s: System, r: int)
    requires Casting(c, k) && TakenUp(c, k, s) && r in s.peers && r != k.x
    ensures Plays(k, r, s.peers[r].slots)
  {
  }

  /** The last peer to act: `x` accepts the proposal for `sn` and gets the PREPAREs of the group for `other`. */
  lemma MainPart(c: Config, k: Cast, ps: Peer, ps1: Peer, ps2: Peer)
    requires Casting(c, k) && AtWork(ps, k.x) && Unprepared(ps) && LastAt(ps.slots, Loc(0, k.other), k.d)
    requires Proposing(c, ps, k.other, k.d) && TakesUp(c, ps, ps1, k.sn, EMPTY) && OnlySlot(ps1, ps2, Loc(0, k.other))
    requires ps2.slots[Loc(0, k.other)].pp == ps1.slots[Loc(0, k.other)].pp
    requires Holding(c, k.x, ps2.slots[Loc(0, k.other)], k.d) && ps2.slots[Loc(0, k.other)].prepared
    requires Holding(c, k.x, ps1.slots[Loc(0, k.sn)], EMPTY)
    ensures AtWork(ps2, k.x) && Plays(k, k.x, ps2.slots)
    ensures Proposing(c, ps2, k.sn, EMPTY) && Proposing(c, ps2, k.other, k.d)
  {
    assert Loc(0, k.sn) != Loc(0, k.other);
  }

  lemma OnePrepares(c: Config, k: Cast, run: seq<System>) returns (longer: seq<System>)
    requires Casting(c, k) && PbftProof.Run(c, run) && TakenUp(c, k, Last(run))
    requires forall r :: r in c.m.faulty ==> PrepareMsg(r, k.other, 0, k.d) in Last(run).net
    ensures PbftProof.Run(c, longer) && Prepared(c, k, Last(longer)) && Last(run).net <= Last(longer).net
  {
    var s := Last(run);
    var mid := AcceptOne(c, run, k.x, k.sn, EMPTY);
    StillAccepted(c, k, s, Last(mid));
    forall r | r in k.group
      ensures PrepareMsg(r, k.other, 0, k.d) in Last(mid).net
    {
      assert r in s.peers || r in c.m.faulty;
    }
    longer := ReceiveAll(c, mid, k.x, k.group, 0, k.other, k.d);
    PreparedByAll(c, Last(longer), k.x, k.group, 0, k.other, k.d);
    MainPart(c, k, s.peers[k.x], Last(mid).peers[k.x], Last(longer).peers[k.x]);
    PreparedNow(c, k, s, Last(mid), Last(longer));
  }

  lemma StillAccepted(c: Config, k: Cast, s: System, s': System)
    requires Casting(c, k) && TakenUp(c, k, s) && OnlyPeer(s, s', k.x) && k.x in s.peers && k.x in s'.peers
    requires OnlySlot(s.peers[k.x], s'.peers[k.x], Loc(0, k.sn))
    ensures Accepted(c, s', k.x, 0, k.other, k.d)
  {
    assert Loc(0, k.sn) != Loc(0, k.other) && Accepted(c, s, k.x, 0, k.other, k.d);
  }

  lemma PreparedNow(c: Config, k: Cast, s: System, s1: System, s2: System)
    requires Casting(c, k) && TakenUp(c, k, s) && OnlyPeer(s, s1, k.x) && OnlyPeer(s1, s2, k.x) && k.x in s2.peers
    requires AtWork(s2.peers[k.x], k.x) && Plays(k, k.x, s2.peers[k.x].slots)
    requires Proposing(c, s2.peers[k.x], k.sn, EMPTY) && Proposing(c, s2.peers[k.x], k.other, k.d)
    ensures Prepared(c, k, s2)
  {
    forall r | r in s2.peers
      ensures AtWork(s2.peers[r], r) && Plays(k, r, s2.peers[r].slots)
    {
      if r != k.x {
        assert s2.peers[r] == s.peers[r];
        ShowsPart(c, k, s, r);
      }
    }
  }

  lemma ActAnswer(c: Config, run: seq<System>, p: int, sn: int, d: Digest) returns (longer: seq<System>)
    requires PbftProof.Run(c, run) && c.m.Correct(p) && |c.leaders| > 0 && p in Last(run).peers
    requires Last(run).peers[p].id == p && Proposing(c, Last(run).peers[p], sn, d)
    ensures PbftProof.Run(c, longer)
    ensures Last(longer) == System(Last(run).peers, Last(run).net + {MissingPreprepareMsg(p, sn, Proposal(c, sn, d))})
  {
    PbftProof.ReachableRunnable(c, run, |run| - 1, p);
    longer := Act(c, run, DoAnswer(p, Loc(0, sn)));
    assert Last(run).peers[p := Last(run).peers[p]] == Last(run).peers;
  }

  lemma Answers(c: Config, k: Cast, run: seq<System>) returns (longer: seq<System>)
    requires Casting(c, k) && PbftProof.Run(c, run) && Prepared(c, k, Last(run))
    ensures PbftProof.Run(c, longer) && Last(longer).peers == Last(run).peers
    ensures Last(run).net <= Last(longer).net && Answered(c, k, Last(longer).net)
  {
    var mid := ActAnswer(c, run, k.x, k.sn, EMPTY);
    longer := ActAnswer(c, mid, k.x, k.other, k.d);
  }

  lemma SaidByFaulty(c: Config, k: Cast, v1: nat, v2: nat)
    requires |c.leaders| > 0
    ensures forall m :: m in Said(c, k, v1, v2) ==> m.sender in c.m.faulty
    ensures c.Leader(0) in c.m.faulty ==> Proposals(c, k) <= Said(c, k, v1, v2)
  {
  }

  /** The faulty peers have said all they will say, and the leader of view 0 has proposed. */
  lemma FirstWords(c: Config, k: Cast, v1: nat, v2: nat) returns (run: seq<System>)
    requires Casting(c, k) && c.Leader(0) in c.m.peers
    ensures PbftProof.Run(c, run) && Proposed(c, k, Last(run)) && Said(c, k, v1, v2) <= Last(run).net
  {
    var s := Beginning(c, k);
    SaidByFaulty(c, k, v1, v2);
    var r1 := FaultySends(c, [s], Said(c, k, v1, v2));
    StaysUntouched(k, s, Last(r1));
    run := LeaderProposes(c, k, r1);
  }

  lemma PreparedStaged(c: Config, k: Cast, s: System, v: nat)
    requires |c.leaders| > 0 && Prepared(c, k, s) && 0 < v
    requires forall r :: r in c.m.faulty ==> ViewChangeMsg(r, FaultyReport(k, v)) in s.net
    ensures Staged(c, k, s, v)
  {
  }

  /** The peers have played the opening, and nobody has left view 0. */
  lemma Opening(c: Config, k: Cast, v1: nat, v2: nat) returns (run: seq<System>)
    requires Casting(c, k) && c.Leader(0) in c.m.peers && 0 < v1 < v2
    ensures PbftProof.Run(c, run) && Staged(c, k, Last(run), v1) && Answered(c, k, Last(run).net)
    ensures forall r :: r in c.m.faulty ==> ViewChangeMsg(r, FaultyReport(k, v2)) in Last(run).net
  {
    var r1 := FirstWords(c, k, v1, v2);
    var r2 := GroupTakesUp(c, k, r1);
    SaidStays(c, k, v1, v2, Last(r1).net, Last(r2).net);
    var r3 := OnePrepares(c, k, r2);
    run := Answers(c, k, r3);
    SaidStays(c, k, v1, v2, Last(r1).net, Last(run).net);
    assert Prepared(c, k, Last(run));
    PreparedStaged(c, k, Last(run), v1);
  }

  lemma SaidStays(c: Config, k: Cast, v1: nat, v2: nat, net: set<Msg>, net': set<Msg>)
    requires |c.leaders| > 0 && Said(c, k, v1, v2) <= net <= net'
    ensures forall r :: r in c.m.faulty ==>
              && PrepareMsg(r, k.other, 0, k.d) in net'
              && ViewChangeMsg(r, FaultyReport(k, v1)) in net' && ViewChangeMsg(r, FaultyReport(k, v2)) in net'
  {
    forall r | r in c.m.faulty
      ensures PrepareMsg(r, k.other, 0, k.d) in net'
      ensures ViewChangeMsg(r, FaultyReport(k, v1)) in net' && ViewChangeMsg(r, FaultyReport(k, v2)) in net'
    {
      assert PrepareMsg(r, k.other, 0, k.d) in Said(c, k, v1, v2);
      assert ViewChangeMsg(r, FaultyReport(k, v1)) in Said(c, k, v1, v2);
      assert ViewChangeMsg(r, FaultyReport(k, v2)) in Said(c, k, v1, v2);
    }
  }

  // ---------- The run ----------

  /** In some run a correct leader sends a NEWVIEW with 2f+1 VIEWCHANGEs and without the flag of an abandoned slot. */
  ghost predicate Unflags(c: Config, run: seq<System>, p: int, nv: NewView, sn: int) {
    && PbftProof.Run(c, run) && c.m.Correct(p) && NewViewMsg(p, nv) in Last(run).net
    && |nv.vset| == 2 * c.F() + 1 && sn in c.sns && Unflagged(c.F(), nv, sn)
  }

  lemma PlayedOut(c: Config, k: Cast, v1: nat, v2: nat, rs: set<int>) returns (run: seq<System>, nv: NewView)
    requires Casting(c, k) && c.Leader(0) in c.m.peers && 0 < v1 < v2 && c.Leader(v1) == k.p && c.Leader(v2) == k.p
    requires rs <= c.m.peers - {k.p, k.x} && |rs| == 2 * c.F()
    ensures Unflags(c, run, k.p, nv, k.sn)
  {
    var r4 := SecondGathering(c, k, v1, v2, rs);
    run, nv := SecondTurn(c, k, r4, v2, v1);
  }

  /** The leader is in its second turn and has the reports of the group. */
  lemma SecondGathering(c: Config, k: Cast, v1: nat, v2: nat, rs: set<int>) returns (run: seq<System>)
    requires Casting(c, k) && c.Leader(0) in c.m.peers && 0 < v1 < v2 && c.Leader(v1) == k.p && c.Leader(v2) == k.p
    requires rs <= c.m.peers - {k.p, k.x} && |rs| == 2 * c.F()
    ensures PbftProof.Run(c, run) && k.p in Last(run).peers && InTurn(c, k, Last(run).peers[k.p], v2, k.group)
    ensures LastAt(Last(run).peers[k.p].slots, Loc(v1, k.other), EMPTY) && Answered(c, k, Last(run).net)
    ensures forall r :: r in Last(run).peers ==> At(k, Last(run), r, v2)
  {
    var r1 := Opening(c, k, v1, v2);
    var r2 := Gather(c, k, r1, v1, rs);
    var r3 := FirstTurn(c, k, r2, v1, rs);
    Restaged(c, k, Last(r1), Last(r2), Last(r3), v1, v2, rs);
    run := Gather(c, k, r3, v2, k.group);
    LaterLast(v1, Last(r3).peers[k.p].slots, Last(run).peers[k.p].slots, Loc(v1, k.other), EMPTY);
  }

  lemma Restaged(c: Config, k: Cast, s: System, s1: System, s2: System, v1: nat, v2: nat, rs: set<int>)
    requires Casting(c, k) && Staged(c, k, s, v1) && Gathered(c, k, s, s1, v1, rs) && v1 < v2 && OnlyPeer(s1, s2, k.p)
    requires forall r :: r in c.m.faulty ==> ViewChangeMsg(r, FaultyReport(k, v2)) in s.net
    requires k.p in s2.peers && Before(k, s2, k.p, v2)
    ensures Staged(c, k, s2, v2)
  {
    forall r | r in s2.peers
      ensures Before(k, s2, r, v2)
    {
      assert r != k.p ==> At(k, s1, r, v1);
    }
  }

  lemma Cycle(c: Config, i: nat, j: nat)
    requires i < |c.leaders|
    ensures c.Leader(i + j * |c.leaders|) == c.leaders[i]
  {
    ModPlus(i, j, |c.leaders|);
    QuotientIs(i, |c.leaders|, 0, i);
  }

  /** Some correct peer is left beside two others. */
  lemma Third(m: Membership, a: int, b: int) returns (x: int)
    requires m.Valid() && m.F() >= 1
    ensures m.Correct(x) && x != a && x != b
  {
    MinusSize(m.peers, m.faulty);
    MinusSize(m.peers - m.faulty, {a, b});
    SubsetSize({a, b}, {a} + {b});
    x := Member(m.peers - m.faulty - {a, b});
  }

  lemma CastFor(c: Config, p: int, sn: int, other: int, d: Digest) returns (k: Cast, rs: set<int>)
    requires c.Valid() && c.F() >= 1 && c.m.Correct(p) && sn in c.sns && other in c.sns && sn != other && d != EMPTY
    ensures Casting(c, k) && k.p == p && k.sn == sn && k.other == other && k.d == d
    ensures rs <= c.m.peers - {k.p, k.x} && |rs| == 2 * c.F()
  {
    var x := Third(c.m, p, c.Leader(0));
    MinusSize(c.m.peers, {p, c.Leader(0)});
    var group := SubsetAround(c.m.peers - {p, c.Leader(0)}, {x}, 2 * c.F());
    MinusSize(c.m.peers, {p, x});
    rs := SubsetAround(c.m.peers - {p, x}, {}, 2 * c.F());
    k := Cast(p, x, group, sn, other, d);
  }

  lemma TwoSlots(sns: set<int>) returns (sn: int, other: int)
    requires |sns| >= 2
    ensures sn in sns && other in sns && sn != other
  {
    sn := Member(sns);
    MinusSize(sns, {sn});
    other := Member(sns - {sn});
  }

  /** There is such a run whenever there are two slots, faults are tolerated, and some leader is correct. */
  lemma LoseFlag(c: Config, i: nat) returns (run: seq<System>, nv: NewView, sn: int)
    requires c.Valid() && c.F() >= 1 && |c.sns| >= 2 && c.Leader(0) in c.m.peers
    requires i < |c.leaders| && c.m.Correct(c.leaders[i])
    ensures Unflags(c, run, c.leaders[i], nv, sn)
  {
    var other;
    sn, other := TwoSlots(c.sns);
    var k, rs := CastFor(c, c.leaders[i], sn, other, EMPTY + 1);
    var n := |c.leaders|;
    Cycle(c, i, 1);
    Cycle(c, i, 2);
    run, nv := PlayedOut(c, k, i + 1 * n, i + 2 * n, rs);
  }
}
