/** Construction and validation of NEWVIEW messages: when the outcome is independent of the order
    in which VIEWCHANGEs are examined, and when it is not. */
module PbftNewView {
  import opened Collections
  import opened Quorums
  import opened Voting
  import opened PbftPeer

  /** With all of `vset` consistent with `e`, no member of it claims anything later or different. */
  lemma AllConsistent(f: nat, vset: map<int, ViewChange>, sn: int, e: Entry, s: int)
    requires |vset| == 2 * f + 1 && CondAAt(f, vset, sn, e) && s in vset && sn in vset[s].pset
    ensures vset[s].pset[sn].view < e.view || vset[s].pset[sn] == e
  {
    FullSubset(ConsistentAt(vset, sn, e), vset.Keys);
    assert s in ConsistentAt(vset, sn, e);
  }

  /** A subset as large as its superset is all of it. */
  lemma FullSubset(a: set<int>, b: set<int>)
    requires a <= b && |a| >= |b|
    ensures a == b
  {
    var rest := b - a;
    assert b == a + rest && |b| == |a| + |rest|;
    assert rest == {};
  }

  /** With exactly 2f+1 VIEWCHANGEs at most one choice is allowed for a slot, so the order in which
      they are examined does not matter. */
  lemma ChoiceUnique(f: nat, vset: map<int, ViewChange>, sn: int, c1: Choice, c2: Choice)
    requires |vset| == 2 * f + 1 && Allowed(f, vset, sn, c1) && Allowed(f, vset, sn, c2)
    ensures c1 == c2
    decreases if c1.Abort? then 0 else 1
  {
    if c1.Abort? {
      FullSubset(UnpreparedAt(vset, sn), vset.Keys);
      assert forall e: Entry :: !Claimed(vset, sn, e);
    } else if c2.Abort? {
      ChoiceUnique(f, vset, sn, c2, c1);
    } else {
      var s1 :| s1 in vset && sn in vset[s1].pset && vset[s1].pset[sn] == c1.e;
      var s2 :| s2 in vset && sn in vset[s2].pset && vset[s2].pset[sn] == c2.e;
      AllConsistent(f, vset, sn, c1.e, s2);
      AllConsistent(f, vset, sn, c2.e, s1);
    }
  }

  /** The VIEWCHANGEs of `vset` that come from `senders`. */
  ghost function From(vset: map<int, ViewChange>, senders: set<int>): map<int, ViewChange> {
    map s | s in vset && s in senders :: vset[s]
  }

  /** What a peer has prepared it has also preprepared. */
  ghost predicate Coherent(vset: map<int, ViewChange>) {
    forall s :: s in vset ==>
      forall sn :: sn in vset[s].pset ==> sn in vset[s].qset && vset[s].qset[sn] == vset[s].pset[sn]
  }

  /** With more VIEWCHANGEs than that, conditions B and A can both hold, and that as soon as `last` has reported, but
      not before: 2f+1 senders, among them `last`, have nothing prepared, the others have prepared `e`, and f+1
      senders, among them `last`, have preprepared it. */
  lemma ChoiceNotUniqueBeyondQuorum(f: nat, senders: set<int>, last: int, view: nat, sn: nat, e: Entry)
    returns (vset: map<int, ViewChange>)
    requires |senders| > 2 * f + 1 && last in senders
    ensures vset.Keys == senders && forall s :: s in vset ==> vset[s].view == view
    ensures Allowed(f, vset, sn, Abort) && Allowed(f, vset, sn, Reuse(e))
    ensures forall k: nat :: k != sn ==> Allowed(f, vset, k, Abort)
    ensures forall some: set<int>, ch: Choice :: last !in some ==> !Allowed(f, From(vset, some), sn, ch)
    ensures |senders| <= 3 * f + 1 ==> Coherent(vset)
  {
    var idle, group := Roles(f, senders, last);
    vset := map s | s in senders ::
      ViewChange(view, -1, [-1], if s in idle then map[] else map[sn := e], if s in group then map[sn := e] else map[]);
    assert UnpreparedAt(vset, sn) == idle;
    assert ConsistentAt(vset, sn, e) == senders;
    assert SupportingAt(vset, sn, e) == group;
    var p := Member(senders - idle);
    assert Claimed(vset, sn, e) by {
      assert p in vset && sn in vset[p].pset && vset[p].pset[sn] == e;
    }
    forall k: nat | k != sn
      ensures Allowed(f, vset, k, Abort)
    {
      assert UnpreparedAt(vset, k) == senders;
    }
    forall some: set<int>, ch: Choice | last !in some
      ensures !Allowed(f, From(vset, some), sn, ch)
    {
      NotWithoutLast(f, vset, last, sn, e, some, ch);
    }
  }

  /** The senders with nothing prepared, and those that have preprepared. */
  lemma Roles(f: nat, senders: set<int>, last: int) returns (idle: set<int>, group: set<int>)
    requires |senders| > 2 * f + 1 && last in senders
    ensures last in idle && idle <= senders && senders - idle != {} && |idle| == 2 * f + 1
    ensures last in group && group <= senders && |group| == f + 1
    ensures |senders| <= 3 * f + 1 ==> senders - idle <= group
  {
    idle := SubsetAround(senders, {last}, 2 * f + 1);
    var rest := senders - idle;
    assert senders == idle + rest && |rest| == |senders| - |idle|;
    if |rest| <= f {
      assert |{last} + rest| == |rest| + 1;
      group := SubsetAround(senders, {last} + rest, f + 1);
    } else {
      group := SubsetAround(senders, {last}, f + 1);
    }
  }

  /** A single VIEWCHANGE tips both B and A2. */
  lemma NotWithoutLast(f: nat, vset: map<int, ViewChange>, last: int, sn: int, e: Entry, some: set<int>, ch: Choice)
    requires |UnpreparedAt(vset, sn)| == 2 * f + 1 && last in UnpreparedAt(vset, sn)
    requires |SupportingAt(vset, sn, e)| == f + 1 && last in SupportingAt(vset, sn, e)
    requires forall s :: s in vset && sn in vset[s].pset ==> vset[s].pset[sn] == e
    requires last !in some
    ensures !Allowed(f, From(vset, some), sn, ch)
  {
    var part := From(vset, some);
    if ch.Abort? {
      SubsetSize(UnpreparedAt(part, sn), UnpreparedAt(vset, sn) - {last});
    } else if Claimed(part, sn, ch.e) {
      assert ch.e == e;
      SubsetSize(SupportingAt(part, sn, e), SupportingAt(vset, sn, e) - {last});
    }
  }

  /** Whether every set of `k` VIEWCHANGEs allows at most one choice per slot. */
  ghost predicate ChoicesUnique(f: nat, k: nat) {
    forall vset: map<int, ViewChange>, sn: int, c1: Choice, c2: Choice ::
      |vset| == k && Allowed(f, vset, sn, c1) && Allowed(f, vset, sn, c2) ==> c1 == c2
  }

  /** The choice depends on the VIEWCHANGEs alone exactly if there are 2f+1 of them, and on the order in which they are
      examined if there are more. */
  lemma ChoicesUniqueIff(f: nat, k: nat)
    requires k >= 2 * f + 1
    ensures ChoicesUnique(f, k) <==> k == 2 * f + 1
  {
    if k == 2 * f + 1 {
      forall vset: map<int, ViewChange>, sn: int, c1: Choice, c2: Choice
        | |vset| == k && Allowed(f, vset, sn, c1) && Allowed(f, vset, sn, c2)
        ensures c1 == c2
      {
        ChoiceUnique(f, vset, sn, c1, c2);
      }
    } else {
      var e := Entry(0, EMPTY);
      var vset := ChoiceNotUniqueBeyondQuorum(f, Interval(0, k), 0, 1, 0, e);
      assert |vset| == |vset.Keys| == k;
      assert Allowed(f, vset, 0, Abort) && Allowed(f, vset, 0, Reuse(e));
    }
  }

  // ---------- Building ----------

  /** The reproposal is that of `ch`, except that the batch may be missing or have lost its aborted flag. */
  ghost predicate Matches(id: int, view: nat, sn: int, ch: Choice, rp: Reproposal) {
    && rp.digest == ch.Digest() && (ch.Abort? ==> rp.pp.Some?)
    && (rp.pp.Some? ==> rp.pp.value == Preprepare(sn, view, id, rp.digest, rp.pp.value.aborted))
  }

  /** What leader `id` knows about its view follows `choices`. */
  ghost predicate Ready(c: Config, id: int, view: nat, info: Info, choices: map<int, Choice>) {
    && c.Valid() && 0 < view && choices.Keys == c.sns && info.repropose.Keys == c.sns
    && (forall s :: s in info.s ==> info.s[s].view == view)
    && forall sn :: sn in c.sns ==>
         Allowed(c.F(), info.s, sn, choices[sn]) && Matches(id, view, sn, choices[sn], info.repropose[sn])
  }

  /** The batches of all abandoned slots are flagged as aborted. */
  ghost predicate Flagged(repropose: map<int, Reproposal>, choices: map<int, Choice>) {
    forall sn :: sn in choices && choices[sn].Abort? && sn in repropose && repropose[sn].pp.Some? ==>
      repropose[sn].pp.value.aborted
  }

  /** The NEWVIEW follows `choices`, except that aborted flags may have been lost. */
  ghost predicate BuiltFrom(c: Config, nv: NewView, leader: int, choices: map<int, Choice>) {
    && c.Valid() && 0 < nv.view && nv.checkpoint == -1 && choices.Keys == c.sns
    && (forall s :: s in nv.vset ==> nv.vset[s].view == nv.view)
    && forall sn :: sn in c.sns ==>
         && Allowed(c.F(), nv.vset, sn, choices[sn])
         && sn in nv.xset && nv.xset[sn] == Preprepare(sn, nv.view, leader, choices[sn].Digest(), nv.xset[sn].aborted)
  }

  /** The NEWVIEW has the flags. */
  ghost predicate KeepsFlags(nv: NewView, choices: map<int, Choice>) {
    forall sn :: sn in choices && choices[sn].Abort? && sn in nv.xset ==> nv.xset[sn].aborted
  }

  /** What a leader sets up follows its choices, with all flags. */
  lemma BuildReady(c: Config, ps: Peer, u: nat, choices: map<int, Choice>)
    requires CanBuild(c, ps, u, choices)
    requires forall s :: s in ps.changes[u].s ==> ps.changes[u].s[s].view == u
    ensures var info := BuildNewView(c, ps, u, choices).peer.changes[u];
            Ready(c, ps.id, u, info, choices) && Flagged(info.repropose, choices)
  {
    var info := BuildNewView(c, ps, u, choices).peer.changes[u];
    forall sn | sn in c.sns
      ensures Matches(ps.id, u, sn, choices[sn], info.repropose[sn])
      ensures choices[sn].Abort? ==> info.repropose[sn].pp.value.aborted
    {
      assert info.repropose[sn] == Repropose(ps, u, sn, choices[sn]);
    }
  }

  /** A batch that arrives changes nothing about the choices, and keeps the flags exactly if it does not replace the
      aborted batch of an abandoned slot by one without the flag, which the digest does not cover. */
  lemma FetchReadyIff(c: Config, ps: Peer, sn: int, pp: Preprepare, choices: map<int, Choice>)
    requires ps.view in ps.changes && Ready(c, ps.id, ps.view, ps.changes[ps.view], choices)
    ensures var ps' := OnMissingPreprepare(ps, sn, pp).peer;
            && ps.view in ps'.changes && Ready(c, ps.id, ps.view, ps'.changes[ps.view], choices)
            && (Flagged(ps.changes[ps.view].repropose, choices) ==>
                  (Flagged(ps'.changes[ps.view].repropose, choices) <==>
                   !(Fits(ps, sn, pp) && choices[sn].Abort? && !pp.aborted)))
  {
    var ps' := OnMissingPreprepare(ps, sn, pp).peer;
    if Fits(ps, sn, pp) {
      var info, info' := ps.changes[ps.view], ps'.changes[ps.view];
      forall k | k in c.sns
        ensures Matches(ps.id, ps.view, k, choices[k], info'.repropose[k])
      {
        assert Matches(ps.id, ps.view, k, choices[k], info.repropose[k]);
      }
      assert info'.repropose[sn].pp == Some(Preprepare(sn, ps.view, ps.id, pp.digest, pp.aborted));
    }
  }

  /** The NEWVIEW sent carries the choices and the collected VIEWCHANGEs, and has the flags exactly if the leader
      does. */
  lemma ReadySendsBuilt(c: Config, ps: Peer, choices: map<int, Choice>, nv: NewView)
    requires CanAnnounce(c, ps) && Ready(c, ps.id, ps.view, ps.changes[ps.view], choices)
    requires NewViewMsg(ps.id, nv) in SendNewView(c, ps).sent
    ensures BuiltFrom(c, nv, ps.id, choices) && nv.view == ps.view && nv.vset == ps.changes[ps.view].s
    ensures KeepsFlags(nv, choices) <==> Flagged(ps.changes[ps.view].repropose, choices)
  {
    var info := ps.changes[ps.view];
    forall sn | sn in c.sns
      ensures nv.xset[sn] == info.repropose[sn].pp.value
      ensures nv.xset[sn] == Preprepare(sn, nv.view, ps.id, choices[sn].Digest(), nv.xset[sn].aborted)
    {
      assert Matches(ps.id, ps.view, sn, choices[sn], info.repropose[sn]);
    }
  }

  // ---------- Validating ----------

  /** Why a NEWVIEW may be turned down: nothing is allowed for a slot, or what is allowed is not what
      it proposes. */
  ghost predicate Rejected(f: nat, nv: NewView, sn: int, sender: int) {
    || (forall ch: Choice :: !Allowed(f, nv.vset, sn, ch))
    || (exists ch: Choice :: Allowed(f, nv.vset, sn, ch) && !XsetOk(f, nv, sn, ch))
    || (sn in nv.xset && (nv.xset[sn].sn != sn || nv.xset[sn].view != nv.view || nv.xset[sn].leader != sender))
  }

  /** The NEWVIEW holds an empty batch for an abandoned slot but does not flag it as aborted. */
  ghost predicate Unflagged(f: nat, nv: NewView, sn: int) {
    Allowed(f, nv.vset, sn, Abort) && sn in nv.xset && nv.xset[sn].digest == Abort.Digest() && !nv.xset[sn].aborted
  }

  /** With exactly 2f+1 VIEWCHANGEs validation of what a leader builds fails for lost flags and for nothing else. */
  lemma BuiltRejectedIff(c: Config, nv: NewView, leader: int, choices: map<int, Choice>, sn: int)
    requires BuiltFrom(c, nv, leader, choices) && |nv.vset| == 2 * c.F() + 1 && sn in c.sns
    ensures Rejected(c.F(), nv, sn, leader) <==> Unflagged(c.F(), nv, sn)
    ensures Unflagged(c.F(), nv, sn) <==> choices[sn].Abort? && !nv.xset[sn].aborted
  {
    var mine := choices[sn];
    assert Allowed(c.F(), nv.vset, sn, mine);
    forall ch: Choice | Allowed(c.F(), nv.vset, sn, ch)
      ensures ch == mine
    {
      ChoiceUnique(c.F(), nv.vset, sn, ch, mine);
    }
  }

  /** A peer that has not yet moved past the view can accept what the leader built exactly if no flag is lost. */
  lemma BuiltAcceptedIff(c: Config, nv: NewView, leader: int, choices: map<int, Choice>, ps: Peer)
    requires BuiltFrom(c, nv, leader, choices) && |nv.vset| == 2 * c.F() + 1 && Shape(c, ps)
    requires ps.view <= nv.view && !InfoFor(ps, nv.view).accepted
    ensures (exists found: map<int, Choice> :: CanAccept(c, ps, leader, nv, found)) <==>
            forall sn :: sn in c.sns ==> !Unflagged(c.F(), nv, sn)
  {
    forall sn | sn in c.sns
      ensures !Unflagged(c.F(), nv, sn) ==> XsetOk(c.F(), nv, sn, choices[sn])
    {
      BuiltRejectedIff(c, nv, leader, choices, sn);
    }
    if forall sn :: sn in c.sns ==> !Unflagged(c.F(), nv, sn) {
      assert CanAccept(c, ps, leader, nv, choices);
    }
    if found: map<int, Choice> :| CanAccept(c, ps, leader, nv, found) {
      forall sn | sn in c.sns
        ensures !Unflagged(c.F(), nv, sn)
      {
        assert XsetOk(c.F(), nv, sn, found[sn]);
        ChoiceUnique(c.F(), nv.vset, sn, found[sn], choices[sn]);
        BuiltRejectedIff(c, nv, leader, choices, sn);
      }
    }
  }

  /** With exactly 2f+1 VIEWCHANGEs the validator's own choice, whatever order it examines them in, is
      one the NEWVIEW satisfies. */
  lemma ValidatorAgrees(c: Config, nv: NewView, leader: int, choices: map<int, Choice>, sn: int, ch: Choice)
    requires BuiltFrom(c, nv, leader, choices) && KeepsFlags(nv, choices) && |nv.vset| == 2 * c.F() + 1 && sn in c.sns
    requires Allowed(c.F(), nv.vset, sn, ch)
    ensures XsetOk(c.F(), nv, sn, ch)
  {
    ChoiceUnique(c.F(), nv.vset, sn, ch, choices[sn]);
  }

  /** The order in which VIEWCHANGEs arrive at a leader that sets up the view as soon as all slots have a choice, which
      it checks after each VIEWCHANGE from the quorum on. */
  ghost predicate Arrival(c: Config, vset: map<int, ViewChange>, order: seq<int>) {
    && Distinct(order) && Elements(order) == vset.Keys
    && forall j :: 2 * c.F() + 1 <= j < |order| ==> Stuck(c, From(vset, Elements(order[..j])))
  }

  ghost function Elements(s: seq<int>): set<int> {
    set x | x in s
  }

  /** Some slot has no choice. */
  ghost predicate Stuck(c: Config, vset: map<int, ViewChange>) {
    exists sn :: sn in c.sns && NoChoice(c.F(), vset, sn)
  }

  ghost predicate NoChoice(f: nat, vset: map<int, ViewChange>, sn: int) {
    forall ch: Choice :: !Allowed(f, vset, sn, ch)
  }

  /** With more than 2f+1 of them, a NEWVIEW with all flags may be turned down: for every set of senders there are
      VIEWCHANGEs, and an order of arrival in which the leader comes to build from all of them and not before. */
  lemma BuiltIsRejected(c: Config, senders: set<int>, view: nat, leader: int, sn: int)
    returns (nv: NewView, choices: map<int, Choice>, order: seq<int>)
    requires c.Valid() && |senders| > 2 * c.F() + 1 && 0 < view && sn in c.sns
    ensures BuiltFrom(c, nv, leader, choices) && KeepsFlags(nv, choices) && nv.view == view && nv.vset.Keys == senders
    ensures Arrival(c, nv.vset, order) && (|senders| <= 3 * c.F() + 1 ==> Coherent(nv.vset))
    ensures Rejected(c.F(), nv, sn, leader)
  {
    var e := Entry(0, EMPTY + 1);
    var last := Member(senders);
    var vset := ChoiceNotUniqueBeyondQuorum(c.F(), senders, last, view, sn, e);
    choices := map k | k in c.sns :: Abort;
    nv := NewView(view, vset, map k | k in c.sns :: Preprepare(k, view, leader, EMPTY, true), -1);
    assert Allowed(c.F(), nv.vset, sn, Reuse(e)) && !XsetOk(c.F(), nv, sn, Reuse(e));
    var before := Listing(senders - {last});
    order := before + [last];
    forall x
      ensures x in order <==> x in senders
    {
      assert x in order <==> x in before || x == last;
    }
    forall j | 2 * c.F() + 1 <= j < |order|
      ensures Stuck(c, From(vset, Elements(order[..j])))
    {
      assert order[..j] == before[..j];
      assert last !in Elements(order[..j]);
      assert NoChoice(c.F(), From(vset, Elements(order[..j])), sn);
    }
  }

  /** Whether no NEWVIEW built, as soon as possible and with all flags, from `k` VIEWCHANGEs of members is turned
      down. */
  ghost predicate NeverRejected(c: Config, k: nat) {
    forall nv: NewView, leader: int, choices: map<int, Choice>, order: seq<int>, sn: int ::
      BuiltFrom(c, nv, leader, choices) && KeepsFlags(nv, choices) && nv.vset.Keys <= c.m.peers && |nv.vset| == k
      && Arrival(c, nv.vset, order) && sn in c.sns ==>
        !Rejected(c.F(), nv, sn, leader)
  }

  /** Validators never turn down what leaders build exactly if leaders build from 2f+1 VIEWCHANGEs. */
  lemma NeverRejectedIff(c: Config, k: nat, sn: int)
    requires c.Valid() && sn in c.sns && 2 * c.F() + 1 <= k <= |c.m.peers|
    ensures NeverRejected(c, k) <==> k == 2 * c.F() + 1
  {
    if k == 2 * c.F() + 1 {
      forall nv: NewView, leader: int, choices: map<int, Choice>, order: seq<int>, sn: int
        | BuiltFrom(c, nv, leader, choices) && KeepsFlags(nv, choices) && nv.vset.Keys <= c.m.peers && |nv.vset| == k
          && Arrival(c, nv.vset, order) && sn in c.sns
        ensures !Rejected(c.F(), nv, sn, leader)
      {
        BuiltRejectedIff(c, nv, leader, choices, sn);
      }
    } else {
      var p := Member(c.m.peers);
      var senders := SubsetAround(c.m.peers, {p}, k);
      var nv, choices, order := BuiltIsRejected(c, senders, 1, p, sn);
      assert |nv.vset| == |nv.vset.Keys|;
    }
  }
}
