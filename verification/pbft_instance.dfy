/** The PBFT instance as the orderer runs it: fields updated in place by message handlers. Every
    handler is proved to do what the corresponding function of `PbftPeer` says. Maps are examined
    one entry at a time in arbitrary order. */
module PbftInstance {
  import opened Collections
  import opened Quorums
  import opened Voting
  import opened PbftPeer
  import opened PbftNewView
  import PbftProof

  // ---------- Counting ----------

  /** Whether enough PREPAREs match the proposal. */
  method CheckPrepared(c: Config, sl: Slot) returns (prepared: bool)
    ensures prepared <==> IsPrepared(c, sl)
  {
    if !sl.preprepared || |sl.prepares| < 2 * c.F() {
      SubsetSize(MatchingPrepares(sl), sl.prepares.Keys);
      return false;
    }
    var matching, rest := 0, sl.prepares.Keys;
    CountAll(MatchingPrepares(sl), rest);
    while rest != {} && matching < 2 * c.F()
      invariant rest <= sl.prepares.Keys
      invariant matching == |MatchingPrepares(sl) - rest|
      decreases |rest|
    {
      var p := Pick(rest);
      CountOne(MatchingPrepares(sl), rest, p);
      rest := rest - {p};
      if Some(sl.prepares[p]) == sl.digest {
        matching := matching + 1;
      }
    }
    CountAll(MatchingPrepares(sl), rest);
    return matching >= 2 * c.F();
  }

  /** Examines every COMMIT once, marking and counting those that match the proposal. */
  method MarkCommits(sl: Slot, ghost matching: set<int>) returns (commits: map<int, Option<Digest>>, n: nat)
    requires matching <= sl.commits.Keys
    requires forall p :: p in sl.commits ==> (p in matching <==> sl.commits[p].Some? && sl.commits[p] == sl.digest)
    ensures n == |matching|
    ensures commits == map p | p in sl.commits :: Marked(sl, p)
  {
    commits, n := sl.commits, 0;
    var rest := sl.commits.Keys;
    ghost var seen: set<int> := {};
    while rest != {}
      invariant rest <= sl.commits.Keys && seen <= matching && seen !! rest && matching <= seen + rest && n == |seen|
      invariant MarkedBut(sl, commits, rest)
      decreases rest
    {
      var p := Pick(rest);
      var hit;
      commits, hit := MarkOne(sl, commits, rest, p);
      rest := rest - {p};
      if hit {
        seen := seen + {p};
        n := n + 1;
      }
    }
    assert seen == matching;
    MarkedAll(sl, commits);
  }

  /** The COMMITs that have been examined, which are all but those of `rest`, are marked. */
  ghost predicate MarkedBut(sl: Slot, commits: map<int, Option<Digest>>, rest: set<int>) {
    && commits.Keys == sl.commits.Keys
    && forall p :: p in sl.commits ==> commits[p] == if p in rest then sl.commits[p] else Marked(sl, p)
  }

  method MarkOne(sl: Slot, commits0: map<int, Option<Digest>>, ghost rest: set<int>, p: int)
    returns (commits: map<int, Option<Digest>>, hit: bool)
    requires p in sl.commits && p in rest && MarkedBut(sl, commits0, rest)
    ensures MarkedBut(sl, commits, rest - {p}) && (hit <==> sl.commits[p].Some? && sl.commits[p] == sl.digest)
  {
    hit := sl.commits[p].Some? && sl.commits[p] == sl.digest;
    commits := if hit then commits0[p := None] else commits0;
  }

  lemma MarkedAll(sl: Slot, commits: map<int, Option<Digest>>)
    requires MarkedBut(sl, commits, {})
    ensures commits == map p | p in sl.commits :: Marked(sl, p)
  {
  }

  /** Counts the COMMITs that match the proposal, each of them once. */
  method CheckCommits(c: Config, sl: Slot) returns (counted: Slot, enough: bool)
    ensures counted == CountCommits(sl) && (enough <==> EnoughCommits(c, counted))
    ensures enough <==> sl.preprepared && sl.prepared && sl.valid + |NewCommits(sl)| >= Quorum(|c.m.peers|)
  {
    if !sl.preprepared || !sl.prepared {
      return sl, false;
    }
    var commits, n := MarkCommits(sl, NewCommits(sl));
    counted := sl.(commits := commits, valid := sl.valid + n);
    enough := counted.valid >= 2 * c.F() + 1;
  }

  /** Tail of the common-case handlers: become prepared, which sends a COMMIT, and commit. */
  method Advance(c: Config, id: int, sl: Slot, release: bool) returns (sl': Slot, sendCommit: bool)
    requires sl.preprepared ==> sl.digest.Some?
    ensures sl' == TryCommit(c, TryPrepare(c, id, sl), release)
    ensures sendCommit <==> TryPrepare(c, id, sl).prepared && !sl.prepared
  {
    sl', sendCommit := sl, false;
    if !sl.prepared {
      sendCommit := CheckPrepared(c, sl);
      if sendCommit {
        sl' := sl.(prepared := true, commits := sl.commits[id := sl.digest]);
      }
    }
    if !sl'.committed {
      var counted, enough := CheckCommits(c, sl');
      sl' := if enough && release then counted.(committed := true) else counted;
    }
  }

  // ---------- Searching old views ----------

  /** Looks for the most recent slot with a proposal below view `u`. */
  method FindProposal(slots: map<Loc, Slot>, sn: int, u: nat) returns (found: Option<Slot>)
    ensures found == FindBatch(slots, sn, u)
  {
    var v := u;
    while v > 0
      invariant 0 <= v <= u && FindBatch(slots, sn, v) == FindBatch(slots, sn, u)
    {
      v := v - 1;
      if Loc(v, sn) in slots && slots[Loc(v, sn)].pp.Some? {
        return Some(slots[Loc(v, sn)]);
      }
    }
    return None;
  }

  /** Adds view `v` to the P and Q sets of the views before it. */
  method CollectView(c: Config, slots: map<Loc, Slot>, v: nat, pset0: map<int, Entry>, qset0: map<int, Entry>)
    returns (pset: map<int, Entry>, qset: map<int, Entry>)
    requires SlotsOk(slots) && pset0 == PsetAt(c, slots, v) && qset0 == QsetAt(c, slots, v)
    ensures pset == PsetAt(c, slots, v + 1) && qset == QsetAt(c, slots, v + 1)
  {
    pset, qset := pset0, qset0;
    var rest := c.sns;
    while rest != {}
      invariant rest <= c.sns && pset.Keys <= c.sns && qset.Keys <= c.sns
      invariant forall sn :: sn in c.sns && sn in rest ==>
                  && Lookup(pset, sn) == LatestPrepared(slots, sn, v)
                  && Lookup(qset, sn) == LatestPreprepared(slots, sn, v)
      invariant forall sn :: sn in c.sns && sn !in rest ==>
                  && Lookup(pset, sn) == LatestPrepared(slots, sn, v + 1)
                  && Lookup(qset, sn) == LatestPreprepared(slots, sn, v + 1)
      decreases |rest|
    {
      var sn := Pick(rest);
      rest := rest - {sn};
      if Loc(v, sn) in slots {
        var sl := slots[Loc(v, sn)];
        if sl.prepared {
          pset := pset[sn := Entry(sl.pp.value.view, sl.digest.value)];
        }
        if sl.pp.Some? {
          qset := qset[sn := Entry(sl.pp.value.view, sl.digest.value)];
        }
      }
    }
    SetsAre(c, slots, v + 1, pset, qset);
  }

  /** Collects the P and Q sets: later views overwrite what earlier views reported. */
  method CollectSets(c: Config, slots: map<Loc, Slot>, view: nat)
    returns (pset: map<int, Entry>, qset: map<int, Entry>)
    requires SlotsOk(slots)
    ensures pset == PsetAt(c, slots, view) && qset == QsetAt(c, slots, view)
  {
    pset, qset := map[], map[];
    SetsAre(c, slots, 0, pset, qset);
    for v := 0 to view
      invariant pset == PsetAt(c, slots, v) && qset == QsetAt(c, slots, v)
    {
      pset, qset := CollectView(c, slots, v, pset, qset);
    }
  }

  lemma SameLookups<V>(keys: set<int>, a: map<int, V>, b: map<int, V>)
    requires a.Keys <= keys && b.Keys <= keys && forall k :: k in keys ==> Lookup(a, k) == Lookup(b, k)
    ensures a == b
  {
    forall k | k in keys
      ensures (k in a <==> k in b) && (k in a ==> a[k] == b[k])
    {
      assert Lookup(a, k) == Lookup(b, k);
    }
  }

  lemma SetsAre(c: Config, slots: map<Loc, Slot>, v: nat, pset: map<int, Entry>, qset: map<int, Entry>)
    requires pset.Keys <= c.sns && qset.Keys <= c.sns
    requires forall sn :: sn in c.sns ==> Lookup(pset, sn) == LatestPrepared(slots, sn, v)
    requires forall sn :: sn in c.sns ==> Lookup(qset, sn) == LatestPreprepared(slots, sn, v)
    ensures pset == PsetAt(c, slots, v) && qset == QsetAt(c, slots, v)
  {
    forall sn | sn in c.sns
      ensures Lookup(pset, sn) == Lookup(PsetAt(c, slots, v), sn) && Lookup(qset, sn) == Lookup(QsetAt(c, slots, v), sn)
    {
    }
    assert PsetAt(c, slots, v).Keys <= c.sns && QsetAt(c, slots, v).Keys <= c.sns;
    SameLookups(c.sns, pset, PsetAt(c, slots, v));
    SameLookups(c.sns, qset, QsetAt(c, slots, v));
  }

  // ---------- Examining VIEWCHANGEs ----------

  /** Counts conditions A1 and A2 for `e`, stopping as soon as both hold. */
  method CheckA(f: nat, vset: map<int, ViewChange>, sn: int, e: Entry) returns (ok: bool)
    ensures ok <==> CondAAt(f, vset, sn, e)
  {
    ghost var cons, supp := ConsistentAt(vset, sn, e), SupportingAt(vset, sn, e);
    var a1, a2, rest := 0, 0, vset.Keys;
    CountAll(cons, rest);
    CountAll(supp, rest);
    ok := false;
    while rest != {} && !ok
      invariant rest <= vset.Keys && a1 == |cons - rest| && a2 == |supp - rest|
      invariant ok <==> a1 >= 2 * f + 1 && a2 >= f + 1
      decreases |rest|
    {
      var s := Pick(rest);
      CountOne(cons, rest, s);
      CountOne(supp, rest, s);
      rest := rest - {s};
      var vc := vset[s];
      if vc.h < sn && (sn !in vc.pset || vc.pset[sn].view < e.view || vc.pset[sn] == e) {
        a1 := a1 + 1;
      }
      if sn in vc.qset && vc.qset[sn].view >= e.view && vc.qset[sn].digest == e.digest {
        a2 := a2 + 1;
      }
      ok := a1 >= 2 * f + 1 && a2 >= f + 1;
    }
    CountAll(cons, rest);
    CountAll(supp, rest);
  }

  /** Decides what a new view does with `sn`, examining the VIEWCHANGEs in arbitrary order. */
  method Choose(f: nat, vset: map<int, ViewChange>, sn: int) returns (choice: Option<Choice>)
    ensures choice.Some? ==> Allowed(f, vset, sn, choice.value)
    ensures choice.None? ==> forall ch: Choice :: !Allowed(f, vset, sn, ch)
  {
    ghost var unprepared := UnpreparedAt(vset, sn);
    var notInP, rest := 0, vset.Keys;
    CountAll(unprepared, rest);
    while rest != {}
      invariant rest <= vset.Keys && notInP == |unprepared - rest| && notInP < 2 * f + 1
      invariant RuledOut(f, vset, sn, vset.Keys - rest)
      decreases |rest|
    {
      var s := Pick(rest);
      CountOne(unprepared, rest, s);
      rest := rest - {s};
      if sn !in vset[s].pset {
        if vset[s].h < sn {
          notInP := notInP + 1;
        }
        if notInP >= 2 * f + 1 {
          CountAll(unprepared, rest);
          return Some(Abort);
        }
      } else {
        var ok := CheckA(f, vset, sn, vset[s].pset[sn]);
        if ok {
          return Some(Reuse(vset[s].pset[sn]));
        }
      }
    }
    CountAll(unprepared, rest);
    NothingAllowed(f, vset, sn);
    return None;
  }

  /** The P entries of these senders do not meet A1 and A2. */
  ghost predicate RuledOut(f: nat, vset: map<int, ViewChange>, sn: int, senders: set<int>) {
    forall s :: s in senders && s in vset && sn in vset[s].pset ==> !CondAAt(f, vset, sn, vset[s].pset[sn])
  }

  lemma NothingAllowed(f: nat, vset: map<int, ViewChange>, sn: int)
    requires RuledOut(f, vset, sn, vset.Keys) && !CondBAt(f, vset, sn)
    ensures forall ch: Choice :: !Allowed(f, vset, sn, ch)
  {
  }

  /** The sender's stable point is the highest of all, and a weak quorum holds it. */
  ghost predicate HighestHeld(f: nat, vset: map<int, ViewChange>, s: int)
    requires s in vset
  {
    -1 <= vset[s].h && |Holders(vset, vset[s].h)| >= f + 1 && forall t :: t in vset ==> vset[t].h <= vset[s].h
  }

  /** Searches the VIEWCHANGEs for the highest stable point that a weak quorum holds. A later stable point of another
      sender ends the count for this one, so the result depends on the order, unless a weak quorum holds the highest
      one, which is then found. */
  method FindCheckpoint(f: nat, vset: map<int, ViewChange>) returns (h: int)
    ensures CheckpointPossible(f, vset, h) && (h == -1 || exists s :: s in vset && vset[s].h == h)
    ensures forall s :: s in vset && HighestHeld(f, vset, s) ==> h == vset[s].h
  {
    h := -1;
    var rest := vset.Keys;
    while rest != {}
      invariant rest <= vset.Keys && CheckpointPossible(f, vset, h)
      invariant h == -1 || exists s :: s in vset && vset[s].h == h
      invariant forall s :: s in vset && s !in rest && HighestHeld(f, vset, s) ==> h >= vset[s].h
      decreases rest
    {
      var s := Pick(rest);
      rest := rest - {s};
      var n := vset[s].h;
      var found := CountHolders(vset, n);
      if found >= f + 1 && n >= h {
        h := n;
      }
    }
  }

  method CountHolders(vset: map<int, ViewChange>, n: int) returns (found: nat)
    ensures found <= |Holders(vset, n)|
    ensures (forall s :: s in vset ==> vset[s].h <= n) ==> found == |Holders(vset, n)|
  {
    found := 0;
    var rest := vset.Keys;
    CountAll(Holders(vset, n), rest);
    while rest != {}
      invariant rest <= vset.Keys && found == |Holders(vset, n) - rest|
      decreases rest
    {
      var s := Pick(rest);
      if vset[s].h > n {
        break;
      }
      CountOne(Holders(vset, n), rest, s);
      rest := rest - {s};
      if n in vset[s].cset {
        found := found + 1;
      }
    }
    CountAll(Holders(vset, n), rest);
  }

  /** Validates the proposals of a NEWVIEW. Success comes with the choices that justify it; failure
      means that for some slot no choice is allowed, or one is that the NEWVIEW does not match. In one
      case of failure the peer does not leave its view. */
  method Validate(c: Config, nv: NewView, sender: int) returns (ok: bool, leave: bool, choices: map<int, Choice>)
    ensures ok ==> forall sn :: sn in c.sns && sn > nv.checkpoint ==>
              && sn in choices && XsetOk(c.F(), nv, sn, choices[sn])
              && nv.xset[sn].sn == sn && nv.xset[sn].view == nv.view && nv.xset[sn].leader == sender
    ensures !ok ==> exists sn :: sn in c.sns && sn > nv.checkpoint && Rejected(c.F(), nv, sn, sender)
    ensures !ok && !leave ==> exists sn :: sn in c.sns && sn > nv.checkpoint && Unflagged(c.F(), nv, sn)
  {
    choices, leave := map[], true;
    var rest := c.sns;
    while rest != {}
      invariant rest <= c.sns
      invariant forall sn :: sn in c.sns && sn !in rest && sn > nv.checkpoint ==>
                  && sn in choices && XsetOk(c.F(), nv, sn, choices[sn])
                  && nv.xset[sn].sn == sn && nv.xset[sn].view == nv.view && nv.xset[sn].leader == sender
      decreases |rest|
    {
      var sn := Pick(rest);
      rest := rest - {sn};
      if sn > nv.checkpoint {
        var choice := Choose(c.F(), nv.vset, sn);
        if choice.None? || !XsetOk(c.F(), nv, sn, choice.value) || nv.xset[sn].sn != sn
           || nv.xset[sn].view != nv.view || nv.xset[sn].leader != sender {
          assert Rejected(c.F(), nv, sn, sender);
          leave := !(choice == Some(Abort) && sn in nv.xset
                     && nv.xset[sn].digest == Abort.Digest() && !nv.xset[sn].aborted);
          assert !leave ==> Unflagged(c.F(), nv, sn);
          return false, leave, choices;
        }
        choices := choices[sn := choice.value];
      }
    }
    ok := true;
  }

  // ---------- The instance ----------

  /** Proposals for every sequence number, or the reason why there are none yet. */
  method ChooseAll(c: Config, vset: map<int, ViewChange>) returns (choices: Option<map<int, Choice>>)
    ensures choices.Some? ==>
              choices.value.Keys == c.sns && forall sn :: sn in c.sns ==> Allowed(c.F(), vset, sn, choices.value[sn])
    ensures choices.None? ==> exists sn :: sn in c.sns && forall ch: Choice :: !Allowed(c.F(), vset, sn, ch)
  {
    var found: map<int, Choice> := map[];
    var rest := c.sns;
    while rest != {}
      invariant rest <= c.sns && found.Keys == c.sns - rest
      invariant forall sn :: sn in found ==> Allowed(c.F(), vset, sn, found[sn])
      decreases |rest|
    {
      var sn := Pick(rest);
      var choice := Choose(c.F(), vset, sn);
      if choice.None? {
        return None;
      }
      rest := rest - {sn};
      found := found[sn := choice.value];
    }
    return Some(found);
  }

  /** Turns choices into the batches to propose, looking up old batches. */
  method ReproposeAll(c: Config, ps: Peer, u: nat, choices: map<int, Choice>)
    returns (rps: map<int, Reproposal>, missing: bool)
    requires choices.Keys == c.sns
    ensures rps == map sn | sn in c.sns :: Repropose(ps, u, sn, choices[sn])
    ensures missing <==> exists sn :: sn in c.sns && rps[sn].pp.None?
  {
    rps, missing := map[], false;
    var rest := c.sns;
    while rest != {}
      invariant rest <= c.sns && rps.Keys == c.sns - rest
      invariant forall sn :: sn in rps ==> rps[sn] == Repropose(ps, u, sn, choices[sn])
      invariant missing <==> exists sn :: sn in rps && rps[sn].pp.None?
      decreases |rest|
    {
      var sn := Pick(rest);
      rest := rest - {sn};
      var rp: Reproposal;
      match choices[sn] {
        case Abort =>
          rp := Reproposal(Some(Preprepare(sn, u, ps.id, EMPTY, true)), EMPTY, false);
        case Reuse(e) =>
          var found := FindProposal(ps.slots, sn, u);
          if found.Some? && found.value.digest == Some(e.digest) {
            rp := Reproposal(Some(Preprepare(sn, u, ps.id, e.digest, false)), e.digest, found.value.committed);
          } else {
            rp, missing := Reproposal(None, e.digest, false), true;
          }
      }
      ghost var rps0 := rps;
      rps := rps[sn := rp];
      assert forall k :: k in rps0 ==> k in rps && rps[k] == rps0[k];
      assert rps[sn] == rp;
    }
  }

  /** What examining the VIEWCHANGEs for view `u` may lead to: nothing as long as some slot has no
      allowed choice, a view set up with batches still missing, a NEWVIEW, or one that comes too late to be sent. */
  ghost predicate Settles(c: Config, ps: Peer, u: nat, o: Outcome) {
    || (o == Outcome(ps, {}) && forall choices: map<int, Choice> :: !CanBuild(c, ps, u, choices))
    || (exists choices: map<int, Choice> ::
          CanBuild(c, ps, u, choices) && Built(c, BuildNewView(c, ps, u, choices).peer, o))
  }

  /** What follows when a view has been set up. */
  ghost predicate Built(c: Config, b: Peer, o: Outcome) {
    if CanAnnounce(c, b) then o == SendNewView(c, b) || o == DropNewView(b) else o == Outcome(b, {})
  }

  lemma SetSlotSound(c: Config, ps: Peer, sn: int, sl: Slot)
    requires Runnable(c, ps) && ps.Here(sn) in ps.slots && SlotOk(sl)
    ensures Runnable(c, SetSlot(ps, sn, sl))
  {
  }

  lemma AdvanceOk(c: Config, id: int, sl: Slot, release: bool)
    requires SlotOk(sl)
    ensures SlotOk(TryCommit(c, TryPrepare(c, id, sl), release))
  {
  }

  lemma FinishParts(c: Config, ps: Peer, sn: int, sl: Slot, release: bool, sl': Slot, sendCommit: bool)
    returns (o: Outcome)
    requires Runnable(c, ps) && ps.Here(sn) in ps.slots && SlotOk(sl)
    requires sl' == TryCommit(c, TryPrepare(c, ps.id, sl), release)
    requires sendCommit <==> TryPrepare(c, ps.id, sl).prepared && !sl.prepared
    ensures sendCommit ==> sl.digest.Some?
    ensures Runnable(c, SetSlot(ps, sn, sl'))
    ensures o == Finish(c, ps, sn, sl, release, {}) && o.peer == SetSlot(ps, sn, sl')
    ensures o.sent == if sendCommit then {CommitMsg(ps.id, sn, ps.view, sl.digest.value)} else {}
  {
    o := Finish(c, ps, sn, sl, release, {});
    AdvanceOk(c, ps.id, sl, release);
    SetSlotSound(c, ps, sn, sl');
  }

  /** What becomes of a NEWVIEW that is ready, depending on whether the timer that waits for it has fired. */
  ghost function Announced(c: Config, ps: Peer, fired: bool): Outcome
    requires CanAnnounce(c, ps)
  {
    if fired then DropNewView(ps) else SendNewView(c, ps)
  }

  /** What becomes of a NEWVIEW that is received. */
  datatype Verdict = Ignored | Refused | Left | Late | Accepted | Stopped

  class Instance {
    const c: Config
    const id: int
    var view: nat
    var inViewChange: bool
    var batches: map<Loc, Slot>
    var viewChange: map<nat, Info>
    /** Messages handed to the messenger. */
    var outbox: set<Msg>

    ghost function State(): Peer
      reads this
    {
      Peer(id, view, inViewChange, batches, viewChange)
    }

    ghost predicate Valid()
      reads this
    {
      Runnable(c, State())
    }

    constructor (c: Config, id: int)
      requires c.Valid()
      ensures this.c == c && this.id == id && State() == InitPeer(c, id) && outbox == {} && Valid()
    {
      this.c, this.id := c, id;
      view, inViewChange, viewChange, outbox := 0, false, map[], {};
      batches := map sn | sn in c.sns :: Loc(0, sn) := FRESH;
    }

    method HandlePrepare(sender: int, sn: int, v: nat, d: Digest, release: bool)
      requires Valid()
      modifies this
      ensures Valid()
      ensures State() == OnPrepare(c, old(State()), sender, sn, v, d, release).peer
      ensures outbox == old(outbox) + OnPrepare(c, old(State()), sender, sn, v, d, release).sent
    {
      if view > v || view < v || inViewChange || Loc(view, sn) !in batches {
        return;
      }
      var sl := batches[Loc(view, sn)];
      if sender in sl.prepares {
        return;
      }
      Progress(sn, sl.(prepares := sl.prepares[sender := d]), release);
    }

    /** Stores the slot after the common tail of the handlers. */
    method Progress(sn: int, sl: Slot, release: bool)
      requires Valid() && Loc(view, sn) in batches
      requires SlotOk(sl)
      modifies this
      ensures Valid()
      ensures State() == Finish(c, old(State()), sn, sl, release, {}).peer
      ensures outbox == old(outbox) + Finish(c, old(State()), sn, sl, release, {}).sent
    {
      var sl', sendCommit := Advance(c, id, sl, release);
      ghost var ps := State();
      ghost var o := FinishParts(c, ps, sn, sl, release, sl', sendCommit);
      assert outbox + {} == outbox;
      if sendCommit {
        outbox := outbox + {CommitMsg(id, sn, view, sl.digest.value)};
      }
      assert outbox == old(outbox) + o.sent;
      Store(sn, sl');
    }

    method Store(sn: int, sl: Slot)
      requires Loc(view, sn) in batches && Runnable(c, SetSlot(State(), sn, sl))
      modifies this`batches
      ensures Valid() && State() == SetSlot(old(State()), sn, sl)
    {
      batches := batches[Loc(view, sn) := sl];
    }

    method HandleCommit(sender: int, sn: int, v: nat, d: Digest, release: bool)
      requires Valid()
      modifies this
      ensures Valid()
      ensures State() == OnCommit(c, old(State()), sender, sn, v, d, release).peer && outbox == old(outbox)
    {
      if view > v || view < v || inViewChange || Loc(view, sn) !in batches {
        return;
      }
      var sl := batches[Loc(view, sn)];
      if sender in sl.commits {
        return;
      }
      sl := sl.(commits := sl.commits[sender := Some(d)]);
      if !sl.committed {
        var counted, enough := CheckCommits(c, sl);
        sl := if enough && release then counted.(committed := true) else counted;
      }
      SetSlotSound(c, State(), sn, sl);
      Store(sn, sl);
    }

    /** Initialises the slots of view `u`, carrying over decisions. Entering view 0 again, or an older
        view, stops the program. */
    method StartView(u: nat)
      requires Valid() && view <= u && (view == u ==> view > 0)
      modifies this
      ensures Valid()
      ensures State() == PbftPeer.StartView(c, old(State()), u) && outbox == old(outbox)
    {
      if view != 0 && view == u {
        return;
      }
      StartViewSound(c, State(), u);
      var news := CarryAll(c, Peer(id, view, inViewChange, batches, viewChange), u);
      batches := batches + news;
      view := u;
    }

    /** Enters a view change to view `u`. */
    method EnterView(u: nat)
      requires Valid() && view <= u && 0 < u
      modifies this
      ensures Valid()
      ensures State() == Entered(c, old(State()), u) && outbox == old(outbox)
    {
      SoundSame(c, State(), State().(inViewChange := true));
      inViewChange := true;
      StartView(u);
    }

    /** Records `vc` if this peer leads the new view, and sends it. */
    method SendReport(vc: ViewChange)
      requires Valid()
      modifies this
      ensures Valid()
      ensures State() == Report(c, old(State()), vc).peer && outbox == old(outbox) + Report(c, old(State()), vc).sent
    {
      SoundSame(c, State(), Report(c, State(), vc).peer);
      var info := if view in viewChange then viewChange[view] else NO_INFO;
      if c.Leader(view) == id {
        info := info.(s := info.s[id := vc]);
      }
      viewChange := viewChange[view := info];
      outbox := outbox + {ViewChangeMsg(id, vc)};
    }

    /** Leaves the current view and sends what has been prepared in it and before. */
    method LeaveView()
      requires Valid()
      modifies this
      ensures Valid()
      ensures State() == PbftPeer.SendViewChange(c, old(State())).peer
      ensures outbox == old(outbox) + PbftPeer.SendViewChange(c, old(State())).sent
    {
      ghost var ps := State();
      EnterView(Following(view));
      ghost var ps1 := State();
      var pset, qset := CollectSets(c, batches, view);
      var vc := ViewChange(view, -1, [-1], pset, qset);
      SendReport(vc);
      ghost var o := SendViewChangeParts(c, ps, ps1, vc);
    }

    /** Leaves the current view and, if this peer leads the next one, tries to set it up. */
    method SendViewChange(fired: bool)
      requires Valid()
      modifies this
      ensures Valid()
      ensures Ends(c, PbftPeer.SendViewChange(c, old(State())), State(), old(outbox), outbox)
    {
      ghost var o := PbftPeer.SendViewChange(c, State());
      LeaveView();
      if c.Leader(view) == id && view > 0 {
        MaybeSendNewView(view, fired);
        EndsSettled(c, o, o.peer.view, State(), old(outbox), outbox);
      }
    }

    /** Handles a proposal. Checking its requests is left to the environment: `adm` says how that went. */
    method HandlePreprepare(sender: int, sn: int, pp: Preprepare, adm: Admission, release: bool, fired: bool)
      requires Valid()
      modifies this
      ensures Valid()
      ensures Ends(c, OnPreprepare(c, old(State()), sender, sn, pp, adm, release), State(), old(outbox), outbox)
    {
      assert outbox + {} == outbox;
      if sn != pp.sn {
        return;
      }
      if sender != pp.leader || c.Leader(pp.view) != pp.leader {
        SendViewChange(fired);
        return;
      }
      if view > pp.view || view < pp.view || inViewChange || Loc(view, sn) !in batches {
        return;
      }
      var sl := batches[Loc(view, sn)];
      if sl.committed {
        return;
      }
      if sl.pp.Some? || adm.Suspect? {
        SendViewChange(fired);
        return;
      }
      if adm.Ignore? {
        return;
      }
      AcceptProposal(sn, pp, release);
    }

    method AcceptProposal(sn: int, pp: Preprepare, release: bool)
      requires Valid() && Loc(view, sn) in batches
      modifies this
      ensures Valid()
      ensures var o := Finish(c, old(State()), sn, AcceptedSlot(id, old(batches)[Loc(old(view), sn)], pp), release,
                              {PrepareMsg(id, sn, old(view), pp.digest)});
              State() == o.peer && outbox == old(outbox) + o.sent
    {
      outbox := outbox + {PrepareMsg(id, sn, view, pp.digest)};
      Progress(sn, AcceptedSlot(id, batches[Loc(view, sn)], pp), release);
    }

    /** Handles a NEWVIEW; `h` is the stable point the VIEWCHANGEs show. Entering view 0 again, which is what
        accepting a NEWVIEW for it would take, stops the program. */
    method HandleNewView(sender: int, nv: NewView, fired: bool) returns (verdict: Verdict, h: int)
      requires Valid()
      modifies this
      ensures Valid() && CheckpointPossible(c.F(), nv.vset, h)
      ensures verdict.Accepted? ==> exists choices: map<int, Choice> ::
                && CanAccept(c, old(State()), sender, nv, choices)
                && State() == AcceptNewView(c, old(State()), sender, nv, choices).peer
                && outbox == old(outbox) + AcceptNewView(c, old(State()), sender, nv, choices).sent
      ensures verdict.Ignored? || verdict.Refused? || verdict.Late? || verdict.Stopped? ==>
                State() == old(State()) && outbox == old(outbox)
      ensures verdict.Ignored? <==>
                || InfoFor(old(State()), nv.view).accepted || nv.view < old(view)
                || (exists s :: s in nv.vset && nv.vset[s].view < nv.view)
      ensures verdict.Refused? ==> exists sn :: sn in c.sns && sn > nv.checkpoint && Unflagged(c.F(), nv, sn)
      ensures verdict.Left? ==>
                && Ends(c, PbftPeer.SendViewChange(c, old(State())), State(), old(outbox), outbox)
                && (h != nv.checkpoint ||
                    exists sn :: sn in c.sns && sn > nv.checkpoint && Rejected(c.F(), nv, sn, sender))
      ensures verdict.Late? ==> fired
      ensures verdict.Stopped? ==> nv.view == 0
    {
      h := -1;
      if (nv.view in viewChange && viewChange[nv.view].accepted) || nv.view < view
         || (exists s :: s in nv.vset && nv.vset[s].view < nv.view) {
        return Ignored, h;
      }
      h := FindCheckpoint(c.F(), nv.vset);
      if h != nv.checkpoint {
        SendViewChange(fired);
        return Left, h;
      }
      var ok, leave, choices := Validate(c, nv, sender);
      if !ok {
        if leave {
          SendViewChange(fired);
          return Left, h;
        }
        return Refused, h;
      }
      if fired {
        return Late, h;
      }
      if nv.view == 0 {
        return Stopped, h;
      }
      assert CanAccept(c, State(), sender, nv, choices);
      Install(sender, nv, choices);
      return Accepted, h;
    }

    method Install(sender: int, nv: NewView, ghost choices: map<int, Choice>)
      requires Valid() && CanAccept(c, State(), sender, nv, choices)
      modifies this
      ensures Valid()
      ensures State() == AcceptNewView(c, old(State()), sender, nv, choices).peer
      ensures outbox == old(outbox) + AcceptNewView(c, old(State()), sender, nv, choices).sent
    {
      ghost var ps := State();
      StartView(nv.view);
      ghost var ps1 := State();
      TakeOver(nv);
      InstallParts(c, ps, sender, nv, choices, ps1);
    }

    /** Takes over the proposals of a NEWVIEW for the current view. */
    method TakeOver(nv: NewView)
      requires Valid() && view == nv.view && forall sn :: sn in c.sns && sn > nv.checkpoint ==> sn in nv.xset
      modifies this
      ensures Valid()
      ensures var slots := InstalledSlots(c, old(State()), nv);
              && State() == old(State()).(inViewChange := false, slots := slots,
                              changes := old(viewChange)[nv.view := InfoFor(old(State()), nv.view).(accepted := true)])
              && outbox == old(outbox) + PreparesFor(c, id, nv, slots)
    {
      ghost var ps := State();
      InstalledSound(c, ps, nv);
      batches := InstallAll(c, Peer(id, view, inViewChange, batches, viewChange), nv);
      outbox := outbox + PreparesFor(c, id, nv, batches);
      Conclude();
    }

    /** The NEWVIEW of the current view counts as accepted, and work in the view begins. */
    method Conclude()
      requires Valid()
      modifies this`viewChange, this`inViewChange
      ensures Valid()
      ensures State() == old(State()).(inViewChange := false,
                           changes := old(viewChange)[view := InfoFor(old(State()), view).(accepted := true)])
    {
      ghost var ps := State();
      var info := if view in viewChange then viewChange[view] else NO_INFO;
      viewChange := viewChange[view := info.(accepted := true)];
      inViewChange := false;
      SoundSame(c, ps, State());
    }

    method HandleViewChange(sender: int, vc: ViewChange, fired: bool)
      requires Valid()
      modifies this
      ensures Valid()
      ensures Ends(c, OnViewChange(old(State()), sender, vc), State(), old(outbox), outbox)
    {
      assert outbox + {} == outbox;
      if vc.view < view {
        return;
      }
      var info := if vc.view in viewChange then viewChange[vc.view] else NO_INFO;
      viewChange := viewChange[vc.view := info];
      if info.enough || sender in info.s {
        return;
      }
      viewChange := viewChange[vc.view := info.(s := info.s[sender := vc])];
      ghost var o, out := OnViewChange(old(State()), sender, vc), outbox;
      assert State() == o.peer && outbox == out + o.sent;
      if c.Leader(vc.view) == id && vc.view > 0 {
        MaybeSendNewView(vc.view, fired);
        EndsSettled(c, o, vc.view, State(), out, outbox);
      }
    }

    /** Sets up view `u` if the VIEWCHANGEs collected so far allow it. */
    method MaybeSendNewView(u: nat, fired: bool)
      requires Valid() && view <= u && 0 < u && c.Leader(u) == id
      modifies this
      ensures Valid()
      ensures exists o :: Settles(c, old(State()), u, o) && State() == o.peer && outbox == old(outbox) + o.sent
    {
      ghost var ps := State();
      assert outbox + {} == outbox;
      if u !in viewChange || viewChange[u].accepted || viewChange[u].enough || |viewChange[u].s| < 2 * c.F() + 1 {
        assert Settles(c, ps, u, Outcome(ps, {}));
        return;
      }
      var choices := ChooseAll(c, viewChange[u].s);
      if choices.None? {
        assert Settles(c, ps, u, Outcome(ps, {}));
        return;
      }
      SetUp(u, choices.value, fired);
    }

    /** Sets up view `u` with these choices and, if no batch is missing, announces it. */
    method SetUp(u: nat, choices: map<int, Choice>, fired: bool)
      requires Valid() && CanBuild(c, State(), u, choices)
      modifies this
      ensures Valid()
      ensures exists o :: Settles(c, old(State()), u, o) && State() == o.peer && outbox == old(outbox) + o.sent
    {
      ghost var ps := State();
      assert outbox + {} == outbox;
      var rps, missing := ReproposeAll(c, Peer(id, view, inViewChange, batches, viewChange), u, choices);
      Build(u, choices, rps);
      BuiltAnnounces(c, ps, u, choices, State());
      SettlesBuilt(c, ps, u, choices);
      if !missing {
        SendNewView(fired);
      }
    }

    /** Enters view `u` with the batches `rps` to propose. */
    method Build(u: nat, ghost choices: map<int, Choice>, rps: map<int, Reproposal>)
      requires Valid() && CanBuild(c, State(), u, choices)
      requires rps == map sn | sn in c.sns :: Repropose(State(), u, sn, choices[sn])
      modifies this
      ensures Valid()
      ensures State() == BuildNewView(c, old(State()), u, choices).peer && outbox == old(outbox)
    {
      ghost var ps := State();
      var info := viewChange[u].(enough := true, repropose := rps);
      EnterView(u);
      ghost var ps1 := State();
      viewChange := viewChange[u := info];
      SoundSame(c, ps1, State());
      BuildParts(c, ps, u, choices, rps, ps1);
    }

    /** Answers a request for the proposal of `sn` in view `v`, if there is one. */
    method HandleMissingPreprepareRequest(sn: int, v: nat)
      requires Valid()
      modifies this`outbox
      ensures Valid()
      ensures outbox == old(outbox) + OnMissingRequest(old(State()), Loc(v, sn)).sent
    {
      assert outbox + {} == outbox;
      if Loc(v, sn) in batches && batches[Loc(v, sn)].pp.Some? {
        outbox := outbox + {MissingPreprepareMsg(id, sn, batches[Loc(v, sn)].pp.value)};
      }
    }

    /** Takes over a batch that was missing and, if it was the last one, sends NEWVIEW. */
    method HandleMissingPreprepare(sn: int, pp: Preprepare, fired: bool)
      requires Valid()
      modifies this
      ensures Valid()
      ensures var ps := OnMissingPreprepare(old(State()), sn, pp).peer;
              if Fits(old(State()), sn, pp) && CanAnnounce(c, ps)
              then State() == Announced(c, ps, fired).peer && outbox == old(outbox) + Announced(c, ps, fired).sent
              else State() == ps && outbox == old(outbox)
    {
      if !inViewChange || view !in viewChange || !viewChange[view].enough || viewChange[view].accepted {
        return;
      }
      var info := viewChange[view];
      var waiting := AnyMissing(info.repropose);
      if !waiting || sn !in info.repropose || info.repropose[sn].digest != pp.digest {
        return;
      }
      ghost var ps := State();
      var fetched := Preprepare(sn, view, id, pp.digest, pp.aborted);
      info := info.(repropose := info.repropose[sn := info.repropose[sn].(pp := Some(fetched))]);
      viewChange := viewChange[view := info];
      SoundSame(c, ps, State());
      assert Fits(ps, sn, pp) && State() == OnMissingPreprepare(ps, sn, pp).peer;
      var missing := AnyMissing(info.repropose);
      if !missing {
        SendNewView(fired);
      }
    }

    /** Sends NEWVIEW and starts working in the view, unless the timer that waits for it has fired. */
    method SendNewView(fired: bool)
      requires Valid() && CanAnnounce(c, State())
      modifies this
      ensures Valid()
      ensures State() == Announced(c, old(State()), fired).peer
      ensures outbox == old(outbox) + Announced(c, old(State()), fired).sent
    {
      if fired {
        assert outbox + {} == outbox;
        viewChange := viewChange[view := viewChange[view].(accepted := true)];
      } else {
        Announce();
      }
    }

    method Announce()
      requires Valid() && CanAnnounce(c, State())
      modifies this
      ensures Valid()
      ensures State() == PbftPeer.SendNewView(c, old(State())).peer
      ensures outbox == old(outbox) + PbftPeer.SendNewView(c, old(State())).sent
    {
      SendNewViewSound(c, State());
      var info := viewChange[view];
      var xset := map sn | sn in c.sns :: info.repropose[sn].pp.value;
      outbox := outbox + {NewViewMsg(id, NewView(view, info.s, xset, -1))};
      batches := map l | l in batches ::
        if l.view == view then ReproposedSlot(batches[l], info.repropose[l.sn]) else batches[l];
      viewChange := viewChange[view := info.(accepted := true)];
      inViewChange := false;
    }
  }

  method AnyMissing(rps: map<int, Reproposal>) returns (missing: bool)
    ensures missing <==> Incomplete(rps)
  {
    var rest := rps.Keys;
    while rest != {}
      invariant rest <= rps.Keys && forall sn :: sn in rps && sn !in rest ==> rps[sn].pp.Some?
      decreases rest
    {
      var sn := Pick(rest);
      if rps[sn].pp.None? {
        return true;
      }
      rest := rest - {sn};
    }
    return false;
  }

  lemma InstalledSound(c: Config, ps: Peer, nv: NewView)
    requires Runnable(c, ps) && ps.view == nv.view && forall sn :: sn in c.sns && sn > nv.checkpoint ==> sn in nv.xset
    ensures Runnable(c, ps.(slots := InstalledSlots(c, ps, nv)))
  {
  }

  lemma InstallParts(c: Config, ps: Peer, sender: int, nv: NewView, choices: map<int, Choice>, ps1: Peer)
    requires CanAccept(c, ps, sender, nv, choices) && Runnable(c, ps) && Runnable(c, ps1)
    requires ps1 == PbftPeer.StartView(c, ps, nv.view)
    ensures var slots := InstalledSlots(c, ps1, nv);
            AcceptNewView(c, ps, sender, nv, choices) ==
            Outcome(ps1.(inViewChange := false, slots := slots,
                         changes := ps.changes[nv.view := InfoFor(ps, nv.view).(accepted := true)]),
                    PreparesFor(c, ps.id, nv, slots))
  {
  }

  /** Takes over the proposals of a NEWVIEW one by one. */
  method InstallAll(c: Config, ps: Peer, nv: NewView) returns (slots: map<Loc, Slot>)
    requires Shape(c, ps) && DecidedDigested(ps) && ps.view == nv.view
    requires forall sn :: sn in c.sns && sn > nv.checkpoint ==> sn in nv.xset
    ensures slots == InstalledSlots(c, ps, nv)
  {
    slots := ps.slots;
    var rest := c.sns;
    while rest != {}
      invariant rest <= c.sns
      invariant InstalledBut(c, ps, nv, slots, rest)
      decreases |rest|
    {
      var sn := Pick(rest);
      ghost var was := slots;
      if sn > nv.checkpoint {
        var l := ps.Here(sn);
        slots := slots[l := InstalledSlot(c, ps, nv.view, ps.slots[l], nv.xset[sn])];
      }
      InstalledNext(c, ps, nv, was, slots, rest, sn);
      rest := rest - {sn};
    }
    assert slots == InstalledSlots(c, ps, nv);
  }

  /** The proposals for all slots but those of `rest` have been taken over. */
  ghost predicate InstalledBut(c: Config, ps: Peer, nv: NewView, slots: map<Loc, Slot>, rest: set<int>)
    requires Shape(c, ps) && DecidedDigested(ps) && forall sn :: sn in c.sns && sn > nv.checkpoint ==> sn in nv.xset
  {
    && slots.Keys == ps.slots.Keys
    && forall l :: l in ps.slots ==> slots[l] == if l.sn in rest then ps.slots[l] else InstalledAt(c, ps, nv, l)
  }

  lemma InstalledNext(c: Config, ps: Peer, nv: NewView, was: map<Loc, Slot>, slots: map<Loc, Slot>, rest: set<int>,
                      sn: int)
    requires Shape(c, ps) && DecidedDigested(ps) && ps.view == nv.view && sn in rest && rest <= c.sns
    requires forall k :: k in c.sns && k > nv.checkpoint ==> k in nv.xset
    requires InstalledBut(c, ps, nv, was, rest)
    requires var l := ps.Here(sn);
             slots == if sn <= nv.checkpoint then was
                      else was[l := InstalledSlot(c, ps, nv.view, ps.slots[l], nv.xset[sn])]
    ensures InstalledBut(c, ps, nv, slots, rest - {sn})
  {
    forall l | l in ps.slots
      ensures slots[l] == if l.sn in rest - {sn} then ps.slots[l] else InstalledAt(c, ps, nv, l)
    {
    }
  }

  lemma SoundSame(c: Config, ps: Peer, ps': Peer)
    requires Runnable(c, ps) && ps'.slots == ps.slots && ps'.view == ps.view && ChangesOk(c, ps')
    ensures Runnable(c, ps')
  {
  }

  lemma BuildParts(c: Config, ps: Peer, u: nat, choices: map<int, Choice>, rps: map<int, Reproposal>, ps1: Peer)
    requires CanBuild(c, ps, u, choices) && rps == map sn | sn in c.sns :: Repropose(ps, u, sn, choices[sn])
    requires ps1 == Entered(c, ps, u)
    ensures BuildNewView(c, ps, u, choices).peer ==
            ps1.(changes := ps.changes[u := ps.changes[u].(enough := true, repropose := rps)])
  {
  }

  lemma ReportParts(c: Config, ps: Peer, vc: ViewChange)
    requires |c.leaders| > 0
    requires vc == ViewChange(ps.view, -1, [-1], PsetAt(c, ps.slots, ps.view), QsetAt(c, ps.slots, ps.view))
    ensures ReportOwn(c, ps) == Report(c, ps, vc)
  {
  }

  lemma SendViewChangeParts(c: Config, ps: Peer, ps1: Peer, vc: ViewChange) returns (o: Outcome)
    requires Shape(c, ps) && ps1 == Entered(c, ps, Following(ps.view))
    requires vc == ViewChange(ps1.view, -1, [-1], PsetAt(c, ps1.slots, ps1.view), QsetAt(c, ps1.slots, ps1.view))
    ensures o == PbftPeer.SendViewChange(c, ps) && o == Report(c, ps1, vc)
  {
    ReportParts(c, ps1, vc);
    o := PbftPeer.SendViewChange(c, ps);
  }

  lemma EndsSettled(c: Config, o: Outcome, u: nat, ps: Peer, out: set<Msg>, out': set<Msg>)
    requires exists o2 :: Settles(c, o.peer, u, o2) && ps == o2.peer && out' == out + o.sent + o2.sent
    ensures Ends(c, o, ps, out, out')
  {
  }

  lemma BuiltAnnounces(c: Config, ps: Peer, u: nat, choices: map<int, Choice>, built: Peer)
    requires CanBuild(c, ps, u, choices) && built == BuildNewView(c, ps, u, choices).peer && Shape(c, built)
    ensures CanAnnounce(c, built) <==> forall sn :: sn in c.sns ==> Repropose(ps, u, sn, choices[sn]).pp.Some?
  {
    assert forall sn :: sn in c.sns ==> built.changes[u].repropose[sn] == Repropose(ps, u, sn, choices[sn]);
  }

  lemma SettlesBuilt(c: Config, ps: Peer, u: nat, choices: map<int, Choice>)
    requires CanBuild(c, ps, u, choices)
    ensures var b := BuildNewView(c, ps, u, choices).peer;
            if CanAnnounce(c, b) then Settles(c, ps, u, PbftPeer.SendNewView(c, b)) && Settles(c, ps, u, DropNewView(b))
            else Settles(c, ps, u, Outcome(b, {}))
  {
  }

  /** The slots of a new view, filled one sequence number at a time. */
  method CarryAll(c: Config, ps: Peer, u: nat) returns (news: map<Loc, Slot>)
    requires forall sn :: sn in c.sns ==> ps.Here(sn) in ps.slots
    ensures news == CarriedSlots(ps, u, c.sns)
  {
    news := map[];
    var rest := c.sns;
    assert news == CarriedSlots(ps, u, {});
    assert c.sns - rest == {};
    while rest != {}
      invariant rest <= c.sns && news == CarriedSlots(ps, u, c.sns - rest)
      decreases |rest|
    {
      var sn := Pick(rest);
      ghost var done := c.sns - rest;
      rest := rest - {sn};
      assert c.sns - rest == done + {sn};
      var sl, last := FRESH, ps.slots[ps.Here(sn)];
      if last.committed {
        sl := sl.(committed := true, digest := last.digest);
      }
      CarryOne(ps, u, done, sn);
      news := news[Loc(u, sn) := sl];
    }
    assert c.sns - rest == c.sns;
  }

  lemma CarryOne(ps: Peer, u: nat, done: set<int>, sn: int)
    requires ps.Here(sn) in ps.slots && forall k :: k in done ==> ps.Here(k) in ps.slots
    ensures CarriedSlots(ps, u, done + {sn}) == CarriedSlots(ps, u, done)[Loc(u, sn) := Carry(ps.slots[ps.Here(sn)])]
  {
  }

  lemma StartViewSound(c: Config, ps: Peer, u: nat)
    requires Runnable(c, ps) && ps.view <= u
    ensures Runnable(c, PbftPeer.StartView(c, ps, u))
  {
    PbftProof.StartViewStarted(c, ps, u);
    StartedSound(c, ps, PbftPeer.StartView(c, ps, u), u);
  }

  lemma StartedSound(c: Config, ps: Peer, ps': Peer, u: nat)
    requires Runnable(c, ps) && PbftProof.Started(c, ps, ps', u) && ps'.changes == ps.changes
    ensures Runnable(c, ps')
  {
    forall l | l in ps'.slots
      ensures SlotOk(ps'.slots[l]) && l.view <= u && l.sn in c.sns
    {
      if l !in ps.slots {
        assert l == Loc(u, l.sn) && SlotOk(ps.slots[Loc(ps.view, l.sn)]);
      }
    }
    forall sn | sn in c.sns
      ensures ps'.Here(sn) in ps'.slots
    {
      assert ps.Here(sn) in ps.slots;
    }
  }

  lemma SendNewViewSound(c: Config, ps: Peer)
    requires Runnable(c, ps) && CanAnnounce(c, ps)
    ensures Runnable(c, PbftPeer.SendNewView(c, ps).peer)
  {
  }

  /** A handler leaves the instance as `o` says, possibly after going on to set up a new view. */
  ghost predicate Ends(c: Config, o: Outcome, ps: Peer, out: set<Msg>, out': set<Msg>) {
    || (ps == o.peer && out' == out + o.sent)
    || (exists u: nat, o2: Outcome :: Settles(c, o.peer, u, o2) && ps == o2.peer && out' == out + o.sent + o2.sent)
  }
}
