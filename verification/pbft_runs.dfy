/** The NEWVIEWs that correct leaders send in runs, and the handlers of the instance as steps of runs. */
module PbftRuns {
  import opened Collections
  import opened Quorums
  import opened Voting
  import opened PbftPeer
  import opened PbftSafety
  import opened PbftNewView
  import opened PbftInstance
  import PbftProof

  // ---------- What correct leaders prepare and send ----------

  /** Flags can get lost only while a batch is awaited, which is never so if all slots are abandoned. */
  ghost predicate AllAbandoned(choices: map<int, Choice>) {
    forall sn :: sn in choices ==> choices[sn].Abort?
  }

  ghost predicate Follows(c: Config, id: int, view: nat, info: Info, choices: map<int, Choice>) {
    Ready(c, id, view, info, choices) && (AllAbandoned(choices) ==> Flagged(info.repropose, choices))
  }

  ghost predicate CanBeReady(c: Config, id: int, view: nat, info: Info) {
    exists choices: map<int, Choice> :: Follows(c, id, view, info, choices)
  }

  ghost predicate Carries(c: Config, nv: NewView, leader: int, choices: map<int, Choice>) {
    BuiltFrom(c, nv, leader, choices) && (AllAbandoned(choices) ==> KeepsFlags(nv, choices))
  }

  ghost predicate CanBeBuilt(c: Config, nv: NewView, leader: int) {
    exists choices: map<int, Choice> :: Carries(c, nv, leader, choices)
  }

  ghost predicate LeaderInv(c: Config, id: int, ps: Peer) {
    Preparing(ps) ==>
      && |c.leaders| > 0 && c.Leader(ps.view) == id
      && CanBeReady(c, id, ps.view, ps.changes[ps.view])
  }

  /** What correct leaders send. */
  ghost predicate SentOk(c: Config, net: set<Msg>, leader: int, nv: NewView) {
    && |c.leaders| > 0 && c.Leader(nv.view) == leader
    && GenuineVset(c, net, nv.vset) && CanBeBuilt(c, nv, leader)
  }

  ghost predicate NewViewInv(c: Config, s: System) {
    && (forall p :: p in s.peers ==> LeaderInv(c, p, s.peers[p]))
    && (forall m :: m in s.net && m.sender in s.peers && m.NewViewMsg? ==> SentOk(c, s.net, m.sender, m.nv))
  }

  /** The step does not touch what a leader is preparing, and sends no NEWVIEW. */
  ghost predicate Uninvolved(ps: Peer, o: Outcome) {
    && (forall m :: m in o.sent ==> !m.NewViewMsg?)
    && (Preparing(o.peer) ==>
          Preparing(ps) && o.peer.view == ps.view && o.peer.changes[ps.view] == ps.changes[ps.view])
  }

  ghost predicate LeaderStep(c: Config, net: set<Msg>, id: int, o: Outcome) {
    LeaderInv(c, id, o.peer) && forall m :: m in o.sent && m.NewViewMsg? ==> m.sender == id && SentOk(c, net, id, m.nv)
  }

  lemma UninvolvedStep(c: Config, net: set<Msg>, id: int, ps: Peer, o: Outcome)
    requires LeaderInv(c, id, ps) && Uninvolved(ps, o)
    ensures LeaderStep(c, net, id, o)
  {
  }

  lemma BuildStep(c: Config, net: set<Msg>, id: int, ps: Peer, u: nat, choices: map<int, Choice>)
    requires CanBuild(c, ps, u, choices) && ps.id == id && ChangesInv(c, net, ps)
    ensures LeaderStep(c, net, id, BuildNewView(c, ps, u, choices))
  {
    BuildReady(c, ps, u, choices);
    var info := BuildNewView(c, ps, u, choices).peer.changes[u];
    assert Follows(c, id, u, info, choices);
  }

  /** A leader with nothing but abandoned slots awaits nothing, so nothing fits. */
  lemma NothingFits(c: Config, ps: Peer, sn: int, pp: Preprepare, choices: map<int, Choice>)
    requires ps.view in ps.changes && Ready(c, ps.id, ps.view, ps.changes[ps.view], choices) && AllAbandoned(choices)
    ensures !Fits(ps, sn, pp)
  {
    forall k | k in ps.changes[ps.view].repropose
      ensures ps.changes[ps.view].repropose[k].pp.Some?
    {
      assert Matches(ps.id, ps.view, k, choices[k], ps.changes[ps.view].repropose[k]);
    }
  }

  lemma MissingStep(c: Config, net: set<Msg>, id: int, ps: Peer, sn: int, pp: Preprepare)
    requires LeaderInv(c, id, ps) && ps.id == id
    ensures LeaderStep(c, net, id, OnMissingPreprepare(ps, sn, pp))
  {
    if Fits(ps, sn, pp) {
      var info' := OnMissingPreprepare(ps, sn, pp).peer.changes[ps.view];
      var choices: map<int, Choice> :| Follows(c, id, ps.view, ps.changes[ps.view], choices);
      FetchReadyIff(c, ps, sn, pp, choices);
      if AllAbandoned(choices) {
        NothingFits(c, ps, sn, pp, choices);
      }
      assert Follows(c, id, ps.view, info', choices);
    }
  }

  lemma SendStep(c: Config, net: set<Msg>, id: int, ps: Peer)
    requires LeaderInv(c, id, ps) && CanAnnounce(c, ps) && ps.id == id && ChangesInv(c, net, ps)
    ensures LeaderStep(c, net, id, SendNewView(c, ps))
  {
    var choices: map<int, Choice> :| Follows(c, id, ps.view, ps.changes[ps.view], choices);
    forall m | m in SendNewView(c, ps).sent
      ensures SentOk(c, net, id, m.nv)
    {
      ReadySendsBuilt(c, ps, choices, m.nv);
      assert Carries(c, m.nv, id, choices);
    }
  }

  lemma LeaveStep(c: Config, ps: Peer)
    requires Runnable(c, ps)
    ensures Uninvolved(ps, SendViewChange(c, ps))
  {
    var ps' := SendViewChange(c, ps).peer;
    assert ps'.view == ps.view + 1 && InfoFor(ps', ps'.view).enough == InfoFor(ps, ps'.view).enough;
  }

  lemma PreprepareStep(c: Config, ps: Peer, sender: int, sn: int, pp: Preprepare, adm: Admission, release: bool)
    requires Runnable(c, ps)
    ensures Uninvolved(ps, OnPreprepare(c, ps, sender, sn, pp, adm, release))
  {
    var o := PbftProof.PreprepareCases(c, ps, sender, sn, pp, adm, release);
    LeaveStep(c, ps);
  }

  lemma SlotSteps(c: Config, ps: Peer, sn: int, sl: Slot, sent: set<Msg>)
    requires forall m :: m in sent ==> !m.NewViewMsg?
    ensures Uninvolved(ps, Outcome(SetSlot(ps, sn, sl), sent))
  {
  }

  lemma PrepareStep(c: Config, ps: Peer, sender: int, sn: int, view: nat, d: Digest, release: bool)
    requires Digested(ps)
    ensures Uninvolved(ps, OnPrepare(c, ps, sender, sn, view, d, release))
  {
    var o := OnPrepare(c, ps, sender, sn, view, d, release);
    if ps.Here(sn) in o.peer.slots {
      SlotSteps(c, ps, sn, o.peer.slots[ps.Here(sn)], o.sent);
    }
  }

  lemma CommitStep(c: Config, ps: Peer, sender: int, sn: int, view: nat, d: Digest, release: bool)
    ensures Uninvolved(ps, OnCommit(c, ps, sender, sn, view, d, release))
  {
  }

  lemma ReleaseStep(c: Config, ps: Peer, sn: int)
    requires ps.Here(sn) in ps.slots
    ensures Uninvolved(ps, Release(c, ps, sn))
  {
  }

  lemma ViewChangeStep(c: Config, ps: Peer, sender: int, vc: ViewChange)
    requires Runnable(c, ps)
    ensures Uninvolved(ps, OnViewChange(ps, sender, vc))
  {
  }

  lemma AcceptStep(c: Config, ps: Peer, sender: int, nv: NewView, choices: map<int, Choice>)
    requires CanAccept(c, ps, sender, nv, choices) && DecidedDigested(ps)
    ensures Uninvolved(ps, AcceptNewView(c, ps, sender, nv, choices))
  {
    var o := AcceptNewView(c, ps, sender, nv, choices);
    assert !o.peer.inViewChange;
  }

  /** What the action of a peer does, without the rest of the system. */
  lemma Involves(c: Config, s: System, a: Action)
    requires Enabled(c, s, a) && !a.DoBuild? && !a.DoMissing? && !a.DoSendNewView?
    ensures Uninvolved(s.peers[a.p], Effect(c, s, a))
  {
    var ps := s.peers[a.p];
    match a
    case DoPropose(p, sn, d) => SlotSteps(c, ps, sn, Effect(c, s, a).peer.slots[ps.Here(sn)], Effect(c, s, a).sent);
    case DoPreprepare(p, sender, sn, pp, adm, release) => PreprepareStep(c, ps, sender, sn, pp, adm, release);
    case DoPrepare(p, sender, sn, view, d, release) => PrepareStep(c, ps, sender, sn, view, d, release);
    case DoCommit(p, sender, sn, view, d, release) => CommitStep(c, ps, sender, sn, view, d, release);
    case DoRelease(p, sn) => ReleaseStep(c, ps, sn);
    case DoTimeout(p) => LeaveStep(c, ps);
    case DoViewChange(p, sender, vc) => ViewChangeStep(c, ps, sender, vc);
    case DoAnswer(p, l) =>
    case DoDropNewView(p) =>
    case DoNewView(p, sender, nv, choices) => AcceptStep(c, ps, sender, nv, choices);
  }

  lemma ActionStep(c: Config, s: System, a: Action)
    requires PbftSafety.Inv(c, s) && Enabled(c, s, a) && LeaderInv(c, a.p, s.peers[a.p])
    ensures LeaderStep(c, s.net, a.p, Effect(c, s, a))
  {
    var ps := s.peers[a.p];
    assert PeerInv(c, a.p, ps) && ChangesInv(c, s.net, ps);
    if a.DoBuild? {
      BuildStep(c, s.net, a.p, ps, a.u, a.choices);
    } else if a.DoMissing? {
      MissingStep(c, s.net, a.p, ps, a.sn, a.pp);
    } else if a.DoSendNewView? {
      SendStep(c, s.net, a.p, ps);
    } else {
      Involves(c, s, a);
      UninvolvedStep(c, s.net, a.p, ps, Effect(c, s, a));
    }
  }

  lemma ActionKeeps(c: Config, s: System, p: int, o: Outcome)
    requires NewViewInv(c, s) && p in s.peers && LeaderStep(c, s.net, p, o)
    ensures NewViewInv(c, Next(s, p, o))
  {
  }

  lemma FaultyKeeps(c: Config, s: System, m: Msg)
    requires Populated(c, s) && NewViewInv(c, s) && m.sender in c.m.faulty
    ensures NewViewInv(c, System(s.peers, s.net + {m}))
  {
  }

  lemma StepKeeps(c: Config, s: System, s': System)
    requires PbftSafety.Inv(c, s) && NewViewInv(c, s) && Step(c, s, s')
    ensures NewViewInv(c, s')
  {
    if a: Action :| Enabled(c, s, a) && s' == Next(s, a.p, Effect(c, s, a)) {
      var p, o := a.p, Effect(c, s, a);
      ActionStep(c, s, a);
      ActionKeeps(c, s, p, o);
      assert s' == Next(s, p, o);
    } else {
      var m: Msg :| m.sender in c.m.faulty && s' == System(s.peers, s.net + {m});
      FaultyKeeps(c, s, m);
    }
  }

  lemma {:induction false} RunKeeps(c: Config, run: seq<System>, i: nat)
    requires PbftProof.Run(c, run) && i < |run|
    ensures PbftSafety.Inv(c, run[i]) && NewViewInv(c, run[i])
  {
    PbftProof.RunInv(c, run, i);
    if i == 0 {
      StartKeeps(c, run[0]);
    } else {
      RunKeeps(c, run, i - 1);
      StepKeeps(c, run[i - 1], run[i]);
    }
  }

  lemma StartKeeps(c: Config, s: System)
    requires Start(c, s)
    ensures NewViewInv(c, s)
  {
    assert forall p :: p in s.peers ==> !Preparing(s.peers[p]);
  }

  /** In every run, a NEWVIEW that a correct leader has sent with exactly 2f+1 VIEWCHANGEs is turned down for a slot if
      and only if it has lost the aborted flag of that slot's empty batch. */
  lemma NewViewRejectedIff(c: Config, run: seq<System>, i: nat, p: int, nv: NewView, sn: int)
    requires PbftProof.Run(c, run) && i < |run| && c.m.Correct(p) && NewViewMsg(p, nv) in run[i].net
    requires |nv.vset| == 2 * c.F() + 1 && sn in c.sns
    ensures Rejected(c.F(), nv, sn, p) <==> Unflagged(c.F(), nv, sn)
  {
    var choices := Sent(c, run, i, p, nv);
    BuiltRejectedIff(c, nv, p, choices, sn);
  }

  /** The choices behind a NEWVIEW of a correct leader. */
  lemma Sent(c: Config, run: seq<System>, i: nat, p: int, nv: NewView) returns (choices: map<int, Choice>)
    requires PbftProof.Run(c, run) && i < |run| && c.m.Correct(p) && NewViewMsg(p, nv) in run[i].net
    ensures SentOk(c, run[i].net, p, nv) && Carries(c, nv, p, choices)
  {
    RunKeeps(c, run, i);
    assert SentOk(c, run[i].net, NewViewMsg(p, nv).sender, NewViewMsg(p, nv).nv);
    choices :| Carries(c, nv, p, choices);
  }

  /** In every run, a correct peer that has not yet moved past the view, or accepted another NEWVIEW for it, can take
      such a NEWVIEW if and only if no slot has lost its flag. */
  lemma NewViewAcceptedIff(c: Config, run: seq<System>, i: nat, p: int, nv: NewView, q: int)
    requires PbftProof.Run(c, run) && i < |run| && c.m.Correct(p) && NewViewMsg(p, nv) in run[i].net
    requires |nv.vset| == 2 * c.F() + 1 && c.m.Correct(q) && q in run[i].peers
    requires run[i].peers[q].view <= nv.view && !InfoFor(run[i].peers[q], nv.view).accepted
    ensures (exists choices: map<int, Choice> :: Enabled(c, run[i], DoNewView(q, p, nv, choices))) <==>
            forall sn :: sn in c.sns ==> !Unflagged(c.F(), nv, sn)
  {
    var choices := Sent(c, run, i, p, nv);
    PbftProof.ReachableRunnable(c, run, i, q);
    TakenIff(c, run[i], p, nv, q);
    BuiltAcceptedIff(c, nv, p, choices, run[i].peers[q]);
  }

  lemma TakenIff(c: Config, s: System, p: int, nv: NewView, q: int)
    requires q in s.peers && Runnable(c, s.peers[q]) && NewViewMsg(p, nv) in s.net && GenuineVset(c, s.net, nv.vset)
    ensures (exists choices: map<int, Choice> :: Enabled(c, s, DoNewView(q, p, nv, choices))) <==>
            exists choices: map<int, Choice> :: CanAccept(c, s.peers[q], p, nv, choices)
  {
    forall choices: map<int, Choice>
      ensures Enabled(c, s, DoNewView(q, p, nv, choices)) <==> CanAccept(c, s.peers[q], p, nv, choices)
    {
    }
  }

  // ---------- Handler calls are steps ----------

  /** `path` leads from `s` to `s'` by steps. */
  ghost predicate Path(c: Config, s: System, path: seq<System>, s': System) {
    && path != [] && path[0] == s && path[|path| - 1] == s'
    && forall i :: 0 < i < |path| ==> Step(c, path[i - 1], path[i])
  }

  ghost function Next(s: System, p: int, o: Outcome): System {
    System(s.peers[p := o.peer], s.net + o.sent)
  }

  lemma NextTwice(s: System, p: int, o1: Outcome, o2: Outcome)
    ensures Next(Next(s, p, o1), p, o2) == System(s.peers[p := o2.peer], s.net + (o1.sent + o2.sent))
  {
    assert s.peers[p := o1.peer][p := o2.peer] == s.peers[p := o2.peer];
    assert (s.net + o1.sent) + o2.sent == s.net + (o1.sent + o2.sent);
  }

  lemma Longer(c: Config, s: System, path: seq<System>, t: System, t': System)
    requires Path(c, s, path, t) && Step(c, t, t')
    ensures Path(c, s, path + [t'], t')
  {
    var longer := path + [t'];
    forall i | 0 < i < |longer|
      ensures Step(c, longer[i - 1], longer[i])
    {
      if i < |path| {
        assert longer[i] == path[i] && longer[i - 1] == path[i - 1];
      }
    }
  }

  /** An action is a step, after which the invariant still holds, so the peer can go on. */
  lemma GoesOn(c: Config, s: System, a: Action) returns (t: System)
    requires PbftSafety.Inv(c, s) && Enabled(c, s, a)
    ensures t == Next(s, a.p, Effect(c, s, a)) && Step(c, s, t)
    ensures PbftSafety.Inv(c, t) && a.p in t.peers && Runnable(c, t.peers[a.p])
  {
    t := Next(s, a.p, Effect(c, s, a));
    assert Step(c, s, t);
    PbftProof.StepKeeps(c, s, t);
    assert PeerInv(c, a.p, t.peers[a.p]);
  }

  /** What a handler of the instance does after its own action, namely to set up a new view and perhaps to announce it,
      are further steps of the system: from any state in which the action is enabled, the handler's result is reached
      by steps, and the messages it hands over are those the steps add. */
  lemma EndsIsPath(c: Config, s: System, a: Action, ps': Peer, out: set<Msg>, out': set<Msg>)
    returns (path: seq<System>, sent: set<Msg>)
    requires PbftSafety.Inv(c, s) && Enabled(c, s, a) && Ends(c, Effect(c, s, a), ps', out, out')
    ensures out' == out + sent && Path(c, s, path, System(s.peers[a.p := ps'], s.net + sent))
  {
    var o := Effect(c, s, a);
    var t := GoesOn(c, s, a);
    Longer(c, s, [s], s, t);
    path, sent := HandlerPath(c, s, [s] + [t], t, a.p, o, ps', out, out');
  }

  lemma HandlerPath(c: Config, s: System, path: seq<System>, t: System, p: int, o: Outcome, ps': Peer, out: set<Msg>,
                    out': set<Msg>)
    returns (longer: seq<System>, sent: set<Msg>)
    requires Path(c, s, path, t) && t == Next(s, p, o) && PbftSafety.Inv(c, t) && Ends(c, o, ps', out, out')
    ensures out' == out + sent && Path(c, s, longer, System(s.peers[p := ps'], s.net + sent))
  {
    if ps' == o.peer && out' == out + o.sent {
      longer, sent := path, o.sent;
    } else {
      var u: nat, o2: Outcome :| Settles(c, o.peer, u, o2) && ps' == o2.peer && out' == out + o.sent + o2.sent;
      longer := SettlesIsPath(c, s, path, t, p, u, o2);
      sent := o.sent + o2.sent;
      NextTwice(s, p, o, o2);
    }
  }

  lemma SettlesIsPath(c: Config, s: System, path: seq<System>, t: System, p: int, u: nat, o: Outcome)
    returns (longer: seq<System>)
    requires Path(c, s, path, t) && PbftSafety.Inv(c, t) && p in t.peers && Settles(c, t.peers[p], u, o)
    ensures Path(c, s, longer, Next(t, p, o))
  {
    var ps := t.peers[p];
    if o == Outcome(ps, {}) {
      longer := path;
      assert Next(t, p, o) == t;
    } else {
      var choices: map<int, Choice> :| CanBuild(c, ps, u, choices) && Built(c, BuildNewView(c, ps, u, choices).peer, o);
      longer := BuiltIsPath(c, s, path, t, p, u, choices, o);
    }
  }

  lemma BuiltIsPath(c: Config, s: System, path: seq<System>, t: System, p: int, u: nat, choices: map<int, Choice>,
                    o: Outcome)
    returns (longer: seq<System>)
    requires Path(c, s, path, t) && PbftSafety.Inv(c, t) && p in t.peers && CanBuild(c, t.peers[p], u, choices)
    requires Built(c, BuildNewView(c, t.peers[p], u, choices).peer, o)
    ensures Path(c, s, longer, Next(t, p, o))
  {
    assert PeerInv(c, p, t.peers[p]);
    var t1 := GoesOn(c, t, DoBuild(p, u, choices));
    Longer(c, s, path, t, t1);
    longer := path + [t1];
    var o1 := BuildNewView(c, t.peers[p], u, choices);
    NextSilent(t, p, o1, o);
    if CanAnnounce(c, o1.peer) {
      longer := AnnouncesIsPath(c, s, longer, t1, p, o);
    }
  }

  /** A step that sends nothing, followed by another. */
  lemma NextSilent(s: System, p: int, o1: Outcome, o2: Outcome)
    requires o1.sent == {}
    ensures Next(Next(s, p, o1), p, o2) == Next(s, p, o2)
  {
    NextTwice(s, p, o1, o2);
    assert {} + o2.sent == o2.sent;
  }

  lemma AnnouncesIsPath(c: Config, s: System, path: seq<System>, t: System, p: int, o: Outcome)
    returns (longer: seq<System>)
    requires Path(c, s, path, t) && p in t.peers && Runnable(c, t.peers[p]) && CanAnnounce(c, t.peers[p])
    requires o == SendNewView(c, t.peers[p]) || o == DropNewView(t.peers[p])
    ensures Path(c, s, longer, Next(t, p, o))
  {
    var a := if o == SendNewView(c, t.peers[p]) then DoSendNewView(p) else DoDropNewView(p);
    var t' := Next(t, p, o);
    assert Enabled(c, t, a) && Effect(c, t, a) == o;
    assert Step(c, t, t');
    Longer(c, s, path, t, t');
    longer := path + [t'];
  }

  /** The same for a fetched batch. */
  lemma MissingIsPath(c: Config, s: System, p: int, sender: int, sn: int, pp: Preprepare, o: Outcome)
    returns (path: seq<System>)
    requires PbftSafety.Inv(c, s) && p in s.peers && MissingPreprepareMsg(sender, sn, pp) in s.net
    requires var ps := OnMissingPreprepare(s.peers[p], sn, pp).peer;
             if Fits(s.peers[p], sn, pp) && CanAnnounce(c, ps) then o == SendNewView(c, ps) || o == DropNewView(ps)
             else o == Outcome(ps, {})
    ensures Path(c, s, path, Next(s, p, o))
  {
    assert PeerInv(c, p, s.peers[p]);
    var t := GoesOn(c, s, DoMissing(p, sender, sn, pp));
    Longer(c, s, [s], s, t);
    path := [s] + [t];
    var o1 := OnMissingPreprepare(s.peers[p], sn, pp);
    NextSilent(s, p, o1, o);
    if Fits(s.peers[p], sn, pp) && CanAnnounce(c, o1.peer) {
      path := AnnouncesIsPath(c, s, path, t, p, o);
    }
  }
}
