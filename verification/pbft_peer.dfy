/** The state one peer keeps for a PBFT instance and what each protocol event does to it.
    Every handler is a function from the old state to the new state and the messages sent. */
module PbftPeer {
  import opened Collections
  import opened Quorums
  import opened Voting

  /** What all peers know about the segment: its membership, sequence numbers and leader rotation. */
  datatype Config = Config(m: Membership, sns: set<int>, leaders: seq<int>) {

    ghost predicate Valid() {
      && m.Valid()
      && |leaders| > 0
      && forall sn :: sn in sns ==> sn >= 0
    }

    function F(): nat {
      m.F()
    }

    function Leader(view: nat): int
      requires |leaders| > 0
    {
      leaders[view % |leaders|]
    }
  }

  datatype Preprepare = Preprepare(sn: int, view: nat, leader: int, digest: Digest, aborted: bool)

  datatype ViewChange = ViewChange(view: nat, h: int, cset: seq<int>, pset: map<int, Entry>, qset: map<int, Entry>)

  datatype NewView = NewView(view: nat, vset: map<int, ViewChange>, xset: map<int, Preprepare>, checkpoint: int)

  datatype Msg =
    | PreprepareMsg(sender: int, pp: Preprepare)
    | PrepareMsg(sender: int, sn: int, view: nat, digest: Digest)
    | CommitMsg(sender: int, sn: int, view: nat, digest: Digest)
    | ViewChangeMsg(sender: int, vc: ViewChange)
    | NewViewMsg(sender: int, nv: NewView)
    | MissingPreprepareMsg(sender: int, sn: int, pp: Preprepare)

  /** Protocol state of one sequence number in one view. `commits[p] == None` marks a COMMIT of `p`
      that has been checked against the proposal and counted in `valid`. */
  datatype Slot = Slot(pp: Option<Preprepare>, digest: Option<Digest>,
                       prepares: map<int, Digest>, commits: map<int, Option<Digest>>, valid: nat,
                       preprepared: bool, prepared: bool, committed: bool)

  const FRESH: Slot := Slot(None, None, map[], map[], 0, false, false, false)

  /** A batch the leader of a new view is about to propose again. */
  datatype Reproposal = Reproposal(pp: Option<Preprepare>, digest: Digest, committed: bool)

  /** What is known about the change to one view. */
  datatype Info = Info(s: map<int, ViewChange>, enough: bool, accepted: bool, repropose: map<int, Reproposal>)

  const NO_INFO: Info := Info(map[], false, false, map[])

  /** A sequence number in a view. */
  datatype Loc = Loc(view: nat, sn: int)

  datatype Peer = Peer(id: int, view: nat, inViewChange: bool, slots: map<Loc, Slot>, changes: map<nat, Info>) {
    /** Protocol state in the current view. */
    function Here(sn: int): Loc {
      Loc(view, sn)
    }
  }

  datatype Outcome = Outcome(peer: Peer, sent: set<Msg>)

  function Lookup<K, V>(m: map<K, V>, k: K): Option<V> {
    if k in m then Some(m[k]) else None
  }

  function InfoFor(ps: Peer, view: nat): Info {
    if view in ps.changes then ps.changes[view] else NO_INFO
  }

  /** The instance as `init` leaves it. */
  function InitPeer(c: Config, id: int): Peer {
    Peer(id, 0, false, map sn | sn in c.sns :: Loc(0, sn) := FRESH, map[])
  }

  /** The views and sequence numbers for which there is protocol state. */
  ghost predicate Shape(c: Config, ps: Peer) {
    && c.Valid()
    && (forall sn :: sn in c.sns ==> ps.Here(sn) in ps.slots)
    && (forall l :: l in ps.slots ==> l.view <= ps.view && l.sn in c.sns)
  }

  /** A slot holds a proposal exactly if it is marked as preprepared; proposals and decisions have digests. */
  ghost predicate SlotOk(sl: Slot) {
    && (sl.preprepared <==> sl.pp.Some?)
    && (sl.prepared ==> sl.preprepared)
    && (sl.preprepared || sl.committed ==> sl.digest.Some?)
  }

  ghost predicate SlotsOk(slots: map<Loc, Slot>) {
    forall l :: l in slots ==> SlotOk(slots[l])
  }

  /** Views for which the peer has fixed what to propose are not ahead, and all slots have something to propose. */
  ghost predicate ChangesOk(c: Config, ps: Peer) {
    forall u :: u in ps.changes && ps.changes[u].enough ==> u <= ps.view && ps.changes[u].repropose.Keys == c.sns
  }

  /** The state the handlers work on. `ReachableRunnable` shows that in runs it never stops holding. */
  ghost predicate Runnable(c: Config, ps: Peer) {
    Shape(c, ps) && SlotsOk(ps.slots) && ChangesOk(c, ps)
  }

  function SetSlot(ps: Peer, sn: int, sl: Slot): Peer {
    ps.(slots := ps.slots[ps.Here(sn) := sl])
  }

  // ---------- Common case ----------

  /** Senders of a PREPARE that matches the proposal. */
  function MatchingPrepares(sl: Slot): set<int> {
    set p | p in sl.prepares && Some(sl.prepares[p]) == sl.digest
  }

  predicate IsPrepared(c: Config, sl: Slot) {
    sl.preprepared && |MatchingPrepares(sl)| >= 2 * c.F()
  }

  /** Senders of a COMMIT that matches the proposal and has not been counted yet. */
  function NewCommits(sl: Slot): set<int> {
    set p | p in sl.commits && sl.commits[p].Some? && sl.commits[p] == sl.digest
  }

  /** Senders of a COMMIT that has been counted. */
  function CountedCommits(sl: Slot): set<int> {
    set p | p in sl.commits && sl.commits[p].None?
  }

  /** The COMMIT of `p` after it has been examined. */
  function Marked(sl: Slot, p: int): Option<Digest>
    requires p in sl.commits
  {
    if sl.commits[p].Some? && sl.commits[p] == sl.digest then None else sl.commits[p]
  }

  /** Counts the matching COMMITs received so far. */
  function CountCommits(sl: Slot): Slot {
    if !sl.preprepared || !sl.prepared then sl
    else sl.(commits := map p | p in sl.commits :: Marked(sl, p),
             valid := sl.valid + |NewCommits(sl)|)
  }

  predicate EnoughCommits(c: Config, sl: Slot) {
    sl.preprepared && sl.prepared && sl.valid >= 2 * c.F() + 1
  }

  /** A proposal that has just become prepared makes the peer send a COMMIT. */
  function TryPrepare(c: Config, id: int, sl: Slot): Slot
    requires sl.preprepared ==> sl.digest.Some?
  {
    if !sl.prepared && IsPrepared(c, sl)
    then sl.(prepared := true, commits := sl.commits[id := sl.digest])
    else sl
  }

  /** A slot with enough COMMITs is committed once the announcing code releases it. */
  function TryCommit(c: Config, sl: Slot, release: bool): Slot {
    if sl.committed then sl
    else
      var counted := CountCommits(sl);
      if EnoughCommits(c, counted) && release then counted.(committed := true) else counted
  }

  /** Replaces the current slot, sending a COMMIT if it has become prepared. */
  function Finish(c: Config, ps: Peer, sn: int, sl: Slot, release: bool, sent: set<Msg>): Outcome
    requires sl.preprepared ==> sl.digest.Some?
  {
    var sl1 := TryPrepare(c, ps.id, sl);
    var commit := if sl1.prepared && !sl.prepared then {CommitMsg(ps.id, sn, ps.view, sl1.digest.value)} else {};
    Outcome(SetSlot(ps, sn, TryCommit(c, sl1, release)), sent + commit)
  }

  /** A peer whose slots know the digest of every proposal they hold. */
  ghost predicate Digested(ps: Peer) {
    forall l :: l in ps.slots && ps.slots[l].preprepared ==> ps.slots[l].digest.Some?
  }

  /** The leader of view 0 proposes a fresh batch. */
  function Propose(ps: Peer, sn: int, d: Digest): Outcome
    requires ps.Here(sn) in ps.slots
  {
    var pp := Preprepare(sn, ps.view, ps.id, d, false);
    Outcome(SetSlot(ps, sn, ps.slots[ps.Here(sn)].(pp := Some(pp), digest := Some(d), preprepared := true)),
            {PreprepareMsg(ps.id, pp)})
  }

  /** What checking the requests of a proposal leads to. */
  datatype Admission = Admit | Ignore | Suspect

  /** Whether a PREPREPARE reaches the point where its requests are looked at. */
  predicate Considered(c: Config, ps: Peer, sender: int, sn: int, pp: Preprepare)
    requires |c.leaders| > 0
  {
    && sn == pp.sn && sender == pp.leader && c.Leader(pp.view) == pp.leader
    && ps.view == pp.view && !ps.inViewChange
    && ps.Here(sn) in ps.slots
    && !ps.slots[ps.Here(sn)].committed && ps.slots[ps.Here(sn)].pp.None?
  }

  /** Whether a PREPREPARE that is not considered makes the peer suspect the leader. */
  predicate Suspicious(c: Config, ps: Peer, sender: int, sn: int, pp: Preprepare)
    requires |c.leaders| > 0
  {
    sn == pp.sn &&
    (sender != pp.leader || c.Leader(pp.view) != pp.leader ||
     (ps.view == pp.view && !ps.inViewChange && ps.Here(sn) in ps.slots
      && !ps.slots[ps.Here(sn)].committed && ps.slots[ps.Here(sn)].pp.Some?))
  }

  /** The slot after recording an admissible proposal and the peer's own PREPARE. */
  function AcceptedSlot(id: int, sl: Slot, pp: Preprepare): Slot {
    sl.(pp := Some(pp), digest := Some(pp.digest), preprepared := true, prepares := sl.prepares[id := pp.digest])
  }

  function OnPreprepare(c: Config, ps: Peer, sender: int, sn: int, pp: Preprepare, adm: Admission,
                        release: bool): Outcome
    requires Shape(c, ps)
  {
    if Considered(c, ps, sender, sn, pp) then
      match adm
      case Admit =>
        Finish(c, ps, sn, AcceptedSlot(ps.id, ps.slots[ps.Here(sn)], pp), release,
               {PrepareMsg(ps.id, sn, ps.view, pp.digest)})
      case Ignore => Outcome(ps, {})
      case Suspect => SendViewChange(c, ps)
    else if Suspicious(c, ps, sender, sn, pp) then SendViewChange(c, ps)
    else Outcome(ps, {})
  }

  /** Whether a PREPARE or COMMIT for `view` concerns a slot the peer is working on. */
  predicate Active(ps: Peer, sn: int, view: nat) {
    ps.view == view && !ps.inViewChange && ps.Here(sn) in ps.slots
  }

  function OnPrepare(c: Config, ps: Peer, sender: int, sn: int, view: nat, d: Digest, release: bool): Outcome
    requires Digested(ps)
  {
    if Active(ps, sn, view) && sender !in ps.slots[ps.Here(sn)].prepares then
      var sl := ps.slots[ps.Here(sn)];
      Finish(c, ps, sn, sl.(prepares := sl.prepares[sender := d]), release, {})
    else Outcome(ps, {})
  }

  function OnCommit(c: Config, ps: Peer, sender: int, sn: int, view: nat, d: Digest, release: bool): Outcome {
    if Active(ps, sn, view) && sender !in ps.slots[ps.Here(sn)].commits then
      var sl := ps.slots[ps.Here(sn)];
      Outcome(SetSlot(ps, sn, TryCommit(c, sl.(commits := sl.commits[sender := Some(d)]), release)), {})
    else Outcome(ps, {})
  }

  /** A committed batch that had been held back is announced. */
  function Release(c: Config, ps: Peer, sn: int): Outcome
    requires ps.Here(sn) in ps.slots
  {
    var sl := ps.slots[ps.Here(sn)];
    if EnoughCommits(c, sl) then Outcome(SetSlot(ps, sn, sl.(committed := true)), {}) else Outcome(ps, {})
  }

  // ---------- View change ----------

  /** What a new view inherits from the previous one: decisions, and nothing else. */
  function Carry(sl: Slot): Slot {
    if sl.committed then FRESH.(committed := true, digest := sl.digest) else FRESH
  }

  /** The slots of view `u` for the sequence numbers `sns`, carried over from the current view. */
  function CarriedSlots(ps: Peer, u: nat, sns: set<int>): map<Loc, Slot>
    requires forall sn :: sn in sns ==> ps.Here(sn) in ps.slots
  {
    map sn | sn in sns :: Loc(u, sn) := Carry(ps.slots[ps.Here(sn)])
  }

  function StartView(c: Config, ps: Peer, u: nat): Peer
    requires forall sn :: sn in c.sns ==> ps.Here(sn) in ps.slots
  {
    if u == ps.view then ps else ps.(view := u, slots := ps.slots + CarriedSlots(ps, u, c.sns))
  }

  /** Enters view `u` without yet working in it. */
  function Entered(c: Config, ps: Peer, u: nat): Peer
    requires Shape(c, ps)
  {
    StartView(c, ps.(inViewChange := true), u)
  }

  /** The latest view below `v` in which `sn` was prepared, with its digest. */
  function LatestPrepared(slots: map<Loc, Slot>, sn: int, v: nat): Option<Entry> {
    if v == 0 then None
    else if Loc(v - 1, sn) in slots && slots[Loc(v - 1, sn)].prepared
            && slots[Loc(v - 1, sn)].pp.Some? && slots[Loc(v - 1, sn)].digest.Some?
    then Some(Entry(slots[Loc(v - 1, sn)].pp.value.view, slots[Loc(v - 1, sn)].digest.value))
    else LatestPrepared(slots, sn, v - 1)
  }

  /** The latest view below `v` in which `sn` was preprepared, with its digest. */
  function LatestPreprepared(slots: map<Loc, Slot>, sn: int, v: nat): Option<Entry> {
    if v == 0 then None
    else if Loc(v - 1, sn) in slots && slots[Loc(v - 1, sn)].pp.Some? && slots[Loc(v - 1, sn)].digest.Some?
    then Some(Entry(slots[Loc(v - 1, sn)].pp.value.view, slots[Loc(v - 1, sn)].digest.value))
    else LatestPreprepared(slots, sn, v - 1)
  }

  /** The P and Q sets: for each sequence number its latest prepared and preprepared entry below `v`. */
  function PsetAt(c: Config, slots: map<Loc, Slot>, v: nat): map<int, Entry> {
    map sn | sn in c.sns && LatestPrepared(slots, sn, v).Some? :: LatestPrepared(slots, sn, v).value
  }

  function QsetAt(c: Config, slots: map<Loc, Slot>, v: nat): map<int, Entry> {
    map sn | sn in c.sns && LatestPreprepared(slots, sn, v).Some? :: LatestPreprepared(slots, sn, v).value
  }

  function MakeViewChange(c: Config, ps: Peer): ViewChange {
    ViewChange(ps.view, -1, [-1], PsetAt(c, ps.slots, ps.view), QsetAt(c, ps.slots, ps.view))
  }

  /** Reports `vc` to the leader of the view just started. */
  function Report(c: Config, ps: Peer, vc: ViewChange): Outcome
    requires |c.leaders| > 0
  {
    var info := InfoFor(ps, ps.view);
    var info1 := if c.Leader(ps.view) == ps.id then info.(s := info.s[ps.id := vc]) else info;
    Outcome(ps.(changes := ps.changes[ps.view := info1]), {ViewChangeMsg(ps.id, vc)})
  }

  /** The view after `view`. */
  function Following(view: nat): nat {
    view + 1
  }

  function ReportOwn(c: Config, ps: Peer): Outcome
    requires |c.leaders| > 0
  {
    Report(c, ps, MakeViewChange(c, ps))
  }

  /** Leaves the current view and tells the next leader what has been prepared. */
  function SendViewChange(c: Config, ps: Peer): Outcome
    requires Shape(c, ps)
  {
    ReportOwn(c, Entered(c, ps, Following(ps.view)))
  }

  function OnViewChange(ps: Peer, sender: int, vc: ViewChange): Outcome {
    if vc.view < ps.view then Outcome(ps, {})
    else
      var info := InfoFor(ps, vc.view);
      var info1 := if info.enough || sender in info.s then info else info.(s := info.s[sender := vc]);
      Outcome(ps.(changes := ps.changes[vc.view := info1]), {})
  }

  // ---------- New view ----------

  /** Senders with a stable point below `sn` whose P set does not contradict `e`. */
  function ConsistentAt(vset: map<int, ViewChange>, sn: int, e: Entry): set<int> {
    set s | s in vset && vset[s].h < sn &&
            (sn !in vset[s].pset || vset[s].pset[sn].view < e.view || vset[s].pset[sn] == e)
  }

  function SupportingAt(vset: map<int, ViewChange>, sn: int, e: Entry): set<int> {
    set s | s in vset && sn in vset[s].qset && vset[s].qset[sn].view >= e.view && vset[s].qset[sn].digest == e.digest
  }

  function UnpreparedAt(vset: map<int, ViewChange>, sn: int): set<int> {
    set s | s in vset && vset[s].h < sn && sn !in vset[s].pset
  }

  /** Conditions A1 and A2. */
  predicate CondAAt(f: nat, vset: map<int, ViewChange>, sn: int, e: Entry) {
    |ConsistentAt(vset, sn, e)| >= 2 * f + 1 && |SupportingAt(vset, sn, e)| >= f + 1
  }

  /** Condition B. */
  predicate CondBAt(f: nat, vset: map<int, ViewChange>, sn: int) {
    |UnpreparedAt(vset, sn)| >= 2 * f + 1
  }

  /** `e` is in the P set of some VIEWCHANGE. */
  predicate Claimed(vset: map<int, ViewChange>, sn: int, e: Entry) {
    exists s :: s in vset && sn in vset[s].pset && vset[s].pset[sn] == e
  }

  /** What a new view does with a sequence number: an empty aborted batch, or an old batch again. */
  datatype Choice = Abort | Reuse(e: Entry) {
    function Digest(): Digest {
      if Abort? then EMPTY else e.digest
    }
  }

  /** The choices that conditions B, A1 and A2 allow. */
  predicate Allowed(f: nat, vset: map<int, ViewChange>, sn: int, ch: Choice) {
    match ch
    case Abort => CondBAt(f, vset, sn)
    case Reuse(e) => Claimed(vset, sn, e) && CondAAt(f, vset, sn, e)
  }

  /** `h` is the initial value of the checkpoint search or is held by a weak quorum. */
  predicate CheckpointPossible(f: nat, vset: map<int, ViewChange>, h: int) {
    h == -1 || |Holders(vset, h)| >= f + 1
  }

  /** Senders that hold a checkpoint at `h`. */
  function Holders(vset: map<int, ViewChange>, h: int): set<int> {
    set s | s in vset && h in vset[s].cset
  }

  /** The most recent slot with a proposal for `sn` below view `v`. */
  function FindBatch(slots: map<Loc, Slot>, sn: int, v: nat): Option<Slot> {
    if v == 0 then None
    else if Loc(v - 1, sn) in slots && slots[Loc(v - 1, sn)].pp.Some? then Some(slots[Loc(v - 1, sn)])
    else FindBatch(slots, sn, v - 1)
  }

  function Repropose(ps: Peer, u: nat, sn: int, ch: Choice): Reproposal {
    match ch
    case Abort => Reproposal(Some(Preprepare(sn, u, ps.id, EMPTY, true)), EMPTY, false)
    case Reuse(e) =>
      var found := FindBatch(ps.slots, sn, u);
      if found.Some? && found.value.digest == Some(e.digest)
      then Reproposal(Some(Preprepare(sn, u, ps.id, e.digest, false)), e.digest, found.value.committed)
      else Reproposal(None, e.digest, false)
  }

  /** The leader of view `u` may stop collecting VIEWCHANGEs and fix what it will propose. */
  ghost predicate CanBuild(c: Config, ps: Peer, u: nat, choices: map<int, Choice>) {
    && Shape(c, ps) && 0 < u && ps.view <= u && c.Leader(u) == ps.id
    && u in ps.changes && !ps.changes[u].enough && !ps.changes[u].accepted
    && |ps.changes[u].s| >= 2 * c.F() + 1
    && choices.Keys == c.sns
    && forall sn :: sn in c.sns ==> Allowed(c.F(), ps.changes[u].s, sn, choices[sn])
  }

  function BuildNewView(c: Config, ps: Peer, u: nat, choices: map<int, Choice>): Outcome
    requires CanBuild(c, ps, u, choices)
  {
    var ps1 := Entered(c, ps, u);
    var info := ps.changes[u].(enough := true,
                               repropose := map sn | sn in c.sns :: Repropose(ps, u, sn, choices[sn]));
    Outcome(ps1.(changes := ps1.changes[u := info]), {})
  }

  /** Some batch that is to be proposed again has not been found yet. */
  predicate Incomplete(repropose: map<int, Reproposal>) {
    exists sn :: sn in repropose && repropose[sn].pp.None?
  }

  /** The leader is still waiting for batches and this one has the digest recorded for its slot. */
  predicate Fits(ps: Peer, sn: int, pp: Preprepare) {
    && ps.inViewChange && ps.view in ps.changes && ps.changes[ps.view].enough && !ps.changes[ps.view].accepted
    && Incomplete(ps.changes[ps.view].repropose)
    && sn in ps.changes[ps.view].repropose && ps.changes[ps.view].repropose[sn].digest == pp.digest
  }

  /** A batch that was missing arrives. */
  function OnMissingPreprepare(ps: Peer, sn: int, pp: Preprepare): Outcome {
    if Fits(ps, sn, pp) then
      var info := ps.changes[ps.view];
      var rp := info.repropose[sn].(pp := Some(Preprepare(sn, ps.view, ps.id, pp.digest, pp.aborted)));
      Outcome(ps.(changes := ps.changes[ps.view := info.(repropose := info.repropose[sn := rp])]), {})
    else Outcome(ps, {})
  }

  /** The peer is asked for the proposal it holds at `l`. */
  function OnMissingRequest(ps: Peer, l: Loc): Outcome {
    if l in ps.slots && ps.slots[l].pp.Some?
    then Outcome(ps, {MissingPreprepareMsg(ps.id, l.sn, ps.slots[l].pp.value)})
    else Outcome(ps, {})
  }

  /** Everything the leader will propose in the current view is at hand. */
  ghost predicate CanAnnounce(c: Config, ps: Peer) {
    && Shape(c, ps) && ps.inViewChange && ps.view in ps.changes
    && var info := ps.changes[ps.view];
    && info.enough && !info.accepted && info.repropose.Keys == c.sns
    && forall sn :: sn in c.sns ==> info.repropose[sn].pp.Some?
  }

  function ReproposedSlot(sl: Slot, rp: Reproposal): Slot {
    sl.(pp := rp.pp, preprepared := true, committed := rp.committed, digest := Some(rp.digest))
  }

  /** The leader sends NEWVIEW and starts working in the view. */
  function SendNewView(c: Config, ps: Peer): Outcome
    requires CanAnnounce(c, ps)
  {
    var info := ps.changes[ps.view];
    var nv := NewView(ps.view, info.s, map sn | sn in c.sns :: info.repropose[sn].pp.value, -1);
    var slots1 := map l | l in ps.slots ::
                    if l.view == ps.view then ReproposedSlot(ps.slots[l], info.repropose[l.sn]) else ps.slots[l];
    Outcome(ps.(inViewChange := false, slots := slots1,
                changes := ps.changes[ps.view := info.(accepted := true)]),
            {NewViewMsg(ps.id, nv)})
  }

  /** NEWVIEW was constructed after the leader had already given up on the view. */
  function DropNewView(ps: Peer): Outcome
    requires ps.view in ps.changes
  {
    Outcome(ps.(changes := ps.changes[ps.view := ps.changes[ps.view].(accepted := true)]), {})
  }

  /** The proposal a NEWVIEW holds for `sn` is one the conditions allow. */
  predicate XsetOk(f: nat, nv: NewView, sn: int, ch: Choice) {
    && sn in nv.xset
    && Allowed(f, nv.vset, sn, ch) && nv.xset[sn].digest == ch.Digest()
    && (ch.Abort? ==> nv.xset[sn].aborted)
  }

  ghost predicate CanAccept(c: Config, ps: Peer, sender: int, nv: NewView, choices: map<int, Choice>) {
    && Shape(c, ps) && 0 < nv.view && ps.view <= nv.view && !InfoFor(ps, nv.view).accepted
    && (forall s :: s in nv.vset ==> nv.vset[s].view >= nv.view)
    && CheckpointPossible(c.F(), nv.vset, nv.checkpoint)
    && forall sn :: sn in c.sns && sn > nv.checkpoint ==>
         && sn in choices && XsetOk(c.F(), nv, sn, choices[sn])
         && nv.xset[sn].sn == sn && nv.xset[sn].view == nv.view && nv.xset[sn].leader == sender
  }

  /** The slot after taking over a NEWVIEW's proposal. A decided slot keeps its digest. */
  function InstalledSlot(c: Config, ps: Peer, view: nat, sl: Slot, pp: Preprepare): (r: Slot)
    requires |c.leaders| > 0
    requires sl.committed ==> sl.digest.Some?
    ensures r.digest.Some?
  {
    var sl1 := sl.(pp := Some(pp), preprepared := true,
                   digest := if sl.committed then sl.digest else Some(pp.digest));
    if c.Leader(view) == ps.id then sl1 else sl1.(prepares := sl1.prepares[ps.id := sl1.digest.value])
  }

  /** A peer whose decided slots know their digest. */
  ghost predicate DecidedDigested(ps: Peer) {
    forall l :: l in ps.slots && ps.slots[l].committed ==> ps.slots[l].digest.Some?
  }

  /** The slot at `l` after the NEWVIEW's proposals have been installed. */
  function InstalledAt(c: Config, ps: Peer, nv: NewView, l: Loc): Slot
    requires |c.leaders| > 0 && l in ps.slots && DecidedDigested(ps)
    requires l.view == nv.view && l.sn > nv.checkpoint ==> l.sn in nv.xset
  {
    if l.view == nv.view && l.sn > nv.checkpoint then InstalledSlot(c, ps, nv.view, ps.slots[l], nv.xset[l.sn])
    else ps.slots[l]
  }

  /** The slots with every proposal of the NEWVIEW installed. */
  function InstalledSlots(c: Config, ps: Peer, nv: NewView): (r: map<Loc, Slot>)
    requires Shape(c, ps)
    requires forall sn :: sn in c.sns && sn > nv.checkpoint ==> sn in nv.xset
    requires DecidedDigested(ps)
  {
    map l | l in ps.slots :: InstalledAt(c, ps, nv, l)
  }

  /** The PREPAREs a follower sends for the installed proposals. */
  function PreparesFor(c: Config, id: int, nv: NewView, slots: map<Loc, Slot>): set<Msg>
    requires |c.leaders| > 0
  {
    if c.Leader(nv.view) == id then {}
    else set l | l in slots && l.view == nv.view && l.sn > nv.checkpoint && slots[l].digest.Some?
           :: PrepareMsg(id, l.sn, nv.view, slots[l].digest.value)
  }

  /** Accepts a NEWVIEW and prepares what it proposes. */
  function AcceptNewView(c: Config, ps: Peer, sender: int, nv: NewView, choices: map<int, Choice>): Outcome
    requires CanAccept(c, ps, sender, nv, choices) && DecidedDigested(ps)
  {
    var info := InfoFor(ps, nv.view).(accepted := true);
    var ps1 := StartView(c, ps, nv.view);
    var slots1 := InstalledSlots(c, ps1, nv);
    Outcome(ps1.(inViewChange := false, slots := slots1, changes := ps1.changes[nv.view := info]),
            PreparesFor(c, ps.id, nv, slots1))
  }
}
