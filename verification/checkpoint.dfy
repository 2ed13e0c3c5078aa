/** Stable checkpoints: counting checkpoint messages at one peer, and what a stable checkpoint says about the others. */
module Checkpoint {
  import opened Collections
  import opened Quorums
  import Log

  /** What a peer knows: who has sent a checkpoint message for a sequence number, and the last stable checkpoint. */
  datatype Counter = Counter(pending: map<int, set<int>>, stable: Option<int>) {
    /** Everything pending is above the stable checkpoint. */
    predicate Ok() {
      forall sn :: sn in pending ==> stable.None? || sn > stable.value
    }

    function Senders(sn: int): set<int> {
      if sn in pending then pending[sn] else {}
    }

    predicate Obsolete(sn: int) {
      stable.Some? && stable.value >= sn
    }
  }

  function Pruned(pending: map<int, set<int>>, stable: int): map<int, set<int>> {
    map sn | sn in pending && sn > stable :: pending[sn]
  }

  /** Handling one checkpoint message, where `q` senders make a checkpoint stable. */
  function Handled(c: Counter, sn: int, sender: int, q: nat): Counter {
    if c.Obsolete(sn) then c
    else
      var senders := c.Senders(sn) + {sender};
      if |senders| >= q then Counter(Pruned(c.pending[sn := senders], sn), Some(sn))
      else c.(pending := c.pending[sn := senders])
  }

  /** The stable checkpoint only grows, it grows to `sn` exactly if this message completes a quorum, and every number
      above it keeps its senders, to which the new one is added. */
  lemma HandledOk(c: Counter, sn: int, sender: int, q: nat)
    requires c.Ok()
    ensures var d := Handled(c, sn, sender, q);
            && d.Ok()
            && (d.stable != c.stable ==> d.stable == Some(sn) && (c.stable.None? || c.stable.value < sn))
            && (!c.Obsolete(sn) ==> (d.stable == Some(sn) <==> |c.Senders(sn) + {sender}| >= q))
            && (forall k :: d.Obsolete(k) ==> k !in d.pending)
            && (forall k :: !d.Obsolete(k) ==> d.Senders(k) == c.Senders(k) + if k == sn then {sender} else {})
  {
  }

  class Checkpointer {
    const quorum: nat
    var pending: map<int, set<int>>
    var stable: Option<int>

    function Value(): Counter
      reads this
    {
      Counter(pending, stable)
    }

    constructor (quorum: nat)
      ensures this.quorum == quorum && Value() == Counter(map[], None)
    {
      this.quorum, pending, stable := quorum, map[], None;
    }

    method HandleMessage(sn: int, sender: int)
      requires Value().Ok()
      modifies this
      ensures Value() == Handled(old(Value()), sn, sender, quorum) && Value().Ok()
    {
      HandledOk(Value(), sn, sender, quorum);
      if stable.None? || stable.value < sn {
        var senders := if sn in pending then pending[sn] else {};
        pending := pending[sn := senders + {sender}];
        if |pending[sn]| >= quorum {
          stable := Some(sn);
          Prune(sn);
        }
      }
    }

    method Prune(last: int)
      modifies this`pending
      ensures pending == Pruned(old(pending), last)
    {
      var keys := pending.Keys;
      while keys != {}
        invariant keys <= old(pending).Keys
        invariant pending == map sn | sn in old(pending) && (sn > last || sn in keys) :: old(pending)[sn]
        decreases keys
      {
        var sn := Pick(keys);
        keys := keys - {sn};
        if sn <= last {
          pending := pending - {sn};
        }
      }
    }
  }

  // ---------- All peers ----------

  /** A correct peer: its log, under all interleavings of the threads that use it, and its checkpoint counter. */
  datatype Peer = Peer(
    log: Log.State,
    counter: Counter,
    /** The checkpoint messages received so far, by sender and sequence number. */
    received: set<(int, int)>) {
    function Held(): set<int> {
      log.entries.Keys
    }
  }

  /** All peers and the checkpoint messages ever sent, by sender and sequence number. */
  datatype System = System(peers: map<int, Peer>, net: set<(int, int)>)

  datatype Action =
    | LogStep(p: int, step: Log.Action)
    /** A correct peer sends a checkpoint message for an entry that its log has delivered to a reader. */
    | Launch(p: int, reader: nat, entry: Log.Entry)
    | Forge(p: int, sn: int)
    | Receive(p: int, sender: int, sn: int)

  predicate HoldsUpTo(held: set<int>, sn: int) {
    forall k :: 0 <= k <= sn ==> k in held
  }

  ghost predicate Enabled(m: Membership, s: System, a: Action) {
    match a
    case LogStep(p, step) => p in s.peers && Log.Enabled(s.peers[p].log, step)
    case Launch(p, reader, e) =>
      p in s.peers && reader < |s.peers[p].log.readers| && e in s.peers[p].log.readers[reader].got
    case Forge(p, _) => p in m.faulty
    case Receive(p, sender, sn) => p in s.peers && (sender, sn) in s.net
  }

  ghost function Effect(m: Membership, s: System, a: Action): System
    requires Enabled(m, s, a)
  {
    match a
    case LogStep(p, step) => s.(peers := s.peers[p := s.peers[p].(log := Log.Effect(s.peers[p].log, step))])
    case Launch(p, _, e) => s.(net := s.net + {(p, e.sn)})
    case Forge(p, sn) => s.(net := s.net + {(p, sn)})
    case Receive(p, sender, sn) =>
      var ps := s.peers[p];
      s.(peers := s.peers[p := ps.(counter := Handled(ps.counter, sn, sender, Quorum(|m.peers|)),
                                   received := ps.received + {(sender, sn)})])
  }

  ghost predicate Start(m: Membership, s: System) {
    && m.faulty <= m.peers && |m.faulty| <= m.F() && s.net == {}
    && s.peers.Keys == m.peers - m.faulty
    && forall p :: p in s.peers ==> s.peers[p] == Peer(Log.Empty, Counter(map[], None), {})
  }

  ghost predicate Step(m: Membership, s: System, s': System) {
    exists a :: Enabled(m, s, a) && s' == Effect(m, s, a)
  }

  ghost predicate Run(m: Membership, t: seq<System>) {
    && t != []
    && var n := |t| - 1; if n == 0 then Start(m, t[0]) else Run(m, t[..n]) && Step(m, t[n - 1], t[n])
  }

  /** The peers of `group` are correct and hold every entry up to `sn`. */
  ghost predicate Holders(m: Membership, s: System, group: set<int>, sn: int) {
    forall p :: p in group ==> m.Correct(p) && p in s.peers && HoldsUpTo(s.peers[p].Held(), sn)
  }

  ghost predicate Backed(m: Membership, s: System, sn: int) {
    exists group :: |group| >= m.F() + 1 && Holders(m, s, group, sn)
  }

  ghost predicate Inv(m: Membership, s: System) {
    Counted(m, s) && LogsOk(s)
  }

  ghost predicate LogsOk(s: System) {
    forall p :: p in s.peers ==> Log.Inv(s.peers[p].log)
  }

  /** Messages of correct peers are true, and so is what the counters say. */
  ghost predicate Counted(m: Membership, s: System) {
    && m.faulty <= m.peers && |m.faulty| <= m.F() && s.peers.Keys == m.peers - m.faulty
    && (forall p, sn :: (p, sn) in s.net ==> p in m.peers)
    && (forall p, sn :: (p, sn) in s.net && p !in m.faulty ==> HoldsUpTo(s.peers[p].Held(), sn))
    && (forall p :: p in s.peers ==> CounterOk(m, s, s.peers[p].counter))
  }

  ghost predicate CounterOk(m: Membership, s: System, c: Counter) {
    && c.Ok()
    && (forall sn, q :: sn in c.pending && q in c.pending[sn] ==> (q, sn) in s.net)
    && (c.stable.Some? ==> Backed(m, s, c.stable.value))
  }

  // ---------- Proof ----------

  /** Peers keep their entries and messages are not taken back. */
  ghost predicate Grows(s: System, s': System) {
    && s.net <= s'.net && s'.peers.Keys == s.peers.Keys
    && forall p :: p in s.peers ==> s.peers[p].Held() <= s'.peers[p].Held()
  }

  lemma BackedStays(m: Membership, s: System, s': System, sn: int)
    requires Backed(m, s, sn) && Grows(s, s')
    ensures Backed(m, s', sn)
  {
    var group :| |group| >= m.F() + 1 && Holders(m, s, group, sn);
    assert Holders(m, s', group, sn);
  }

  lemma CounterStays(m: Membership, s: System, s': System, c: Counter)
    requires CounterOk(m, s, c) && Grows(s, s')
    ensures CounterOk(m, s', c)
  {
    if c.stable.Some? {
      BackedStays(m, s, s', c.stable.value);
    }
  }

  /** A quorum of senders includes more than `f` correct ones. */
  lemma QuorumBacks(m: Membership, s: System, senders: set<int>, sn: int)
    requires Counted(m, s) && |senders| >= Quorum(|m.peers|) && forall q :: q in senders ==> (q, sn) in s.net
    ensures Backed(m, s, sn)
  {
    var group := senders - m.faulty;
    MinusSize(senders, m.faulty);
    forall p | p in group
      ensures m.Correct(p) && p in s.peers && HoldsUpTo(s.peers[p].Held(), sn)
    {
      assert (p, sn) in s.net;
    }
    assert Holders(m, s, group, sn);
  }

  lemma ReceiveKeeps(m: Membership, s: System, p: int, sender: int, sn: int)
    requires Counted(m, s) && Enabled(m, s, Receive(p, sender, sn))
    ensures Counted(m, Effect(m, s, Receive(p, sender, sn)))
  {
    var s', c, q := Effect(m, s, Receive(p, sender, sn)), s.peers[p].counter, Quorum(|m.peers|);
    var d := Handled(c, sn, sender, q);
    HandledOk(c, sn, sender, q);
    assert Grows(s, s');
    var senders := c.Senders(sn) + {sender};
    if |senders| >= q {
      QuorumBacks(m, s, senders, sn);
    }
    assert CounterOk(m, s, d);
    forall r | r in s'.peers
      ensures CounterOk(m, s', s'.peers[r].counter)
    {
      CounterStays(m, s, s', s'.peers[r].counter);
    }
  }

  lemma LogGrows(log: Log.State, step: Log.Action)
    requires Log.Inv(log) && Log.Enabled(log, step)
    ensures Log.Inv(Log.Effect(log, step)) && log.entries.Keys <= Log.Effect(log, step).entries.Keys
  {
    Log.StepKeeps(log, step);
    forall k | k in log.entries
      ensures k in Log.Effect(log, step).entries
    {
      assert Log.Step(log, Log.Effect(log, step));
      Log.StepWrites(log, Log.Effect(log, step), k);
    }
  }

  /** Logs grow in order, and what is launched is held. */
  lemma LogsKeep(m: Membership, s: System, a: Action)
    requires LogsOk(s) && Enabled(m, s, a)
    ensures LogsOk(Effect(m, s, a)) && Grows(s, Effect(m, s, a))
    ensures a.Launch? ==> HoldsUpTo(s.peers[a.p].Held(), a.entry.sn)
  {
    if a.LogStep? {
      LogGrows(s.peers[a.p].log, a.step);
    } else if a.Launch? {
      Log.GotHeld(s.peers[a.p].log, a.reader, a.entry);
    }
  }

  lemma CountedKeeps(m: Membership, s: System, a: Action)
    requires Counted(m, s) && Enabled(m, s, a) && Grows(s, Effect(m, s, a))
    requires a.Launch? ==> HoldsUpTo(s.peers[a.p].Held(), a.entry.sn)
    ensures Counted(m, Effect(m, s, a))
  {
    if a.Receive? {
      ReceiveKeeps(m, s, a.p, a.sender, a.sn);
    } else {
      var s' := Effect(m, s, a);
      forall r | r in s'.peers
        ensures CounterOk(m, s', s'.peers[r].counter)
      {
        CounterStays(m, s, s', s'.peers[r].counter);
      }
    }
  }

  lemma StepKeeps(m: Membership, s: System, a: Action)
    requires Inv(m, s) && Enabled(m, s, a)
    ensures Inv(m, Effect(m, s, a)) && Grows(s, Effect(m, s, a))
  {
    LogsKeep(m, s, a);
    CountedKeeps(m, s, a);
  }

  lemma NextKeeps(m: Membership, s: System, s': System)
    requires Inv(m, s) && Step(m, s, s')
    ensures Inv(m, s') && Grows(s, s')
  {
    var a :| Enabled(m, s, a) && s' == Effect(m, s, a);
    StepKeeps(m, s, a);
  }

  lemma {:induction false} RunKeeps(m: Membership, t: seq<System>)
    requires Run(m, t)
    ensures Inv(m, t[|t| - 1])
  {
    var n := |t| - 1;
    if n > 0 {
      RunKeeps(m, t[..n]);
      NextKeeps(m, t[n - 1], t[n]);
    }
  }

  /** Whenever a correct peer has a stable checkpoint, more than `f` correct peers hold every entry up to it. */
  lemma {:induction false} StableIsBacked(m: Membership, t: seq<System>, p: int)
    requires Run(m, t) && p in t[|t| - 1].peers && t[|t| - 1].peers[p].counter.stable.Some?
    ensures Backed(m, t[|t| - 1], t[|t| - 1].peers[p].counter.stable.value)
  {
    RunKeeps(m, t);
  }

  // ---------- Quorums of messages make checkpoints stable ----------

  /** No message is forgotten: its number is stable, or its sender is counted; and no quorum is left pending. */
  ghost predicate Tallied(ps: Peer, q: nat) {
    && (forall p, sn :: (p, sn) in ps.received ==> ps.counter.Obsolete(sn) || p in ps.counter.Senders(sn))
    && forall sn :: sn in ps.counter.pending ==> |ps.counter.pending[sn]| < q
  }

  ghost predicate AllTallied(m: Membership, s: System) {
    forall p :: p in s.peers ==> Tallied(s.peers[p], Quorum(|m.peers|))
  }

  lemma HandledTallied(ps: Peer, sn: int, sender: int, q: nat)
    requires ps.counter.Ok() && Tallied(ps, q)
    ensures Tallied(ps.(counter := Handled(ps.counter, sn, sender, q), received := ps.received + {(sender, sn)}), q)
  {
    var c, d := ps.counter, Handled(ps.counter, sn, sender, q);
    HandledOk(c, sn, sender, q);
    forall k | k in d.pending
      ensures |d.pending[k]| < q
    {
      if k in c.pending && k != sn {
        assert d.Senders(k) == c.Senders(k) + {} == c.pending[k];
      }
    }
  }

  lemma StepTallies(m: Membership, s: System, a: Action)
    requires Inv(m, s) && Enabled(m, s, a) && AllTallied(m, s)
    ensures AllTallied(m, Effect(m, s, a))
  {
    if a.Receive? {
      HandledTallied(s.peers[a.p], a.sn, a.sender, Quorum(|m.peers|));
    }
  }

  lemma {:induction false} RunTallies(m: Membership, t: seq<System>)
    requires Run(m, t)
    ensures AllTallied(m, t[|t| - 1])
  {
    var n := |t| - 1;
    if n > 0 {
      RunTallies(m, t[..n]);
      RunKeeps(m, t[..n]);
      var a :| Enabled(m, t[n - 1], a) && t[n] == Effect(m, t[n - 1], a);
      StepTallies(m, t[n - 1], a);
    }
  }

  /** The senders from which a peer has received a checkpoint message for `sn`. */
  function From(ps: Peer, sn: int): set<int> {
    set x | x in ps.received && x.1 == sn :: x.0
  }

  /** In every run, a checkpoint message that a peer has launched can be received by all correct peers from then on. */
  lemma {:induction false} LaunchedArrives(m: Membership, t: seq<System>, i: nat, j: nat, a: Action, q: int)
    requires Run(m, t) && i < j < |t| && a.Launch? && Enabled(m, t[i], a) && t[i + 1] == Effect(m, t[i], a)
    requires q in t[j].peers
    ensures Enabled(m, t[j], Receive(q, a.p, a.entry.sn))
  {
    NetGrows(m, t, i + 1, j);
  }

  lemma {:induction false} NetGrows(m: Membership, t: seq<System>, i: nat, j: nat)
    requires Run(m, t) && i <= j < |t|
    ensures t[i].net <= t[j].net
    decreases j
  {
    if i < j {
      NetGrows(m, t, i, j - 1);
      RunAt(m, t, j);
      StepNet(m, t[j - 1], t[j]);
    }
  }

  lemma StepNet(m: Membership, s: System, s': System)
    requires Step(m, s, s')
    ensures s.net <= s'.net
  {
  }

  /** In every run, a peer that has received messages for `sn` from a quorum of different senders has a stable
      checkpoint at `sn` or above. */
  lemma {:induction false} QuorumMakesStable(m: Membership, t: seq<System>, p: int, sn: int)
    requires Run(m, t) && p in t[|t| - 1].peers && |From(t[|t| - 1].peers[p], sn)| >= Quorum(|m.peers|)
    ensures t[|t| - 1].peers[p].counter.stable.Some? && t[|t| - 1].peers[p].counter.stable.value >= sn
  {
    RunTallies(m, t);
    var ps := t[|t| - 1].peers[p];
    if !ps.counter.Obsolete(sn) {
      forall q | q in From(ps, sn)
        ensures q in ps.counter.Senders(sn)
      {
        assert (q, sn) in ps.received;
      }
      SubsetSize(From(ps, sn), ps.counter.Senders(sn));
    }
  }

  lemma {:induction false} RunAt(m: Membership, t: seq<System>, n: nat)
    requires Run(m, t) && n < |t|
    ensures Inv(m, t[n]) && (n > 0 ==> Step(m, t[n - 1], t[n]))
  {
    if n == |t| - 1 {
      RunKeeps(m, t);
    } else {
      RunAt(m, t[..|t| - 1], n);
    }
  }

  /** The stable checkpoint of a correct peer never falls, and stays backed. */
  lemma {:induction false} StableGrows(m: Membership, t: seq<System>, i: nat, j: nat, p: int, sn: int)
    requires Run(m, t) && i <= j < |t| && p in t[i].peers && t[i].peers[p].counter.stable == Some(sn)
    ensures p in t[j].peers && t[j].peers[p].counter.stable.Some? && t[j].peers[p].counter.stable.value >= sn
    ensures Backed(m, t[j], sn)
    decreases j
  {
    RunAt(m, t, j);
    if i < j {
      StableGrows(m, t, i, j - 1, p, sn);
      RunAt(m, t, j - 1);
      StepStable(m, t[j - 1], t[j], p);
      NextKeeps(m, t[j - 1], t[j]);
      BackedStays(m, t[j - 1], t[j], sn);
    }
  }

  lemma StepStable(m: Membership, s: System, s': System, p: int)
    requires Inv(m, s) && Step(m, s, s') && p in s.peers && s.peers[p].counter.stable.Some?
    ensures p in s'.peers && s'.peers[p].counter.stable.Some?
    ensures s'.peers[p].counter.stable.value >= s.peers[p].counter.stable.value
  {
    var a :| Enabled(m, s, a) && s' == Effect(m, s, a);
    if a.Receive? && a.p == p {
      HandledOk(s.peers[p].counter, a.sn, a.sender, Quorum(|m.peers|));
    }
  }
}
