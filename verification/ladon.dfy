/** The Ladon layer of one PBFT instance in view 0, with every node leading one segment: blocks that
    reach their commit quorum are announced in order, sequence numbers the leader skipped are filled
    with empty blocks, and blocks that are early wait. */
module Ladon {
  import opened Arithmetic
  import opened Collections

  /** What is known about one sequence number: the proposed batch, how many PREPAREs and COMMITs have
      arrived, and whether it has been committed. */
  datatype Block = Block(batch: Option<int>, votes: nat, committed: bool) {
    predicate HasMessages() {
      batch.Some? || votes > 0
    }
  }

  /** A log entry: a batch, or an empty block that fills a gap. */
  datatype Entry = Entry(sn: int, batch: Option<int>)

  /** The `k`-th sequence number of a segment whose numbers are `n` apart. */
  ghost function Nth(first: int, n: int, k: nat): int {
    if k == 0 then first else Nth(first, n, k - 1) + n
  }

  lemma {:induction false} NthIs(first: int, n: int, k: nat)
    ensures Nth(first, n, k) == first + k * n
  {
    if k > 0 {
      NthIs(first, n, k - 1);
    }
  }

  lemma {:induction false} NthGrows(first: int, n: int, j: nat, k: nat)
    requires n > 0 && j < k
    ensures Nth(first, n, j) + n <= Nth(first, n, k)
  {
    if j < k - 1 {
      NthGrows(first, n, j, k - 1);
    }
  }

  /** Sequence numbers are ordered like their positions. */
  lemma NthOrdered(first: int, n: int, j: nat, k: nat)
    requires n > 0
    ensures j < k ==> Nth(first, n, j) + n <= Nth(first, n, k)
    ensures k < j ==> Nth(first, n, k) + n <= Nth(first, n, j)
  {
    if j < k {
      NthGrows(first, n, j, k);
    } else if k < j {
      NthGrows(first, n, k, j);
    }
  }

  /** The segment of the instance: `len` sequence numbers, `n` apart. */
  datatype Segment = Segment(first: int, n: int, len: nat) {
    ghost function Sn(k: nat): int {
      Nth(first, n, k)
    }

    ghost predicate IsSn(sn: int) {
      exists k: nat :: k < len && sn == Sn(k)
    }
  }

  /** State of the announcing machinery. `ready` are the blocks that have reached their commit quorum. */
  datatype State = State(blocks: map<int, Block>, waiting: map<int, set<int>>, announced: seq<Entry>, ready: set<int>) {
    function Waiters(sn: int): set<int> {
      if sn in waiting then waiting[sn] else {}
    }
  }

  /** Block and log entry of the `k`-th sequence number agree. */
  ghost predicate EntryOk(g: Segment, s: State, k: nat)
    requires k < |s.announced|
  {
    var sn := g.Sn(k);
    && s.announced[k].sn == sn
    && (if sn in s.ready then sn in s.blocks && s.announced[k].batch == s.blocks[sn].batch
        else s.announced[k].batch == None && s.Waiters(sn) == {})
  }

  /** Exactly the first sequence numbers are committed, and exactly those have been announced, in
      order, each once. Those without a commit quorum were filled with empty blocks, and nothing
      waits for them. */
  ghost predicate Prefix(g: Segment, s: State) {
    && g.n > 0 && |s.announced| <= g.len
    && (forall sn :: sn in s.blocks <==> g.IsSn(sn))
    && (forall k: nat :: k < g.len ==> g.Sn(k) in s.blocks && (s.blocks[g.Sn(k)].committed <==> k < |s.announced|))
    && (forall k: nat :: k < |s.announced| ==> EntryOk(g, s, k))
  }

  /** A block waits only for an earlier block that has received messages. */
  ghost predicate WaitOk(s: State, i: int, sn: int) {
    sn in s.ready && i < sn && i in s.blocks && s.blocks[i].HasMessages()
  }

  ghost predicate WaitersOk(s: State) {
    && (forall sn :: sn in s.ready ==> sn in s.blocks && s.blocks[sn].batch.Some?)
    && (forall i, sn :: sn in s.Waiters(i) ==> WaitOk(s, i, sn))
  }

  ghost predicate Ok(g: Segment, s: State) {
    Prefix(g, s) && WaitersOk(s)
  }

  /** `sn` waits for the earlier block `i`, which has not been announced. */
  ghost predicate HeldBy(s: State, i: int, sn: int) {
    i in s.blocks && !s.blocks[i].committed && sn in s.Waiters(i)
  }

  ghost predicate Held(s: State, sn: int) {
    exists i :: HeldBy(s, i, sn)
  }

  /** Every block with a commit quorum is announced or held, except those in `pending`. */
  ghost predicate NoneStranded(s: State, pending: set<int>) {
    forall sn :: sn in s.ready && sn in s.blocks ==> s.blocks[sn].committed || Held(s, sn) || sn in pending
  }

  /** Announcing commits blocks and leaves their proposals and votes alone. */
  ghost predicate SameContents(a: map<int, Block>, b: map<int, Block>) {
    && b.Keys == a.Keys
    && forall i :: i in a ==>
         b[i].batch == a[i].batch && b[i].votes == a[i].votes && (a[i].committed ==> b[i].committed)
  }

  // ---------- Steps ----------

  /** A message arrives for a block: a vote, or a proposal for a block that has none. */
  function Arrive(s: State, sn: int, b: Block): State {
    s.(blocks := s.blocks[sn := b])
  }

  lemma ArriveOk(g: Segment, s: State, sn: int, b: Block, pending: set<int>)
    requires Ok(g, s) && NoneStranded(s, pending) && sn in s.blocks
    requires b.committed == s.blocks[sn].committed && b.HasMessages()
    requires b.batch == s.blocks[sn].batch || (!b.committed && b.batch.Some?)
    ensures Ok(g, Arrive(s, sn, b)) && NoneStranded(Arrive(s, sn, b), pending)
  {
    var s' := Arrive(s, sn, b);
    forall k: nat | k < |s'.announced|
      ensures EntryOk(g, s', k)
    {
      assert EntryOk(g, s, k);
    }
    forall i, x | x in s'.Waiters(i)
      ensures WaitOk(s', i, x)
    {
      assert WaitOk(s, i, x);
    }
    StillHeld(s, s', pending);
  }

  lemma StillHeld(s: State, s': State, pending: set<int>)
    requires NoneStranded(s, pending) && s'.waiting == s.waiting && s'.ready == s.ready
    requires s'.blocks.Keys == s.blocks.Keys
    requires forall i :: i in s.blocks ==> s'.blocks[i].committed == s.blocks[i].committed
    ensures NoneStranded(s', pending)
  {
    forall sn | sn in s'.ready && sn in s'.blocks && !s'.blocks[sn].committed && sn !in pending
      ensures Held(s', sn)
    {
      var i :| HeldBy(s, i, sn);
      assert HeldBy(s', i, sn);
    }
  }

  /** `sn` is registered as waiting for `i`. */
  function Wait(s: State, i: int, sn: int): State {
    s.(waiting := s.waiting[i := s.Waiters(i) + {sn}])
  }

  lemma WaitIsOk(g: Segment, s: State, i: int, sn: int, pending: set<int>)
    requires Ok(g, s) && NoneStranded(s, pending) && sn in s.ready && i < sn
    requires i in s.blocks && s.blocks[i].HasMessages() && !s.blocks[i].committed
    ensures Ok(g, Wait(s, i, sn)) && NoneStranded(Wait(s, i, sn), pending - {sn})
  {
    var s' := Wait(s, i, sn);
    forall k: nat | k < |s'.announced|
      ensures EntryOk(g, s', k)
    {
      assert EntryOk(g, s, k);
      assert g.Sn(k) != i;
    }
    forall j, x | x in s'.Waiters(j)
      ensures WaitOk(s', j, x)
    {
      assert (j == i && x == sn) || WaitOk(s, j, x);
    }
    forall x | x in s'.ready && x in s'.blocks && !s'.blocks[x].committed && x !in pending - {sn}
      ensures Held(s', x)
    {
      if x == sn {
        assert HeldBy(s', i, sn);
      } else {
        var j :| HeldBy(s, j, x);
        assert HeldBy(s', j, x);
      }
    }
  }

  /** `sn`, the next sequence number, is committed and its entry announced. */
  function Commit(s: State, sn: int, batch: Option<int>): State
    requires sn in s.blocks
  {
    s.(blocks := s.blocks[sn := s.blocks[sn].(committed := true)], announced := s.announced + [Entry(sn, batch)])
  }

  lemma CommitOk(g: Segment, s: State, sn: int, batch: Option<int>, pending: set<int>)
    requires Ok(g, s) && NoneStranded(s, pending) && |s.announced| < g.len && sn == g.Sn(|s.announced|)
    requires sn in s.blocks
    requires (if sn in s.ready then batch == s.blocks[sn].batch else batch.None? && !s.blocks[sn].HasMessages())
    ensures Ok(g, Commit(s, sn, batch)) && NoneStranded(Commit(s, sn, batch), pending - {sn} + s.Waiters(sn))
  {
    var s', d := Commit(s, sn, batch), |s.announced|;
    forall k: nat | k < |s'.announced|
      ensures EntryOk(g, s', k)
    {
      if k < d {
        NthOrdered(g.first, g.n, k, d);
        assert EntryOk(g, s, k);
      } else {
        assert forall x :: x in s.Waiters(sn) ==> s.blocks[sn].HasMessages() by {
          assert forall x :: x in s.Waiters(sn) ==> WaitOk(s, sn, x);
        }
        if s.Waiters(sn) != {} {
          var x := Member(s.Waiters(sn));
        }
      }
    }
    forall k: nat | k < g.len
      ensures g.Sn(k) in s'.blocks && (s'.blocks[g.Sn(k)].committed <==> k < d + 1)
    {
      NthOrdered(g.first, g.n, k, d);
    }
    forall i, x | x in s'.Waiters(i)
      ensures WaitOk(s', i, x)
    {
      assert WaitOk(s, i, x);
    }
    forall x | x in s'.ready && x in s'.blocks && !s'.blocks[x].committed && x !in pending - {sn} + s.Waiters(sn)
      ensures Held(s', x)
    {
      var i :| HeldBy(s, i, x);
      assert HeldBy(s', i, x);
    }
  }

  /** A block reaches its commit quorum. */
  lemma QuorumOk(g: Segment, s: State, sn: int, pending: set<int>)
    requires Ok(g, s) && NoneStranded(s, pending) && sn in s.blocks && s.blocks[sn].batch.Some?
    requires !s.blocks[sn].committed
    ensures Ok(g, s.(ready := s.ready + {sn})) && NoneStranded(s.(ready := s.ready + {sn}), pending + {sn})
  {
    var s' := s.(ready := s.ready + {sn});
    forall k: nat | k < |s'.announced|
      ensures EntryOk(g, s', k)
    {
      assert EntryOk(g, s, k);
      assert g.Sn(k) != sn;
    }
    forall i, x | x in s'.Waiters(i)
      ensures WaitOk(s', i, x)
    {
      assert WaitOk(s, i, x);
    }
    forall x | x in s'.ready && x in s'.blocks && !s'.blocks[x].committed && x !in pending + {sn}
      ensures Held(s', x)
    {
      var i :| HeldBy(s, i, x);
      assert HeldBy(s', i, x);
    }
  }

  lemma PendingGrows(s: State, a: set<int>, b: set<int>)
    requires NoneStranded(s, a) && forall sn :: sn in a && sn in s.blocks && !s.blocks[sn].committed ==> sn in b
    ensures NoneStranded(s, b)
  {
  }

  /** The smallest element of a set. */
  method Least(s: set<int>) returns (x: int)
    requires s != {}
    ensures x in s && forall y :: y in s ==> x <= y
  {
    x := Pick(s);
    var rest := s - {x};
    while rest != {}
      invariant rest <= s && x in s && forall y :: y in s && y !in rest ==> x <= y
      decreases |rest|
    {
      var y := Pick(rest);
      rest := rest - {y};
      if y < x {
        x := y;
      }
    }
  }

  class Announcer {
    const seg: Segment
    const leader: int
    var blocks: map<int, Block>
    /** For each leader, the first sequence number not yet committed. */
    var firstUncommit: map<int, int>
    /** For a sequence number, the later ones that wait for it. */
    var waiting: map<int, set<int>>
    var announced: seq<Entry>
    ghost var ready: set<int>

    ghost function Snapshot(): State
      reads this
    {
      State(blocks, waiting, announced, ready)
    }

    ghost predicate Valid()
      reads this
    {
      && Ok(seg, Snapshot())
      && leader in firstUncommit && firstUncommit[leader] == seg.Sn(|announced|)
      && (announced != [] ==> seg.Sn(|announced| - 1) in ready)
    }

    /** Between events nothing is stranded. */
    ghost predicate Quiescent()
      reads this
    {
      Valid() && NoneStranded(Snapshot(), {})
    }

    /** Announces `sn` and everything that becomes announceable with it, fills the gap before it, or
        leaves it waiting for an earlier block. */
    method Announce(sn: int, ghost k: nat, ghost pending: set<int>)
      requires Valid() && NoneStranded(Snapshot(), pending)
      requires k < seg.len && sn == seg.Sn(k) && sn in ready
      modifies this
      ensures Valid() && NoneStranded(Snapshot(), pending - {sn})
      ensures ready == old(ready) && old(announced) <= announced && SameContents(old(blocks), blocks)
      decreases seg.len - |announced|, 2
    {
      if blocks[sn].committed {
        PendingGrows(Snapshot(), pending, pending - {sn});
        return;
      }
      NthOrdered(seg.first, seg.n, |announced|, k);
      var blocker := FindBlocker(sn, k);
      if blocker.Some? {
        var i := blocker.value;
        WaitIsOk(seg, Snapshot(), i, sn, pending);
        waiting := waiting[i := (if i in waiting then waiting[i] else {}) + {sn}];
      } else {
        FillUpTo(sn, k, pending);
        CommitAndRelease(sn, k, pending);
      }
    }

    /** The first uncommitted sequence number before `sn` for which messages have arrived. */
    method FindBlocker(sn: int, ghost k: nat) returns (blocker: Option<int>)
      requires Valid() && |announced| <= k < seg.len && sn == seg.Sn(k)
      ensures blocker.Some? ==> blocker.value < sn && blocker.value in blocks
                                && blocks[blocker.value].HasMessages() && !blocks[blocker.value].committed
      ensures blocker.None? ==> forall m: nat :: |announced| <= m < k ==> !blocks[seg.Sn(m)].HasMessages()
    {
      var i := firstUncommit[leader];
      ghost var j := |announced|;
      while i < sn
        invariant |announced| <= j <= k && i == seg.Sn(j)
        invariant forall m: nat :: |announced| <= m < j ==> !blocks[seg.Sn(m)].HasMessages()
        decreases k - j
      {
        NthOrdered(seg.first, seg.n, j, k);
        if blocks[i].HasMessages() {
          return Some(i);
        }
        i, j := i + seg.n, j + 1;
      }
      NthOrdered(seg.first, seg.n, j, k);
      return None;
    }

    /** Commits empty blocks for every sequence number before `sn`. */
    method FillUpTo(sn: int, ghost k: nat, ghost pending: set<int>)
      requires Valid() && NoneStranded(Snapshot(), pending)
      requires |announced| <= k < seg.len && sn == seg.Sn(k)
      requires forall m: nat :: |announced| <= m < k ==> !blocks[seg.Sn(m)].HasMessages()
      modifies this
      ensures Ok(seg, Snapshot()) && NoneStranded(Snapshot(), pending) && |announced| == k
      ensures ready == old(ready) && firstUncommit == old(firstUncommit) && waiting == old(waiting)
      ensures old(announced) <= announced && SameContents(old(blocks), blocks)
    {
      var i := firstUncommit[leader];
      while i < sn
        invariant |announced| <= k && i == seg.Sn(|announced|)
        invariant Ok(seg, Snapshot()) && NoneStranded(Snapshot(), pending)
        invariant ready == old(ready) && firstUncommit == old(firstUncommit) && waiting == old(waiting)
        invariant old(announced) <= announced && SameContents(old(blocks), blocks)
        invariant forall m: nat :: |announced| <= m < k ==> !blocks[seg.Sn(m)].HasMessages()
        decreases k - |announced|
      {
        NthOrdered(seg.first, seg.n, |announced|, k);
        FillOne(i, k, pending);
        i := i + seg.n;
      }
      NthOrdered(seg.first, seg.n, |announced|, k);
    }

    /** Commits an empty block for the next sequence number. */
    method FillOne(i: int, ghost k: nat, ghost pending: set<int>)
      requires Ok(seg, Snapshot()) && NoneStranded(Snapshot(), pending)
      requires |announced| < k < seg.len && i == seg.Sn(|announced|)
      requires forall m: nat :: |announced| <= m < k ==> !blocks[seg.Sn(m)].HasMessages()
      modifies this`announced, this`blocks
      ensures Ok(seg, Snapshot()) && NoneStranded(Snapshot(), pending)
      ensures announced == old(announced) + [Entry(i, None)] && SameContents(old(blocks), blocks)
      ensures forall m: nat :: |announced| <= m < k ==> !blocks[seg.Sn(m)].HasMessages()
    {
      ghost var s, m := Snapshot(), |announced|;
      CommitOk(seg, s, i, None, pending);
      announced := announced + [Entry(i, None)];
      blocks := blocks[i := blocks[i].(committed := true)];
      assert s.Waiters(i) == {} by {
        assert EntryOk(seg, Snapshot(), m);
      }
      PendingGrows(Snapshot(), pending - {i} + s.Waiters(i), pending);
    }

    /** Commits `sn`, the next sequence number, and announces what was waiting for it, in order. */
    method CommitAndRelease(sn: int, ghost k: nat, ghost pending: set<int>)
      requires Ok(seg, Snapshot()) && NoneStranded(Snapshot(), pending) && leader in firstUncommit
      requires |announced| == k < seg.len && sn == seg.Sn(k) && sn in ready
      modifies this
      ensures Valid() && NoneStranded(Snapshot(), pending - {sn})
      ensures ready == old(ready) && old(announced) < announced && SameContents(old(blocks), blocks)
      decreases seg.len - |announced|, 1
    {
      CommitOk(seg, Snapshot(), sn, blocks[sn].batch, pending);
      announced := announced + [Entry(sn, blocks[sn].batch)];
      blocks := blocks[sn := blocks[sn].(committed := true)];
      firstUncommit := firstUncommit[leader := sn + seg.n];
      var todo := if sn in waiting then waiting[sn] else {};
      assert forall v :: v in todo ==> WaitOk(Snapshot(), sn, v);
      ReleaseAll(todo, pending - {sn});
    }

    /** Announces the blocks of `waiters`, least first. */
    method ReleaseAll(waiters: set<int>, ghost pending: set<int>)
      requires Valid() && NoneStranded(Snapshot(), pending + waiters) && forall v :: v in waiters ==> v in ready
      modifies this
      ensures Valid() && NoneStranded(Snapshot(), pending)
      ensures ready == old(ready) && old(announced) <= announced && SameContents(old(blocks), blocks)
      decreases seg.len - |announced| + 1, 0
    {
      var todo := waiters;
      while todo != {}
        invariant Valid() && NoneStranded(Snapshot(), pending + todo)
        invariant ready == old(ready) && old(announced) <= announced && forall v :: v in todo ==> v in ready
        invariant SameContents(old(blocks), blocks)
        decreases |todo|
      {
        var v := Least(todo);
        ghost var kv: nat :| kv < seg.len && v == seg.Sn(kv);
        Announce(v, kv, pending + todo);
        PendingGrows(Snapshot(), pending + todo - {v}, pending + (todo - {v}));
        todo := todo - {v};
      }
      PendingGrows(Snapshot(), pending + todo, pending);
    }
  
    // ---------- Events ----------

    constructor (seg: Segment, leader: int)
      requires seg.n > 0
      ensures this.seg == seg && this.leader == leader && Quiescent() && announced == [] && ready == {}
    {
      this.seg, this.leader := seg, leader;
      var made: map<int, Block> := map[];
      var sn := seg.first;
      for k := 0 to seg.len
        invariant sn == seg.Sn(k)
        invariant forall x :: x in made <==> exists j: nat :: j < k && x == seg.Sn(j)
        invariant forall x :: x in made ==> made[x] == Block(None, 0, false)
      {
        made := made[sn := Block(None, 0, false)];
        sn := sn + seg.n;
      }
      blocks := made;
      firstUncommit := map[leader := seg.first];
      waiting, announced, ready := map[], [], {};
    }

    /** A PREPARE or COMMIT for `sn` is recorded. */
    method Receive(sn: int)
      requires Quiescent() && sn in blocks
      modifies this
      ensures Quiescent() && ready == old(ready) && announced == old(announced)
      ensures blocks == old(blocks)[sn := old(blocks)[sn].(votes := old(blocks)[sn].votes + 1)]
    {
      ArriveOk(seg, Snapshot(), sn, blocks[sn].(votes := blocks[sn].votes + 1), {});
      blocks := blocks[sn := blocks[sn].(votes := blocks[sn].votes + 1)];
    }

    /** A proposal for `sn` arrives. It is ignored if the block is committed or has a proposal. */
    method Propose(sn: int, batch: int)
      requires Quiescent() && sn in blocks
      modifies this
      ensures Quiescent() && ready == old(ready) && announced == old(announced)
      ensures blocks == if old(blocks)[sn].committed || old(blocks)[sn].batch.Some? then old(blocks)
                        else old(blocks)[sn := old(blocks)[sn].(batch := Some(batch))]
    {
      if !blocks[sn].committed && blocks[sn].batch.None? {
        ArriveOk(seg, Snapshot(), sn, blocks[sn].(batch := Some(batch)), {});
        blocks := blocks[sn := blocks[sn].(batch := Some(batch))];
      }
    }

    /** The block of `sn` has a proposal and a commit quorum. */
    method OnCommitQuorum(sn: int)
      requires Quiescent() && sn in blocks && blocks[sn].batch.Some?
      modifies this
      ensures Quiescent() && old(announced) <= announced && SameContents(old(blocks), blocks)
      ensures ready == if old(blocks)[sn].committed then old(ready) else old(ready) + {sn}
      ensures old(blocks)[sn].committed ==> Snapshot() == old(Snapshot())
    {
      if !blocks[sn].committed {
        QuorumOk(seg, Snapshot(), sn, {});
        ready := ready + {sn};
        ghost var k: nat :| k < seg.len && sn == seg.Sn(k);
        Announce(sn, k, {} + {sn});
        PendingGrows(Snapshot(), {} + {sn} - {sn}, {});
      }
    }

    /** A missing entry obtained by state transfer replaces the proposal and is announced at once. The
        leader is recomputed from the sequence number. */
    method HandleMissingEntry(sn: int, batch: int)
      requires Quiescent() && sn in blocks && leader == seg.first % seg.n
      modifies this
      ensures Quiescent() && old(announced) <= announced
      ensures old(blocks)[sn].committed ==> Snapshot() == old(Snapshot())
      ensures !old(blocks)[sn].committed ==>
                && ready == old(ready) + {sn}
                && SameContents(old(blocks)[sn := old(blocks)[sn].(batch := Some(batch))], blocks)
    {
      if !blocks[sn].committed {
        ghost var k: nat :| k < seg.len && sn == seg.Sn(k);
        LeaderOf(seg, k);
        var of := sn % seg.n;
        assert of == leader;
        ArriveOk(seg, Snapshot(), sn, blocks[sn].(batch := Some(batch)), {});
        blocks := blocks[sn := blocks[sn].(batch := Some(batch))];
        OnCommitQuorum(sn);
      }
    }
  }

  /** Sequence numbers of one segment have the same leader. */
  lemma {:induction false} LeaderOf(g: Segment, k: nat)
    requires g.n > 0
    ensures g.Sn(k) % g.n == g.first % g.n
  {
    if k > 0 {
      LeaderOf(g, k - 1);
      assert g.Sn(k) == g.Sn(k - 1) + g.n;
      ModPlus(g.Sn(k - 1), 1, g.n);
    }
  }

  // ---------- Consequences ----------

  /** Once nothing uncommitted has received messages, everything that reached its quorum is announced. */
  lemma AllReadyAnnounced(g: Segment, s: State, sn: int)
    requires Ok(g, s) && NoneStranded(s, {}) && sn in s.ready
    requires forall i :: i in s.blocks && !s.blocks[i].committed && i < sn ==> !s.blocks[i].HasMessages()
    ensures s.blocks[sn].committed
    ensures exists k: nat :: k < |s.announced| && s.announced[k] == Entry(sn, s.blocks[sn].batch)
  {
    assert forall i :: sn in s.Waiters(i) ==> WaitOk(s, i, sn);
    assert s.blocks[sn].committed;
    var k: nat :| k < g.len && sn == g.Sn(k);
    assert EntryOk(g, s, k);
  }
}
