/** The log of one peer: slots are written once by concurrent committers; readers get entries in order, followers out
    of order, and waiters are woken. The steps are the sections that the source protects with a lock, and the stores to
    the concurrent map of entries, which may fall between any two of them. */
module Log {
  import opened Collections

  datatype Entry = Entry(sn: int, batch: Option<int>)

  /** Where a committing thread is. */
  datatype Phase =
    | Stored(entry: Entry)
    | Ready
    /** Holds the publish lock and is about to look at the first empty slot. */
    | Scanning
    /** Holds the publish lock and has pushed the entry of the first empty slot to the readers. */
    | Pushed

  /** An in-order subscriber. */
  datatype Reader = Reader(start: int, got: seq<Entry>)

  /** An out-of-order subscriber, and the slots that had been published when it subscribed. */
  datatype Follower = Follower(before: set<int>, got: seq<Entry>)

  datatype State = State(
    entries: map<int, Entry>,
    first: int,
    readers: seq<Reader>,
    followers: seq<Follower>,
    /** The calls that wait for an entry, by sequence number. */
    waiting: map<int, set<int>>,
    returned: set<(int, int)>,
    threads: map<int, Phase>,
    /** The thread that keeps the publish lock between steps. */
    holder: Option<int>,
    /** The slots whose entries have been pushed to the followers. */
    published: set<int>)

  datatype Action =
    | Commit(thread: int, entry: Entry)
    | PublishOne(thread: int)
    | Lock(thread: int)
    | Push(thread: int)
    | Notify(thread: int)
    | Unlock(thread: int)
    | Subscribe
    | SubscribeOutOfOrder
    | Wait(call: int, sn: int)

  predicate Enabled(s: State, a: Action) {
    match a
    case Commit(t, _) => t !in s.threads
    case PublishOne(t) => t in s.threads && s.threads[t].Stored? && s.holder.None?
    case Lock(t) => t in s.threads && s.threads[t].Ready? && s.holder.None?
    case Push(t) => t in s.threads && s.threads[t].Scanning? && s.first in s.entries
    case Notify(t) => t in s.threads && s.threads[t].Pushed?
    case Unlock(t) => t in s.threads && s.threads[t].Scanning? && s.first !in s.entries
    case Subscribe => s.holder.None?
    case SubscribeOutOfOrder => s.holder.None?
    case Wait(_, _) => s.holder.None?
  }

  function PushTo(readers: seq<Reader>, e: Entry): seq<Reader> {
    if readers == [] then []
    else [if e.batch.Some? then readers[0].(got := readers[0].got + [e]) else readers[0]] + PushTo(readers[1..], e)
  }

  function Follow(followers: seq<Follower>, e: Entry): seq<Follower> {
    if followers == [] then [] else [followers[0].(got := followers[0].got + [e])] + Follow(followers[1..], e)
  }

  function Waiters(waiting: map<int, set<int>>, sn: int): set<int> {
    if sn in waiting then waiting[sn] else {}
  }

  function Effect(s: State, a: Action): State
    requires Enabled(s, a)
  {
    match a
    case Commit(t, e) =>
      if e.sn in s.entries then s
      else s.(entries := s.entries[e.sn := e], threads := s.threads[t := Stored(e)])
    case PublishOne(t) =>
      var e := s.threads[t].entry;
      s.(followers := Follow(s.followers, e), published := s.published + {e.sn}, threads := s.threads[t := Ready])
    case Lock(t) => s.(holder := Some(t), threads := s.threads[t := Scanning])
    case Push(t) => s.(readers := PushTo(s.readers, s.entries[s.first]), threads := s.threads[t := Pushed])
    case Notify(t) =>
      s.(returned := s.returned + (set w | w in Waiters(s.waiting, s.first) :: (w, s.first)),
         waiting := s.waiting - {s.first}, first := s.first + 1, threads := s.threads[t := Scanning])
    case Unlock(t) => s.(holder := None, threads := s.threads - {t})
    case Subscribe => s.(readers := s.readers + [Reader(s.first, [])])
    case SubscribeOutOfOrder => s.(followers := s.followers + [Follower(s.published, [])])
    case Wait(w, sn) =>
      if s.first > sn then s.(returned := s.returned + {(w, sn)})
      else s.(waiting := s.waiting[sn := Waiters(s.waiting, sn) + {w}])
  }

  const Empty := State(map[], 0, [], [], map[], {}, map[], None, {})

  ghost predicate Run(t: seq<State>) {
    && t != []
    && var n := |t| - 1; if n == 0 then t[0] == Empty else Run(t[..n]) && Step(t[n - 1], t[n])
  }

  ghost predicate Step(s: State, s': State) {
    exists a :: Enabled(s, a) && s' == Effect(s, a)
  }

  // ---------- What every step keeps ----------

  /** The entries with a batch in the slots from `lo` up to `hi`, in order. */
  function Delivered(entries: map<int, Entry>, lo: int, hi: int): seq<Entry>
    decreases hi - lo
  {
    if hi <= lo || hi - 1 !in entries then []
    else Delivered(entries, lo, hi - 1) + if entries[hi - 1].batch.Some? then [entries[hi - 1]] else []
  }

  predicate Pushing(s: State) {
    s.holder.Some? && s.holder.value in s.threads && s.threads[s.holder.value].Pushed?
  }

  /** The slots before this one have been pushed to the readers. */
  function Reached(s: State): int {
    if Pushing(s) then s.first + 1 else s.first
  }

  predicate ReaderOk(s: State, r: Reader) {
    0 <= r.start <= s.first && r.got == Delivered(s.entries, r.start, Reached(s))
  }

  function Slots(es: seq<Entry>): set<int> {
    set i | 0 <= i < |es| :: es[i].sn
  }

  /** A follower has exactly what was published since it subscribed, once each. */
  predicate FollowerOk(s: State, f: Follower) {
    && (forall i :: 0 <= i < |f.got| ==> f.got[i].sn in s.entries && s.entries[f.got[i].sn] == f.got[i])
    && (forall i, j :: 0 <= i < j < |f.got| ==> f.got[i].sn != f.got[j].sn)
    && f.before <= s.published && f.before !! Slots(f.got) && f.before + Slots(f.got) == s.published
  }

  ghost predicate EntriesOk(s: State) {
    && 0 <= s.first
    && (forall k :: k in s.entries ==> s.entries[k].sn == k)
    && (forall k :: 0 <= k < Reached(s) ==> k in s.entries)
  }

  ghost predicate ThreadsOk(s: State) {
    && (forall t :: t in s.threads ==> (s.threads[t].Scanning? || s.threads[t].Pushed? <==> s.holder == Some(t)))
    && (s.holder.Some? ==> s.holder.value in s.threads)
    && (forall t :: t in s.threads && s.threads[t].Stored? ==>
         var e := s.threads[t].entry; e.sn in s.entries && s.entries[e.sn] == e && e.sn !in s.published)
    && (forall t, u :: t in s.threads && u in s.threads && t != u && s.threads[t].Stored? && s.threads[u].Stored? ==>
         s.threads[t].entry.sn != s.threads[u].entry.sn)
    && s.published <= s.entries.Keys
    && (forall k :: k in s.entries && k !in s.published ==>
          exists t :: t in s.threads && s.threads[t] == Stored(s.entries[k]))
  }

  /** A filled first slot is the business of some thread that is not done. */
  ghost predicate FirstOk(s: State) {
    s.first in s.entries ==> s.threads != map[]
  }

  ghost predicate WaitOk(s: State) {
    && (forall sn :: sn in s.waiting ==> sn >= s.first)
    && (forall w, sn :: (w, sn) in s.returned ==> sn < s.first)
  }

  ghost predicate Inv(s: State) {
    && EntriesOk(s) && ThreadsOk(s) && FirstOk(s) && WaitOk(s)
    && (forall i :: 0 <= i < |s.readers| ==> ReaderOk(s, s.readers[i]))
    && (forall i :: 0 <= i < |s.followers| ==> FollowerOk(s, s.followers[i]))
  }

  // ---------- Proof ----------

  lemma {:induction false} PushAt(readers: seq<Reader>, e: Entry)
    ensures |PushTo(readers, e)| == |readers|
    ensures forall i :: 0 <= i < |readers| ==>
              PushTo(readers, e)[i] == if e.batch.Some? then readers[i].(got := readers[i].got + [e]) else readers[i]
  {
    if readers != [] {
      PushAt(readers[1..], e);
    }
  }

  lemma {:induction false} FollowAt(followers: seq<Follower>, e: Entry)
    ensures |Follow(followers, e)| == |followers|
    ensures forall i :: 0 <= i < |followers| ==> Follow(followers, e)[i] == followers[i].(got := followers[i].got + [e])
  {
    if followers != [] {
      FollowAt(followers[1..], e);
    }
  }

  /** Storing into an empty slot does not change what was delivered before. */
  lemma {:induction false} DeliveredStable(entries: map<int, Entry>, e: Entry, lo: int, hi: int)
    requires e.sn !in entries && forall k :: lo <= k < hi ==> k in entries
    ensures Delivered(entries[e.sn := e], lo, hi) == Delivered(entries, lo, hi)
    decreases hi - lo
  {
    if lo < hi {
      DeliveredStable(entries, e, lo, hi - 1);
    }
  }

  lemma CommitKeeps(s: State, t: int, e: Entry)
    requires Inv(s) && Enabled(s, Commit(t, e))
    ensures Inv(Effect(s, Commit(t, e)))
  {
    if e.sn !in s.entries {
      var s' := Effect(s, Commit(t, e));
      assert Reached(s') == Reached(s);
      forall i | 0 <= i < |s.readers|
        ensures ReaderOk(s', s.readers[i])
      {
        DeliveredStable(s.entries, e, s.readers[i].start, Reached(s));
      }
      CommitThreads(s, t, e);
    }
  }

  lemma CommitThreads(s: State, t: int, e: Entry)
    requires ThreadsOk(s) && t !in s.threads && e.sn !in s.entries
    ensures ThreadsOk(Effect(s, Commit(t, e)))
  {
    var s' := Effect(s, Commit(t, e));
    forall k | k in s'.entries && k !in s'.published
      ensures exists u :: u in s'.threads && s'.threads[u] == Stored(s'.entries[k])
    {
      if k == e.sn {
        assert s'.threads[t] == Stored(s'.entries[k]);
      } else {
        var u :| u in s.threads && s.threads[u] == Stored(s.entries[k]);
        assert s'.threads[u] == Stored(s'.entries[k]);
      }
    }
  }

  lemma FollowerGets(s: State, s': State, f: Follower, e: Entry)
    requires FollowerOk(s, f) && s'.entries == s.entries && s'.published == s.published + {e.sn}
    requires e.sn !in s.published && e.sn in s.entries && s.entries[e.sn] == e
    ensures FollowerOk(s', f.(got := f.got + [e]))
  {
    var g := f.got + [e];
    assert g[|f.got|] == e;
    forall k
      ensures k in Slots(g) <==> k in Slots(f.got) || k == e.sn
    {
      if k in Slots(f.got) {
        var i :| 0 <= i < |f.got| && f.got[i].sn == k;
        assert g[i].sn == k;
      }
    }
    forall i | 0 <= i < |f.got|
      ensures f.got[i].sn != e.sn
    {
      assert f.got[i].sn in Slots(f.got);
    }
  }

  lemma PublishOneKeeps(s: State, t: int)
    requires Inv(s) && Enabled(s, PublishOne(t))
    ensures Inv(Effect(s, PublishOne(t)))
  {
    var s', e := Effect(s, PublishOne(t)), s.threads[t].entry;
    FollowAt(s.followers, e);
    forall i | 0 <= i < |s'.followers|
      ensures FollowerOk(s', s'.followers[i])
    {
      FollowerGets(s, s', s.followers[i], e);
    }
    PublishThreads(s, t);
    assert t in s'.threads;
  }

  lemma PublishThreads(s: State, t: int)
    requires ThreadsOk(s) && Enabled(s, PublishOne(t)) && forall k :: k in s.entries ==> s.entries[k].sn == k
    ensures ThreadsOk(Effect(s, PublishOne(t)))
  {
    var s' := Effect(s, PublishOne(t));
    forall k | k in s'.entries && k !in s'.published
      ensures exists u :: u in s'.threads && s'.threads[u] == Stored(s'.entries[k])
    {
      var u :| u in s.threads && s.threads[u] == Stored(s.entries[k]);
      assert s'.threads[u] == Stored(s'.entries[k]);
    }
  }

  /** Steps of the publishing loop change neither the stored nor the published entries. */
  lemma LoopThreads(s: State, t: int, s': State)
    requires ThreadsOk(s) && t in s.threads && !s.threads[t].Stored?
    requires s'.entries == s.entries && s'.published == s.published
    requires s'.threads.Keys == s.threads.Keys || s'.threads.Keys == s.threads.Keys - {t}
    requires forall u :: u in s'.threads && u != t ==> s'.threads[u] == s.threads[u]
    requires t in s'.threads ==> !s'.threads[t].Stored?
    requires forall u :: u in s'.threads ==>
               (s'.threads[u].Scanning? || s'.threads[u].Pushed? <==> s'.holder == Some(u))
    requires s'.holder.Some? ==> s'.holder.value in s'.threads
    ensures ThreadsOk(s')
  {
    forall k | k in s'.entries && k !in s'.published
      ensures exists u :: u in s'.threads && s'.threads[u] == Stored(s'.entries[k])
    {
      var u :| u in s.threads && s.threads[u] == Stored(s.entries[k]);
      assert s'.threads[u] == Stored(s'.entries[k]);
    }
  }

  lemma LockKeeps(s: State, t: int)
    requires Inv(s) && Enabled(s, Lock(t))
    ensures Inv(Effect(s, Lock(t)))
  {
    var s' := Effect(s, Lock(t));
    LoopThreads(s, t, s');
    assert t in s'.threads;
  }

  lemma PushKeeps(s: State, t: int)
    requires Inv(s) && Enabled(s, Push(t))
    ensures Inv(Effect(s, Push(t)))
  {
    var s' := Effect(s, Push(t));
    LoopThreads(s, t, s');
    assert t in s'.threads;
    assert Reached(s) == s.first && Reached(s') == s.first + 1;
    PushReaders(s, s');
  }

  lemma PushReaders(s: State, s': State)
    requires s.first in s.entries && s'.entries == s.entries && s'.first == s.first
    requires s'.readers == PushTo(s.readers, s.entries[s.first])
    requires Reached(s) == s.first && Reached(s') == s.first + 1 && forall i :: 0 <= i < |s.readers| ==>
               ReaderOk(s, s.readers[i])
    ensures forall i :: 0 <= i < |s'.readers| ==> ReaderOk(s', s'.readers[i])
  {
    PushAt(s.readers, s.entries[s.first]);
  }

  lemma NotifyKeeps(s: State, t: int)
    requires Inv(s) && Enabled(s, Notify(t))
    ensures Inv(Effect(s, Notify(t)))
  {
    var s' := Effect(s, Notify(t));
    LoopThreads(s, t, s');
    NotifyWaiters(s, t);
    assert t in s'.threads;
    assert Reached(s) == s.first + 1 && Reached(s') == s.first + 1;
  }

  lemma NotifyWaiters(s: State, t: int)
    requires WaitOk(s) && Enabled(s, Notify(t))
    ensures WaitOk(Effect(s, Notify(t)))
  {
  }

  lemma UnlockKeeps(s: State, t: int)
    requires Inv(s) && Enabled(s, Unlock(t))
    ensures Inv(Effect(s, Unlock(t)))
  {
    LoopThreads(s, t, Effect(s, Unlock(t)));
  }

  lemma StepKeeps(s: State, a: Action)
    requires Inv(s) && Enabled(s, a)
    ensures Inv(Effect(s, a))
  {
    match a
    case Commit(t, e) => CommitKeeps(s, t, e);
    case PublishOne(t) => PublishOneKeeps(s, t);
    case Lock(t) => LockKeeps(s, t);
    case Push(t) => PushKeeps(s, t);
    case Notify(t) => NotifyKeeps(s, t);
    case Unlock(t) => UnlockKeeps(s, t);
    case Subscribe => SubscribeKeeps(s);
    case SubscribeOutOfOrder =>
    case Wait(_, _) => WaitKeeps(s, a);
  }

  lemma SubscribeKeeps(s: State)
    requires Inv(s) && Enabled(s, Subscribe)
    ensures Inv(Effect(s, Subscribe))
  {
  }

  lemma WaitKeeps(s: State, a: Action)
    requires Inv(s) && Enabled(s, a) && a.Wait?
    ensures Inv(Effect(s, a))
  {
  }

  lemma NextKeeps(s: State, s': State)
    requires Inv(s) && Step(s, s')
    ensures Inv(s')
  {
    var a :| Enabled(s, a) && s' == Effect(s, a);
    StepKeeps(s, a);
  }

  lemma {:induction false} RunKeeps(t: seq<State>)
    requires Run(t)
    ensures Inv(t[|t| - 1])
  {
    var n := |t| - 1;
    if n > 0 {
      RunKeeps(t[..n]);
      NextKeeps(t[n - 1], t[n]);
    }
  }

  // ---------- Main results ----------

  /** Every state of a run is kept in order, and follows from the one before by a step. */
  lemma {:induction false} RunAt(t: seq<State>, n: nat)
    requires Run(t) && n < |t|
    ensures Inv(t[n]) && (n > 0 ==> Step(t[n - 1], t[n]))
  {
    if n == |t| - 1 {
      RunKeeps(t);
    } else {
      RunAt(t[..|t| - 1], n);
    }
  }

  /** A slot is written at most once: once filled, it holds the same entry for the rest of the run. */
  lemma {:induction false} WriteOnce(t: seq<State>, i: nat, j: nat, k: int)
    requires Run(t) && i <= j < |t| && k in t[i].entries
    ensures k in t[j].entries && t[j].entries[k] == t[i].entries[k]
    decreases j
  {
    if i < j {
      WriteOnce(t, i, j - 1, k);
      RunAt(t, j);
      StepWrites(t[j - 1], t[j], k);
    }
  }

  lemma StepSubscribers(s: State, s': State)
    requires Step(s, s')
    ensures |s.readers| <= |s'.readers| && |s.followers| <= |s'.followers|
    ensures forall i :: 0 <= i < |s.readers| ==> s'.readers[i].start == s.readers[i].start
    ensures forall i :: 0 <= i < |s.followers| ==> s'.followers[i].before == s.followers[i].before
  {
    var a :| Enabled(s, a) && s' == Effect(s, a);
    if a.Push? {
      PushAt(s.readers, s.entries[s.first]);
    } else if a.PublishOne? {
      FollowAt(s.followers, s.threads[a.thread].entry);
    }
  }

  lemma {:induction false} SubscribersStay(t: seq<State>, i: nat, j: nat)
    requires Run(t) && i <= j < |t|
    ensures |t[i].readers| <= |t[j].readers| && |t[i].followers| <= |t[j].followers|
    ensures forall k :: 0 <= k < |t[i].readers| ==> t[j].readers[k].start == t[i].readers[k].start
    ensures forall k :: 0 <= k < |t[i].followers| ==> t[j].followers[k].before == t[i].followers[k].before
    decreases j
  {
    if i < j {
      SubscribersStay(t, i, j - 1);
      RunAt(t, j);
      StepSubscribers(t[j - 1], t[j]);
    }
  }

  /** A subscriber is there for the rest of the run: an in-order one is due everything from the first empty slot on, and
      an out-of-order one everything that has not been published when it subscribes. */
  lemma SubscribedForGood(t: seq<State>, i: nat, j: nat, a: Action)
    requires Run(t) && i < j < |t| && (a.Subscribe? || a.SubscribeOutOfOrder?) && Enabled(t[i], a)
    requires t[i + 1] == Effect(t[i], a)
    ensures a.Subscribe? ==> |t[i].readers| < |t[j].readers| && t[j].readers[|t[i].readers|].start == t[i].first
    ensures a.SubscribeOutOfOrder? ==>
              |t[i].followers| < |t[j].followers| && t[j].followers[|t[i].followers|].before == t[i].published
  {
    SubscribersStay(t, i + 1, j);
  }

  /** A slot that a commit finds empty holds that entry for the rest of the run, and no commit leaves its slot empty. */
  lemma {:induction false} CommitFills(t: seq<State>, i: nat, j: nat, thread: int, e: Entry)
    requires Run(t) && i < j < |t| && Enabled(t[i], Commit(thread, e)) && t[i + 1] == Effect(t[i], Commit(thread, e))
    ensures e.sn in t[j].entries && t[j].entries[e.sn] == if e.sn in t[i].entries then t[i].entries[e.sn] else e
  {
    assert e.sn in t[i + 1].entries;
    WriteOnce(t, i + 1, j, e.sn);
  }

  lemma StepWrites(s: State, s': State, k: int)
    requires Step(s, s') && k in s.entries
    ensures k in s'.entries && s'.entries[k] == s.entries[k]
  {
  }

  /** What has been delivered is in increasing order and is all there is to deliver. */
  lemma {:induction false} DeliveredExactly(entries: map<int, Entry>, lo: int, hi: int)
    requires forall k :: k in entries ==> entries[k].sn == k
    requires forall k :: lo <= k < hi ==> k in entries
    ensures var d := Delivered(entries, lo, hi);
            && (forall i, j :: 0 <= i < j < |d| ==> d[i].sn < d[j].sn)
            && (forall e :: e in d <==> lo <= e.sn < hi && e.batch.Some? && entries[e.sn] == e)
    decreases hi - lo
  {
    if lo < hi {
      DeliveredExactly(entries, lo, hi - 1);
      var d := Delivered(entries, lo, hi - 1);
      assert forall i :: 0 <= i < |d| ==> d[i] in d;
    }
  }

  /** In every reachable state each reader has exactly the entries with a batch from its subscription up to the first
      empty slot, in order and once each. */
  lemma {:induction false} InOrderDelivery(t: seq<State>, i: nat)
    requires Run(t) && i < |t[|t| - 1].readers|
    ensures var s := t[|t| - 1]; var r := s.readers[i];
            && r.start <= s.first <= Reached(s) <= s.first + 1
            && (forall j, k :: 0 <= j < k < |r.got| ==> r.got[j].sn < r.got[k].sn)
            && (forall e :: e in r.got <==>
                  r.start <= e.sn < Reached(s) && e.batch.Some? && e.sn in s.entries && s.entries[e.sn] == e)
  {
    RunKeeps(t);
    var s := t[|t| - 1];
    DeliveredExactly(s.entries, s.readers[i].start, Reached(s));
  }

  /** A reader that has an entry knows that its slot and all slots before it are filled, which is when a peer may send
      a checkpoint message. */
  lemma {:induction false} DeliveredHeld(t: seq<State>, i: nat, e: Entry)
    requires Run(t) && i < |t[|t| - 1].readers| && e in t[|t| - 1].readers[i].got
    ensures var s := t[|t| - 1]; forall k :: 0 <= k <= e.sn ==> k in s.entries
  {
    RunKeeps(t);
    GotHeld(t[|t| - 1], i, e);
  }

  lemma GotHeld(s: State, i: nat, e: Entry)
    requires Inv(s) && i < |s.readers| && e in s.readers[i].got
    ensures forall k :: 0 <= k <= e.sn ==> k in s.entries
  {
    assert ReaderOk(s, s.readers[i]);
    DeliveredExactly(s.entries, s.readers[i].start, Reached(s));
  }

  /** A follower never gets an entry twice, and when no commit is in progress it has every entry published since it
      subscribed. */
  lemma {:induction false} OutOfOrderDelivery(t: seq<State>, i: nat)
    requires Run(t) && i < |t[|t| - 1].followers|
    ensures var s := t[|t| - 1]; var f := s.followers[i];
            && (forall j, k :: 0 <= j < k < |f.got| ==> f.got[j].sn != f.got[k].sn)
            && (forall j :: 0 <= j < |f.got| ==> f.got[j].sn in s.entries && s.entries[f.got[j].sn] == f.got[j])
            && (s.threads == map[] ==> f.before !! Slots(f.got) && f.before + Slots(f.got) == s.entries.Keys)
  {
    RunKeeps(t);
    var s := t[|t| - 1];
    if s.threads == map[] {
      AllPublished(s);
    }
  }

  lemma AllPublished(s: State)
    requires ThreadsOk(s) && s.threads == map[]
    ensures s.entries.Keys == s.published
  {
    forall k | k in s.entries
      ensures k in s.published
    {
    }
  }

  /** When no commit is in progress, `first` is the least empty slot and whoever still waits waits for a slot at or
      after it. At any time, a call that has returned had its slot and all slots before it filled and delivered. */
  lemma {:induction false} NoLostWakeUp(t: seq<State>)
    requires Run(t)
    ensures var s := t[|t| - 1];
            && (forall k :: 0 <= k < s.first ==> k in s.entries)
            && (s.threads == map[] ==> s.first !in s.entries)
            && (forall sn :: sn in s.waiting ==> sn >= s.first)
            && (forall w, sn :: (w, sn) in s.returned ==> sn < s.first)
  {
    RunKeeps(t);
  }

  /** The call of `w` waits for `sn` or has returned. */
  ghost predicate Pending(s: State, w: int, sn: int) {
    w in Waiters(s.waiting, sn) || (w, sn) in s.returned
  }

  /** From the step that makes it on, a call waits for a slot that has not been passed or has returned, with its slot
      and all before it filled; it does not get lost. */
  lemma {:induction false} WaitsOrReturned(t: seq<State>, i: nat, j: nat, w: int, sn: int)
    requires Run(t) && i < j < |t| && Enabled(t[i], Wait(w, sn)) && t[i + 1] == Effect(t[i], Wait(w, sn))
    ensures var s := t[j];
            || (w in Waiters(s.waiting, sn) && s.first <= sn)
            || ((w, sn) in s.returned && forall k :: 0 <= k <= sn ==> k in s.entries)
  {
    assert Pending(t[i + 1], w, sn);
    StaysPending(t, i + 1, j, w, sn);
    RunAt(t, j);
  }

  lemma {:induction false} StaysPending(t: seq<State>, i: nat, j: nat, w: int, sn: int)
    requires Run(t) && i <= j < |t| && Pending(t[i], w, sn)
    ensures Pending(t[j], w, sn)
    decreases j
  {
    if i < j {
      StaysPending(t, i, j - 1, w, sn);
      RunAt(t, j);
      StepWaits(t[j - 1], t[j], w, sn);
    }
  }

  lemma StepWaits(s: State, s': State, w: int, sn: int)
    requires Step(s, s') && Pending(s, w, sn)
    ensures Pending(s', w, sn)
  {
  }

  // ---------- Commits in progress can finish ----------

  function StoredThreads(s: State): set<int> {
    set t | t in s.threads && s.threads[t].Stored?
  }

  function ReadyThreads(s: State): set<int> {
    set t | t in s.threads && s.threads[t].Ready?
  }

  /** The filled slots that have not been passed. */
  function Ahead(s: State): set<int> {
    set k | k in s.entries && k >= s.first
  }

  /** Whether a step has less to do before it than after it. */
  ghost predicate Less(s: State, s': State) {
    || |StoredThreads(s')| < |StoredThreads(s)|
    || (StoredThreads(s') == StoredThreads(s) && |ReadyThreads(s')| < |ReadyThreads(s)|)
    || (StoredThreads(s') == StoredThreads(s) && ReadyThreads(s') == ReadyThreads(s) &&
        (|s'.threads| < |s.threads| ||
         (s'.threads.Keys == s.threads.Keys &&
          (|Ahead(s')| < |Ahead(s)| || (Ahead(s') == Ahead(s) && Pushing(s') && !Pushing(s))))))
  }

  /** The next step of a thread that is at work. */
  lemma NextAction(s: State) returns (a: Action)
    requires Inv(s) && s.threads != map[]
    ensures Enabled(s, a) && !a.Commit? && !a.Subscribe? && !a.SubscribeOutOfOrder? && !a.Wait?
  {
    if s.holder.Some? {
      var t := s.holder.value;
      a := if s.threads[t].Pushed? then Notify(t) else if s.first in s.entries then Push(t) else Unlock(t);
    } else {
      var t := Member(s.threads.Keys);
      a := if s.threads[t].Stored? then PublishOne(t) else Lock(t);
    }
  }

  lemma FewerStored(s: State, t: int)
    requires t in s.threads && s.threads[t].Stored?
    ensures var s' := s.(threads := s.threads[t := Ready]); |StoredThreads(s')| < |StoredThreads(s)|
  {
    var s' := s.(threads := s.threads[t := Ready]);
    assert StoredThreads(s') == StoredThreads(s) - {t};
  }

  lemma FewerReady(s: State, t: int)
    requires t in s.threads && s.threads[t].Ready?
    ensures var s' := s.(threads := s.threads[t := Scanning]);
            StoredThreads(s') == StoredThreads(s) && |ReadyThreads(s')| < |ReadyThreads(s)|
  {
    var s' := s.(threads := s.threads[t := Scanning]);
    assert StoredThreads(s') == StoredThreads(s);
    assert ReadyThreads(s') == ReadyThreads(s) - {t};
  }

  lemma FewerThreads(s: State, t: int)
    requires t in s.threads && s.threads[t].Scanning?
    ensures var s' := s.(threads := s.threads - {t});
            StoredThreads(s') == StoredThreads(s) && ReadyThreads(s') == ReadyThreads(s) && |s'.threads| < |s.threads|
  {
    var s' := s.(threads := s.threads - {t});
    assert StoredThreads(s') == StoredThreads(s) && ReadyThreads(s') == ReadyThreads(s);
    assert s'.threads.Keys == s.threads.Keys - {t};
    assert |s'.threads| == |s'.threads.Keys| && |s.threads| == |s.threads.Keys|;
  }

  lemma FewerAhead(s: State, t: int)
    requires s.first in s.entries && t in s.threads && !s.threads[t].Stored? && !s.threads[t].Ready?
    ensures var s' := s.(first := s.first + 1, threads := s.threads[t := Scanning]);
            && StoredThreads(s') == StoredThreads(s) && ReadyThreads(s') == ReadyThreads(s)
            && s'.threads.Keys == s.threads.Keys && |Ahead(s')| < |Ahead(s)|
  {
    var s' := s.(first := s.first + 1, threads := s.threads[t := Scanning]);
    assert StoredThreads(s') == StoredThreads(s) && ReadyThreads(s') == ReadyThreads(s);
    assert Ahead(s') == Ahead(s) - {s.first};
  }

  lemma ActionLess(s: State, a: Action)
    requires Inv(s) && Enabled(s, a) && !a.Commit? && !a.Subscribe? && !a.SubscribeOutOfOrder? && !a.Wait?
    ensures Less(s, Effect(s, a)) && Effect(s, a).entries == s.entries
  {
    match a
    case PublishOne(t) => FewerStored(s, t);
    case Lock(t) => FewerReady(s, t);
    case Unlock(t) => FewerThreads(s, t);
    case Notify(t) => FewerAhead(s, t);
    case Push(t) =>
      var s' := Effect(s, a);
      assert StoredThreads(s') == StoredThreads(s) && ReadyThreads(s') == ReadyThreads(s) && Ahead(s') == Ahead(s);
  }

  ghost predicate Path(path: seq<State>) {
    path != [] && forall i :: 0 < i < |path| ==> Step(path[i - 1], path[i])
  }

  lemma {:induction false} FinishFrom(s: State) returns (path: seq<State>)
    requires Inv(s)
    ensures Path(path) && path[0] == s
    ensures path[|path| - 1].threads == map[] && path[|path| - 1].entries == s.entries
    decreases |StoredThreads(s)|, |ReadyThreads(s)|, |s.threads|, |Ahead(s)|, if Pushing(s) then 0 else 1
  {
    if s.threads == map[] {
      path := [s];
    } else {
      var s' := WorkOn(s);
      var rest := FinishFrom(s');
      path := [s] + rest;
    }
  }

  lemma WorkOn(s: State) returns (s': State)
    requires Inv(s) && s.threads != map[]
    ensures Step(s, s') && Inv(s') && Less(s, s') && s'.entries == s.entries
  {
    var a := NextAction(s);
    ActionLess(s, a);
    StepKeeps(s, a);
    s' := Effect(s, a);
  }

  lemma RunOne(t: seq<State>, s: State) returns (longer: seq<State>)
    requires Run(t) && Step(t[|t| - 1], s)
    ensures longer == t + [s] && Run(longer) && longer[|longer| - 1] == s
  {
    longer := t + [s];
    assert longer[..|t|] == t;
  }

  lemma {:induction false} RunPath(t: seq<State>, path: seq<State>) returns (longer: seq<State>)
    requires Run(t) && Path(path) && path[0] == t[|t| - 1]
    ensures Run(longer) && longer == t + path[1..]
    decreases |path|
  {
    if |path| == 1 {
      longer := t;
    } else {
      var t1 := RunOne(t, path[1]);
      var rest := TailPath(path);
      longer := RunPath(t1, rest);
      AppendRest(t, path);
    }
  }

  lemma TailPath(path: seq<State>) returns (rest: seq<State>)
    requires Path(path) && |path| > 1
    ensures rest == path[1..] && Path(rest) && rest[0] == path[1]
  {
    rest := path[1..];
    assert forall i :: 0 < i < |rest| ==> rest[i] == path[i + 1] && rest[i - 1] == path[i];
  }

  /** Every run can be continued, without further commits, to a state in which no commit is in progress. Then all
      entries have been published and everything before the first empty slot has been delivered. */
  lemma CanFinish(t: seq<State>) returns (longer: seq<State>)
    requires Run(t)
    ensures Run(longer) && |t| <= |longer| && longer[..|t|] == t
    ensures var s := longer[|longer| - 1]; s.threads == map[] && s.entries == t[|t| - 1].entries
  {
    var path := FinishRun(t);
    longer := RunPath(t, path);
    assert longer[|longer| - 1] == path[|path| - 1];
  }

  lemma FinishRun(t: seq<State>) returns (path: seq<State>)
    requires Run(t)
    ensures Path(path) && path[0] == t[|t| - 1]
    ensures path[|path| - 1].threads == map[] && path[|path| - 1].entries == t[|t| - 1].entries
  {
    RunKeeps(t);
    path := FinishFrom(t[|t| - 1]);
  }

  // ---------- The log without concurrency ----------

  /** The log's variables. Each method is run by one thread from start to end. */
  class Log {
    var entries: map<int, Entry>
    var first: int
    var readers: seq<Reader>
    var followers: seq<Follower>
    var waiting: map<int, set<int>>
    /** The calls that need not wait any more. */
    var woken: set<int>
    /** The most recent stable checkpoint, and everything pushed to checkpoint subscribers. */
    var checkpoint: Option<int>
    var notified: seq<int>

    constructor ()
      ensures entries == map[] && first == 0 && readers == [] && followers == [] && waiting == map[] && woken == {}
      ensures checkpoint.None? && notified == []
    {
      entries, first, readers, followers, waiting, woken := map[], 0, [], [], map[], {};
      checkpoint, notified := None, [];
    }

    /** Fills a slot unless it is filled, tells the followers, and delivers up to the first empty slot. */
    method CommitEntry(e: Entry)
      modifies this
      ensures e.sn in old(entries) ==>
                && entries == old(entries) && first == old(first) && readers == old(readers)
                && followers == old(followers) && waiting == old(waiting) && woken == old(woken)
      ensures e.sn !in old(entries) ==>
                entries == old(entries)[e.sn := e] && followers == Follow(old(followers), e) && first !in entries
      ensures e.sn !in old(entries) ==> Advanced(old(first), old(readers), old(waiting), old(woken))
    {
      if e.sn in entries {
        return;
      }
      entries := entries[e.sn := e];
      followers := PushAll(followers, e);
      PublishEntries();
    }

    /** What has been delivered since the first empty slot was `from`. */
    ghost predicate Advanced(from: int, had: seq<Reader>, waited: map<int, set<int>>, up: set<int>)
      reads this
    {
      CaughtUp(entries, from, first, had, readers) && Woke(from, first, waited, waiting, up, woken)
    }

    method PublishEntries()
      modifies this`first, this`readers, this`waiting, this`woken
      ensures first !in entries && Advanced(old(first), old(readers), old(waiting), old(woken))
    {
      ghost var ahead := entries.Keys;
      while first in entries
        invariant Advanced(old(first), old(readers), old(waiting), old(woken))
        invariant forall k :: k in entries && k >= first ==> k in ahead
        decreases ahead
      {
        ghost var n := first;
        PublishFirst(old(first), old(readers), old(waiting), old(woken));
        ahead := ahead - {n};
      }
    }

    /** Delivers the entry of the first empty slot and moves on. */
    method PublishFirst(ghost from: int, ghost had: seq<Reader>, ghost waited: map<int, set<int>>, ghost up: set<int>)
      requires first in entries && Advanced(from, had, waited, up)
      modifies this`first, this`readers, this`waiting, this`woken
      ensures first == old(first) + 1 && Advanced(from, had, waited, up)
    {
      var e := entries[first];
      if e.batch.Some? {
        readers := Deliver(readers, e);
      }
      CaughtUpNext(entries, from, first, had, old(readers), readers);
      if first in waiting {
        woken := woken + waiting[first];
        waiting := waiting - {first};
      }
      WokeNext(from, first, waited, old(waiting), up, old(woken));
      first := first + 1;
    }

    method Deliver(subscribers: seq<Reader>, e: Entry) returns (now: seq<Reader>)
      requires e.batch.Some?
      ensures now == PushTo(subscribers, e)
    {
      now := [];
      for i := 0 to |subscribers|
        invariant now + PushTo(subscribers[i..], e) == PushTo(subscribers, e)
      {
        assert subscribers[i..][1..] == subscribers[i + 1..];
        now := now + [subscribers[i].(got := subscribers[i].got + [e])];
      }
    }

    method PushAll(subscribers: seq<Follower>, e: Entry) returns (now: seq<Follower>)
      ensures now == Follow(subscribers, e)
    {
      now := [];
      for i := 0 to |subscribers|
        invariant now + Follow(subscribers[i..], e) == Follow(subscribers, e)
      {
        assert subscribers[i..][1..] == subscribers[i + 1..];
        now := now + [subscribers[i].(got := subscribers[i].got + [e])];
      }
    }

    /** The empty slots from the first one up to `until`, in order. */
    method Missing(until: int) returns (missing: seq<int>)
      ensures forall i, j :: 0 <= i < j < |missing| ==> missing[i] < missing[j]
      ensures forall k :: k in missing <==> first <= k <= until && k !in entries
    {
      missing := [];
      var sn := first;
      while sn <= until
        invariant first <= sn && (sn <= until + 1 || sn == first)
        invariant forall i, j :: 0 <= i < j < |missing| ==> missing[i] < missing[j]
        invariant forall k :: k in missing <==> first <= k < sn && k !in entries
        decreases until + 1 - sn
      {
        if sn !in entries {
          assert forall i :: 0 <= i < |missing| ==> missing[i] in missing;
          missing := missing + [sn];
        }
        sn := sn + 1;
      }
    }

    /** Keeps the highest checkpoint; subscribers are told of every one. */
    method CommitCheckpoint(sn: int)
      modifies this`checkpoint, this`notified
      ensures checkpoint ==
              Some(if old(checkpoint).Some? && old(checkpoint).value >= sn then old(checkpoint).value else sn)
      ensures notified == old(notified) + [sn]
    {
      if checkpoint.None? || sn > checkpoint.value {
        checkpoint := Some(sn);
      }
      notified := notified + [sn];
    }
  }

  /** The readers have what was delivered from slot `from` up to slot `first`. */
  ghost predicate CaughtUp(entries: map<int, Entry>, from: int, first: int, had: seq<Reader>, readers: seq<Reader>) {
    && from <= first && (forall k :: from <= k < first ==> k in entries) && |readers| == |had|
    && (forall i :: 0 <= i < |had| ==> readers[i] == had[i].(got := had[i].got + Delivered(entries, from, first)))
  }

  lemma CaughtUpNext(entries: map<int, Entry>, from: int, first: int, had: seq<Reader>, readers: seq<Reader>,
                     now: seq<Reader>)
    requires CaughtUp(entries, from, first, had, readers) && first in entries
    requires now == if entries[first].batch.Some? then PushTo(readers, entries[first]) else readers
    ensures CaughtUp(entries, from, first + 1, had, now)
  {
    var e := entries[first];
    PushAt(readers, e);
    var d := Delivered(entries, from, first);
    assert Delivered(entries, from, first + 1) == d + if e.batch.Some? then [e] else [];
    forall i | 0 <= i < |had|
      ensures now[i] == had[i].(got := had[i].got + Delivered(entries, from, first + 1))
    {
      ConcatAssoc(had[i].got, d, [e]);
      assert d + [] == d;
    }
  }

  /** The calls waiting for the slots from `from` up to `first` have been woken, and no others. */
  ghost predicate Woke(from: int, first: int, waited: map<int, set<int>>, waiting: map<int, set<int>>, up: set<int>,
                       woken: set<int>) {
    && (forall k :: k in waiting <==> k in waited && !(from <= k < first))
    && (forall k :: k in waiting ==> waiting[k] == waited[k])
    && (forall w :: w in woken <==> w in up || exists k :: from <= k < first && w in Waiters(waited, k))
  }

  lemma WokeNext(from: int, first: int, waited: map<int, set<int>>, waiting: map<int, set<int>>, up: set<int>,
                 woken: set<int>)
    requires from <= first && Woke(from, first, waited, waiting, up, woken)
    ensures Woke(from, first + 1, waited, waiting - {first}, up, woken + Waiters(waiting, first))
  {
    assert Waiters(waiting, first) == Waiters(waited, first);
    forall w
      ensures w in woken + Waiters(waiting, first) <==>
              w in up || exists k :: from <= k < first + 1 && w in Waiters(waited, k)
    {
      if w in up || exists k :: from <= k < first && w in Waiters(waited, k) {
      } else if w in Waiters(waited, first) {
      }
    }
  }
}
