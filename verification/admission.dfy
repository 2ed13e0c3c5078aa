/** Admission of requests: the per-client watermark window, the bucket index, and the garbage collection of both. */
module Admission {
  import opened Collections
  import opened Bucket

  // ---------- The watermark window of one client ----------

  datatype Position = Ahead | Below | Inside

  /** Where a client sequence number lies relative to the window. */
  function Place(low: int, window: int, sn: int): Position {
    if sn >= low + window then Ahead else if sn < low then Below else Inside
  }

  /** How far the low watermark moves when the numbers in `done` are committed. */
  function Climb(low: int, done: set<int>): (high: int)
    ensures high >= low
    decreases |done|
  {
    if low in done then Drop(low, done); Climb(low + 1, done - {low}) else low
  }

  lemma Drop(low: int, done: set<int>)
    requires low in done
    ensures |done - {low}| < |done|
  {
  }

  /** The watermark stops at the first number that is not committed. */
  lemma {:induction false} ClimbsToFirstGap(low: int, done: set<int>)
    ensures var high := Climb(low, done);
            high !in done && forall k :: low <= k < high ==> k in done
    decreases |done|
  {
    if low in done {
      Drop(low, done);
      var rest := done - {low};
      ClimbsToFirstGap(low + 1, rest);
      var high := Climb(low + 1, rest);
      assert Climb(low, done) == high && high !in rest && high != low;
      forall k | low <= k < high
        ensures k in done
      {
        assert k == low || k in rest;
      }
    }
  }

  function Numbers(client: int, entries: seq<ReqId>): set<int> {
    if entries == [] then {}
    else (if entries[0].client == client then {entries[0].sn} else {}) + Numbers(client, entries[1..])
  }

  class Buffer {
    const client: int
    var low: int
    /** Numbers of committed requests. */
    var committed: set<int>
    /** Requests that arrived ahead of the window, and how many are kept, where 0 stands for no limit. */
    var backlog: seq<ReqId>
    const capacity: nat

    constructor (client: int, capacity: nat)
      ensures this.client == client && this.capacity == capacity && low == 0 && committed == {} && backlog == []
    {
      this.client, this.capacity := client, capacity;
      low, committed, backlog := 0, {}, [];
    }

    /** Whether the request may go to its bucket now. One that is ahead of the window is kept if there is room. */
    method Add(id: ReqId, window: int) returns (ok: bool)
      modifies this`backlog
      ensures ok <==> low <= id.sn < low + window
      ensures backlog == if id.sn >= low + window && (capacity == 0 || |old(backlog)| < capacity)
                         then old(backlog) + [id] else old(backlog)
    {
      if id.sn >= low + window {
        if capacity == 0 || |backlog| < capacity {
          backlog := backlog + [id];
        }
        return false;
      } else if id.sn < low {
        return false;
      } else {
        return true;
      }
    }

    /** Records the committed requests of this client and moves the watermark to the first gap. The requests kept so far
        are handed out to be added again. */
    method AdvanceWatermarks(entries: seq<seq<ReqId>>) returns (range: Range, again: seq<ReqId>)
      modifies this
      ensures again == old(backlog) && backlog == [] && range == Range(old(low), low) && old(low) <= low
      ensures low !in old(committed) && ReqId(client, low) !in Flatten(entries)
      ensures forall k :: old(low) <= k < low ==> k in old(committed) || ReqId(client, k) in Flatten(entries)
      ensures forall k :: k in committed <==>
                (k in old(committed) || ReqId(client, k) in Flatten(entries)) && !(old(low) <= k < low)
    {
      forall k
        ensures k in Numbers(client, Flatten(entries)) <==> ReqId(client, k) in Flatten(entries)
      {
        NumbersIs(client, Flatten(entries), k);
      }
      ClimbsToFirstGap(low, committed + Numbers(client, Flatten(entries)));
      MarkAll(entries);
      range := Range(low, low);
      Raise();
      range := range.(high := low);
      again, backlog := backlog, [];
    }

    method MarkAll(entries: seq<seq<ReqId>>)
      modifies this`committed
      ensures committed == old(committed) + Numbers(client, Flatten(entries))
    {
      for i := 0 to |entries|
        invariant committed + Numbers(client, Flatten(entries[i..])) ==
                  old(committed) + Numbers(client, Flatten(entries))
      {
        Mark(entries[i]);
        NumbersConcat(client, entries[i], Flatten(entries[i + 1..]));
        assert entries[i..][1..] == entries[i + 1..];
      }
    }

    method Raise()
      modifies this`low, this`committed
      ensures low == Climb(old(low), old(committed)) && committed == old(committed) - Interval(old(low), low)
    {
      while low in committed
        invariant old(low) <= low && Climb(low, committed) == Climb(old(low), old(committed))
        invariant committed == old(committed) - Interval(old(low), low)
        decreases committed
      {
        committed := committed - {low};
        low := low + 1;
      }
    }

    method Mark(batch: seq<ReqId>)
      modifies this`committed
      ensures committed == old(committed) + Numbers(client, batch)
    {
      for i := 0 to |batch|
        invariant committed + Numbers(client, batch[i..]) == old(committed) + Numbers(client, batch)
      {
        assert batch[i..][1..] == batch[i + 1..];
        if batch[i].client == client {
          committed := committed + {batch[i].sn};
        }
      }
    }
  }

  lemma {:induction false} NumbersIs(client: int, entries: seq<ReqId>, k: int)
    ensures k in Numbers(client, entries) <==> ReqId(client, k) in entries
  {
    if entries != [] {
      NumbersIs(client, entries[1..], k);
      assert entries == [entries[0]] + entries[1..];
    }
  }

  lemma {:induction false} NumbersConcat(client: int, a: seq<ReqId>, b: seq<ReqId>)
    ensures Numbers(client, a + b) == Numbers(client, a) + Numbers(client, b)
  {
    if a == [] {
      assert a + b == b;
    } else {
      NumbersConcat(client, a[1..], b);
      assert (a + b)[1..] == a[1..] + b;
    }
  }

  // ---------- The whole request store ----------

  datatype Msg = Msg(id: ReqId, digest: int, sender: nat)

  datatype Client = Client(low: int, committed: set<int>)

  /** One bucket. */
  datatype Shelf = Shelf(
    index: map<ReqId, Msg>,
    /** The requests in the list. */
    list: set<ReqId>,
    /** Every request ever appended to the list, in order. */
    appended: seq<ReqId>)

  /** One garbage collection: first the watermarks of all clients, then the indexes of all buckets. */
  datatype Job = Job(entries: seq<ReqId>, clients: set<int>, ranges: map<int, Range>, buckets: set<int>)

  datatype State = State(
    clients: map<int, Client>,
    shelves: seq<Shelf>,
    /** Threads that have passed the window check, and hold the read lock of the client's buffer. */
    adding: map<int, Msg>,
    jobs: seq<Job>,
    /** Every message that ever arrived. */
    seen: set<Msg>)

  datatype Params = Params(cfg: Config, window: int)

  datatype Action =
    | Arrive(thread: int, msg: Msg)
    | Deposit(thread: int)
    | Remove(bucket: nat, ids: set<ReqId>)
    | Prepend(bucket: nat, id: ReqId)
    | Begin(entries: seq<ReqId>)
    | Advance(job: nat, client: int)
    | Prune(job: nat, bucket: nat)

  ghost predicate Start(p: Params, s: State) {
    && p.cfg.buckets > 0 && |s.shelves| == p.cfg.buckets
    && s.clients == map[] && s.adding == map[] && s.jobs == [] && s.seen == {}
    && forall b :: 0 <= b < |s.shelves| ==> s.shelves[b] == Shelf(map[], {}, [])
  }

  predicate Enabled(p: Params, s: State, a: Action) {
    match a
    case Arrive(t, _) => t !in s.adding
    case Deposit(t) => t in s.adding
    case Remove(b, _) => b < |s.shelves|
    case Prepend(b, id) => b < |s.shelves| && id in s.shelves[b].index
    case Begin(_) => true
    case Advance(j, c) =>
      && j < |s.jobs| && c in s.jobs[j].clients && c in s.clients
      && forall t :: t in s.adding ==> s.adding[t].id.client != c
    case Prune(j, b) => j < |s.jobs| && s.jobs[j].clients == {} && b in s.jobs[j].buckets && b < |s.shelves|
  }

  /** The buffer of a client is created with its first request. */
  function Buffers(clients: map<int, Client>, c: int): map<int, Client> {
    if c in clients then clients else clients[c := Client(0, {})]
  }

  /** A bucket after a request, marked as verified, is offered to it. */
  function Offer(cfg: Config, shelf: Shelf, m: Msg): Shelf {
    var stored := if m.id in shelf.index then Some((shelf.index[m.id].digest, true)) else None;
    if Decide(cfg, stored, m.digest, true).Insert?
    then Shelf(shelf.index[m.id := m], shelf.list + {m.id}, shelf.appended + [m.id])
    else shelf
  }

  function Pruned(cfg: Config, shelf: Shelf, bucket: nat, ranges: map<int, Range>): Shelf
    requires cfg.buckets > 0
  {
    shelf.(index := map i | i in shelf.index &&
                            !(Covered(ranges, i) && BucketNr(shelf.index[i].sender, cfg.buckets) == bucket)
                    :: shelf.index[i])
  }

  function Effect(p: Params, s: State, a: Action): State
    requires Enabled(p, s, a) && |s.shelves| == p.cfg.buckets > 0
  {
    match a
    case Arrive(t, m) =>
      var clients := Buffers(s.clients, m.id.client);
      s.(clients := clients, seen := s.seen + {m},
         adding := if Place(clients[m.id.client].low, p.window, m.id.sn).Inside? then s.adding[t := m] else s.adding)
    case Deposit(t) =>
      var m := s.adding[t];
      var b := BucketNr(m.sender, p.cfg.buckets);
      s.(adding := s.adding - {t}, shelves := s.shelves[b := Offer(p.cfg, s.shelves[b], m)])
    case Remove(b, ids) => s.(shelves := s.shelves[b := s.shelves[b].(list := s.shelves[b].list - ids)])
    case Prepend(b, id) => s.(shelves := s.shelves[b := s.shelves[b].(list := s.shelves[b].list + {id})])
    case Begin(entries) => s.(jobs := s.jobs + [Job(entries, s.clients.Keys, map[], Interval(0, p.cfg.buckets))])
    case Advance(j, c) =>
      var job, client := s.jobs[j], s.clients[c];
      var done := client.committed + Numbers(c, job.entries);
      var high := Climb(client.low, done);
      s.(clients := s.clients[c := Client(high, done - Interval(client.low, high))],
         jobs := s.jobs[j := job.(clients := job.clients - {c}, ranges := job.ranges[c := Range(client.low, high)])])
    case Prune(j, b) =>
      s.(shelves := s.shelves[b := Pruned(p.cfg, s.shelves[b], b, s.jobs[j].ranges)],
         jobs := s.jobs[j := s.jobs[j].(buckets := s.jobs[j].buckets - {b})])
  }

  ghost predicate Step(p: Params, s: State, s': State) {
    |s.shelves| == p.cfg.buckets > 0 && exists a :: Enabled(p, s, a) && s' == Effect(p, s, a)
  }

  ghost predicate Run(p: Params, t: seq<State>) {
    && t != []
    && var n := |t| - 1; if n == 0 then Start(p, t[0]) else Run(p, t[..n]) && Step(p, t[n - 1], t[n])
  }

  // ---------- What every step keeps ----------

  predicate Passed(clients: map<int, Client>, id: ReqId) {
    id.client in clients && id.sn < clients[id.client].low
  }

  /** Every request ever appended is in the index or below its client's watermark. */
  ghost predicate ShelfOk(clients: map<int, Client>, shelf: Shelf) {
    && NoRepeats(shelf.appended)
    && (forall id :: id in shelf.appended ==> id in shelf.index || Passed(clients, id))
    && (forall id :: id in shelf.index ==> id in shelf.appended)
    && (forall id :: id in shelf.list ==> id in shelf.appended)
  }

  ghost predicate JobOk(clients: map<int, Client>, job: Job) {
    forall c :: c in job.ranges ==> c in clients && job.ranges[c].high <= clients[c].low
  }

  ghost predicate AddingOk(clients: map<int, Client>, adding: map<int, Msg>) {
    forall t :: t in adding ==> adding[t].id.client in clients && adding[t].id.sn >= clients[adding[t].id.client].low
  }

  ghost predicate Inv(p: Params, s: State) {
    && |s.shelves| == p.cfg.buckets > 0
    && (forall b :: 0 <= b < |s.shelves| ==> ShelfOk(s.clients, s.shelves[b]))
    && (forall j :: 0 <= j < |s.jobs| ==> JobOk(s.clients, s.jobs[j]))
    && AddingOk(s.clients, s.adding)
    && (forall t :: t in s.adding ==> s.adding[t] in s.seen)
    && (forall b, id :: 0 <= b < |s.shelves| && id in s.shelves[b].appended ==> Sent(p, s.seen, b, id))
  }

  /** A message with this ID arrived whose sender maps to bucket `b`. */
  ghost predicate Sent(p: Params, seen: set<Msg>, b: int, id: ReqId)
    requires p.cfg.buckets > 0
  {
    exists m :: m in seen && m.id == id && BucketNr(m.sender, p.cfg.buckets) == b
  }

  /** Watermarks only grow, and clients do not disappear. */
  predicate Grows(before: map<int, Client>, after: map<int, Client>) {
    forall c :: c in before ==> c in after && before[c].low <= after[c].low
  }

  lemma GrowKeeps(p: Params, s: State, clients: map<int, Client>)
    requires Inv(p, s) && Grows(s.clients, clients)
    ensures forall b :: 0 <= b < |s.shelves| ==> ShelfOk(clients, s.shelves[b])
    ensures forall j :: 0 <= j < |s.jobs| ==> JobOk(clients, s.jobs[j])
  {
  }

  lemma OfferKeeps(cfg: Config, clients: map<int, Client>, shelf: Shelf, m: Msg)
    requires ShelfOk(clients, shelf) && m.id.client in clients && m.id.sn >= clients[m.id.client].low
    ensures ShelfOk(clients, Offer(cfg, shelf, m))
  {
    if m.id !in shelf.index {
      assert m.id !in shelf.appended;
    }
  }

  lemma PruneKeeps(cfg: Config, clients: map<int, Client>, shelf: Shelf, b: nat, job: Job)
    requires cfg.buckets > 0 && ShelfOk(clients, shelf) && JobOk(clients, job)
    ensures ShelfOk(clients, Pruned(cfg, shelf, b, job.ranges))
  {
    var after := Pruned(cfg, shelf, b, job.ranges);
    forall id | id in after.appended
      ensures id in after.index || Passed(clients, id)
    {
      if id in shelf.index && Covered(job.ranges, id) {
        assert id.sn < job.ranges[id.client].high;
      }
    }
  }

  lemma ArriveKeeps(p: Params, s: State, t: int, m: Msg)
    requires Inv(p, s) && Enabled(p, s, Arrive(t, m))
    ensures Inv(p, Effect(p, s, Arrive(t, m)))
  {
    var s' := Effect(p, s, Arrive(t, m));
    GrowKeeps(p, s, s'.clients);
    forall b, id | 0 <= b < |s.shelves| && id in s.shelves[b].appended
      ensures Sent(p, s'.seen, b, id)
    {
      assert Sent(p, s.seen, b, id);
    }
  }

  lemma DepositKeeps(p: Params, s: State, t: int)
    requires Inv(p, s) && Enabled(p, s, Deposit(t))
    ensures Inv(p, Effect(p, s, Deposit(t)))
  {
    var m := s.adding[t];
    var k := BucketNr(m.sender, p.cfg.buckets);
    var s' := Effect(p, s, Deposit(t));
    OfferKeeps(p.cfg, s.clients, s.shelves[k], m);
    forall b, id | 0 <= b < |s.shelves| && id in s'.shelves[b].appended
      ensures Sent(p, s.seen, b, id)
    {
      assert id in s.shelves[b].appended || (b == k && id == m.id);
    }
  }

  lemma AdvanceKeeps(p: Params, s: State, j: nat, c: int)
    requires Inv(p, s) && Enabled(p, s, Advance(j, c))
    ensures Inv(p, Effect(p, s, Advance(j, c)))
  {
    GrowKeeps(p, s, Effect(p, s, Advance(j, c)).clients);
  }

  lemma StepKeeps(p: Params, s: State, a: Action)
    requires Inv(p, s) && Enabled(p, s, a)
    ensures Inv(p, Effect(p, s, a))
  {
    match a
    case Arrive(t, m) => ArriveKeeps(p, s, t, m);
    case Deposit(t) => DepositKeeps(p, s, t);
    case Remove(_, _) =>
    case Prepend(_, _) =>
    case Begin(_) =>
    case Advance(j, c) => AdvanceKeeps(p, s, j, c);
    case Prune(j, b) => PruneKeeps(p.cfg, s.clients, s.shelves[b], b, s.jobs[j]);
  }

  lemma NextKeeps(p: Params, s: State, s': State)
    requires Inv(p, s) && Step(p, s, s')
    ensures Inv(p, s')
  {
    var a :| Enabled(p, s, a) && s' == Effect(p, s, a);
    StepKeeps(p, s, a);
  }

  lemma {:induction false} RunKeeps(p: Params, t: seq<State>)
    requires Run(p, t)
    ensures Inv(p, t[|t| - 1])
  {
    var n := |t| - 1;
    if n > 0 {
      RunKeeps(p, t[..n]);
      NextKeeps(p, t[n - 1], t[n]);
    }
  }

  // ---------- Watermarks and indexes in runs ----------

  /** A job that has advanced client `c` had its request number `k` among its entries. */
  ghost predicate Done(jobs: seq<Job>, c: int, k: int) {
    exists j :: 0 <= j < |jobs| && c in jobs[j].ranges && ReqId(c, k) in jobs[j].entries
  }

  /** The watermark is at the first number that is not done, and the done numbers above it are remembered. */
  ghost predicate WatermarkOk(jobs: seq<Job>, c: int, client: Client) {
    client.low >= 0 && client.low !in client.committed && forall k :: NumberOk(client, k, Done(jobs, c, k))
  }

  /** A number below the watermark is done, and one above it is remembered exactly if it is done. */
  ghost predicate NumberOk(client: Client, k: int, done: bool) {
    && (0 <= k < client.low || k in client.committed ==> done)
    && (done ==> k < client.low || k in client.committed)
  }

  ghost predicate WatermarksOk(s: State) {
    forall c :: c in s.clients ==> WatermarkOk(s.jobs, c, s.clients[c])
  }

  /** What is in the index of a bucket belongs there. */
  ghost predicate IndexOk(p: Params, s: State)
    requires p.cfg.buckets > 0
  {
    forall b, id :: 0 <= b < |s.shelves| && id in s.shelves[b].index ==>
      s.shelves[b].index[id].id == id && BucketNr(s.shelves[b].index[id].sender, p.cfg.buckets) == b
  }

  /** Job `j` is done with bucket `b`. */
  predicate DoneWith(s: State, j: int, b: int) {
    0 <= j < |s.jobs| && 0 <= b < |s.shelves| && b !in s.jobs[j].buckets
  }

  ghost predicate Emptied(s: State, j: int, b: int)
    requires DoneWith(s, j, b)
  {
    s.jobs[j].clients == {} && forall id :: id in s.shelves[b].index ==> !Covered(s.jobs[j].ranges, id)
  }

  ghost predicate PrunedOk(s: State) {
    forall j, b :: DoneWith(s, j, b) ==> Emptied(s, j, b)
  }

  ghost predicate Exact(p: Params, s: State) {
    p.cfg.buckets > 0 && WatermarksOk(s) && IndexOk(p, s) && PrunedOk(s)
  }

  lemma AdvanceWatermark(p: Params, s: State, j: nat, c: int)
    requires Inv(p, s) && WatermarksOk(s) && Enabled(p, s, Advance(j, c))
    ensures WatermarksOk(Effect(p, s, Advance(j, c)))
  {
    var s' := Effect(p, s, Advance(j, c));
    ClimbsToFirstGap(s.clients[c].low, s.clients[c].committed + Numbers(c, s.jobs[j].entries));
    forall d | d in s'.clients
      ensures WatermarkOk(s'.jobs, d, s'.clients[d])
    {
      assert WatermarkOk(s.jobs, d, s.clients[d]);
      forall k
        ensures NumberOk(s'.clients[d], k, Done(s'.jobs, d, k))
      {
        assert NumberOk(s.clients[d], k, Done(s.jobs, d, k));
        DoneNext(s.jobs, s'.jobs, j, c, d, k);
        if d == c {
          NumberAdvances(s.jobs[j].entries, c, s.clients[c], s'.clients[c], k, Done(s.jobs, c, k));
        }
      }
    }
  }

  lemma NumberAdvances(entries: seq<ReqId>, c: int, before: Client, after: Client, k: int, done: bool)
    requires NumberOk(before, k, done)
    requires after.low == Climb(before.low, before.committed + Numbers(c, entries))
    requires after.committed == before.committed + Numbers(c, entries) - Interval(before.low, after.low)
    ensures NumberOk(after, k, done || ReqId(c, k) in entries)
  {
    ClimbsToFirstGap(before.low, before.committed + Numbers(c, entries));
    NumbersIs(c, entries, k);
  }

  lemma DoneNext(jobs: seq<Job>, jobs': seq<Job>, j: nat, c: int, d: int, k: int)
    requires j < |jobs| == |jobs'| && jobs' == jobs[j := jobs'[j]] && jobs'[j].entries == jobs[j].entries
    requires jobs'[j].ranges.Keys == jobs[j].ranges.Keys + {c}
    ensures Done(jobs', d, k) <==> Done(jobs, d, k) || (d == c && ReqId(c, k) in jobs[j].entries)
  {
    if Done(jobs, d, k) {
      var i :| 0 <= i < |jobs| && d in jobs[i].ranges && ReqId(d, k) in jobs[i].entries;
      assert d in jobs'[i].ranges && ReqId(d, k) in jobs'[i].entries;
    }
    if d == c && ReqId(c, k) in jobs[j].entries {
      assert d in jobs'[j].ranges && ReqId(d, k) in jobs'[j].entries;
    }
    if Done(jobs', d, k) {
      var i :| 0 <= i < |jobs'| && d in jobs'[i].ranges && ReqId(d, k) in jobs'[i].entries;
      assert i != j ==> jobs'[i] == jobs[i];
    }
  }

  /** Steps that change jobs only in ways that do not matter here keep what is done. */
  lemma DoneSame(jobs: seq<Job>, jobs': seq<Job>, c: int, k: int)
    requires |jobs| <= |jobs'| && forall i :: |jobs| <= i < |jobs'| ==> jobs'[i].ranges == map[]
    requires forall i :: 0 <= i < |jobs| ==> jobs'[i].ranges == jobs[i].ranges && jobs'[i].entries == jobs[i].entries
    ensures Done(jobs', c, k) <==> Done(jobs, c, k)
  {
    if Done(jobs, c, k) {
      var i :| 0 <= i < |jobs| && c in jobs[i].ranges && ReqId(c, k) in jobs[i].entries;
      assert c in jobs'[i].ranges && ReqId(c, k) in jobs'[i].entries;
    }
    if Done(jobs', c, k) {
      var i :| 0 <= i < |jobs'| && c in jobs'[i].ranges && ReqId(c, k) in jobs'[i].entries;
      assert i < |jobs|;
    }
  }

  lemma OtherWatermarks(p: Params, s: State, a: Action)
    requires Inv(p, s) && WatermarksOk(s) && Enabled(p, s, a) && !a.Advance?
    ensures WatermarksOk(Effect(p, s, a))
  {
    var s' := Effect(p, s, a);
    forall c | c in s'.clients
      ensures WatermarkOk(s'.jobs, c, s'.clients[c])
    {
      assert c in s.clients ==> WatermarkOk(s.jobs, c, s.clients[c]);
      forall k
        ensures NumberOk(s'.clients[c], k, Done(s'.jobs, c, k))
      {
        DoneSame(s.jobs, s'.jobs, c, k);
        if c in s.clients {
          assert NumberOk(s.clients[c], k, Done(s.jobs, c, k));
        }
      }
    }
  }

  lemma StepIndexes(p: Params, s: State, a: Action)
    requires Inv(p, s) && IndexOk(p, s) && Enabled(p, s, a)
    ensures IndexOk(p, Effect(p, s, a))
  {
  }

  /** A request that may still be deposited is not among those that have been passed. */
  lemma DepositUncovered(p: Params, s: State, t: int, j: nat)
    requires Inv(p, s) && t in s.adding && j < |s.jobs|
    ensures !Covered(s.jobs[j].ranges, s.adding[t].id)
  {
    assert JobOk(s.clients, s.jobs[j]);
  }

  /** An index that has not grown stays emptied. */
  lemma StaysEmptied(s: State, s': State, j: int, b: int)
    requires DoneWith(s, j, b) && DoneWith(s', j, b) && Emptied(s, j, b)
    requires s'.jobs[j].clients == s.jobs[j].clients && s'.jobs[j].ranges == s.jobs[j].ranges
    requires forall id :: id in s'.shelves[b].index ==> id in s.shelves[b].index || !Covered(s.jobs[j].ranges, id)
    ensures Emptied(s', j, b)
  {
  }

  lemma DepositPrunes(p: Params, s: State, t: int)
    requires Inv(p, s) && PrunedOk(s) && Enabled(p, s, Deposit(t))
    ensures PrunedOk(Effect(p, s, Deposit(t)))
  {
    var s' := Effect(p, s, Deposit(t));
    forall j, b | DoneWith(s', j, b)
      ensures Emptied(s', j, b)
    {
      assert DoneWith(s, j, b) && Emptied(s, j, b);
      DepositUncovered(p, s, t, j);
      assert forall id :: id in s'.shelves[b].index ==> id in s.shelves[b].index || id == s.adding[t].id;
      StaysEmptied(s, s', j, b);
    }
  }

  lemma PrunePrunes(p: Params, s: State, k: nat, c: nat)
    requires Inv(p, s) && IndexOk(p, s) && PrunedOk(s) && Enabled(p, s, Prune(k, c))
    ensures PrunedOk(Effect(p, s, Prune(k, c)))
  {
    var s' := Effect(p, s, Prune(k, c));
    forall j, b | DoneWith(s', j, b)
      ensures Emptied(s', j, b)
    {
      if j == k && b == c {
        forall id | id in s'.shelves[c].index
          ensures !Covered(s'.jobs[k].ranges, id)
        {
          assert id in s.shelves[c].index && BucketNr(s.shelves[c].index[id].sender, p.cfg.buckets) == c;
        }
      } else {
        assert DoneWith(s, j, b) && Emptied(s, j, b);
        StaysEmptied(s, s', j, b);
      }
    }
  }

  lemma OtherPrunes(p: Params, s: State, a: Action)
    requires Inv(p, s) && PrunedOk(s) && Enabled(p, s, a) && !a.Deposit? && !a.Prune?
    ensures PrunedOk(Effect(p, s, a))
  {
    var s' := Effect(p, s, a);
    forall j, b | DoneWith(s', j, b)
      ensures Emptied(s', j, b)
    {
      assert DoneWith(s, j, b) && Emptied(s, j, b);
      StaysEmptied(s, s', j, b);
    }
  }

  lemma StepPrunes(p: Params, s: State, a: Action)
    requires Inv(p, s) && IndexOk(p, s) && PrunedOk(s) && Enabled(p, s, a)
    ensures PrunedOk(Effect(p, s, a))
  {
    match a
    case Deposit(t) => DepositPrunes(p, s, t);
    case Prune(j, b) => PrunePrunes(p, s, j, b);
    case _ => OtherPrunes(p, s, a);
  }

  lemma StepExact(p: Params, s: State, a: Action)
    requires Inv(p, s) && Exact(p, s) && Enabled(p, s, a)
    ensures Exact(p, Effect(p, s, a))
  {
    if a.Advance? {
      AdvanceWatermark(p, s, a.job, a.client);
    } else {
      OtherWatermarks(p, s, a);
    }
    StepIndexes(p, s, a);
    StepPrunes(p, s, a);
  }

  lemma {:induction false} RunExact(p: Params, t: seq<State>)
    requires Run(p, t)
    ensures Exact(p, t[|t| - 1])
  {
    var n := |t| - 1;
    if n > 0 {
      RunExact(p, t[..n]);
      RunKeeps(p, t[..n]);
      var a :| Enabled(p, t[n - 1], a) && t[n] == Effect(p, t[n - 1], a);
      StepExact(p, t[n - 1], a);
    }
  }

  // ---------- Main results ----------

  /** No request is ever appended twice to a bucket. */
  lemma {:induction false} NoReadmission(p: Params, t: seq<State>, b: nat)
    requires Run(p, t) && b < |t[|t| - 1].shelves|
    ensures NoRepeats(t[|t| - 1].shelves[b].appended)
  {
    RunKeeps(p, t);
  }

  /** In every run, the watermark of a client is the least number that no job which has advanced the client had among
      its entries. */
  lemma {:induction false} WatermarkExact(p: Params, t: seq<State>, c: int)
    requires Run(p, t) && c in t[|t| - 1].clients
    ensures var s := t[|t| - 1];
            && s.clients[c].low >= 0 && !Done(s.jobs, c, s.clients[c].low)
            && forall k :: 0 <= k < s.clients[c].low ==> Done(s.jobs, c, k)
  {
    RunExact(p, t);
    var s := t[|t| - 1];
    assert WatermarkOk(s.jobs, c, s.clients[c]);
    forall k
      ensures NumberOk(s.clients[c], k, Done(s.jobs, c, k))
    {
    }
    assert NumberOk(s.clients[c], s.clients[c].low, Done(s.jobs, c, s.clients[c].low));
  }

  /** In every run, once a job is done with a bucket, the bucket's index holds nothing over which the job has moved a
      watermark, and never will again. */
  lemma {:induction false} PrunedForGood(p: Params, t: seq<State>, j: nat, b: nat, id: ReqId)
    requires Run(p, t) && j < |t[|t| - 1].jobs| && b < |t[|t| - 1].shelves| && b !in t[|t| - 1].jobs[j].buckets
    requires id in t[|t| - 1].shelves[b].index
    ensures !Covered(t[|t| - 1].jobs[j].ranges, id)
  {
    RunExact(p, t);
    assert DoneWith(t[|t| - 1], j, b) && Emptied(t[|t| - 1], j, b);
  }

  /** A request gets past the window check exactly if it is in the window of its client, and one that gets past it is in
      the index of its bucket after it has been deposited; it is appended exactly if it was not in the index before. */
  lemma AdmittedExactly(p: Params, s: State, t: int, m: Msg)
    requires Inv(p, s) && t !in s.adding
    ensures var s1 := Effect(p, s, Arrive(t, m));
            var low := if m.id.client in s.clients then s.clients[m.id.client].low else 0;
            && (t in s1.adding <==> low <= m.id.sn < low + p.window)
            && (t in s1.adding ==>
                  var s2 := Effect(p, s1, Deposit(t));
                  var b := BucketNr(m.sender, p.cfg.buckets);
                  var was, now := s.shelves[b], s2.shelves[b];
                  && m.id in now.index
                  && now == if m.id in was.index then was
                            else Shelf(was.index[m.id := m], was.list + {m.id}, was.appended + [m.id]))
  {
  }

  lemma {:induction false} RunAt(p: Params, t: seq<State>, n: nat)
    requires Run(p, t) && n < |t|
    ensures Inv(p, t[n]) && (n > 0 ==> Step(p, t[n - 1], t[n]))
  {
    if n == |t| - 1 {
      RunKeeps(p, t);
    } else {
      RunAt(p, t[..|t| - 1], n);
    }
  }

  /** The `n`-th step of a run prepends `id` to bucket `b`. */
  ghost predicate PrependAt(p: Params, t: seq<State>, n: int, b: nat, id: ReqId) {
    && 0 < n < |t| && |t[n - 1].shelves| == p.cfg.buckets > 0
    && Enabled(p, t[n - 1], Prepend(b, id)) && t[n] == Effect(p, t[n - 1], Prepend(b, id))
  }

  /** In every run, a request that has been in the list and has left it comes back only by being prepended. */
  lemma {:induction false} BackOnlyByPrepend(p: Params, t: seq<State>, i: nat, j: nat, b: nat, id: ReqId)
    requires Run(p, t) && i <= j < |t| && b < p.cfg.buckets
    requires |t[i].shelves| == p.cfg.buckets && id in t[i].shelves[b].appended && id !in t[i].shelves[b].list
    ensures |t[j].shelves| == p.cfg.buckets && id in t[j].shelves[b].appended
    ensures id in t[j].shelves[b].list ==> PrependBetween(p, t, i, j, b, id)
  {
    AllLinked(p, t);
    StaysOut(p, t, i, j, b, id);
  }

  ghost predicate Linked(p: Params, t: seq<State>, n: int) {
    0 <= n < |t| && Inv(p, t[n]) && (n > 0 ==> Step(p, t[n - 1], t[n]))
  }

  lemma {:induction false} StaysOut(p: Params, t: seq<State>, i: nat, j: nat, b: nat, id: ReqId)
    requires i <= j < |t| && b < p.cfg.buckets && forall n :: 0 <= n < |t| ==> Linked(p, t, n)
    requires |t[i].shelves| == p.cfg.buckets && id in t[i].shelves[b].appended && id !in t[i].shelves[b].list
    ensures |t[j].shelves| == p.cfg.buckets && id in t[j].shelves[b].appended
    ensures id in t[j].shelves[b].list ==> PrependBetween(p, t, i, j, b, id)
    decreases j
  {
    if i < j {
      StaysOut(p, t, i, j - 1, b, id);
      assert Linked(p, t, j) && Linked(p, t, j - 1);
      var s, s' := t[j - 1], t[j];
      NextBack(p, s, s', b, id);
      if id in s'.shelves[b].list {
        if id in s.shelves[b].list {
          BetweenStays(p, t, i, j, b, id);
        } else {
          BetweenNow(p, t, i, j, b, id);
        }
      }
    }
  }

  /** A step after the `i`-th, up to the `j`-th, prepends `id` to bucket `b`. */
  ghost predicate PrependBetween(p: Params, t: seq<State>, i: nat, j: nat, b: nat, id: ReqId) {
    exists n :: i < n <= j && PrependAt(p, t, n, b, id)
  }

  lemma BetweenStays(p: Params, t: seq<State>, i: nat, j: nat, b: nat, id: ReqId)
    requires 0 < j && PrependBetween(p, t, i, j - 1, b, id)
    ensures PrependBetween(p, t, i, j, b, id)
  {
    var n :| i < n <= j - 1 && PrependAt(p, t, n, b, id);
  }

  lemma BetweenNow(p: Params, t: seq<State>, i: nat, j: nat, b: nat, id: ReqId)
    requires i < j && PrependAt(p, t, j, b, id)
    ensures PrependBetween(p, t, i, j, b, id)
  {
  }

  lemma NextBack(p: Params, s: State, s': State, b: nat, id: ReqId)
    requires Inv(p, s) && Step(p, s, s') && b < |s.shelves| && id in s.shelves[b].appended
    ensures |s'.shelves| == |s.shelves| && id in s'.shelves[b].appended
    ensures id !in s.shelves[b].list && id in s'.shelves[b].list ==>
              Enabled(p, s, Prepend(b, id)) && s' == Effect(p, s, Prepend(b, id))
  {
    var a :| Enabled(p, s, a) && s' == Effect(p, s, a);
    StepBack(p, s, a, b, id);
  }

  lemma StepBack(p: Params, s: State, a: Action, b: nat, id: ReqId)
    requires Inv(p, s) && Enabled(p, s, a) && b < |s.shelves| && id in s.shelves[b].appended
    ensures |Effect(p, s, a).shelves| == |s.shelves| && id in Effect(p, s, a).shelves[b].appended
    ensures id !in s.shelves[b].list && id in Effect(p, s, a).shelves[b].list ==> a == Prepend(b, id)
  {
    if a.Deposit? {
      var m := s.adding[a.thread];
      assert m.id == id ==> m.id in s.shelves[b].index;
    }
  }

  // ---------- Leaving the list ----------

  /** The `n`-th step of a run removes `id` from bucket `b`. */
  ghost predicate RemoveAt(p: Params, t: seq<State>, n: int, b: nat, id: ReqId) {
    && 0 < n < |t| && |t[n - 1].shelves| == p.cfg.buckets > 0
    && exists ids :: Enabled(p, t[n - 1], Remove(b, ids)) && id in ids && t[n] == Effect(p, t[n - 1], Remove(b, ids))
  }

  ghost predicate RemoveBetween(p: Params, t: seq<State>, i: nat, j: nat, b: nat, id: ReqId) {
    exists n :: i < n <= j && RemoveAt(p, t, n, b, id)
  }

  lemma StepLeaves(p: Params, s: State, a: Action, b: nat, id: ReqId)
    requires |s.shelves| == p.cfg.buckets > 0 && Enabled(p, s, a) && b < |s.shelves| && id in s.shelves[b].list
    ensures |Effect(p, s, a).shelves| == |s.shelves|
    ensures id in Effect(p, s, a).shelves[b].list || (a.Remove? && a.bucket == b && id in a.ids)
  {
  }

  lemma LeavesNow(p: Params, t: seq<State>, n: nat, b: nat, id: ReqId)
    requires 0 < n < |t| && Linked(p, t, n) && Linked(p, t, n - 1)
    requires b < p.cfg.buckets && id in t[n - 1].shelves[b].list
    ensures |t[n].shelves| == p.cfg.buckets && (id in t[n].shelves[b].list || RemoveAt(p, t, n, b, id))
  {
    var a :| Enabled(p, t[n - 1], a) && t[n] == Effect(p, t[n - 1], a);
    StepLeaves(p, t[n - 1], a, b, id);
  }

  lemma {:induction false} StaysIn(p: Params, t: seq<State>, i: nat, j: nat, b: nat, id: ReqId)
    requires i <= j < |t| && b < p.cfg.buckets && forall n :: 0 <= n < |t| ==> Linked(p, t, n)
    requires |t[i].shelves| == p.cfg.buckets && id in t[i].shelves[b].list
    ensures |t[j].shelves| == p.cfg.buckets && (id in t[j].shelves[b].list || RemoveBetween(p, t, i, j, b, id))
    decreases j
  {
    if i < j {
      StaysIn(p, t, i, j - 1, b, id);
      assert Linked(p, t, j) && Linked(p, t, j - 1);
      if RemoveBetween(p, t, i, j - 1, b, id) {
        var n :| i < n <= j - 1 && RemoveAt(p, t, n, b, id);
      } else {
        LeavesNow(p, t, j, b, id);
      }
    }
  }

  lemma AllLinked(p: Params, t: seq<State>)
    requires Run(p, t)
    ensures forall n :: 0 <= n < |t| ==> Linked(p, t, n)
  {
    forall n | 0 <= n < |t|
      ensures Linked(p, t, n)
    {
      RunAt(p, t, n);
    }
  }

  /** In every run, a request that is prepended is in the list until a step removes it. */
  lemma PrependedStays(p: Params, t: seq<State>, i: nat, j: nat, b: nat, id: ReqId)
    requires Run(p, t) && 0 < i <= j < |t| && b < p.cfg.buckets && PrependAt(p, t, i, b, id)
    ensures |t[j].shelves| == p.cfg.buckets && (id in t[j].shelves[b].list || RemoveBetween(p, t, i, j, b, id))
  {
    AllLinked(p, t);
    StaysIn(p, t, i, j, b, id);
  }

  /** In every run, a request that is removed is out of the list until a step prepends it. */
  lemma RemovedStaysOut(p: Params, t: seq<State>, i: nat, j: nat, b: nat, id: ReqId)
    requires Run(p, t) && 0 < i <= j < |t| && b < p.cfg.buckets && RemoveAt(p, t, i, b, id)
    requires id in t[i - 1].shelves[b].appended
    ensures |t[j].shelves| == p.cfg.buckets
    ensures id in t[j].shelves[b].list ==> PrependBetween(p, t, i, j, b, id)
  {
    BackOnlyByPrepend(p, t, i, j, b, id);
  }

  /** The `n`-th step of a run begins the job with number `j`. */
  ghost predicate BeginAt(p: Params, t: seq<State>, n: int, j: nat, entries: seq<ReqId>) {
    && 0 < n < |t| && |t[n - 1].shelves| == p.cfg.buckets > 0 && j == |t[n - 1].jobs|
    && t[n] == Effect(p, t[n - 1], Begin(entries))
  }

  /** The job has its entries, and every client is still to be advanced or has been. */
  ghost predicate Covers(s: State, j: nat, entries: seq<ReqId>, clients: set<int>) {
    && j < |s.jobs| && s.jobs[j].entries == entries
    && forall c :: c in clients ==> c in s.jobs[j].clients || c in s.jobs[j].ranges
  }

  lemma StepCovers(p: Params, s: State, a: Action, j: nat, entries: seq<ReqId>, clients: set<int>)
    requires |s.shelves| == p.cfg.buckets > 0 && Enabled(p, s, a) && Covers(s, j, entries, clients)
    ensures Covers(Effect(p, s, a), j, entries, clients)
  {
  }

  lemma {:induction false} StaysCovered(p: Params, t: seq<State>, i: nat, n: nat, j: nat, entries: seq<ReqId>,
                                        clients: set<int>)
    requires Run(p, t) && i <= n < |t| && Covers(t[i], j, entries, clients)
    ensures Covers(t[n], j, entries, clients)
    decreases n
  {
    if i < n {
      StaysCovered(p, t, i, n - 1, j, entries, clients);
      RunAt(p, t, n);
      var a :| Enabled(p, t[n - 1], a) && t[n] == Effect(p, t[n - 1], a);
      StepCovers(p, t[n - 1], a, j, entries, clients);
    }
  }

  /** In every run, a garbage collection has advanced every client that was known when it began before it prunes its
      first bucket. */
  lemma AdvancedBeforePruned(p: Params, t: seq<State>, i: nat, n: nat, j: nat, entries: seq<ReqId>, c: int, b: nat)
    requires Run(p, t) && 0 < i <= n < |t| && BeginAt(p, t, i, j, entries) && c in t[i - 1].clients
    ensures j < |t[n].jobs| && t[n].jobs[j].entries == entries
    ensures b < |t[n].shelves| && b !in t[n].jobs[j].buckets ==> c in t[n].jobs[j].ranges
  {
    assert Covers(t[i], j, entries, t[i - 1].clients.Keys);
    StaysCovered(p, t, i, n, j, entries, t[i - 1].clients.Keys);
    if b < |t[n].shelves| && b !in t[n].jobs[j].buckets {
      ExactAt(p, t, n);
      assert DoneWith(t[n], j, b) && Emptied(t[n], j, b);
    }
  }

  lemma {:induction false} ExactAt(p: Params, t: seq<State>, n: nat)
    requires Run(p, t) && n < |t|
    ensures Exact(p, t[n])
  {
    if n == |t| - 1 {
      RunExact(p, t);
    } else {
      ExactAt(p, t[..|t| - 1], n);
    }
  }

  /** If all messages with one ID map to one bucket, the ID is appended at most once overall. */
  lemma {:induction false} OnceOverall(p: Params, t: seq<State>, id: ReqId, b: nat, c: nat)
    requires Run(p, t) && b < |t[|t| - 1].shelves| && c < |t[|t| - 1].shelves| && p.cfg.buckets > 0
    requires forall m, n :: m in t[|t| - 1].seen && n in t[|t| - 1].seen && m.id == id && n.id == id ==>
               BucketNr(m.sender, p.cfg.buckets) == BucketNr(n.sender, p.cfg.buckets)
    requires id in t[|t| - 1].shelves[b].appended && id in t[|t| - 1].shelves[c].appended
    ensures b == c && NoRepeats(t[|t| - 1].shelves[b].appended)
  {
    RunKeeps(p, t);
  }

  /** Two requests with one ID whose senders map to different buckets are both appended, if neither bucket knows the
      ID and both arrive while it is in the window. */
  lemma SplitAdmitsBoth(p: Params, s: State, m1: Msg, m2: Msg)
    requires Inv(p, s) && m1.id == m2.id && s.adding == map[]
    requires var low := if m1.id.client in s.clients then s.clients[m1.id.client].low else 0;
             low <= m1.id.sn < low + p.window
    requires BucketNr(m1.sender, p.cfg.buckets) != BucketNr(m2.sender, p.cfg.buckets)
    requires m1.id !in s.shelves[BucketNr(m1.sender, p.cfg.buckets)].index
    requires m1.id !in s.shelves[BucketNr(m2.sender, p.cfg.buckets)].index
    ensures exists s1, s2, s3, s4 ::
              && Step(p, s, s1) && Step(p, s1, s2) && Step(p, s2, s3) && Step(p, s3, s4) && |s4.shelves| == |s.shelves|
              && m1.id in s4.shelves[BucketNr(m1.sender, p.cfg.buckets)].appended
              && m1.id in s4.shelves[BucketNr(m2.sender, p.cfg.buckets)].appended
  {
    var a1, a2, a3, a4 := Arrive(0, m1), Deposit(0), Arrive(0, m2), Deposit(0);
    var s1 := Effect(p, s, a1);
    assert Step(p, s, s1);
    var s2 := Effect(p, s1, a2);
    assert Step(p, s1, s2);
    assert 0 !in s2.adding;
    var s3 := Effect(p, s2, a3);
    assert Step(p, s2, s3);
    var s4 := Effect(p, s3, a4);
    assert Step(p, s3, s4);
  }
}
