/** The hand-over of messages to the instance of their segment: message handlers that look up the instance and then
    enqueue, the orderer that starts and retires segments, and the backlog that keeps early messages. */
module Backlog {
  import opened Collections

  /** A received message. The ID tells receptions apart. */
  datatype Msg = Msg(id: int, sn: int)

  /** Which sequence numbers each segment has. */
  datatype Plan = Plan(sns: nat -> seq<int>, owner: int -> int) {
    ghost predicate Valid() {
      && (forall g: nat, sn :: sn in sns(g) <==> owner(sn) == g)
      && (forall g: nat, i, j :: 0 <= i < j < |sns(g)| ==> sns(g)[i] != sns(g)[j])
    }
  }

  /** The input channels of the instances, by segment. A stopped channel takes nothing. */
  datatype Outbox = Outbox(lines: map<nat, seq<Msg>>, stopped: set<nat>) {
    function Line(g: int): seq<Msg> {
      if g in lines then lines[g] else []
    }

    function Serialize(g: nat, ms: seq<Msg>): Outbox {
      if g in stopped || ms == [] then this else this.(lines := lines[g := Line(g) + ms])
    }
  }

  /** The backlog's own state. */
  datatype Desk = Desk(epochLast: int, stash: map<int, seq<Msg>>, table: map<int, nat>) {
    function Stashed(sn: int): seq<Msg> {
      if sn in stash then stash[sn] else []
    }

    /** What is stashed for these numbers, in their order. */
    function StashedFor(sns: seq<int>): seq<Msg> {
      if sns == [] then [] else Stashed(sns[0]) + StashedFor(sns[1..])
    }
  }

  /** A message arrives at the backlog. It is stashed even if it could be passed on. */
  function Append(d: Desk, out: Outbox, m: Msg): (Desk, Outbox) {
    if m.sn <= d.epochLast then (d, out)
    else (d.(stash := d.stash[m.sn := d.Stashed(m.sn) + [m]]),
          if m.sn in d.table then out.Serialize(d.table[m.sn], [m]) else out)
  }

  /** The instance of segment `g` is registered for one sequence number and gets what is stashed for it. */
  function Register(d: Desk, out: Outbox, g: nat, sn: int): (Desk, Outbox) {
    (d.(table := d.table[sn := g]), out.Serialize(g, d.Stashed(sn)))
  }

  function RegisterAll(d: Desk, out: Outbox, g: nat, sns: seq<int>): (Desk, Outbox)
    decreases |sns|
  {
    if sns == [] then (d, out)
    else var (d1, out1) := Register(d, out, g, sns[0]); RegisterAll(d1, out1, g, sns[1..])
  }

  function Collect(d: Desk, last: int): Desk {
    Desk(last, map sn | sn in d.stash && sn > last :: d.stash[sn], map sn | sn in d.table && sn > last :: d.table[sn])
  }

  // ---------- All threads ----------

  datatype Phase = Fresh | Checked | Loaded(g: Option<nat>)

  datatype State = State(
    /** Handlers that are at work. */
    handlers: map<Msg, Phase>,
    /** Instances by sequence number, as the handlers see them. */
    dispatcher: map<int, nat>,
    /** The next segment to start, and the numbers still to be stored if it is being started. */
    next: nat,
    starting: Option<seq<int>>,
    /** The highest number of a retired segment. */
    last: int,
    retired: set<nat>,
    queue: seq<Msg>,
    subscribers: seq<nat>,
    /** The subscription the backlog is working on, and the numbers still to be registered. */
    busy: Option<(nat, seq<int>)>,
    desk: Desk,
    out: Outbox,
    /** Every message ever received. */
    arrived: set<Msg>)

  datatype Action =
    | Arrive(m: Msg)
    | CheckLast(m: Msg)
    | Load(m: Msg)
    | Enqueue(m: Msg)
    | BeginSegment
    | StoreNext
    | SubscribeSegment
    | TakeMessage
    | TakeSubscriber
    | RegisterNext
    | FinishSubscriber
    | Retire(g: nat)
    | CollectGarbage(g: nat)
    | StopChannel(g: nat)
    | Delete(g: nat, sn: int)

  function LastSn(p: Plan, g: nat): int
    requires p.sns(g) != []
  {
    p.sns(g)[|p.sns(g)| - 1]
  }

  predicate Enabled(p: Plan, s: State, a: Action) {
    match a
    case Arrive(m) => m !in s.arrived
    case CheckLast(m) => m in s.handlers && s.handlers[m].Fresh?
    case Load(m) => m in s.handlers && s.handlers[m].Checked?
    case Enqueue(m) => m in s.handlers && s.handlers[m].Loaded?
    case BeginSegment => s.starting.None?
    case StoreNext => s.starting.Some? && s.starting.value != []
    case SubscribeSegment => s.starting == Some([])
    case TakeMessage => s.busy.None? && s.queue != []
    case TakeSubscriber => s.busy.None? && s.subscribers != []
    case RegisterNext => s.busy.Some? && s.busy.value.1 != []
    case FinishSubscriber => s.busy.Some? && s.busy.value.1 == []
    case Retire(g) => g < s.next && p.sns(g) != [] && forall sn :: sn in p.sns(g) ==> sn <= LastSn(p, g)
    case CollectGarbage(g) => s.busy.None? && g in s.retired && p.sns(g) != []
    case StopChannel(g) => g in s.retired
    case Delete(g, sn) => g in s.retired && sn in p.sns(g)
  }

  function Effect(p: Plan, s: State, a: Action): State
    requires Enabled(p, s, a)
  {
    match a
    case Arrive(m) => s.(arrived := s.arrived + {m}, handlers := s.handlers[m := Fresh])
    case CheckLast(m) => s.(handlers := if m.sn <= s.last then s.handlers - {m} else s.handlers[m := Checked])
    case Load(m) =>
      s.(handlers := s.handlers[m := Loaded(if m.sn in s.dispatcher then Some(s.dispatcher[m.sn]) else None)])
    case Enqueue(m) =>
      var t := s.(handlers := s.handlers - {m});
      if s.handlers[m].g.Some? then t.(out := s.out.Serialize(s.handlers[m].g.value, [m]))
      else t.(queue := s.queue + [m])
    case BeginSegment => s.(starting := Some(p.sns(s.next)))
    case StoreNext =>
      s.(dispatcher := s.dispatcher[s.starting.value[0] := s.next], starting := Some(s.starting.value[1..]))
    case SubscribeSegment => s.(subscribers := s.subscribers + [s.next], starting := None, next := s.next + 1)
    case TakeMessage =>
      var (desk, out) := Append(s.desk, s.out, s.queue[0]);
      s.(queue := s.queue[1..], desk := desk, out := out)
    case TakeSubscriber =>
      s.(subscribers := s.subscribers[1..], busy := Some((s.subscribers[0], p.sns(s.subscribers[0]))))
    case RegisterNext =>
      var (g, todo) := s.busy.value;
      var (desk, out) := Register(s.desk, s.out, g, todo[0]);
      s.(busy := Some((g, todo[1..])), desk := desk, out := out)
    case FinishSubscriber => s.(busy := None)
    case Retire(g) => s.(last := if LastSn(p, g) > s.last then LastSn(p, g) else s.last, retired := s.retired + {g})
    case CollectGarbage(g) => s.(desk := Collect(s.desk, LastSn(p, g)))
    case StopChannel(g) => s.(out := s.out.(stopped := s.out.stopped + {g}))
    case Delete(g, sn) => s.(dispatcher := s.dispatcher - {sn})
  }

  const Empty := State(map[], map[], 0, None, -1, {}, [], [], None, Desk(-1, map[], map[]), Outbox(map[], {}), {})

  ghost predicate Step(p: Plan, s: State, s': State) {
    exists a :: Enabled(p, s, a) && s' == Effect(p, s, a)
  }

  ghost predicate Run(p: Plan, t: seq<State>) {
    && t != []
    && var n := |t| - 1; if n == 0 then t[0] == Empty else Run(p, t[..n]) && Step(p, t[n - 1], t[n])
  }

  // ---------- Where a message is ----------

  function Count(ms: seq<Msg>, m: Msg): nat {
    multiset(ms)[m]
  }

  /** Copies of `m` that count: with a handler, in the queue, stashed for a number that is not yet registered, or handed
      over. */
  function Copies(p: Plan, s: State, m: Msg): nat {
    (if m in s.handlers then 1 else 0)
    + Count(s.queue, m)
    + (if m.sn in s.desk.table then 0 else Count(s.desk.Stashed(m.sn), m))
    + Count(s.out.Line(p.owner(m.sn)), m)
  }

  ghost predicate PlacesOk(p: Plan, s: State) {
    && (forall m :: m in s.handlers ==> m in s.arrived)
    && (forall m :: m in s.handlers && s.handlers[m].Loaded? && s.handlers[m].g.Some? ==>
          s.handlers[m].g.value == p.owner(m.sn))
    && (forall m :: m in s.queue ==> m in s.arrived)
    && (forall sn, m :: m in s.desk.Stashed(sn) ==> m.sn == sn && m in s.arrived)
    && LinesOk(p, s.out, s.arrived)
  }

  /** The backlog has still to register `sn`. */
  predicate Due(p: Plan, s: State, sn: int) {
    || p.owner(sn) >= s.next || p.owner(sn) in s.subscribers
    || (s.busy.Some? && sn in s.busy.value.1)
  }

  ghost predicate TablesOk(p: Plan, s: State) {
    && (forall sn :: sn in s.dispatcher ==> s.dispatcher[sn] == p.owner(sn))
    && (forall sn :: sn in s.desk.table ==> s.desk.table[sn] == p.owner(sn) && !Due(p, s, sn))
    && (s.starting.Some? ==> forall sn :: sn in s.starting.value ==> p.owner(sn) == s.next)
    && (forall i :: 0 <= i < |s.subscribers| ==> s.subscribers[i] < s.next)
    && (forall i, j :: 0 <= i < j < |s.subscribers| ==> s.subscribers[i] != s.subscribers[j])
    && (s.busy.Some? ==> BusyOk(p, s, s.busy.value.0, s.busy.value.1))
  }

  /** Live numbers of segments that have been started are registered, except those that are due; and handlers find them,
      except those of retired segments. */
  ghost predicate RegisteredOk(p: Plan, s: State) {
    && (forall sn :: sn > s.last && p.owner(sn) >= 0 && !Due(p, s, sn) ==> sn in s.desk.table)
    && (forall sn :: 0 <= p.owner(sn) < s.next && p.owner(sn) !in s.retired ==> sn in s.dispatcher)
    && (s.starting.Some? ==> forall sn :: p.owner(sn) == s.next && sn !in s.starting.value ==> sn in s.dispatcher)
    && forall g :: g in s.retired ==> g < s.next
  }

  ghost predicate BusyOk(p: Plan, s: State, g: nat, todo: seq<int>) {
    && g < s.next && g !in s.subscribers
    && (forall i :: 0 <= i < |todo| ==> p.owner(todo[i]) == g)
    && (forall i, j :: 0 <= i < j < |todo| ==> todo[i] != todo[j])
  }

  ghost predicate RetiredOk(p: Plan, s: State) {
    && (forall g, sn :: g in s.retired && sn in p.sns(g) ==> sn <= s.last)
    && (forall g, sn :: g in s.out.stopped && sn in p.sns(g) ==> sn <= s.last)
    && s.desk.epochLast <= s.last
  }

  /** Every message of a live sequence number is in exactly one place. */
  ghost predicate ExactlyOne(p: Plan, s: State) {
    forall m :: m in s.arrived && m.sn > s.last ==> Copies(p, s, m) == 1
  }

  ghost predicate MovesOk(p: Plan, s: State) {
    p.Valid() && PlacesOk(p, s) && TablesOk(p, s) && RetiredOk(p, s) && ExactlyOne(p, s)
  }

  ghost predicate Inv(p: Plan, s: State) {
    MovesOk(p, s) && RegisteredOk(p, s)
  }

  // ---------- Proof ----------

  lemma CountConcat(a: seq<Msg>, b: seq<Msg>, m: Msg)
    ensures Count(a + b, m) == Count(a, m) + Count(b, m)
  {
  }

  lemma CountOne(m: Msg, n: Msg)
    ensures Count([m], n) == if m == n then 1 else 0
  {
  }

  lemma ArriveKeeps(p: Plan, s: State, m: Msg)
    requires MovesOk(p, s) && Enabled(p, s, Arrive(m))
    ensures MovesOk(p, Effect(p, s, Arrive(m)))
  {
    var s' := Effect(p, s, Arrive(m));
    forall n | n in s'.arrived && n.sn > s'.last
      ensures Copies(p, s', n) == 1
    {
      if n == m {
        assert m !in s.queue && m !in s.desk.Stashed(m.sn) && m !in s.out.Line(p.owner(m.sn));
      } else {
        assert Copies(p, s, n) == 1;
      }
    }
  }

  lemma CheckLastKeeps(p: Plan, s: State, m: Msg)
    requires MovesOk(p, s) && Enabled(p, s, CheckLast(m))
    ensures MovesOk(p, Effect(p, s, CheckLast(m)))
  {
    var s' := Effect(p, s, CheckLast(m));
    forall n | n in s'.arrived && n.sn > s'.last
      ensures Copies(p, s', n) == 1
    {
      assert Copies(p, s, n) == 1;
    }
    HandlersRest(p, s, s');
  }

  lemma LoadKeeps(p: Plan, s: State, m: Msg)
    requires MovesOk(p, s) && Enabled(p, s, Load(m))
    ensures MovesOk(p, Effect(p, s, Load(m)))
  {
    var s' := Effect(p, s, Load(m));
    SameCopies(p, s, s');
    HandlersRest(p, s, s');
  }

  /** Steps that change handlers, queue or channels alone keep the tables. */
  lemma HandlersRest(p: Plan, s: State, s': State)
    requires TablesOk(p, s) && RetiredOk(p, s)
    requires s' == s.(handlers := s'.handlers, queue := s'.queue, out := s'.out) && s'.out.stopped == s.out.stopped
    ensures TablesOk(p, s') && RetiredOk(p, s')
  {
  }

  /** Appending messages of segment `g` to its channel. */
  lemma SerializeCount(p: Plan, out: Outbox, g: nat, ms: seq<Msg>, n: Msg)
    requires g !in out.stopped || p.owner(n.sn) != g
    ensures Count(out.Serialize(g, ms).Line(p.owner(n.sn)), n)
            == Count(out.Line(p.owner(n.sn)), n) + if p.owner(n.sn) == g then Count(ms, n) else 0
  {
    CountConcat(out.Line(g), ms, n);
  }

  /** The channel of a live message's segment is not stopped. */
  lemma LiveOpen(p: Plan, s: State, g: nat, n: Msg)
    requires p.Valid() && RetiredOk(p, s) && n.sn > s.last
    ensures g !in s.out.stopped || p.owner(n.sn) != g
  {
    if p.owner(n.sn) == g {
      assert n.sn in p.sns(g);
    }
  }

  ghost predicate LinesOk(p: Plan, out: Outbox, arrived: set<Msg>) {
    forall g, m :: m in out.Line(g) ==> p.owner(m.sn) == g && m in arrived
  }

  lemma SerializeLines(p: Plan, out: Outbox, g: nat, ms: seq<Msg>, arrived: set<Msg>)
    requires LinesOk(p, out, arrived) && forall m :: m in ms ==> p.owner(m.sn) == g && m in arrived
    ensures LinesOk(p, out.Serialize(g, ms), arrived)
  {
    var out' := out.Serialize(g, ms);
    forall h, m | m in out'.Line(h)
      ensures p.owner(m.sn) == h && m in arrived
    {
      assert m in out.Line(h) || (h == g && m in ms);
    }
  }

  lemma EnqueuePlaces(p: Plan, s: State, m: Msg)
    requires PlacesOk(p, s) && Enabled(p, s, Enqueue(m))
    ensures PlacesOk(p, Effect(p, s, Enqueue(m)))
  {
    if s.handlers[m].g.Some? {
      SerializeLines(p, s.out, s.handlers[m].g.value, [m], s.arrived);
    }
  }

  lemma EnqueueCopies(p: Plan, s: State, m: Msg, n: Msg)
    requires p.Valid() && PlacesOk(p, s) && RetiredOk(p, s) && Enabled(p, s, Enqueue(m)) && n.sn > s.last
    ensures Copies(p, Effect(p, s, Enqueue(m)), n) == Copies(p, s, n)
  {
    CountOne(m, n);
    if s.handlers[m].g.Some? {
      var g := s.handlers[m].g.value;
      LiveOpen(p, s, g, n);
      SerializeCount(p, s.out, g, [m], n);
    } else {
      CountConcat(s.queue, [m], n);
    }
  }

  lemma EnqueueKeeps(p: Plan, s: State, m: Msg)
    requires MovesOk(p, s) && Enabled(p, s, Enqueue(m))
    ensures MovesOk(p, Effect(p, s, Enqueue(m)))
  {
    EnqueuePlaces(p, s, m);
    HandlersRest(p, s, Effect(p, s, Enqueue(m)));
    forall n | n in s.arrived && n.sn > s.last
      ensures Copies(p, Effect(p, s, Enqueue(m)), n) == 1
    {
      EnqueueCopies(p, s, m, n);
    }
  }

  lemma AppendPlaces(p: Plan, s: State)
    requires PlacesOk(p, s) && TablesOk(p, s) && Enabled(p, s, TakeMessage)
    ensures PlacesOk(p, Effect(p, s, TakeMessage))
  {
    var s', m := Effect(p, s, TakeMessage), s.queue[0];
    assert m in s.queue;
    if m.sn > s.desk.epochLast && m.sn in s.desk.table {
      SerializeLines(p, s.out, s.desk.table[m.sn], [m], s.arrived);
    }
    forall sn, n | n in s'.desk.Stashed(sn)
      ensures n.sn == sn && n in s.arrived
    {
      assert n in s.desk.Stashed(sn) || (n == m && sn == m.sn);
    }
  }

  lemma AppendCopies(p: Plan, s: State, n: Msg)
    requires p.Valid() && PlacesOk(p, s) && TablesOk(p, s) && RetiredOk(p, s) && Enabled(p, s, TakeMessage)
    requires n.sn > s.last
    ensures Copies(p, Effect(p, s, TakeMessage), n) == Copies(p, s, n)
  {
    var m := s.queue[0];
    CountHead(s.queue, n);
    if m.sn > s.desk.epochLast && m.sn in s.desk.table {
      LiveOpen(p, s, s.desk.table[m.sn], n);
    }
    AppendMoves(p, s, Effect(p, s, TakeMessage), m, n);
  }

  lemma CountHead(ms: seq<Msg>, n: Msg)
    requires ms != []
    ensures Count(ms, n) == (if ms[0] == n then 1 else 0) + Count(ms[1..], n)
  {
    assert ms == [ms[0]] + ms[1..];
    CountOne(ms[0], n);
    CountConcat([ms[0]], ms[1..], n);
  }

  lemma AppendMoves(p: Plan, s: State, s': State, m: Msg, n: Msg)
    requires n.sn > s.desk.epochLast && (m.sn in s.desk.table ==> s.desk.table[m.sn] == p.owner(m.sn))
    requires m.sn > s.desk.epochLast && m.sn in s.desk.table ==>
               s.desk.table[m.sn] !in s.out.stopped || p.owner(n.sn) != s.desk.table[m.sn]
    requires s'.handlers == s.handlers && (s'.desk, s'.out) == Append(s.desk, s.out, m)
    requires Count(s.queue, n) == (if m == n then 1 else 0) + Count(s'.queue, n)
    ensures Copies(p, s', n) == Copies(p, s, n)
  {
    AppendCounts(p, s.desk, s.out, m, n);
  }

  /** Appending at the backlog adds the message once to what counts there. */
  lemma AppendCounts(p: Plan, d: Desk, out: Outbox, m: Msg, n: Msg)
    requires n.sn > d.epochLast
    requires m.sn in d.table ==> d.table[m.sn] == p.owner(m.sn)
    requires m.sn > d.epochLast && m.sn in d.table ==> d.table[m.sn] !in out.stopped || p.owner(n.sn) != d.table[m.sn]
    ensures var (d', out') := Append(d, out, m);
            && (n.sn in d'.table <==> n.sn in d.table)
            && (if n.sn in d.table then 0 else Count(d'.Stashed(n.sn), n)) + Count(out'.Line(p.owner(n.sn)), n)
               == (if n.sn in d.table then 0 else Count(d.Stashed(n.sn), n)) + Count(out.Line(p.owner(n.sn)), n) +
                  if m == n then 1 else 0
  {
    CountOne(m, n);
    CountConcat(d.Stashed(m.sn), [m], n);
    if m.sn > d.epochLast && m.sn in d.table {
      SerializeCount(p, out, d.table[m.sn], [m], n);
    }
  }

  lemma TakeMessageKeeps(p: Plan, s: State)
    requires MovesOk(p, s) && Enabled(p, s, TakeMessage)
    ensures MovesOk(p, Effect(p, s, TakeMessage))
  {
    AppendPlaces(p, s);
    forall n | n in s.arrived && n.sn > s.last
      ensures Copies(p, Effect(p, s, TakeMessage), n) == 1
    {
      AppendCopies(p, s, n);
    }
  }

  lemma RegisterPlaces(p: Plan, s: State)
    requires PlacesOk(p, s) && TablesOk(p, s) && Enabled(p, s, RegisterNext)
    ensures PlacesOk(p, Effect(p, s, RegisterNext))
  {
    var g, sn := s.busy.value.0, s.busy.value.1[0];
    var stashed := s.desk.Stashed(sn);
    assert p.owner(sn) == g;
    SerializeLines(p, s.out, g, stashed, s.arrived);
    var desk' := Register(s.desk, s.out, g, sn).0;
    assert forall k :: desk'.Stashed(k) == s.desk.Stashed(k);
  }

  lemma RegisterCopies(p: Plan, s: State, n: Msg)
    requires p.Valid() && PlacesOk(p, s) && TablesOk(p, s) && RetiredOk(p, s) && Enabled(p, s, RegisterNext)
    requires n.sn > s.last
    ensures Copies(p, Effect(p, s, RegisterNext), n) == Copies(p, s, n)
  {
    var g, sn := s.busy.value.0, s.busy.value.1[0];
    assert sn in s.busy.value.1 && Due(p, s, sn);
    LiveOpen(p, s, g, n);
    SerializeCount(p, s.out, g, s.desk.Stashed(sn), n);
    if n.sn != sn {
      assert n !in s.desk.Stashed(sn);
    }
  }

  lemma RegisterKeeps(p: Plan, s: State)
    requires MovesOk(p, s) && Enabled(p, s, RegisterNext)
    ensures MovesOk(p, Effect(p, s, RegisterNext))
  {
    RegisterPlaces(p, s);
    RegisterTables(p, s);
    forall n | n in s.arrived && n.sn > s.last
      ensures Copies(p, Effect(p, s, RegisterNext), n) == 1
    {
      RegisterCopies(p, s, n);
    }
  }

  lemma RegisterTables(p: Plan, s: State)
    requires p.Valid() && TablesOk(p, s) && Enabled(p, s, RegisterNext)
    ensures TablesOk(p, Effect(p, s, RegisterNext))
  {
    var s', g, todo := Effect(p, s, RegisterNext), s.busy.value.0, s.busy.value.1;
    assert todo[0] in todo;
    assert todo[0] !in todo[1..];
  }

  lemma RegisterMore(p: Plan, s: State)
    requires p.Valid() && TablesOk(p, s) && RegisteredOk(p, s) && Enabled(p, s, RegisterNext)
    ensures RegisteredOk(p, Effect(p, s, RegisterNext))
  {
    var s', todo := Effect(p, s, RegisterNext), s.busy.value.1;
    assert todo == [todo[0]] + todo[1..];
    forall sn | sn > s'.last && p.owner(sn) >= 0 && !Due(p, s', sn)
      ensures sn in s'.desk.table
    {
      assert sn != todo[0] ==> !Due(p, s, sn);
    }
  }

  /** Steps that do not touch any place where messages are. */
  lemma SameCopies(p: Plan, s: State, s': State)
    requires ExactlyOne(p, s) && s'.handlers.Keys == s.handlers.Keys && s'.queue == s.queue && s'.desk == s.desk
    requires s'.out.lines == s.out.lines && s'.arrived == s.arrived && s'.last >= s.last
    ensures ExactlyOne(p, s')
  {
    forall n | n in s'.arrived && n.sn > s'.last
      ensures Copies(p, s', n) == 1
    {
      assert Copies(p, s, n) == 1;
    }
  }

  lemma SubscribeKeeps(p: Plan, s: State)
    requires MovesOk(p, s) && Enabled(p, s, SubscribeSegment)
    ensures MovesOk(p, Effect(p, s, SubscribeSegment))
  {
    var s' := Effect(p, s, SubscribeSegment);
    SameCopies(p, s, s');
  }

  lemma TakeSubscriberKeeps(p: Plan, s: State)
    requires MovesOk(p, s) && Enabled(p, s, TakeSubscriber)
    ensures MovesOk(p, Effect(p, s, TakeSubscriber))
  {
    var s', g := Effect(p, s, TakeSubscriber), s.subscribers[0];
    SameCopies(p, s, s');
    assert forall i :: 0 <= i < |p.sns(g)| ==> p.sns(g)[i] in p.sns(g);
    assert g in s.subscribers;
  }

  lemma FinishKeeps(p: Plan, s: State)
    requires MovesOk(p, s) && Enabled(p, s, FinishSubscriber)
    ensures MovesOk(p, Effect(p, s, FinishSubscriber))
  {
    var s' := Effect(p, s, FinishSubscriber);
    SameCopies(p, s, s');
  }

  lemma StartKeeps(p: Plan, s: State, a: Action)
    requires MovesOk(p, s) && Enabled(p, s, a) && (a.BeginSegment? || a.StoreNext?)
    ensures MovesOk(p, Effect(p, s, a))
  {
    var s' := Effect(p, s, a);
    SameCopies(p, s, s');
  }

  lemma RetireKeeps(p: Plan, s: State, g: nat)
    requires MovesOk(p, s) && Enabled(p, s, Retire(g))
    ensures MovesOk(p, Effect(p, s, Retire(g)))
  {
    var s' := Effect(p, s, Retire(g));
    forall h, sn | h in s'.retired && sn in p.sns(h)
      ensures sn <= s'.last
    {
      assert h in s.retired || h == g;
    }
    SameCopies(p, s, s');
  }

  lemma StopKeeps(p: Plan, s: State, a: Action)
    requires MovesOk(p, s) && Enabled(p, s, a) && (a.StopChannel? || a.Delete?)
    ensures MovesOk(p, Effect(p, s, a))
  {
    var s' := Effect(p, s, a);
    assert forall g :: s'.out.Line(g) == s.out.Line(g);
    SameCopies(p, s, s');
  }

  lemma CollectKeeps(p: Plan, s: State, g: nat)
    requires MovesOk(p, s) && Enabled(p, s, CollectGarbage(g))
    ensures MovesOk(p, Effect(p, s, CollectGarbage(g)))
  {
    var s' := Effect(p, s, CollectGarbage(g));
    assert LastSn(p, g) in p.sns(g) && LastSn(p, g) <= s.last;
    assert forall sn :: sn > LastSn(p, g) ==> s'.desk.Stashed(sn) == s.desk.Stashed(sn);
    assert forall sn :: sn <= LastSn(p, g) ==> s'.desk.Stashed(sn) == [];
    forall n | n in s'.arrived && n.sn > s'.last
      ensures Copies(p, s', n) == 1
    {
      assert Copies(p, s, n) == 1;
    }
  }

  /** Which numbers are registered after a step. */
  lemma RegisteredStep(p: Plan, s: State, a: Action)
    requires p.Valid() && TablesOk(p, s) && RetiredOk(p, s) && RegisteredOk(p, s) && Enabled(p, s, a)
    ensures RegisteredOk(p, Effect(p, s, a))
  {
    match a
    case BeginSegment => StartedMore(p, s, a);
    case StoreNext => StartedMore(p, s, a);
    case SubscribeSegment => SubscribedMore(p, s);
    case TakeSubscriber => TakenMore(p, s);
    case RegisterNext => RegisterMore(p, s);
    case CollectGarbage(g) => CollectedMore(p, s, g);
    case _ => RegisteredSame(p, s, Effect(p, s, a));
  }

  lemma RegisteredSame(p: Plan, s: State, s': State)
    requires RegisteredOk(p, s) && s'.next == s.next && s'.starting == s.starting && s'.subscribers == s.subscribers
    requires s'.busy == s.busy || (s.busy.Some? && s.busy.value.1 == [] && s'.busy.None?)
    requires s.last <= s'.last && s'.desk.table == s.desk.table
    requires s.retired <= s'.retired && forall g :: g in s'.retired ==> g < s.next
    requires forall sn :: sn in s.dispatcher && sn !in s'.dispatcher ==>
               0 <= p.owner(sn) < s.next && p.owner(sn) in s'.retired
    ensures RegisteredOk(p, s')
  {
    assert forall sn :: Due(p, s, sn) ==> Due(p, s', sn);
  }

  lemma StartedMore(p: Plan, s: State, a: Action)
    requires p.Valid() && TablesOk(p, s) && RegisteredOk(p, s) && Enabled(p, s, a) && (a.BeginSegment? || a.StoreNext?)
    ensures RegisteredOk(p, Effect(p, s, a))
  {
    if a.StoreNext? {
      var todo := s.starting.value;
      assert todo == [todo[0]] + todo[1..];
    }
  }

  lemma SubscribedMore(p: Plan, s: State)
    requires p.Valid() && RegisteredOk(p, s) && Enabled(p, s, SubscribeSegment)
    ensures RegisteredOk(p, Effect(p, s, SubscribeSegment))
  {
    var s' := Effect(p, s, SubscribeSegment);
    assert forall sn :: Due(p, s, sn) ==> Due(p, s', sn);
  }

  lemma TakenMore(p: Plan, s: State)
    requires p.Valid() && RegisteredOk(p, s) && Enabled(p, s, TakeSubscriber)
    ensures RegisteredOk(p, Effect(p, s, TakeSubscriber))
  {
    var s' := Effect(p, s, TakeSubscriber);
    assert s.subscribers == [s.subscribers[0]] + s.subscribers[1..];
    assert forall sn :: Due(p, s, sn) ==> Due(p, s', sn);
  }

  lemma CollectedMore(p: Plan, s: State, g: nat)
    requires p.Valid() && RetiredOk(p, s) && RegisteredOk(p, s) && Enabled(p, s, CollectGarbage(g))
    ensures RegisteredOk(p, Effect(p, s, CollectGarbage(g)))
  {
    assert LastSn(p, g) in p.sns(g);
  }

  lemma StepKeeps(p: Plan, s: State, a: Action)
    requires Inv(p, s) && Enabled(p, s, a)
    ensures Inv(p, Effect(p, s, a))
  {
    RegisteredStep(p, s, a);
    StepMoves(p, s, a);
  }

  lemma StepMoves(p: Plan, s: State, a: Action)
    requires MovesOk(p, s) && Enabled(p, s, a)
    ensures MovesOk(p, Effect(p, s, a))
  {
    match a
    case Arrive(m) => ArriveKeeps(p, s, m);
    case CheckLast(m) => CheckLastKeeps(p, s, m);
    case Load(m) => LoadKeeps(p, s, m);
    case Enqueue(m) => EnqueueKeeps(p, s, m);
    case BeginSegment => StartKeeps(p, s, a);
    case StoreNext => StartKeeps(p, s, a);
    case SubscribeSegment => SubscribeKeeps(p, s);
    case TakeMessage => TakeMessageKeeps(p, s);
    case TakeSubscriber => TakeSubscriberKeeps(p, s);
    case RegisterNext => RegisterKeeps(p, s);
    case FinishSubscriber => FinishKeeps(p, s);
    case Retire(g) => RetireKeeps(p, s, g);
    case CollectGarbage(g) => CollectKeeps(p, s, g);
    case StopChannel(_) => StopKeeps(p, s, a);
    case Delete(_, _) => StopKeeps(p, s, a);
  }

  lemma NextKeeps(p: Plan, s: State, s': State)
    requires Inv(p, s) && Step(p, s, s')
    ensures Inv(p, s')
  {
    var a :| Enabled(p, s, a) && s' == Effect(p, s, a);
    StepKeeps(p, s, a);
  }

  lemma {:induction false} RunKeeps(p: Plan, t: seq<State>)
    requires p.Valid() && Run(p, t)
    ensures Inv(p, t[|t| - 1])
  {
    var n := |t| - 1;
    if n > 0 {
      RunKeeps(p, t[..n]);
      NextKeeps(p, t[n - 1], t[n]);
    }
  }

  // ---------- Main results ----------

  /** In every run, a message of a live sequence number is handed to the instance of its own segment at most once and
      to no other; and exactly once, if no handler and no queue holds it, its segment has been started, and the backlog
      has dealt with the segment's subscription as far as this number. */
  lemma {:induction false} HandedOverOnce(p: Plan, t: seq<State>, m: Msg, g: nat)
    requires p.Valid() && Run(p, t) && m in t[|t| - 1].arrived && m.sn > t[|t| - 1].last
    ensures var s := t[|t| - 1];
            && Count(s.out.Line(g), m) <= 1
            && (g != p.owner(m.sn) ==> Count(s.out.Line(g), m) == 0)
            && (&& m !in s.handlers && m !in s.queue && 0 <= p.owner(m.sn) < s.next && p.owner(m.sn) !in s.subscribers
                && (s.busy.None? || m.sn !in s.busy.value.1)
                ==> Count(s.out.Line(p.owner(m.sn)), m) == 1)
  {
    RunKeeps(p, t);
    var s := t[|t| - 1];
    assert Copies(p, s, m) == 1;
    if g != p.owner(m.sn) {
      assert m !in s.out.Line(g);
    }
  }

  /** Until the number is registered nothing is lost either: the message is with its handler, queued, stashed or
      handed over directly. */
  lemma {:induction false} NeverLost(p: Plan, t: seq<State>, m: Msg)
    requires p.Valid() && Run(p, t) && m in t[|t| - 1].arrived && m.sn > t[|t| - 1].last
    ensures var s := t[|t| - 1];
            m in s.handlers || m in s.queue || m in s.desk.Stashed(m.sn) || m in s.out.Line(p.owner(m.sn))
  {
    RunKeeps(p, t);
    assert Copies(p, t[|t| - 1], m) == 1;
  }

  /** In every run, a handler that looks up a number of a segment that has been started and not retired finds its
      instance, so that the message goes there directly. */
  lemma {:induction false} FoundAfterStart(p: Plan, t: seq<State>, m: Msg)
    requires p.Valid() && Run(p, t) && Enabled(p, t[|t| - 1], Load(m))
    requires 0 <= p.owner(m.sn) < t[|t| - 1].next && p.owner(m.sn) !in t[|t| - 1].retired
    ensures var s' := Effect(p, t[|t| - 1], Load(m)); m in s'.handlers && s'.handlers[m] == Loaded(Some(p.owner(m.sn)))
  {
    RunKeeps(p, t);
  }

  lemma {:induction false} RunAt(p: Plan, t: seq<State>, n: nat)
    requires p.Valid() && Run(p, t) && n < |t|
    ensures Inv(p, t[n]) && (n > 0 ==> Step(p, t[n - 1], t[n]))
  {
    if n == |t| - 1 {
      RunKeeps(p, t);
    } else {
      RunAt(p, t[..|t| - 1], n);
    }
  }

  /** The message is nowhere but with a handler that has not checked it. */
  ghost predicate OnlyFresh(s: State, m: Msg) {
    && m in s.arrived && m.sn <= s.last && (m in s.handlers ==> s.handlers[m].Fresh?)
    && m !in s.queue && (forall sn :: m !in s.desk.Stashed(sn)) && forall g :: m !in s.out.Line(g)
  }

  lemma SerializeOthers(out: Outbox, g: nat, ms: seq<Msg>, m: Msg)
    requires m !in ms && forall h :: m !in out.Line(h)
    ensures forall h :: m !in out.Serialize(g, ms).Line(h)
  {
    assert m !in out.Line(g) + ms;
    forall h
      ensures m !in out.Serialize(g, ms).Line(h)
    {
      var line := out.Serialize(g, ms).Line(h);
      assert line == out.Line(h) || (h == g && line == out.Line(g) + ms);
    }
  }

  lemma StaysFresh(p: Plan, s: State, a: Action, m: Msg)
    requires Enabled(p, s, a) && OnlyFresh(s, m) && p.Valid()
    ensures OnlyFresh(Effect(p, s, a), m)
  {
    var s' := Effect(p, s, a);
    match a
    case Enqueue(n) =>
      if s.handlers[n].g.Some? {
        SerializeOthers(s.out, s.handlers[n].g.value, [n], m);
      }
    case TakeMessage =>
      var n := s.queue[0];
      assert n in s.queue;
      if n.sn > s.desk.epochLast && n.sn in s.desk.table {
        SerializeOthers(s.out, s.desk.table[n.sn], [n], m);
      }
      assert forall sn :: s'.desk.Stashed(sn) == s.desk.Stashed(sn) || s'.desk.Stashed(sn) == s.desk.Stashed(sn) + [n];
    case RegisterNext =>
      SerializeOthers(s.out, s.busy.value.0, s.desk.Stashed(s.busy.value.1[0]), m);
      assert s'.desk.stash == s.desk.stash;
    case CollectGarbage(_) =>
      assert forall sn :: s'.desk.Stashed(sn) == s.desk.Stashed(sn) || s'.desk.Stashed(sn) == [];
    case StopChannel(_) => assert forall g :: s'.out.Line(g) == s.out.Line(g);
    case _ =>
  }

  lemma {:induction false} FreshUntil(p: Plan, t: seq<State>, m: Msg, i: nat, j: nat)
    requires p.Valid() && Run(p, t) && i <= j < |t| && OnlyFresh(t[i], m)
    ensures OnlyFresh(t[j], m)
    decreases j
  {
    if i < j {
      FreshUntil(p, t, m, i, j - 1);
      var a := RunActs(p, t, j);
      StaysFresh(p, t[j - 1], a, m);
    }
  }

  /** In every run, a message that arrives when its segment has been passed is never handed to any instance. */
  lemma {:induction false} LateNeverHandedOver(p: Plan, t: seq<State>, m: Msg, i: nat, j: nat, g: int)
    requires p.Valid() && Run(p, t) && i < j < |t| && m.sn <= t[i].last
    requires Enabled(p, t[i], Arrive(m)) && t[i + 1] == Effect(p, t[i], Arrive(m))
    ensures m !in t[j].out.Line(g)
  {
    ArrivesFresh(p, t, m, i);
    FreshUntil(p, t, m, i + 1, j);
  }

  lemma ArrivesFresh(p: Plan, t: seq<State>, m: Msg, i: nat)
    requires p.Valid() && Run(p, t) && i + 1 < |t| && m.sn <= t[i].last
    requires Enabled(p, t[i], Arrive(m)) && t[i + 1] == Effect(p, t[i], Arrive(m))
    ensures OnlyFresh(t[i + 1], m)
  {
    RunAt(p, t, i);
    assert PlacesOk(p, t[i]);
  }

  // ---------- Messages under way can arrive ----------

  function FreshOnes(s: State): set<Msg> {
    set m | m in s.handlers && s.handlers[m].Fresh?
  }

  function CheckedOnes(s: State): set<Msg> {
    set m | m in s.handlers && s.handlers[m].Checked?
  }

  /** How much of a segment is still to be started, and of a subscription still to be dealt with. */
  function ToStart(s: State): nat {
    if s.starting.Some? then |s.starting.value| + 1 else 0
  }

  function ToRegister(s: State): nat {
    if s.busy.Some? then |s.busy.value.1| + 1 else 0
  }

  predicate AtRest(s: State) {
    s.handlers == map[] && s.starting.None? && s.subscribers == [] && s.busy.None? && s.queue == []
  }

  /** The steps that finish what is under way. */
  predicate Finishing(a: Action) {
    || a.CheckLast? || a.Load? || a.Enqueue? || a.StoreNext? || a.SubscribeSegment?
    || a.TakeMessage? || a.TakeSubscriber? || a.RegisterNext? || a.FinishSubscriber?
  }

  /** There is less to do after a step than before it. */
  ghost predicate Less(s: State, s': State) {
    || |FreshOnes(s')| < |FreshOnes(s)|
    || (FreshOnes(s') == FreshOnes(s) && |CheckedOnes(s')| < |CheckedOnes(s)|)
    || (FreshOnes(s') == FreshOnes(s) && CheckedOnes(s') == CheckedOnes(s) && |s'.handlers| < |s.handlers|)
    || (s'.handlers == s.handlers && ToStart(s') < ToStart(s))
    || (s'.handlers == s.handlers && ToStart(s') == ToStart(s) &&
        (|s'.subscribers| < |s.subscribers| ||
         (s'.subscribers == s.subscribers &&
          (ToRegister(s') < ToRegister(s) || (s'.busy == s.busy && |s'.queue| < |s.queue|)))))
  }

  lemma NextAction(p: Plan, s: State) returns (a: Action)
    requires !AtRest(s)
    ensures Enabled(p, s, a) && Finishing(a)
  {
    if s.handlers != map[] {
      var m := Member(s.handlers.Keys);
      a := match s.handlers[m] case Fresh => CheckLast(m) case Checked => Load(m) case Loaded(_) => Enqueue(m);
    } else if s.starting.Some? {
      a := if s.starting.value != [] then StoreNext else SubscribeSegment;
    } else if s.busy.Some? {
      a := if s.busy.value.1 != [] then RegisterNext else FinishSubscriber;
    } else if s.subscribers != [] {
      a := TakeSubscriber;
    } else {
      a := TakeMessage;
    }
  }

  lemma CheckLess(s: State, s': State, m: Msg)
    requires m in s.handlers && s.handlers[m].Fresh?
    requires s'.handlers == s.handlers - {m} || s'.handlers == s.handlers[m := Checked]
    ensures |FreshOnes(s')| < |FreshOnes(s)|
  {
    assert FreshOnes(s') == FreshOnes(s) - {m};
  }

  lemma LoadLess(s: State, s': State, m: Msg, g: Option<nat>)
    requires m in s.handlers && s.handlers[m].Checked? && s'.handlers == s.handlers[m := Loaded(g)]
    ensures FreshOnes(s') == FreshOnes(s) && |CheckedOnes(s')| < |CheckedOnes(s)|
  {
    assert FreshOnes(s') == FreshOnes(s) && CheckedOnes(s') == CheckedOnes(s) - {m};
  }

  lemma EnqueueLess(s: State, s': State, m: Msg)
    requires m in s.handlers && s.handlers[m].Loaded? && s'.handlers == s.handlers - {m}
    ensures FreshOnes(s') == FreshOnes(s) && CheckedOnes(s') == CheckedOnes(s) && |s'.handlers| < |s.handlers|
  {
    assert FreshOnes(s') == FreshOnes(s) && CheckedOnes(s') == CheckedOnes(s);
    assert s'.handlers.Keys == s.handlers.Keys - {m};
    assert |s'.handlers| == |s'.handlers.Keys| && |s.handlers| == |s.handlers.Keys|;
  }

  lemma ActionLess(p: Plan, s: State, a: Action)
    requires Enabled(p, s, a) && Finishing(a)
    ensures var s' := Effect(p, s, a); Less(s, s') && s'.arrived == s.arrived && s'.last == s.last && s.next <= s'.next
  {
    var s' := Effect(p, s, a);
    if a.CheckLast? {
      CheckLess(s, s', a.m);
    } else if a.Load? {
      LoadLess(s, s', a.m, s'.handlers[a.m].g);
    } else if a.Enqueue? {
      EnqueueLess(s, s', a.m);
    }
  }

  ghost predicate Path(p: Plan, path: seq<State>) {
    path != [] && forall i :: 0 < i < |path| ==> Step(p, path[i - 1], path[i])
  }

  lemma WorkOn(p: Plan, s: State) returns (s': State)
    requires Inv(p, s) && !AtRest(s)
    ensures Step(p, s, s') && Inv(p, s') && Less(s, s')
    ensures s'.arrived == s.arrived && s'.last == s.last && s.next <= s'.next
  {
    var a := NextAction(p, s);
    ActionLess(p, s, a);
    StepKeeps(p, s, a);
    s' := Effect(p, s, a);
  }

  lemma {:induction false} FinishFrom(p: Plan, s: State) returns (path: seq<State>)
    requires Inv(p, s)
    ensures Path(p, path) && path[0] == s
    ensures var e := path[|path| - 1]; AtRest(e) && e.arrived == s.arrived && e.last == s.last && s.next <= e.next
    decreases |FreshOnes(s)|, |CheckedOnes(s)|, |s.handlers|, ToStart(s), |s.subscribers|, ToRegister(s), |s.queue|
  {
    if AtRest(s) {
      path := [s];
    } else {
      var s' := WorkOn(p, s);
      var rest := FinishFrom(p, s');
      path := Cons(p, s, rest);
    }
  }

  lemma Cons(p: Plan, s: State, rest: seq<State>) returns (path: seq<State>)
    requires Path(p, rest) && Step(p, s, rest[0])
    ensures Path(p, path) && path[0] == s && path[|path| - 1] == rest[|rest| - 1]
  {
    path := [s] + rest;
    forall i | 0 < i < |path|
      ensures Step(p, path[i - 1], path[i])
    {
      assert path[i] == rest[i - 1] && (i > 1 ==> path[i - 1] == rest[i - 2]);
    }
  }

  lemma RunOne(p: Plan, t: seq<State>, s: State) returns (longer: seq<State>)
    requires Run(p, t) && Step(p, t[|t| - 1], s)
    ensures longer == t + [s] && Run(p, longer) && longer[|longer| - 1] == s
  {
    longer := t + [s];
    assert longer[..|t|] == t;
  }

  lemma {:induction false} RunPath(p: Plan, t: seq<State>, path: seq<State>) returns (longer: seq<State>)
    requires Run(p, t) && Path(p, path) && path[0] == t[|t| - 1]
    ensures Run(p, longer) && longer == t + path[1..]
    decreases |path|
  {
    if |path| == 1 {
      longer := t;
    } else {
      var t1 := RunOne(p, t, path[1]);
      var rest := TailPath(p, path);
      longer := RunPath(p, t1, rest);
      AppendRest(t, path);
    }
  }

  lemma TailPath(p: Plan, path: seq<State>) returns (rest: seq<State>)
    requires Path(p, path) && |path| > 1
    ensures rest == path[1..] && Path(p, rest) && rest[0] == path[1]
  {
    rest := path[1..];
    assert forall i :: 0 < i < |rest| ==> rest[i] == path[i + 1] && rest[i - 1] == path[i];
  }

  lemma FinishRun(p: Plan, t: seq<State>) returns (path: seq<State>)
    requires p.Valid() && Run(p, t)
    ensures Path(p, path) && path[0] == t[|t| - 1]
    ensures var s, e := t[|t| - 1], path[|path| - 1];
            AtRest(e) && e.arrived == s.arrived && e.last == s.last && s.next <= e.next
  {
    RunKeeps(p, t);
    path := FinishFrom(p, t[|t| - 1]);
  }

  /** Every run can be continued, without further arrivals or retirements, to a state in which every live message of a
      segment that has been started has been handed to its instance exactly once. */
  lemma CanHandOverAll(p: Plan, t: seq<State>) returns (longer: seq<State>)
    requires p.Valid() && Run(p, t)
    ensures Run(p, longer) && |t| <= |longer| && longer[..|t|] == t
    ensures var s, e := t[|t| - 1], longer[|longer| - 1];
            && e.arrived == s.arrived && e.last == s.last && s.next <= e.next
            && forall m :: m in e.arrived && m.sn > e.last && 0 <= p.owner(m.sn) < e.next ==>
                 Count(e.out.Line(p.owner(m.sn)), m) == 1
  {
    var path := FinishRun(p, t);
    longer := RunPath(p, t, path);
    var e := longer[|longer| - 1];
    assert e == path[|path| - 1];
    forall m | m in e.arrived && m.sn > e.last && 0 <= p.owner(m.sn) < e.next
      ensures Count(e.out.Line(p.owner(m.sn)), m) == 1
    {
      HandedOverOnce(p, longer, m, p.owner(m.sn));
    }
  }

  lemma StaysStopped(p: Plan, s: State, a: Action, g: nat)
    requires Enabled(p, s, a) && g in s.out.stopped
    ensures g in Effect(p, s, a).out.stopped && Effect(p, s, a).out.Line(g) == s.out.Line(g)
  {
  }

  /** In every run, the channel of a segment takes nothing any more once it has been stopped. */
  lemma {:induction false} StoppedForGood(p: Plan, t: seq<State>, i: nat, j: nat, g: nat)
    requires p.Valid() && Run(p, t) && i < j < |t| && Enabled(p, t[i], StopChannel(g))
    requires t[i + 1] == Effect(p, t[i], StopChannel(g))
    ensures g in t[j].out.stopped && t[j].out.Line(g) == t[i].out.Line(g)
    decreases j
  {
    if i + 1 < j {
      StoppedForGood(p, t, i, j - 1, g);
      var a := RunActs(p, t, j);
      StaysStopped(p, t[j - 1], a, g);
    }
  }

  lemma StaysDeleted(p: Plan, s: State, a: Action, g: nat, sn: int)
    requires StartsNext(p, s) && Enabled(p, s, a) && g in s.retired && p.owner(sn) == g && sn !in s.dispatcher
    ensures g in Effect(p, s, a).retired && sn !in Effect(p, s, a).dispatcher
  {
    if a.StoreNext? {
      assert s.starting.value[0] in s.starting.value;
    }
  }

  /** In every run, a number of a retired segment that has been deleted is not found by handlers any more. */
  lemma {:induction false} DeletedForGood(p: Plan, t: seq<State>, i: nat, j: nat, g: nat, sn: int)
    requires p.Valid() && Run(p, t) && i < j < |t| && Enabled(p, t[i], Delete(g, sn))
    requires t[i + 1] == Effect(p, t[i], Delete(g, sn))
    ensures g in t[j].retired && sn !in t[j].dispatcher
    decreases j
  {
    assert p.owner(sn) == g;
    if i + 1 < j {
      DeletedForGood(p, t, i, j - 1, g, sn);
      NextDeleted(p, t, j, g, sn);
    }
  }

  lemma NextDeleted(p: Plan, t: seq<State>, j: nat, g: nat, sn: int)
    requires p.Valid() && Run(p, t) && 0 < j < |t| && p.owner(sn) == g
    requires g in t[j - 1].retired && sn !in t[j - 1].dispatcher
    ensures g in t[j].retired && sn !in t[j].dispatcher
  {
    RunStarts(p, t, j - 1);
    var a := RunActs(p, t, j);
    StaysDeleted(p, t[j - 1], a, g, sn);
  }

  /** The segment being started is not among the retired ones. */
  ghost predicate StartsNext(p: Plan, s: State) {
    && (s.starting.Some? ==> forall sn :: sn in s.starting.value ==> p.owner(sn) == s.next)
    && forall g :: g in s.retired ==> g < s.next
  }

  lemma RunStarts(p: Plan, t: seq<State>, n: nat)
    requires p.Valid() && Run(p, t) && n < |t|
    ensures StartsNext(p, t[n])
  {
    RunAt(p, t, n);
  }

  lemma RunActs(p: Plan, t: seq<State>, n: nat) returns (a: Action)
    requires p.Valid() && Run(p, t) && 0 < n < |t|
    ensures Enabled(p, t[n - 1], a) && t[n] == Effect(p, t[n - 1], a)
  {
    RunAt(p, t, n);
    a :| Enabled(p, t[n - 1], a) && t[n] == Effect(p, t[n - 1], a);
  }

  // ---------- The backlog's own operations ----------

  class Backlog {
    var epochLast: int
    var stash: map<int, seq<Msg>>
    var table: map<int, nat>
    /** The channels of the instances. */
    var out: Outbox

    constructor ()
      ensures Value() == Desk(-1, map[], map[]) && out == Outbox(map[], {})
    {
      epochLast, stash, table, out := -1, map[], map[], Outbox(map[], {});
    }

    function Value(): Desk
      reads this
    {
      Desk(epochLast, stash, table)
    }

    /** Drops a message whose epoch is over; any other is stashed, and passed on if its number is registered. */
    method AppendToBacklog(m: Msg)
      modifies this
      ensures (Value(), out) == Append(old(Value()), old(out), m)
      ensures epochLast == old(epochLast) && table == old(table)
      ensures stash == if m.sn <= epochLast then old(stash) else old(stash)[m.sn := old(Value()).Stashed(m.sn) + [m]]
      ensures out == if m.sn > epochLast && m.sn in table then old(out).Serialize(table[m.sn], [m]) else old(out)
    {
      if m.sn <= epochLast {
        return;
      }
      if m.sn in table {
        out := out.Serialize(table[m.sn], [m]);
      }
      var entry := if m.sn in stash then stash[m.sn] else [];
      stash := stash[m.sn := entry + [m]];
    }

    /** Registers the instance of segment `g` for all of its numbers, and passes on what is stashed for them, in order,
        unless the channel is stopped. */
    method DispatchToInstance(g: nat, sns: seq<int>)
      modifies this
      ensures epochLast == old(epochLast) && stash == old(stash)
      ensures forall sn :: sn in table <==> sn in old(table) || sn in sns
      ensures forall sn :: sn in table ==> table[sn] == if sn in sns then g else old(table)[sn]
      ensures out.stopped == old(out).stopped && forall h :: h != g ==> out.Line(h) == old(out).Line(h)
      ensures out.Line(g) == old(out).Line(g) + if g in out.stopped then [] else old(Value()).StashedFor(sns)
    {
      RegistersTable(Value(), out, g, sns);
      RegistersOut(Value(), out, g, sns);
      var i := 0;
      ghost var goal := RegisterAll(Value(), out, g, sns);
      while i < |sns|
        invariant 0 <= i <= |sns| && RegisterAll(Value(), out, g, sns[i..]) == goal
      {
        RegisterOne(g, sns[i]);
        assert sns[i..][0] == sns[i] && sns[i..][1..] == sns[i + 1..];
        i := i + 1;
      }
    }

    method RegisterOne(g: nat, sn: int)
      modifies this
      ensures (Value(), out) == Register(old(Value()), old(out), g, sn)
    {
      table := table[sn := g];
      if sn in stash {
        var i, entry := 0, stash[sn];
        while i < |entry|
          invariant 0 <= i <= |entry| && stash == old(stash) && epochLast == old(epochLast)
          invariant table == old(table)[sn := g]
          invariant out == old(out).Serialize(g, entry[..i])
        {
          assert entry[..i + 1] == entry[..i] + [entry[i]];
          SerializeTwice(old(out), g, entry[..i], [entry[i]]);
          out := out.Serialize(g, [entry[i]]);
          i := i + 1;
        }
        assert entry[..i] == entry;
      }
    }

    /** Forgets the numbers up to `last`, and no others. */
    method GarbageCollect(last: int)
      modifies this
      ensures Value() == Collect(old(Value()), last) && out == old(out) && epochLast == last
      ensures forall sn :: sn in stash <==> sn in old(stash) && sn > last
      ensures forall sn :: sn in stash ==> stash[sn] == old(stash)[sn]
      ensures forall sn :: sn in table <==> sn in old(table) && sn > last
      ensures forall sn :: sn in table ==> table[sn] == old(table)[sn]
    {
      epochLast := last;
      stash := DropUpTo(stash, last);
      table := DropUpTo(table, last);
    }

    method DropUpTo<T>(m: map<int, T>, last: int) returns (r: map<int, T>)
      ensures r == map sn | sn in m && sn > last :: m[sn]
    {
      r := m;
      var keys := m.Keys;
      while keys != {}
        invariant keys <= m.Keys
        invariant r == map sn | sn in m && (sn > last || sn in keys) :: m[sn]
        decreases keys
      {
        var sn := Pick(keys);
        keys := keys - {sn};
        if sn <= last {
          r := r - {sn};
        }
      }
    }
  }

  lemma {:induction false} RegistersTable(d: Desk, out: Outbox, g: nat, sns: seq<int>)
    ensures var d' := RegisterAll(d, out, g, sns).0;
            && d'.epochLast == d.epochLast && d'.stash == d.stash
            && (forall sn :: sn in d'.table <==> sn in d.table || sn in sns)
            && (forall sn :: sn in d'.table ==> d'.table[sn] == if sn in sns then g else d.table[sn])
    decreases |sns|
  {
    if sns != [] {
      var one := Register(d, out, g, sns[0]);
      RegistersTable(one.0, one.1, g, sns[1..]);
      assert sns == [sns[0]] + sns[1..];
    }
  }

  /** The channels after what is stashed for `sns` has been passed on to `g`. */
  ghost predicate PassedOn(d: Desk, out: Outbox, out': Outbox, g: nat, sns: seq<int>) {
    && out'.stopped == out.stopped && (forall h :: h != g ==> out'.Line(h) == out.Line(h))
    && out'.Line(g) == out.Line(g) + if g in out.stopped then [] else d.StashedFor(sns)
  }

  lemma PassesOn(d: Desk, d1: Desk, out: Outbox, out': Outbox, g: nat, sns: seq<int>)
    requires sns != [] && d1.stash == d.stash
    requires PassedOn(d1, out.Serialize(g, d.Stashed(sns[0])), out', g, sns[1..])
    ensures PassedOn(d, out, out', g, sns)
  {
    SameStash(d, d1, sns[1..]);
    var out1 := out.Serialize(g, d.Stashed(sns[0]));
    assert forall h :: h != g ==> out1.Line(h) == out.Line(h);
    if g !in out.stopped {
      assert out1.Line(g) == out.Line(g) + d.Stashed(sns[0]);
      ConcatAssoc(out.Line(g), d.Stashed(sns[0]), d.StashedFor(sns[1..]));
    }
  }

  lemma {:induction false} RegistersOut(d: Desk, out: Outbox, g: nat, sns: seq<int>)
    ensures PassedOn(d, out, RegisterAll(d, out, g, sns).1, g, sns)
    decreases |sns|
  {
    if sns != [] {
      var one := Register(d, out, g, sns[0]);
      RegistersOut(one.0, one.1, g, sns[1..]);
      PassesOn(d, one.0, out, RegisterAll(d, out, g, sns).1, g, sns);
    }
  }

  lemma {:induction false} SameStash(d: Desk, e: Desk, sns: seq<int>)
    requires e.stash == d.stash
    ensures e.StashedFor(sns) == d.StashedFor(sns)
  {
    if sns != [] {
      SameStash(d, e, sns[1..]);
    }
  }

  lemma SerializeTwice(out: Outbox, g: nat, a: seq<Msg>, b: seq<Msg>)
    ensures out.Serialize(g, a).Serialize(g, b) == out.Serialize(g, a + b)
  {
    if b == [] {
      assert a + b == a;
    } else if a == [] {
      assert a + b == b;
    } else if g !in out.stopped {
      ConcatAssoc(out.Line(g), a, b);
      assert out.lines[g := out.Line(g) + a][g := out.Line(g) + (a + b)] == out.lines[g := out.Line(g) + (a + b)];
    }
  }
}
