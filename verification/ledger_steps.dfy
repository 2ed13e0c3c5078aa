/** Several instances applying batches at the same time. The source reads and writes each balance in two steps without
    a lock. Updates are lost exactly when a balance is overwritten that has changed since it was read. */
module LedgerSteps {
  import opened Collections
  import opened Ledger

  datatype Update = Update(account: string, delta: real)

  /** An instance: the updates still to be made and the balance read for the first of them. */
  datatype Thread = Thread(todo: seq<Update>, read: Option<real>)

  datatype State = State(balance: Balances, threads: seq<Thread>)

  /** The updates of one request, in the order in which they are made. */
  function Updates(gasFee: real, r: Request): seq<Update> {
    (if r.contract then [Update(r.sender, -gasFee)] else [])
    + [Update(r.sender, -(r.amount + r.fee)), Update(r.receiver, r.amount + r.fee)]
  }

  function AllUpdates(gasFee: real, requests: seq<Request>): seq<Update> {
    if requests == [] then [] else Updates(gasFee, requests[0]) + AllUpdates(gasFee, requests[1..])
  }

  // ---------- Steps ----------

  predicate CanStep(s: State, k: nat) {
    k < |s.threads| && s.threads[k].todo != []
  }

  /** Thread `k` passes over an unknown account, reads a balance, or writes it. */
  function Effect(s: State, k: nat): State
    requires CanStep(s, k)
  {
    var t := s.threads[k];
    var u := t.todo[0];
    match t.read
    case None =>
      if u.account in s.balance then s.(threads := s.threads[k := t.(read := Some(s.balance[u.account]))])
      else s.(threads := s.threads[k := Thread(t.todo[1..], None)])
    case Some(v) =>
      State(s.balance[u.account := v + u.delta], s.threads[k := Thread(t.todo[1..], None)])
  }

  /** Thread `j` has read the balance of `a` and not yet written it. */
  predicate Holds(s: State, j: nat, a: string) {
    j < |s.threads| && s.threads[j].todo != [] && s.threads[j].read.Some? && s.threads[j].todo[0].account == a
  }

  /** Thread `k` does not read a balance that another thread is about to write. */
  ghost predicate Exclusive(s: State, k: nat)
    requires CanStep(s, k)
  {
    s.threads[k].read.None? ==> forall j: nat :: j != k ==> !Holds(s, j, s.threads[k].todo[0].account)
  }

  /** Every instance is about to apply its batch. */
  function Init(gasFee: real, b: Balances, batches: seq<seq<Request>>): State {
    State(b, seq(|batches|, k requires 0 <= k < |batches| => Thread(AllUpdates(gasFee, batches[k]), None)))
  }

  /** The threads can make steps in the order `ks`. */
  predicate Possible(s: State, ks: seq<nat>)
    decreases |ks|
  {
    ks == [] || (CanStep(s, ks[0]) && Possible(Effect(s, ks[0]), ks[1..]))
  }

  function Final(s: State, ks: seq<nat>): State
    requires Possible(s, ks)
    decreases |ks|
  {
    if ks == [] then s else Final(Effect(s, ks[0]), ks[1..])
  }

  ghost predicate Done(s: State) {
    forall k :: 0 <= k < |s.threads| ==> s.threads[k].todo == []
  }

  /** All steps in the order `ks` are exclusive. */
  ghost predicate AllExclusive(s: State, ks: seq<nat>)
    requires Possible(s, ks)
    decreases |ks|
  {
    ks == [] || (Exclusive(s, ks[0]) && AllExclusive(Effect(s, ks[0]), ks[1..]))
  }

  // ---------- What an account ends up with ----------

  function Sum(us: seq<Update>, a: string): real {
    if us == [] then 0.0 else (if us[0].account == a then us[0].delta else 0.0) + Sum(us[1..], a)
  }

  function Pending(ts: seq<Thread>, a: string): real {
    if ts == [] then 0.0 else Sum(ts[0].todo, a) + Pending(ts[1..], a)
  }

  /** The balance of `a` once all updates still to be made have been added. */
  function Outcome(s: State, a: string): real
    requires a in s.balance
  {
    s.balance[a] + Pending(s.threads, a)
  }

  lemma {:induction false} PendingUpdate(ts: seq<Thread>, k: nat, t: Thread, a: string)
    requires k < |ts|
    ensures Pending(ts[k := t], a) == Pending(ts, a) - Sum(ts[k].todo, a) + Sum(t.todo, a)
  {
    if k > 0 {
      PendingUpdate(ts[1..], k - 1, t, a);
      assert ts[k := t][1..] == ts[1..][k - 1 := t] && ts[k := t][0] == ts[0];
    } else {
      assert ts[0 := t][1..] == ts[1..];
    }
  }

  /** A step leaves the outcome of an account as it is if and only if it does not overwrite a balance of this account
      that has changed since it was read. */
  lemma StepExact(s: State, k: nat, a: string)
    requires CanStep(s, k) && a in s.balance
    ensures a in Effect(s, k).balance
    ensures Outcome(Effect(s, k), a) == Outcome(s, a) <==>
            (Holds(s, k, a) ==> s.threads[k].read.value == s.balance[a])
  {
    var t := s.threads[k];
    PendingUpdate(s.threads, k, Effect(s, k).threads[k], a);
    assert Sum(t.todo, a) == (if t.todo[0].account == a then t.todo[0].delta else 0.0) + Sum(t.todo[1..], a);
  }

  // ---------- Exclusive access to accounts is enough ----------

  /** What has been read is current, and no two threads hold one account. */
  ghost predicate Current(s: State) {
    && (forall j: nat, a :: Holds(s, j, a) ==> a in s.balance && s.threads[j].read.value == s.balance[a])
    && (forall i: nat, j: nat, a :: Holds(s, i, a) && Holds(s, j, a) ==> i == j)
    && (forall j :: 0 <= j < |s.threads| && s.threads[j].todo == [] ==> s.threads[j].read.None?)
  }

  lemma StepCurrent(s: State, k: nat)
    requires Current(s) && CanStep(s, k) && Exclusive(s, k)
    ensures Current(Effect(s, k)) && Effect(s, k).balance.Keys == s.balance.Keys
  {
    var s', u := Effect(s, k), s.threads[k].todo[0];
    forall j: nat, a | Holds(s', j, a)
      ensures a in s'.balance && s'.threads[j].read.value == s'.balance[a]
      ensures j != k ==> Holds(s, j, a)
    {
      if j != k {
        assert s'.threads[j] == s.threads[j] && Holds(s, j, a);
        if s.threads[k].read.Some? {
          assert Holds(s, k, u.account);
        }
      }
    }
    assert s.threads[k].read.Some? ==> Holds(s, k, u.account);
    forall i: nat, j: nat, a | Holds(s', i, a) && Holds(s', j, a)
      ensures i == j
    {
      assert i != k && j != k ==> Holds(s, i, a) && Holds(s, j, a);
    }
  }

  lemma ExclusiveStep(s: State, k: nat)
    requires Current(s) && CanStep(s, k) && Exclusive(s, k)
    ensures Current(Effect(s, k)) && SameOutcome(s, Effect(s, k))
  {
    StepCurrent(s, k);
    forall a | a in s.balance
      ensures Outcome(Effect(s, k), a) == Outcome(s, a)
    {
      StepExact(s, k, a);
    }
  }

  /** The same accounts are known, and all of them end up with the same. */
  ghost predicate SameOutcome(s: State, s': State) {
    s'.balance.Keys == s.balance.Keys && forall a :: a in s.balance ==> Outcome(s', a) == Outcome(s, a)
  }

  /** With exclusive access, every order of steps keeps what every account ends up with. */
  lemma {:induction false} OutcomeKept(s: State, ks: seq<nat>)
    requires Current(s) && Possible(s, ks) && AllExclusive(s, ks)
    ensures Current(Final(s, ks)) && SameOutcome(s, Final(s, ks))
    decreases |ks|
  {
    if ks != [] {
      ExclusiveStep(s, ks[0]);
      OutcomeKept(Effect(s, ks[0]), ks[1..]);
    }
  }

  lemma InitOutcome(gasFee: real, b: Balances, batches: seq<seq<Request>>)
    ensures var s := Init(gasFee, b, batches);
            Current(s) && forall a :: a in b ==> Outcome(s, a) == Applied(gasFee, b, Flatten(batches))[a]
  {
    var s := Init(gasFee, b, batches);
    forall a | a in b
      ensures Outcome(s, a) == Applied(gasFee, b, Flatten(batches))[a]
    {
      StartPending(gasFee, batches, s.threads, a);
    }
  }

  lemma {:induction false} StartPending(gasFee: real, batches: seq<seq<Request>>, ts: seq<Thread>, a: string)
    requires |ts| == |batches| && forall k :: 0 <= k < |ts| ==> ts[k].todo == AllUpdates(gasFee, batches[k])
    ensures Pending(ts, a) == Total(gasFee, Flatten(batches), a)
  {
    if ts != [] {
      StartPending(gasFee, batches[1..], ts[1..], a);
      UpdatesTotal(gasFee, batches[0], a);
      TotalConcat(gasFee, batches[0], Flatten(batches[1..]), a);
    }
  }

  lemma {:induction false} SumConcat(us: seq<Update>, vs: seq<Update>, a: string)
    ensures Sum(us + vs, a) == Sum(us, a) + Sum(vs, a)
  {
    if us == [] {
      assert us + vs == vs;
    } else {
      SumConcat(us[1..], vs, a);
      assert (us + vs)[1..] == us[1..] + vs;
    }
  }

  lemma {:induction false} UpdatesTotal(gasFee: real, requests: seq<Request>, a: string)
    ensures Sum(AllUpdates(gasFee, requests), a) == Total(gasFee, requests, a)
  {
    if requests != [] {
      UpdatesTotal(gasFee, requests[1..], a);
      SumConcat(Updates(gasFee, requests[0]), AllUpdates(gasFee, requests[1..]), a);
      UpdatesNet(gasFee, requests[0], a);
    }
  }

  lemma UpdatesNet(gasFee: real, r: Request, a: string)
    ensures Sum(Updates(gasFee, r), a) == Net(gasFee, r, a)
  {
    var gas := if r.contract then [Update(r.sender, -gasFee)] else [];
    var x, y := Update(r.sender, -(r.amount + r.fee)), Update(r.receiver, r.amount + r.fee);
    SumConcat(gas, [x, y], a);
    assert [x, y][1..] == [y] && [y][1..] == [];
    assert r.contract ==> gas[1..] == [];
  }

  /** When all threads are done, the balances are what the outcomes were. */
  lemma DoneIs(gasFee: real, b: Balances, batches: seq<seq<Request>>, s: State)
    requires Done(s) && SameOutcome(Init(gasFee, b, batches), s)
    ensures s.balance == AppliedAll(gasFee, b, batches)
  {
    InitOutcome(gasFee, b, batches);
    AllIsFlat(gasFee, b, batches);
    forall a | a in b
      ensures s.balance[a] == Applied(gasFee, b, Flatten(batches))[a]
    {
      NothingPending(s.threads, a);
    }
  }

  /** With exclusive access, the balances in the end are those of applying the batches one after the other, in any
      order. */
  lemma ConcurrentConfluence(gasFee: real, b: Balances, batches: seq<seq<Request>>, order: seq<seq<Request>>,
                             ks: seq<nat>)
    requires multiset(order) == multiset(batches)
    requires var s := Init(gasFee, b, batches); Possible(s, ks) && AllExclusive(s, ks) && Done(Final(s, ks))
    ensures Final(Init(gasFee, b, batches), ks).balance == AppliedAll(gasFee, b, order)
  {
    InitOutcome(gasFee, b, batches);
    OutcomeKept(Init(gasFee, b, batches), ks);
    DoneIs(gasFee, b, batches, Final(Init(gasFee, b, batches), ks));
    Confluence(gasFee, b, batches, order);
  }

  lemma {:induction false} NothingPending(ts: seq<Thread>, a: string)
    requires forall k :: 0 <= k < |ts| ==> ts[k].todo == []
    ensures Pending(ts, a) == 0.0
  {
    if ts != [] {
      NothingPending(ts[1..], a);
    }
  }

  // ---------- Which batches may be applied at the same time ----------

  predicate Touches(us: seq<Update>, a: string) {
    exists p :: 0 <= p < |us| && us[p].account == a
  }

  predicate Changes(us: seq<Update>, a: string) {
    exists p :: 0 <= p < |us| && us[p].account == a && us[p].delta != 0.0
  }

  /** Thread `i` updates `a` and thread `j` changes it. */
  predicate Clash(ts: seq<Thread>, i: nat, j: nat, a: string) {
    i != j && i < |ts| && j < |ts| && Touches(ts[i].todo, a) && Changes(ts[j].todo, a)
  }

  /** Two batches meet in a known account: one updates it, the other changes it. */
  ghost predicate Conflict(gasFee: real, b: Balances, batches: seq<seq<Request>>) {
    exists i: nat, j: nat, a ::
      && i != j && i < |batches| && j < |batches| && a in b
      && Touches(AllUpdates(gasFee, batches[i]), a) && Changes(AllUpdates(gasFee, batches[j]), a)
  }

  /** Whatever the order of the steps, the balances in the end are those of applying the batches one by one. */
  ghost predicate AlwaysConfluent(gasFee: real, b: Balances, batches: seq<seq<Request>>) {
    var s := Init(gasFee, b, batches);
    forall ks :: Possible(s, ks) && Done(Final(s, ks)) ==> Final(s, ks).balance == AppliedAll(gasFee, b, batches)
  }

  /** Instances may apply their batches at the same time, in every order of steps and without a lock, if and only if no
      known account is updated by one batch and changed by another. */
  lemma ConfluentIff(gasFee: real, b: Balances, batches: seq<seq<Request>>)
    ensures AlwaysConfluent(gasFee, b, batches) <==> !Conflict(gasFee, b, batches)
  {
    var s := Init(gasFee, b, batches);
    if Conflict(gasFee, b, batches) {
      var i: nat, j: nat, a :|
        && i != j && i < |batches| && j < |batches| && a in b
        && Touches(AllUpdates(gasFee, batches[i]), a) && Changes(AllUpdates(gasFee, batches[j]), a);
      var ks := LostUpdate(gasFee, b, batches, i, j, a);
    } else {
      forall ks | Possible(s, ks) && Done(Final(s, ks))
        ensures Final(s, ks).balance == AppliedAll(gasFee, b, batches)
      {
        NoClashKept(s, ks);
        DoneIs(gasFee, b, batches, Final(s, ks));
      }
    }
  }

  // ---------- Without a clash nothing is lost ----------

  /** What has been read is current, and no two threads clash in a known account. */
  ghost predicate Apart(s: State) {
    && (forall j: nat, a :: Holds(s, j, a) ==> a in s.balance && s.threads[j].read.value == s.balance[a])
    && (forall j :: 0 <= j < |s.threads| && s.threads[j].todo == [] ==> s.threads[j].read.None?)
    && (forall i: nat, j: nat, a :: a in s.balance ==> !Clash(s.threads, i, j, a))
  }

  lemma {:induction false} NoClashKept(s: State, ks: seq<nat>)
    requires Apart(s) && Possible(s, ks)
    ensures SameOutcome(s, Final(s, ks))
    decreases |ks|
  {
    if ks != [] {
      NoClashStep(s, ks[0]);
      NoClashKept(Effect(s, ks[0]), ks[1..]);
    }
  }

  lemma NoClashStep(s: State, k: nat)
    requires Apart(s) && CanStep(s, k)
    ensures Apart(Effect(s, k)) && SameOutcome(s, Effect(s, k))
  {
    var s', u := Effect(s, k), s.threads[k].todo[0];
    forall i: nat, j: nat, a | a in s.balance
      ensures !Clash(s'.threads, i, j, a)
    {
      ShorterClash(s.threads, k, s'.threads[k], i, j, a);
    }
    if s.threads[k].read.Some? {
      assert Holds(s, k, u.account);
      OthersUnaffected(s, k);
    }
    forall a | a in s.balance
      ensures Outcome(s', a) == Outcome(s, a)
    {
      StepExact(s, k, a);
    }
  }

  /** A thread that has less to do clashes with no more. */
  lemma ShorterClash(ts: seq<Thread>, k: nat, t: Thread, i: nat, j: nat, a: string)
    requires k < |ts| && ts[k].todo != [] && (t.todo == ts[k].todo || t.todo == ts[k].todo[1..])
    ensures Clash(ts[k := t], i, j, a) ==> Clash(ts, i, j, a)
  {
    if Clash(ts[k := t], i, j, a) {
      assert forall p :: 0 <= p < |ts[k].todo[1..]| ==> ts[k].todo[1..][p] == ts[k].todo[p + 1];
      TodoShrinks(ts[i], ts[k := t][i], a);
      TodoShrinks(ts[j], ts[k := t][j], a);
    }
  }

  lemma TodoShrinks(before: Thread, after: Thread, a: string)
    requires after.todo == before.todo || (before.todo != [] && after.todo == before.todo[1..])
    ensures Touches(after.todo, a) ==> Touches(before.todo, a)
    ensures Changes(after.todo, a) ==> Changes(before.todo, a)
  {
    if before.todo != [] && after.todo == before.todo[1..] {
      assert forall p :: 0 <= p < |after.todo| ==> after.todo[p] == before.todo[p + 1];
    }
  }

  /** A write leaves current what other threads have read: they hold other accounts, or it does not change anything. */
  lemma OthersUnaffected(s: State, k: nat)
    requires Apart(s) && CanStep(s, k) && s.threads[k].read.Some?
    ensures forall j: nat, a :: j != k && Holds(s, j, a) ==> Effect(s, k).balance[a] == s.balance[a]
  {
    var u := s.threads[k].todo[0];
    assert Holds(s, k, u.account);
    forall j: nat, a | j != k && Holds(s, j, a)
      ensures Effect(s, k).balance[a] == s.balance[a]
    {
      if a == u.account {
        assert Touches(s.threads[j].todo, a);
        assert !Clash(s.threads, j, k, a);
        assert u.delta == 0.0;
      }
    }
  }

  // ---------- With a clash an update can be lost ----------

  lemma {:induction false} Append(s: State, ks: seq<nat>, ls: seq<nat>)
    requires Possible(s, ks) && Possible(Final(s, ks), ls)
    ensures Possible(s, ks + ls) && Final(s, ks + ls) == Final(Final(s, ks), ls)
    decreases |ks|
  {
    if ks == [] {
      assert ks + ls == ls;
    } else {
      Append(Effect(s, ks[0]), ks[1..], ls);
      assert (ks + ls)[1..] == ks[1..] + ls;
    }
  }

  /** One more step. */
  lemma Extend(s: State, ks: seq<nat>, k: nat)
    requires Possible(s, ks) && CanStep(Final(s, ks), k)
    ensures Possible(s, ks + [k]) && Final(s, ks + [k]) == Effect(Final(s, ks), k)
  {
    assert [k][1..] == [];
    Append(s, ks, [k]);
  }

  /** No thread is between reading and writing. */
  ghost predicate Idle(s: State) {
    forall k :: 0 <= k < |s.threads| ==> s.threads[k].read.None?
  }

  /** One thread makes its first `n` updates while the others rest. Nothing is lost. */
  lemma {:induction false} RunAlone(s: State, k: nat, n: nat) returns (ks: seq<nat>)
    requires Idle(s) && k < |s.threads| && n <= |s.threads[k].todo|
    ensures Possible(s, ks) && Idle(Final(s, ks)) && SameOutcome(s, Final(s, ks))
    ensures Final(s, ks).threads == s.threads[k := Thread(s.threads[k].todo[n..], None)]
    decreases n
  {
    if n == 0 {
      ks := [];
    } else {
      var ls := UpdateAlone(s, k);
      var s' := Final(s, ls);
      var ms := RunAlone(s', k, n - 1);
      Append(s, ls, ms);
      ks := ls + ms;
      assert s.threads[k].todo[1..][n - 1..] == s.threads[k].todo[n..];
    }
  }

  lemma UpdateAlone(s: State, k: nat) returns (ks: seq<nat>)
    requires Idle(s) && CanStep(s, k)
    ensures Possible(s, ks) && Idle(Final(s, ks)) && SameOutcome(s, Final(s, ks))
    ensures Final(s, ks).threads == s.threads[k := Thread(s.threads[k].todo[1..], None)]
  {
    var s1 := Effect(s, k);
    if s.threads[k].todo[0].account in s.balance {
      ks := [] + [k] + [k];
      Extend(s, [], k);
      Extend(s, [] + [k], k);
      forall a | a in s.balance
        ensures Outcome(Effect(s1, k), a) == Outcome(s, a)
      {
        StepExact(s, k, a);
        StepExact(s1, k, a);
      }
    } else {
      ks := [] + [k];
      Extend(s, [], k);
      forall a | a in s.balance
        ensures Outcome(s1, a) == Outcome(s, a)
      {
        StepExact(s, k, a);
      }
    }
  }

  /** The threads from `k` on finish one after the other. */
  lemma {:induction false} RunRest(s: State, k: nat) returns (ks: seq<nat>)
    requires Idle(s) && k <= |s.threads| && forall j :: 0 <= j < k ==> s.threads[j].todo == []
    ensures Possible(s, ks) && Done(Final(s, ks)) && SameOutcome(s, Final(s, ks))
    decreases |s.threads| - k
  {
    if k == |s.threads| {
      ks := [];
    } else {
      var ls := RunAlone(s, k, |s.threads[k].todo|);
      var ms := RunRest(Final(s, ls), k + 1);
      Append(s, ls, ms);
      ks := ls + ms;
    }
  }

  /** Thread `i` reads, thread `j` reads and writes, and thread `i` writes: what `j` wrote is lost. */
  lemma Overwrite(s: State, i: nat, j: nat, a: string) returns (ks: seq<nat>)
    requires Idle(s) && a in s.balance && i != j && CanStep(s, i) && CanStep(s, j)
    requires s.threads[i].todo[0].account == a && s.threads[j].todo[0].account == a
    ensures Possible(s, ks) && Idle(Final(s, ks)) && a in Final(s, ks).balance
    ensures Outcome(Final(s, ks), a) == Outcome(s, a) - s.threads[j].todo[0].delta
  {
    var s1 := Effect(s, i);
    var s2 := Effect(s1, j);
    var s3 := Effect(s2, j);
    Extend(s, [], i);
    Extend(s, [] + [i], j);
    Extend(s, [] + [i] + [j], j);
    Extend(s, [] + [i] + [j] + [j], i);
    ks := [] + [i] + [j] + [j] + [i];
    StepExact(s, i, a);
    StepExact(s1, j, a);
    StepExact(s2, j, a);
    StaleWrite(s3, i);
  }

  /** A write loses what has happened to the balance since it was read. */
  lemma StaleWrite(s: State, k: nat)
    requires CanStep(s, k) && s.threads[k].read.Some? && s.threads[k].todo[0].account in s.balance
    ensures var a := s.threads[k].todo[0].account;
            Outcome(Effect(s, k), a) == Outcome(s, a) - (s.balance[a] - s.threads[k].read.value)
  {
    var t := s.threads[k];
    var a := t.todo[0].account;
    PendingUpdate(s.threads, k, Effect(s, k).threads[k], a);
    assert Sum(t.todo, a) == t.todo[0].delta + Sum(t.todo[1..], a);
  }

  /** A run from the start to the end, on any batches that conflict, after which the account does not hold what applying
      the batches one by one gives. */
  lemma LostUpdate(gasFee: real, b: Balances, batches: seq<seq<Request>>, i: nat, j: nat, a: string)
    returns (ks: seq<nat>)
    requires i != j && i < |batches| && j < |batches| && a in b
    requires Touches(AllUpdates(gasFee, batches[i]), a) && Changes(AllUpdates(gasFee, batches[j]), a)
    ensures var s := Init(gasFee, b, batches);
            Possible(s, ks) && Done(Final(s, ks)) && Final(s, ks).balance != AppliedAll(gasFee, b, batches)
  {
    var s := Init(gasFee, b, batches);
    InitOutcome(gasFee, b, batches);
    AllIsFlat(gasFee, b, batches);
    var us, vs := AllUpdates(gasFee, batches[i]), AllUpdates(gasFee, batches[j]);
    var p :| 0 <= p < |us| && us[p].account == a;
    var q :| 0 <= q < |vs| && vs[q].account == a && vs[q].delta != 0.0;
    assert s.threads[i].todo == us && s.threads[j].todo == vs;
    ks := ClashRun(s, i, p, j, q, a);
  }

  /** Threads `i` and `j` run to their updates `p` and `q` of one account, of which the latter is then lost. */
  lemma ClashRun(s: State, i: nat, p: nat, j: nat, q: nat, a: string) returns (ks: seq<nat>)
    requires Idle(s) && a in s.balance && i != j && i < |s.threads| && j < |s.threads|
    requires p < |s.threads[i].todo| && s.threads[i].todo[p].account == a
    requires q < |s.threads[j].todo| && s.threads[j].todo[q].account == a
    ensures Possible(s, ks) && Done(Final(s, ks)) && a in Final(s, ks).balance
    ensures Final(s, ks).balance[a] == Outcome(s, a) - s.threads[j].todo[q].delta
  {
    var k1 := RunAlone(s, i, p);
    var s1 := Final(s, k1);
    var k2 := RunAlone(s1, j, q);
    var k3 := OverwriteAndFinish(Final(s1, k2), i, j, a);
    Append(s1, k2, k3);
    Append(s, k1, k2 + k3);
    ks := k1 + (k2 + k3);
  }

  lemma OverwriteAndFinish(s: State, i: nat, j: nat, a: string) returns (ks: seq<nat>)
    requires Idle(s) && a in s.balance && i != j && CanStep(s, i) && CanStep(s, j)
    requires s.threads[i].todo[0].account == a && s.threads[j].todo[0].account == a
    ensures Possible(s, ks) && Done(Final(s, ks)) && a in Final(s, ks).balance
    ensures Final(s, ks).balance[a] == Outcome(s, a) - s.threads[j].todo[0].delta
  {
    var ls := Overwrite(s, i, j, a);
    var ms := RunRest(Final(s, ls), 0);
    Append(s, ls, ms);
    ks := ls + ms;
    NothingPending(Final(s, ks).threads, a);
  }
}
