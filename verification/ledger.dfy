/** Account balances. Partial logs of different leaders are applied in different orders by different peers; the
    balances do not depend on the order. */
module Ledger {
  import opened Collections

  datatype Request = Request(sender: string, receiver: string, amount: real, fee: real, contract: bool)

  type Balances = map<string, real>

  // ---------- Operations ----------

  class Ledger {
    const gasFee: real
    var balance: Balances

    constructor (gasFee: real, balance: Balances)
      ensures this.gasFee == gasFee && this.balance == balance
    {
      this.gasFee, this.balance := gasFee, balance;
    }

    /** Moves an amount; an account that is not known is passed over. */
    method Transfer(sender: string, receiver: string, amount: real)
      modifies this
      ensures balance.Keys == old(balance).Keys
      ensures forall a :: a in balance ==>
                balance[a] ==
                old(balance)[a] - (if a == sender then amount else 0.0) + if a == receiver then amount else 0.0
    {
      if sender in balance {
        balance := balance[sender := balance[sender] - amount];
      }
      if receiver in balance {
        balance := balance[receiver := balance[receiver] + amount];
      }
    }

    /** Applies the requests of a batch. */
    method CommitEntry(requests: seq<Request>)
      modifies this
      ensures balance == Applied(gasFee, old(balance), requests)
    {
      TotalNone(gasFee, balance);
      for i := 0 to |requests|
        invariant balance == Applied(gasFee, old(balance), requests[..i])
      {
        CommitOne(requests[i]);
        AppliedNext(gasFee, old(balance), requests, i, balance);
      }
      assert requests[..|requests|] == requests;
    }

    method CommitOne(r: Request)
      modifies this
      ensures balance.Keys == old(balance).Keys
      ensures forall a :: a in balance ==> balance[a] == old(balance)[a] + Net(gasFee, r, a)
    {
      if r.contract {
        if r.sender in balance {
          balance := balance[r.sender := balance[r.sender] - gasFee];
        }
      }
      Transfer(r.sender, r.receiver, r.amount + r.fee);
    }
  }

  // ---------- What requests do to an account ----------

  /** The change of a known account by one request. */
  function Net(gasFee: real, r: Request, a: string): real {
    (if a == r.receiver then r.amount + r.fee else 0.0)
    - (if a == r.sender then r.amount + r.fee + (if r.contract then gasFee else 0.0) else 0.0)
  }

  function Total(gasFee: real, requests: seq<Request>, a: string): real {
    if requests == [] then 0.0 else Net(gasFee, requests[0], a) + Total(gasFee, requests[1..], a)
  }

  function Applied(gasFee: real, b: Balances, requests: seq<Request>): Balances {
    map a | a in b :: b[a] + Total(gasFee, requests, a)
  }

  function AppliedAll(gasFee: real, b: Balances, batches: seq<seq<Request>>): Balances {
    if batches == [] then b else AppliedAll(gasFee, Applied(gasFee, b, batches[0]), batches[1..])
  }

  lemma TotalNone(gasFee: real, b: Balances)
    ensures Applied(gasFee, b, []) == b
  {
  }

  lemma {:induction false} TotalConcat(gasFee: real, s: seq<Request>, t: seq<Request>, a: string)
    ensures Total(gasFee, s + t, a) == Total(gasFee, s, a) + Total(gasFee, t, a)
  {
    if s == [] {
      assert s + t == t;
    } else {
      TotalConcat(gasFee, s[1..], t, a);
      assert (s + t)[1..] == s[1..] + t;
    }
  }

  lemma AppliedNext(gasFee: real, b: Balances, requests: seq<Request>, i: nat, now: Balances)
    requires i < |requests| && now.Keys == b.Keys
    requires forall a :: a in now ==> now[a] == Applied(gasFee, b, requests[..i])[a] + Net(gasFee, requests[i], a)
    ensures now == Applied(gasFee, b, requests[..i + 1])
  {
    forall a | a in now
      ensures now[a] == Applied(gasFee, b, requests[..i + 1])[a]
    {
      assert requests[..i + 1] == requests[..i] + [requests[i]];
      TotalConcat(gasFee, requests[..i], [requests[i]], a);
    }
  }

  // ---------- Order does not matter ----------

  /** Applying batches one by one is applying all their requests. */
  lemma {:induction false} AllIsFlat(gasFee: real, b: Balances, batches: seq<seq<Request>>)
    ensures AppliedAll(gasFee, b, batches) == Applied(gasFee, b, Flatten(batches))
  {
    if batches == [] {
      TotalNone(gasFee, b);
    } else {
      var c := Applied(gasFee, b, batches[0]);
      AllIsFlat(gasFee, c, batches[1..]);
      forall a | a in b
        ensures Applied(gasFee, c, Flatten(batches[1..]))[a] == Applied(gasFee, b, Flatten(batches))[a]
      {
        TotalConcat(gasFee, batches[0], Flatten(batches[1..]), a);
      }
    }
  }

  /** Moving a batch to the front does not change what an account gets. */
  lemma TotalMove(gasFee: real, batches: seq<seq<Request>>, k: nat, a: string)
    requires k < |batches|
    ensures Total(gasFee, Flatten(batches), a)
            == Total(gasFee, batches[k], a) + Total(gasFee, Flatten(batches[..k] + batches[k + 1..]), a)
  {
    FlatConcat(gasFee, batches[..k], batches[k..], a);
    FlatConcat(gasFee, batches[..k], batches[k + 1..], a);
    assert batches == batches[..k] + batches[k..];
    assert batches[k..][1..] == batches[k + 1..];
    TotalConcat(gasFee, batches[k], Flatten(batches[k + 1..]), a);
  }

  lemma {:induction false} FlatConcat(gasFee: real, s: seq<seq<Request>>, t: seq<seq<Request>>, a: string)
    ensures Total(gasFee, Flatten(s + t), a) == Total(gasFee, Flatten(s), a) + Total(gasFee, Flatten(t), a)
  {
    if s == [] {
      assert s + t == t;
    } else {
      FlatConcat(gasFee, s[1..], t, a);
      assert (s + t)[1..] == s[1..] + t;
      TotalConcat(gasFee, s[0], Flatten(s[1..] + t), a);
      TotalConcat(gasFee, s[0], Flatten(s[1..]), a);
    }
  }

  /** Where the first batch of one order is in the other. */
  lemma SameFirst<T>(xs: seq<T>, ys: seq<T>) returns (k: nat)
    requires multiset(xs) == multiset(ys) && xs != []
    ensures k < |ys| && ys[k] == xs[0] && multiset(ys[..k] + ys[k + 1..]) == multiset(xs[1..])
  {
    assert xs[0] in multiset(ys);
    k :| 0 <= k < |ys| && ys[k] == xs[0];
    WithoutOne(ys, k);
    WithoutFirst(xs);
  }

  lemma WithoutFirst<T>(s: seq<T>)
    requires s != []
    ensures multiset(s[1..]) == multiset(s) - multiset{s[0]}
  {
    assert s == [s[0]] + s[1..];
  }

  lemma WithoutOne<T>(s: seq<T>, k: nat)
    requires k < |s|
    ensures multiset(s[..k] + s[k + 1..]) == multiset(s) - multiset{s[k]}
  {
    assert s == s[..k] + ([s[k]] + s[k + 1..]);
    assert multiset(s) == multiset(s[..k]) + (multiset{s[k]} + multiset(s[k + 1..]));
  }

  lemma {:induction false} TotalPermuted(gasFee: real, xs: seq<seq<Request>>, ys: seq<seq<Request>>, a: string)
    requires multiset(xs) == multiset(ys)
    ensures Total(gasFee, Flatten(xs), a) == Total(gasFee, Flatten(ys), a)
  {
    if xs == [] {
      assert |multiset(ys)| == 0;
    } else {
      var k := SameFirst(xs, ys);
      var rest := ys[..k] + ys[k + 1..];
      TotalPermuted(gasFee, xs[1..], rest, a);
      TotalMove(gasFee, ys, k, a);
      TotalConcat(gasFee, xs[0], Flatten(xs[1..]), a);
    }
  }

  /** Whatever order the same batches are applied in, the balances are the same. */
  lemma Confluence(gasFee: real, b: Balances, xs: seq<seq<Request>>, ys: seq<seq<Request>>)
    requires multiset(xs) == multiset(ys)
    ensures AppliedAll(gasFee, b, xs) == AppliedAll(gasFee, b, ys)
  {
    AllIsFlat(gasFee, b, xs);
    AllIsFlat(gasFee, b, ys);
    forall a | a in b
      ensures Applied(gasFee, b, Flatten(xs))[a] == Applied(gasFee, b, Flatten(ys))[a]
    {
      TotalPermuted(gasFee, xs, ys, a);
    }
  }

  // ---------- What becomes of the money ----------

  /** The sum of the balances of the listed accounts. */
  function Sum(b: Balances, accounts: seq<string>): real
    requires forall i :: 0 <= i < |accounts| ==> accounts[i] in b
  {
    if accounts == [] then 0.0 else b[accounts[0]] + Sum(b, accounts[1..])
  }

  ghost predicate Lists(accounts: seq<string>, b: Balances) {
    && (forall i, j :: 0 <= i < j < |accounts| ==> accounts[i] != accounts[j])
    && (forall a :: a in b <==> a in accounts)
  }

  function SumNet(gasFee: real, r: Request, accounts: seq<string>): real {
    if accounts == [] then 0.0 else Net(gasFee, r, accounts[0]) + SumNet(gasFee, r, accounts[1..])
  }

  /** What one request takes out of the listed accounts: the gas fee of a known sender, and the amount if only the
      sender is known; the amount comes in if only the receiver is known. */
  function Loss(gasFee: real, r: Request, accounts: seq<string>): real {
    (if r.sender in accounts then r.amount + r.fee + (if r.contract then gasFee else 0.0) else 0.0)
    - (if r.receiver in accounts then r.amount + r.fee else 0.0)
  }

  function LossAll(gasFee: real, requests: seq<Request>, accounts: seq<string>): real {
    if requests == [] then 0.0 else Loss(gasFee, requests[0], accounts) + LossAll(gasFee, requests[1..], accounts)
  }

  lemma {:induction false} SumNetIs(gasFee: real, r: Request, accounts: seq<string>)
    requires forall i, j :: 0 <= i < j < |accounts| ==> accounts[i] != accounts[j]
    ensures SumNet(gasFee, r, accounts) == -Loss(gasFee, r, accounts)
  {
    if accounts != [] {
      var rest := accounts[1..];
      SumNetIs(gasFee, r, rest);
      assert accounts[0] !in rest;
      assert forall a :: a in accounts <==> a == accounts[0] || a in rest;
    }
  }

  lemma {:induction false} SumApplied(gasFee: real, b: Balances, requests: seq<Request>, accounts: seq<string>)
    requires forall i :: 0 <= i < |accounts| ==> accounts[i] in b
    requires forall i, j :: 0 <= i < j < |accounts| ==> accounts[i] != accounts[j]
    ensures forall i :: 0 <= i < |accounts| ==> accounts[i] in Applied(gasFee, b, requests)
    ensures Sum(Applied(gasFee, b, requests), accounts) == Sum(b, accounts) - LossAll(gasFee, requests, accounts)
    decreases |requests|
  {
    if requests == [] {
      TotalNone(gasFee, b);
    } else {
      var c := Applied(gasFee, b, requests[..1]);
      OneMore(gasFee, b, requests);
      SumApplied(gasFee, c, requests[1..], accounts);
      SumOne(gasFee, b, requests[0], accounts, c);
      SumNetIs(gasFee, requests[0], accounts);
    }
  }

  lemma OneMore(gasFee: real, b: Balances, requests: seq<Request>)
    requires requests != []
    ensures var c := Applied(gasFee, b, requests[..1]);
            && Applied(gasFee, b, requests) == Applied(gasFee, c, requests[1..])
            && forall a :: a in b ==> c[a] == b[a] + Net(gasFee, requests[0], a)
  {
    var one := requests[..1];
    assert one[1..] == [] && one[0] == requests[0];
    forall a
      ensures Total(gasFee, one, a) == Net(gasFee, requests[0], a)
    {
    }
    assert forall a :: Total(gasFee, requests, a) == Total(gasFee, one, a) + Total(gasFee, requests[1..], a);
  }

  lemma {:induction false} SumOne(gasFee: real, b: Balances, r: Request, accounts: seq<string>, c: Balances)
    requires forall i :: 0 <= i < |accounts| ==> accounts[i] in b && accounts[i] in c
    requires forall a :: a in b && a in c ==> c[a] == b[a] + Net(gasFee, r, a)
    ensures Sum(c, accounts) == Sum(b, accounts) + SumNet(gasFee, r, accounts)
  {
    if accounts != [] {
      SumOne(gasFee, b, r, accounts[1..], c);
    }
  }

  function Contracts(requests: seq<Request>): nat {
    if requests == [] then 0 else (if requests[0].contract then 1 else 0) + Contracts(requests[1..])
  }

  /** If all accounts are known, the sum of all balances falls by exactly one gas fee per contract request. */
  lemma OnlyGasIsLost(gasFee: real, b: Balances, requests: seq<Request>, accounts: seq<string>)
    requires Lists(accounts, b)
    requires forall i :: 0 <= i < |requests| ==> requests[i].sender in b && requests[i].receiver in b
    ensures forall i :: 0 <= i < |accounts| ==> accounts[i] in b && accounts[i] in Applied(gasFee, b, requests)
    ensures Sum(Applied(gasFee, b, requests), accounts) == Sum(b, accounts) - gasFee * Contracts(requests) as real
  {
    assert forall i :: 0 <= i < |accounts| ==> accounts[i] in accounts;
    SumApplied(gasFee, b, requests, accounts);
    GasOnly(gasFee, requests, accounts);
  }

  lemma {:induction false} GasOnly(gasFee: real, requests: seq<Request>, accounts: seq<string>)
    requires forall i :: 0 <= i < |requests| ==> requests[i].sender in accounts && requests[i].receiver in accounts
    ensures LossAll(gasFee, requests, accounts) == gasFee * Contracts(requests) as real
  {
    if requests != [] {
      GasOnly(gasFee, requests[1..], accounts);
      GasStep(gasFee, Contracts(requests[1..]));
    }
  }

  lemma GasStep(gasFee: real, n: nat)
    ensures gasFee * (n + 1) as real == gasFee * n as real + gasFee
  {
  }
}
