/** The RPC pool: failover over a list of addresses that shrinks by swapping the
    dropped address with the last one. */
module Pools {
  import opened Strings

  /** How one call to a client ends. */
  datatype Reply = Success | Failure(text: string)

  /** IndexPanic: the first element of an empty list was read. NilClient: the
      active address has no client. */
  datatype Outcome = Ok | Err(text: string) | IndexPanic | NilClient

  const RETRYABLE := ["connection refused", "context deadline exceeded", "Method not found",
                      "tokenSource failed to acquire token"]

  predicate Retryable(r: Reply) {
    r.Failure? && AnyOfSubstr(r.text, RETRYABLE)
  }

  ghost predicate Occurs(s: string, sub: string) { exists i: nat :: OccursAt(s, sub, i) }

  /** A failure is retried exactly if one of four texts occurs in it. */
  lemma RetryableMeans(r: Reply)
    ensures Retryable(r) ==
            (r.Failure?
             && (Occurs(r.text, "connection refused") || Occurs(r.text, "context deadline exceeded")
                 || Occurs(r.text, "Method not found") || Occurs(r.text, "tokenSource failed to acquire token")))
  {
    if r.Failure? {
      ContainsMeans(r.text, RETRYABLE[0]);
      ContainsMeans(r.text, RETRYABLE[1]);
      ContainsMeans(r.text, RETRYABLE[2]);
      ContainsMeans(r.text, RETRYABLE[3]);
      AnyMeans(r.text, RETRYABLE);
    }
  }

  /** What a client for an address answers to the n-th call. */
  type Answers = (string, nat) -> Reply

  /** active is "" when no address is in use; clients maps an address to the one
      that its client was built for; called lists the addresses called so far. */
  datatype State = State(ips: seq<string>, active: string, clients: map<string, string>,
                         called: seq<string>)

  function IndexOf(ips: seq<string>, ip: string): (i: nat)
    ensures i <= |ips| && (i < |ips| ==> ips[i] == ip)
    ensures forall j :: 0 <= j < i ==> ips[j] != ip
  {
    if ips == [] || ips[0] == ip then 0 else 1 + IndexOf(ips[1..], ip)
  }

  /** The list with its i-th element overwritten by the last, and cut by one. */
  function SwapRemoved(ips: seq<string>, i: nat): (rest: seq<string>)
    requires i < |ips|
    ensures |rest| == |ips| - 1
  {
    ips[i := ips[|ips| - 1]][..|ips| - 1]
  }

  function Without(ips: seq<string>, ip: string): seq<string> {
    var i := IndexOf(ips, ip);
    if i < |ips| then SwapRemoved(ips, i) else ips
  }

  lemma SwapRemovedKeeps(ips: seq<string>, i: nat)
    requires i < |ips|
    ensures multiset(SwapRemoved(ips, i)) == multiset(ips) - multiset{ips[i]}
  {
    var n := |ips| - 1;
    assert ips == ips[..n] + [ips[n]];
    if i < n {
      assert ips[..n] == ips[..i] + [ips[i]] + ips[i + 1..n];
      assert SwapRemoved(ips, i) == ips[..i] + [ips[n]] + ips[i + 1..n];
    } else {
      assert SwapRemoved(ips, i) == ips[..n];
    }
  }

  /** Dropping removes one occurrence if there is one, and keeps the rest. */
  lemma DropKeepsTheRest(ips: seq<string>, ip: string)
    ensures multiset(Without(ips, ip)) == multiset(ips) - multiset{ip}
    ensures |Without(ips, ip)| == |ips| - (if ip in ips then 1 else 0)
  {
    var i := IndexOf(ips, ip);
    if i < |ips| {
      SwapRemovedKeeps(ips, i);
    }
  }

  function Dropped(s: State, ip: string): State {
    s.(active := if s.active == ip then "" else s.active, ips := Without(s.ips, ip))
  }

  /** Dropping an address that is not active leaves the active one, with its client. */
  lemma DropKeepsTheActive(s: State, ip: string)
    requires ip != s.active
    ensures Dropped(s, ip) == s.(ips := Without(s.ips, ip))
    ensures s.active in s.ips ==> s.active in Dropped(s, ip).ips
  {
    DropKeepsTheRest(s.ips, ip);
    if s.active in s.ips {
      assert s.active in multiset(s.ips) - multiset{ip};
      assert s.active in multiset(Without(s.ips, ip));
    }
  }

  /** What each retry makes smaller. */
  function Measure(s: State): nat {
    |s.ips| + (if s.active != "" && s.active !in s.ips then 1 else 0)
  }

  function Activated(s: State): State
    requires s.ips != []
  {
    s.(active := s.ips[0], clients := s.clients[s.ips[0] := s.ips[0]])
  }

  lemma RetryIsSmaller(s: State)
    requires s.active == "" ==> s.ips != []
    ensures var s1 := if s.active == "" then Activated(s) else s;
            Measure(Dropped(s1, s1.active)) < Measure(s)
  {
    var s1 := if s.active == "" then Activated(s) else s;
    DropKeepsTheRest(s1.ips, s1.active);
  }

  function Failover(answers: Answers, s: State): (State, Outcome)
    decreases Measure(s)
  {
    if s.active == "" && s.ips == [] then (s, IndexPanic)
    else
      var s1 := if s.active == "" then Activated(s) else s;
      if s1.active !in s1.clients then (s1, NilClient)
      else
        var address := s1.clients[s1.active];
        var r := answers(address, |s1.called|);
        var s2 := s1.(called := s1.called + [address]);
        RetryIsSmaller(s);
        match r
        case Success => (s2, Ok)
        case Failure(text) => if Retryable(r) then Failover(answers, Dropped(s2, s2.active)) else (s2, Err(text))
  }

  // ---------- the pool object ----------

  class Pool {
    var ips: seq<string>
    var active: string
    var clients: map<string, string>
    const answers: Answers
    var called: seq<string>

    constructor (ips: seq<string>, answers: Answers)
      ensures this.answers == answers && Contents() == State(ips, "", map[], [])
    {
      this.ips, this.answers, active, clients, called := ips, answers, "", map[], [];
    }

    ghost function Contents(): State
      reads this
    {
      State(ips, active, clients, called)
    }

    method Drop(toDrop: string)
      modifies this
      ensures Contents() == Dropped(old(Contents()), toDrop)
    {
      if active == toDrop {
        active := "";
      }
      var i := 0;
      while i < |ips|
        invariant ips == old(ips) && called == old(called) && clients == old(clients)
        invariant i <= |ips| && forall j :: 0 <= j < i ==> ips[j] != toDrop
        invariant active == old(if active == toDrop then "" else active)
      {
        if ips[i] == toDrop {
          ips := ips[i := ips[|ips| - 1]];
          ips := ips[..|ips| - 1];
          break;
        }
        i := i + 1;
      }
    }

    method Call() returns (outcome: Outcome)
      modifies this
      ensures (Contents(), outcome) == Failover(answers, old(Contents()))
      decreases Measure(Contents())
    {
      RetryIsSmallerUnlessStuck(Contents());
      if active == "" {
        if ips == [] {
          return IndexPanic;
        }
        active := ips[0];
        clients := clients[active := active];
      }
      if active !in clients {
        return NilClient;
      }
      var r := answers(clients[active], |called|);
      called := called + [clients[active]];
      if r.Failure? {
        if Retryable(r) {
          Drop(active);
          outcome := Call();
          return;
        }
        return Err(r.text);
      }
      return Ok;
    }
  }

  lemma RetryIsSmallerUnlessStuck(s: State)
    ensures s.active != "" ==> Measure(Dropped(s, s.active)) < Measure(s)
    ensures s.active == "" && s.ips != [] ==> Measure(Dropped(Activated(s), s.ips[0])) < Measure(s)
  {
    if s.active != "" || s.ips != [] {
      RetryIsSmaller(s);
    }
  }

  // ---------- in which order the addresses are tried ----------

  /** The order that repeated dropping of the first address leads to. */
  function Order(ips: seq<string>): (order: seq<string>)
    ensures |order| == |ips|
    decreases |ips|
  {
    if ips == [] then [] else [ips[0]] + Order(SwapRemoved(ips, 0))
  }

  /** The first address, and then the others from the last to the second. */
  lemma {:induction false} OrderIsBackwards(ips: seq<string>, j: nat)
    requires j < |ips|
    ensures Order(ips)[j] == if j == 0 then ips[0] else ips[|ips| - j]
    decreases |ips|
  {
    if j > 0 {
      OrderIsBackwards(SwapRemoved(ips, 0), j - 1);
    }
  }

  /** Nothing is tried more often than it is listed. */
  lemma {:induction false} OrderTriesEachOnce(ips: seq<string>)
    ensures multiset(Order(ips)) == multiset(ips)
    decreases |ips|
  {
    if ips != [] {
      OrderTriesEachOnce(SwapRemoved(ips, 0));
      assert IndexOf(ips, ips[0]) == 0;
      DropKeepsTheRest(ips, ips[0]);
    }
  }

  /** The clients called, in order, as long as all fail retryably. */
  function Plan(s: State): seq<string> {
    if s.active == "" then Order(s.ips)
    else if s.active in s.clients then [s.clients[s.active]] + Order(Without(s.ips, s.active))
    else []
  }

  /** How many of the clients in a row, starting with the n-th call, fail retryably. */
  function Retried(answers: Answers, plan: seq<string>, n: nat): (k: nat)
    ensures k <= |plan|
  {
    if plan == [] || !Retryable(answers(plan[0], n)) then 0 else 1 + Retried(answers, plan[1..], n + 1)
  }

  lemma {:induction false} RetriedMeans(answers: Answers, plan: seq<string>, n: nat, j: nat)
    requires j < |plan| && j <= Retried(answers, plan, n)
    ensures Retryable(answers(plan[j], n + j)) <==> j < Retried(answers, plan, n)
  {
    if j > 0 {
      RetriedMeans(answers, plan[1..], n + 1, j - 1);
    }
  }

  function OutcomeOf(r: Reply): Outcome { if r.Success? then Ok else Err(r.text) }

  /** The clients of a plan called in turn: the outcome, and all that have been called. */
  function InTurn(answers: Answers, plan: seq<string>, called: seq<string>): (Outcome, seq<string>)
    decreases |plan|
  {
    if plan == [] then (IndexPanic, called)
    else if Retryable(answers(plan[0], |called|)) then InTurn(answers, plan[1..], called + [plan[0]])
    else (OutcomeOf(answers(plan[0], |called|)), called + [plan[0]])
  }

  /** That is the outcome of the first client that does not fail retryably, with those up to
      it called once each in order; the call reads past the end of the list exactly if all
      of them fail so. */
  lemma {:induction false} FirstThatAnswers(answers: Answers, plan: seq<string>, called: seq<string>)
    ensures var k := Retried(answers, plan, |called|);
            InTurn(answers, plan, called) ==
            if k == |plan| then (IndexPanic, called + plan)
            else (OutcomeOf(answers(plan[k], |called| + k)), called + plan[..k + 1])
    decreases |plan|
  {
    if plan == [] {
      assert called + plan == called;
    } else if Retryable(answers(plan[0], |called|)) {
      var rest := plan[1..];
      var k := Retried(answers, rest, |called| + 1);
      FirstThatAnswers(answers, rest, called + [plan[0]]);
      if k == |rest| {
        assert called + [plan[0]] + rest == called + plan;
      } else {
        assert called + [plan[0]] + rest[..k + 1] == called + plan[..k + 2];
      }
    } else {
      assert plan[..1] == [plan[0]];
    }
  }

  /** The state after trying the first address in vain. */
  function Retreated(s: State): State
    requires s.ips != []
  {
    State(SwapRemoved(s.ips, 0), "", s.clients[s.ips[0] := s.ips[0]], s.called + [s.ips[0]])
  }

  /** One try: of the first address, when none is active. */
  lemma FailoverStep(answers: Answers, s: State)
    requires s.active == "" && s.ips != []
    ensures var r := answers(s.ips[0], |s.called|);
            Failover(answers, s) == if Retryable(r) then Failover(answers, Retreated(s))
                                    else (Activated(s).(called := s.called + [s.ips[0]]), OutcomeOf(r))
  {
    assert IndexOf(s.ips, s.ips[0]) == 0;
  }

  lemma OrderStep(ips: seq<string>)
    requires ips != []
    ensures Order(ips)[0] == ips[0] && Order(ips)[1..] == Order(SwapRemoved(ips, 0))
  {
  }

  /** A call without an active address calls the listed ones in order. */
  lemma {:induction false} CallTriesInOrder(answers: Answers, s: State)
    requires s.active == ""
    ensures (Failover(answers, s).1, Failover(answers, s).0.called) == InTurn(answers, Order(s.ips), s.called)
    decreases |s.ips|
  {
    if s.ips != [] {
      FailoverStep(answers, s);
      OrderStep(s.ips);
      if Retryable(answers(s.ips[0], |s.called|)) {
        CallTriesInOrder(answers, Retreated(s));
      }
    }
  }

  /** After a call without an active address, the answering client is active, first in a list
      whose order is what is left of the old one. */
  lemma {:induction false} FreshCallDropsTheFailed(answers: Answers, s: State)
    requires s.active == ""
    ensures var s' := Failover(answers, s).0;
            && Order(s'.ips) == Order(s.ips)[Retried(answers, Order(s.ips), |s.called|)..]
            && s'.active == if s'.ips == [] then "" else s'.ips[0]
    decreases |s.ips|
  {
    if s.ips != [] {
      var order := Order(s.ips);
      FailoverStep(answers, s);
      OrderStep(s.ips);
      if Retryable(answers(s.ips[0], |s.called|)) {
        var k := Retried(answers, order[1..], |s.called| + 1);
        FreshCallDropsTheFailed(answers, Retreated(s));
        assert order[1..][k..] == order[k + 1..];
      } else {
        assert order[0..] == order;
      }
    }
  }

  /** The state after trying the active address in vain. */
  function GivenUp(s: State): State
    requires s.active in s.clients
  { State(Without(s.ips, s.active), "", s.clients, s.called + [s.clients[s.active]]) }

  lemma FailoverFromActive(answers: Answers, s: State)
    requires s.active != "" && s.active in s.clients
    ensures var r := answers(s.clients[s.active], |s.called|);
            Failover(answers, s) == if Retryable(r) then Failover(answers, GivenUp(s))
                                    else (s.(called := s.called + [s.clients[s.active]]), OutcomeOf(r))
  {
    assert Dropped(s.(called := s.called + [s.clients[s.active]]), s.active) == GivenUp(s);
  }

  /** With an active address that has a client, that client comes first. */
  lemma CallTriesActiveFirst(answers: Answers, s: State)
    requires s.active != "" && s.active in s.clients
    ensures (Failover(answers, s).1, Failover(answers, s).0.called) == InTurn(answers, Plan(s), s.called)
  {
    FailoverFromActive(answers, s);
    if Retryable(answers(s.clients[s.active], |s.called|)) {
      CallTriesInOrder(answers, GivenUp(s));
      assert Plan(s)[1..] == Order(Without(s.ips, s.active));
    }
  }

  /** What is left of the order, and the address then active, after any call: an active
      address that answers stays, and the list with it; otherwise exactly the k that
      failed are gone, and the answering one is active and first. */
  lemma CallDropsTheFailed(answers: Answers, s: State)
    requires s.active == "" || s.active in s.clients
    ensures var s' := Failover(answers, s).0;
            var k := Retried(answers, Plan(s), |s.called|);
            if s.active != "" && k == 0 then s'.ips == s.ips && s'.active == s.active
            else
              && Order(s'.ips) == (if s.active == "" then Order(s.ips)[k..] else Order(Without(s.ips, s.active))[k - 1..])
              && s'.active == if s'.ips == [] then "" else s'.ips[0]
  {
    if s.active == "" {
      FreshCallDropsTheFailed(answers, s);
    } else {
      FailoverFromActive(answers, s);
      assert Plan(s)[1..] == Order(Without(s.ips, s.active));
      if Retryable(answers(s.clients[s.active], |s.called|)) {
        FreshCallDropsTheFailed(answers, GivenUp(s));
      }
    }
  }

  /** The active address has a client, and each client was built for its address. */
  predicate Matched(s: State) {
    (s.active != "" ==> s.active in s.clients) && forall ip :: ip in s.clients ==> s.clients[ip] == ip
  }

  lemma {:induction false} FreshCallKeepsMatched(answers: Answers, s: State)
    requires Matched(s) && s.active == ""
    ensures Matched(Failover(answers, s).0) && Failover(answers, s).1 != NilClient
    decreases |s.ips|
  {
    if s.ips != [] {
      FailoverStep(answers, s);
      if Retryable(answers(s.ips[0], |s.called|)) {
        FreshCallKeepsMatched(answers, Retreated(s));
      }
    }
  }

  /** Every call keeps it, so a pool that starts out empty-handed never lacks a client. */
  lemma CallKeepsMatched(answers: Answers, s: State)
    requires Matched(s)
    ensures Matched(Failover(answers, s).0) && Failover(answers, s).1 != NilClient
  {
    if s.active == "" {
      FreshCallKeepsMatched(answers, s);
    } else {
      FailoverFromActive(answers, s);
      FreshCallKeepsMatched(answers, GivenUp(s));
    }
  }

  predicate Distinct(ips: seq<string>) { forall i, j :: 0 <= i < j < |ips| ==> ips[i] != ips[j] }

  /** Distinct addresses: no client is called twice in one call to the pool. */
  lemma NoneTriedTwice(s: State)
    requires Distinct(s.ips) && Matched(s)
    ensures Distinct(Plan(s))
  {
    forall ip ensures multiset(s.ips)[ip] <= 1 { DistinctCounts(s.ips, ip); }
    if s.active == "" {
      OrderTriesEachOnce(s.ips);
    } else {
      DropKeepsTheRest(s.ips, s.active);
      OrderTriesEachOnce(Without(s.ips, s.active));
      var rest := Order(Without(s.ips, s.active));
      assert multiset(Plan(s)) == multiset{s.active} + multiset(rest);
    }
    CountedOnce(Plan(s));
  }

  /** So one call to the pool calls no address twice. */
  lemma NoneCalledTwice(answers: Answers, s: State) returns (calls: seq<string>)
    requires Distinct(s.ips) && Matched(s)
    ensures Failover(answers, s).0.called == s.called + calls && Distinct(calls)
  {
    NoneTriedTwice(s);
    FirstThatAnswers(answers, Plan(s), s.called);
    if s.active == "" {
      CallTriesInOrder(answers, s);
    } else {
      CallTriesActiveFirst(answers, s);
    }
    var k := Retried(answers, Plan(s), |s.called|);
    calls := if k == |Plan(s)| then Plan(s) else Plan(s)[..k + 1];
  }

  lemma CountedOnce(ips: seq<string>)
    requires forall ip :: multiset(ips)[ip] <= 1
    ensures Distinct(ips)
  {
    forall i, j | 0 <= i < j < |ips| ensures ips[i] != ips[j] {
      assert ips == ips[..j] + ips[j..];
      assert ips[i] in ips[..j] && ips[j] in ips[j..];
      assert multiset(ips)[ips[j]] <= 1;
    }
  }

  lemma {:induction false} DistinctCounts(ips: seq<string>, ip: string)
    requires Distinct(ips)
    ensures multiset(ips)[ip] <= 1
  {
    if ips != [] {
      var n := |ips| - 1;
      DistinctCounts(ips[..n], ip);
      assert ips == ips[..n] + [ips[n]];
      assert ips[n] !in ips[..n];
    }
  }
}
