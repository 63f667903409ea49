/**
 * Properties of the proxy-delegator migration, stated over the specification
 * `Migration.Upgrade` that `Pallet.OnRuntimeUpgrade` is proved to follow.
 */
module MigrationProperties {
  import opened Migration

  /** Number of occurrences of outcome `o`. */
  function Count(os: seq<Outcome>, o: Outcome): nat
  {
    if os == [] then 0
    else Count(os[..|os| - 1], o) + (if os[|os| - 1] == o then 1 else 0)
  }

  /** The counters and the failure lines agree with the recorded outcomes. */
  ghost predicate Tallied(s: RunState)
  {
    s.success == Count(s.outcomes, Migrated) &&
    s.fails == Count(s.outcomes, MoveFailed) &&
    |s.log| == s.fails
  }

  /**
   * Every agent scanned yields exactly one outcome, appended in order;
   * `success` counts the moves that succeeded and `fails` those that failed,
   * each a separate outcome, so together they grow by at most one per agent.
   */
  lemma {:induction false} RunTallies(c: Config, s: RunState, agents: seq<AccountId>)
    requires Tallied(s)
    ensures var r := Run(c, s, agents);
            Tallied(r) &&
            |r.outcomes| == |s.outcomes| + |agents| &&
            r.outcomes[..|s.outcomes|] == s.outcomes &&
            r.success + r.fails <= s.success + s.fails + |agents|
  {
    if agents != [] {
      var prefix := agents[..|agents| - 1];
      RunTallies(c, s, prefix);
      var p := Run(c, s, prefix);
      var r := Step(c, p, agents[|agents| - 1]);
      assert r.outcomes[..|r.outcomes| - 1] == p.outcomes;
    }
  }

  /**
   * The bound: one outcome per visited agent and exactly
   * min(|agents|, maxAgents) of them; the counters are mutually exclusive
   * tallies of those outcomes and their sum stays within `maxAgents`, so
   * neither `u32` counter can overflow.
   */
  lemma UpgradeTally(c: Config, ledger: map<AccountId, Balance>, agents: seq<AccountId>, maxAgents: u32)
    ensures var r := Upgrade(c, ledger, agents, maxAgents);
            |r.outcomes| == (if |agents| <= maxAgents as int then |agents| else maxAgents as int) &&
            r.success == Count(r.outcomes, Migrated) &&
            r.fails == Count(r.outcomes, MoveFailed) &&
            |r.log| == r.fails &&
            r.success + r.fails <= maxAgents as int < 0x1_0000_0000
  {
    RunTallies(c, Init(ledger), Take(agents, maxAgents));
  }

  /** Agents beyond the bound are never looked at: appending to the registry past the bound changes nothing. */
  lemma UpgradeIgnoresLaterAgents(c: Config, ledger: map<AccountId, Balance>, agents: seq<AccountId>,
                                  later: seq<AccountId>, maxAgents: u32)
    requires maxAgents as int <= |agents|
    ensures Upgrade(c, ledger, agents + later, maxAgents) == Upgrade(c, ledger, agents, maxAgents)
  {
    assert Take(agents + later, maxAgents) == Take(agents, maxAgents);
  }

  /**
   * The derivations do not collide on the visited agents: no two of them
   * share an old or a new proxy, and no old proxy is any agent's new proxy.
   * The old derivation encodes the pallet id, the tag and the agent and keeps
   * only as many leading bytes as an account id has; nothing is hashed. So
   * for the old proxies this assumes that the visited agents differ within
   * the bytes of the agent that survive the truncation. For the new
   * derivation, whose code is not part of this model, it is assumed outright.
   */
  ghost predicate Separated(c: Config, batch: seq<AccountId>)
  {
    (forall i, j :: 0 <= i < |batch| && 0 <= j < |batch| && i != j ==>
       OldProxyDelegator(c, batch[i]) != OldProxyDelegator(c, batch[j]) &&
       NewProxyDelegator(c, batch[i]) != NewProxyDelegator(c, batch[j])) &&
    (forall i, j :: 0 <= i < |batch| && 0 <= j < |batch| ==>
       OldProxyDelegator(c, batch[i]) != NewProxyDelegator(c, batch[j]))
  }

  /** The accounts the first `n` visits may write: their old and new proxies. */
  ghost function Touched(c: Config, batch: seq<AccountId>, n: nat): set<AccountId>
    requires n <= |batch|
  {
    (set k | 0 <= k < n :: OldProxyDelegator(c, batch[k])) +
    (set k | 0 <= k < n :: NewProxyDelegator(c, batch[k]))
  }

  /** Number of agents whose old proxy holds a record in `ledger`. */
  ghost function RecordCount(c: Config, ledger: map<AccountId, Balance>, agents: seq<AccountId>): nat
  {
    if agents == [] then 0
    else RecordCount(c, ledger, agents[..|agents| - 1]) +
         (if OldProxyDelegator(c, agents[|agents| - 1]) in ledger then 1 else 0)
  }

  /**
   * Outcome `o` for `agent` agrees with the initial ledger `l0` and the
   * current ledger `l`: no record means none before and none now, and the
   * new proxy is untouched; a move means the old record is gone and its full
   * amount has been credited to the new proxy; a failure means both the old
   * record and the new proxy are as they were.
   */
  ghost predicate Faithful(c: Config, l0: map<AccountId, Balance>, l: map<AccountId, Balance>,
                           agent: AccountId, o: Outcome)
  {
    var from := OldProxyDelegator(c, agent);
    var to := NewProxyDelegator(c, agent);
    match o
    case NoRecord =>
      from !in l0 && from !in l && (to in l <==> to in l0) && (to in l0 ==> l[to] == l0[to])
    case Migrated =>
      from in l0 && from !in l && to in l && l[to] == l0[from] + (if to in l0 then l0[to] else 0)
    case MoveFailed =>
      from in l0 && from in l && l[from] == l0[from] && (to in l <==> to in l0) && (to in l0 ==> l[to] == l0[to])
  }

  ghost predicate ScanInvariant(c: Config, l0: map<AccountId, Balance>, batch: seq<AccountId>, n: nat, s: RunState)
    requires n <= |batch|
  {
    |s.outcomes| == n &&
    s.success + s.fails == RecordCount(c, l0, batch[..n]) &&
    (forall k :: 0 <= k < n ==> Faithful(c, l0, s.ledger, batch[k], s.outcomes[k])) &&
    (forall a :: a !in Touched(c, batch, n) ==> Agree(s.ledger, l0, a))
  }

  /** Two ledgers agree on account `a`. */
  ghost predicate Agree(l: map<AccountId, Balance>, l': map<AccountId, Balance>, a: AccountId)
  {
    (a in l <==> a in l') && (a in l ==> l[a] == l'[a])
  }

  /** A visit writes at most the agent's two proxies. */
  lemma StepFrame(c: Config, s: RunState, agent: AccountId, a: AccountId)
    requires a != OldProxyDelegator(c, agent) && a != NewProxyDelegator(c, agent)
    ensures Agree(s.ledger, Step(c, s, agent).ledger, a)
  {
  }

  /** An outcome stays faithful while the agent's two proxies keep their records. */
  lemma FaithfulTransfer(c: Config, l0: map<AccountId, Balance>, l: map<AccountId, Balance>,
                         l': map<AccountId, Balance>, agent: AccountId, o: Outcome)
    requires Faithful(c, l0, l, agent, o)
    requires Agree(l, l', OldProxyDelegator(c, agent)) && Agree(l, l', NewProxyDelegator(c, agent))
    ensures Faithful(c, l0, l', agent, o)
  {
  }

  /** A visit leaves every account outside the proxies of the first `n + 1` agents as it was initially. */
  lemma StepKeepsFrame(c: Config, l0: map<AccountId, Balance>, batch: seq<AccountId>, n: nat, s: RunState)
    requires n < |batch|
    requires forall a :: a !in Touched(c, batch, n) ==> Agree(s.ledger, l0, a)
    ensures forall a :: a !in Touched(c, batch, n + 1) ==> Agree(Step(c, s, batch[n]).ledger, l0, a)
  {
    forall a | a !in Touched(c, batch, n + 1)
      ensures Agree(Step(c, s, batch[n]).ledger, l0, a)
    {
      assert a != OldProxyDelegator(c, batch[n]) && a != NewProxyDelegator(c, batch[n]);
      assert a !in Touched(c, batch, n);
      StepFrame(c, s, batch[n], a);
    }
  }

  /** A visit keeps the earlier agents' outcomes faithful: it writes none of their proxies. */
  lemma StepKeepsEarlierOutcomes(c: Config, l0: map<AccountId, Balance>, batch: seq<AccountId>, n: nat, s: RunState)
    requires n < |batch| && Separated(c, batch) && |s.outcomes| == n
    requires forall k :: 0 <= k < n ==> Faithful(c, l0, s.ledger, batch[k], s.outcomes[k])
    ensures var r := Step(c, s, batch[n]);
            forall k :: 0 <= k < n ==> Faithful(c, l0, r.ledger, batch[k], r.outcomes[k])
  {
    var r := Step(c, s, batch[n]);
    forall k | 0 <= k < n
      ensures Faithful(c, l0, r.ledger, batch[k], r.outcomes[k])
    {
      assert r.outcomes[k] == s.outcomes[k];
      StepFrame(c, s, batch[n], OldProxyDelegator(c, batch[k]));
      StepFrame(c, s, batch[n], NewProxyDelegator(c, batch[k]));
      FaithfulTransfer(c, l0, s.ledger, r.ledger, batch[k], s.outcomes[k]);
    }
  }

  /** The visited agent's own outcome is faithful, and the counters grow exactly when it had a record. */
  lemma StepOwnOutcome(c: Config, l0: map<AccountId, Balance>, s: RunState, agent: AccountId)
    requires OldProxyDelegator(c, agent) != NewProxyDelegator(c, agent)
    requires Agree(s.ledger, l0, OldProxyDelegator(c, agent)) && Agree(s.ledger, l0, NewProxyDelegator(c, agent))
    ensures var r := Step(c, s, agent);
            |r.outcomes| == |s.outcomes| + 1 &&
            r.outcomes[..|s.outcomes|] == s.outcomes &&
            Faithful(c, l0, r.ledger, agent, r.outcomes[|s.outcomes|]) &&
            r.success + r.fails == s.success + s.fails + (if OldProxyDelegator(c, agent) in l0 then 1 else 0)
  {
  }

  /** One visit keeps the scan invariant: the step from `n` visited agents to `n + 1`. */
  lemma StepKeepsInvariant(c: Config, l0: map<AccountId, Balance>, batch: seq<AccountId>, n: nat, s: RunState)
    requires n < |batch| && Separated(c, batch)
    requires ScanInvariant(c, l0, batch, n, s)
    ensures ScanInvariant(c, l0, batch, n + 1, Step(c, s, batch[n]))
  {
    var agent := batch[n];
    var from, to := OldProxyDelegator(c, agent), NewProxyDelegator(c, agent);
    assert from !in Touched(c, batch, n) && to !in Touched(c, batch, n);
    assert Agree(s.ledger, l0, from) && Agree(s.ledger, l0, to);
    assert forall a :: a !in Touched(c, batch, n) ==> Agree(s.ledger, l0, a);
    StepKeepsFrame(c, l0, batch, n, s);
    StepKeepsEarlierOutcomes(c, l0, batch, n, s);
    StepOwnOutcome(c, l0, s, agent);
    assert batch[..n + 1][..n] == batch[..n];
    assert RecordCount(c, l0, batch[..n + 1]) ==
           RecordCount(c, l0, batch[..n]) + (if from in l0 then 1 else 0);
  }

  /** After the first `n` visits, every visited agent's outcome is faithful and nothing else moved. */
  lemma {:induction false} ScanKeepsInvariant(c: Config, l0: map<AccountId, Balance>, batch: seq<AccountId>, n: nat)
    requires n <= |batch| && Separated(c, batch)
    ensures ScanInvariant(c, l0, batch, n, Run(c, Init(l0), batch[..n]))
  {
    if n > 0 {
      ScanKeepsInvariant(c, l0, batch, n - 1);
      var p := Run(c, Init(l0), batch[..n - 1]);
      assert batch[..n][..n - 1] == batch[..n - 1];
      assert Run(c, Init(l0), batch[..n]) == Step(c, p, batch[n - 1]);
      StepKeepsInvariant(c, l0, batch, n - 1, p);
    }
  }

  /**
   * What one bounded run does to the ledger, agent by agent (assuming the
   * derivations do not collide): an agent is skipped exactly when its old
   * proxy has no record, and then neither of its proxies changes; a moved
   * agent's full amount is credited to its new proxy and its old record is
   * gone; a failed agent's two proxies are as they were; no account outside
   * the visited agents' proxies changes; and `success + fails` is the
   * number of visited agents that had a record.
   */
  lemma UpgradeMovesRecords(c: Config, l0: map<AccountId, Balance>, agents: seq<AccountId>, maxAgents: u32)
    requires Separated(c, Take(agents, maxAgents))
    ensures var batch := Take(agents, maxAgents);
            var r := Upgrade(c, l0, agents, maxAgents);
            |r.outcomes| == |batch| &&
            r.success + r.fails == RecordCount(c, l0, batch) &&
            (forall k :: 0 <= k < |batch| ==>
               (r.outcomes[k] == NoRecord <==> OldProxyDelegator(c, batch[k]) !in l0)) &&
            (forall k :: 0 <= k < |batch| && r.outcomes[k] == NoRecord ==>
               OldProxyDelegator(c, batch[k]) !in r.ledger &&
               (NewProxyDelegator(c, batch[k]) in r.ledger <==> NewProxyDelegator(c, batch[k]) in l0) &&
               (NewProxyDelegator(c, batch[k]) in l0 ==>
                  r.ledger[NewProxyDelegator(c, batch[k])] == l0[NewProxyDelegator(c, batch[k])])) &&
            (forall k :: 0 <= k < |batch| && r.outcomes[k] == Migrated ==>
               OldProxyDelegator(c, batch[k]) in l0 &&
               OldProxyDelegator(c, batch[k]) !in r.ledger &&
               NewProxyDelegator(c, batch[k]) in r.ledger &&
               r.ledger[NewProxyDelegator(c, batch[k])] ==
                 l0[OldProxyDelegator(c, batch[k])] +
                 (if NewProxyDelegator(c, batch[k]) in l0 then l0[NewProxyDelegator(c, batch[k])] else 0)) &&
            (forall k :: 0 <= k < |batch| && r.outcomes[k] == MoveFailed ==>
               OldProxyDelegator(c, batch[k]) in l0 &&
               OldProxyDelegator(c, batch[k]) in r.ledger &&
               r.ledger[OldProxyDelegator(c, batch[k])] == l0[OldProxyDelegator(c, batch[k])] &&
               (NewProxyDelegator(c, batch[k]) in r.ledger <==> NewProxyDelegator(c, batch[k]) in l0) &&
               (NewProxyDelegator(c, batch[k]) in l0 ==>
                  r.ledger[NewProxyDelegator(c, batch[k])] == l0[NewProxyDelegator(c, batch[k])])) &&
            (forall a :: a !in Touched(c, batch, |batch|) ==>
               (a in r.ledger <==> a in l0) && (a in l0 ==> r.ledger[a] == l0[a]))
  {
    var batch := Take(agents, maxAgents);
    ScanKeepsInvariant(c, l0, batch, |batch|);
    assert batch[..|batch|] == batch;
    var r := Upgrade(c, l0, agents, maxAgents);
    forall k | 0 <= k < |batch|
      ensures r.outcomes[k] == NoRecord <==> OldProxyDelegator(c, batch[k]) !in l0
    {
      assert Faithful(c, l0, r.ledger, batch[k], r.outcomes[k]);
    }
  }

  /** The sum of all amounts recorded in a ledger. */
  ghost function Total(m: map<AccountId, Balance>): nat
    decreases |m|
  {
    if m == map[] then 0
    else
      var a :| a in m;
      assert (m - {a}).Keys == m.Keys - {a};
      m[a] + Total(m - {a})
  }

  /** `Total` does not depend on which record is taken out first. */
  lemma {:induction false} TotalRemove(m: map<AccountId, Balance>, k: AccountId)
    requires k in m
    ensures Total(m) == m[k] + Total(m - {k})
    decreases |m|
  {
    var a :| a in m && Total(m) == m[a] + Total(m - {a});
    if a != k {
      assert (m - {a}).Keys == m.Keys - {a};
      assert (m - {k}).Keys == m.Keys - {k};
      TotalRemove(m - {a}, k);
      TotalRemove(m - {k}, a);
      assert m - {a} - {k} == m - {k} - {a};
    }
  }

  /** Moving a whole record to a different account leaves the ledger's total unchanged. */
  lemma MoveConservesTotal(ledger: map<AccountId, Balance>, from: AccountId, to: AccountId)
    requires from in ledger && from != to
    ensures Total(MoveDelegation(ledger, from, to, ledger[from])) == Total(ledger)
  {
    var r := MoveDelegation(ledger, from, to, ledger[from]);
    TotalRemove(r, to);
    TotalRemove(ledger, from);
    if to in ledger {
      TotalRemove(ledger - {from}, to);
      assert r - {to} == ledger - {from} - {to};
    } else {
      assert r - {to} == ledger - {from};
    }
  }

  /** A scan in which no agent's old and new proxies coincide keeps the ledger's total. */
  lemma {:induction false} RunConservesTotal(c: Config, s: RunState, agents: seq<AccountId>)
    requires forall k :: 0 <= k < |agents| ==> OldProxyDelegator(c, agents[k]) != NewProxyDelegator(c, agents[k])
    ensures Total(Run(c, s, agents).ledger) == Total(s.ledger)
  {
    if agents != [] {
      var n := |agents| - 1;
      RunConservesTotal(c, s, agents[..n]);
      var p := Run(c, s, agents[..n]);
      var from := OldProxyDelegator(c, agents[n]);
      if from in p.ledger {
        MoveConservesTotal(p.ledger, from, NewProxyDelegator(c, agents[n]));
      }
    }
  }

  /**
   * The migration conserves the total delegated amount: whatever moves
   * succeed or fail, the ledger's sum afterwards equals its sum before,
   * provided no visited agent's old proxy is also its new proxy.
   */
  lemma UpgradeConservesTotal(c: Config, l0: map<AccountId, Balance>, agents: seq<AccountId>, maxAgents: u32)
    requires var batch := Take(agents, maxAgents);
             forall k :: 0 <= k < |batch| ==> OldProxyDelegator(c, batch[k]) != NewProxyDelegator(c, batch[k])
    ensures Total(Upgrade(c, l0, agents, maxAgents).ledger) == Total(l0)
  {
    RunConservesTotal(c, Init(l0), Take(agents, maxAgents));
  }

  /** Two outcome sequences that agree, position by position, on "old proxy has a record" have equal record counts. */
  lemma {:induction false} RecordCountMatches(c: Config, l: map<AccountId, Balance>, agents: seq<AccountId>,
                                              os: seq<Outcome>, o: Outcome)
    requires |os| == |agents|
    requires forall k :: 0 <= k < |agents| ==> (OldProxyDelegator(c, agents[k]) in l <==> os[k] == o)
    ensures RecordCount(c, l, agents) == Count(os, o)
  {
    if agents != [] {
      var n := |agents| - 1;
      forall k | 0 <= k < n
        ensures OldProxyDelegator(c, agents[..n][k]) in l <==> os[..n][k] == o
      {
        assert agents[..n][k] == agents[k] && os[..n][k] == os[k];
      }
      RecordCountMatches(c, l, agents[..n], os[..n], o);
    }
  }

  /**
   * Re-running the migration on the ledger it produced (the registry is
   * unchanged by it) skips every agent it migrated or skipped the first
   * time, attempts again exactly the agents whose move failed, and so
   * counts `success + fails` equal to the first run's `fails`.
   */
  lemma RerunRetriesOnlyFailures(c: Config, l0: map<AccountId, Balance>, agents: seq<AccountId>, maxAgents: u32)
    requires Separated(c, Take(agents, maxAgents))
    ensures var batch := Take(agents, maxAgents);
            var first := Upgrade(c, l0, agents, maxAgents);
            var second := Upgrade(c, first.ledger, agents, maxAgents);
            |first.outcomes| == |second.outcomes| == |batch| &&
            (forall k :: 0 <= k < |batch| ==>
               (second.outcomes[k] == NoRecord <==> first.outcomes[k] != MoveFailed)) &&
            second.success + second.fails == first.fails
  {
    var batch := Take(agents, maxAgents);
    var first := Upgrade(c, l0, agents, maxAgents);
    var second := Upgrade(c, first.ledger, agents, maxAgents);
    ScanKeepsInvariant(c, l0, batch, |batch|);
    ScanKeepsInvariant(c, first.ledger, batch, |batch|);
    assert batch[..|batch|] == batch;
    UpgradeTally(c, l0, agents, maxAgents);
    forall k | 0 <= k < |batch|
      ensures OldProxyDelegator(c, batch[k]) in first.ledger <==> first.outcomes[k] == MoveFailed
      ensures second.outcomes[k] == NoRecord <==> first.outcomes[k] != MoveFailed
    {
      assert Faithful(c, l0, first.ledger, batch[k], first.outcomes[k]);
      assert Faithful(c, first.ledger, second.ledger, batch[k], second.outcomes[k]);
    }
    RecordCountMatches(c, first.ledger, batch, first.outcomes, MoveFailed);
  }
}
