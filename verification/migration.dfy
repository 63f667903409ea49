/**
 * The one-shot proxy-delegator migration of the delegated-staking pallet
 * (`unversioned::ProxyDelegatorMigration::on_runtime_upgrade`).
 *
 * For at most `MaxAgents` registered agents, in the registry's enumeration
 * order, the migration derives the agent's proxy-delegator account under the
 * old scheme, and when that account holds a delegation record it moves the
 * whole recorded amount to the proxy-delegator account of the new scheme.
 * Per-agent failures are counted and logged, never propagated.
 *
 * The pure part (`Step`, `Run`, `Upgrade`) is the specification; the class
 * `Pallet` holds the storage the migration mutates, and its method
 * `OnRuntimeUpgrade` is the loop of the source, proved to follow `Upgrade`.
 */
module Migration {

  newtype u8 = x: int | 0 <= x < 0x100
  newtype u32 = x: int | 0 <= x < 0x1_0000_0000

  /** An opaque account identifier (`T::AccountId`). */
  type AccountId = nat

  /** A stake quantity (`BalanceOf<T>`), unbounded. */
  type Balance = nat

  /** The pallet's eight-byte identity (`T::PalletId`), seed of its derived accounts. */
  type PalletId = s: seq<u8> | |s| == 8 witness [0, 0, 0, 0, 0, 0, 0, 0]

  /** The purpose tag mixed into a derived account. */
  datatype AccountType = ProxyDelegator

  /** Role wrappers over an account: the agent side and the delegator side. */
  datatype Agent = Agent(get: AccountId)
  datatype Delegator = Delegator(get: AccountId)

  /** Resource cost reported to the host (`Weight`). */
  datatype Weight = Weight(refTime: nat, proofSize: nat)

  const ZeroWeight: Weight := Weight(0, 0)

  datatype Result<+T, +E> = Ok(value: T) | Err(error: E)

  /** The error `do_migrate_delegation` returns; its causes are not modelled. */
  datatype DispatchError = MigrationRejected

  /** The error a try-runtime check may report. */
  type TryRuntimeError = string

  /**
   * The collaborators the migration calls but whose code is not part of this
   * model. Each is an arbitrary deterministic function, so every property
   * proved below holds whatever they compute.
   *  - intoSubAccountTruncating: the old derivation (the encoding of the
   *    pallet id, the tag and the agent, truncated to the length of an
   *    account id; nothing is hashed);
   *  - generateProxyDelegator: the pallet's new derivation;
   *  - migrationAccepted: whether `do_migrate_delegation` succeeds for the
   *    given ledger, source, destination and amount.
   */
  datatype Config = Config(
    palletId: PalletId,
    intoSubAccountTruncating: (PalletId, AccountType, AccountId) -> AccountId,
    generateProxyDelegator: Agent -> AccountId,
    migrationAccepted: (map<AccountId, Balance>, Delegator, Delegator, Balance) -> bool
  )

  /** The `old_proxy_delegator` closure: the agent's proxy under the old scheme. */
  function OldProxyDelegator(c: Config, agent: AccountId): AccountId
  {
    c.intoSubAccountTruncating(c.palletId, ProxyDelegator, agent)
  }

  /** The agent's proxy under the new scheme. */
  function NewProxyDelegator(c: Config, agent: AccountId): AccountId
  {
    c.generateProxyDelegator(Agent(agent))
  }

  /**
   * The bounded enumeration `iter_keys().take(MaxAgents)`: the agents the
   * migration visits are exactly the first min(|agents|, maxAgents) of the
   * enumeration, in its order.
   */
  function Take(agents: seq<AccountId>, maxAgents: u32): (batch: seq<AccountId>)
    ensures |batch| == if |agents| <= maxAgents as int then |agents| else maxAgents as int
    ensures batch == agents[..|batch|]
  {
    if |agents| <= maxAgents as int then agents else agents[..maxAgents]
  }

  /**
   * The ledger after a successful `do_migrate_delegation(from, to, amount)`
   * that moves a whole record. This is the contract ASSUMED of the callee,
   * whose body is not part of this model: the record at `from` is gone,
   * `amount` is credited to `to` (on top of any record `to` already held),
   * and no other account changes.
   */
  function MoveDelegation(ledger: map<AccountId, Balance>, from: AccountId, to: AccountId, amount: Balance)
    : (r: map<AccountId, Balance>)
    ensures to in r && r[to] == amount + (if to != from && to in ledger then ledger[to] else 0)
    ensures from != to ==> from !in r
    ensures forall a :: a != from && a != to ==> (a in r <==> a in ledger) && (a in r ==> r[a] == ledger[a])
  {
    var rest := ledger - {from};
    rest[to := amount + (if to in rest then rest[to] else 0)]
  }

  /** What the migration did for one visited agent. */
  datatype Outcome = NoRecord | Migrated | MoveFailed

  /** The diagnostic lines the migration emits. */
  datatype LogEntry =
    | MigrationFailed(agent: AccountId, oldProxy: AccountId)
    | Summary(success: nat, fails: nat)

  /**
   * The state of a scan: the delegation ledger, the two counters, the
   * failure lines logged so far, and (for the proofs) one outcome per
   * visited agent.
   */
  datatype RunState = RunState(
    ledger: map<AccountId, Balance>,
    success: nat,
    fails: nat,
    outcomes: seq<Outcome>,
    log: seq<LogEntry>
  )

  function Init(ledger: map<AccountId, Balance>): RunState
  {
    RunState(ledger, 0, 0, [], [])
  }

  /**
   * One iteration of the `for_each` body. Line 53 of the source writes
   * `.map(success += 1)`, an already-evaluated `()` in place of a closure;
   * this model takes the evidently intended closure reading, in which
   * `success` grows only when the move succeeds and `fails` only when it
   * fails (the literal reading is module LiteralReading).
   */
  function Step(c: Config, s: RunState, agent: AccountId): RunState
  {
    var oldProxy := OldProxyDelegator(c, agent);
    if oldProxy !in s.ledger then
      s.(outcomes := s.outcomes + [NoRecord])
    else
      var newProxy := NewProxyDelegator(c, agent);
      var amount := s.ledger[oldProxy];
      if c.migrationAccepted(s.ledger, Delegator(oldProxy), Delegator(newProxy), amount) then
        s.(ledger := MoveDelegation(s.ledger, oldProxy, newProxy, amount),
           success := s.success + 1,
           outcomes := s.outcomes + [Migrated])
      else
        s.(fails := s.fails + 1,
           outcomes := s.outcomes + [MoveFailed],
           log := s.log + [MigrationFailed(agent, oldProxy)])
  }

  /** The scan over `agents`, in order, from state `s`. */
  function Run(c: Config, s: RunState, agents: seq<AccountId>): RunState
    decreases |agents|
  {
    if agents == [] then s
    else Step(c, Run(c, s, agents[..|agents| - 1]), agents[|agents| - 1])
  }

  /** The whole bounded scan from the ledger `ledger`. */
  function Upgrade(c: Config, ledger: map<AccountId, Balance>, agents: seq<AccountId>, maxAgents: u32): RunState
  {
    Run(c, Init(ledger), Take(agents, maxAgents))
  }

  /** `post_upgrade`: accepts any snapshot and reports success. */
  function PostUpgrade(data: seq<u8>): (r: Result<(), TryRuntimeError>)
    ensures r == Ok(())
  {
    Ok(())
  }

  /**
   * The runtime storage the migration touches: the keys of the `Agents` map
   * in enumeration order, the `Delegation` map (amount only), and the
   * diagnostic log.
   */
  class Pallet {
    const config: Config
    var agents: seq<AccountId>
    var delegations: map<AccountId, Balance>
    var log: seq<LogEntry>

    constructor (config: Config, agents: seq<AccountId>, delegations: map<AccountId, Balance>)
      ensures this.config == config && this.agents == agents
      ensures this.delegations == delegations && this.log == []
    {
      this.config := config;
      this.agents := agents;
      this.delegations := delegations;
      this.log := [];
    }

    /**
     * `do_migrate_delegation`, by its assumed contract: atomic; on success
     * the whole record moves from `source` to `destination`, on failure the
     * ledger is left as it was.
     */
    method DoMigrateDelegation(source: Delegator, destination: Delegator, amount: Balance)
      returns (r: Result<(), DispatchError>)
      modifies this`delegations
      ensures r.Ok? == config.migrationAccepted(old(delegations), source, destination, amount)
      ensures delegations == if r.Ok? then MoveDelegation(old(delegations), source.get, destination.get, amount)
                             else old(delegations)
    {
      if config.migrationAccepted(delegations, source, destination, amount) {
        delegations := MoveDelegation(delegations, source.get, destination.get, amount);
        r := Ok(());
      } else {
        r := Err(MigrationRejected);
      }
    }

    /**
     * `on_runtime_upgrade` with `MaxAgents = maxAgents`: always completes,
     * returns zero weight, leaves the ledger as `Upgrade` says and logs the
     * failure lines followed by one summary line. The `u32` counters never
     * overflow.
     */
    method OnRuntimeUpgrade(maxAgents: u32) returns (w: Weight)
      modifies this`delegations, this`log
      ensures w == ZeroWeight
      ensures var r := Upgrade(config, old(delegations), agents, maxAgents);
              delegations == r.ledger && log == old(log) + r.log + [Summary(r.success, r.fails)]
    {
      var success: u32 := 0;
      var fails: u32 := 0;
      var i := 0;
      while i < |agents| && i < maxAgents as int
        invariant 0 <= i <= |Take(agents, maxAgents)|
        invariant success as int + fails as int <= i
        invariant var r := Run(config, Init(old(delegations)), agents[..i]);
                  delegations == r.ledger && success as int == r.success && fails as int == r.fails
                  && log == old(log) + r.log
      {
        var agent := agents[i];
        var oldProxy := OldProxyDelegator(config, agent);
        if oldProxy in delegations {
          var amount := delegations[oldProxy];
          var newProxy := NewProxyDelegator(config, agent);
          var res := DoMigrateDelegation(Delegator(oldProxy), Delegator(newProxy), amount);
          // Source line 53 passes `success += 1` where a closure is due; the
          // increments below follow the closure reading (see Step).
          if res.Ok? {
            success := success + 1;
          } else {
            log := log + [MigrationFailed(agent, oldProxy)];
            fails := fails + 1;
          }
        }
        assert agents[..i + 1][..i] == agents[..i];
        i := i + 1;
      }
      assert agents[..i] == Take(agents, maxAgents);
      log := log + [Summary(success as nat, fails as nat)];
      w := Weight(0, 0);
    }
  }
}
