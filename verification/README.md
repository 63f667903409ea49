# Proxy-delegator migration of the delegated-staking pallet

This project is a Dafny model of `unversioned::ProxyDelegatorMigration`. It is a
one-shot runtime-upgrade step of Substrate's delegated-staking pallet. The step
goes through the registered agents, at most `MaxAgents` of them, in the order
the `Agents` storage map enumerates them. For each one:

1. It derives the agent's proxy-delegator account under the old scheme:
   `into_sub_account_truncating` of the pallet id with
   `(AccountType::ProxyDelegator, agent)`.
2. If that account has a `Delegation` record, it derives the new-scheme proxy
   with `generate_proxy_delegator`.
3. It calls `do_migrate_delegation` to move the whole recorded amount from the
   old proxy to the new one.
4. It counts successes and failures and logs each failure.

A failed move is never propagated. After the scan the step logs one summary
line and returns zero weight. `post_upgrade` always reports success.

Files:

- `migration.dfy` (module `Migration`) holds the model itself:
  - the data types;
  - the specification of one iteration (`Step`), of a scan (`Run`) and of the
    bounded run (`Upgrade`);
  - the class `Pallet`, which holds the mutable storage: the agent
    enumeration, the delegation ledger (account to amount) and the
    diagnostic log.
  - `Pallet.OnRuntimeUpgrade` is the loop of the source. It is proved to leave
    exactly the ledger and log that `Upgrade` describes.
- `properties.dfy` (module `MigrationProperties`) holds the lemmas about
  `Upgrade`: the bound, the tallies, what happens to each agent, and what a
  second run does.
- `literal_reading.dfy` (module `LiteralReading`) models the literal reading
  of line 53 (see Findings).

Collaborators whose code is not part of this model are fields of the `Config`
datatype, and the lemmas hold for every choice of them:

- the old derivation, `intoSubAccountTruncating`;
- the new derivation, `generateProxyDelegator`;
- `migrationAccepted`, which decides whether `do_migrate_delegation` succeeds.
  It is a function of the ledger, the source, the destination and the amount.

The contract of `do_migrate_delegation` is an assumption about code outside
this model (`MoveDelegation`, `Pallet.DoMigrateDelegation`):

- The move is atomic. On failure nothing changes, even though lines 48-52 wrap
  the call in no storage transaction.
- On success the old record is gone and the amount is credited to the new
  proxy, on top of any record the new proxy already held.

Under this contract the migration conserves the ledger's total amount
(`UpgradeConservesTotal`).

The per-agent lemmas need one more assumption, `Separated`: the two derivations
do not collide on the visited agents. The old derivation at line 39 hashes
nothing. `into_sub_account_truncating` encodes the pallet id, the tag and the
agent, and keeps only as many leading bytes as an account id has. So for the
old proxies, `Separated` assumes that the visited agents differ within the
bytes that survive the truncation. For the new derivation, whose code is not
part of this model, it is assumed outright.

Line 53 writes `.map(success += 1)`, which passes the value `()` where a closure
is expected. The model follows the closure reading: `success` counts the
successful moves and `fails` the failed ones. These are mutually exclusive,
which is what the summary message at line 69 reports.

Two results are fixed whatever the migration did:

- Weight: the code returns `Weight::default()`, a zero cost however many reads
  and writes were done. The model returns `ZeroWeight`.
- `post_upgrade` checks nothing, not even that delegated totals are conserved.
  It returns `Ok(())` for any input, and so does `PostUpgrade`.

## Model

| member | source | states |
|---|---|---|
| `Migration.Take` | substrate/frame/delegated-staking/src/migration.rs:41 | the visited agents are exactly the first min(number of agents, `MaxAgents`) of the enumeration, in its order |
| `Migration.MoveDelegation` | substrate/frame/delegated-staking/src/migration.rs:48-52 | assumed effect of a successful move: the old proxy loses its record, the full amount is credited to the new proxy on top of what it held, every other account is unchanged |
| `Migration.Pallet.DoMigrateDelegation` | substrate/frame/delegated-staking/src/migration.rs:48-52 | the move is atomic: it succeeds exactly when the ledger accepts it; on success the ledger is `MoveDelegation` of the old one, on failure it is unchanged |
| `Migration.Pallet.OnRuntimeUpgrade` | substrate/frame/delegated-staking/src/migration.rs:33-75 | the loop always completes and returns zero weight. The ledger afterwards is the one `Upgrade` specifies. The log is one failure line per failed move, then one summary line with the two counters. The `u32` counters never overflow (a loop invariant bounds their sum by the number of visited agents) |
| `Migration.PostUpgrade` | substrate/frame/delegated-staking/src/migration.rs:78-80 | `post_upgrade` returns `Ok(())` whatever data it is given |
| `MigrationProperties.RunTallies` | substrate/frame/delegated-staking/src/migration.rs:41-65 | a scan appends exactly one outcome per agent, in order. `success` is the number of successful moves and `fails` the number of failed ones, one log line each. Their sum grows by at most one per agent |
| `MigrationProperties.UpgradeTally` | substrate/frame/delegated-staking/src/migration.rs:35-63 | exactly min(number of agents, `MaxAgents`) agents are visited. `success` and `fails` count disjoint outcomes. `success + fails <= MaxAgents < 2^32`, so the `u32` counters cannot overflow |
| `MigrationProperties.UpgradeIgnoresLaterAgents` | substrate/frame/delegated-staking/src/migration.rs:41 | agents past the bound are never looked at: appending agents past the bound does not change the run's ledger, counters, outcomes or log |
| `MigrationProperties.ScanKeepsInvariant` | substrate/frame/delegated-staking/src/migration.rs:41-65 | after each prefix of the scan, each visited agent's outcome matches the ledger, no account outside the visited agents' proxies has changed, and `success + fails` counts the visited agents whose old proxy had a record |
| `MigrationProperties.UpgradeMovesRecords` | substrate/frame/delegated-staking/src/migration.rs:42-64 | an agent is skipped if and only if its old proxy has no record. A skip moves nothing: neither of its proxies changes and no counter changes. A moved agent's full amount is credited to its new proxy and its old record is gone. A failed agent's two proxies are as they were, and the scan goes on. Other accounts are unchanged. `success + fails` equals the number of visited agents that had a record |
| `MigrationProperties.UpgradeConservesTotal` | substrate/frame/delegated-staking/src/migration.rs:44-52 | whatever moves succeed or fail, the sum of all recorded amounts after the run equals the sum before, provided no visited agent's old proxy is also its new proxy |
| `MigrationProperties.MoveConservesTotal` | substrate/frame/delegated-staking/src/migration.rs:48-52 | moving a whole record to a different account leaves the ledger's total unchanged |
| `MigrationProperties.RecordCountMatches` | substrate/frame/delegated-staking/src/migration.rs:44 | counting agents whose old proxy has a record equals counting any outcome sequence that matches that test position by position |
| `MigrationProperties.RerunRetriesOnlyFailures` | substrate/frame/delegated-staking/src/migration.rs:28-29 | assuming a failed move changes nothing, a second run on the migrated ledger skips every agent that was migrated or skipped the first time, and attempts again exactly those whose move failed. So its `success + fails` equals the first run's `fails` |
| `LiteralReading.StepAsWritten` | substrate/frame/delegated-staking/src/migration.rs:53 | under the literal reading, every agent with a record increments `success` before the move's result is known. The ledger and `fails` are as in the closure reading |
| `LiteralReading.AsWrittenCountsRejectedMoveTwice` | substrate/frame/delegated-staking/src/migration.rs:53-63 | a rejected move increments both counters under the literal reading, and only `fails` under the closure reading |
| `LiteralReading.AsWrittenCounterexample` | substrate/frame/delegated-staking/src/migration.rs:53-63 | concrete case: one agent whose old proxy holds 50 and whose move is rejected gives success 1 and fails 1 as written, and success 0 and fails 1 with the record kept under the closure reading |

## Left out

- Account derivation: the truncated encoding of line 39 and `generate_proxy_delegator` (line 46) are arbitrary deterministic functions in `Config`. The new derivation's code is not part of this model.
- `do_migrate_delegation` internals (holds, agent ledger bookkeeping, the reasons it may fail) are not part of this model. Only the assumed atomic contract described above is modelled.
- `MigrationProperties.UpgradeMovesRecords`: proved only under `Separated`, the assumption that derived accounts do not collide. With collisions, a later move could write to an earlier agent's proxies.
- `MigrationProperties.RerunRetriesOnlyFailures`: proved only under `Separated`, for the same reason. It also assumes that a failed move changes nothing (the atomicity of `do_migrate_delegation`), since lines 48-52 use no storage transaction and a callee that wrote and then failed would break the retry claim. It also assumes the second run sees the same enumeration, which the migration itself never changes.
- `Migration.MoveDelegation`: credits the amount to the new proxy. The callee's code is not part of this model and may instead overwrite a record already at the destination. The two agree when the destination holds no record, and conservation (`UpgradeConservesTotal`) relies on the crediting reading.
- Logging: the text and severity of log lines are not modelled. Only the entries and their order are: one line per failure, then the summary.
- Storage plumbing: the hash order of `Agents::iter_keys` is a given sequence, `Delegation::get` is a map lookup that keeps only the amount, and `Weight` is a two-field record.
- Balances are unbounded naturals. The only arithmetic is the credit in `MoveDelegation`, and a `u128` overflow of that sum is not modelled.
- Trait and generic scaffolding (`OnRuntimeUpgrade`, `PhantomData`, `Get<u32>`, the unused `UncheckedOnRuntimeUpgrade` import) and the `try-runtime` feature gate on `post_upgrade`.

## Findings

| source | as written | input that shows it | evidently intended | confidence | as-written member | corrected member |
|---|---|---|---|---|---|---|
| substrate/frame/delegated-staking/src/migration.rs:53 | `.map(success += 1)` does not compile: `Result::map` needs a closure, and `success += 1` has type `()`. (The log at line 59 also uses `old_proxy` after line 49 moved it.) If the increment were accepted and evaluated before `map`, every agent with a record would bump `success`, so a rejected move would be counted in both `success` and `fails` | one agent whose old proxy holds 50 and whose `do_migrate_delegation` fails: success 1, fails 1 | a closure that increments `success` only on `Ok`: exactly one of the two counters grows per attempted agent, as the summary at line 69 reports | medium; not executed | `LiteralReading.AsWrittenCounterexample` | `MigrationProperties.UpgradeMovesRecords` |
