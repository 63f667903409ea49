/**
 * Line 53 of migration.rs writes `.map(success += 1)`. As written this does
 * not type-check: `Result::map` takes a closure, and `success += 1` is an
 * expression of type `()`. (The log at line 59 also uses `old_proxy` after
 * line 49 moved it into `Delegator::from`.) If the text were accepted with
 * the increment evaluated before `map` is called, every agent whose old
 * proxy has a record would bump `success` before the move's result is
 * known, and a failed move would then bump `fails` too. This module models
 * that reading and exhibits the double count; the rest of the model uses
 * the closure reading (`Migration.Step`).
 */
module LiteralReading {
  import opened Migration

  /** One iteration under the literal reading of line 53. */
  function StepAsWritten(c: Config, s: RunState, agent: AccountId): (r: RunState)
    ensures OldProxyDelegator(c, agent) in s.ledger ==> r.success == s.success + 1
    ensures r.ledger == Step(c, s, agent).ledger && r.fails == Step(c, s, agent).fails
  {
    var oldProxy := OldProxyDelegator(c, agent);
    if oldProxy !in s.ledger then
      s.(outcomes := s.outcomes + [NoRecord])
    else
      var newProxy := NewProxyDelegator(c, agent);
      var amount := s.ledger[oldProxy];
      var counted := s.(success := s.success + 1);
      if c.migrationAccepted(s.ledger, Delegator(oldProxy), Delegator(newProxy), amount) then
        counted.(ledger := MoveDelegation(s.ledger, oldProxy, newProxy, amount),
                 outcomes := s.outcomes + [Migrated])
      else
        counted.(fails := s.fails + 1,
                 outcomes := s.outcomes + [MoveFailed],
                 log := s.log + [MigrationFailed(agent, oldProxy)])
  }

  /**
   * The rejected move of a recorded agent is counted as both a success and
   * a failure under the literal reading, so `success + fails` grows by two
   * for one agent; under the closure reading it grows by one, as a failure.
   */
  lemma AsWrittenCountsRejectedMoveTwice(c: Config, s: RunState, agent: AccountId)
    requires OldProxyDelegator(c, agent) in s.ledger
    requires !c.migrationAccepted(s.ledger, Delegator(OldProxyDelegator(c, agent)),
                                  Delegator(NewProxyDelegator(c, agent)),
                                  s.ledger[OldProxyDelegator(c, agent)])
    ensures StepAsWritten(c, s, agent).success == s.success + 1
    ensures StepAsWritten(c, s, agent).fails == s.fails + 1
    ensures Step(c, s, agent).success == s.success
    ensures Step(c, s, agent).fails == s.fails + 1
  {
  }

  /**
   * A concrete instance: one agent (account 7) whose old proxy holds 50 and
   * whose move is rejected. The literal reading reports success 1 and
   * fails 1 for a single agent; the closure reading reports success 0 and
   * fails 1, with the record left in place.
   */
  lemma AsWrittenCounterexample()
    ensures var c := Config([0, 0, 0, 0, 0, 0, 0, 0],
                            (p: PalletId, t: AccountType, a: AccountId) => a + 1,
                            (a: Agent) => a.get + 1000,
                            (l: map<AccountId, Balance>, f: Delegator, t: Delegator, x: Balance) => false);
            var s := Init(map[8 := 50]);
            StepAsWritten(c, s, 7).success == 1 && StepAsWritten(c, s, 7).fails == 1 &&
            Step(c, s, 7) == RunState(map[8 := 50], 0, 1, [MoveFailed], [MigrationFailed(7, 8)])
  {
  }
}
