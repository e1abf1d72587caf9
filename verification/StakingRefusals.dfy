/** Why the calls of a sound domain are refused: never because a price, a share or a balance is missing. */
module StakingRefusals {
  import opened ReceiptTypes
  import opened StakingTypes
  import opened OperatorPool
  import opened DomainStaking
  import opened DomainInvariant
  import PoolInvariant
  import PoolRules
  import PoolSteps

  /** An operator registers exactly with at least the minimum stake. It then has an id never used before, what it asked
      for, and its place among the next operators. */
  lemma RegisterGranted(d: Domain, config: Config, owner: AccountId, amount: nat, minStake: nat, tax: Percent)
    requires Inv(d, config)
    ensures var r := DomainStaking.Register(d, config, owner, amount, minStake, tax);
            && (r.Ok? <==> amount >= config.minOperatorStake)
            && (r.Ok? ==>
                  && d.nextId !in d.operators && d.nextId in r.value.operators && d.nextId in r.value.next
                  && d.nextId !in r.value.current && r.value.operators - {d.nextId} == d.operators
                  && r.value.operators[d.nextId].owner == owner && r.value.operators[d.nextId].tax == tax
                  && r.value.operators[d.nextId].minNominatorStake == minStake)
  {
    assert d.nextId in d.operators ==> OperatorOk(d, d.nextId);
    assert d.operators[d.nextId := OperatorPool.Register(owner, amount, minStake, tax, d.epoch)] - {d.nextId}
        == d.operators - {d.nextId};
  }

  /** An owner deregisters exactly its own live operator that is registered or deactivated: it leaves the next
      operators, and its stake unlocks when the locking period is over. */
  lemma DeregisterGranted(d: Domain, config: Config, who: AccountId, id: OperatorId)
    requires Inv(d, config)
    ensures var r := Deregister(d, config, who, id);
            && (r.Ok? <==> Live(d, id) && d.operators[id].owner == who
                           && (d.operators[id].status.Registered? || d.operators[id].status.Deactivated?))
            && (r.Ok? ==>
                  && id in r.value.operators && id !in r.value.next && r.value.current == d.current
                  && r.value.operators[id].status == Deregistered(d.epoch, d.head + config.lockingPeriod))
  {}

  /** A deactivated operator comes back exactly when its delay is over, and joins the next operators. */
  lemma ReactivateGranted(d: Domain, config: Config, id: OperatorId)
    requires Inv(d, config)
    ensures var r := Reactivate(d, id);
            && (r.Ok? <==>
                  Live(d, id) && d.operators[id].status.Deactivated? && d.operators[id].status.until <= d.epoch)
            && (r.Ok? ==> id in r.value.operators && r.value.operators[id].status.Registered? && id in r.value.next
                          && id !in r.value.current)
  {
    if id in d.operators {
      assert OperatorOk(d, id);
    }
  }

  /** A registered operator is deactivated at once: it leaves both operator sets and is away until the delay is over. */
  lemma DeactivateGranted(d: Domain, config: Config, id: OperatorId)
    requires Inv(d, config)
    ensures var r := Deactivate(d, config, id);
            && (r.Ok? <==> Live(d, id) && d.operators[id].status.Registered?)
            && (r.Ok? ==> id in r.value.operators && id !in r.value.next && id !in r.value.current
                          && r.value.operators[id].status == Deactivated(d.epoch + config.activationDelay))
  {
    DeactivateKeeps(d, config, id);
  }

  lemma NominateRefused(d: Domain, config: Config, id: OperatorId, n: AccountId, amount: nat)
    requires Inv(d, config)
    ensures var r := DomainStaking.Nominate(d, id, n, amount);
            r.Err? ==> r.error in {ZeroDeposit, UnknownOperator, OperatorNotRegistered, MinimumNominatorStake}
  {
    if Live(d, id) {
      PoolInvariant.ConversionsSucceed(d.operators[id], config, d.epoch, d.head, n);
    }
  }

  lemma WithdrawRefused(d: Domain, config: Config, id: OperatorId, n: AccountId, shares: nat)
    requires Inv(d, config)
    ensures var r := DomainStaking.Withdraw(d, config, id, n, shares);
            r.Err? ==> r.error in {ZeroWithdraw, UnknownOperator, OperatorNotRegisteredOrDeactivated, UnknownNominator,
                                   TooManyWithdrawals, InsufficientShares, MinimumOperatorStake, MinimumNominatorStake}
  {
    if id in d.operators && RegisteredOrDeactivated(StatusIn(d, id)) {
      assert OperatorOk(d, id);
      assert Live(d, id);
      PoolSteps.WithdrawFailsOnlyOnRequest(d.operators[id], config, d.epoch, d.head, id in d.pendingSlash,
                                           RewardIn(d, id), n, shares);
    }
  }

  lemma UnlockFundsRefused(d: Domain, config: Config, id: OperatorId, n: AccountId)
    requires Inv(d, config)
    ensures var r := DomainStaking.UnlockFunds(d, id, n);
            r.Err? ==> r.error in {UnknownOperator, OperatorNotRegisteredOrDeactivated, MissingWithdrawal,
                                   UnlockPeriodNotComplete}
  {
    if Live(d, id) {
      PoolRules.UnlockFailsOnlyOnRequest(d.operators[id], config, d.epoch, d.head, id in d.pendingSlash, n);
    }
  }

  /** The operator has deregistered, its unlock block has come, and the nominator has a deposit in a pool that still has
      shares. */
  predicate MayLeave(d: Domain, id: OperatorId, n: AccountId) {
    && id in d.operators && StatusIn(d, id).Deregistered? && StatusIn(d, id).unlockAt <= d.head
    && d.operators[id].totalShares > 0 && n in d.operators[id].deposits
  }

  /** A nominator can leave if and only if it may. */
  lemma UnlockNominatorRefused(d: Domain, config: Config, id: OperatorId, n: AccountId)
    requires Inv(d, config)
    ensures DomainStaking.UnlockNominator(d, id, n).Ok? <==> MayLeave(d, id, n)
  {
    if id in d.operators && StatusIn(d, id).Deregistered? && StatusIn(d, id).unlockAt <= d.head {
      assert OperatorOk(d, id);
      assert Live(d, id);
      PoolSteps.UnlockNominatorSucceeds(d.operators[id], config, d.epoch, d.head, id in d.pendingSlash, n);
    }
  }
}
