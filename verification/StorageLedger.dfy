/** Over every run, what was paid into a storage fund is in it, held for a withdrawer, or paid out. */
module StorageLedger {
  import opened ReceiptTypes
  import opened StakingTypes
  import opened OperatorPool
  import opened DomainStaking
  import opened DomainInvariant
  import opened MapSums
  import opened PoolBoundary
  import opened Runs
  import opened StakingRuns
  import EpochTransition
  import Payments
  import PoolInvariant
  import PoolSteps
  import SharePrice

  ghost function RefundIn(): Withdrawal -> nat { (w: Withdrawal) => w.totalStorageFee }

  ghost predicate Balanced(p: Pool) { p.fund + Total(p.withdrawals, RefundIn()) + p.storageOut == p.storageIn }

  // ---- One pool ----

  lemma RegisterBalances(owner: AccountId, amount: nat, minStake: nat, tax: Percent, epoch: nat)
    ensures Balanced(OperatorPool.Register(owner, amount, minStake, tax, epoch))
  {
    TotalZero(OperatorPool.Register(owner, amount, minStake, tax, epoch).withdrawals, RefundIn());
  }

  lemma WithdrawBalances(p: Pool, p': Pool, config: Config, current: nat, head: nat, pendingSlash: bool,
                         rewards: Option<nat>, n: AccountId, toWithdraw: nat)
    requires Balanced(p)
    requires OperatorPool.Withdraw(p, config, current, head, pendingSlash, rewards, n, toWithdraw) == Ok(p')
    ensures Balanced(p')
  {
    var d, shares := Payments.WithdrawPays(p, p', config, current, head, pendingSlash, rewards, n, toWithdraw);
    TotalUpdate(p.withdrawals, RefundIn(), n, p'.withdrawals[n]);
  }

  lemma PoppedBalances(p: Pool, p': Pool, config: Config, current: nat, head: nat, n: AccountId, w: Withdrawal,
                       w': Withdrawal, k: nat)
    requires Balanced(p) && PoolSteps.QueuePopped(p, p', current, n, w, w', k)
    requires PoolInvariant.QueueOk(w, config, head)
    ensures Balanced(p')
  {
    PoolSteps.QueueSplit(w.queue, k);
    TotalUpdate(p.withdrawals, RefundIn(), n, w');
    TotalRemove(p.withdrawals, RefundIn(), n);
  }

  lemma UnlockFundsBalances(p: Pool, p': Pool, config: Config, current: nat, head: nat, pendingSlash: bool,
                            n: AccountId)
    requires Balanced(p) && PoolInvariant.Inv(p, config, current, head)
    requires OperatorPool.UnlockFunds(p, current, head, pendingSlash, n) == Ok(p')
    ensures Balanced(p')
  {
    var w, w', k := PoolSteps.UnlockPops(p, p', current, head, pendingSlash, n);
    PoolInvariant.ConvertedQueueOk(p.prices, p.withdrawals[n], current, config, head);
    PoppedBalances(p, p', config, current, head, n, w, w', k);
  }

  lemma UnlockNominatorBalances(p: Pool, p': Pool, current: nat, head: nat, pendingSlash: bool, n: AccountId)
    requires Balanced(p) && OperatorPool.UnlockNominator(p, current, head, pendingSlash, n) == Ok(p')
    ensures Balanced(p')
  {
    Payments.LeavingPays(p, p', current, head, pendingSlash, n);
    TotalRemove(p.withdrawals, RefundIn(), n);
  }

  lemma SlashOneBalances(p: Pool, p': Pool, current: nat, price: nat, n: AccountId)
    requires Balanced(p) && SlashNominator(p, current, price, n) == Ok(p')
    ensures Balanced(p')
  {
    Payments.SlashPaysStorage(p, p', current, price, n);
    TotalRemove(p.withdrawals, RefundIn(), n);
  }

  lemma {:induction false} SlashEachBalances(p: Pool, current: nat, price: nat, ns: seq<AccountId>)
    requires Balanced(p) && SlashEach(p, current, price, ns).Ok?
    ensures Balanced(SlashEach(p, current, price, ns).value)
  {
    if ns != [] {
      var k := |ns| - 1;
      SlashEachBalances(p, current, price, ns[..k]);
      SlashOneBalances(SlashEach(p, current, price, ns[..k]).value, SlashEach(p, current, price, ns).value, current,
                       price, ns[k]);
    }
  }

  lemma RewardBalances(p: Pool, p': Pool, epoch: nat, reward: nat)
    requires Balanced(p) && TakeReward(p, epoch, reward) == Ok(p')
    ensures Balanced(p')
  {}

  lemma FinalizeBalances(p: Pool, p': Pool, epoch: nat)
    requires Balanced(p) && Finalize(p, epoch) == Ok(p')
    ensures Balanced(p')
  {}

  lemma BoundaryBalances(p: Pool, p': Pool, epoch: nat, reward: Option<nat>)
    requires Balanced(p) && Boundary(p, epoch, reward) == Ok(p')
    ensures Balanced(p')
  {
    if reward.None? {
      FinalizeBalances(p, p', epoch);
    } else {
      var q := TakeReward(p, epoch, reward.value).value;
      RewardBalances(p, q, epoch, reward.value);
      FinalizeBalances(q, p', epoch);
    }
  }

  // ---- The domain ----

  ghost predicate AllBalanced(d: Domain) { forall id :: id in d.operators ==> Balanced(d.operators[id]) }

  lemma DepositBalances(d: Domain, d': Domain, config: Config, step: Step)
    requires AllBalanced(d) && Next(d, d', config, step) && (step.NominateStep? || step.WithdrawStep?)
    ensures step.id in d'.operators && Balanced(d'.operators[step.id])
  {
    var id := step.id;
    var p, p' := d.operators[id], d'.operators[id];
    if step.NominateStep? {
      var storageFee := PoolSteps.NominateAdds(p, p', d.epoch, id in d.pendingSlash, step.n, step.amount);
    } else {
      WithdrawBalances(p, p', config, d.epoch, d.head, id in d.pendingSlash, RewardIn(d, id), step.n, step.shares);
    }
  }

  lemma FundsBalance(d: Domain, d': Domain, config: Config, id: OperatorId, n: AccountId)
    requires Inv(d, config) && AllBalanced(d) && DomainStaking.UnlockFunds(d, id, n) == Ok(d')
    ensures id in d'.operators && Balanced(d'.operators[id])
  {
    assert OperatorOk(d, id) && Live(d, id);
    UnlockFundsBalances(d.operators[id], d'.operators[id], config, d.epoch, d.head, id in d.pendingSlash, n);
  }

  lemma LeaverBalances(d: Domain, d': Domain, id: OperatorId, n: AccountId)
    requires AllBalanced(d) && DomainStaking.UnlockNominator(d, id, n) == Ok(d') && id in d'.operators
    ensures Balanced(d'.operators[id])
  {
    UnlockNominatorBalances(d.operators[id], d'.operators[id], d.epoch, d.head, id in d.pendingSlash, n);
  }

  lemma OthersStay(d: Domain, d': Domain, config: Config, step: Step, id: OperatorId)
    requires Next(d, d', config, step) && AtOneOperator(step) && id in d'.operators && id != step.id
    ensures id in d.operators && d'.operators[id] == d.operators[id]
  {}

  lemma CallBalances(d: Domain, d': Domain, config: Config, step: Step, id: OperatorId)
    requires Inv(d, config) && AllBalanced(d) && Next(d, d', config, step) && id in d'.operators
    requires step.NominateStep? || step.WithdrawStep? || step.UnlockFundsStep? || step.UnlockNominatorStep?
    ensures Balanced(d'.operators[id])
  {
    if id != step.id {
      OthersStay(d, d', config, step, id);
      assert Balanced(d.operators[id]);
    } else if step.NominateStep? || step.WithdrawStep? {
      DepositBalances(d, d', config, step);
    } else if step.UnlockFundsStep? {
      FundsBalance(d, d', config, id, step.n);
    } else {
      LeaverBalances(d, d', id, step.n);
    }
  }

  lemma DrainBalances(d: Domain, d': Domain, config: Config, step: Step, id: OperatorId)
    requires AllBalanced(d) && step.DrainStep? && Next(d, d', config, step) && id in d'.operators
    ensures Balanced(d'.operators[id])
  {
    var p := d.operators[step.id];
    if id == step.id {
      SlashEachBalances(p, d.epoch, SharePrice.New(p.totalShares, p.totalStake).value, step.ns);
    } else {
      OthersStay(d, d', config, step, id);
      assert Balanced(d.operators[id]);
    }
  }

  lemma EndEpochBalances(d: Domain, d': Domain, chainRewards: nat, id: OperatorId)
    requires SetsOk(d) && AllBalanced(d) && EndEpoch(d, chainRewards) == Some(d') && id in d'.operators
    ensures Balanced(d'.operators[id])
  {
    assert Balanced(d.operators[id]);
    if Live(d, id) {
      EpochTransition.EndEpochPool(d, d', chainRewards, id);
      BoundaryBalances(d.operators[id], d'.operators[id], d.epoch, FullReward(d, id, chainRewards));
    } else {
      EpochTransition.EndEpochOthers(d, d', chainRewards, id);
    }
  }

  lemma StatusBalances(d: Domain, d': Domain, config: Config, step: Step, id: OperatorId)
    requires SetsOk(d) && AllBalanced(d) && Next(d, d', config, step) && id in d'.operators
    requires step.DeregisterStep? || step.DeactivateStep? || step.ReactivateStep? || step.MarkSlashedStep?
             || step.MarkInvalidStep? || step.UnmarkInvalidStep?
    ensures Balanced(d'.operators[id])
  {
    StatusStepChanges(d, d', config, step);
    if d' != d && id != step.id {
      assert SameFor(d, d', id);
    }
    assert Balanced(d.operators[id]);
  }

  lemma OtherBalances(d: Domain, d': Domain, config: Config, step: Step, id: OperatorId)
    requires AllBalanced(d) && Next(d, d', config, step) && id in d'.operators
    requires step.RegisterStep? || step.RewardStep? || step.AdvanceStep? || step.FundStep? || step.PendingStep?
    ensures Balanced(d'.operators[id])
  {
    if step.RegisterStep? && id == d.nextId {
      RegisterBalances(step.owner, step.amount, step.minStake, step.tax, d.epoch);
    } else {
      assert Balanced(d.operators[id]);
    }
  }

  lemma NextBalances(d: Domain, d': Domain, config: Config, step: Step)
    requires Inv(d, config) && AllBalanced(d) && Next(d, d', config, step)
    ensures AllBalanced(d')
  {
    forall id | id in d'.operators
      ensures Balanced(d'.operators[id])
    {
      if step.NominateStep? || step.WithdrawStep? || step.UnlockFundsStep? || step.UnlockNominatorStep? {
        CallBalances(d, d', config, step, id);
      } else if step.DrainStep? {
        DrainBalances(d, d', config, step, id);
      } else if step.EndEpochStep? {
        EndEpochBalances(d, d', step.chainRewards, id);
      } else if step.RegisterStep? || step.RewardStep? || step.AdvanceStep? || step.FundStep? || step.PendingStep? {
        OtherBalances(d, d', config, step, id);
      } else {
        StatusBalances(d, d', config, step, id);
      }
    }
  }

  ghost function LedgerOf(config: Config): Domain -> bool { d => Inv(d, config) && AllBalanced(d) }

  /** Over every run, slashed or not, the fund of an operator, the refunds held for its withdrawers and everything that
      was paid out add up to what was paid in. */
  lemma StorageNeverLost(run: seq<Domain>, config: Config, i: nat, id: OperatorId)
    requires ConfigOk(config) && IsRun(run, Start(), StepOf(config)) && i < |run| && id in run[i].operators
    ensures var p := run[i].operators[id];
            p.fund + Total(p.withdrawals, RefundIn()) + p.storageOut == p.storageIn
  {
    EmptyOk(config);
    forall d, d' | LedgerOf(config)(d) && StepOf(config)(d, d')
      ensures LedgerOf(config)(d')
    {
      var step :| Next(d, d', config, step) && Timely(d, step);
      NextKeeps(d, d', config, step);
      NextBalances(d, d', config, step);
    }
    Invariance(run, Start(), StepOf(config), LedgerOf(config), i);
    assert LedgerOf(config)(run[i]);
    assert Balanced(run[i].operators[id]);
  }
}
