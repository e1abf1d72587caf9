/** What every run of the staking pallet keeps, read off the invariant one promise at a time. */
module StakingTheorems {
  import opened ReceiptTypes
  import opened StakingTypes
  import opened OperatorPool
  import opened DomainStaking
  import opened DomainInvariant
  import opened MapSums
  import opened PoolBoundary
  import opened Splitting
  import opened Runs
  import opened StakingRuns
  import PoolInvariant
  import EpochTransition
  import SharePrice
  import StakingRefusals

  ghost predicate Reached(run: seq<Domain>, config: Config, d: Domain) {
    ConfigOk(config) && IsRun(run, Start(), StepOf(config)) && d in run
  }

  lemma ReachedOk(run: seq<Domain>, config: Config, d: Domain)
    requires Reached(run, config, d)
    ensures Inv(d, config)
  {
    var i :| 0 <= i < |run| && run[i] == d;
    RunInvariant(run, config, i);
  }

  /** The stake of a pool, everything promised to withdrawers at the prices of their own epochs and everything
      paid out never exceed the deposits finalized into the pool and its net rewards. */
  lemma NoValueFromNothing(run: seq<Domain>, config: Config, d: Domain, id: OperatorId)
    requires Reached(run, config, d) && Live(d, id)
    ensures var p := d.operators[id];
            p.totalStake + Total(p.withdrawals, PoolInvariant.PromisedIn(p.prices, d.epoch)) + p.released <= p.credited
  {
    ReachedOk(run, config, d);
  }

  /** All shares known, priced but not converted, or waiting in this epoch's withdrawals are backed. */
  lemma SharesAccountedFor(run: seq<Domain>, config: Config, d: Domain, id: OperatorId)
    requires Reached(run, config, d) && Live(d, id)
    ensures var p := d.operators[id];
            && Total(p.deposits, PoolInvariant.ClaimIn(p.prices)) + Total(p.withdrawals, PoolInvariant.OpenAt(d.epoch))
               <= p.totalShares <= p.totalStake
            && p.depositsInEpoch == Total(p.deposits, PoolInvariant.UnpricedIn(p.prices))
            && p.withdrawalsInEpoch == Total(p.withdrawals, PoolInvariant.OpenAt(d.epoch))
            && (!p.ownerLeft ==> SharePrice.New(p.totalShares, p.totalStake).Ok?)
            && (p.ownerLeft ==> p.status.Deregistered?)
  {
    ReachedOk(run, config, d);
    assert OperatorOk(d, id);
    if !d.operators[id].ownerLeft {
      PoolInvariant.PriceExists(d.operators[id], config, d.epoch, d.head);
    }
  }

  /** No lazy conversion of a deposit or a withdrawal ever misses its share price. */
  lemma PricesAvailable(run: seq<Domain>, config: Config, d: Domain, id: OperatorId, n: AccountId)
    requires Reached(run, config, d) && Live(d, id)
    ensures var p := d.operators[id];
            && ConvertDeposit(p.prices, DepositOf(p.deposits, n), d.epoch).Ok?
            && ConvertWithdrawal(p.prices, WithdrawalOf(p.withdrawals, n), d.epoch).Ok?
  {
    ReachedOk(run, config, d);
    PoolInvariant.ConversionsSucceed(d.operators[id], config, d.epoch, d.head, n);
  }

  /** An epoch ends unless a live pool that everybody with shares has left still has something to move; such a pool is
      deregistered, and its owner is gone. */
  lemma EpochsEnd(run: seq<Domain>, config: Config, d: Domain, chainRewards: nat)
    requires Reached(run, config, d)
    ensures EndEpoch(d, chainRewards).Some? <==>
            forall id :: Live(d, id) && d.operators[id].totalShares == 0 ==>
              Idle(d.operators[id]) && TaxDue(d.operators[id], FullReward(d, id, chainRewards)) == 0
    ensures forall id :: Live(d, id) && d.operators[id].totalShares == 0 ==>
              d.operators[id].status.Deregistered? && d.operators[id].ownerLeft
  {
    ReachedOk(run, config, d);
    EpochTransition.EpochEndsIff(d, config, chainRewards);
    forall id | Live(d, id) && d.operators[id].totalShares == 0
      ensures d.operators[id].status.Deregistered? && d.operators[id].ownerLeft
    {
      SharesAccountedFor(run, config, d, id);
    }
  }

  /** A pool that everybody with shares has left stays without: while its operator is live, nobody gets anything out of
      it any more. */
  lemma NoSharesStrand(run: seq<Domain>, config: Config, i: nat, j: nat, id: OperatorId, n: AccountId)
    requires ConfigOk(config) && IsRun(run, Start(), StepOf(config)) && i <= j < |run|
    requires Live(run[i], id) && run[i].operators[id].totalShares == 0 && Live(run[j], id)
    ensures run[j].operators[id].totalShares == 0
    ensures DomainStaking.UnlockNominator(run[j], id, n).Err? && DomainStaking.UnlockFunds(run[j], id, n).Err?
  {
    StakePerShareNeverFalls(run, config, i, j, id);
    SharesAccountedFor(run, config, run[j], id);
  }

  /** The operator sets agree with the operators, and removing an operator never underflows. */
  lemma OperatorSets(run: seq<Domain>, config: Config, d: Domain, id: OperatorId)
    requires Reached(run, config, d)
    ensures id in d.next ==> id in d.operators && d.operators[id].status.Registered?
    ensures id in d.current ==> id in d.operators && d.current[id] == d.operators[id].totalStake <= d.totalStake
    ensures d.totalStake == Total(d.current, Itself())
    ensures id in d.operators ==> DropFromSets(d, id).Ok?
  {
    ReachedOk(run, config, d);
    if id in d.operators {
      assert OperatorOk(d, id);
      if id in d.current {
        TotalAtLeast(d.current, Itself(), id);
      }
    }
  }

  /** Withdrawal queues are sorted and bounded, their totals are exact, and every withdrawer still has a deposit. */
  lemma WithdrawalQueues(run: seq<Domain>, config: Config, d: Domain, id: OperatorId, n: AccountId)
    requires Reached(run, config, d) && Live(d, id) && n in d.operators[id].withdrawals
    ensures var w := d.operators[id].withdrawals[n];
            && n in d.operators[id].deposits
            && PoolInvariant.Sorted(w.queue)
            && |w.queue| + (if w.inShares.Some? then 1 else 0) <= config.withdrawalLimit
            && w.total == QueueAmount(w.queue)
            && w.totalStorageFee == QueueStorageFee(w.queue)
                                    + (if w.inShares.Some? then w.inShares.value.storageFee else 0)
  {
    ReachedOk(run, config, d);
  }

  /** The storage deposits of all nominators add up to the recorded total. */
  lemma StorageDepositsAddUp(run: seq<Domain>, config: Config, d: Domain, id: OperatorId)
    requires Reached(run, config, d) && Live(d, id)
    ensures d.operators[id].totalStorageFee == Total(d.operators[id].deposits, PoolInvariant.StorageIn())
  {
    ReachedOk(run, config, d);
  }

  /** In a registration epoch the owner is alone in the pool, the price is one, and every share and every unit of stake
      is accounted for exactly. */
  lemma RegistrationEpochExact(run: seq<Domain>, config: Config, d: Domain, id: OperatorId)
    requires Reached(run, config, d) && Live(d, id) && d.epoch in d.operators[id].prices
    ensures var p := d.operators[id];
            && PoolInvariant.Exact(p, d.epoch) && p.totalStake == p.credited
            && p.deposits.Keys == {p.owner} && p.depositsInEpoch == 0
  {
    ReachedOk(run, config, d);
  }

  /** No call is refused because a price, a share or a balance is missing. */
  lemma CallsNeverBreak(run: seq<Domain>, config: Config, d: Domain, id: OperatorId, n: AccountId, amount: nat)
    requires Reached(run, config, d)
    ensures var r := DomainStaking.Nominate(d, id, n, amount);
            r.Err? ==> r.error in {ZeroDeposit, UnknownOperator, OperatorNotRegistered, MinimumNominatorStake}
    ensures var r := DomainStaking.Withdraw(d, config, id, n, amount);
            r.Err? ==> r.error in {ZeroWithdraw, UnknownOperator, OperatorNotRegisteredOrDeactivated, UnknownNominator,
                                   TooManyWithdrawals, InsufficientShares, MinimumOperatorStake, MinimumNominatorStake}
    ensures var r := DomainStaking.UnlockFunds(d, id, n);
            r.Err? ==> r.error in {UnknownOperator, OperatorNotRegisteredOrDeactivated, MissingWithdrawal,
                                   UnlockPeriodNotComplete}
    ensures DomainStaking.UnlockNominator(d, id, n).Ok? <==> StakingRefusals.MayLeave(d, id, n)
  {
    ReachedOk(run, config, d);
    StakingRefusals.NominateRefused(d, config, id, n, amount);
    StakingRefusals.WithdrawRefused(d, config, id, n, amount);
    StakingRefusals.UnlockFundsRefused(d, config, id, n);
    StakingRefusals.UnlockNominatorRefused(d, config, id, n);
  }

  // ---- Slashed is final ----

  lemma NextPendingSlashes(d: Domain, d': Domain, config: Config, step: Step, id: OperatorId)
    requires Next(d, d', config, step) && id in d.pendingSlashes && id in d'.operators
    ensures id in d'.pendingSlashes
  {}

  /** What a later state keeps of an operator slashed in an earlier one: it is removed for good or still slashed. */
  ghost predicate StaysSlashed(a: Domain, d: Domain, id: OperatorId) {
    && a.nextId <= d.nextId
    && (id in a.pendingSlashes && id in d.operators ==> id in d.pendingSlashes)
  }

  lemma StaysSlashedNext(a: Domain, d: Domain, d': Domain, config: Config, step: Step, id: OperatorId)
    requires SetsOk(a) && SetsOk(d) && StaysSlashed(a, d, id) && Next(d, d', config, step)
    ensures StaysSlashed(a, d', id)
  {
    NextCounters(d, d', config, step);
    if id in a.pendingSlashes && id in d'.operators {
      assert OperatorOk(a, id);
      NextIds(d, d', config, step, id);
      NextPendingSlashes(d, d', config, step, id);
    }
  }

  ghost function StaysSlashedFor(id: OperatorId): (Domain, Domain) -> bool { (a, d) => StaysSlashed(a, d, id) }

  lemma StaysSlashedExtends(config: Config, id: OperatorId)
    ensures Extends(StepOf(config), InvOf(config), StaysSlashedFor(id))
  {
    forall a, d, d' | InvOf(config)(a) && InvOf(config)(d) && StaysSlashedFor(id)(a, d) && StepOf(config)(d, d')
      ensures StaysSlashedFor(id)(a, d')
    {
      var step :| Next(d, d', config, step) && Timely(d, step);
      StaysSlashedNext(a, d, d', config, step, id);
    }
  }

  /** An operator once slashed stays slashed until it is removed, and then never comes back. */
  lemma SlashedIsFinal(run: seq<Domain>, config: Config, i: nat, j: nat, id: OperatorId)
    requires ConfigOk(config) && IsRun(run, Start(), StepOf(config)) && i <= j < |run|
    requires id in run[i].operators && run[i].operators[id].status.Slashed?
    ensures id in run[j].operators ==> run[j].operators[id].status.Slashed?
  {
    InvInductive(config);
    StaysSlashedExtends(config, id);
    Progress(run, Start(), StepOf(config), InvOf(config), StaysSlashedFor(id), i, j);
    assert StaysSlashedFor(id)(run[i], run[j]);
    RunInvariant(run, config, i);
    RunInvariant(run, config, j);
    assert OperatorOk(run[i], id);
    if id in run[j].operators {
      assert OperatorOk(run[j], id);
    }
  }
}
