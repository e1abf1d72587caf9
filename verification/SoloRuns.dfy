/** Runs of a domain with a single operator that is never rewarded, built up call by call. */
module SoloRuns {
  import opened StakingTypes
  import opened OperatorPool
  import opened DomainStaking
  import opened DomainInvariant
  import opened Runs
  import opened StakingRuns
  import EpochTransition
  import PoolInvariant

  ghost predicate Solo(d: Domain, p: Pool, epoch: nat, head: nat) {
    d.operators == map[0 := p] && d.epoch == epoch && d.head == head && d.rewards == map[] && d.pendingSlash == {}
  }

  /** Some run leads to a domain that has only the pool `p`, in the given epoch at the given head. */
  ghost predicate Occurs(config: Config, p: Pool, epoch: nat, head: nat) {
    exists d :: Reachable(d, Start(), StepOf(config)) && Solo(d, p, epoch, head)
  }

  lemma ReachableOk(config: Config, d: Domain)
    requires ConfigOk(config) && Reachable(d, Start(), StepOf(config))
    ensures Inv(d, config)
  {
    var run :| IsRun(run, Start(), StepOf(config)) && run[|run| - 1] == d;
    RunInvariant(run, config, |run| - 1);
  }

  lemma OccursOk(config: Config, p: Pool, epoch: nat, head: nat)
    requires ConfigOk(config) && Occurs(config, p, epoch, head) && !p.status.Slashed?
    ensures PoolInvariant.Inv(p, config, epoch, head)
  {
    var d :| Reachable(d, Start(), StepOf(config)) && Solo(d, p, epoch, head);
    ReachableOk(config, d);
    assert OperatorOk(d, 0) && Live(d, 0);
  }

  lemma Then(config: Config, d: Domain, d': Domain, step: Step, p': Pool, epoch: nat, head: nat)
    requires Reachable(d, Start(), StepOf(config)) && Next(d, d', config, step) && Timely(d, step)
    requires Solo(d', p', epoch, head)
    ensures Occurs(config, p', epoch, head)
  {
    assert StepOf(config)(d, d');
    StepReachable(d, d', Start(), StepOf(config));
  }

  lemma Registers(config: Config, owner: AccountId, amount: nat, minStake: nat, tax: Percent)
    requires config.minOperatorStake <= amount
    ensures Occurs(config, OperatorPool.Register(owner, amount, minStake, tax, 0), 0, 0)
  {
    var d := EmptyDomain();
    StartReachable(d, Start(), StepOf(config));
    var p := OperatorPool.Register(owner, amount, minStake, tax, 0);
    var d' := DomainStaking.Register(d, config, owner, amount, minStake, tax).value;
    Then(config, d, d', RegisterStep(owner, amount, minStake, tax), p, 0, 0);
  }

  lemma Nominates(config: Config, p: Pool, p': Pool, epoch: nat, head: nat, n: AccountId, amount: nat)
    requires Occurs(config, p, epoch, head) && epoch !in p.prices
    requires OperatorPool.Nominate(p, epoch, false, n, amount) == Ok(p')
    ensures Occurs(config, p', epoch, head)
  {
    var d :| Reachable(d, Start(), StepOf(config)) && Solo(d, p, epoch, head);
    Then(config, d, SetPool(d, 0, p'), NominateStep(0, n, amount), p', epoch, head);
  }

  lemma Withdraws(config: Config, p: Pool, p': Pool, epoch: nat, head: nat, n: AccountId, shares: nat)
    requires Occurs(config, p, epoch, head)
    requires OperatorPool.Withdraw(p, config, epoch, head, false, None, n, shares) == Ok(p')
    ensures Occurs(config, p', epoch, head)
  {
    var d :| Reachable(d, Start(), StepOf(config)) && Solo(d, p, epoch, head);
    var d' := DomainStaking.Withdraw(d, config, 0, n, shares).value;
    Then(config, d, d', WithdrawStep(0, n, shares), p', epoch, head);
  }

  lemma Deregisters(config: Config, p: Pool, epoch: nat, head: nat)
    requires Occurs(config, p, epoch, head) && p.status.Registered?
    ensures Occurs(config, p.(status := Deregistered(epoch, head + config.lockingPeriod)), epoch, head)
  {
    var d :| Reachable(d, Start(), StepOf(config)) && Solo(d, p, epoch, head);
    var d' := Deregister(d, config, p.owner, 0).value;
    Then(config, d, d', DeregisterStep(p.owner, 0), p.(status := Deregistered(epoch, head + config.lockingPeriod)),
         epoch, head);
  }

  lemma Advances(config: Config, p: Pool, epoch: nat, head: nat, head': nat)
    requires Occurs(config, p, epoch, head) && head <= head'
    ensures Occurs(config, p, epoch, head')
  {
    var d :| Reachable(d, Start(), StepOf(config)) && Solo(d, p, epoch, head);
    Then(config, d, d.(head := head'), AdvanceStep(head'), p, epoch, head');
  }

  lemma SoloLeaves(d: Domain, p: Pool, p': Pool, epoch: nat, head: nat, n: AccountId)
    requires Solo(d, p, epoch, head) && OperatorPool.UnlockNominator(p, epoch, head, false, n) == Ok(p')
    requires p'.deposits != map[]
    ensures DomainStaking.UnlockNominator(d, 0, n) == Ok(SetPool(d, 0, p')) && n in p.deposits
  {}

  lemma SoloMayLeave(config: Config, d: Domain, p: Pool, epoch: nat, head: nat, n: AccountId)
    requires ConfigOk(config) && Reachable(d, Start(), StepOf(config)) && Solo(d, p, epoch, head)
    requires p.status.Deregistered? && p.status.epoch < epoch && n in p.deposits
    ensures CanLeave(d, 0, n)
  {
    ReachableOk(config, d);
    CanLeaveLater(d, config, 0, n);
  }

  /** A nominator leaves in a later epoch than that of the deregistration, and is not the last one. */
  lemma Leaves(config: Config, p: Pool, p': Pool, epoch: nat, head: nat, n: AccountId)
    requires ConfigOk(config) && Occurs(config, p, epoch, head)
    requires OperatorPool.UnlockNominator(p, epoch, head, false, n) == Ok(p') && p.status.Deregistered?
    requires p.status.epoch < epoch && p'.deposits != map[]
    ensures Occurs(config, p', epoch, head)
  {
    var d :| Reachable(d, Start(), StepOf(config)) && Solo(d, p, epoch, head);
    SoloLeaves(d, p, p', epoch, head, n);
    SoloMayLeave(config, d, p, epoch, head, n);
    Then(config, d, SetPool(d, 0, p'), UnlockNominatorStep(0, n), p', epoch, head);
  }

  lemma SoloSlashed(config: Config, d: Domain, p: Pool, epoch: nat, head: nat)
    requires ConfigOk(config) && Reachable(d, Start(), StepOf(config)) && Solo(d, p, epoch, head) && !p.status.Slashed?
    ensures MarkSlashed(d, 0).Ok? && Solo(MarkSlashed(d, 0).value, p.(status := Slashed), epoch, head)
  {
    ReachableOk(config, d);
    assert OperatorOk(d, 0);
    MarkSlashedKeeps(d, config, 0);
  }

  lemma GetsSlashed(config: Config, p: Pool, epoch: nat, head: nat)
    requires ConfigOk(config) && Occurs(config, p, epoch, head) && !p.status.Slashed?
    ensures Occurs(config, p.(status := Slashed), epoch, head)
  {
    var d :| Reachable(d, Start(), StepOf(config)) && Solo(d, p, epoch, head);
    SoloSlashed(config, d, p, epoch, head);
    Then(config, d, MarkSlashed(d, 0).value, MarkSlashedStep(0), p.(status := Slashed), epoch, head);
  }

  lemma SoloEnds(d: Domain, p: Pool, p': Pool, epoch: nat, head: nat)
    requires SetsOk(d) && Solo(d, p, epoch, head)
    requires if p.status.Slashed? then p' == p else Finalize(p, epoch) == Ok(p')
    ensures EndEpoch(d, 0).Some? && Solo(EndEpoch(d, 0).value, p', epoch + 1, head)
  {
    assert OperatorOk(d, 0);
    EpochTransition.StayingRegistered(d);
    if Live(d, 0) {
      EpochTransition.EveryLivePoolPriced(d, 0, 0);
    }
    assert FinalizedPool(d, 0, 0) == Ok(p');
    assert FinalizedPools(d, 0) == map[0 := p'];
  }

  /** The end of an epoch finalizes the pool, unless its operator is slashed. */
  lemma EndsEpoch(config: Config, p: Pool, p': Pool, epoch: nat, head: nat)
    requires ConfigOk(config) && Occurs(config, p, epoch, head)
    requires if p.status.Slashed? then p' == p else Finalize(p, epoch) == Ok(p')
    ensures Occurs(config, p', epoch + 1, head)
  {
    var d :| Reachable(d, Start(), StepOf(config)) && Solo(d, p, epoch, head);
    ReachableOk(config, d);
    SoloEnds(d, p, p', epoch, head);
    Then(config, d, EndEpoch(d, 0).value, EndEpochStep(0), p', epoch + 1, head);
  }
}
