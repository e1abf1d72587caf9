/** The life of an operator and of a withdrawal: which statuses follow which, and how long everything is locked. */
module LifeCycle {
  import opened ReceiptTypes
  import opened StakingTypes
  import opened OperatorPool
  import opened DomainStaking
  import opened DomainInvariant
  import opened Runs
  import opened StakingRuns
  import EpochTransition
  import PoolBoundary
  import PoolInvariant
  import PoolSteps
  import SlashRuns

  /** The statuses that can follow `s` in one step, in the epoch and at the head of `d`. */
  ghost predicate Follows(s: OperatorStatus, s': OperatorStatus, d: Domain, config: Config) {
    || s' == s
    || s'.Slashed?
    || (RegisteredOrDeactivated(s) && s' == Deregistered(d.epoch, d.head + config.lockingPeriod))
    || (s.Registered? && s' == Deactivated(d.epoch + config.activationDelay))
    || (s.Deactivated? && s'.Registered? && s.until <= d.epoch)
    || (s.Registered? && s'.InvalidBundle?)
    || (s.InvalidBundle? && s'.Registered?)
  }

  lemma CallFollows(d: Domain, d': Domain, config: Config, step: Step, id: OperatorId)
    requires Next(d, d', config, step) && (step.NominateStep? || step.WithdrawStep? || step.UnlockFundsStep?)
    requires id in d.operators && id in d'.operators
    ensures d'.operators[id].status == d.operators[id].status
  {
    match step
    case NominateStep(i, n, amount) =>
      NominateFrame(d.operators[i], d'.operators[i], d.epoch, i in d.pendingSlash, n, amount);
    case WithdrawStep(i, n, shares) =>
      WithdrawFrame(d.operators[i], d'.operators[i], config, d.epoch, d.head, i in d.pendingSlash, RewardIn(d, i), n,
                    shares);
    case UnlockFundsStep(i, n) =>
      UnlockFundsFrame(d.operators[i], d'.operators[i], d.epoch, d.head, i in d.pendingSlash, n);
  }

  lemma LeaverFollows(d: Domain, d': Domain, i: OperatorId, n: AccountId, id: OperatorId)
    requires DomainStaking.UnlockNominator(d, i, n) == Ok(d') && id in d.operators && id in d'.operators
    ensures d'.operators[id].status == d.operators[id].status
  {
    if id == i {
      UnlockNominatorFrame(d.operators[i], d'.operators[i], d.epoch, d.head, i in d.pendingSlash, n);
    }
  }

  lemma DrainFollows(d: Domain, d': Domain, config: Config, step: Step, id: OperatorId)
    requires SetsOk(d) && step.DrainStep? && Next(d, d', config, step) && id in d.operators && id in d'.operators
    ensures Follows(d.operators[id].status, d'.operators[id].status, d, config)
  {
    DrainSets(d, d', step.id, step.ns, step.treasury);
    if id == step.id {
      assert OperatorOk(d', id);
    } else {
      assert SameFor(d, d', id);
    }
  }

  lemma EndEpochFollows(d: Domain, d': Domain, chainRewards: nat, id: OperatorId)
    requires SetsOk(d) && EndEpoch(d, chainRewards) == Some(d') && id in d.operators
    ensures id in d'.operators && d'.operators[id].status == d.operators[id].status
  {
    if Live(d, id) {
      EpochTransition.EndEpochPool(d, d', chainRewards, id);
      EpochTransition.BoundaryFrame(d.operators[id], d'.operators[id], d.epoch, FullReward(d, id, chainRewards));
    } else {
      EpochTransition.EndEpochOthers(d, d', chainRewards, id);
    }
  }

  lemma OwnerFollows(d: Domain, d': Domain, config: Config, step: Step, id: OperatorId)
    requires SetsOk(d) && Next(d, d', config, step) && id in d.operators && id in d'.operators
    requires step.DeregisterStep? || step.DeactivateStep? || step.ReactivateStep?
    ensures Follows(d.operators[id].status, d'.operators[id].status, d, config)
  {
    assert OperatorOk(d, step.id);
  }

  lemma MarkFollows(d: Domain, d': Domain, config: Config, step: Step, id: OperatorId)
    requires SetsOk(d) && Next(d, d', config, step) && id in d.operators && id in d'.operators
    requires step.MarkSlashedStep? || step.MarkInvalidStep? || step.UnmarkInvalidStep?
    ensures Follows(d.operators[id].status, d'.operators[id].status, d, config)
  {
    if step.MarkSlashedStep? {
      SlashFollows(d, d', config, step.id, id);
    } else if step.MarkInvalidStep? {
      InvalidFollows(d, d', config, step.id, step.receipt, id);
    }
  }

  lemma SlashFollows(d: Domain, d': Domain, config: Config, i: OperatorId, id: OperatorId)
    requires MarkSlashed(d, i) == Ok(d') && id in d.operators && id in d'.operators
    ensures Follows(d.operators[id].status, d'.operators[id].status, d, config)
  {}

  lemma InvalidFollows(d: Domain, d': Domain, config: Config, i: OperatorId, receipt: ReceiptHash, id: OperatorId)
    requires MarkInvalid(d, i, receipt) == Ok(d') && id in d.operators && id in d'.operators
    ensures Follows(d.operators[id].status, d'.operators[id].status, d, config)
  {}

  lemma OtherFollows(d: Domain, d': Domain, config: Config, step: Step, id: OperatorId)
    requires SetsOk(d) && Next(d, d', config, step) && id in d.operators && id in d'.operators
    requires step.RegisterStep? || step.RewardStep? || step.AdvanceStep? || step.FundStep? || step.PendingStep?
    ensures d'.operators[id].status == d.operators[id].status
  {
    assert OperatorOk(d, id);
    if step.RegisterStep? {
      RegisterQuiet(d, d', config, step, id);
    } else if step.RewardStep? {
      RewardQuiet(d, d', step.ids, step.amount);
    } else {
      PlainFollows(d, d', config, step, id);
    }
  }

  lemma PlainFollows(d: Domain, d': Domain, config: Config, step: Step, id: OperatorId)
    requires Next(d, d', config, step) && (step.AdvanceStep? || step.FundStep? || step.PendingStep?)
    requires id in d.operators && id in d'.operators
    ensures d'.operators[id].status == d.operators[id].status
  {}

  /** An operator deregisters from being registered or deactivated and stays deregistered; it is deactivated and marked
      when it is registered, comes back after the delay or when the mark is taken back; slashed is the end. */
  lemma StatusFollows(d: Domain, d': Domain, config: Config, step: Step, id: OperatorId)
    requires SetsOk(d) && Next(d, d', config, step) && id in d.operators && id in d'.operators
    ensures Follows(d.operators[id].status, d'.operators[id].status, d, config)
  {
    if step.NominateStep? || step.WithdrawStep? || step.UnlockFundsStep? {
      CallFollows(d, d', config, step, id);
    } else if step.UnlockNominatorStep? {
      LeaverFollows(d, d', step.id, step.n, id);
    } else if step.DrainStep? {
      DrainFollows(d, d', config, step, id);
    } else if step.EndEpochStep? {
      EndEpochFollows(d, d', step.chainRewards, id);
    } else if step.DeregisterStep? || step.DeactivateStep? || step.ReactivateStep? {
      OwnerFollows(d, d', config, step, id);
    } else if step.MarkSlashedStep? || step.MarkInvalidStep? || step.UnmarkInvalidStep? {
      MarkFollows(d, d', config, step, id);
    } else {
      OtherFollows(d, d', config, step, id);
    }
  }

  // ---- Deregistered ----

  ghost predicate StaysDeregistered(d: Domain, id: OperatorId, s: OperatorStatus) {
    id < d.nextId && (id in d.operators ==> d.operators[id].status == s || d.operators[id].status.Slashed?)
  }

  ghost function DeregisteredAs(id: OperatorId, s: OperatorStatus): Domain -> bool {
    d => StaysDeregistered(d, id, s)
  }

  lemma DeregisteredKept(config: Config, id: OperatorId, s: OperatorStatus)
    requires s.Deregistered?
    ensures Kept(StepOf(config), InvOf(config), DeregisteredAs(id, s))
  {
    forall d, d' | InvOf(config)(d) && DeregisteredAs(id, s)(d) && StepOf(config)(d, d')
      ensures DeregisteredAs(id, s)(d')
    {
      var step :| Next(d, d', config, step) && Timely(d, step);
      NextCounters(d, d', config, step);
      if id in d'.operators {
        NextIds(d, d', config, step, id);
        StatusFollows(d, d', config, step, id);
      }
    }
  }

  lemma Deregisters(d: Domain, d': Domain, config: Config, who: AccountId, id: OperatorId)
    requires SetsOk(d) && Deregister(d, config, who, id) == Ok(d')
    ensures StaysDeregistered(d', id, Deregistered(d.epoch, d.head + config.lockingPeriod))
  {
    assert OperatorOk(d, id);
  }

  lemma DeregisteredWaits(d: Domain, id: OperatorId, s: OperatorStatus, n: AccountId)
    requires StaysDeregistered(d, id, s) && s.Deregistered? && d.head < s.unlockAt
    ensures DomainStaking.UnlockNominator(d, id, n).Err?
  {}

  /** Over every run, nobody leaves the pool of an operator before the locking period after its deregistration is over.
      */
  lemma DeregistrationLocks(run: seq<Domain>, config: Config, i: nat, j: nat, who: AccountId, id: OperatorId,
                            n: AccountId)
    requires ConfigOk(config) && IsRun(run, Start(), StepOf(config)) && i < j < |run|
    requires Deregister(run[i], config, who, id) == Ok(run[i + 1])
    requires run[j].head < run[i].head + config.lockingPeriod
    ensures DomainStaking.UnlockNominator(run[j], id, n).Err?
  {
    var s := Deregistered(run[i].epoch, run[i].head + config.lockingPeriod);
    InvInductive(config);
    RunInvariant(run, config, i);
    Deregisters(run[i], run[i + 1], config, who, id);
    DeregisteredKept(config, id, s);
    assert DeregisteredAs(id, s)(run[i + 1]);
    Remains(run, Start(), StepOf(config), InvOf(config), DeregisteredAs(id, s), i + 1, j);
    assert DeregisteredAs(id, s)(run[j]);
    DeregisteredWaits(run[j], id, s, n);
  }

  // ---- Deactivated ----

  ghost predicate StaysAway(d: Domain, id: OperatorId, until: nat) {
    && id < d.nextId
    && (d.epoch < until && id in d.operators ==>
          var s := d.operators[id].status; s == Deactivated(until) || s.Deregistered? || s.Slashed?)
  }

  ghost function AwayUntil(id: OperatorId, until: nat): Domain -> bool { d => StaysAway(d, id, until) }

  lemma AwayKept(config: Config, id: OperatorId, until: nat)
    ensures Kept(StepOf(config), InvOf(config), AwayUntil(id, until))
  {
    forall d, d' | InvOf(config)(d) && AwayUntil(id, until)(d) && StepOf(config)(d, d')
      ensures AwayUntil(id, until)(d')
    {
      var step :| Next(d, d', config, step) && Timely(d, step);
      NextCounters(d, d', config, step);
      if id in d'.operators {
        NextIds(d, d', config, step, id);
        StatusFollows(d, d', config, step, id);
      }
    }
  }

  lemma Deactivates(d: Domain, d': Domain, config: Config, id: OperatorId)
    requires SetsOk(d) && Deactivate(d, config, id) == Ok(d')
    ensures StaysAway(d', id, d.epoch + config.activationDelay)
  {
    assert OperatorOk(d, id);
  }

  lemma AwayFromSets(d: Domain, id: OperatorId, until: nat)
    requires SetsOk(d) && StaysAway(d, id, until) && d.epoch < until
    ensures id in d.operators ==> !d.operators[id].status.Registered?
    ensures id !in d.next
  {
    if id in d.operators {
      assert OperatorOk(d, id);
    }
  }

  /** Over every run, a deactivated operator is not registered again, and in no operator set, before the activation
      delay is over. */
  lemma DeactivationDelays(run: seq<Domain>, config: Config, i: nat, j: nat, id: OperatorId)
    requires ConfigOk(config) && IsRun(run, Start(), StepOf(config)) && i < j < |run|
    requires Deactivate(run[i], config, id) == Ok(run[i + 1])
    requires run[j].epoch < run[i].epoch + config.activationDelay
    ensures id in run[j].operators ==> !run[j].operators[id].status.Registered?
    ensures id !in run[j].next
  {
    var until := run[i].epoch + config.activationDelay;
    InvInductive(config);
    RunInvariant(run, config, i);
    RunInvariant(run, config, j);
    Deactivates(run[i], run[i + 1], config, id);
    AwayKept(config, id, until);
    assert AwayUntil(id, until)(run[i + 1]);
    Remains(run, Start(), StepOf(config), InvOf(config), AwayUntil(id, until), i + 1, j);
    assert AwayUntil(id, until)(run[j]);
    AwayFromSets(run[j], id, until);
  }

  // ---- Withdrawals ----

  /** A part of the withdrawal unlocks at block `t` or later. */
  ghost predicate WaitsFor(w: Withdrawal, t: nat) {
    || (exists i :: 0 <= i < |w.queue| && w.queue[i].unlockAt >= t)
    || (w.inShares.Some? && w.inShares.value.unlockAt >= t)
  }

  ghost predicate Waits(p: Pool, n: AccountId, t: nat) { n in p.withdrawals && WaitsFor(p.withdrawals[n], t) }

  lemma ConversionWaits(prices: map<nat, nat>, w: Withdrawal, c: Withdrawal, current: nat, t: nat)
    requires ConvertWithdrawal(prices, w, current) == Ok(c) && WaitsFor(w, t)
    ensures WaitsFor(c, t)
  {
    if i :| 0 <= i < |w.queue| && w.queue[i].unlockAt >= t {
      assert c.queue[i].unlockAt >= t;
    } else if c.inShares.None? {
      assert c.queue[|w.queue|].unlockAt >= t;
    }
  }

  lemma WithdrawWaits(p: Pool, p': Pool, config: Config, current: nat, head: nat, pendingSlash: bool,
                      rewards: Option<nat>, m: AccountId, shares: nat, n: AccountId, t: nat)
    requires PoolInvariant.Inv(p, config, current, head)
    requires OperatorPool.Withdraw(p, config, current, head, pendingSlash, rewards, m, shares) == Ok(p')
    ensures Waits(p', m, head + config.lockingPeriod)
    ensures Waits(p, n, t) ==> Waits(p', n, t)
  {
    if n == m && Waits(p, n, t) {
      var w := ConvertWithdrawal(p.prices, p.withdrawals[n], current).value;
      ConversionWaits(p.prices, p.withdrawals[n], w, current, t);
      assert PoolInvariant.WithdrawalOk(p.withdrawals[n], p.prices, config, current, head);
      if i :| 0 <= i < |w.queue| && w.queue[i].unlockAt >= t {
        assert p'.withdrawals[n].queue[i].unlockAt >= t;
      }
    }
  }

  lemma UnlockWaits(p: Pool, p': Pool, config: Config, current: nat, head: nat, pendingSlash: bool, m: AccountId,
                    n: AccountId, t: nat)
    requires PoolInvariant.Inv(p, config, current, head) && head < t && Waits(p, n, t)
    requires OperatorPool.UnlockFunds(p, current, head, pendingSlash, m) == Ok(p')
    ensures Waits(p', n, t)
  {
    if n == m {
      var w, w', k := PoolSteps.UnlockPops(p, p', current, head, pendingSlash, n);
      PoolInvariant.ConvertedQueueOk(p.prices, p.withdrawals[n], current, config, head);
      PoolSteps.MaturedExactly(w.queue, head);
      ConversionWaits(p.prices, p.withdrawals[n], w, current, t);
      PoppedWaits(w, w', k, head, t);
    }
  }

  lemma PoppedWaits(w: Withdrawal, w': Withdrawal, k: nat, head: nat, t: nat)
    requires WaitsFor(w, t) && head < t && k <= |w.queue| && w'.queue == w.queue[k..] && w'.inShares == w.inShares
    requires forall i :: 0 <= i < |w.queue| ==> (i < k <==> w.queue[i].unlockAt <= head)
    ensures WaitsFor(w', t) && (w'.queue != [] || w'.inShares.Some?)
  {
    if i :| 0 <= i < |w.queue| && w.queue[i].unlockAt >= t {
      assert w'.queue[i - k] == w.queue[i];
    }
  }

  /** Live and not deregistered: its withdrawals unlock one by one. */
  ghost predicate InService(d: Domain, id: OperatorId) { Live(d, id) && !d.operators[id].status.Deregistered? }

  lemma BoundaryWaits(p: Pool, p': Pool, epoch: nat, reward: Option<nat>)
    requires PoolBoundary.Boundary(p, epoch, reward) == Ok(p')
    ensures p'.withdrawals == p.withdrawals
  {}

  lemma WithdrawKeepsWaiting(d: Domain, d': Domain, config: Config, i: OperatorId, m: AccountId, shares: nat,
                             id: OperatorId, n: AccountId, t: nat)
    requires PoolsOk(d, config) && Live(d, id) && DomainStaking.Withdraw(d, config, i, m, shares) == Ok(d')
    requires Waits(d.operators[id], n, t)
    ensures id in d'.operators && Waits(d'.operators[id], n, t)
  {
    if i == id {
      WithdrawWaits(d.operators[id], d'.operators[id], config, d.epoch, d.head, id in d.pendingSlash, RewardIn(d, id),
                    m, shares, n, t);
    }
  }

  lemma UnlockKeepsWaiting(d: Domain, d': Domain, config: Config, i: OperatorId, m: AccountId, id: OperatorId,
                           n: AccountId, t: nat)
    requires PoolsOk(d, config) && Live(d, id) && DomainStaking.UnlockFunds(d, i, m) == Ok(d')
    requires d.head < t && Waits(d.operators[id], n, t)
    ensures id in d'.operators && Waits(d'.operators[id], n, t)
  {
    if i == id {
      UnlockWaits(d.operators[id], d'.operators[id], config, d.epoch, d.head, id in d.pendingSlash, m, n, t);
    }
  }

  lemma NominateSame(d: Domain, d': Domain, i: OperatorId, m: AccountId, amount: nat, id: OperatorId)
    requires DomainStaking.Nominate(d, i, m, amount) == Ok(d') && id in d.operators
    ensures id in d'.operators && d'.operators[id].withdrawals == d.operators[id].withdrawals
  {}

  lemma LeaverSame(d: Domain, d': Domain, i: OperatorId, m: AccountId, id: OperatorId)
    requires DomainStaking.UnlockNominator(d, i, m) == Ok(d') && id in d.operators && InService(d', id)
    ensures d'.operators[id].withdrawals == d.operators[id].withdrawals
  {
    if i == id {
      UnlockNominatorFrame(d.operators[id], d'.operators[id], d.epoch, d.head, id in d.pendingSlash, m);
    }
  }

  lemma EpochSame(d: Domain, d': Domain, chainRewards: nat, id: OperatorId)
    requires SetsOk(d) && EndEpoch(d, chainRewards) == Some(d') && Live(d, id)
    ensures id in d'.operators && d'.operators[id].withdrawals == d.operators[id].withdrawals
  {
    EpochTransition.EndEpochPool(d, d', chainRewards, id);
    BoundaryWaits(d.operators[id], d'.operators[id], d.epoch, FullReward(d, id, chainRewards));
  }

  lemma DrainSame(d: Domain, d': Domain, config: Config, step: Step, id: OperatorId)
    requires SetsOk(d) && step.DrainStep? && Next(d, d', config, step) && id in d.operators && Live(d', id)
    ensures d'.operators[id].withdrawals == d.operators[id].withdrawals
  {
    DrainSets(d, d', step.id, step.ns, step.treasury);
    assert SameFor(d, d', id);
  }

  lemma OtherWaits(d: Domain, d': Domain, config: Config, step: Step, id: OperatorId)
    requires SetsOk(d) && Live(d, id) && InService(d', id) && Next(d, d', config, step)
    requires !step.WithdrawStep? && !step.UnlockFundsStep?
    ensures d'.operators[id].withdrawals == d.operators[id].withdrawals
  {
    if step.NominateStep? {
      NominateSame(d, d', step.id, step.n, step.amount, id);
    } else if step.UnlockNominatorStep? {
      LeaverSame(d, d', step.id, step.n, id);
    } else if step.DrainStep? {
      DrainSame(d, d', config, step, id);
    } else if step.EndEpochStep? {
      EpochSame(d, d', step.chainRewards, id);
    } else {
      PlainWaits(d, d', config, step, id);
    }
  }

  lemma PlainWaits(d: Domain, d': Domain, config: Config, step: Step, id: OperatorId)
    requires SetsOk(d) && Next(d, d', config, step) && id in d.operators && id in d'.operators
    requires !AtOneOperator(step) && !step.EndEpochStep?
    ensures d'.operators[id].withdrawals == d.operators[id].withdrawals
  {
    assert OperatorOk(d, id);
    if step.RewardStep? || step.AdvanceStep? || step.FundStep? || step.PendingStep? || step.RegisterStep? {
      SlashRuns.OtherStepCore(d, d', config, step, id);
    } else {
      SlashRuns.StatusStepCore(d, d', config, step, id);
    }
  }

  /** What waited in `a` for block `t` still waits in `d`, before that block. */
  ghost predicate KeepsWaiting(a: Domain, d: Domain, id: OperatorId, n: AccountId, t: nat) {
    && a.nextId <= d.nextId && a.head <= d.head
    && (id in a.operators && Waits(a.operators[id], n, t) && d.head < t && InService(d, id) ==>
          Waits(d.operators[id], n, t))
  }

  lemma InServiceBefore(d: Domain, d': Domain, config: Config, step: Step, id: OperatorId)
    requires Inv(d, config) && Next(d, d', config, step) && id < d.nextId && InService(d', id)
    ensures InService(d, id)
  {
    NextIds(d, d', config, step, id);
    NextEvolves(d, d', config, step, id);
    StatusFollows(d, d', config, step, id);
  }

  lemma NextHead(d: Domain, d': Domain, config: Config, step: Step)
    requires Next(d, d', config, step)
    ensures d.head <= d'.head && d.nextId <= d'.nextId
  {}

  lemma NextWaits(a: Domain, d: Domain, d': Domain, config: Config, step: Step, id: OperatorId, n: AccountId, t: nat)
    requires SetsOk(a) && Inv(d, config) && KeepsWaiting(a, d, id, n, t) && Next(d, d', config, step)
    ensures KeepsWaiting(a, d', id, n, t)
  {
    NextHead(d, d', config, step);
    if id in a.operators && Waits(a.operators[id], n, t) && d'.head < t && InService(d', id) {
      assert id < d.nextId by { assert OperatorOk(a, id); }
      InServiceBefore(d, d', config, step, id);
      StillWaits(d, d', config, step, id, n, t);
    }
  }

  lemma StillWaits(d: Domain, d': Domain, config: Config, step: Step, id: OperatorId, n: AccountId, t: nat)
    requires Inv(d, config) && Next(d, d', config, step) && d.head < t && Live(d, id) && InService(d', id)
    requires Waits(d.operators[id], n, t)
    ensures Waits(d'.operators[id], n, t)
  {
    if step.WithdrawStep? {
      WithdrawKeepsWaiting(d, d', config, step.id, step.n, step.shares, id, n, t);
    } else if step.UnlockFundsStep? {
      UnlockKeepsWaiting(d, d', config, step.id, step.n, id, n, t);
    } else {
      OtherWaits(d, d', config, step, id);
    }
  }

  ghost function WaitingFor(id: OperatorId, n: AccountId, t: nat): (Domain, Domain) -> bool {
    (a, d) => KeepsWaiting(a, d, id, n, t)
  }

  lemma WaitingExtends(config: Config, id: OperatorId, n: AccountId, t: nat)
    ensures Extends(StepOf(config), InvOf(config), WaitingFor(id, n, t))
  {
    forall a, d, d' | InvOf(config)(a) && InvOf(config)(d) && WaitingFor(id, n, t)(a, d) && StepOf(config)(d, d')
      ensures WaitingFor(id, n, t)(a, d')
    {
      var step :| Next(d, d', config, step) && Timely(d, step);
      NextWaits(a, d, d', config, step, id, n, t);
    }
  }

  lemma WithdrawStarts(d: Domain, d': Domain, config: Config, id: OperatorId, n: AccountId, shares: nat)
    requires Inv(d, config) && DomainStaking.Withdraw(d, config, id, n, shares) == Ok(d')
    ensures id in d'.operators && Waits(d'.operators[id], n, d.head + config.lockingPeriod)
  {
    var p, p' := d.operators[id], d'.operators[id];
    WithdrawFrame(p, p', config, d.epoch, d.head, id in d.pendingSlash, RewardIn(d, id), n, shares);
    assert Live(d, id);
    WithdrawWaits(p, p', config, d.epoch, d.head, id in d.pendingSlash, RewardIn(d, id), n, shares, n, 0);
  }

  /** Over every run, a withdrawal from an operator in service waits out the locking period: until then a part of it is
      still there, waiting for a block that has not come. */
  lemma WithdrawalsLock(run: seq<Domain>, config: Config, i: nat, j: nat, id: OperatorId, n: AccountId, shares: nat)
    requires ConfigOk(config) && IsRun(run, Start(), StepOf(config)) && i < j < |run|
    requires DomainStaking.Withdraw(run[i], config, id, n, shares) == Ok(run[i + 1])
    requires run[j].head < run[i].head + config.lockingPeriod && InService(run[j], id)
    ensures Waits(run[j].operators[id], n, run[i].head + config.lockingPeriod)
  {
    var t := run[i].head + config.lockingPeriod;
    InvInductive(config);
    RunInvariant(run, config, i);
    WithdrawStarts(run[i], run[i + 1], config, id, n, shares);
    WaitingExtends(config, id, n, t);
    Progress(run, Start(), StepOf(config), InvOf(config), WaitingFor(id, n, t), i + 1, j);
    assert WaitingFor(id, n, t)(run[i + 1], run[j]);
  }
}
