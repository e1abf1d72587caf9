/** Every run of the staking pallet of a domain. */
module StakingRuns {
  import opened ReceiptTypes
  import opened StakingTypes
  import opened OperatorPool
  import opened DomainStaking
  import opened DomainInvariant
  import opened EpochTransition
  import opened PoolBoundary
  import opened Perquintill
  import opened Runs
  import PoolInvariant
  import PoolSteps
  import SharePrice
  import Slashing

  datatype Step =
    | RegisterStep(owner: AccountId, amount: nat, minStake: nat, tax: Percent)
    | NominateStep(id: OperatorId, n: AccountId, amount: nat)
    | WithdrawStep(id: OperatorId, n: AccountId, shares: nat)
    | UnlockFundsStep(id: OperatorId, n: AccountId)
    | UnlockNominatorStep(id: OperatorId, n: AccountId)
    | DeregisterStep(who: AccountId, id: OperatorId)
    | DeactivateStep(id: OperatorId)
    | ReactivateStep(id: OperatorId)
    | RewardStep(ids: seq<OperatorId>, amount: nat)
    | MarkSlashedStep(id: OperatorId)
    | MarkInvalidStep(id: OperatorId, receipt: ReceiptHash)
    | UnmarkInvalidStep(id: OperatorId, receipt: ReceiptHash)
    // some nominators of a slashed operator, or all of them, are slashed
    | DrainStep(id: OperatorId, ns: seq<AccountId>, treasury: nat)
    | EndEpochStep(chainRewards: nat)
    | AdvanceStep(head: nat)
    // bundle storage is charged to a storage fund or refunded to it
    | FundStep(id: OperatorId, fund: nat)
    // the block tree makes operators pending slash; they stop being so only by being slashed
    | PendingStep(pending: set<OperatorId>)

  /** What the calls do, whenever they succeed. */
  ghost predicate Next(d: Domain, d': Domain, config: Config, step: Step) {
    match step
    case RegisterStep(owner, amount, minStake, tax) =>
      DomainStaking.Register(d, config, owner, amount, minStake, tax) == Ok(d')
    case NominateStep(id, n, amount) => DomainStaking.Nominate(d, id, n, amount) == Ok(d')
    case WithdrawStep(id, n, shares) => DomainStaking.Withdraw(d, config, id, n, shares) == Ok(d')
    case UnlockFundsStep(id, n) => DomainStaking.UnlockFunds(d, id, n) == Ok(d')
    case UnlockNominatorStep(id, n) => DomainStaking.UnlockNominator(d, id, n) == Ok(d')
    case DeregisterStep(who, id) => Deregister(d, config, who, id) == Ok(d')
    case DeactivateStep(id) => Deactivate(d, config, id) == Ok(d')
    case ReactivateStep(id) => Reactivate(d, id) == Ok(d')
    case RewardStep(ids, amount) => RewardOperators(d, ids, amount) == Ok(d')
    case MarkSlashedStep(id) => MarkSlashed(d, id) == Ok(d')
    case MarkInvalidStep(id, receipt) => MarkInvalid(d, id, receipt) == Ok(d')
    case UnmarkInvalidStep(id, receipt) => d' == UnmarkInvalid(d, id, receipt)
    case DrainStep(id, ns, treasury) =>
      && id in d.pendingSlashes && id in d.operators && Slashing.Distinct(ns)
      && (forall i :: 0 <= i < |ns| ==> ns[i] in d.operators[id].deposits)
      && DrainSlashed(d, id, ns, treasury) == Ok(d')
    case EndEpochStep(chainRewards) => EndEpoch(d, chainRewards) == Some(d')
    case AdvanceStep(head) => d.head <= head && d' == d.(head := head)
    case FundStep(id, fund) => id in d.operators && d' == SetPool(d, id, SetFund(d.operators[id], fund))
    case PendingStep(ids) =>
      && d' == d.(pendingSlash := ids)
      && (forall id :: id in d.pendingSlash && id !in ids ==> !Live(d', id))
  }

  /** The two calls that can spoil a sound domain: a nomination in the epoch in which the operator registered, and
      a nominator leaving before the epoch of the deregistration is over. */
  ghost predicate Timely(d: Domain, step: Step) {
    match step
    case NominateStep(id, _, _) => id in d.operators && d.epoch !in d.operators[id].prices
    case UnlockNominatorStep(id, n) => CanLeave(d, id, n)
    case _ => true
  }

  // ---- The remaining steps ----

  lemma DrainKeeps(d: Domain, d': Domain, config: Config, id: OperatorId, ns: seq<AccountId>, treasury: nat)
    requires Inv(d, config) && Next(d, d', config, DrainStep(id, ns, treasury))
    ensures Inv(d', config)
  {
    DrainSets(d, d', id, ns, treasury);
    OneOperatorPools(d, d', config, id);
  }

  lemma DrainSets(d: Domain, d': Domain, id: OperatorId, ns: seq<AccountId>, treasury: nat)
    requires SetsOk(d) && id in d.pendingSlashes && id in d.operators && DrainSlashed(d, id, ns, treasury) == Ok(d')
    ensures SetsOk(d') && OnlyAt(d, d', id) && !Live(d', id)
  {
    assert OperatorOk(d, id);
    var p, q := d.operators[id], SlashBatch(d.operators[id], d.epoch, ns).value;
    Slashing.SlashEachTakes(p, d.epoch, SharePrice.New(p.totalShares, p.totalStake).value, ns);
    if q.deposits == map[] && q.withdrawals == map[] {
      DrainAll(d, d', id, treasury);
    } else {
      DrainSome(d, d', id, q, treasury);
    }
  }

  lemma DrainSome(d: Domain, d': Domain, id: OperatorId, p: Pool, treasury: nat)
    requires SetsOk(d) && id in d.pendingSlashes && p.status.Slashed? && d' == SetPool(d, id, p).(treasury := treasury)
    ensures SetsOk(d') && OnlyAt(d, d', id) && !Live(d', id)
  {
    assert OperatorOk(d, id);
    assert OperatorOk(d', id);
    PoolOnly(d, d', id, p);
    OneOperatorSets(d, d', id);
  }

  lemma DrainAll(d: Domain, d': Domain, id: OperatorId, treasury: nat)
    requires SetsOk(d) && id in d.pendingSlashes
    requires d' == d.(operators := d.operators - {id}, pendingSlashes := d.pendingSlashes - {id}, treasury := treasury)
    ensures SetsOk(d') && OnlyAt(d, d', id) && !Live(d', id)
  {
    assert OperatorOk(d, id);
    OneOperatorSets(d, d', id);
  }

  lemma AdvancedPool(p: Pool, config: Config, epoch: nat, head: nat, head': nat)
    requires PoolInvariant.Inv(p, config, epoch, head) && head <= head'
    ensures PoolInvariant.Inv(p, config, epoch, head')
  {
    forall n | n in p.withdrawals
      ensures PoolInvariant.WithdrawalOk(p.withdrawals[n], p.prices, config, epoch, head')
    {
      assert PoolInvariant.WithdrawalOk(p.withdrawals[n], p.prices, config, epoch, head);
    }
  }

  lemma AdvanceKeeps(d: Domain, d': Domain, config: Config, head: nat)
    requires Inv(d, config) && d.head <= head && d' == d.(head := head)
    ensures Inv(d', config)
  {
    forall id | id in d'.operators
      ensures OperatorOk(d', id)
    {
      assert OperatorOk(d, id);
    }
    forall id | Live(d', id)
      ensures PoolInvariant.Inv(d'.operators[id], config, d'.epoch, d'.head)
    {
      assert Live(d, id);
      AdvancedPool(d.operators[id], config, d.epoch, d.head, head);
    }
  }

  lemma FundIrrelevant(p: Pool, p': Pool, config: Config, epoch: nat, head: nat)
    requires p' == p.(fund := p'.fund, storageIn := p'.storageIn, storageOut := p'.storageOut)
    requires PoolInvariant.Inv(p, config, epoch, head)
    ensures PoolInvariant.Inv(p', config, epoch, head)
  {
    assert PoolInvariant.Books(p', epoch);
  }

  lemma FundedPool(p: Pool, fund: nat, config: Config, epoch: nat, head: nat)
    requires PoolInvariant.Inv(p, config, epoch, head)
    ensures PoolInvariant.Inv(SetFund(p, fund), config, epoch, head)
  {
    FundIrrelevant(p, SetFund(p, fund), config, epoch, head);
  }

  lemma FundSets(d: Domain, d': Domain, id: OperatorId, fund: nat)
    requires SetsOk(d) && id in d.operators && d' == SetPool(d, id, SetFund(d.operators[id], fund))
    ensures SetsOk(d') && OnlyAt(d, d', id)
  {
    assert OperatorOk(d, id);
    PoolOnly(d, d', id, SetFund(d.operators[id], fund));
    OneOperatorSets(d, d', id);
  }

  lemma FundKeeps(d: Domain, d': Domain, config: Config, id: OperatorId, fund: nat)
    requires Inv(d, config) && id in d.operators && d' == SetPool(d, id, SetFund(d.operators[id], fund))
    ensures Inv(d', config)
  {
    FundSets(d, d', id, fund);
    if Live(d, id) {
      FundedPool(d.operators[id], fund, config, d.epoch, d.head);
    }
    OneOperatorPools(d, d', config, id);
  }

  lemma PendingKeeps(d: Domain, d': Domain, config: Config, ids: set<OperatorId>)
    requires Inv(d, config) && Next(d, d', config, PendingStep(ids))
    ensures Inv(d', config)
  {
    forall id | id in d'.operators
      ensures OperatorOk(d', id) && (Live(d', id) ==> Live(d, id))
    {
      assert OperatorOk(d, id);
    }
  }

  lemma RewardKeeps(d: Domain, d': Domain, config: Config, ids: seq<OperatorId>, amount: nat)
    requires Inv(d, config) && RewardOperators(d, ids, amount) == Ok(d')
    ensures Inv(d', config)
  {
    forall id | id in d'.operators
      ensures OperatorOk(d', id) && (Live(d', id) ==> Live(d, id))
    {
      assert OperatorOk(d, id);
    }
  }

  /** A step keeps the invariant exactly when it is timely; an early nomination breaks the share books. */
  lemma NextKeeps(d: Domain, d': Domain, config: Config, step: Step)
    requires Inv(d, config) && ConfigOk(config) && Next(d, d', config, step)
    ensures Inv(d', config) <==> Timely(d, step)
    ensures step.NominateStep? && !Timely(d, step) ==> !PoolInvariant.Books(d'.operators[step.id], d'.epoch)
  {
    match step
    case RegisterStep(owner, amount, minStake, tax) => RegisterKeeps(d, d', config, owner, amount, minStake, tax);
    case NominateStep(id, n, amount) => NominateKeeps(d, d', config, id, n, amount);
    case WithdrawStep(id, n, shares) => WithdrawKeeps(d, d', config, id, n, shares);
    case UnlockFundsStep(id, n) => UnlockFundsKeeps(d, d', config, id, n);
    case UnlockNominatorStep(id, n) => UnlockNominatorKeeps(d, d', config, id, n);
    case _ => OtherCallKeeps(d, d', config, step);
  }

  lemma OtherCallKeeps(d: Domain, d': Domain, config: Config, step: Step)
    requires Inv(d, config) && Next(d, d', config, step)
    requires !step.RegisterStep? && !step.NominateStep? && !step.WithdrawStep? && !step.UnlockFundsStep?
    requires !step.UnlockNominatorStep?
    ensures Inv(d', config)
  {
    match step
    case DeregisterStep(who, id) => DeregisterKeeps(d, d', config, who, id);
    case DeactivateStep(id) => DeactivateKeeps(d, config, id);
    case ReactivateStep(id) => ReactivateKeeps(d, d', config, id);
    case RewardStep(ids, amount) => RewardKeeps(d, d', config, ids, amount);
    case MarkSlashedStep(id) => MarkSlashedKeeps(d, config, id);
    case MarkInvalidStep(id, receipt) => MarkInvalidKeeps(d, config, id, receipt);
    case UnmarkInvalidStep(id, receipt) => UnmarkInvalidKeeps(d, config, id, receipt);
    case DrainStep(id, ns, treasury) => DrainKeeps(d, d', config, id, ns, treasury);
    case EndEpochStep(chainRewards) => EndEpochKeeps(d, d', config, chainRewards);
    case AdvanceStep(head) => AdvanceKeeps(d, d', config, head);
    case FundStep(id, fund) => FundKeeps(d, d', config, id, fund);
    case PendingStep(ids) => PendingKeeps(d, d', config, ids);
  }

  // ---- Runs ----

  ghost predicate CanStep(d: Domain, d': Domain, config: Config) {
    exists step :: Next(d, d', config, step) && Timely(d, step)
  }

  ghost function Start(): Domain -> bool { d => d == EmptyDomain() }

  ghost function StepOf(config: Config): (Domain, Domain) -> bool { (d, d') => CanStep(d, d', config) }

  ghost function InvOf(config: Config): Domain -> bool { d => Inv(d, config) }

  lemma InvInductive(config: Config)
    requires ConfigOk(config)
    ensures Inductive(Start(), StepOf(config), InvOf(config))
  {
    EmptyOk(config);
    forall d, d' | InvOf(config)(d) && StepOf(config)(d, d')
      ensures InvOf(config)(d')
    {
      var step :| Next(d, d', config, step) && Timely(d, step);
      NextKeeps(d, d', config, step);
    }
  }

  /** In every state of every run the invariant holds. */
  lemma RunInvariant(run: seq<Domain>, config: Config, i: nat)
    requires ConfigOk(config) && IsRun(run, Start(), StepOf(config)) && i < |run|
    ensures Inv(run[i], config)
  {
    InvInductive(config);
    Invariance(run, Start(), StepOf(config), InvOf(config), i);
    assert InvOf(config)(run[i]);
  }

  // ---- How a pool moves along a run ----

  /** Stake per share does not fall, a pool without shares gets none, and the prices of past epochs stay. */
  ghost predicate Evolved(p: Pool, p': Pool, epoch: nat) {
    && p'.totalStake * p.totalShares >= p.totalStake * p'.totalShares
    && (p.totalShares == 0 ==> p'.totalShares == 0)
    && (p.ownerLeft ==> p'.ownerLeft)
    && (forall e :: e in p.prices && e < epoch ==> e in p'.prices && p'.prices[e] == p.prices[e])
  }

  lemma SameRatioEvolved(p: Pool, p': Pool, epoch: nat)
    requires SameRatio(p, p')
    ensures Evolved(p, p', epoch)
  {}

  lemma BoundaryEvolved(p: Pool, p': Pool, config: Config, epoch: nat, head: nat, reward: Option<nat>)
    requires PoolInvariant.Inv(p, config, epoch, head) && Boundary(p, epoch, reward) == Ok(p')
    ensures Evolved(p, p', epoch)
  {
    BoundaryRatio(p, p', epoch, reward);
    if p.totalShares == 0 {
      BoundaryNoShares(p, p', epoch, reward);
    }
    BoundaryFrame(p, p', epoch, reward);
  }

  lemma UnlockEvolved(p: Pool, p': Pool, current: nat, head: nat, pendingSlash: bool, n: AccountId)
    requires OperatorPool.UnlockNominator(p, current, head, pendingSlash, n) == Ok(p')
    ensures Evolved(p, p', current)
  {
    PoolSteps.UnlockNominatorKeepsRatio(p, p', current, head, pendingSlash, n);
    UnlockNominatorFrame(p, p', current, head, pendingSlash, n);
  }

  lemma StatusChangeQuiet(d: Domain, d': Domain, i: OperatorId, id: OperatorId)
    requires StatusChanged(d, d', i) && id in d.operators && Live(d', id)
    ensures Live(d, id) && SameRatio(d.operators[id], d'.operators[id])
  {
    if id != i {
      assert SameFor(d, d', id);
    }
  }

  lemma MarkSlashedChanges(d: Domain, d': Domain, id: OperatorId)
    requires SetsOk(d) && MarkSlashed(d, id) == Ok(d')
    ensures d' == d || StatusChanged(d, d', id)
  {
    if d' != d {
      DropKeepsSets(d, d', id, Slashed);
    }
  }

  lemma MarkInvalidChanges(d: Domain, d': Domain, id: OperatorId, receipt: ReceiptHash)
    requires SetsOk(d) && MarkInvalid(d, id, receipt) == Ok(d')
    ensures d' == d || StatusChanged(d, d', id)
  {
    if d' != d {
      DropKeepsSets(d, d', id, InvalidBundle(receipt));
    }
  }

  lemma UnmarkInvalidChanges(d: Domain, d': Domain, id: OperatorId, receipt: ReceiptHash)
    requires SetsOk(d) && d' == UnmarkInvalid(d, id, receipt)
    ensures d' == d || StatusChanged(d, d', id)
  {
    if d' != d {
      assert OperatorOk(d, id);
      UnmarkSets(d, d', id);
    }
  }

  /** Steps of owners and governance that only change a status. */
  lemma StatusStepChanges(d: Domain, d': Domain, config: Config, step: Step)
    requires SetsOk(d) && Next(d, d', config, step)
    requires step.DeregisterStep? || step.DeactivateStep? || step.ReactivateStep? || step.MarkSlashedStep?
             || step.MarkInvalidStep? || step.UnmarkInvalidStep?
    ensures d' == d || StatusChanged(d, d', step.id)
  {
    match step
    case DeregisterStep(who, id) => DeregisterSets(d, d', config, who, id);
    case DeactivateStep(id) => DeactivateSets(d, d', config, id);
    case ReactivateStep(id) => ReactivateSets(d, d', id);
    case MarkSlashedStep(id) => MarkSlashedChanges(d, d', id);
    case MarkInvalidStep(id, receipt) => MarkInvalidChanges(d, d', id, receipt);
    case UnmarkInvalidStep(id, receipt) => UnmarkInvalidChanges(d, d', id, receipt);
  }

  lemma PoolStepQuiet(d: Domain, d': Domain, config: Config, step: Step, id: OperatorId)
    requires Next(d, d', config, step) && (step.NominateStep? || step.WithdrawStep? || step.UnlockFundsStep?)
    requires id in d.operators && Live(d', id)
    ensures Live(d, id) && SameRatio(d.operators[id], d'.operators[id])
  {
    match step
    case NominateStep(i, n, amount) =>
      NominateFrame(d.operators[i], d'.operators[i], d.epoch, i in d.pendingSlash, n, amount);
    case WithdrawStep(i, n, shares) =>
      WithdrawFrame(d.operators[i], d'.operators[i], config, d.epoch, d.head, i in d.pendingSlash, RewardIn(d, i), n,
                    shares);
    case UnlockFundsStep(i, n) =>
      UnlockFundsFrame(d.operators[i], d'.operators[i], d.epoch, d.head, i in d.pendingSlash, n);
  }

  lemma RewardQuiet(d: Domain, d': Domain, ids: seq<OperatorId>, amount: nat)
    requires RewardOperators(d, ids, amount) == Ok(d')
    ensures d'.operators == d.operators && d'.pendingSlash == d.pendingSlash
  {}

  lemma OtherStepQuiet(d: Domain, d': Domain, config: Config, step: Step, id: OperatorId)
    requires SetsOk(d) && Next(d, d', config, step)
    requires step.RegisterStep? || step.AdvanceStep? || step.FundStep? || step.PendingStep?
    requires id in d.operators && Live(d', id)
    ensures Live(d, id) && SameRatio(d.operators[id], d'.operators[id])
  {
    if step.RegisterStep? {
      assert OperatorOk(d, id);
      RegisterQuiet(d, d', config, step, id);
    } else {
      PlainQuiet(d, d', config, step, id);
    }
  }

  lemma PlainQuiet(d: Domain, d': Domain, config: Config, step: Step, id: OperatorId)
    requires Next(d, d', config, step) && (step.AdvanceStep? || step.FundStep? || step.PendingStep?)
    requires id in d.operators && Live(d', id)
    ensures Live(d, id) && SameRatio(d.operators[id], d'.operators[id])
  {}

  lemma RegisterQuiet(d: Domain, d': Domain, config: Config, step: Step, id: OperatorId)
    requires Next(d, d', config, step) && step.RegisterStep? && id in d.operators && id != d.nextId
    ensures id in d'.operators && d'.operators[id] == d.operators[id] && d'.pendingSlash == d.pendingSlash
  {}

  lemma DrainQuiet(d: Domain, d': Domain, i: OperatorId, ns: seq<AccountId>, treasury: nat, id: OperatorId)
    requires SetsOk(d) && i in d.pendingSlashes && i in d.operators && DrainSlashed(d, i, ns, treasury) == Ok(d')
    requires id in d.operators && Live(d', id)
    ensures Live(d, id) && SameRatio(d.operators[id], d'.operators[id])
  {
    DrainSets(d, d', i, ns, treasury);
    assert id != i;
    assert SameFor(d, d', id);
  }

  lemma EndEpochEvolves(d: Domain, d': Domain, config: Config, reward: OperatorId -> Option<nat>, id: OperatorId)
    requires PoolsOk(d, config) && Bounded(d, d', reward) && Live(d', id)
    ensures Live(d, id) && Evolved(d.operators[id], d'.operators[id], d.epoch)
  {
    BoundaryEvolved(d.operators[id], d'.operators[id], config, d.epoch, d.head, reward(id));
  }

  lemma UnlockStepEvolves(d: Domain, d': Domain, i: OperatorId, n: AccountId, id: OperatorId)
    requires DomainStaking.UnlockNominator(d, i, n) == Ok(d') && id in d.operators && Live(d', id)
    ensures Live(d, id) && Evolved(d.operators[id], d'.operators[id], d.epoch)
  {
    var p, p' := d.operators[id], d'.operators[id];
    if id == i {
      UnlockNominatorFrame(p, p', d.epoch, d.head, i in d.pendingSlash, n);
      UnlockEvolved(p, p', d.epoch, d.head, i in d.pendingSlash, n);
    }
  }

  /** In every step a live pool was live before, loses no stake per share and keeps its past prices. */
  lemma NextEvolves(d: Domain, d': Domain, config: Config, step: Step, id: OperatorId)
    requires Inv(d, config) && Next(d, d', config, step) && id in d.operators && Live(d', id)
    ensures Live(d, id) && Evolved(d.operators[id], d'.operators[id], d.epoch)
  {
    if step.EndEpochStep? {
      EpochEvolves(d, d', config, step.chainRewards, id);
    } else if step.UnlockNominatorStep? {
      UnlockStepEvolves(d, d', step.id, step.n, id);
    } else {
      QuietEvolves(d, d', config, step, id);
    }
  }

  lemma EpochEvolves(d: Domain, d': Domain, config: Config, chainRewards: nat, id: OperatorId)
    requires Inv(d, config) && EndEpoch(d, chainRewards) == Some(d') && Live(d', id)
    ensures Live(d, id) && Evolved(d.operators[id], d'.operators[id], d.epoch)
  {
    NoFuturePrice(d, config);
    EndEpochBounded(d, d', chainRewards);
    EndEpochEvolves(d, d', config, RewardsAt(d, chainRewards), id);
  }

  lemma QuietEvolves(d: Domain, d': Domain, config: Config, step: Step, id: OperatorId)
    requires SetsOk(d) && Next(d, d', config, step) && !step.EndEpochStep? && !step.UnlockNominatorStep?
    requires id in d.operators && Live(d', id)
    ensures Live(d, id) && Evolved(d.operators[id], d'.operators[id], d.epoch)
  {
    if step.NominateStep? || step.WithdrawStep? || step.UnlockFundsStep? {
      PoolStepQuiet(d, d', config, step, id);
    } else if step.RewardStep? {
      RewardQuiet(d, d', step.ids, step.amount);
    } else if step.DrainStep? {
      DrainQuiet(d, d', step.id, step.ns, step.treasury, id);
    } else if step.RegisterStep? || step.AdvanceStep? || step.FundStep? || step.PendingStep? {
      OtherStepQuiet(d, d', config, step, id);
    } else {
      StatusStepChanges(d, d', config, step);
      if d' != d {
        StatusChangeQuiet(d, d', step.id, id);
      }
    }
    SameRatioEvolved(d.operators[id], d'.operators[id], d.epoch);
  }

  lemma NextCounters(d: Domain, d': Domain, config: Config, step: Step)
    requires Next(d, d', config, step)
    ensures d.nextId <= d'.nextId && d.epoch <= d'.epoch
  {}

  /** A call of a nominator, or a round of slashing. */
  predicate AtOneOperator(step: Step) {
    step.NominateStep? || step.WithdrawStep? || step.UnlockFundsStep? || step.UnlockNominatorStep? || step.DrainStep?
  }

  lemma PoolStepIds(d: Domain, d': Domain, config: Config, step: Step)
    requires Next(d, d', config, step)
    requires AtOneOperator(step)
    ensures d'.operators.Keys <= d.operators.Keys
  {}

  lemma OtherStepIds(d: Domain, d': Domain, config: Config, step: Step)
    requires Next(d, d', config, step)
    requires !AtOneOperator(step)
    ensures d'.operators.Keys <= d.operators.Keys + {d.nextId}
  {}

  /** Operator ids are never reused. */
  lemma NextIds(d: Domain, d': Domain, config: Config, step: Step, id: OperatorId)
    requires Next(d, d', config, step)
    requires id in d'.operators && id < d.nextId
    ensures id in d.operators
  {
    if AtOneOperator(step) {
      PoolStepIds(d, d', config, step);
    } else {
      OtherStepIds(d, d', config, step);
    }
  }

  lemma EvolvedTrans(p1: Pool, p2: Pool, p3: Pool, epoch1: nat, epoch2: nat)
    requires Evolved(p1, p2, epoch1) && Evolved(p2, p3, epoch2) && epoch1 <= epoch2
    ensures Evolved(p1, p3, epoch1)
  {
    if p2.totalShares > 0 {
      RatioTrans(p1.totalShares, p1.totalStake, p2.totalShares, p2.totalStake, p3.totalShares, p3.totalStake);
    }
  }

  /** What a later state keeps of the pool that `id` had in an earlier one. */
  ghost predicate Since(a: Domain, d: Domain, id: OperatorId) {
    && a.nextId <= d.nextId && a.epoch <= d.epoch
    && (id in a.operators && Live(d, id) ==>
        Live(a, id) && Evolved(a.operators[id], d.operators[id], a.epoch))
  }

  lemma SinceNext(a: Domain, d: Domain, d': Domain, config: Config, step: Step, id: OperatorId)
    requires SetsOk(a) && Inv(d, config) && Since(a, d, id) && Next(d, d', config, step)
    ensures Since(a, d', id)
  {
    NextCounters(d, d', config, step);
    if id in a.operators && Live(d', id) {
      assert OperatorOk(a, id);
      NextIds(d, d', config, step, id);
      NextEvolves(d, d', config, step, id);
      EvolvedTrans(a.operators[id], d.operators[id], d'.operators[id], a.epoch, d.epoch);
    }
  }

  ghost function SinceFor(id: OperatorId): (Domain, Domain) -> bool { (a, d) => Since(a, d, id) }

  lemma SinceExtends(config: Config, id: OperatorId)
    ensures Extends(StepOf(config), InvOf(config), SinceFor(id))
  {
    forall a, d, d' | InvOf(config)(a) && InvOf(config)(d) && SinceFor(id)(a, d) && StepOf(config)(d, d')
      ensures SinceFor(id)(a, d')
    {
      var step :| Next(d, d', config, step) && Timely(d, step);
      SinceNext(a, d, d', config, step, id);
    }
  }

  /** Along every run, while its operator is live, a pool never loses stake per share, and a stored price of a past
      epoch never changes. */
  lemma StakePerShareNeverFalls(run: seq<Domain>, config: Config, i: nat, j: nat, id: OperatorId)
    requires ConfigOk(config) && IsRun(run, Start(), StepOf(config)) && i <= j < |run|
    requires id in run[i].operators && Live(run[j], id)
    ensures Live(run[i], id) && Evolved(run[i].operators[id], run[j].operators[id], run[i].epoch)
  {
    InvInductive(config);
    SinceExtends(config, id);
    Progress(run, Start(), StepOf(config), InvOf(config), SinceFor(id), i, j);
    assert SinceFor(id)(run[i], run[j]);
  }
}
