/** Slashing along every run: a pool that freezes stays sound until the last of its nominators is slashed. */
module SlashRuns {
  import opened ReceiptTypes
  import opened StakingTypes
  import opened OperatorPool
  import opened DomainStaking
  import opened DomainInvariant
  import opened StakingRuns
  import opened Slashing
  import EpochTransition
  import R = Runs
  import SharePrice
  import StakingRefusals

  ghost predicate FrozenOk(d: Domain) {
    forall id :: id in d.operators && !Live(d, id) ==> Frozen(d.operators[id], d.epoch)
  }

  ghost predicate AllOk(d: Domain, config: Config) { Inv(d, config) && FrozenOk(d) }

  /** Only the status and the storage fund may differ. */
  ghost predicate SameCore(p: Pool, p': Pool) {
    p' == p.(status := p'.status, fund := p'.fund, storageIn := p'.storageIn, storageOut := p'.storageOut)
  }

  lemma CoreFreezes(d: Domain, d': Domain, config: Config, id: OperatorId)
    requires AllOk(d, config) && id in d.operators && id in d'.operators
    requires SameCore(d.operators[id], d'.operators[id]) && d'.epoch == d.epoch
    ensures Frozen(d'.operators[id], d'.epoch)
  {
    var p, p' := d.operators[id], d'.operators[id];
    if Live(d, id) {
      InvFreezes(p, config, d.epoch, d.head);
    }
    assert Frozen(p, d.epoch);
  }

  // ---- Which pools a step touches ----

  lemma PoolStepCore(d: Domain, d': Domain, config: Config, step: Step, id: OperatorId)
    requires Next(d, d', config, step)
    requires step.NominateStep? || step.WithdrawStep? || step.UnlockFundsStep?
    requires id in d'.operators && !Live(d', id)
    ensures id in d.operators && d'.operators[id] == d.operators[id] && d'.epoch == d.epoch
  {
    match step
    case NominateStep(i, n, amount) =>
      NominateFrame(d.operators[i], d'.operators[i], d.epoch, i in d.pendingSlash, n, amount);
    case WithdrawStep(i, n, shares) =>
      WithdrawFrame(d.operators[i], d'.operators[i], config, d.epoch, d.head, i in d.pendingSlash, RewardIn(d, i), n,
                    shares);
    case UnlockFundsStep(i, n) =>
      UnlockFundsFrame(d.operators[i], d'.operators[i], d.epoch, d.head, i in d.pendingSlash, n);
  }

  lemma UnlockStepCore(d: Domain, d': Domain, i: OperatorId, n: AccountId, id: OperatorId)
    requires DomainStaking.UnlockNominator(d, i, n) == Ok(d') && id in d'.operators && !Live(d', id)
    ensures id in d.operators && d'.operators[id] == d.operators[id] && d'.epoch == d.epoch
  {
    if i in d'.operators {
      UnlockNominatorFrame(d.operators[i], d'.operators[i], d.epoch, d.head, i in d.pendingSlash, n);
    }
  }

  lemma StatusStepCore(d: Domain, d': Domain, config: Config, step: Step, id: OperatorId)
    requires SetsOk(d) && Next(d, d', config, step)
    requires step.DeregisterStep? || step.DeactivateStep? || step.ReactivateStep? || step.MarkSlashedStep?
             || step.MarkInvalidStep? || step.UnmarkInvalidStep?
    requires id in d'.operators
    ensures id in d.operators && SameCore(d.operators[id], d'.operators[id]) && d'.epoch == d.epoch
  {
    StatusStepChanges(d, d', config, step);
    if d' != d && id != step.id {
      assert SameFor(d, d', id);
    }
  }

  lemma OtherStepCore(d: Domain, d': Domain, config: Config, step: Step, id: OperatorId)
    requires Next(d, d', config, step) && id in d'.operators
    requires step.RewardStep? || step.AdvanceStep? || step.FundStep? || step.PendingStep?
             || (step.RegisterStep? && id != d.nextId)
    ensures id in d.operators && SameCore(d.operators[id], d'.operators[id]) && d'.epoch == d.epoch
  {}

  lemma RegisterFrozen(d: Domain, d': Domain, config: Config, step: Step)
    requires ConfigOk(config) && step.RegisterStep? && Next(d, d', config, step)
    ensures d.nextId in d'.operators && Frozen(d'.operators[d.nextId], d'.epoch)
  {
    RegisterOk(step.owner, step.amount, step.minStake, step.tax, d.epoch, config, d.head);
    InvFreezes(d'.operators[d.nextId], config, d.epoch, d.head);
  }

  lemma DrainFrozen(d: Domain, d': Domain, config: Config, step: Step, id: OperatorId)
    requires AllOk(d, config) && step.DrainStep? && Next(d, d', config, step) && id in d'.operators && !Live(d', id)
    ensures Frozen(d'.operators[id], d'.epoch)
  {
    if id == step.id {
      DrainedFrozen(d, d', config, step);
    } else {
      DrainSets(d, d', step.id, step.ns, step.treasury);
      assert SameFor(d, d', id);
      CoreFreezes(d, d', config, id);
    }
  }

  lemma DrainedFrozen(d: Domain, d': Domain, config: Config, step: Step)
    requires AllOk(d, config) && step.DrainStep? && Next(d, d', config, step) && step.id in d'.operators
    ensures Frozen(d'.operators[step.id], d'.epoch)
  {
    assert OperatorOk(d, step.id);
    SlashBatchSucceeds(d.operators[step.id], d.epoch, step.ns);
  }

  lemma EndEpochFrozen(d: Domain, d': Domain, config: Config, chainRewards: nat, id: OperatorId)
    requires AllOk(d, config) && EndEpoch(d, chainRewards) == Some(d') && id in d'.operators && !Live(d', id)
    ensures Frozen(d'.operators[id], d'.epoch)
  {
    EpochTransition.EndEpochKeeps(d, d', config, chainRewards);
    EpochTransition.EndEpochOthers(d, d', chainRewards, id);
    FrozenLater(d.operators[id], d.epoch, d'.epoch);
  }

  lemma NextFrozen(d: Domain, d': Domain, config: Config, step: Step, id: OperatorId)
    requires AllOk(d, config) && ConfigOk(config) && Next(d, d', config, step) && id in d'.operators && !Live(d', id)
    ensures Frozen(d'.operators[id], d'.epoch)
  {
    if step.DrainStep? {
      DrainFrozen(d, d', config, step, id);
    } else if step.EndEpochStep? {
      EndEpochFrozen(d, d', config, step.chainRewards, id);
    } else if step.RegisterStep? && id == d.nextId {
      RegisterFrozen(d, d', config, step);
    } else {
      NextCore(d, d', config, step, id);
      CoreFreezes(d, d', config, id);
    }
  }

  lemma NextCore(d: Domain, d': Domain, config: Config, step: Step, id: OperatorId)
    requires SetsOk(d) && Next(d, d', config, step) && id in d'.operators && !Live(d', id)
    requires !step.DrainStep? && !step.EndEpochStep? && (step.RegisterStep? ==> id != d.nextId)
    ensures id in d.operators && SameCore(d.operators[id], d'.operators[id]) && d'.epoch == d.epoch
  {
    if step.NominateStep? || step.WithdrawStep? || step.UnlockFundsStep? {
      PoolStepCore(d, d', config, step, id);
    } else if step.UnlockNominatorStep? {
      UnlockStepCore(d, d', step.id, step.n, id);
    } else if step.RewardStep? || step.AdvanceStep? || step.FundStep? || step.PendingStep? || step.RegisterStep? {
      OtherStepCore(d, d', config, step, id);
    } else {
      StatusStepCore(d, d', config, step, id);
    }
  }

  // ---- Runs ----

  ghost function AllOf(config: Config): Domain -> bool { d => AllOk(d, config) }

  /** A step keeps sound pools sound and frozen pools frozen exactly when it is timely. */
  lemma StepKeepsAll(d: Domain, d': Domain, config: Config, step: Step)
    requires AllOk(d, config) && ConfigOk(config) && Next(d, d', config, step)
    ensures AllOk(d', config) <==> Timely(d, step)
  {
    NextKeeps(d, d', config, step);
    forall id | id in d'.operators && !Live(d', id)
      ensures Frozen(d'.operators[id], d'.epoch)
    {
      NextFrozen(d, d', config, step, id);
    }
  }

  lemma AllInductive(config: Config)
    requires ConfigOk(config)
    ensures R.Inductive(Start(), StepOf(config), AllOf(config))
  {
    EmptyOk(config);
    forall d, d' | AllOf(config)(d) && StepOf(config)(d, d')
      ensures AllOf(config)(d')
    {
      var step :| Next(d, d', config, step) && Timely(d, step);
      StepKeepsAll(d, d', config, step);
    }
  }

  /** In every state of every run, a round of slashing any nominators of a slashed operator fails only when the pool
      has no shares left to build a price from. */
  lemma SlashingNeverOverdraws(run: seq<Domain>, config: Config, i: nat, id: OperatorId, ns: seq<AccountId>)
    requires ConfigOk(config) && R.IsRun(run, Start(), StepOf(config)) && i < |run|
    requires id in run[i].pendingSlashes && id in run[i].operators
    requires Distinct(ns) && forall k :: 0 <= k < |ns| ==> ns[k] in run[i].operators[id].deposits
    ensures SlashBatch(run[i].operators[id], run[i].epoch, ns).Ok? <==> run[i].operators[id].totalShares > 0
  {
    AllInductive(config);
    R.Invariance(run, Start(), StepOf(config), AllOf(config), i);
    assert AllOf(config)(run[i]);
    assert OperatorOk(run[i], id);
    SlashBatchSucceeds(run[i].operators[id], run[i].epoch, ns);
  }

  // ---- Single calls ----

  lemma RegisterOutcome(d: Domain, config: Config, owner: AccountId, amount: nat, minStake: nat, tax: Percent)
    requires AllOk(d, config) && ConfigOk(config)
    ensures var r := DomainStaking.Register(d, config, owner, amount, minStake, tax);
            r.Ok? ==> AllOk(r.value, config) && d.nextId !in d.operators
  {
    var r := DomainStaking.Register(d, config, owner, amount, minStake, tax);
    if r.Ok? {
      StepKeepsAll(d, r.value, config, RegisterStep(owner, amount, minStake, tax));
      assert d.nextId in d.operators ==> OperatorOk(d, d.nextId);
    }
  }

  lemma DeactivateOutcome(d: Domain, config: Config, id: OperatorId)
    requires AllOk(d, config) && ConfigOk(config)
    ensures Deactivate(d, config, id).Ok? <==> id in d.operators && StatusIn(d, id) == Registered
    ensures Deactivate(d, config, id).Ok? ==> AllOk(Deactivate(d, config, id).value, config)
  {
    DeactivateKeeps(d, config, id);
    if Deactivate(d, config, id).Ok? {
      StepKeepsAll(d, Deactivate(d, config, id).value, config, DeactivateStep(id));
    }
  }

  lemma LeaveOutcome(d: Domain, config: Config, id: OperatorId, n: AccountId)
    requires AllOk(d, config) && ConfigOk(config)
    ensures DomainStaking.UnlockNominator(d, id, n).Ok? <==> StakingRefusals.MayLeave(d, id, n)
    ensures var r := DomainStaking.UnlockNominator(d, id, n);
            r.Ok? ==> (AllOk(r.value, config) <==> CanLeave(d, id, n))
  {
    StakingRefusals.UnlockNominatorRefused(d, config, id, n);
    var r := DomainStaking.UnlockNominator(d, id, n);
    if r.Ok? {
      StepKeepsAll(d, r.value, config, UnlockNominatorStep(id, n));
    }
  }

  lemma DrainOutcome(d: Domain, config: Config, id: OperatorId, ns: seq<AccountId>, treasury: nat)
    requires AllOk(d, config) && ConfigOk(config) && id in d.pendingSlashes && id in d.operators
    requires Distinct(ns) && forall i :: 0 <= i < |ns| ==> ns[i] in d.operators[id].deposits
    ensures DrainSlashed(d, id, ns, treasury).Ok? <==> d.operators[id].totalShares > 0
    ensures DrainSlashed(d, id, ns, treasury).Ok? ==> AllOk(DrainSlashed(d, id, ns, treasury).value, config)
  {
    assert OperatorOk(d, id);
    SlashBatchSucceeds(d.operators[id], d.epoch, ns);
    if DrainSlashed(d, id, ns, treasury).Ok? {
      StepKeepsAll(d, DrainSlashed(d, id, ns, treasury).value, config, DrainStep(id, ns, treasury));
    }
  }

  // ---- Lists of operators ----

  lemma {:induction false} MarkAllSlashedKeeps(d: Domain, config: Config, ids: seq<OperatorId>)
    requires AllOk(d, config) && ConfigOk(config)
    ensures MarkAllSlashed(d, ids).Ok? && AllOk(MarkAllSlashed(d, ids).value, config)
  {
    if ids != [] {
      var id := ids[|ids| - 1];
      MarkAllSlashedKeeps(d, config, ids[..|ids| - 1]);
      var d1 := MarkAllSlashed(d, ids[..|ids| - 1]).value;
      MarkSlashedKeeps(d1, config, id);
      StepKeepsAll(d1, MarkAllSlashed(d, ids).value, config, MarkSlashedStep(id));
    }
  }

  lemma {:induction false} MarkAllInvalidKeeps(d: Domain, config: Config, ids: seq<OperatorId>, receipt: ReceiptHash)
    requires AllOk(d, config) && ConfigOk(config)
    ensures MarkAllInvalid(d, ids, receipt).Ok? && AllOk(MarkAllInvalid(d, ids, receipt).value, config)
  {
    if ids != [] {
      var id := ids[|ids| - 1];
      MarkAllInvalidKeeps(d, config, ids[..|ids| - 1], receipt);
      var d1 := MarkAllInvalid(d, ids[..|ids| - 1], receipt).value;
      MarkInvalidKeeps(d1, config, id, receipt);
      StepKeepsAll(d1, MarkAllInvalid(d, ids, receipt).value, config, MarkInvalidStep(id, receipt));
    }
  }

  lemma {:induction false} UnmarkAllInvalidKeeps(d: Domain, config: Config, ids: seq<OperatorId>, receipt: ReceiptHash)
    requires AllOk(d, config) && ConfigOk(config)
    ensures AllOk(UnmarkAllInvalid(d, ids, receipt), config)
  {
    if ids != [] {
      UnmarkAllInvalidKeeps(d, config, ids[..|ids| - 1], receipt);
      StepKeepsAll(UnmarkAllInvalid(d, ids[..|ids| - 1], receipt), UnmarkAllInvalid(d, ids, receipt), config,
                   UnmarkInvalidStep(ids[|ids| - 1], receipt));
    }
  }

  // ---- The value of a frozen pool ----

  /** What a later state keeps of a frozen pool: it stays frozen, and funded if it was. */
  ghost predicate StaysFunded(a: Domain, d: Domain, id: OperatorId) {
    && a.nextId <= d.nextId
    && (id in a.operators && !Live(a, id) && Funded(a.operators[id]) && id in d.operators ==>
        !Live(d, id) && Funded(d.operators[id]))
  }

  lemma DrainStaysFunded(d: Domain, d': Domain, step: Step, id: OperatorId, config: Config)
    requires SetsOk(d) && step.DrainStep? && Next(d, d', config, step) && id in d.operators && id in d'.operators
    requires !Live(d, id) && Funded(d.operators[id])
    ensures Funded(d'.operators[id])
  {
    DrainSets(d, d', step.id, step.ns, step.treasury);
    if id == step.id {
      var p := d.operators[id];
      SlashEachKeepsFunded(p, d.epoch, SharePrice.New(p.totalShares, p.totalStake).value, step.ns);
    } else {
      assert SameFor(d, d', id);
    }
  }

  lemma NextStaysFunded(d: Domain, d': Domain, config: Config, step: Step, id: OperatorId)
    requires SetsOk(d) && Next(d, d', config, step) && id in d.operators && id in d'.operators && !Live(d', id)
    requires !Live(d, id) && Funded(d.operators[id])
    ensures Funded(d'.operators[id])
  {
    if step.DrainStep? {
      DrainStaysFunded(d, d', step, id, config);
    } else if step.EndEpochStep? {
      EpochTransition.EndEpochOthers(d, d', step.chainRewards, id);
    } else {
      assert OperatorOk(d, id);
      NextCore(d, d', config, step, id);
    }
  }

  lemma StaysFundedNext(a: Domain, d: Domain, d': Domain, config: Config, step: Step, id: OperatorId)
    requires SetsOk(a) && Inv(d, config) && StaysFunded(a, d, id) && Next(d, d', config, step)
    ensures StaysFunded(a, d', id)
  {
    NextCounters(d, d', config, step);
    if id in a.operators && !Live(a, id) && Funded(a.operators[id]) && id in d'.operators {
      assert OperatorOk(a, id);
      NextIds(d, d', config, step, id);
      if Live(d', id) {
        NextEvolves(d, d', config, step, id);
        assert false;
      }
      NextStaysFunded(d, d', config, step, id);
    }
  }

  ghost function StaysFundedFor(id: OperatorId): (Domain, Domain) -> bool { (a, d) => StaysFunded(a, d, id) }

  lemma StaysFundedExtends(config: Config, id: OperatorId)
    ensures R.Extends(StepOf(config), InvOf(config), StaysFundedFor(id))
  {
    forall a, d, d' | InvOf(config)(a) && InvOf(config)(d) && StaysFundedFor(id)(a, d) && StepOf(config)(d, d')
      ensures StaysFundedFor(id)(a, d')
    {
      var step :| Next(d, d', config, step) && Timely(d, step);
      StaysFundedNext(a, d, d', config, step, id);
    }
  }

  lemma DrainOthers(d: Domain, d': Domain, config: Config, step: Step, id: OperatorId)
    requires SetsOk(d) && step.DrainStep? && Next(d, d', config, step) && Live(d, id)
    ensures id in d'.operators && d'.operators[id] == d.operators[id]
  {
    DrainSets(d, d', step.id, step.ns, step.treasury);
    assert OperatorOk(d, step.id);
    assert SameFor(d, d', id);
  }

  lemma FreezeCore(d: Domain, d': Domain, config: Config, step: Step, id: OperatorId)
    requires Inv(d, config) && Next(d, d', config, step) && Live(d, id) && id in d'.operators && !Live(d', id)
    ensures SameCore(d.operators[id], d'.operators[id])
  {
    if step.DrainStep? {
      DrainOthers(d, d', config, step, id);
    } else if step.EndEpochStep? {
      EpochTransition.EndEpochKeeps(d, d', config, step.chainRewards);
      assert false;
    } else {
      assert OperatorOk(d, id);
      NextCore(d, d', config, step, id);
    }
  }

  /** Freezing leaves the pool funded exactly when it has no open withdrawal of its registration epoch. */
  lemma FreezingFunds(d: Domain, d': Domain, config: Config, id: OperatorId)
    requires Inv(d, config) && CanStep(d, d', config) && Live(d, id) && id in d'.operators && !Live(d', id)
    ensures Funded(d'.operators[id]) <==>
            (d.epoch in d.operators[id].prices ==> d.operators[id].withdrawalsInEpoch == 0)
  {
    var step :| Next(d, d', config, step) && Timely(d, step);
    FreezeCore(d, d', config, step, id);
    FreezesFunded(d.operators[id], config, d.epoch, d.head);
  }

  /** From the step in which an operator is slashed or becomes pending slash until its pool is gone, whatever rounds of
      slashing take and however many epochs pass, the pool never owes or pays more than was put in: provided that it
      had no open withdrawal if it froze in its registration epoch. */
  lemma SlashedPoolsStayFunded(run: seq<Domain>, config: Config, i: nat, j: nat, id: OperatorId)
    requires ConfigOk(config) && R.IsRun(run, Start(), StepOf(config)) && i < j < |run|
    requires Live(run[i], id) && id in run[i + 1].operators && !Live(run[i + 1], id) && id in run[j].operators
    requires run[i].epoch in run[i].operators[id].prices ==> run[i].operators[id].withdrawalsInEpoch == 0
    ensures !Live(run[j], id) && Funded(run[j].operators[id])
  {
    RunInvariant(run, config, i);
    assert StepOf(config)(run[i + 1 - 1], run[i + 1]);
    FreezingFunds(run[i], run[i + 1], config, id);
    InvInductive(config);
    StaysFundedExtends(config, id);
    R.Progress(run, Start(), StepOf(config), InvOf(config), StaysFundedFor(id), i + 1, j);
    assert StaysFundedFor(id)(run[i + 1], run[j]);
  }
}
