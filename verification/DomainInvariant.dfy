/** What every operation keeps true of the staking state of a domain. */
module DomainInvariant {
  import opened ReceiptTypes
  import opened StakingTypes
  import opened OperatorPool
  import opened DomainStaking
  import opened MapSums
  import opened Splitting
  import opened Perquintill
  import PoolInvariant
  import PoolSteps
  import SharePrice

  ghost predicate ConfigOk(config: Config) { config.minOperatorStake > 0 && config.withdrawalLimit > 0 }

  /** A live operator with deposits or withdrawals in the running epoch is in one of the sets that the epoch
      boundary walks through. */
  ghost predicate Covered(d: Domain, id: OperatorId)
    requires id in d.operators
  {
    var p := d.operators[id];
    match p.status
    case Registered => id in d.next
    case Deregistered(epoch, _) =>
      && epoch <= d.epoch
      && (epoch < d.epoch ==> Idle(p) && d.epoch !in p.prices)
      && (!Idle(p) ==> id in d.deregistered)
    case Deactivated(_) => !Idle(p) ==> id in d.deactivated
    case InvalidBundle(_) => !Idle(p) ==> id in d.invalidAuthors
    case _ => true
  }

  /** Its place in the operator sets. */
  ghost predicate Placed(d: Domain, id: OperatorId)
    requires id in d.operators
  {
    var p := d.operators[id];
    && id < d.nextId
    && !p.status.PendingSlash?
    && (p.ownerLeft ==> p.status.Deregistered? || p.status.Slashed?)
    && (id in d.next ==> p.status.Registered?)
    && (id in d.current ==>
        && d.current[id] == p.totalStake
        && (p.status.Registered? || (p.status.Deregistered? && p.status.epoch == d.epoch)))
    && (id in d.pendingSlashes <==> p.status.Slashed?)
  }

  ghost predicate OperatorOk(d: Domain, id: OperatorId)
    requires id in d.operators
  {
    Placed(d, id) && (Live(d, id) ==> Covered(d, id))
  }

  ghost predicate SetsOk(d: Domain) {
    && (forall id :: id in d.operators ==> OperatorOk(d, id))
    && d.next <= d.operators.Keys
    && d.current.Keys <= d.operators.Keys
    && d.pendingSlashes <= d.operators.Keys
    && d.totalStake == Total(d.current, Itself())
  }

  ghost predicate PoolsOk(d: Domain, config: Config) {
    forall id :: Live(d, id) ==> PoolInvariant.Inv(d.operators[id], config, d.epoch, d.head)
  }

  ghost predicate Inv(d: Domain, config: Config) { SetsOk(d) && PoolsOk(d, config) }

  lemma EmptyOk(config: Config)
    ensures Inv(EmptyDomain(), config)
  {}

  // ---- Operations on one operator ----

  ghost predicate SameFor(d: Domain, d': Domain, id: OperatorId) {
    && id in d.operators && id in d'.operators && d'.operators[id] == d.operators[id]
    && (id in d.next <==> id in d'.next)
    && (id in d.current <==> id in d'.current)
    && (id in d.current ==> d.current[id] == d'.current[id])
    && (id in d.deregistered ==> id in d'.deregistered)
    && (id in d.deactivated ==> id in d'.deactivated)
    && (id in d.invalidAuthors ==> id in d'.invalidAuthors)
    && (id in d.pendingSlashes <==> id in d'.pendingSlashes)
    && (id in d.pendingSlash <==> id in d'.pendingSlash)
  }

  /** `d'` is `d` with the operator `id` changed and, possibly, taken out of the current set. */
  ghost predicate OnlyAt(d: Domain, d': Domain, id: OperatorId) {
    && (forall i :: i != id && i in d.operators ==> SameFor(d, d', i))
    && (forall i :: i != id && i in d'.operators ==> i in d.operators)
    && d'.next <= d.next + {id}
    && d'.pendingSlashes <= d.pendingSlashes + {id}
    && d.nextId <= d'.nextId && d.epoch == d'.epoch && d.head == d'.head
    && (|| (d'.current == d.current && d'.totalStake == d.totalStake)
        || (id in d.current && d'.current == d.current - {id} && d'.totalStake == d.totalStake - d.current[id]))
  }

  lemma OneOperatorSets(d: Domain, d': Domain, id: OperatorId)
    requires SetsOk(d) && OnlyAt(d, d', id)
    requires id in d'.operators ==> OperatorOk(d', id)
    requires id !in d'.operators ==> id !in d'.next && id !in d'.current && id !in d'.pendingSlashes
    ensures SetsOk(d')
  {
    OthersOk(d, d', id);
    StakeSum(d, d', id);
    WithinOperators(d, d', id);
  }

  lemma WithinOperators(d: Domain, d': Domain, id: OperatorId)
    requires d.next <= d.operators.Keys && d.current.Keys <= d.operators.Keys && d.pendingSlashes <= d.operators.Keys
    requires OnlyAt(d, d', id)
    requires id !in d'.operators ==> id !in d'.next && id !in d'.current && id !in d'.pendingSlashes
    ensures d'.next <= d'.operators.Keys && d'.current.Keys <= d'.operators.Keys
    ensures d'.pendingSlashes <= d'.operators.Keys
  {
    forall i | i in d.operators && i != id
      ensures i in d'.operators
    {
      assert SameFor(d, d', i);
    }
  }

  lemma StakeSum(d: Domain, d': Domain, id: OperatorId)
    requires d.totalStake == Total(d.current, Itself()) && OnlyAt(d, d', id)
    ensures d'.totalStake == Total(d'.current, Itself())
  {
    TotalRemove(d.current, Itself(), id);
  }

  lemma OthersOk(d: Domain, d': Domain, id: OperatorId)
    requires (forall i :: i in d.operators ==> OperatorOk(d, i)) && OnlyAt(d, d', id)
    ensures forall i :: i in d'.operators && i != id ==> OperatorOk(d', i)
  {
    forall i | i in d'.operators && i != id
      ensures OperatorOk(d', i)
    {
      assert SameFor(d, d', i);
      SameForOk(d, d', i);
    }
  }

  lemma SameForOk(d: Domain, d': Domain, i: OperatorId)
    requires SameFor(d, d', i) && OperatorOk(d, i) && d.nextId <= d'.nextId && d.epoch == d'.epoch
    ensures OperatorOk(d', i)
  {}

  lemma OneOperatorPools(d: Domain, d': Domain, config: Config, id: OperatorId)
    requires PoolsOk(d, config) && OnlyAt(d, d', id)
    requires Live(d', id) ==> PoolInvariant.Inv(d'.operators[id], config, d.epoch, d.head)
    ensures PoolsOk(d', config)
  {
    forall i | Live(d', i)
      ensures PoolInvariant.Inv(d'.operators[i], config, d'.epoch, d'.head)
    {
      if i != id {
        assert SameFor(d, d', i);
        assert Live(d, i);
      }
    }
  }

  lemma PoolOnly(d: Domain, d': Domain, id: OperatorId, p: Pool)
    requires id in d.operators && d.deactivated <= d'.deactivated
    requires d' == SetPool(d, id, p).(deactivated := d'.deactivated, treasury := d'.treasury)
    ensures OnlyAt(d, d', id)
  {}

  lemma StatusOnly(d: Domain, d': Domain, id: OperatorId, status: OperatorStatus)
    requires id in d.operators && d'.next - {id} == d.next - {id}
    requires d.deregistered - {id} <= d'.deregistered && d.deactivated - {id} <= d'.deactivated
    requires d.invalidAuthors - {id} <= d'.invalidAuthors
    requires d' == SetStatus(d, id, status).(next := d'.next, deregistered := d'.deregistered,
                                             deactivated := d'.deactivated, invalidAuthors := d'.invalidAuthors)
    ensures OnlyAt(d, d', id)
  {
    forall i | i != id && i in d.operators
      ensures SameFor(d, d', i)
    {
      assert i in d.next <==> i in d.next - {id};
      assert i in d'.next <==> i in d'.next - {id};
    }
    forall i | i in d'.next
      ensures i in d.next + {id}
    {
      assert i != id ==> i in d'.next - {id};
    }
  }

  ghost predicate SameRatio(p: Pool, p': Pool) {
    && p'.totalStake == p.totalStake && p'.totalShares == p.totalShares
    && p'.prices == p.prices && p'.ownerLeft == p.ownerLeft
  }

  /** Replacing a pool by one of the same status and stake. */
  lemma PoolStepKeeps(d: Domain, d': Domain, config: Config, id: OperatorId, p: Pool)
    requires Inv(d, config) && Live(d, id)
    requires d' == SetPool(d, id, p).(deactivated := d'.deactivated) && d.deactivated <= d'.deactivated
    requires p.status == d.operators[id].status && SameRatio(d.operators[id], p)
    requires PoolInvariant.Inv(p, config, d.epoch, d.head) && Covered(d', id)
    ensures Inv(d', config)
  {
    PoolStepSets(d, d', id, p);
    OneOperatorPools(d, d', config, id);
  }

  lemma PoolStepSets(d: Domain, d': Domain, id: OperatorId, p: Pool)
    requires SetsOk(d) && Live(d, id)
    requires d' == SetPool(d, id, p).(deactivated := d'.deactivated) && d.deactivated <= d'.deactivated
    requires p.status == d.operators[id].status && SameRatio(d.operators[id], p)
    requires Covered(d', id)
    ensures SetsOk(d') && OnlyAt(d, d', id)
  {
    assert OperatorOk(d, id);
    PoolOnly(d, d', id, p);
    OneOperatorSets(d, d', id);
  }

  lemma NominateFrame(p: Pool, p': Pool, current: nat, pendingSlash: bool, n: AccountId, amount: nat)
    requires OperatorPool.Nominate(p, current, pendingSlash, n, amount) == Ok(p')
    ensures p'.status == p.status && SameRatio(p, p') && StatusOf(p.status, pendingSlash) == Registered
  {}

  /** A nomination keeps the share books of the pool, and with them the domain sound, exactly when it comes after the
      epoch in which the operator registered. */
  lemma NominateKeeps(d: Domain, d': Domain, config: Config, id: OperatorId, n: AccountId, amount: nat)
    requires Inv(d, config)
    requires DomainStaking.Nominate(d, id, n, amount) == Ok(d')
    ensures PoolInvariant.Books(d'.operators[id], d.epoch) <==> d.epoch !in d.operators[id].prices
    ensures Inv(d', config) <==> d.epoch !in d.operators[id].prices
  {
    var p, p' := d.operators[id], d'.operators[id];
    NominateFrame(p, p', d.epoch, id in d.pendingSlash, n, amount);
    PoolSteps.NominateKeeps(p, p', config, d.epoch, d.head, id in d.pendingSlash, n, amount);
    assert Live(d', id);
    if d.epoch !in p.prices {
      PoolStepKeeps(d, d', config, id, p');
    }
  }

  lemma WithdrawFrame(p: Pool, p': Pool, config: Config, current: nat, head: nat, pendingSlash: bool,
                      rewards: Option<nat>, n: AccountId, shares: nat)
    requires OperatorPool.Withdraw(p, config, current, head, pendingSlash, rewards, n, shares) == Ok(p')
    ensures p'.status == p.status && SameRatio(p, p')
    ensures RegisteredOrDeactivated(StatusOf(p.status, pendingSlash))
  {}

  lemma WithdrawKeeps(d: Domain, d': Domain, config: Config, id: OperatorId, n: AccountId, shares: nat)
    requires Inv(d, config) && ConfigOk(config)
    requires DomainStaking.Withdraw(d, config, id, n, shares) == Ok(d')
    ensures Inv(d', config)
  {
    var p, p' := d.operators[id], d'.operators[id];
    var rewards := RewardIn(d, id);
    WithdrawFrame(p, p', config, d.epoch, d.head, id in d.pendingSlash, rewards, n, shares);
    PoolSteps.WithdrawKeeps(p, p', config, d.epoch, d.head, id in d.pendingSlash, rewards, n, shares);
    PoolStepKeeps(d, d', config, id, p');
  }

  lemma UnlockFundsFrame(p: Pool, p': Pool, current: nat, head: nat, pendingSlash: bool, n: AccountId)
    requires OperatorPool.UnlockFunds(p, current, head, pendingSlash, n) == Ok(p')
    ensures p'.status == p.status && SameRatio(p, p') && (Idle(p') <==> Idle(p))
    ensures RegisteredOrDeactivated(StatusOf(p.status, pendingSlash))
  {}

  lemma UnlockFundsKeeps(d: Domain, d': Domain, config: Config, id: OperatorId, n: AccountId)
    requires Inv(d, config)
    requires DomainStaking.UnlockFunds(d, id, n) == Ok(d')
    ensures Inv(d', config)
  {
    var p, p' := d.operators[id], d'.operators[id];
    UnlockFundsFrame(p, p', d.epoch, d.head, id in d.pendingSlash, n);
    PoolSteps.UnlockFundsKeeps(p, p', config, d.epoch, d.head, id in d.pendingSlash, n);
    PoolStepKeeps(d, d', config, id, p');
  }

  lemma UnlockNominatorFrame(p: Pool, p': Pool, current: nat, head: nat, pendingSlash: bool, n: AccountId)
    requires OperatorPool.UnlockNominator(p, current, head, pendingSlash, n) == Ok(p')
    ensures p'.status == p.status && StatusOf(p.status, pendingSlash) == p.status && p.status.Deregistered?
    ensures p'.prices == p.prices && (Idle(p') <==> Idle(p)) && (p.ownerLeft ==> p'.ownerLeft)
  {}

  /** The stake of the shares of a nominator, at the price of the moment. */
  ghost function StakeOf(p: Pool, current: nat, n: AccountId): nat {
    var price := SharePrice.New(p.totalShares, p.totalStake);
    if price.Ok? then SharePrice.SharesToStake(price.value, SlashedShares(p, current, n)) else 0
  }

  /** An operator that was in the operator set of the running epoch keeps its stake until the epoch ends, and nobody
      leaves anything behind in the totals of the epoch. */
  ghost predicate CanLeave(d: Domain, id: OperatorId, n: AccountId) {
    && id in d.operators
    && var p := d.operators[id];
    && (id in d.current ==> p.deposits.Keys != {n} && StakeOf(p, d.epoch, n) == 0)
    && (p.deposits.Keys != {n} ==> PoolSteps.NothingOpen(p, n, d.epoch))
  }

  lemma UnlockNominatorTakes(p: Pool, p': Pool, current: nat, head: nat, pendingSlash: bool, n: AccountId)
    requires OperatorPool.UnlockNominator(p, current, head, pendingSlash, n) == Ok(p')
    ensures p'.totalStake == p.totalStake - StakeOf(p, current, n)
    ensures p'.deposits == p.deposits - {n} && p'.withdrawals == p.withdrawals - {n} && n in p.deposits
  {}

  lemma CanLeaveLater(d: Domain, config: Config, id: OperatorId, n: AccountId)
    requires Inv(d, config) && id in d.operators && id !in d.pendingSlash && n in d.operators[id].deposits
    requires var s := d.operators[id].status; s.Deregistered? && s.epoch < d.epoch
    ensures CanLeave(d, id, n)
  {
    assert Live(d, id) && OperatorOk(d, id);
    PoolSteps.IdleNothingOpen(d.operators[id], n, d.epoch);
  }

  /** What the call does to the pool, and to the domain. */
  lemma UnlockNominatorIs(d: Domain, d': Domain, config: Config, id: OperatorId, n: AccountId) returns (p': Pool)
    requires PoolsOk(d, config) && DomainStaking.UnlockNominator(d, id, n) == Ok(d')
    ensures Live(d, id)
    ensures OperatorPool.UnlockNominator(d.operators[id], d.epoch, d.head, id in d.pendingSlash, n) == Ok(p')
    ensures n in d.operators[id].deposits && Unlocked(d, d', id, p', d.operators[id].deposits.Keys == {n})
  {
    var p := d.operators[id];
    p' := OperatorPool.UnlockNominator(p, d.epoch, d.head, id in d.pendingSlash, n).value;
    UnlockNominatorFrame(p, p', d.epoch, d.head, id in d.pendingSlash, n);
    UnlockNominatorTakes(p, p', d.epoch, d.head, id in d.pendingSlash, n);
    assert Live(d, id);
    LastLeaves(p, p', config, d.epoch, d.head, n);
  }

  lemma LeavingSets(d: Domain, d': Domain, config: Config, id: OperatorId, n: AccountId)
    requires Inv(d, config) && DomainStaking.UnlockNominator(d, id, n) == Ok(d')
    ensures SetsOk(d') <==>
            (id in d.current ==> d.operators[id].deposits.Keys != {n} && StakeOf(d.operators[id], d.epoch, n) == 0)
  {
    var p := d.operators[id];
    var p' := UnlockNominatorIs(d, d', config, id, n);
    UnlockNominatorFrame(p, p', d.epoch, d.head, id in d.pendingSlash, n);
    UnlockNominatorTakes(p, p', d.epoch, d.head, id in d.pendingSlash, n);
    UnlockNominatorSets(d, d', id, p', p.deposits.Keys == {n});
  }

  lemma LeavingPool(p: Pool, p': Pool, config: Config, current: nat, head: nat, pendingSlash: bool, n: AccountId)
    requires PoolInvariant.Inv(p, config, current, head) && p.deposits.Keys != {n}
    requires OperatorPool.UnlockNominator(p, current, head, pendingSlash, n) == Ok(p')
    ensures PoolInvariant.Inv(p', config, current, head) <==> PoolSteps.NothingOpen(p, n, current)
  {
    PoolSteps.UnlockNominatorKeeps(p, p', config, current, head, pendingSlash, n);
    UnlockNominatorTakes(p, p', current, head, pendingSlash, n);
    LastLeaves(p, p', config, current, head, n);
  }

  lemma LeavingPools(d: Domain, d': Domain, config: Config, id: OperatorId, n: AccountId)
    requires PoolsOk(d, config) && DomainStaking.UnlockNominator(d, id, n) == Ok(d')
    ensures PoolsOk(d', config) <==>
            (d.operators[id].deposits.Keys != {n} ==> PoolSteps.NothingOpen(d.operators[id], n, d.epoch))
  {
    var p := d.operators[id];
    var p' := UnlockNominatorIs(d, d', config, id, n);
    UnlockNominatorFrame(p, p', d.epoch, d.head, id in d.pendingSlash, n);
    UnlockNominatorPools(d, d', config, id, p', p.deposits.Keys == {n});
    if p.deposits.Keys != {n} {
      LeavingPool(p, p', config, d.epoch, d.head, id in d.pendingSlash, n);
    }
  }

  /** A nominator leaving keeps the domain sound exactly when it can leave, as it can in every later epoch than that of
      the deregistration. */
  lemma UnlockNominatorKeeps(d: Domain, d': Domain, config: Config, id: OperatorId, n: AccountId)
    requires Inv(d, config)
    requires DomainStaking.UnlockNominator(d, id, n) == Ok(d')
    ensures Inv(d', config) <==> CanLeave(d, id, n)
    ensures d.operators[id].status.Deregistered? && (d.operators[id].status.epoch < d.epoch ==> CanLeave(d, id, n))
  {
    var p' := UnlockNominatorIs(d, d', config, id, n);
    LeavingSets(d, d', config, id, n);
    LeavingPools(d, d', config, id, n);
    if d.operators[id].status.epoch < d.epoch {
      CanLeaveLater(d, config, id, n);
    }
  }

  lemma LastLeaves(p: Pool, p': Pool, config: Config, current: nat, head: nat, n: AccountId)
    requires PoolInvariant.Holdings(p, config, current, head) && n in p.deposits
    requires p'.deposits == p.deposits - {n} && p'.withdrawals == p.withdrawals - {n}
    ensures p.deposits.Keys == {n} <==> p'.deposits == map[] && p'.withdrawals == map[]
  {
    assert p'.deposits.Keys == p.deposits.Keys - {n};
    assert p'.deposits == map[] <==> p'.deposits.Keys == {};
    if p.deposits.Keys == {n} {
      assert p'.withdrawals == map[];
    }
  }

  ghost predicate Unlocked(d: Domain, d': Domain, id: OperatorId, p': Pool, last: bool) {
    if last then d' == d.(operators := d.operators - {id}, treasury := d'.treasury) else d' == SetPool(d, id, p')
  }

  lemma UnlockedOnly(d: Domain, d': Domain, id: OperatorId, p': Pool, last: bool)
    requires id in d.operators && Unlocked(d, d', id, p', last)
    ensures OnlyAt(d, d', id)
  {}

  lemma UnlockNominatorPools(d: Domain, d': Domain, config: Config, id: OperatorId, p': Pool, last: bool)
    requires PoolsOk(d, config) && Live(d, id) && p'.status == d.operators[id].status && Unlocked(d, d', id, p', last)
    ensures PoolsOk(d', config) <==> last || PoolInvariant.Inv(p', config, d.epoch, d.head)
  {
    if last || PoolInvariant.Inv(p', config, d.epoch, d.head) {
      UnlockedOnly(d, d', id, p', last);
      OneOperatorPools(d, d', config, id);
    } else {
      assert Live(d', id);
    }
  }

  lemma UnlockNominatorSets(d: Domain, d': Domain, id: OperatorId, p': Pool, last: bool)
    requires SetsOk(d) && Live(d, id) && d.operators[id].status.Deregistered?
    requires p'.status == d.operators[id].status && p'.prices == d.operators[id].prices
    requires Idle(p') <==> Idle(d.operators[id])
    requires Unlocked(d, d', id, p', last)
    ensures SetsOk(d') <==> (id in d.current ==> !last && p'.totalStake == d.operators[id].totalStake)
  {
    assert OperatorOk(d, id);
    if id in d.current ==> !last && p'.totalStake == d.operators[id].totalStake {
      UnlockedOnly(d, d', id, p', last);
      OneOperatorSets(d, d', id);
    } else if !last {
      assert !Placed(d', id);
    }
  }

  lemma RegisterKeeps(d: Domain, d': Domain, config: Config, owner: AccountId, amount: nat, minStake: nat, tax: Percent)
    requires Inv(d, config) && ConfigOk(config)
    requires DomainStaking.Register(d, config, owner, amount, minStake, tax) == Ok(d')
    ensures Inv(d', config)
  {
    RegisterOk(owner, amount, minStake, tax, d.epoch, config, d.head);
    RegisterSets(d, d', OperatorPool.Register(owner, amount, minStake, tax, d.epoch));
    OneOperatorPools(d, d', config, d.nextId);
  }

  lemma RegisterSets(d: Domain, d': Domain, p: Pool)
    requires SetsOk(d) && p.status.Registered? && !p.ownerLeft
    requires d' == d.(operators := d.operators[d.nextId := p], nextId := d.nextId + 1, next := d.next + {d.nextId})
    ensures SetsOk(d') && OnlyAt(d, d', d.nextId)
  {
    assert forall i :: i in d.operators ==> OperatorOk(d, i);
    assert d.nextId !in d.operators;
    OneOperatorSets(d, d', d.nextId);
  }

  /** A new pool: the owner's deposit is already in the totals. */
  lemma RegisterOk(owner: AccountId, amount: nat, minStake: nat, tax: Percent, epoch: nat, config: Config, head: nat)
    requires amount > 0
    ensures PoolInvariant.Inv(OperatorPool.Register(owner, amount, minStake, tax, epoch), config, epoch, head)
  {
    var p := OperatorPool.Register(owner, amount, minStake, tax, epoch);
    MulFloorOne(p.totalStake);
    assert PoolInvariant.Books(p, epoch) by { RegisterBooks(p, epoch, owner, p.deposits[owner]); }
  }

  lemma RegisterBooks(p: Pool, epoch: nat, owner: AccountId, dep: Deposit)
    requires p.deposits == map[owner := dep] && p.withdrawals == map[]
    requires dep.pending.Some? && dep.pending.value.epoch in p.prices
    requires PoolInvariant.Claim(dep, p.prices) == p.totalShares == p.totalStake == p.credited
    requires p.depositsInEpoch == p.withdrawalsInEpoch == p.released == 0
    requires p.totalStorageFee == PoolInvariant.StorageDeposit(dep)
    ensures PoolInvariant.Books(p, epoch)
  {
    TotalSingleton(PoolInvariant.UnpricedIn(p.prices), owner, dep);
    TotalSingleton(PoolInvariant.ClaimIn(p.prices), owner, dep);
    TotalSingleton(PoolInvariant.StorageIn(), owner, dep);
    TotalZero(p.withdrawals, PoolInvariant.OpenAt(epoch));
    TotalZero(p.withdrawals, PoolInvariant.PromisedIn(p.prices, epoch));
  }

  // ---- Status changes ----

  /** Only the status and the set memberships of `id` changed, and nobody was brought back to life. */
  ghost predicate StatusChanged(d: Domain, d': Domain, id: OperatorId) {
    && OnlyAt(d, d', id) && id in d.operators && id in d'.operators
    && d'.operators[id] == d.operators[id].(status := d'.operators[id].status)
    && (Live(d', id) ==> Live(d, id))
  }

  lemma StatusPools(d: Domain, d': Domain, config: Config, id: OperatorId)
    requires PoolsOk(d, config) && StatusChanged(d, d', id)
    ensures PoolsOk(d', config)
  {
    if Live(d', id) {
      var p, p' := d.operators[id], d'.operators[id];
      assert PoolInvariant.Inv(p, config, d.epoch, d.head);
      StatusIrrelevant(p, p', config, d.epoch, d.head);
    }
    OneOperatorPools(d, d', config, id);
  }

  lemma StatusIrrelevant(p: Pool, p': Pool, config: Config, epoch: nat, head: nat)
    requires p' == p.(status := p'.status) && PoolInvariant.Inv(p, config, epoch, head)
    ensures PoolInvariant.Inv(p', config, epoch, head)
  {
    assert PoolInvariant.Books(p', epoch);
  }

  lemma DeregisterKeeps(d: Domain, d': Domain, config: Config, who: AccountId, id: OperatorId)
    requires Inv(d, config) && Deregister(d, config, who, id) == Ok(d')
    ensures Inv(d', config)
  {
    DeregisterSets(d, d', config, who, id);
    StatusPools(d, d', config, id);
  }

  lemma DeregisterSets(d: Domain, d': Domain, config: Config, who: AccountId, id: OperatorId)
    requires SetsOk(d) && Deregister(d, config, who, id) == Ok(d')
    ensures SetsOk(d') && StatusChanged(d, d', id)
  {
    assert OperatorOk(d, id);
    StatusOnly(d, d', id, Deregistered(d.epoch, d.head + config.lockingPeriod));
    OneOperatorSets(d, d', id);
  }

  /** Removing an operator from the sets never underflows the stake of the domain. */
  lemma DropFromSetsOk(d: Domain, id: OperatorId)
    requires SetsOk(d) && id in d.operators
    ensures DropFromSets(d, id).Ok?
    ensures var d' := DropFromSets(d, id).value;
            OnlyAt(d, d', id) && id !in d'.current && id !in d'.next && d'.operators == d.operators
  {
    assert OperatorOk(d, id);
    TotalAtLeast(d.current, Itself(), id);
  }

  /** Dropping `id` from the sets and giving it a status outside them. */
  lemma DropKeepsSets(d: Domain, d': Domain, id: OperatorId, status: OperatorStatus)
    requires SetsOk(d) && id in d.operators && DropFromSets(d, id).Ok?
    requires d' == SetStatus(DropFromSets(d, id).value, id, status).(
                     deactivated := d'.deactivated, invalidAuthors := d'.invalidAuthors,
                     pendingSlashes := d'.pendingSlashes)
    requires d.deactivated <= d'.deactivated && d.invalidAuthors <= d'.invalidAuthors
    requires d'.pendingSlashes == if status.Slashed? then d.pendingSlashes + {id} else d.pendingSlashes
    requires status.Slashed? || (Live(d, id) && d.operators[id].status.Registered?
                                 && ((status.Deactivated? && id in d'.deactivated)
                                     || (status.InvalidBundle? && id in d'.invalidAuthors)))
    ensures SetsOk(d') && StatusChanged(d, d', id)
  {
    DropFromSetsOk(d, id);
    DropChanges(d, DropFromSets(d, id).value, d', id);
    assert OperatorOk(d', id) by { assert OperatorOk(d, id); }
    OneOperatorSets(d, d', id);
  }

  lemma DropChanges(d: Domain, dropped: Domain, d': Domain, id: OperatorId)
    requires OnlyAt(d, dropped, id) && id in d.operators && dropped.operators == d.operators
    requires dropped.pendingSlash == d.pendingSlash && dropped.nextId == d.nextId
    requires id in d'.operators
    requires d' == SetStatus(dropped, id, d'.operators[id].status).(
                     deactivated := d'.deactivated, invalidAuthors := d'.invalidAuthors,
                     pendingSlashes := d'.pendingSlashes)
    requires dropped.deactivated <= d'.deactivated && dropped.invalidAuthors <= d'.invalidAuthors
    requires dropped.pendingSlashes <= d'.pendingSlashes <= dropped.pendingSlashes + {id}
    requires Live(d', id) ==> Live(d, id)
    ensures StatusChanged(d, d', id)
  {
    forall i | i != id && i in d.operators
      ensures SameFor(d, d', i)
    {
      assert SameFor(d, dropped, i);
    }
  }

  lemma DeactivateKeeps(d: Domain, config: Config, id: OperatorId)
    requires Inv(d, config)
    ensures var r := Deactivate(d, config, id);
            r.Ok? <==> Live(d, id) && d.operators[id].status.Registered?
    ensures Deactivate(d, config, id).Ok? ==> Inv(Deactivate(d, config, id).value, config)
  {
    if id in d.operators {
      DropFromSetsOk(d, id);
      if StatusIn(d, id) == Registered {
        var d' := Deactivate(d, config, id).value;
        DeactivateSets(d, d', config, id);
        StatusPools(d, d', config, id);
      }
    }
  }

  lemma DeactivateSets(d: Domain, d': Domain, config: Config, id: OperatorId)
    requires SetsOk(d) && Deactivate(d, config, id) == Ok(d')
    ensures SetsOk(d') && StatusChanged(d, d', id)
  {
    DropKeepsSets(d, d', id, Deactivated(d.epoch + config.activationDelay));
  }

  lemma ReactivateKeeps(d: Domain, d': Domain, config: Config, id: OperatorId)
    requires Inv(d, config) && Reactivate(d, id) == Ok(d')
    ensures Inv(d', config)
  {
    ReactivateSets(d, d', id);
    StatusPools(d, d', config, id);
  }

  lemma ReactivateSets(d: Domain, d': Domain, id: OperatorId)
    requires SetsOk(d) && Reactivate(d, id) == Ok(d')
    ensures SetsOk(d') && StatusChanged(d, d', id)
  {
    assert OperatorOk(d, id);
    StatusOnly(d, d', id, Registered);
    OneOperatorSets(d, d', id);
  }

  /** Slashing always succeeds, and from then on the operator is slashed. */
  lemma MarkSlashedKeeps(d: Domain, config: Config, id: OperatorId)
    requires Inv(d, config)
    ensures MarkSlashed(d, id).Ok? && Inv(MarkSlashed(d, id).value, config)
    ensures id in d.operators ==> MarkSlashed(d, id).value.operators[id].status.Slashed?
  {
    if id in d.operators {
      assert OperatorOk(d, id);
      if id !in d.pendingSlashes {
        DropFromSetsOk(d, id);
        var d' := MarkSlashed(d, id).value;
        DropKeepsSets(d, d', id, Slashed);
        StatusPools(d, d', config, id);
      }
    }
  }

  /** A mark takes a registered operator out of the operator sets, and touches nobody else. */
  lemma MarkInvalidKeeps(d: Domain, config: Config, id: OperatorId, receipt: ReceiptHash)
    requires Inv(d, config)
    ensures MarkInvalid(d, id, receipt).Ok? && Inv(MarkInvalid(d, id, receipt).value, config)
    ensures var d' := MarkInvalid(d, id, receipt).value;
            if Live(d, id) && d.operators[id].status.Registered?
            then id in d'.operators && d'.operators[id].status == InvalidBundle(receipt) && id !in d'.next
                 && id !in d'.current
            else d' == d
  {
    assert id in d.operators ==> OperatorOk(d, id);
    if id in d.operators && id !in d.pendingSlashes && StatusIn(d, id) == Registered {
      DropFromSetsOk(d, id);
      var d' := MarkInvalid(d, id, receipt).value;
      DropKeepsSets(d, d', id, InvalidBundle(receipt));
      StatusPools(d, d', config, id);
    }
  }

  /** Taking a mark back makes the operator an ordinary registered one again. */
  lemma UnmarkInvalidKeeps(d: Domain, config: Config, id: OperatorId, receipt: ReceiptHash)
    requires Inv(d, config)
    ensures Inv(UnmarkInvalid(d, id, receipt), config)
    ensures Live(d, id) && d.operators[id].status == InvalidBundle(receipt) ==>
              var d' := UnmarkInvalid(d, id, receipt);
              d'.operators[id].status.Registered? && id in d'.next
  {
    if id in d.operators {
      assert OperatorOk(d, id);
      if d.operators[id].status == InvalidBundle(receipt) && id !in d.pendingSlash {
        UnmarkSets(d, UnmarkInvalid(d, id, receipt), id);
        StatusPools(d, UnmarkInvalid(d, id, receipt), config, id);
      }
    }
  }

  lemma UnmarkSets(d: Domain, d': Domain, id: OperatorId)
    requires SetsOk(d) && Live(d, id) && d.operators[id].status.InvalidBundle?
    requires d' == SetStatus(d, id, Registered).(invalidAuthors := d.invalidAuthors - {id}, next := d.next + {id})
    ensures SetsOk(d') && StatusChanged(d, d', id)
  {
    assert OperatorOk(d, id);
    StatusOnly(d, d', id, Registered);
    OneOperatorSets(d, d', id);
  }
}
