/** The epoch transition of a whole domain. */
module EpochTransition {
  import opened ReceiptTypes
  import opened StakingTypes
  import opened OperatorPool
  import opened DomainStaking
  import opened DomainInvariant
  import opened PoolBoundary
  import opened MapSums
  import opened Splitting
  import opened Perquintill
  import PoolInvariant
  import SharePrice

  /** The only price that may change is the one of the finished epoch. */
  ghost predicate PricesExtend(p: Pool, p': Pool, epoch: nat) {
    && p'.ownerLeft == p.ownerLeft
    && (forall e :: e in p.prices ==> e in p'.prices && (e != epoch ==> p'.prices[e] == p.prices[e]))
    && (forall e :: e in p'.prices ==> e in p.prices || e == epoch)
  }

  lemma FinalizeFrame(p: Pool, p': Pool, epoch: nat)
    requires Finalize(p, epoch) == Ok(p')
    ensures p'.status == p.status && p'.owner == p.owner && PricesExtend(p, p', epoch) && Idle(p')
  {}

  lemma TakeRewardFrame(p: Pool, p': Pool, epoch: nat, reward: nat)
    requires TakeReward(p, epoch, reward) == Ok(p')
    ensures p'.status == p.status && p'.owner == p.owner && p'.prices == p.prices && p'.ownerLeft == p.ownerLeft
  {}

  lemma BoundaryFrame(p: Pool, p': Pool, epoch: nat, reward: Option<nat>)
    requires Boundary(p, epoch, reward) == Ok(p')
    ensures p'.status == p.status && p'.owner == p.owner && PricesExtend(p, p', epoch) && Idle(p')
  {
    if reward.None? {
      FinalizeFrame(p, p', epoch);
    } else {
      var q := TakeReward(p, epoch, reward.value).value;
      TakeRewardFrame(p, q, epoch, reward.value);
      FinalizeFrame(q, p', epoch);
    }
  }

  /** Price availability: the operators that the transition does not walk through have nothing to price, so
      every live pool goes through its boundary. */
  lemma EveryLivePoolPriced(d: Domain, id: OperatorId, chainRewards: nat)
    requires SetsOk(d) && Live(d, id)
    ensures FinalizedPool(d, id, chainRewards) == Boundary(d.operators[id], d.epoch, FullReward(d, id, chainRewards))
  {
    assert OperatorOk(d, id);
    var p := d.operators[id];
    var reward := FullReward(d, id, chainRewards);
    if !Processed(d, id, chainRewards) {
      assert Idle(p) && TaxDue(p, reward) == 0;
    }
  }

  /** The transition can end exactly when no live operator without shares has something to move. In particular
      its status check never fails. */
  lemma EpochEndsIff(d: Domain, config: Config, chainRewards: nat)
    requires Inv(d, config)
    ensures EpochCanEnd(d, chainRewards) <==>
            forall id :: Live(d, id) && d.operators[id].totalShares == 0 ==>
              Idle(d.operators[id]) && TaxDue(d.operators[id], FullReward(d, id, chainRewards)) == 0
  {
    forall id | Live(d, id)
      ensures FinalizedPool(d, id, chainRewards).Ok? <==>
              d.operators[id].totalShares > 0
              || (Idle(d.operators[id]) && TaxDue(d.operators[id], FullReward(d, id, chainRewards)) == 0)
    {
      EveryLivePoolPriced(d, id, chainRewards);
      BoundarySucceeds(d.operators[id], config, d.epoch, d.head, FullReward(d, id, chainRewards));
    }
    StayingRegistered(d);
  }

  lemma StayingRegistered(d: Domain)
    requires SetsOk(d)
    ensures forall id :: id in Staying(d) ==> id in d.operators && d.operators[id].status.Registered? && Live(d, id)
  {
    forall id | id in Staying(d)
      ensures id in d.operators && d.operators[id].status.Registered? && Live(d, id)
    {
      assert OperatorOk(d, id);
    }
  }

  /** As long as the owners of all live operators are still in their pools, an epoch can always end. */
  lemma EpochEndsWithOwners(d: Domain, config: Config, chainRewards: nat)
    requires Inv(d, config)
    requires forall id :: Live(d, id) ==> !d.operators[id].ownerLeft
    ensures EndEpoch(d, chainRewards).Some?
  {
    EpochEndsIff(d, config, chainRewards);
    forall id | Live(d, id)
      ensures d.operators[id].totalShares > 0
    {
      PoolInvariant.PriceExists(d.operators[id], config, d.epoch, d.head);
    }
  }

  // ---- The invariant ----

  lemma EndEpochPool(d: Domain, d': Domain, chainRewards: nat, id: OperatorId)
    requires SetsOk(d) && EndEpoch(d, chainRewards) == Some(d') && Live(d, id)
    ensures id in d'.operators
    ensures Boundary(d.operators[id], d.epoch, FullReward(d, id, chainRewards)) == Ok(d'.operators[id])
  {
    EveryLivePoolPriced(d, id, chainRewards);
  }

  lemma EndEpochOthers(d: Domain, d': Domain, chainRewards: nat, id: OperatorId)
    requires EndEpoch(d, chainRewards) == Some(d') && id in d.operators && !Live(d, id)
    ensures d'.operators[id] == d.operators[id]
  {}

  lemma EndEpochPlaced(d: Domain, d': Domain, chainRewards: nat, id: OperatorId)
    requires SetsOk(d) && EndEpoch(d, chainRewards) == Some(d') && id in d.operators
    requires Live(d, id) ==> d.epoch + 1 !in d.operators[id].prices
    ensures id in d'.operators && OperatorOk(d', id) && (Live(d', id) <==> Live(d, id))
  {
    assert OperatorOk(d, id);
    StayingRegistered(d);
    if Live(d, id) {
      EndEpochPool(d, d', chainRewards, id);
      BoundaryFrame(d.operators[id], d'.operators[id], d.epoch, FullReward(d, id, chainRewards));
    } else {
      EndEpochOthers(d, d', chainRewards, id);
    }
  }

  lemma EndEpochSets(d: Domain, d': Domain, chainRewards: nat)
    requires SetsOk(d) && EndEpoch(d, chainRewards) == Some(d')
    requires forall id :: Live(d, id) ==> d.epoch + 1 !in d.operators[id].prices
    ensures SetsOk(d') && d'.epoch == d.epoch + 1 && d'.head == d.head
    ensures forall id :: Live(d', id) <==> Live(d, id)
  {
    forall id | id in d.operators
      ensures OperatorOk(d', id) && (Live(d', id) <==> Live(d, id))
    {
      EndEpochPlaced(d, d', chainRewards, id);
    }
    StayingRegistered(d);
  }

  /** A pool crosses the boundary of an epoch with the reward of its operator. */
  ghost function Crossing(epoch: nat, reward: OperatorId -> Option<nat>): (OperatorId, Pool, Pool) -> bool {
    (id: OperatorId, p: Pool, p': Pool) => Boundary(p, epoch, reward(id)) == Ok(p')
  }

  /** `d'` is one epoch later, and every live pool went through its boundary with some reward. */
  ghost predicate Bounded(d: Domain, d': Domain, reward: OperatorId -> Option<nat>) {
    && d'.epoch == d.epoch + 1 && d'.head == d.head
    && EachCrosses(d, d', Crossing(d.epoch, reward))
  }

  ghost predicate EachCrosses(d: Domain, d': Domain, cross: (OperatorId, Pool, Pool) -> bool) {
    forall id :: Live(d', id) ==> Live(d, id) && cross(id, d.operators[id], d'.operators[id])
  }

  /** The invariant of one pool, as a value. */
  ghost function PoolOkAt(config: Config, epoch: nat, head: nat): Pool -> bool {
    p => PoolInvariant.Inv(p, config, epoch, head)
  }

  lemma BoundedPool(p: Pool, p': Pool, config: Config, epoch: nat, head: nat, reward: OperatorId -> Option<nat>,
                    id: OperatorId)
    requires PoolOkAt(config, epoch, head)(p) && Crossing(epoch, reward)(id, p, p')
    ensures PoolOkAt(config, epoch + 1, head)(p')
  {
    BoundaryKeeps(p, p', config, epoch, head, reward(id));
  }

  ghost predicate PoolsAre(d: Domain, ok: Pool -> bool) { forall id :: Live(d, id) ==> ok(d.operators[id]) }

  lemma PoolsOkIs(d: Domain, config: Config)
    ensures PoolsOk(d, config) <==> PoolsAre(d, PoolOkAt(config, d.epoch, d.head))
  {}

  /** Pools that are fine before they cross are fine after. */
  ghost predicate Carries(before: Pool -> bool, cross: (OperatorId, Pool, Pool) -> bool, after: Pool -> bool) {
    forall id, p, p' :: before(p) && cross(id, p, p') ==> after(p')
  }

  lemma AllCross(d: Domain, d': Domain, before: Pool -> bool, cross: (OperatorId, Pool, Pool) -> bool,
                 after: Pool -> bool)
    requires PoolsAre(d, before) && EachCrosses(d, d', cross) && Carries(before, cross, after)
    ensures PoolsAre(d', after)
  {}

  lemma BoundaryCarries(config: Config, epoch: nat, later: nat, head: nat, reward: OperatorId -> Option<nat>)
    requires later == epoch + 1
    ensures Carries(PoolOkAt(config, epoch, head), Crossing(epoch, reward), PoolOkAt(config, later, head))
  {
    forall id, p, p' | PoolOkAt(config, epoch, head)(p) && Crossing(epoch, reward)(id, p, p')
      ensures PoolOkAt(config, later, head)(p')
    {
      BoundedPool(p, p', config, epoch, head, reward, id);
    }
  }

  lemma BoundedPools(d: Domain, d': Domain, config: Config, reward: OperatorId -> Option<nat>)
    requires PoolsAre(d, PoolOkAt(config, d.epoch, d'.head)) && d'.epoch == d.epoch + 1
    requires EachCrosses(d, d', Crossing(d.epoch, reward))
    ensures PoolsAre(d', PoolOkAt(config, d'.epoch, d'.head))
  {
    BoundaryCarries(config, d.epoch, d'.epoch, d'.head, reward);
    AllCross(d, d', PoolOkAt(config, d.epoch, d'.head), Crossing(d.epoch, reward), PoolOkAt(config, d'.epoch, d'.head));
  }

  lemma BoundedIdle(d: Domain, d': Domain, reward: OperatorId -> Option<nat>)
    requires Bounded(d, d', reward)
    ensures forall id :: Live(d', id) ==> Idle(d'.operators[id])
  {
    forall id | Live(d', id)
      ensures Idle(d'.operators[id])
    {
      BoundaryFrame(d.operators[id], d'.operators[id], d.epoch, reward(id));
    }
  }

  ghost function RewardsAt(d: Domain, chainRewards: nat): OperatorId -> Option<nat> {
    id => FullReward(d, id, chainRewards)
  }

  lemma EndEpochBounded(d: Domain, d': Domain, chainRewards: nat)
    requires SetsOk(d) && EndEpoch(d, chainRewards) == Some(d')
    requires forall id :: Live(d, id) ==> d.epoch + 1 !in d.operators[id].prices
    ensures SetsOk(d') && Bounded(d, d', RewardsAt(d, chainRewards))
    ensures forall id :: Live(d', id) <==> Live(d, id)
  {
    EndEpochSets(d, d', chainRewards);
    forall id | Live(d', id)
      ensures Crossing(d.epoch, RewardsAt(d, chainRewards))(id, d.operators[id], d'.operators[id])
    {
      EndEpochPool(d, d', chainRewards, id);
    }
  }

  lemma NoFuturePrice(d: Domain, config: Config)
    requires PoolsOk(d, config)
    ensures forall id :: Live(d, id) ==> d.epoch + 1 !in d.operators[id].prices
  {
    forall id | Live(d, id)
      ensures d.epoch + 1 !in d.operators[id].prices
    {
      assert PoolInvariant.Inv(d.operators[id], config, d.epoch, d.head);
    }
  }

  /** The boundary of a whole domain, with every set walk and every reward. */
  lemma EndEpochKeeps(d: Domain, d': Domain, config: Config, chainRewards: nat)
    requires Inv(d, config) && EndEpoch(d, chainRewards) == Some(d')
    ensures Inv(d', config)
    ensures forall id :: Live(d', id) <==> Live(d, id)
    ensures forall id :: Live(d', id) ==> Idle(d'.operators[id])
  {
    NoFuturePrice(d, config);
    EndEpochBounded(d, d', chainRewards);
    PoolsOkIs(d, config);
    BoundedPools(d, d', config, RewardsAt(d, chainRewards));
    PoolsOkIs(d', config);
    BoundedIdle(d, d', RewardsAt(d, chainRewards));
  }

  // ---- Conservation ----

  /** A reward ends up, to the unit, as stake of the pool, as the owner's new deposit, or in the storage fund. */
  lemma RewardLands(p: Pool, q: Pool, epoch: nat, reward: nat)
    requires TakeReward(p, epoch, reward) == Ok(q)
    ensures q.totalStake + q.depositsInEpoch + q.totalStorageFee
            == p.totalStake + p.depositsInEpoch + p.totalStorageFee + reward
    ensures p.totalStake <= q.totalStake && IsNet(q.totalStake - p.totalStake, reward, p.tax)
    ensures q.fund - p.fund == q.totalStorageFee - p.totalStorageFee
  {
    TaxIsPercentage(p.tax, reward);
  }

  lemma {:induction false} RaisedSum(m: map<OperatorId, nat>, m': map<OperatorId, nat>, share: nat,
                                     ids: set<OperatorId>)
    requires forall id :: id in ids ==> id in m && id in m' && m'[id] == m[id] + share
    ensures TotalOver(m', Itself(), ids) == TotalOver(m, Itself(), ids) + share * |ids|
  {
    if ids != {} {
      var id :| id in ids;
      RaisedSum(m, m', share, ids - {id});
      TotalOverPick(m', Itself(), ids, id);
      TotalOverPick(m, Itself(), ids, id);
      assert |ids - {id}| == |ids| - 1;
      MulSucc(share, |ids|);
    }
  }

  lemma ChainShareWithin(d: Domain, chainRewards: nat)
    requires d.rewards != map[]
    ensures ChainShare(d, chainRewards) * |d.rewards| + ChainDust(d, chainRewards) == chainRewards
  {
    assert |d.rewards| > 0 by { var id :| id in d.rewards; assert id in d.rewards.Keys; }
    ProportionBound(1, |d.rewards|, chainRewards);
  }

  /** Everything rewarded in the epoch, with the chain rewards, goes to live operators or to the treasury. */
  lemma EpochRewardsConserved(d: Domain, chainRewards: nat)
    ensures TotalOver(FullRewards(d, chainRewards), Itself(), d.rewards.Keys - Forfeiting(d))
            + ToTreasury(d, chainRewards)
            == Total(d.rewards, Itself()) + chainRewards
  {
    var all, full := d.rewards.Keys, FullRewards(d, chainRewards);
    var live := all - Forfeiting(d);
    assert live + Forfeiting(d) == all;
    TotalOverUnion(full, Itself(), live, Forfeiting(d));
    assert |all| == |d.rewards|;
    var share := ChainShare(d, chainRewards);
    RaisedSum(d.rewards, full, share, all);
    if d.rewards == map[] {
      assert all == {};
    } else {
      ChainShareWithin(d, chainRewards);
    }
  }

  // What a pool holds for its nominators: stake, deposits waiting for the end of the epoch and storage deposits.

  function Held(p: Pool): nat { p.totalStake + p.depositsInEpoch + p.totalStorageFee }

  ghost function HeldIn(): Pool -> nat { p => Held(p) }

  /** What the withdrawers of an epoch are owed at the price that its end has stored. */
  ghost function Redeemed(p: Pool, p': Pool, epoch: nat): nat {
    if p.withdrawalsInEpoch > 0 && epoch in p'.prices
    then SharePrice.SharesToStake(p'.prices[epoch], p.withdrawalsInEpoch) else 0
  }

  lemma FinalizeMoves(p: Pool, p': Pool, epoch: nat)
    requires Finalize(p, epoch) == Ok(p')
    ensures Held(p') + Redeemed(p, p', epoch) == Held(p)
  {
    if p.withdrawalsInEpoch == 0 && !Idle(p) {
      assert SharePrice.SharesToStake(SharePrice.New(p.totalShares, p.totalStake).value, 0) == 0;
    }
  }

  lemma BoundaryMoves(p: Pool, p': Pool, epoch: nat, reward: Option<nat>)
    requires Boundary(p, epoch, reward) == Ok(p')
    ensures Held(p') + Redeemed(p, p', epoch) == Held(p) + if reward.Some? then reward.value else 0
  {
    if reward.None? {
      FinalizeMoves(p, p', epoch);
    } else {
      var q := TakeReward(p, epoch, reward.value).value;
      RewardLands(p, q, epoch, reward.value);
      FinalizeMoves(q, p', epoch);
      RewardOnlyAddsStake(p, epoch, reward);
    }
  }

  /** The rewards of the live operators. */
  ghost function Landed(d: Domain, chainRewards: nat): map<OperatorId, nat> {
    map id | id in d.rewards && Live(d, id) :: FullReward(d, id, chainRewards).value
  }

  ghost function RedeemedBy(d: Domain, d': Domain): map<OperatorId, nat> {
    map id | id in d.operators && Live(d, id) && id in d'.operators ::
      Redeemed(d.operators[id], d'.operators[id], d.epoch)
  }

  lemma OperatorMoves(d: Domain, d': Domain, chainRewards: nat, id: OperatorId)
    requires SetsOk(d) && EndEpoch(d, chainRewards) == Some(d') && id in d.operators
    ensures ValueAt(d'.operators, HeldIn(), id) + ValueAt(RedeemedBy(d, d'), Itself(), id)
            == ValueAt(d.operators, HeldIn(), id) + ValueAt(Landed(d, chainRewards), Itself(), id)
  {
    if Live(d, id) {
      EndEpochPool(d, d', chainRewards, id);
      BoundaryMoves(d.operators[id], d'.operators[id], d.epoch, FullReward(d, id, chainRewards));
    } else {
      EndEpochOthers(d, d', chainRewards, id);
    }
  }

  lemma LandedTotal(d: Domain, chainRewards: nat)
    ensures TotalOver(Landed(d, chainRewards), Itself(), d.operators.Keys)
            == TotalOver(FullRewards(d, chainRewards), Itself(), d.rewards.Keys - Forfeiting(d))
  {
    var landed, full := Landed(d, chainRewards), FullRewards(d, chainRewards);
    RestrictSum(landed, Itself(), d.operators.Keys);
    assert landed.Keys == d.rewards.Keys - Forfeiting(d);
    TotalOverSame(landed, Itself(), full, Itself(), landed.Keys);
  }

  /** No value is lost at the end of an epoch: what the pools held, the rewards and the chain rewards is, to the unit,
      what they hold afterwards, what the withdrawers of the epoch are owed and what the treasury got. */
  lemma EndEpochConserves(d: Domain, d': Domain, chainRewards: nat)
    requires SetsOk(d) && EndEpoch(d, chainRewards) == Some(d')
    ensures Total(d'.operators, HeldIn()) + Total(RedeemedBy(d, d'), Itself()) + Total(d'.rewards, Itself())
            + d'.treasury
            == Total(d.operators, HeldIn()) + Total(d.rewards, Itself()) + chainRewards + d.treasury
  {
    var all := d.operators.Keys;
    forall id | id in all
      ensures ValueAt(d'.operators, HeldIn(), id) + ValueAt(RedeemedBy(d, d'), Itself(), id)
              == ValueAt(d.operators, HeldIn(), id) + ValueAt(Landed(d, chainRewards), Itself(), id)
    {
      OperatorMoves(d, d', chainRewards, id);
    }
    TotalsBalance(d'.operators, HeldIn(), RedeemedBy(d, d'), Itself(), d.operators, Landed(d, chainRewards), all);
    assert d'.operators.Keys == all;
    RestrictSum(RedeemedBy(d, d'), Itself(), all);
    LandedTotal(d, chainRewards);
    EpochRewardsConserved(d, chainRewards);
    TotalZero(d'.rewards, Itself());
  }

  /** The sum of the operator's occurrences is the length of the list. */
  lemma {:induction false} WeightsSum(ids: seq<OperatorId>, s: set<OperatorId>)
    requires forall id :: id in ids ==> id in s
    ensures TotalOver(Weights(ids), Itself(), s) == |ids|
  {
    if ids == [] {
      TotalOverZero(Weights(ids), Itself(), s);
    } else {
      var x, rest := ids[0], ids[1..];
      assert ids == [x] + rest;
      WeightsSum(rest, s);
      TotalOverPick(Weights(ids), Itself(), s, x);
      TotalOverPick(Weights(rest), Itself(), s, x);
      TotalOverSame(Weights(ids), Itself(), Weights(rest), Itself(), s - {x});
    }
  }

  /** Splitting a block reward never hands out more than it has, and what it does not hand out is minted. */
  lemma RewardOperatorsConserves(d: Domain, ids: seq<OperatorId>, amount: nat)
    ensures RewardOperators(d, ids, amount).Ok?
    ensures var d' := RewardOperators(d, ids, amount).value;
            Total(d'.rewards, Itself()) + d'.treasury == Total(d.rewards, Itself()) + d.treasury + amount
  {
    var w := Weights(ids);
    WeightsSum(ids, w.Keys);
    if ids == [] {
      assert w.Keys == {};
    }
    SharesWithin(w, |ids|, amount);
    if amount > 0 {
      AddSharesSum(d.rewards, w, ShareOf(|ids|, amount));
    }
  }

  /** The reward of `id` rose by its part, by the number of times it is listed; without being listed it did not. */
  ghost predicate RewardShared(was: map<OperatorId, nat>, now: map<OperatorId, nat>, ids: seq<OperatorId>, amount: nat,
                               id: OperatorId)
  {
    && ValueAt(was, Itself(), id) <= ValueAt(now, Itself(), id)
    && var rise := ValueAt(now, Itself(), id) - ValueAt(was, Itself(), id);
    if id in ids then IsPart(rise, amount, multiset(ids)[id], |ids|) else rise == 0 && (id in now <==> id in was)
  }

  /** Every operator gets its part by the number of times it is listed, and nobody else gets anything. */
  lemma RewardsShared(d: Domain, ids: seq<OperatorId>, amount: nat, id: OperatorId)
    ensures RewardOperators(d, ids, amount).Ok?
    ensures RewardShared(d.rewards, RewardOperators(d, ids, amount).value.rewards, ids, amount, id)
  {
    RewardRises(d, ids, amount, id);
    if id in ids {
      OccurrencesWithin(ids, id);
      ShareIsPart(multiset(ids)[id], |ids|, amount);
    }
  }

  lemma RewardRises(d: Domain, ids: seq<OperatorId>, amount: nat, id: OperatorId)
    ensures RewardOperators(d, ids, amount).Ok?
    ensures var rewards := RewardOperators(d, ids, amount).value.rewards;
            && ValueAt(rewards, Itself(), id)
               == ValueAt(d.rewards, Itself(), id) + (if id in ids then Share(multiset(ids)[id], |ids|, amount) else 0)
            && (id !in ids ==> (id in rewards <==> id in d.rewards))
  {
    RewardOperatorsConserves(d, ids, amount);
  }

  lemma OccurrencesWithin(ids: seq<OperatorId>, id: OperatorId)
    requires id in ids
    ensures 0 < multiset(ids)[id] <= |ids|
  {
    assert multiset(ids)[id] <= |multiset(ids)|;
  }

  /** Of the chain rewards every rewarded operator gets the same part on top. */
  lemma ChainRewardsShared(d: Domain, id: OperatorId, chainRewards: nat)
    requires id in d.rewards
    ensures FullReward(d, id, chainRewards).Some? && d.rewards[id] <= FullReward(d, id, chainRewards).value
    ensures IsPart(FullReward(d, id, chainRewards).value - d.rewards[id], chainRewards, 1, |d.rewards|)
  {
    assert id in d.rewards.Keys && |d.rewards| > 0;
    ShareIsPart(1, |d.rewards|, chainRewards);
  }

  lemma AddSharesSum(rewards: map<OperatorId, nat>, w: map<OperatorId, nat>, share: nat -> nat)
    ensures Total(AddShares(rewards, w, share), Itself()) == Total(rewards, Itself()) + Total(w, share)
  {
    var all := rewards.Keys + w.Keys;
    AddSharesOver(rewards, w, share, all);
    assert AddShares(rewards, w, share).Keys == all;
    RestrictSum(rewards, Itself(), all);
    RestrictSum(w, share, all);
  }

  lemma RestrictSum(m: map<OperatorId, nat>, f: nat -> nat, all: set<OperatorId>)
    requires m.Keys <= all
    ensures TotalOver(m, f, all) == Total(m, f)
  {
    assert all == m.Keys + (all - m.Keys);
    TotalOverUnion(m, f, m.Keys, all - m.Keys);
    TotalOverZero(m, f, all - m.Keys);
  }

  lemma {:induction false} AddSharesOver(rewards: map<OperatorId, nat>, w: map<OperatorId, nat>, share: nat -> nat,
                                         ids: set<OperatorId>)
    ensures TotalOver(AddShares(rewards, w, share), Itself(), ids)
            == TotalOver(rewards, Itself(), ids) + TotalOver(w, share, ids)
  {
    if ids != {} {
      var id :| id in ids;
      AddSharesOver(rewards, w, share, ids - {id});
      TotalOverPick(AddShares(rewards, w, share), Itself(), ids, id);
      TotalOverPick(rewards, Itself(), ids, id);
      TotalOverPick(w, share, ids, id);
    }
  }
}
