/** The epoch boundary of one pool: one aggregate move that covers every later lazy conversion. */
module PoolBoundary {
  import opened StakingTypes
  import opened OperatorPool
  import opened PoolInvariant
  import opened PoolSteps
  import opened MapSums
  import opened Perquintill
  import SharePrice
  import StorageFund

  /** The boundary of a pool: the reward of the epoch, if any, and then the aggregate move. */
  function Boundary(p: Pool, epoch: nat, reward: Option<nat>): Result<Pool> {
    match reward
    case None => Finalize(p, epoch)
    case Some(r) =>
      var q :- TakeReward(p, epoch, r);
      Finalize(q, epoch)
  }

  // ---- Lazy deposits are covered by the aggregate ----

  ghost function Buying(price: nat): nat -> nat { a => SharePrice.StakeToShares(price, a) }

  ghost function Selling(price: nat): nat -> nat { s => SharePrice.SharesToStake(price, s) }

  lemma BuyingSuperadditive(price: nat)
    ensures Superadditive(Buying(price))
  {
    forall a: nat, b: nat
      ensures Buying(price)(a) + Buying(price)(b) <= Buying(price)(a + b)
    {
      SharePrice.StakeToSharesSuperadditive(price, a, b);
    }
  }

  lemma SellingSuperadditive(price: nat)
    ensures Superadditive(Selling(price))
  {
    forall a: nat, b: nat
      ensures Selling(price)(a) + Selling(price)(b) <= Selling(price)(a + b)
    {
      SharePrice.SharesToStakeSuperadditive(price, a, b);
    }
  }

  /** Storing the price of the finished epoch prices every pending deposit, and the shares they will be
      converted to, rounded down one by one, fit into the shares issued for their sum. */
  lemma DepositsCovered(ds: Deposits, prices: map<nat, nat>, epoch: nat, price: nat)
    requires epoch !in prices
    requires forall n :: n in ds ==> DepositOk(ds[n], prices, epoch)
    ensures Total(ds, UnpricedIn(prices[epoch := price])) == 0
    ensures Total(ds, ClaimIn(prices[epoch := price]))
            <= Total(ds, ClaimIn(prices)) + SharePrice.StakeToShares(price, Total(ds, UnpricedIn(prices)))
  {
    var prices' := prices[epoch := price];
    forall n | n in ds
      ensures UnpricedIn(prices')(ds[n]) == 0
      ensures ClaimIn(prices')(ds[n]) <= ClaimIn(prices)(ds[n]) + Buying(price)(UnpricedIn(prices)(ds[n]))
    {
      DepositPriced(ds[n], prices, epoch, price);
    }
    TotalZero(ds, UnpricedIn(prices'));
    BuyingSuperadditive(price);
    TotalCovered(ds, ClaimIn(prices'), ClaimIn(prices), UnpricedIn(prices), Buying(price), ds.Keys);
  }

  lemma DepositPriced(d: Deposit, prices: map<nat, nat>, epoch: nat, price: nat)
    requires epoch !in prices && DepositOk(d, prices, epoch)
    ensures Unpriced(d, prices[epoch := price]) == 0
    ensures Claim(d, prices[epoch := price])
            == Claim(d, prices) + SharePrice.StakeToShares(price, Unpriced(d, prices))
    ensures DepositOk(d, prices[epoch := price], epoch + 1)
  {}

  // ---- Lazy withdrawals are covered by the aggregate ----

  /** The stake that withdrawals will be converted to, rounded down one by one, fits into the stake taken out of the
      pool for their sum. */
  lemma WithdrawalsCovered(ws: Withdrawals, prices: map<nat, nat>, epoch: nat, price: nat)
    requires epoch !in prices
    requires forall n :: n in ws && ws[n].inShares.Some? ==> Settled(ws[n].inShares.value.epoch, prices, epoch)
    ensures Total(ws, OpenAt(epoch + 1)) == 0
    ensures Total(ws, PromisedIn(prices[epoch := price], epoch + 1))
            <= Total(ws, PromisedIn(prices, epoch)) + SharePrice.SharesToStake(price, Total(ws, OpenAt(epoch)))
  {
    var prices' := prices[epoch := price];
    forall n | n in ws
      ensures OpenAt(epoch + 1)(ws[n]) == 0
      ensures PromisedIn(prices', epoch + 1)(ws[n])
              <= PromisedIn(prices, epoch)(ws[n]) + Selling(price)(OpenAt(epoch)(ws[n]))
    {
      WithdrawalPriced(ws[n], prices, epoch, price);
    }
    TotalZero(ws, OpenAt(epoch + 1));
    SellingSuperadditive(price);
    TotalCovered(ws, PromisedIn(prices', epoch + 1), PromisedIn(prices, epoch), OpenAt(epoch), Selling(price), ws.Keys);
  }

  lemma WithdrawalPriced(w: Withdrawal, prices: map<nat, nat>, epoch: nat, price: nat)
    requires epoch !in prices
    requires w.inShares.Some? ==> Settled(w.inShares.value.epoch, prices, epoch)
    ensures Open(w, epoch + 1) == 0
    ensures Promised(w, prices[epoch := price], epoch + 1)
            <= Promised(w, prices, epoch) + SharePrice.SharesToStake(price, Open(w, epoch))
  {}

  // ---- The aggregate move ----

  lemma FinalizeKeepsBooks(p: Pool, p': Pool, epoch: nat)
    requires Books(p, epoch) && !Idle(p) && epoch !in p.prices
    requires forall n :: n in p.deposits ==> DepositOk(p.deposits[n], p.prices, epoch)
    requires forall n :: n in p.withdrawals && p.withdrawals[n].inShares.Some? ==>
               Settled(p.withdrawals[n].inShares.value.epoch, p.prices, epoch)
    requires Finalize(p, epoch) == Ok(p')
    ensures Books(p', epoch + 1)
  {
    var price := SharePrice.New(p.totalShares, p.totalStake).value;
    var s, t := p.totalShares, p.totalStake;
    var w, d := p.withdrawalsInEpoch, p.depositsInEpoch;
    DepositsCovered(p.deposits, p.prices, epoch, price);
    WithdrawalsCovered(p.withdrawals, p.prices, epoch, price);
    MoveKeepsRatio(price, s, t, w, d);
  }

  /** Paying withdrawals and then issuing shares for deposits, both at the old price. */
  lemma MoveKeepsRatio(price: nat, s: nat, t: nat, w: nat, d: nat)
    requires SharePrice.IsPriceOf(price, s, t) && w <= s
    ensures SharePrice.SharesToStake(price, w) <= t
    ensures var t' := t - SharePrice.SharesToStake(price, w) + d;
            var s' := s - w + SharePrice.StakeToShares(price, d);
            s' <= t' && t' * s >= t * s'
  {
    SharePrice.SellKeepsRatio(price, s, t, w);
    SharePrice.BuyKeepsRatio(price, s, t, d);
    var y, x := SharePrice.SharesToStake(price, w), SharePrice.StakeToShares(price, d);
    assert d * s >= t * x by { Distribute(t, d, s); Distribute(s, x, t); }
    Distribute(t - y, d, s);
    Distribute(s - w, x, t);
  }

  /** The price of the epoch is the ratio of shares and stake; withdrawn shares are paid and burnt, and shares are
      issued for the deposits, at that ratio. */
  lemma FinalizeExact(p: Pool, p': Pool, epoch: nat)
    requires Finalize(p, epoch) == Ok(p')
    ensures Idle(p) ==> p' == p
    ensures !Idle(p) ==>
              && epoch in p'.prices && p'.prices - {epoch} == p.prices - {epoch}
              && p'.prices[epoch] * p.totalStake <= p.totalShares * ONE < (p'.prices[epoch] + 1) * p.totalStake
              && p'.totalStake <= p.totalStake + p.depositsInEpoch
              && SharePrice.IsSale(p.totalStake + p.depositsInEpoch - p'.totalStake, p.withdrawalsInEpoch,
                                   p.totalShares, p.totalStake)
              && p.totalShares <= p'.totalShares + p.withdrawalsInEpoch
              && IsPart(p'.totalShares + p.withdrawalsInEpoch - p.totalShares, p.depositsInEpoch, p.totalShares,
                        p.totalStake)
              && p'.credited == p.credited + p.depositsInEpoch
  {
    if !Idle(p) {
      var price := SharePrice.New(p.totalShares, p.totalStake).value;
      SharePrice.NewIsRatio(p.totalShares, p.totalStake);
      SharePrice.SharesToStakeIsSale(price, p.totalShares, p.totalStake, p.withdrawalsInEpoch);
      ProportionIsPart(p.totalShares, p.totalStake, p.depositsInEpoch);
      assert p'.prices - {epoch} == p.prices - {epoch};
    }
  }

  lemma FinalizeKeeps(p: Pool, p': Pool, config: Config, epoch: nat, head: nat)
    requires Inv(p, config, epoch, head) && !Idle(p) && epoch !in p.prices
    requires Finalize(p, epoch) == Ok(p')
    ensures Inv(p', config, epoch + 1, head) && Idle(p')
  {
    FinalizeKeepsBooks(p, p', epoch);
    FinalizeKeepsHoldings(p, p', config, epoch, head);
  }

  lemma FinalizeKeepsHoldings(p: Pool, p': Pool, config: Config, epoch: nat, head: nat)
    requires Holdings(p, config, epoch, head) && OwnerStakes(p) && !Idle(p) && epoch !in p.prices
    requires Finalize(p, epoch) == Ok(p')
    ensures Holdings(p', config, epoch + 1, head) && OwnerStakes(p') && EarlyOk(p', epoch + 1)
  {
    var price := SharePrice.New(p.totalShares, p.totalStake).value;
    forall n | n in p'.deposits
      ensures DepositOk(p'.deposits[n], p'.prices, epoch + 1)
      ensures Claim(p'.deposits[n], p'.prices) >= Claim(p.deposits[n], p.prices)
    {
      DepositPriced(p.deposits[n], p.prices, epoch, price);
    }
    forall n | n in p'.withdrawals
      ensures WithdrawalOk(p'.withdrawals[n], p'.prices, config, epoch + 1, head)
    {
      assert WithdrawalOk(p.withdrawals[n], p.prices, config, epoch, head);
    }
  }

  /** A pool with nothing pending in the epoch needs no price for it. */
  lemma IdleKeeps(p: Pool, config: Config, epoch: nat, head: nat)
    requires Inv(p, config, epoch, head) && Idle(p)
    ensures Inv(p, config, epoch + 1, head)
  {
    forall n | n in p.deposits
      ensures DepositOk(p.deposits[n], p.prices, epoch + 1)
    {
      assert DepositOk(p.deposits[n], p.prices, epoch);
      TotalAtLeast(p.deposits, UnpricedIn(p.prices), n);
    }
    forall n | n in p.withdrawals
      ensures WithdrawalOk(p.withdrawals[n], p.prices, config, epoch + 1, head)
      ensures Open(p.withdrawals[n], epoch + 1) == 0
      ensures Promised(p.withdrawals[n], p.prices, epoch + 1) == Promised(p.withdrawals[n], p.prices, epoch)
    {
      assert WithdrawalOk(p.withdrawals[n], p.prices, config, epoch, head);
      TotalAtLeast(p.withdrawals, OpenAt(epoch), n);
    }
    TotalZero(p.withdrawals, OpenAt(epoch + 1));
    TotalSame(p.withdrawals, PromisedIn(p.prices, epoch + 1), p.withdrawals, PromisedIn(p.prices, epoch));
  }

  // ---- The registration epoch ----

  lemma EarlyDeposit(d: Deposit, prices: map<nat, nat>, epoch: nat)
    requires DepositOk(d, prices, epoch) && !PendingNow(d, epoch)
    ensures DepositOk(d, prices - {epoch}, epoch)
    ensures Unpriced(d, prices - {epoch}) == Unpriced(d, prices) && Claim(d, prices - {epoch}) == Claim(d, prices)
  {}

  lemma EarlyWithdrawal(w: Withdrawal, prices: map<nat, nat>, config: Config, epoch: nat, head: nat)
    requires WithdrawalOk(w, prices, config, epoch, head)
    ensures WithdrawalOk(w, prices - {epoch}, config, epoch, head)
    ensures Promised(w, prices - {epoch}, epoch) == Promised(w, prices, epoch)
  {}

  ghost predicate NonePending(p: Pool, epoch: nat) { forall n :: n in p.deposits ==> !PendingNow(p.deposits[n], epoch) }

  lemma EarlyHoldings(p: Pool, p': Pool, config: Config, epoch: nat, head: nat)
    requires Holdings(p, config, epoch, head) && NonePending(p, epoch) && p' == p.(prices := p.prices - {epoch})
    ensures Holdings(p', config, epoch, head)
  {
    forall n | n in p.deposits
      ensures DepositOk(p.deposits[n], p'.prices, epoch)
    {
      EarlyDeposit(p.deposits[n], p.prices, epoch);
    }
    forall n | n in p.withdrawals
      ensures WithdrawalOk(p.withdrawals[n], p'.prices, config, epoch, head)
    {
      EarlyWithdrawal(p.withdrawals[n], p.prices, config, epoch, head);
    }
  }

  lemma EarlyBooks(p: Pool, p': Pool, config: Config, epoch: nat, head: nat)
    requires Holdings(p, config, epoch, head) && Books(p, epoch) && NonePending(p, epoch)
    requires p' == p.(prices := p.prices - {epoch})
    ensures Books(p', epoch)
  {
    forall n | n in p.deposits
      ensures Unpriced(p.deposits[n], p'.prices) == Unpriced(p.deposits[n], p.prices)
      ensures Claim(p.deposits[n], p'.prices) == Claim(p.deposits[n], p.prices)
    {
      EarlyDeposit(p.deposits[n], p.prices, epoch);
    }
    TotalSame(p.deposits, UnpricedIn(p'.prices), p.deposits, UnpricedIn(p.prices));
    TotalSame(p.deposits, ClaimIn(p'.prices), p.deposits, ClaimIn(p.prices));
    forall n | n in p.withdrawals
      ensures Promised(p.withdrawals[n], p'.prices, epoch) == Promised(p.withdrawals[n], p.prices, epoch)
    {
      EarlyWithdrawal(p.withdrawals[n], p.prices, config, epoch, head);
    }
    TotalSame(p.withdrawals, PromisedIn(p'.prices, epoch), p.withdrawals, PromisedIn(p.prices, epoch));
  }

  /** Without deposits pending in the running epoch, its early price says nothing. */
  lemma EarlyPriceUnused(p: Pool, p': Pool, config: Config, epoch: nat, head: nat)
    requires Inv(p, config, epoch, head) && NonePending(p, epoch) && p' == p.(prices := p.prices - {epoch})
    ensures Inv(p', config, epoch, head)
  {
    EarlyHoldings(p, p', config, epoch, head);
    EarlyBooks(p, p', config, epoch, head);
    if !p.ownerLeft {
      EarlyDeposit(p.deposits[p.owner], p.prices, epoch);
    }
  }

  /** Converting the deposit of the owner on its own keeps everything. */
  lemma ConversionKeeps(p: Pool, config: Config, current: nat, head: nat, c: Deposit)
    requires Inv(p, config, current, head) && p.owner in p.deposits && !p.ownerLeft
    requires ConvertDeposit(p.prices, p.deposits[p.owner], current) == Ok(c) && c.pending.None?
    ensures Inv(p.(deposits := p.deposits[p.owner := c]), config, current, head)
  {
    var p' := p.(deposits := p.deposits[p.owner := c]);
    assert c.shares >= 1 && Claim(c, p.prices) >= 1 by {
      ConvertDepositInvisible(p.prices, p.deposits[p.owner], current);
    }
    ConversionKeepsBooks(p, current, p.owner, c);
    assert DepositOk(c, p.prices, current);
  }

  lemma ConversionKeepsBooks(p: Pool, current: nat, n: AccountId, c: Deposit)
    requires Books(p, current) && n in p.deposits
    requires ConvertDeposit(p.prices, p.deposits[n], current) == Ok(c)
    ensures Books(p.(deposits := p.deposits[n := c]), current)
    ensures Total(p.deposits[n := c], ClaimIn(p.prices)) == Total(p.deposits, ClaimIn(p.prices))
  {
    ConvertDepositInvisible(p.prices, p.deposits[n], current);
    DepositSums(p.deposits, c, p.prices, n);
  }

  lemma EarlyPriceOverwritten(q: Pool, epoch: nat)
    requires !Idle(q)
    ensures Finalize(q.(prices := q.prices - {epoch}), epoch) == Finalize(q, epoch)
  {
    var price := SharePrice.New(q.totalShares, q.totalStake);
    if price.Ok? {
      assert (q.prices - {epoch})[epoch := price.value] == q.prices[epoch := price.value];
    }
  }

  // ---- The whole boundary ----

  function TaxDue(p: Pool, reward: Option<nat>): nat { if reward.Some? then TaxOn(p.tax, reward.value) else 0 }

  /** The pool after its reward, without the tax deposit. */
  function Rewarded(p: Pool, net: nat): Pool { p.(totalStake := p.totalStake + net, credited := p.credited + net) }

  lemma RewardedKeeps(p: Pool, net: nat, config: Config, epoch: nat, head: nat)
    requires Inv(p, config, epoch, head)
    ensures Inv(Rewarded(p, net), config, epoch, head)
  {
    assert Books(Rewarded(p, net), epoch);
  }

  lemma UntaxedKeeps(p: Pool, p': Pool, net: nat, config: Config, epoch: nat, head: nat)
    requires Inv(p, config, epoch, head)
    requires Finalize(Rewarded(p, net), epoch) == Ok(p')
    ensures Inv(p', config, epoch + 1, head) && Idle(p')
  {
    var q := Rewarded(p, net);
    RewardedKeeps(p, net, config, epoch, head);
    if Idle(q) {
      IdleKeeps(q, config, epoch, head);
    } else {
      if epoch in q.prices {
        EarlyPriceUnused(q, q.(prices := q.prices - {epoch}), config, epoch, head);
        EarlyPriceOverwritten(q, epoch);
        q := q.(prices := q.prices - {epoch});
      }
      FinalizeKeeps(q, p', config, epoch, head);
    }
  }

  lemma TaxAdds(p: Pool, q: Pool, epoch: nat, reward: nat) returns (staking: nat, storageFee: nat, net: nat)
    requires TaxOn(p.tax, reward) > 0 && TakeReward(p, epoch, reward) == Ok(q)
    ensures staking + storageFee + net == reward
    ensures DepositAdded(p, q, p.owner, epoch, staking, storageFee, net)
  {
    var tax := TaxOn(p.tax, reward);
    storageFee := StorageFund.Reserve(tax);
    staking, net := tax - storageFee, reward - tax;
  }

  lemma TaxedKeeps(p: Pool, q: Pool, p': Pool, config: Config, epoch: nat, head: nat, staking: nat, storageFee: nat,
                   net: nat)
    requires Inv(p, config, epoch, head) && epoch !in p.prices
    requires DepositAdded(p, q, p.owner, epoch, staking, storageFee, net) && Finalize(q, epoch) == Ok(p')
    ensures Inv(p', config, epoch + 1, head) && Idle(p')
  {
    DepositKeeps(p, q, config, epoch, head, p.owner, staking, storageFee, net);
    FinalizeKeeps(q, p', config, epoch, head);
  }

  /** In the registration epoch the tax deposit first converts what the owner registered with. */
  lemma EarlyTaxSame(p: Pool, q: Pool, config: Config, epoch: nat, head: nat, staking: nat, storageFee: nat, net: nat)
    returns (p2: Pool)
    requires Inv(p, config, epoch, head) && epoch in p.prices
    requires DepositAdded(p, q, p.owner, epoch, staking, storageFee, net)
    ensures Inv(p2, config, epoch, head) && epoch !in p2.prices && p2.owner == p.owner
    ensures DepositAdded(p2, q.(prices := q.prices - {epoch}), p2.owner, epoch, staking, storageFee, net)
  {
    var c := ConvertDeposit(p.prices, p.deposits[p.owner], epoch).value;
    assert c.pending.None? by { assert DepositOk(p.deposits[p.owner], p.prices, epoch); }
    ConversionKeeps(p, config, epoch, head, c);
    var p1 := p.(deposits := p.deposits[p.owner := c]);
    p2 := p1.(prices := p1.prices - {epoch});
    EarlyPriceUnused(p1, p2, config, epoch, head);
    ConvertedAgain(p, p2, q, epoch, c, staking, storageFee, net);
  }

  lemma ConvertedAgain(p: Pool, p2: Pool, q: Pool, epoch: nat, c: Deposit, staking: nat, storageFee: nat, net: nat)
    requires DepositAdded(p, q, p.owner, epoch, staking, storageFee, net) && p.owner in p.deposits
    requires ConvertDeposit(p.prices, p.deposits[p.owner], epoch) == Ok(c) && c.pending.None?
    requires p2 == p.(deposits := p.deposits[p.owner := c], prices := p.prices - {epoch})
    ensures DepositAdded(p2, q.(prices := q.prices - {epoch}), p2.owner, epoch, staking, storageFee, net)
  {
    assert p.deposits[p.owner := c][p.owner := q.deposits[p.owner]] == p.deposits[p.owner := q.deposits[p.owner]];
  }

  /** Whatever the order of deposits, withdrawals, rewards and tax in the epoch, its boundary keeps the pool
      invariant and leaves nothing pending. */
  lemma BoundaryKeeps(p: Pool, p': Pool, config: Config, epoch: nat, head: nat, reward: Option<nat>)
    requires Inv(p, config, epoch, head)
    requires Boundary(p, epoch, reward) == Ok(p')
    ensures Inv(p', config, epoch + 1, head) && Idle(p')
  {
    BoundaryIs(p, p', epoch, reward);
    if TaxDue(p, reward) == 0 {
      UntaxedKeeps(p, p', if reward.Some? then reward.value else 0, config, epoch, head);
    } else {
      var q, staking, storageFee, net :| TaxFinalized(p, q, p', epoch, staking, storageFee, net);
      TaxedBoundaryKeeps(p, q, p', config, epoch, head, staking, storageFee, net);
    }
  }

  ghost predicate TaxFinalized(p: Pool, q: Pool, p': Pool, epoch: nat, staking: nat, storageFee: nat, net: nat) {
    DepositAdded(p, q, p.owner, epoch, staking, storageFee, net) && Finalize(q, epoch) == Ok(p')
  }

  lemma BoundaryIs(p: Pool, p': Pool, epoch: nat, reward: Option<nat>)
    requires Boundary(p, epoch, reward) == Ok(p')
    ensures TaxDue(p, reward) == 0 ==> Finalize(Rewarded(p, if reward.Some? then reward.value else 0), epoch) == Ok(p')
    ensures TaxDue(p, reward) > 0 ==>
              exists q, staking, storageFee, net :: TaxFinalized(p, q, p', epoch, staking, storageFee, net)
  {
    if TaxDue(p, reward) > 0 {
      var q := TakeReward(p, epoch, reward.value).value;
      var staking, storageFee, net := TaxAdds(p, q, epoch, reward.value);
      assert TaxFinalized(p, q, p', epoch, staking, storageFee, net);
    }
  }

  lemma TaxedBoundaryKeeps(p: Pool, q: Pool, p': Pool, config: Config, epoch: nat, head: nat, staking: nat,
                           storageFee: nat, net: nat)
    requires Inv(p, config, epoch, head) && TaxFinalized(p, q, p', epoch, staking, storageFee, net)
    ensures Inv(p', config, epoch + 1, head) && Idle(p')
  {
    if epoch in p.prices {
      var p2 := EarlyTaxSame(p, q, config, epoch, head, staking, storageFee, net);
      EarlyPriceOverwritten(q, epoch);
      TaxedKeeps(p2, q.(prices := q.prices - {epoch}), p', config, epoch, head, staking, storageFee, net);
    } else {
      TaxedKeeps(p, q, p', config, epoch, head, staking, storageFee, net);
    }
  }

  // ---- When the boundary succeeds, and what it does to stake per share ----

  lemma FinalizeRatio(p: Pool, p': Pool, epoch: nat)
    requires p.withdrawalsInEpoch <= p.totalShares && Finalize(p, epoch) == Ok(p')
    ensures p'.totalStake * p.totalShares >= p.totalStake * p'.totalShares
  {
    if !Idle(p) {
      var price := SharePrice.New(p.totalShares, p.totalStake).value;
      MoveKeepsRatio(price, p.totalShares, p.totalStake, p.withdrawalsInEpoch, p.depositsInEpoch);
    }
  }

  /** The boundary never lowers stake per share. */
  lemma BoundaryRatio(p: Pool, p': Pool, epoch: nat, reward: Option<nat>)
    requires p.withdrawalsInEpoch <= p.totalShares && Boundary(p, epoch, reward) == Ok(p')
    ensures p'.totalStake * p.totalShares >= p.totalStake * p'.totalShares
  {
    var q := if reward.None? then p else TakeReward(p, epoch, reward.value).value;
    RewardOnlyAddsStake(p, epoch, reward);
    RatioFromRewarded(p.totalStake, q, p', epoch);
  }

  lemma RatioFromRewarded(stake: nat, q: Pool, p': Pool, epoch: nat)
    requires q.withdrawalsInEpoch <= q.totalShares && Finalize(q, epoch) == Ok(p') && stake <= q.totalStake
    ensures p'.totalStake * q.totalShares >= stake * p'.totalShares
  {
    FinalizeRatio(q, p', epoch);
    MulMono(stake, q.totalStake, p'.totalShares);
  }

  lemma RewardOnlyAddsStake(p: Pool, epoch: nat, reward: Option<nat>)
    requires reward.None? || TakeReward(p, epoch, reward.value).Ok?
    ensures var q := if reward.None? then p else TakeReward(p, epoch, reward.value).value;
            && q.totalShares == p.totalShares && q.withdrawalsInEpoch == p.withdrawalsInEpoch
            && q.totalStake >= p.totalStake
            && q.depositsInEpoch >= p.depositsInEpoch
            && (q.depositsInEpoch > p.depositsInEpoch <==> TaxDue(p, reward) > 0)
  {}

  /** The boundary fails exactly when there is something to move in a pool without shares. */
  lemma BoundarySucceeds(p: Pool, config: Config, epoch: nat, head: nat, reward: Option<nat>)
    requires Inv(p, config, epoch, head)
    ensures Boundary(p, epoch, reward).Ok? <==> (Idle(p) && TaxDue(p, reward) == 0) || p.totalShares > 0
  {
    ConversionsSucceed(p, config, epoch, head, p.owner);
    RewardOnlyAddsStake(p, epoch, reward);
    var q := if reward.None? then p else TakeReward(p, epoch, reward.value).value;
    FinalizeSucceeds(q, epoch);
  }

  /** A pool that nobody has shares of never gets any. */
  lemma BoundaryNoShares(p: Pool, p': Pool, epoch: nat, reward: Option<nat>)
    requires Boundary(p, epoch, reward) == Ok(p') && p.totalShares == 0
    ensures p'.totalShares == 0
  {
    RewardOnlyAddsStake(p, epoch, reward);
  }

  lemma FinalizeSucceeds(p: Pool, epoch: nat)
    requires p.withdrawalsInEpoch <= p.totalShares <= p.totalStake
    ensures Finalize(p, epoch).Ok? <==> Idle(p) || p.totalShares > 0
  {
    if p.totalShares > 0 {
      var price := SharePrice.New(p.totalShares, p.totalStake).value;
      SharePrice.SellKeepsRatio(price, p.totalShares, p.totalStake, p.withdrawalsInEpoch);
    }
  }
}
