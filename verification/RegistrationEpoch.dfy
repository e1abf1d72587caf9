/** The epoch an operator registers in: its price is already stored, and a nomination then breaks the share books.
    `PoolSteps.NominateKeeps` says exactly when; here is how it starts, how it mends itself and where it fails. */
module RegistrationEpoch {
  import opened StakingTypes
  import opened OperatorPool
  import opened PoolInvariant
  import opened MapSums
  import opened Perquintill
  import opened PoolBoundary
  import PoolSteps
  import SharePrice
  import StorageFund

  /** A new pool has what its owner asked for: a fifth of the amount in the storage fund and the rest as stake, one
      share a unit, all of it the owner's. */
  lemma RegisteredAs(owner: AccountId, amount: nat, minNominatorStake: nat, tax: Percent, epoch: nat)
    ensures var p := Register(owner, amount, minNominatorStake, tax, epoch);
            && p.owner == owner && p.tax == tax && p.minNominatorStake == minNominatorStake && p.status == Registered
            && p.totalStake == p.totalShares == p.credited == amount - amount / 5
            && p.totalStorageFee == p.fund == p.storageIn == amount / 5
            && p.deposits.Keys == {owner} && p.withdrawals == map[] && Idle(p) && !p.ownerLeft
            && Claim(p.deposits[owner], p.prices) == amount - amount / 5
            && StorageDeposit(p.deposits[owner]) == amount / 5
  {
    StorageFund.ReserveIsFifth(amount);
    MulFloorOne(amount - amount / 5);
  }

  lemma RegisteredIsExact(owner: AccountId, amount: nat, minNominatorStake: nat, tax: Percent, epoch: nat)
    requires amount > 0
    ensures var p := Register(owner, amount, minNominatorStake, tax, epoch);
            Books(p, epoch) && Exact(p, epoch)
  {
    var p := Register(owner, amount, minNominatorStake, tax, epoch);
    TotalSingleton(ClaimIn(p.prices), owner, p.deposits[owner]);
    TotalSingleton(UnpricedIn(p.prices), owner, p.deposits[owner]);
    TotalSingleton(StorageIn(), owner, p.deposits[owner]);
    TotalZero(p.withdrawals, OpenAt(epoch));
    TotalZero(p.withdrawals, PromisedIn(p.prices, epoch));
    MulFloorOne(p.totalStake);
  }

  // ---- Nominations that do no lasting harm ----

  /** A pool in its registration epoch that took deposits, and none of whose nominators withdrew. */
  ghost predicate Crowded(p: Pool, epoch: nat) {
    && epoch in p.prices && p.prices[epoch] == SharePrice.One() && (forall e :: e in p.prices ==> e <= epoch)
    && p.withdrawals == map[] && p.withdrawalsInEpoch == 0 && p.released == 0
    && 0 < p.totalShares == p.totalStake == p.credited
    && (forall n :: n in p.deposits ==> DepositOk(p.deposits[n], p.prices, epoch))
    && OwnerStakes(p)
    && p.totalStorageFee == Total(p.deposits, StorageIn())
    // the shares of the new deposits are counted, but not issued yet
    && Total(p.deposits, ClaimIn(p.prices)) == p.totalShares + p.depositsInEpoch
  }

  lemma RegisteredIsCrowded(owner: AccountId, amount: nat, minNominatorStake: nat, tax: Percent, epoch: nat)
    requires amount > 0
    ensures Crowded(Register(owner, amount, minNominatorStake, tax, epoch), epoch)
  {
    var p := Register(owner, amount, minNominatorStake, tax, epoch);
    TotalSingleton(ClaimIn(p.prices), owner, p.deposits[owner]);
    TotalSingleton(StorageIn(), owner, p.deposits[owner]);
    MulFloorOne(p.totalStake);
  }

  lemma EarlyClaimExact(prices: map<nat, nat>, d: Deposit, c: Deposit, epoch: nat, staking: nat, storageFee: nat)
    requires ConvertDeposit(prices, d, epoch) == Ok(c) && epoch in prices && prices[epoch] == SharePrice.One()
    requires d.pending.Some? ==> d.pending.value.epoch in prices
    ensures Claim(PoolSteps.Topped(c, epoch, staking, storageFee), prices) == Claim(d, prices) + staking
  {
    MulFloorOne(staking);
  }

  lemma EarlyNominationsCrowd(p: Pool, p': Pool, epoch: nat, n: AccountId, amount: nat)
    requires Crowded(p, epoch) && Nominate(p, epoch, false, n, amount) == Ok(p')
    ensures Crowded(p', epoch)
  {
    var storageFee := PoolSteps.NominateAdds(p, p', epoch, false, n, amount);
    var staking := amount - storageFee;
    var d := DepositOf(p.deposits, n);
    var c := ConvertDeposit(p.prices, d, epoch).value;
    EarlyClaimExact(p.prices, d, c, epoch, staking, storageFee);
    PoolSteps.ToppedReserves(p.prices, d, c, epoch, staking, storageFee);
    PoolSteps.DepositSums(p.deposits, p'.deposits[n], p.prices, n);
  }

  lemma WholePrice(s: nat)
    requires s > 0
    ensures SharePrice.New(s, s) == Ok(SharePrice.One())
  {
    DivAtLeast(s * ONE, s, ONE);
  }

  lemma CrowdedMoves(p: Pool, epoch: nat)
    requires Crowded(p, epoch)
    ensures Finalize(p, epoch) == Ok(p.(totalStake := p.totalStake + p.depositsInEpoch,
                                        totalShares := p.totalShares + p.depositsInEpoch,
                                        credited := p.credited + p.depositsInEpoch, depositsInEpoch := 0))
  {
    WholePrice(p.totalShares);
    MulFloorOne(p.depositsInEpoch);
    assert p.prices[epoch := SharePrice.One()] == p.prices;
  }

  lemma CrowdedSettles(p: Pool, p': Pool, config: Config, epoch: nat, head: nat)
    requires Crowded(p, epoch) && Finalize(p, epoch) == Ok(p')
    ensures Inv(p', config, epoch + 1, head)
  {
    CrowdedMoves(p, epoch);
    TotalZero(p'.deposits, UnpricedIn(p'.prices));
    TotalZero(p'.withdrawals, OpenAt(epoch + 1));
    TotalZero(p'.withdrawals, PromisedIn(p'.prices, epoch + 1));
  }

  datatype Nomination = Nomination(n: AccountId, amount: nat)

  function NominateAll(p: Pool, epoch: nat, calls: seq<Nomination>): Result<Pool> {
    if calls == [] then Ok(p)
    else
      var k := |calls| - 1;
      var q :- NominateAll(p, epoch, calls[..k]);
      Nominate(q, epoch, false, calls[k].n, calls[k].amount)
  }

  lemma {:induction false} NominationsCrowd(p: Pool, p': Pool, epoch: nat, calls: seq<Nomination>)
    requires Crowded(p, epoch) && NominateAll(p, epoch, calls) == Ok(p')
    ensures Crowded(p', epoch)
    decreases |calls|
  {
    if calls != [] {
      var k := |calls| - 1;
      var q := NominateAll(p, epoch, calls[..k]).value;
      NominationsCrowd(p, q, epoch, calls[..k]);
      EarlyNominationsCrowd(q, p', epoch, calls[k].n, calls[k].amount);
    }
  }

  /** However many nominations a pool took in its registration epoch, without a withdrawal or a reward it is sound again
      when the epoch has ended. */
  lemma RegistrationEpochSettles(owner: AccountId, amount: nat, minNominatorStake: nat, tax: Percent, epoch: nat,
                                 calls: seq<Nomination>, config: Config, head: nat)
    requires amount > 0
    ensures var joined := NominateAll(Register(owner, amount, minNominatorStake, tax, epoch), epoch, calls);
            joined.Ok? ==>
              && Boundary(joined.value, epoch, None).Ok?
              && Inv(Boundary(joined.value, epoch, None).value, config, epoch + 1, head)
  {
    var p := Register(owner, amount, minNominatorStake, tax, epoch);
    var joined := NominateAll(p, epoch, calls);
    if joined.Ok? {
      RegisteredIsCrowded(owner, amount, minNominatorStake, tax, epoch);
      NominationsCrowd(p, joined.value, epoch, calls);
      CrowdedMoves(joined.value, epoch);
      CrowdedSettles(joined.value, Finalize(joined.value, epoch).value, config, epoch, head);
    }
  }

  // ---- A run that fails ----

  /** An operator of 1000, and a nominator of 10000 who joins in the same epoch. */
  function Joined(): Pool {
    Pool(0, 1, 0, Registered, 800, 800, 8000, 0, 2200, 2200, map[5 := ONE],
         map[0 := Deposit(0, 0, Some(Pending(5, 800, 200))), 1 := Deposit(0, 0, Some(Pending(5, 8000, 2000)))],
         map[], 800, 0, 2200, 0, false)
  }

  lemma JoinedEarly()
    ensures Nominate(Register(0, 1000, 1, 0, 5), 5, false, 1, 10000) == Ok(Joined())
  {
    assert StorageFund.Reserve(1000) == 200 && StorageFund.Reserve(10000) == 2000;
    MulFloorOne(800);
  }

  lemma HalfWithdrawn(config: Config)
    ensures SharesToWithdraw(Joined(), config, None, 1, Deposit(8000, 2000, None), 4000) == Ok(4000)
    ensures MulFloor(FromRational(4000, 8000), 2000) == 1000
  {
    assert SharePrice.New(800, 800) == Ok(ONE);
    assert SharePrice.SharesToStake(ONE, 4000) == 4000;
  }

  lemma Overdrawn(p: Pool, epoch: nat)
    requires p.totalShares == p.totalStake == 800 && p.withdrawalsInEpoch == 4000
    ensures Finalize(p, epoch) == Err(BalanceUnderflow)
  {
    assert SharePrice.New(800, 800) == Ok(ONE);
    assert SharePrice.SharesToStake(ONE, 4000) == 4000;
  }

  lemma LeftEarly(config: Config)
    requires config.withdrawalLimit > 0
    ensures var p := Withdraw(Joined(), config, 5, 0, false, None, 1, 4000);
            p.Ok? && p.value.totalShares == p.value.totalStake == 800 && p.value.withdrawalsInEpoch == 4000
  {
    MulFloorOne(8000);
    assert ConvertDeposit(Joined().prices, Joined().deposits[1], 5) == Ok(Deposit(8000, 2000, None));
    HalfWithdrawn(config);
  }

  /** A nominator who joins and withdraws in the registration epoch makes the epoch impossible to finalize. */
  lemma EarlyWithdrawalStopsEpoch(config: Config)
    requires config.withdrawalLimit > 0
    ensures var joined := Nominate(Register(0, 1000, 1, 0, 5), 5, false, 1, 10000);
            && joined.Ok?
            && var left := Withdraw(joined.value, config, 5, 0, false, None, 1, 4000);
               left.Ok? && Finalize(left.value, 5) == Err(BalanceUnderflow)
  {
    JoinedEarly();
    LeftEarly(config);
    Overdrawn(Withdraw(Joined(), config, 5, 0, false, None, 1, 4000).value, 5);
  }
}
