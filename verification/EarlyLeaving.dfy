/** Three runs that go wrong because somebody leaves a pool too early. `PoolSteps.UnlockNominatorKeeps`,
    `Slashing.FreezesFunded` and `StakingTheorems.NoSharesStrand` say exactly when they do. */
module EarlyLeaving {
  import opened StakingTypes
  import opened OperatorPool
  import opened PoolInvariant
  import opened MapSums
  import opened Perquintill
  import opened SoloRuns
  import DomainInvariant
  import PoolSteps
  import SharePrice
  import Slashing
  import StorageFund

  // ---- An owner and a nominator ----

  /** An owner registers with 1000 in epoch 0, and a nominator joins with 250 in epoch 1; a fifth goes to storage. */
  function Owned(): Pool {
    Pool(0, 1, 0, Registered, 800, 800, 0, 0, 200, 200, map[0 := ONE],
         map[0 := Deposit(0, 0, Some(Pending(0, 800, 200)))], map[], 800, 0, 200, 0, false)
  }

  function Shared(): Pool {
    Pool(0, 1, 0, Registered, 1000, 1000, 0, 0, 250, 250, map[0 := ONE, 1 := ONE],
         map[0 := Deposit(0, 0, Some(Pending(0, 800, 200))), 1 := Deposit(0, 0, Some(Pending(1, 200, 50)))],
         map[], 1000, 0, 250, 0, false)
  }

  lemma OwnedIs()
    ensures Register(0, 1000, 1, 0, 0) == Owned()
  {
    assert StorageFund.Reserve(1000) == 200;
    MulFloorOne(800);
  }

  lemma SharedIs()
    ensures Finalize(Owned(), 0) == Ok(Owned())
    ensures Nominate(Owned(), 1, false, 1, 250).Ok?
    ensures Finalize(Nominate(Owned(), 1, false, 1, 250).value, 1) == Ok(Shared())
  {
    assert StorageFund.Reserve(250) == 50;
    assert SharePrice.New(800, 800) == Ok(ONE);
    assert SharePrice.SharesToStake(ONE, 0) == 0;
    MulFloorOne(200);
  }

  lemma SharedOccurs(config: Config)
    requires DomainInvariant.ConfigOk(config) && config.minOperatorStake <= 1000
    ensures Occurs(config, Shared(), 2, 0)
  {
    OwnedIs();
    Registers(config, 0, 1000, 1, 0);
    SharedIs();
    EndsEpoch(config, Owned(), Owned(), 0, 0);
    var joined := Nominate(Owned(), 1, false, 1, 250).value;
    Nominates(config, Owned(), joined, 1, 0, 1, 250);
    EndsEpoch(config, joined, Shared(), 1, 0);
  }

  // ---- Leaving in the deregistration epoch ----

  /** In epoch 2 the nominator withdraws 100 of its 200 shares. */
  function Asked(lock: nat): Pool {
    Shared().(withdrawalsInEpoch := 100, totalStorageFee := 225, fund := 225,
              deposits := Shared().deposits[1 := Deposit(100, 25, None)],
              withdrawals := map[1 := Withdrawal(0, 25, [], Some(InShares(2, lock, 100, 25)))])
  }

  /** It has left with all its shares in the same epoch, but its withdrawal is still counted. */
  function Miscounted(lock: nat): Pool {
    Pool(0, 1, 0, Deregistered(2, lock), 800, 800, 0, 100, 200, 200, map[0 := ONE, 1 := ONE],
         map[0 := Deposit(0, 0, Some(Pending(0, 800, 200)))], map[], 1000, 200, 250, 50,
         false)
  }

  lemma AskedIs(config: Config)
    ensures Withdraw(Shared(), config, 2, 0, false, None, 1, 100) == Ok(Asked(config.lockingPeriod))
  {
    var d := Deposit(200, 50, None);
    assert ConvertDeposit(Shared().prices, Shared().deposits[1], 2) == Ok(d) by { MulFloorOne(200); }
    assert SharesToWithdraw(Shared(), config, None, 1, d, 100) == Ok(100) by {
      assert SharePrice.New(1000, 1000) == Ok(ONE);
      assert SharePrice.SharesToStake(ONE, 100) == 100;
    }
    assert MulFloor(FromRational(100, 200), 50) == 25;
  }

  lemma LeftInEpoch(lock: nat)
    ensures UnlockNominator(Asked(lock).(status := Deregistered(2, lock)), 2, lock, false, 1) == Ok(Miscounted(lock))
  {
    var p := Asked(lock);
    assert SharePrice.New(1000, 1000) == Ok(ONE);
    assert SharePrice.SharesToStake(ONE, 200) == 200;
    assert p.deposits - {1} == Miscounted(lock).deposits;
    assert p.withdrawals - {1} == map[];
  }

  lemma OwnerStranded(lock: nat)
    ensures Finalize(Miscounted(lock), 2).Ok?
    ensures UnlockNominator(Finalize(Miscounted(lock), 2).value, 3, lock, false, 0) == Err(ShareOverflow)
  {
    assert SharePrice.New(800, 800) == Ok(ONE) && SharePrice.New(700, 700) == Ok(ONE);
    assert SharePrice.SharesToStake(ONE, 100) == 100;
    MulFloorOne(0);
    MulFloorOne(800);
  }

  /** A nominator who leaves in the deregistration epoch with an open withdrawal takes its shares twice: when the epoch
      has ended, the owner of all remaining shares can no longer leave. */
  lemma LeavingEarlyStrandsOwner(config: Config)
    requires DomainInvariant.ConfigOk(config) && config.minOperatorStake <= 1000
    ensures var lock := config.lockingPeriod;
            var asked := Asked(lock).(status := Deregistered(2, lock));
            && Occurs(config, asked, 2, lock)
            && var left := UnlockNominator(asked, 2, lock, false, 1);
               && left.Ok? && !Books(left.value, 2)
               && var ended := Finalize(left.value, 2);
                  ended.Ok? && UnlockNominator(ended.value, 3, lock, false, 0) == Err(ShareOverflow)
  {
    var lock := config.lockingPeriod;
    var asked := Asked(lock).(status := Deregistered(2, lock));
    SharedOccurs(config);
    AskedIs(config);
    Withdraws(config, Shared(), Asked(lock), 2, 0, 1, 100);
    Deregisters(config, Asked(lock), 2, 0);
    Advances(config, asked, 2, 0, lock);
    LeftInEpoch(lock);
    OccursOk(config, asked, 2, lock);
    PoolSteps.UnlockNominatorKeeps(asked, Miscounted(lock), config, 2, lock, false, 1);
    OwnerStranded(lock);
  }

  // ---- Freezing in the registration epoch ----

  /** In epoch 0 the owner withdraws 100 of its 800 shares, and is then slashed. */
  function Retreated(lock: nat): Pool {
    Owned().(withdrawalsInEpoch := 100, totalStorageFee := 175, fund := 175,
             deposits := map[0 := Deposit(700, 175, None)],
             withdrawals := map[0 := Withdrawal(0, 25, [], Some(InShares(0, lock, 100, 25)))])
  }

  function FrozenEarly(lock: nat): Pool { Retreated(lock).(status := Slashed) }

  lemma RetreatedIs(config: Config)
    requires config.minOperatorStake <= 875
    ensures Withdraw(Owned(), config, 0, 0, false, None, 0, 100) == Ok(Retreated(config.lockingPeriod))
  {
    var d := Deposit(800, 200, None);
    assert ConvertDeposit(Owned().prices, Owned().deposits[0], 0) == Ok(d) by { MulFloorOne(800); }
    assert SharesToWithdraw(Owned(), config, None, 0, d, 100) == Ok(100) by {
      assert SharePrice.New(800, 800) == Ok(ONE);
      assert SharePrice.SharesToStake(ONE, 700) == 700;
      assert MulFloor(FromRational(700, 800), 200) == 175;
    }
    assert MulFloor(FromRational(100, 800), 200) == 25;
    assert Owned().deposits[0 := Deposit(700, 175, None)] == map[0 := Deposit(700, 175, None)];
  }

  lemma FrozenEarlyOccurs(config: Config)
    requires DomainInvariant.ConfigOk(config) && config.minOperatorStake <= 875
    ensures Occurs(config, FrozenEarly(config.lockingPeriod), 1, 0)
  {
    var lock := config.lockingPeriod;
    OwnedIs();
    Registers(config, 0, 1000, 1, 0);
    RetreatedIs(config);
    Withdraws(config, Owned(), Retreated(lock), 0, 0, 0, 100);
    GetsSlashed(config, Retreated(lock), 0, 0);
    EndsEpoch(config, FrozenEarly(lock), FrozenEarly(lock), 0, 0);
  }

  lemma ConvertedLate(lock: nat)
    ensures ConvertedWithdrawal(FrozenEarly(lock).prices, FrozenEarly(lock).withdrawals[0], 1)
            == Withdrawal(100, 25, [InBalance(lock, 100, 25)], None)
    ensures SlashedShares(FrozenEarly(lock), 1, 0) == 700
  {
    assert SharePrice.SharesToStake(ONE, 100) == 100;
  }

  /** When the epoch is over the withdrawal is converted at the early price although its shares were never burnt, and
      slashing takes more out of the pool than was ever put in. */
  lemma FreezingEarlyOverpays(config: Config)
    requires DomainInvariant.ConfigOk(config) && config.minOperatorStake <= 875
    ensures var p := FrozenEarly(config.lockingPeriod);
            && Occurs(config, p, 1, 0) && !Slashing.Funded(p)
            && var q := SlashBatch(p, 1, [0]);
               q.Ok? && q.value.released + q.value.totalStake > q.value.credited
  {
    FrozenEarlyOccurs(config);
    SlashedLate(config.lockingPeriod);
  }

  lemma SlashedLate(lock: nat)
    ensures var p := FrozenEarly(lock);
            && !Slashing.Funded(p)
            && var q := SlashBatch(p, 1, [0]);
               q.Ok? && q.value.released + q.value.totalStake > q.value.credited
  {
    var p := FrozenEarly(lock);
    assert SharePrice.SharesToStake(ONE, 100) == 100;
    TotalSingleton(Slashing.DueIn(p.prices), 0, p.withdrawals[0]);
    ConvertedLate(lock);
    assert SharePrice.New(800, 800) == Ok(ONE);
    assert SharePrice.SharesToStake(ONE, 700) == 700;
    assert [0][..0] == [];
    assert SlashEach(p, 1, ONE, []) == Ok(p);
  }

  // ---- An owner leaving before a withdrawer ----

  /** In epoch 2 the nominator withdraws all its shares. */
  function AllAsked(lock: nat): Pool {
    Shared().(withdrawalsInEpoch := 200, totalStorageFee := 200, fund := 200,
              deposits := Shared().deposits[1 := Deposit(0, 0, None)],
              withdrawals := map[1 := Withdrawal(0, 50, [], Some(InShares(2, lock, 200, 50)))])
  }

  /** The end of the epoch has burnt them. */
  function Burnt(lock: nat): Pool {
    AllAsked(lock).(totalStake := 800, totalShares := 800, withdrawalsInEpoch := 0,
                    prices := map[0 := ONE, 1 := ONE, 2 := ONE])
  }

  /** The operator deregistered in epoch 3, and its owner left with the last shares. */
  function Emptied(lock: nat): Pool {
    Pool(0, 1, 0, Deregistered(3, lock), 0, 0, 0, 0, 0, 0, map[0 := ONE, 1 := ONE, 2 := ONE],
         map[1 := Deposit(0, 0, None)], map[1 := Withdrawal(0, 50, [], Some(InShares(2, lock, 200, 50)))],
         1000, 800, 250, 200, true)
  }

  lemma AllAskedIs(config: Config)
    ensures Withdraw(Shared(), config, 2, 0, false, None, 1, 200) == Ok(AllAsked(config.lockingPeriod))
  {
    assert ConvertDeposit(Shared().prices, Shared().deposits[1], 2) == Ok(Deposit(200, 50, None)) by {
      MulFloorOne(200);
    }
    assert MulFloor(FromRational(200, 200), 50) == 50;
  }

  lemma BurntIs(lock: nat)
    ensures Finalize(AllAsked(lock), 2) == Ok(Burnt(lock))
  {
    assert SharePrice.New(1000, 1000) == Ok(ONE);
    assert SharePrice.SharesToStake(ONE, 200) == 200;
    MulFloorOne(0);
  }

  lemma EmptiedIs(lock: nat)
    ensures UnlockNominator(Burnt(lock).(status := Deregistered(3, lock)), 4, lock, false, 0) == Ok(Emptied(lock))
  {
    var p := Burnt(lock);
    assert SharePrice.New(800, 800) == Ok(ONE);
    assert SharePrice.SharesToStake(ONE, 800) == 800;
    MulFloorOne(800);
    assert p.deposits - {0} == map[1 := Deposit(0, 0, None)];
    assert p.withdrawals - {0} == p.withdrawals;
  }

  lemma EmptiedOccurs(config: Config)
    requires DomainInvariant.ConfigOk(config) && config.minOperatorStake <= 1000
    ensures Occurs(config, Emptied(config.lockingPeriod), 4, config.lockingPeriod)
  {
    var lock := config.lockingPeriod;
    var left := Burnt(lock).(status := Deregistered(3, lock));
    SharedOccurs(config);
    AllAskedIs(config);
    Withdraws(config, Shared(), AllAsked(lock), 2, 0, 1, 200);
    BurntIs(lock);
    EndsEpoch(config, AllAsked(lock), Burnt(lock), 2, 0);
    Deregisters(config, Burnt(lock), 3, 0);
    EndsEpoch(config, left, left, 3, 0);
    Advances(config, left, 4, 0, lock);
    EmptiedIs(lock);
    assert 1 in Emptied(lock).deposits;
    Leaves(config, left, Emptied(lock), 4, lock, 0);
  }

  /** A nominator who withdrew everything is owed 200 by a pool without shares, and both ways out are closed: there is
      no price to leave at, and a deregistered operator unlocks no funds. */
  lemma OwnerLeavingStrandsWithdrawer(config: Config)
    requires DomainInvariant.ConfigOk(config) && config.minOperatorStake <= 1000
    ensures var p := Emptied(config.lockingPeriod);
            && Occurs(config, p, 4, config.lockingPeriod)
            && Promised(p.withdrawals[1], p.prices, 4) == 200
            && UnlockNominator(p, 4, config.lockingPeriod, false, 1) == Err(ZeroSharePrice)
            && UnlockFunds(p, 4, config.lockingPeriod, false, 1) == Err(OperatorNotRegisteredOrDeactivated)
  {
    EmptiedOccurs(config);
    assert SharePrice.SharesToStake(ONE, 200) == 200;
  }
}
