/** Every pool operation keeps the pool invariant. */
module PoolSteps {
  import opened StakingTypes
  import opened OperatorPool
  import opened PoolInvariant
  import opened MapSums
  import opened Perquintill
  import SharePrice
  import StorageFund

  // ---- Changes at one nominator ----

  lemma DepositSums(ds: Deposits, d: Deposit, prices: map<nat, nat>, n: AccountId)
    ensures Total(ds[n := d], UnpricedIn(prices)) + Unpriced(DepositOf(ds, n), prices)
            == Total(ds, UnpricedIn(prices)) + Unpriced(d, prices)
    ensures Total(ds[n := d], ClaimIn(prices)) + Claim(DepositOf(ds, n), prices)
            == Total(ds, ClaimIn(prices)) + Claim(d, prices)
    ensures Total(ds[n := d], StorageIn()) + StorageDeposit(DepositOf(ds, n))
            == Total(ds, StorageIn()) + StorageDeposit(d)
  {
    TotalUpdate(ds, UnpricedIn(prices), n, d);
    TotalUpdate(ds, ClaimIn(prices), n, d);
    TotalUpdate(ds, StorageIn(), n, d);
  }

  lemma WithdrawalSums(ws: Withdrawals, w: Withdrawal, prices: map<nat, nat>, current: nat, n: AccountId)
    ensures Total(ws[n := w], OpenAt(current)) + Open(WithdrawalOf(ws, n), current)
            == Total(ws, OpenAt(current)) + Open(w, current)
    ensures Total(ws[n := w], PromisedIn(prices, current)) + Promised(WithdrawalOf(ws, n), prices, current)
            == Total(ws, PromisedIn(prices, current)) + Promised(w, prices, current)
  {
    TotalUpdate(ws, OpenAt(current), n, w);
    TotalUpdate(ws, PromisedIn(prices, current), n, w);
  }

  // ---- Deposits ----

  /** A converted deposit with more pending in the running epoch. */
  ghost function Topped(c: Deposit, current: nat, staking: nat, storageFee: nat): Deposit {
    c.(pending := Some(Pending(current, PendingAmount(c) + staking, PendingStorageFee(c) + storageFee)))
  }

  lemma ToppedReserves(prices: map<nat, nat>, d: Deposit, c: Deposit, current: nat, staking: nat, storageFee: nat)
    requires ConvertDeposit(prices, d, current) == Ok(c)
    ensures StorageDeposit(Topped(c, current, staking, storageFee)) == StorageDeposit(d) + storageFee
  {}

  lemma ToppedWaits(prices: map<nat, nat>, d: Deposit, c: Deposit, current: nat, staking: nat, storageFee: nat)
    requires ConvertDeposit(prices, d, current) == Ok(c) && current !in prices
    ensures Claim(Topped(c, current, staking, storageFee), prices) == Claim(d, prices)
    ensures Unpriced(Topped(c, current, staking, storageFee), prices) == Unpriced(d, prices) + staking
  {
    ConvertDepositInvisible(prices, d, current);
  }

  /** A new deposit of the running epoch, on top of `p` with the net reward `net` already added. */
  ghost predicate DepositAdded(p: Pool, p': Pool, n: AccountId, current: nat, staking: nat, storageFee: nat, net: nat)
  {
    && staking > 0
    && ConvertDeposit(p.prices, DepositOf(p.deposits, n), current).Ok?
    && var c := ConvertDeposit(p.prices, DepositOf(p.deposits, n), current).value;
    p' == p.(depositsInEpoch := p.depositsInEpoch + staking,
             totalStorageFee := p.totalStorageFee + storageFee,
             fund := p.fund + storageFee,
             storageIn := p.storageIn + storageFee,
             totalStake := p.totalStake + net,
             credited := p.credited + net,
             deposits := p.deposits[n := Topped(c, current, staking, storageFee)])
  }

  lemma DepositKeepsBooks(p: Pool, p': Pool, current: nat, n: AccountId, staking: nat, storageFee: nat, net: nat)
    requires Books(p, current) && current !in p.prices
    requires DepositAdded(p, p', n, current, staking, storageFee, net)
    ensures Books(p', current)
    ensures Claim(p'.deposits[n], p.prices) == Claim(DepositOf(p.deposits, n), p.prices)
  {
    var d := DepositOf(p.deposits, n);
    var c := ConvertDeposit(p.prices, d, current).value;
    ToppedReserves(p.prices, d, c, current, staking, storageFee);
    ToppedWaits(p.prices, d, c, current, staking, storageFee);
    DepositSums(p.deposits, p'.deposits[n], p.prices, n);
  }

  lemma EarlyClaim(prices: map<nat, nat>, d: Deposit, c: Deposit, current: nat, staking: nat, storageFee: nat)
    requires ConvertDeposit(prices, d, current) == Ok(c) && staking > 0
    requires current in prices && prices[current] == SharePrice.One()
    ensures Claim(Topped(c, current, staking, storageFee), prices) > Claim(d, prices)
  {
    MulFloorOne(PendingAmount(c) + staking);
  }

  lemma EarlyClaimGrows(p: Pool, p': Pool, current: nat, n: AccountId, staking: nat, storageFee: nat, net: nat)
    requires DepositAdded(p, p', n, current, staking, storageFee, net) && current in p.prices
    requires p.prices[current] == SharePrice.One()
    ensures Total(p'.deposits, ClaimIn(p.prices)) > Total(p.deposits, ClaimIn(p.prices))
  {
    var d := DepositOf(p.deposits, n);
    EarlyClaim(p.prices, d, ConvertDeposit(p.prices, d, current).value, current, staking, storageFee);
    TotalUpdate(p.deposits, ClaimIn(p.prices), n, p'.deposits[n]);
  }

  /** A deposit keeps the share books, and with them the pool sound, exactly when the running epoch has no price yet:
      in its registration epoch a pool would count the new shares before it issues them. */
  lemma DepositKeeps(p: Pool, p': Pool, config: Config, current: nat, head: nat, n: AccountId, staking: nat,
                     storageFee: nat, net: nat)
    requires Inv(p, config, current, head)
    requires DepositAdded(p, p', n, current, staking, storageFee, net)
    ensures Books(p', current) <==> current !in p.prices
    ensures Inv(p', config, current, head) <==> current !in p.prices
  {
    if current in p.prices {
      EarlyClaimGrows(p, p', current, n, staking, storageFee, net);
    } else {
      DepositKeepsBooks(p, p', current, n, staking, storageFee, net);
    }
  }

  lemma NominateAdds(p: Pool, p': Pool, current: nat, pendingSlash: bool, n: AccountId, amount: nat)
    returns (storageFee: nat)
    requires Nominate(p, current, pendingSlash, n, amount) == Ok(p')
    ensures storageFee <= amount && DepositAdded(p, p', n, current, amount - storageFee, storageFee, 0)
  {
    storageFee := StorageFund.Reserve(amount);
  }

  /** Some deposit was added, and nothing else changed. */
  ghost predicate DepositMade(p: Pool, p': Pool, current: nat, n: AccountId) {
    exists staking, storageFee :: DepositAdded(p, p', n, current, staking, storageFee, 0)
  }

  lemma NominateTops(p: Pool, p': Pool, current: nat, pendingSlash: bool, n: AccountId, amount: nat)
    requires Nominate(p, current, pendingSlash, n, amount) == Ok(p')
    ensures DepositMade(p, p', current, n)
  {
    var storageFee := NominateAdds(p, p', current, pendingSlash, n, amount);
  }

  lemma ToppedKeeps(p: Pool, p': Pool, config: Config, current: nat, head: nat, n: AccountId)
    requires Inv(p, config, current, head) && DepositMade(p, p', current, n)
    ensures Books(p', current) <==> current !in p.prices
    ensures Inv(p', config, current, head) <==> current !in p.prices
  {
    var staking, storageFee :| DepositAdded(p, p', n, current, staking, storageFee, 0);
    DepositKeeps(p, p', config, current, head, n, staking, storageFee, 0);
  }

  /** A nomination keeps the share books, and with them the pool sound, exactly when it comes after the epoch in which
      the operator registered. */
  lemma NominateKeeps(p: Pool, p': Pool, config: Config, current: nat, head: nat, pendingSlash: bool, n: AccountId,
                      amount: nat)
    requires Inv(p, config, current, head)
    requires Nominate(p, current, pendingSlash, n, amount) == Ok(p')
    ensures Books(p', current) <==> current !in p.prices
    ensures Inv(p', config, current, head) <==> current !in p.prices
  {
    NominateTops(p, p', current, pendingSlash, n, amount);
    ToppedKeeps(p, p', config, current, head, n);
  }

  // ---- Withdrawals ----

  /** `shares` of the converted deposit `d` moved into the withdrawal in shares of `w`. */
  ghost predicate SharesMoved(p: Pool, p': Pool, config: Config, current: nat, head: nat, n: AccountId, d: Deposit,
                              w: Withdrawal, shares: nat)
  {
    && n in p.deposits
    && ConvertDeposit(p.prices, p.deposits[n], current) == Ok(d)
    && ConvertWithdrawal(p.prices, WithdrawalOf(p.withdrawals, n), current) == Ok(w)
    && (n in p.withdrawals ==> |w.queue| < config.withdrawalLimit)
    && 0 < shares <= d.shares
    && (n == p.owner ==> shares < d.shares)
    && WithdrawShares(p, config, current, head, n, d, w, shares) == Ok(p')
  }

  lemma WithdrawMoves(p: Pool, p': Pool, config: Config, current: nat, head: nat, pendingSlash: bool,
                      rewards: Option<nat>, n: AccountId, toWithdraw: nat)
    returns (d: Deposit, w: Withdrawal, shares: nat)
    requires Withdraw(p, config, current, head, pendingSlash, rewards, n, toWithdraw) == Ok(p')
    ensures SharesMoved(p, p', config, current, head, n, d, w, shares)
    ensures toWithdraw <= shares
  {
    d := ConvertDeposit(p.prices, p.deposits[n], current).value;
    w := ConvertWithdrawal(p.prices, WithdrawalOf(p.withdrawals, n), current).value;
    shares := SharesToWithdraw(p, config, rewards, n, d, toWithdraw).value;
  }

  lemma AllSharesAllStorage(d: Deposit, shares: nat)
    requires 0 < shares <= d.shares
    ensures MulFloor(FromRational(shares, d.shares), d.storageFee) <= d.storageFee
    ensures shares == d.shares ==> MulFloor(FromRational(shares, d.shares), d.storageFee) == d.storageFee
  {
    MulFloorAtMost(FromRational(shares, d.shares), d.storageFee);
    if shares == d.shares {
      DivAtLeast(shares * ONE, shares, ONE);
      MulFloorOne(d.storageFee);
    }
  }

  lemma WithdrawKeepsBooks(p: Pool, p': Pool, config: Config, current: nat, head: nat, n: AccountId, d: Deposit,
                           w: Withdrawal, shares: nat)
    requires Books(p, current)
    requires SharesMoved(p, p', config, current, head, n, d, w, shares)
    ensures Books(p', current)
    ensures Total(p'.deposits, ClaimIn(p.prices)) + p'.withdrawalsInEpoch
            == Total(p.deposits, ClaimIn(p.prices)) + p.withdrawalsInEpoch
  {
    ConvertDepositInvisible(p.prices, p.deposits[n], current);
    ConvertWithdrawalInvisible(p.prices, WithdrawalOf(p.withdrawals, n), current);
    DepositSums(p.deposits, p'.deposits[n], p.prices, n);
    WithdrawalSums(p.withdrawals, p'.withdrawals[n], p.prices, current, n);
  }

  lemma WithdrawKeepsHoldings(p: Pool, p': Pool, config: Config, current: nat, head: nat, n: AccountId, d: Deposit,
                              w: Withdrawal, shares: nat)
    requires Holdings(p, config, current, head) && config.withdrawalLimit > 0
    requires SharesMoved(p, p', config, current, head, n, d, w, shares)
    ensures Holdings(p', config, current, head)
  {
    AllSharesAllStorage(d, shares);
    assert DepositOk(p'.deposits[n], p.prices, current) by {
      assert DepositOk(p.deposits[n], p.prices, current);
    }
    assert WithdrawalOk(p'.withdrawals[n], p.prices, config, current, head) by {
      if n in p.withdrawals {
        ConvertedQueueOk(p.prices, p.withdrawals[n], current, config, head);
      }
    }
  }

  lemma WithdrawKeepsOwner(p: Pool, p': Pool, config: Config, current: nat, head: nat, n: AccountId, d: Deposit,
                           w: Withdrawal, shares: nat)
    requires OwnerStakes(p) && EarlyOk(p, current)
    requires SharesMoved(p, p', config, current, head, n, d, w, shares)
    requires Total(p'.deposits, ClaimIn(p.prices)) + p'.withdrawalsInEpoch
             == Total(p.deposits, ClaimIn(p.prices)) + p.withdrawalsInEpoch
    ensures OwnerStakes(p') && EarlyOk(p', current)
  {}

  lemma WithdrawKeeps(p: Pool, p': Pool, config: Config, current: nat, head: nat, pendingSlash: bool,
                      rewards: Option<nat>, n: AccountId, toWithdraw: nat)
    requires Inv(p, config, current, head) && config.withdrawalLimit > 0
    requires Withdraw(p, config, current, head, pendingSlash, rewards, n, toWithdraw) == Ok(p')
    ensures Inv(p', config, current, head)
  {
    var d, w, shares := WithdrawMoves(p, p', config, current, head, pendingSlash, rewards, n, toWithdraw);
    WithdrawKeepsBooks(p, p', config, current, head, n, d, w, shares);
    WithdrawKeepsHoldings(p, p', config, current, head, n, d, w, shares);
    WithdrawKeepsOwner(p, p', config, current, head, n, d, w, shares);
  }

  // ---- Unlocking matured withdrawals ----

  /** On a sorted queue the popped entries are exactly the matured ones. */
  lemma {:induction false} MaturedExactly(queue: seq<InBalance>, head: nat)
    requires Sorted(queue)
    ensures forall i :: 0 <= i < |queue| ==> (i < MaturedCount(queue, head) <==> queue[i].unlockAt <= head)
  {
    if queue != [] && queue[0].unlockAt <= head {
      MaturedExactly(queue[1..], head);
      forall i | 0 <= i < |queue|
        ensures i < MaturedCount(queue, head) <==> queue[i].unlockAt <= head
      {
        if i > 0 {
          assert queue[i] == queue[1..][i - 1];
        }
      }
    }
  }

  lemma QueueSplit(queue: seq<InBalance>, k: nat)
    requires k <= |queue|
    ensures QueueAmount(queue) == QueueAmount(queue[..k]) + QueueAmount(queue[k..])
    ensures QueueStorageFee(queue) == QueueStorageFee(queue[..k]) + QueueStorageFee(queue[k..])
  {
    assert queue == queue[..k] + queue[k..];
    QueueSumsAppend(queue[..k], queue[k..]);
  }

  /** The first `k` entries of the converted withdrawal `w` were paid out, leaving `w'`. */
  ghost predicate QueuePopped(p: Pool, p': Pool, current: nat, n: AccountId, w: Withdrawal, w': Withdrawal, k: nat) {
    && n in p.withdrawals
    && ConvertWithdrawal(p.prices, p.withdrawals[n], current) == Ok(w)
    && k <= |w.queue|
    && var amount := QueueAmount(w.queue[..k]);
    var storageFee := QueueStorageFee(w.queue[..k]);
    && amount <= w.total && storageFee <= w.totalStorageFee
    && w' == w.(total := w.total - amount, totalStorageFee := w.totalStorageFee - storageFee, queue := w.queue[k..])
    && p' == StoreUnlocked(p.(released := p.released + amount, storageOut := p.storageOut + storageFee), n, w')
  }

  lemma UnlockPops(p: Pool, p': Pool, current: nat, head: nat, pendingSlash: bool, n: AccountId)
    returns (w: Withdrawal, w': Withdrawal, k: nat)
    requires UnlockFunds(p, current, head, pendingSlash, n) == Ok(p')
    ensures QueuePopped(p, p', current, n, w, w', k)
    ensures k == MaturedCount(w.queue, head)
  {
    w := ConvertWithdrawal(p.prices, p.withdrawals[n], current).value;
    k := MaturedCount(w.queue, head);
    var amount := QueueAmount(w.queue[..k]);
    var storageFee := QueueStorageFee(w.queue[..k]);
    w' := w.(total := w.total - amount, totalStorageFee := w.totalStorageFee - storageFee, queue := w.queue[k..]);
  }

  lemma DepositRemoved(ds: Deposits, prices: map<nat, nat>, n: AccountId)
    ensures Total(ds - {n}, UnpricedIn(prices)) + Unpriced(DepositOf(ds, n), prices) == Total(ds, UnpricedIn(prices))
    ensures Total(ds - {n}, ClaimIn(prices)) + Claim(DepositOf(ds, n), prices) == Total(ds, ClaimIn(prices))
    ensures Total(ds - {n}, StorageIn()) + StorageDeposit(DepositOf(ds, n)) == Total(ds, StorageIn())
  {
    TotalRemove(ds, UnpricedIn(prices), n);
    TotalRemove(ds, ClaimIn(prices), n);
    TotalRemove(ds, StorageIn(), n);
  }

  lemma WithdrawalRemoved(ws: Withdrawals, prices: map<nat, nat>, current: nat, n: AccountId)
    ensures Total(ws - {n}, OpenAt(current)) + Open(WithdrawalOf(ws, n), current) == Total(ws, OpenAt(current))
    ensures Total(ws - {n}, PromisedIn(prices, current)) + Promised(WithdrawalOf(ws, n), prices, current)
            == Total(ws, PromisedIn(prices, current))
  {
    TotalRemove(ws, OpenAt(current), n);
    TotalRemove(ws, PromisedIn(prices, current), n);
  }

  lemma UnlockKeepsBooks(p: Pool, p': Pool, config: Config, current: nat, head: nat, n: AccountId, w: Withdrawal,
                         w': Withdrawal, k: nat)
    requires Books(p, current)
    requires QueuePopped(p, p', current, n, w, w', k)
    requires DepositOk(DepositOf(p.deposits, n), p.prices, current) && QueueOk(w, config, head)
    ensures Books(p', current)
    ensures Total(p'.deposits, ClaimIn(p.prices)) == Total(p.deposits, ClaimIn(p.prices))
  {
    var amount := QueueAmount(w.queue[..k]);
    ConvertWithdrawalInvisible(p.prices, p.withdrawals[n], current);
    if w'.queue == [] && w'.inShares.None? {
      assert w.total == amount by { QueueSplit(w.queue, k); }
      EmptiedKeepsBooks(p, p', current, n, amount);
    } else {
      PaidKeepsBooks(p, p', current, n, w', amount);
    }
  }

  lemma PaidKeepsBooks(p: Pool, p': Pool, current: nat, n: AccountId, w': Withdrawal, amount: nat)
    requires Books(p, current)
    requires Promised(w', p.prices, current) + amount == Promised(WithdrawalOf(p.withdrawals, n), p.prices, current)
    requires Open(w', current) == Open(WithdrawalOf(p.withdrawals, n), current)
    requires p' == p.(released := p.released + amount, storageOut := p'.storageOut,
                      withdrawals := p.withdrawals[n := w'])
    ensures Books(p', current)
  {
    WithdrawalSums(p.withdrawals, w', p.prices, current, n);
  }

  lemma EmptiedKeepsBooks(p: Pool, p': Pool, current: nat, n: AccountId, amount: nat)
    requires Books(p, current)
    requires Promised(WithdrawalOf(p.withdrawals, n), p.prices, current) == amount
    requires Open(WithdrawalOf(p.withdrawals, n), current) == 0
    requires DepositOk(DepositOf(p.deposits, n), p.prices, current)
    requires p' == StoreUnlocked(p.(released := p.released + amount, storageOut := p'.storageOut), n, NO_WITHDRAWAL)
    ensures Books(p', current)
    ensures Total(p'.deposits, ClaimIn(p.prices)) == Total(p.deposits, ClaimIn(p.prices))
  {
    WithdrawalRemoved(p.withdrawals, p.prices, current, n);
    DepositRemoved(p.deposits, p.prices, n);
  }

  lemma PoppedQueueOk(w: Withdrawal, w': Withdrawal, config: Config, head: nat, k: nat)
    requires QueueOk(w, config, head) && k <= |w.queue|
    requires w'.queue == w.queue[k..] && w'.inShares == w.inShares
    requires w'.total == w.total - QueueAmount(w.queue[..k])
    requires w'.totalStorageFee == w.totalStorageFee - QueueStorageFee(w.queue[..k])
    requires w'.queue != [] || w'.inShares.Some?
    ensures QueueOk(w', config, head)
  {
    QueueSplit(w.queue, k);
  }

  lemma UnlockKeepsHoldings(p: Pool, p': Pool, config: Config, current: nat, head: nat, n: AccountId, w: Withdrawal,
                            w': Withdrawal, k: nat)
    requires Holdings(p, config, current, head)
    requires QueuePopped(p, p', current, n, w, w', k)
    ensures Holdings(p', config, current, head)
  {
    ConvertedQueueOk(p.prices, p.withdrawals[n], current, config, head);
    if w'.queue != [] || w'.inShares.Some? {
      PoppedQueueOk(w, w', config, head, k);
      assert WithdrawalOk(w', p.prices, config, current, head) by {
        assert WithdrawalOk(p.withdrawals[n], p.prices, config, current, head);
      }
    }
  }

  lemma UnlockKeepsOwner(p: Pool, p': Pool, current: nat, n: AccountId, w: Withdrawal, w': Withdrawal, k: nat)
    requires OwnerStakes(p) && EarlyOk(p, current)
    requires QueuePopped(p, p', current, n, w, w', k)
    requires Total(p'.deposits, ClaimIn(p.prices)) == Total(p.deposits, ClaimIn(p.prices))
    ensures OwnerStakes(p') && EarlyOk(p', current)
  {}

  lemma UnlockFundsKeeps(p: Pool, p': Pool, config: Config, current: nat, head: nat, pendingSlash: bool, n: AccountId)
    requires Inv(p, config, current, head)
    requires UnlockFunds(p, current, head, pendingSlash, n) == Ok(p')
    ensures Inv(p', config, current, head)
  {
    var w, w', k := UnlockPops(p, p', current, head, pendingSlash, n);
    ConvertedQueueOk(p.prices, p.withdrawals[n], current, config, head);
    UnlockKeepsBooks(p, p', config, current, head, n, w, w', k);
    UnlockKeepsHoldings(p, p', config, current, head, n, w, w', k);
    UnlockKeepsOwner(p, p', current, n, w, w', k);
  }

  // ---- Unlocking a nominator of a deregistered operator ----

  /** The converted holdings `d` and `w` of `n` left the pool at the price `price`. */
  ghost predicate NominatorLeft(p: Pool, p': Pool, current: nat, n: AccountId, price: nat, d: Deposit, w: Withdrawal) {
    && n in p.deposits
    && SharePrice.IsPriceOf(price, p.totalShares, p.totalStake)
    && ConvertDeposit(p.prices, p.deposits[n], current) == Ok(d)
    && ConvertWithdrawal(p.prices, WithdrawalOf(p.withdrawals, n), current) == Ok(w)
    && var shares := d.shares + InSharesOf(w);
    var staked := SharePrice.SharesToStake(price, shares);
    && shares <= p.totalShares && staked <= p.totalStake
    && p'.totalShares == p.totalShares - shares
    && p'.totalStake == p.totalStake - staked
    && p'.credited == p.credited + PendingAmount(d)
    && p'.released == p.released + staked + w.total + PendingAmount(d)
    && p'.fund <= p.fund && p'.storageOut == p.storageOut + (p.fund - p'.fund) + w.totalStorageFee
    && p'.totalStorageFee == (if StorageDeposit(d) <= p.totalStorageFee
                              then p.totalStorageFee - StorageDeposit(d) else 0)
    && p' == p.(totalShares := p'.totalShares, totalStake := p'.totalStake, credited := p'.credited,
                released := p'.released, totalStorageFee := p'.totalStorageFee, fund := p'.fund,
                storageOut := p'.storageOut, deposits := p.deposits - {n}, withdrawals := p.withdrawals - {n},
                ownerLeft := p.ownerLeft || n == p.owner)
  }

  lemma UnlockLeaves(p: Pool, p': Pool, current: nat, head: nat, pendingSlash: bool, n: AccountId)
    returns (price: nat, d: Deposit, w: Withdrawal)
    requires UnlockNominator(p, current, head, pendingSlash, n) == Ok(p')
    ensures NominatorLeft(p, p', current, n, price, d, w)
  {
    price := SharePrice.New(p.totalShares, p.totalStake).value;
    d := ConvertDeposit(p.prices, p.deposits[n], current).value;
    w := ConvertWithdrawal(p.prices, WithdrawalOf(p.withdrawals, n), current).value;
  }

  /** Nothing of the nominator waits for the end of the running epoch. */
  ghost predicate NothingOpen(p: Pool, n: AccountId, current: nat) {
    Unpriced(DepositOf(p.deposits, n), p.prices) == 0 && Open(WithdrawalOf(p.withdrawals, n), current) == 0
  }

  lemma IdleNothingOpen(p: Pool, n: AccountId, current: nat)
    requires Books(p, current) && Idle(p)
    ensures NothingOpen(p, n, current)
  {
    TotalAtLeast(p.deposits, UnpricedIn(p.prices), n);
    TotalAtLeast(p.withdrawals, OpenAt(current), n);
  }

  /** The converted shares of a nominator are what it claims, with its open withdrawal, and the pool covers them. */
  lemma LeavingShares(p: Pool, config: Config, current: nat, head: nat, n: AccountId, d: Deposit, w: Withdrawal)
    requires Inv(p, config, current, head) && n in p.deposits
    requires ConvertDeposit(p.prices, p.deposits[n], current) == Ok(d)
    requires ConvertWithdrawal(p.prices, WithdrawalOf(p.withdrawals, n), current) == Ok(w)
    ensures d.shares == Claim(p.deposits[n], p.prices) && InSharesOf(w) == Open(WithdrawalOf(p.withdrawals, n), current)
    ensures d.shares + InSharesOf(w) <= p.totalShares
    ensures w.total == Promised(WithdrawalOf(p.withdrawals, n), p.prices, current)
    ensures StorageDeposit(d) == StorageDeposit(p.deposits[n]) <= p.totalStorageFee
  {
    ConvertDepositInvisible(p.prices, p.deposits[n], current);
    ConvertWithdrawalInvisible(p.prices, WithdrawalOf(p.withdrawals, n), current);
    TotalAtLeast(p.deposits, ClaimIn(p.prices), n);
    TotalAtLeast(p.deposits, StorageIn(), n);
    TotalAtLeast(p.withdrawals, OpenAt(current), n);
  }

  lemma LeavingKeepsBooks(p: Pool, p': Pool, current: nat, n: AccountId, price: nat, d: Deposit, w: Withdrawal)
    requires Books(p, current) && NominatorLeft(p, p', current, n, price, d, w) && NothingOpen(p, n, current)
    requires InSharesOf(w) == 0 && d.shares == Claim(p.deposits[n], p.prices)
    requires w.total == Promised(WithdrawalOf(p.withdrawals, n), p.prices, current)
    requires StorageDeposit(d) == StorageDeposit(p.deposits[n])
    ensures Books(p', current)
  {
    DepositRemoved(p.deposits, p.prices, n);
    WithdrawalRemoved(p.withdrawals, p.prices, current, n);
    SharePrice.SellKeepsRatio(price, p.totalShares, p.totalStake, d.shares);
  }

  /** What a leaver has pending in the running epoch stays in the totals of the epoch. */
  lemma LeavingBreaksBooks(p: Pool, p': Pool, current: nat, n: AccountId, price: nat, d: Deposit, w: Withdrawal)
    requires Books(p, current) && NominatorLeft(p, p', current, n, price, d, w) && !NothingOpen(p, n, current)
    ensures !Books(p', current)
  {
    DepositRemoved(p.deposits, p.prices, n);
    WithdrawalRemoved(p.withdrawals, p.prices, current, n);
  }

  lemma LeavingKeepsRest(p: Pool, p': Pool, config: Config, current: nat, head: nat, n: AccountId, price: nat,
                         d: Deposit, w: Withdrawal)
    requires Holdings(p, config, current, head) && OwnerStakes(p) && EarlyOk(p, current)
    requires NominatorLeft(p, p', current, n, price, d, w)
    ensures Holdings(p', config, current, head) && OwnerStakes(p')
    ensures EarlyOk(p', current) <==> current !in p.prices
  {}

  lemma OthersAfterRegistration(p: Pool, p': Pool, current: nat, n: AccountId)
    requires EarlyOk(p, current) && n in p.deposits && p'.deposits == p.deposits - {n} && p'.deposits != map[]
    ensures current !in p.prices
  {
    assert p'.deposits.Keys != {};
    var m :| m in p'.deposits;
  }

  /** A nominator leaving keeps the books exactly when nothing of it waits for the end of the running epoch. In its
      registration epoch a pool holds its owner alone, so nobody stays behind who could rely on it. */
  lemma UnlockNominatorKeeps(p: Pool, p': Pool, config: Config, current: nat, head: nat, pendingSlash: bool,
                             n: AccountId)
    requires Inv(p, config, current, head)
    requires UnlockNominator(p, current, head, pendingSlash, n) == Ok(p')
    ensures Books(p', current) <==> NothingOpen(p, n, current)
    ensures p'.deposits != map[] ==> current !in p.prices
    ensures Inv(p', config, current, head) <==> current !in p.prices && NothingOpen(p, n, current)
  {
    var price, d, w := UnlockLeaves(p, p', current, head, pendingSlash, n);
    LeavingShares(p, config, current, head, n, d, w);
    LeavingKeepsRest(p, p', config, current, head, n, price, d, w);
    if p'.deposits != map[] {
      OthersAfterRegistration(p, p', current, n);
    }
    if NothingOpen(p, n, current) {
      LeavingKeepsBooks(p, p', current, n, price, d, w);
    } else {
      LeavingBreaksBooks(p, p', current, n, price, d, w);
    }
  }

  /** The nominators that stay keep at least their stake per share. */
  lemma UnlockNominatorKeepsRatio(p: Pool, p': Pool, current: nat, head: nat, pendingSlash: bool, n: AccountId)
    requires UnlockNominator(p, current, head, pendingSlash, n) == Ok(p')
    ensures p'.totalStake * p.totalShares >= p.totalStake * p'.totalShares
  {
    var price, d, w := UnlockLeaves(p, p', current, head, pendingSlash, n);
    SharePrice.SellKeepsRatio(price, p.totalShares, p.totalStake, d.shares + InSharesOf(w));
  }

  /** Once a share price can be built, none of the checked subtractions of an unlock can fail. */
  lemma UnlockNominatorSucceeds(p: Pool, config: Config, current: nat, head: nat, pendingSlash: bool, n: AccountId)
    requires Inv(p, config, current, head)
    requires StatusOf(p.status, pendingSlash).Deregistered? && p.status.unlockAt <= head
    ensures UnlockNominator(p, current, head, pendingSlash, n).Ok? <==> p.totalShares > 0 && n in p.deposits
  {
    if p.totalShares > 0 && n in p.deposits {
      LeavingCovered(p, config, current, head, n);
    }
  }

  /** The pool covers the shares, the stake and the storage deposit of a leaver. */
  lemma LeavingCovered(p: Pool, config: Config, current: nat, head: nat, n: AccountId)
    requires Inv(p, config, current, head) && p.totalShares > 0 && n in p.deposits
    ensures ConvertDeposit(p.prices, p.deposits[n], current).Ok?
    ensures ConvertWithdrawal(p.prices, WithdrawalOf(p.withdrawals, n), current).Ok?
    ensures var price := SharePrice.New(p.totalShares, p.totalStake).value;
            var d := ConvertDeposit(p.prices, p.deposits[n], current).value;
            var w := ConvertWithdrawal(p.prices, WithdrawalOf(p.withdrawals, n), current).value;
            && d.shares + InSharesOf(w) <= p.totalShares
            && SharePrice.SharesToStake(price, d.shares + InSharesOf(w)) <= p.totalStake
            && StorageFund.Redeem(p.fund, p.totalStorageFee, PendingStorageFee(d) + d.storageFee) <= p.fund
  {
    ConversionsSucceed(p, config, current, head, n);
    var price := SharePrice.New(p.totalShares, p.totalStake).value;
    var d := ConvertDeposit(p.prices, p.deposits[n], current).value;
    var w := ConvertWithdrawal(p.prices, WithdrawalOf(p.withdrawals, n), current).value;
    LeavingShares(p, config, current, head, n, d, w);
    SharePrice.SellKeepsRatio(price, p.totalShares, p.totalStake, d.shares + InSharesOf(w));
    StorageFund.RedeemWithin(p.fund, p.totalStorageFee, StorageDeposit(d));
  }

  /** A withdrawal is never refused for want of a price, storage deposits or storage balance. */
  lemma WithdrawFailsOnlyOnRequest(p: Pool, config: Config, current: nat, head: nat, pendingSlash: bool,
                                   rewards: Option<nat>, n: AccountId, toWithdraw: nat)
    requires Inv(p, config, current, head) && !p.ownerLeft
    ensures var r := Withdraw(p, config, current, head, pendingSlash, rewards, n, toWithdraw);
            r.Err? ==> r.error in {ZeroWithdraw, OperatorNotRegisteredOrDeactivated, UnknownNominator,
                                   TooManyWithdrawals, InsufficientShares, MinimumOperatorStake, MinimumNominatorStake}
  {
    ConversionsSucceed(p, config, current, head, n);
    PriceExists(p, config, current, head);
    if toWithdraw > 0 && RegisteredOrDeactivated(StatusOf(p.status, pendingSlash)) && n in p.deposits {
      var d := ConvertDeposit(p.prices, p.deposits[n], current).value;
      var w := ConvertWithdrawal(p.prices, WithdrawalOf(p.withdrawals, n), current).value;
      var shares := SharesToWithdraw(p, config, rewards, n, d, toWithdraw);
      if shares.Ok? {
        StorageCovers(p, current, n, d, shares.value);
      }
    }
  }

  lemma StorageCovers(p: Pool, current: nat, n: AccountId, d: Deposit, shares: nat)
    requires Books(p, current) && n in p.deposits
    requires ConvertDeposit(p.prices, p.deposits[n], current) == Ok(d) && 0 < shares <= d.shares
    ensures var storageFee := MulFloor(FromRational(shares, d.shares), d.storageFee);
            && storageFee <= d.storageFee && storageFee <= p.totalStorageFee
            && StorageFund.Redeem(p.fund, p.totalStorageFee, storageFee) <= p.fund
  {
    ConvertDepositInvisible(p.prices, p.deposits[n], current);
    TotalAtLeast(p.deposits, StorageIn(), n);
    AllSharesAllStorage(d, shares);
    StorageFund.RedeemIsFair(p.fund, p.totalStorageFee, MulFloor(FromRational(shares, d.shares), d.storageFee));
  }
}
