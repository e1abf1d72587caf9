/** The rules that a pool enforces on its owner and its nominators. */
module PoolRules {
  import opened StakingTypes
  import opened OperatorPool
  import opened PoolInvariant
  import opened PoolBoundary
  import opened PoolSteps
  import opened MapSums
  import opened Perquintill
  import SharePrice
  import StorageFund

  /** What is left of a deposit is worth, with the storage deposit that goes with it. */
  function Worth(price: nat, d: Deposit, left: nat): nat {
    SharePrice.SharesToStake(price, left) + MulFloor(FromRational(left, d.shares), d.storageFee)
  }

  /** A nominator joins with at least the minimum, counting the part reserved for storage. */
  lemma NominateMeetsMinimum(p: Pool, p': Pool, current: nat, pendingSlash: bool, n: AccountId, amount: nat)
    requires Nominate(p, current, pendingSlash, n, amount) == Ok(p')
    ensures StatusOf(p.status, pendingSlash) == Registered && amount > 0
    ensures n in p'.deposits && p'.deposits[n].pending.Some? && p'.deposits[n].pending.value.epoch == current
    ensures p'.deposits[n].shares > 0
            || p'.deposits[n].pending.value.amount + p'.deposits[n].pending.value.storageFee >= p.minNominatorStake
    ensures StorageDeposit(p'.deposits[n]) - StorageDeposit(DepositOf(p.deposits, n)) == p'.fund - p.fund
  {
    var storageFee := NominateAdds(p, p', current, pendingSlash, n, amount);
    DepositReserves(p, p', n, current, amount - storageFee, storageFee);
  }

  lemma DepositReserves(p: Pool, p': Pool, n: AccountId, current: nat, staking: nat, storageFee: nat)
    requires DepositAdded(p, p', n, current, staking, storageFee, 0)
    ensures StorageDeposit(p'.deposits[n]) == StorageDeposit(DepositOf(p.deposits, n)) + storageFee
    ensures p'.fund == p.fund + storageFee
  {
    var d := DepositOf(p.deposits, n);
    ToppedReserves(p.prices, d, ConvertDeposit(p.prices, d, current).value, current, staking, storageFee);
  }

  /** A withdrawal takes what was asked for or everything, and what it leaves is worth at least the minimum at the
      price of the moment: the owner can never leave this way. */
  lemma WithdrawLeavesEnough(p: Pool, p': Pool, config: Config, current: nat, head: nat, pendingSlash: bool,
                             rewards: Option<nat>, n: AccountId, toWithdraw: nat)
    requires Withdraw(p, config, current, head, pendingSlash, rewards, n, toWithdraw) == Ok(p')
    ensures n in p.deposits && n in p'.deposits && ConvertDeposit(p.prices, p.deposits[n], current).Ok?
    ensures var d := ConvertDeposit(p.prices, p.deposits[n], current).value;
            var left := p'.deposits[n].shares;
            && 0 < toWithdraw <= d.shares && left <= d.shares - toWithdraw
            && (left == d.shares - toWithdraw || left == 0)
            && (n == p.owner ==> left == d.shares - toWithdraw > 0)
            && (left > 0 ==>
                 && CurrentSharePrice(p, rewards).Ok?
                 && Worth(CurrentSharePrice(p, rewards).value, d, left)
                    >= if n == p.owner then config.minOperatorStake else p.minNominatorStake)
  {}

  // What a withdrawal of `toWithdraw` shares out of the converted deposit `d` would leave.

  /** It is enough to stay: at the price of the moment, which counts the net rewards of the running epoch. */
  ghost predicate Enough(p: Pool, rewards: Option<nat>, d: Deposit, left: nat, minimum: nat) {
    var price := CurrentSharePrice(p, rewards);
    price.Ok? && Worth(price.value, d, left) >= minimum
  }

  /** The shares that a request takes: those asked for, or all when a nominator would keep too little. */
  ghost function Taken(p: Pool, rewards: Option<nat>, n: AccountId, d: Deposit, toWithdraw: nat): nat {
    if toWithdraw < d.shares && n != p.owner && !Enough(p, rewards, d, d.shares - toWithdraw, p.minNominatorStake)
    then d.shares else toWithdraw
  }

  /** A request may be granted: the shares are there, an owner keeps enough, and so does whoever leaves nothing but a
      pending deposit. */
  ghost predicate Grantable(p: Pool, config: Config, rewards: Option<nat>, n: AccountId, d: Deposit, toWithdraw: nat) {
    && 0 < toWithdraw <= d.shares
    && (n == p.owner ==> toWithdraw < d.shares && Enough(p, rewards, d, d.shares - toWithdraw, config.minOperatorStake))
    && (Taken(p, rewards, n, d, toWithdraw) == d.shares && d.pending.Some? ==>
          d.pending.value.amount + d.pending.value.storageFee >= p.minNominatorStake)
  }

  lemma SharesDecided(p: Pool, config: Config, rewards: Option<nat>, n: AccountId, d: Deposit, toWithdraw: nat)
    requires 0 < toWithdraw <= d.shares && CurrentSharePrice(p, rewards).Ok?
    ensures var r := SharesToWithdraw(p, config, rewards, n, d, toWithdraw);
            if n == p.owner && !(toWithdraw < d.shares
                                 && Enough(p, rewards, d, d.shares - toWithdraw, config.minOperatorStake))
            then r == Err(MinimumOperatorStake) else r == Ok(Taken(p, rewards, n, d, toWithdraw))
  {}

  lemma SharesGo(p: Pool, config: Config, current: nat, head: nat, n: AccountId, d: Deposit, w: Withdrawal, shares: nat)
    requires Books(p, current) && n in p.deposits && 0 < shares <= d.shares
    requires ConvertDeposit(p.prices, p.deposits[n], current) == Ok(d)
    ensures var r := WithdrawShares(p, config, current, head, n, d, w, shares);
            && (r.Ok? <==> (shares == d.shares && d.pending.Some? ==>
                             d.pending.value.amount + d.pending.value.storageFee >= p.minNominatorStake))
            && (r.Ok? ==> n in r.value.deposits && r.value.deposits[n].shares == d.shares - shares)
  {
    StorageCovers(p, current, n, d, shares);
  }

  /** The holdings of a nominator, converted. */
  ghost predicate Converted(p: Pool, current: nat, n: AccountId, d: Deposit, w: Withdrawal) {
    && ConvertDeposit(p.prices, DepositOf(p.deposits, n), current) == Ok(d)
    && ConvertWithdrawal(p.prices, WithdrawalOf(p.withdrawals, n), current) == Ok(w)
  }

  /** What is checked before the request itself is looked at. */
  predicate MayWithdraw(p: Pool, config: Config, pendingSlash: bool, n: AccountId, w: Withdrawal) {
    && RegisteredOrDeactivated(StatusOf(p.status, pendingSlash)) && n in p.deposits
    && (n in p.withdrawals ==> |w.queue| < config.withdrawalLimit)
  }

  lemma WithdrawIs(p: Pool, config: Config, current: nat, head: nat, pendingSlash: bool, rewards: Option<nat>,
                   n: AccountId, toWithdraw: nat, d: Deposit, w: Withdrawal)
    requires Converted(p, current, n, d, w)
    ensures var r := Withdraw(p, config, current, head, pendingSlash, rewards, n, toWithdraw);
            var shares := SharesToWithdraw(p, config, rewards, n, d, toWithdraw);
            if toWithdraw > 0 && MayWithdraw(p, config, pendingSlash, n, w) && shares.Ok?
            then shares.value <= d.shares && r == WithdrawShares(p, config, current, head, n, d, w, shares.value)
            else r.Err?
  {}

  /** A withdrawal is granted exactly to a nominator of a registered or deactivated operator whose queue is not full and
      whose request may be granted; it takes the shares asked for unless a nominator would keep less than the minimum.
      */
  lemma WithdrawGranted(p: Pool, config: Config, current: nat, head: nat, pendingSlash: bool, rewards: Option<nat>,
                        n: AccountId, toWithdraw: nat) returns (d: Deposit, w: Withdrawal)
    requires Inv(p, config, current, head)
    ensures Converted(p, current, n, d, w)
    ensures var r := Withdraw(p, config, current, head, pendingSlash, rewards, n, toWithdraw);
            && (r.Ok? <==> MayWithdraw(p, config, pendingSlash, n, w)
                           && Grantable(p, config, rewards, n, d, toWithdraw))
            && (r.Ok? ==> n in r.value.deposits
                          && r.value.deposits[n].shares == d.shares - Taken(p, rewards, n, d, toWithdraw))
  {
    ConversionsSucceed(p, config, current, head, n);
    d := ConvertDeposit(p.prices, DepositOf(p.deposits, n), current).value;
    w := ConvertWithdrawal(p.prices, WithdrawalOf(p.withdrawals, n), current).value;
    WithdrawIs(p, config, current, head, pendingSlash, rewards, n, toWithdraw, d, w);
    if 0 < toWithdraw <= d.shares && n in p.deposits {
      RequestDecided(p, config, current, head, rewards, n, toWithdraw, d, w);
    }
  }

  lemma RequestDecided(p: Pool, config: Config, current: nat, head: nat, rewards: Option<nat>, n: AccountId,
                       toWithdraw: nat, d: Deposit, w: Withdrawal)
    requires Books(p, current) && n in p.deposits && 0 < toWithdraw <= d.shares
    requires ConvertDeposit(p.prices, p.deposits[n], current) == Ok(d)
    ensures var shares := SharesToWithdraw(p, config, rewards, n, d, toWithdraw);
            if shares.Ok? then
              && shares.value == Taken(p, rewards, n, d, toWithdraw) <= d.shares
              && var r := WithdrawShares(p, config, current, head, n, d, w, shares.value);
              && (r.Ok? <==> Grantable(p, config, rewards, n, d, toWithdraw))
              && (r.Ok? ==> n in r.value.deposits && r.value.deposits[n].shares == d.shares - shares.value)
            else !Grantable(p, config, rewards, n, d, toWithdraw)
  {
    PriceOfMoment(p, current, rewards, n, d);
    SharesDecided(p, config, rewards, n, d, toWithdraw);
    SharesGo(p, config, current, head, n, d, w, Taken(p, rewards, n, d, toWithdraw));
  }

  lemma PriceOfMoment(p: Pool, current: nat, rewards: Option<nat>, n: AccountId, d: Deposit)
    requires Books(p, current) && n in p.deposits && ConvertDeposit(p.prices, p.deposits[n], current) == Ok(d)
    requires d.shares > 0
    ensures CurrentSharePrice(p, rewards).Ok?
  {
    ConvertDepositInvisible(p.prices, p.deposits[n], current);
    TotalAtLeast(p.deposits, ClaimIn(p.prices), n);
  }

  /** Rewards may still come in before the epoch ends. */
  ghost predicate NoLess(rewards: Option<nat>, final: Option<nat>) {
    rewards.Some? ==> final.Some? && rewards.value <= final.value
  }

  lemma NetGrows(tax: Percent, r: nat, more: nat)
    ensures r - TaxOn(tax, r) <= r + more - TaxOn(tax, r + more)
  {
    Distribute(r, more, tax);
    assert tax * more <= 100 * more by { MulMono(tax, 100, more); }
    DivBounds(tax * r, 100);
    DivBounds(tax * (r + more), 100);
  }

  /** The price of the end of the epoch is no worse for a withdrawer than the price of the moment. */
  lemma FinalPriceNoWorse(p: Pool, q: Pool, q': Pool, current: nat, rewards: Option<nat>, final: Option<nat>,
                          shares: nat)
    requires q.totalStake == p.totalStake && q.totalShares == p.totalShares && q.tax == p.tax
    requires Boundary(q, current, final) == Ok(q') && q.withdrawalsInEpoch > 0
    requires NoLess(rewards, final) && CurrentSharePrice(p, rewards).Ok?
    ensures current in q'.prices
    ensures SharePrice.SharesToStake(CurrentSharePrice(p, rewards).value, shares)
            <= SharePrice.SharesToStake(q'.prices[current], shares)
  {
    BoundaryPrice(q, q', current, final);
    if rewards.Some? {
      NetGrows(p.tax, rewards.value, final.value - rewards.value);
    }
    var now := p.totalStake + if rewards.Some? then rewards.value - TaxOn(p.tax, rewards.value) else 0;
    var later := p.totalStake + if final.Some? then final.value - TaxOn(p.tax, final.value) else 0;
    SharePrice.MoreStakeSellsBetter(p.totalShares, now, later, shares);
  }

  lemma BoundaryPrice(q: Pool, q': Pool, current: nat, final: Option<nat>)
    requires Boundary(q, current, final) == Ok(q') && q.withdrawalsInEpoch > 0
    ensures current in q'.prices
    ensures var net := if final.Some? then final.value - TaxOn(q.tax, final.value) else 0;
            SharePrice.New(q.totalShares, q.totalStake + net) == Ok(q'.prices[current])
  {}

  /** What a withdrawal leaves is still worth the minimum when the epoch ends, whatever else happens in the epoch. */
  lemma EnoughAtEpochEnd(p: Pool, p': Pool, q: Pool, q': Pool, config: Config, current: nat, head: nat,
                         pendingSlash: bool, rewards: Option<nat>, final: Option<nat>, n: AccountId, toWithdraw: nat)
    requires Withdraw(p, config, current, head, pendingSlash, rewards, n, toWithdraw) == Ok(p')
    requires q.totalStake == p'.totalStake && q.totalShares == p'.totalShares && q.tax == p'.tax
    requires Boundary(q, current, final) == Ok(q') && q.withdrawalsInEpoch > 0 && NoLess(rewards, final)
    ensures n in p.deposits && n in p'.deposits && ConvertDeposit(p.prices, p.deposits[n], current).Ok?
    ensures current in q'.prices
    ensures var d := ConvertDeposit(p.prices, p.deposits[n], current).value;
            var left := p'.deposits[n].shares;
            left > 0 ==> Worth(q'.prices[current], d, left)
                         >= if n == p.owner then config.minOperatorStake else p.minNominatorStake
  {
    WithdrawLeavesEnough(p, p', config, current, head, pendingSlash, rewards, n, toWithdraw);
    WithdrawalWaits(p, p', config, current, head, pendingSlash, rewards, n, toWithdraw);
    BoundaryPrice(q, q', current, final);
    var left := p'.deposits[n].shares;
    if left > 0 {
      FinalPriceNoWorse(p, q, q', current, rewards, final, left);
    }
  }

  /** The shares wait for the price of the running epoch, and then out the locking period. */
  lemma WithdrawalWaits(p: Pool, p': Pool, config: Config, current: nat, head: nat, pendingSlash: bool,
                        rewards: Option<nat>, n: AccountId, toWithdraw: nat)
    requires Withdraw(p, config, current, head, pendingSlash, rewards, n, toWithdraw) == Ok(p')
    ensures n in p'.withdrawals && p'.withdrawals[n].inShares.Some?
    ensures var s := p'.withdrawals[n].inShares.value;
            && s.epoch == current && s.unlockAt == head + config.lockingPeriod
            && s.shares - (if n in p.withdrawals then Open(p.withdrawals[n], current) else 0)
               == p'.withdrawalsInEpoch - p.withdrawalsInEpoch
    ensures p'.released == p.released && p'.totalStake == p.totalStake && p'.totalShares == p.totalShares
  {
    var d, w, shares := WithdrawMoves(p, p', config, current, head, pendingSlash, rewards, n, toWithdraw);
  }

  /** Unlocking pays exactly the entries whose block has come, and keeps the others in order. */
  lemma UnlockPaysMatured(p: Pool, p': Pool, config: Config, current: nat, head: nat, pendingSlash: bool, n: AccountId)
    returns (w: Withdrawal, k: nat)
    requires Inv(p, config, current, head) && UnlockFunds(p, current, head, pendingSlash, n) == Ok(p')
    ensures n in p.withdrawals && ConvertWithdrawal(p.prices, p.withdrawals[n], current) == Ok(w) && k <= |w.queue|
    ensures forall i :: 0 <= i < |w.queue| ==> (i < k <==> w.queue[i].unlockAt <= head)
    ensures p'.released == p.released + QueueAmount(w.queue[..k])
    ensures p'.storageOut == p.storageOut + QueueStorageFee(w.queue[..k]) && p'.fund == p.fund
    ensures n in p'.withdrawals ==> p'.withdrawals[n].queue == w.queue[k..]
    ensures n !in p'.withdrawals ==> k == |w.queue| && w.inShares.None?
  {
    var w';
    w, w', k := UnlockPops(p, p', current, head, pendingSlash, n);
    ConvertedQueueOk(p.prices, p.withdrawals[n], current, config, head);
    MaturedExactly(w.queue, head);
  }

  /** Unlocking is refused only for the status, for want of a withdrawal or before its time; no total underflows. */
  lemma UnlockFailsOnlyOnRequest(p: Pool, config: Config, current: nat, head: nat, pendingSlash: bool, n: AccountId)
    requires Inv(p, config, current, head)
    ensures var r := UnlockFunds(p, current, head, pendingSlash, n);
            r.Err? ==> r.error in {OperatorNotRegisteredOrDeactivated, MissingWithdrawal, UnlockPeriodNotComplete}
  {
    ConversionsSucceed(p, config, current, head, n);
    if n in p.withdrawals {
      var w := ConvertWithdrawal(p.prices, p.withdrawals[n], current).value;
      ConvertedQueueOk(p.prices, p.withdrawals[n], current, config, head);
      QueueSplit(w.queue, MaturedCount(w.queue, head));
    }
  }

  ghost predicate Pays(e: InBalance) { e.amount > 0 || e.storageFee > 0 }

  lemma {:induction false} QueuePays(queue: seq<InBalance>)
    ensures QueueAmount(queue) > 0 || QueueStorageFee(queue) > 0 <==> exists i :: 0 <= i < |queue| && Pays(queue[i])
  {
    if queue != [] {
      QueuePays(queue[1..]);
      if Pays(queue[0]) {
        assert Pays(queue[0]);
      } else if i :| 0 <= i < |queue[1..]| && Pays(queue[1..][i]) {
        assert Pays(queue[i + 1]);
      } else {
        forall i | 0 <= i < |queue|
          ensures !Pays(queue[i])
        {
          assert i > 0 ==> queue[i] == queue[1..][i - 1];
        }
      }
    }
  }

  lemma UnlockIs(p: Pool, config: Config, current: nat, head: nat, pendingSlash: bool, n: AccountId, w: Withdrawal)
    requires n in p.withdrawals && ConvertWithdrawal(p.prices, p.withdrawals[n], current) == Ok(w)
    requires QueueOk(w, config, head)
    ensures var k := MaturedCount(w.queue, head);
            UnlockFunds(p, current, head, pendingSlash, n).Ok? <==>
              && RegisteredOrDeactivated(StatusOf(p.status, pendingSlash))
              && (QueueAmount(w.queue[..k]) > 0 || QueueStorageFee(w.queue[..k]) > 0)
  {
    QueueSplit(w.queue, MaturedCount(w.queue, head));
  }

  /** An entry that pays something is due. */
  ghost predicate SomeDue(queue: seq<InBalance>, head: nat) {
    exists i :: 0 <= i < |queue| && queue[i].unlockAt <= head && Pays(queue[i])
  }

  /** Unlocking succeeds exactly when an entry that pays something is due. */
  lemma UnlockGranted(p: Pool, config: Config, current: nat, head: nat, pendingSlash: bool, n: AccountId)
    returns (w: Withdrawal)
    requires Inv(p, config, current, head)
    ensures ConvertWithdrawal(p.prices, WithdrawalOf(p.withdrawals, n), current) == Ok(w)
    ensures UnlockFunds(p, current, head, pendingSlash, n).Ok? <==>
              && RegisteredOrDeactivated(StatusOf(p.status, pendingSlash)) && n in p.withdrawals
              && SomeDue(w.queue, head)
  {
    ConversionsSucceed(p, config, current, head, n);
    w := ConvertWithdrawal(p.prices, WithdrawalOf(p.withdrawals, n), current).value;
    if n in p.withdrawals {
      ConvertedQueueOk(p.prices, p.withdrawals[n], current, config, head);
      UnlockIs(p, config, current, head, pendingSlash, n, w);
      DueIsPaid(w.queue, head);
    }
  }

  lemma DueIsPaid(queue: seq<InBalance>, head: nat)
    requires Sorted(queue)
    ensures var due := queue[..MaturedCount(queue, head)];
            QueueAmount(due) > 0 || QueueStorageFee(due) > 0 <==> SomeDue(queue, head)
  {
    MaturedExactly(queue, head);
    QueuePays(queue[..MaturedCount(queue, head)]);
    DuePrefix(queue, head, MaturedCount(queue, head));
  }

  lemma DuePrefix(queue: seq<InBalance>, head: nat, k: nat)
    requires k <= |queue| && forall i :: 0 <= i < |queue| ==> (i < k <==> queue[i].unlockAt <= head)
    ensures (exists i :: 0 <= i < |queue[..k]| && Pays(queue[..k][i])) <==> SomeDue(queue, head)
  {
    if i :| 0 <= i < |queue[..k]| && Pays(queue[..k][i]) {
      assert Pays(queue[i]);
    }
    if i :| 0 <= i < |queue| && queue[i].unlockAt <= head && Pays(queue[i]) {
      assert Pays(queue[..k][i]);
    }
  }

  /** A nominator of a deregistered operator leaves after the unlock block, with at most its part of the pool. */
  lemma LeavingPaysPart(p: Pool, p': Pool, current: nat, head: nat, pendingSlash: bool, n: AccountId)
    requires UnlockNominator(p, current, head, pendingSlash, n) == Ok(p')
    ensures p.status.Deregistered? && !pendingSlash && p.status.unlockAt <= head
    ensures n !in p'.deposits && n !in p'.withdrawals
    ensures (p.totalStake - p'.totalStake) * p.totalShares <= (p.totalShares - p'.totalShares) * p.totalStake
  {
    var price, d, w := UnlockLeaves(p, p', current, head, pendingSlash, n);
    SharePrice.SharesToStakeBound(price, p.totalShares, p.totalStake, d.shares + InSharesOf(w));
  }

  // ---- The storage fund ----

  /** Every storage deposit still redeems at least what it did. */
  ghost predicate FundKept(p: Pool, p': Pool) { p'.fund * p.totalStorageFee >= p.fund * p'.totalStorageFee }

  lemma RedeemedKept(p: Pool, p': Pool, fee: nat)
    requires p'.totalStorageFee == if fee <= p.totalStorageFee then p.totalStorageFee - fee else 0
    requires p'.fund == p.fund - StorageFund.Redeem(p.fund, p.totalStorageFee, fee)
    ensures FundKept(p, p')
  {
    if fee <= p.totalStorageFee {
      StorageFund.RedeemIsFair(p.fund, p.totalStorageFee, fee);
    }
  }

  lemma WithdrawKeepsFund(p: Pool, p': Pool, config: Config, current: nat, head: nat, pendingSlash: bool,
                          rewards: Option<nat>, n: AccountId, toWithdraw: nat)
    requires Withdraw(p, config, current, head, pendingSlash, rewards, n, toWithdraw) == Ok(p')
    ensures FundKept(p, p')
  {
    var d, w, shares := WithdrawMoves(p, p', config, current, head, pendingSlash, rewards, n, toWithdraw);
    RedeemedKept(p, p', MulFloor(FromRational(shares, d.shares), d.storageFee));
  }

  lemma LeavingKeepsFund(p: Pool, p': Pool, current: nat, head: nat, pendingSlash: bool, n: AccountId)
    requires UnlockNominator(p, current, head, pendingSlash, n) == Ok(p')
    ensures FundKept(p, p')
  {
    var d := ConvertDeposit(p.prices, p.deposits[n], current).value;
    RedeemedKept(p, p', PendingStorageFee(d) + d.storageFee);
  }

  lemma SlashKeepsFund(p: Pool, p': Pool, current: nat, n: AccountId, staked: nat)
    requires TakeNominator(p, current, n, staked) == Ok(p')
    ensures FundKept(p, p')
  {
    var d := ConvertedDeposit(p.prices, DepositOf(p.deposits, n), current);
    if d.pending.Some? {
      RedeemedKept(p, p', PendingStorageFee(d));
    }
  }

  lemma NominatePaysIn(p: Pool, p': Pool, current: nat, pendingSlash: bool, n: AccountId, amount: nat)
    requires Nominate(p, current, pendingSlash, n, amount) == Ok(p')
    ensures p'.depositsInEpoch + p'.totalStorageFee == p.depositsInEpoch + p.totalStorageFee + amount
  {}

  /** A nomination pays in one for one. It dilutes the storage deposits of the others exactly when refunds have made the
      fund larger than its deposits. */
  lemma NominateKeepsFund(p: Pool, p': Pool, current: nat, pendingSlash: bool, n: AccountId, amount: nat)
    requires Nominate(p, current, pendingSlash, n, amount) == Ok(p')
    ensures FundKept(p, p') <==> p.fund <= p.totalStorageFee || StorageFund.Reserve(amount) == 0
  {
    var fee := StorageFund.Reserve(amount);
    assert p'.fund == p.fund + fee && p'.totalStorageFee == p.totalStorageFee + fee;
    PaidInKept(p.fund, p.totalStorageFee, fee);
  }

  /** A fund of 400 for deposits of 200, and a nomination of 1000. */
  lemma NominationDilutes()
    ensures var p := Pool(0, 1, 0, Registered, 800, 800, 0, 0, 200, 400, map[], map[0 := Deposit(800, 200, None)],
                          map[], 800, 0, 400, 0, false);
            var r := Nominate(p, 5, false, 1, 1000);
            r.Ok? && !FundKept(p, r.value)
  {
    var p := Pool(0, 1, 0, Registered, 800, 800, 0, 0, 200, 400, map[], map[0 := Deposit(800, 200, None)], map[],
                  800, 0, 400, 0, false);
    StorageFund.ReserveIsFifth(1000);
    NominateKeepsFund(p, Nominate(p, 5, false, 1, 1000).value, 5, false, 1, 1000);
  }

  lemma PaidInKept(fund: nat, total: nat, fee: nat)
    ensures (fund + fee) * total >= fund * (total + fee) <==> fund <= total || fee == 0
  {
    assert (fund + fee) * total == fund * total + fee * total;
    assert fund * (total + fee) == fund * total + fund * fee;
    if fee > 0 {
      if fund <= total {
        MulMono(fund, total, fee);
      } else {
        MulMono(total + 1, fund, fee);
        assert (total + 1) * fee == total * fee + fee;
      }
    }
  }
}
