/** What each call pays, to the unit: stake, storage refunds and what is left behind. */
module Payments {
  import opened ReceiptTypes
  import opened StakingTypes
  import opened OperatorPool
  import opened PoolInvariant
  import opened PoolSteps
  import opened Perquintill
  import DomainStaking
  import SharePrice
  import Slashing
  import StorageFund

  // ---- Depositing ----

  /** The storage deposit of what was not staked yet. */
  ghost function UnpricedStorage(d: Deposit, prices: map<nat, nat>): nat {
    if d.pending.Some? && d.pending.value.epoch !in prices then d.pending.value.storageFee else 0
  }

  /** A fifth of `amount` went to the storage fund, and the rest waits with what `n` has pending for the end of the
      epoch; what earlier epochs left pending is shares now. Nobody else is touched. */
  ghost predicate DepositTaken(p: Pool, p': Pool, n: AccountId, current: nat, amount: nat) {
    && n in p'.deposits && p'.deposits - {n} == p.deposits - {n} && p'.withdrawals == p.withdrawals
    && var d, d' := DepositOf(p.deposits, n), p'.deposits[n];
    && d'.shares == Claim(d, p.prices)
    && d'.pending == Some(Pending(current, Unpriced(d, p.prices) + amount - amount / 5,
                                  UnpricedStorage(d, p.prices) + amount / 5))
    && StorageDeposit(d') == StorageDeposit(d) + amount / 5
    && p'.depositsInEpoch == p.depositsInEpoch + amount - amount / 5
    && p'.totalStorageFee == p.totalStorageFee + amount / 5
    && p'.fund == p.fund + amount / 5 && p'.storageIn == p.storageIn + amount / 5
  }

  lemma AddedIsTaken(p: Pool, p': Pool, n: AccountId, current: nat, amount: nat, net: nat)
    requires DepositAdded(p, p', n, current, amount - amount / 5, amount / 5, net)
    ensures DepositTaken(p, p', n, current, amount)
  {
    var d := DepositOf(p.deposits, n);
    var c := ConvertDeposit(p.prices, d, current).value;
    ConvertedPending(p.prices, d, c, current);
    assert p'.deposits - {n} == p.deposits - {n};
  }

  /** A nomination is taken in full, and adds no stake before the epoch ends. */
  lemma NominatePays(p: Pool, p': Pool, current: nat, pendingSlash: bool, n: AccountId, amount: nat)
    requires Nominate(p, current, pendingSlash, n, amount) == Ok(p')
    ensures DepositTaken(p, p', n, current, amount)
    ensures p'.totalStake == p.totalStake && p'.totalShares == p.totalShares && p'.credited == p.credited
  {
    var storageFee := StorageFund.Reserve(amount);
    StorageFund.ReserveIsFifth(amount);
    assert DepositAdded(p, p', n, current, amount - storageFee, storageFee, 0);
    AddedIsTaken(p, p', n, current, amount, 0);
  }

  /** A nomination is accepted exactly by a registered operator, and from somebody who has shares or brings at least the
      minimum, counted with the storage part and with what is pending already. */
  lemma NominateAccepted(p: Pool, config: Config, current: nat, head: nat, pendingSlash: bool, n: AccountId,
                         amount: nat)
    requires Inv(p, config, current, head)
    ensures var d := DepositOf(p.deposits, n);
            Nominate(p, current, pendingSlash, n, amount).Ok? <==>
              && amount > 0 && StatusOf(p.status, pendingSlash) == Registered
              && (Claim(d, p.prices) > 0
                  || Unpriced(d, p.prices) + UnpricedStorage(d, p.prices) + amount >= p.minNominatorStake)
  {
    ConversionsSucceed(p, config, current, head, n);
    var d := DepositOf(p.deposits, n);
    ConvertedPending(p.prices, d, ConvertDeposit(p.prices, d, current).value, current);
  }

  // ---- Rewards ----

  /** The net reward raises the stake of the pool, and the tax is deposited again for the owner. */
  lemma RewardPays(p: Pool, q: Pool, epoch: nat, reward: nat)
    requires TakeReward(p, epoch, reward) == Ok(q)
    ensures p.totalStake <= q.totalStake && IsNet(q.totalStake - p.totalStake, reward, p.tax)
    ensures q.credited - p.credited == q.totalStake - p.totalStake
    ensures var tax := reward - (q.totalStake - p.totalStake);
            if tax > 0 then DepositTaken(p, q, p.owner, epoch, tax)
            else q == p.(totalStake := q.totalStake, credited := q.credited)
  {
    TaxIsPercentage(p.tax, reward);
    var tax := TaxOn(p.tax, reward);
    if tax > 0 {
      StorageFund.ReserveIsFifth(tax);
      assert DepositAdded(p, q, p.owner, epoch, tax - tax / 5, tax / 5, reward - tax);
      AddedIsTaken(p, q, p.owner, epoch, tax, reward - tax);
    }
  }

  /** The price of the moment counts the rewards of the running epoch, net of tax. */
  lemma CurrentPriceCountsRewards(p: Pool, rewards: Option<nat>) returns (net: nat)
    ensures if rewards.None? then net == 0 else IsNet(net, rewards.value, p.tax)
    ensures CurrentSharePrice(p, rewards) == SharePrice.New(p.totalShares, p.totalStake + net)
  {
    if rewards.None? {
      net := 0;
    } else {
      TaxIsPercentage(p.tax, rewards.value);
      net := rewards.value - TaxOn(p.tax, rewards.value);
    }
  }

  lemma NetIsUnique(net: nat, net': nat, reward: nat, tax: Percent)
    requires IsNet(net, reward, tax) && IsNet(net', reward, tax)
    ensures net == net'
  {}

  // ---- Withdrawing ----

  /** The part of its storage deposit that goes with the withdrawn shares. */
  ghost predicate StorageTaken(p: Pool, p': Pool, n: AccountId, d: Deposit, shares: nat) {
    && n in p'.deposits && 0 < shares <= d.shares && p'.totalStorageFee <= p.totalStorageFee
    && var fee := p.totalStorageFee - p'.totalStorageFee;
    && p'.deposits[n] == d.(shares := d.shares - shares, storageFee := p'.deposits[n].storageFee)
    && p'.deposits[n].storageFee + fee == d.storageFee
    && IsPart(fee, d.storageFee, shares, d.shares)
  }

  lemma WithdrawTakesStorage(p: Pool, p': Pool, config: Config, current: nat, head: nat, n: AccountId, d: Deposit,
                             w: Withdrawal, shares: nat)
    requires SharesMoved(p, p', config, current, head, n, d, w, shares)
    ensures StorageTaken(p, p', n, d, shares)
  {
    ProportionIsPart(shares, d.shares, d.storageFee);
  }

  /** What leaves the storage fund is held for the withdrawer, and it is the part that its deposit stands for. */
  ghost predicate Refunded(p: Pool, p': Pool, n: AccountId) {
    && n in p'.withdrawals && p'.fund <= p.fund && p'.totalStorageFee <= p.totalStorageFee
    && p'.fund + p'.withdrawals[n].totalStorageFee == p.fund + WithdrawalOf(p.withdrawals, n).totalStorageFee
    && var fee := p.totalStorageFee - p'.totalStorageFee;
    && (p.totalStorageFee > 0 ==> IsPart(p.fund - p'.fund, p.fund, fee, p.totalStorageFee))
  }

  lemma WithdrawRefunds(p: Pool, p': Pool, config: Config, current: nat, head: nat, n: AccountId, d: Deposit,
                        w: Withdrawal, shares: nat)
    requires SharesMoved(p, p', config, current, head, n, d, w, shares)
    ensures Refunded(p, p', n)
  {
    var fee := MulFloor(FromRational(shares, d.shares), d.storageFee);
    if p.totalStorageFee > 0 {
      StorageFund.RedeemIsPart(p.fund, p.totalStorageFee, fee);
    }
  }

  /** A withdrawal moves shares, with their part of the storage deposit, and holds for the withdrawer exactly what it
      takes out of the storage fund. */
  lemma WithdrawPays(p: Pool, p': Pool, config: Config, current: nat, head: nat, pendingSlash: bool,
                     rewards: Option<nat>, n: AccountId, toWithdraw: nat) returns (d: Deposit, shares: nat)
    requires Withdraw(p, config, current, head, pendingSlash, rewards, n, toWithdraw) == Ok(p')
    ensures n in p.deposits && ConvertDeposit(p.prices, p.deposits[n], current) == Ok(d)
    ensures StorageTaken(p, p', n, d, shares) && Refunded(p, p', n) && toWithdraw <= shares
  {
    var w;
    d, w, shares := WithdrawMoves(p, p', config, current, head, pendingSlash, rewards, n, toWithdraw);
    WithdrawTakesStorage(p, p', config, current, head, n, d, w, shares);
    WithdrawRefunds(p, p', config, current, head, n, d, w, shares);
  }

  // ---- Waiting ----

  /** When the parts of a withdrawal unlock, and with how much of a storage refund. */
  ghost function Times(w: Withdrawal): seq<(nat, nat)> {
    QueueTimes(w.queue) + if w.inShares.Some? then [(w.inShares.value.unlockAt, w.inShares.value.storageFee)] else []
  }

  ghost function QueueTimes(queue: seq<InBalance>): seq<(nat, nat)> {
    seq(|queue|, i requires 0 <= i < |queue| => (queue[i].unlockAt, queue[i].storageFee))
  }

  /** Conversion neither hastens nor delays a withdrawal, and keeps its storage refund. */
  lemma ConversionKeepsTimes(prices: map<nat, nat>, w: Withdrawal, current: nat)
    requires ConvertWithdrawal(prices, w, current).Ok?
    ensures Times(ConvertWithdrawal(prices, w, current).value) == Times(w)
  {}

  // ---- Leaving ----

  lemma ConvertedPending(prices: map<nat, nat>, d: Deposit, c: Deposit, current: nat)
    requires ConvertDeposit(prices, d, current) == Ok(c)
    ensures PendingAmount(c) == Unpriced(d, prices) && c.shares == Claim(d, prices)
    ensures PendingStorageFee(c) == UnpricedStorage(d, prices)
    ensures PendingStorageFee(c) + c.storageFee == StorageDeposit(d)
  {}

  lemma ConvertedTotal(prices: map<nat, nat>, w: Withdrawal, c: Withdrawal, current: nat)
    requires ConvertWithdrawal(prices, w, current) == Ok(c)
    ensures c.total == Promised(w, prices, current) && c.totalStorageFee == w.totalStorageFee
    ensures InSharesOf(c) == Slashing.Locked(w, prices, current)
  {}

  /** What a nominator has in the pool is taken out: shares at the price of `shares0` for `stake0`, what was promised
      before, and what was not staked yet. */
  ghost predicate StakePaid(p: Pool, p': Pool, current: nat, n: AccountId, shares0: nat, stake0: nat) {
    var d, w := DepositOf(p.deposits, n), WithdrawalOf(p.withdrawals, n);
    && p'.totalShares <= p.totalShares && p'.totalStake <= p.totalStake
    && p.totalShares - p'.totalShares == Claim(d, p.prices) + Slashing.Locked(w, p.prices, current)
    && SharePrice.IsSale(p.totalStake - p'.totalStake, p.totalShares - p'.totalShares, shares0, stake0)
    && p'.released + p'.totalStake
       == p.released + p.totalStake + Promised(w, p.prices, current) + Unpriced(d, p.prices)
    && p'.credited == p.credited + Unpriced(d, p.prices)
  }

  /** The storage deposit `fee` is redeemed for its part of the fund, and held refunds are paid. */
  ghost predicate StoragePaid(p: Pool, p': Pool, n: AccountId, fee: nat) {
    && p'.fund <= p.fund
    && p'.storageOut + p'.fund == p.storageOut + p.fund + WithdrawalOf(p.withdrawals, n).totalStorageFee
    && p'.totalStorageFee == (if fee <= p.totalStorageFee then p.totalStorageFee - fee else 0)
    && (0 < p.totalStorageFee && fee <= p.totalStorageFee ==>
          IsPart(p.fund - p'.fund, p.fund, fee, p.totalStorageFee))
  }

  lemma LeavingPaysStorage(p: Pool, p': Pool, current: nat, head: nat, pendingSlash: bool, n: AccountId)
    requires UnlockNominator(p, current, head, pendingSlash, n) == Ok(p')
    ensures n in p.deposits && StoragePaid(p, p', n, StorageDeposit(p.deposits[n]))
  {
    var d := ConvertDeposit(p.prices, p.deposits[n], current).value;
    ConvertedPending(p.prices, p.deposits[n], d, current);
    var fee := PendingStorageFee(d) + d.storageFee;
    if 0 < p.totalStorageFee && fee <= p.totalStorageFee {
      StorageFund.RedeemIsPart(p.fund, p.totalStorageFee, fee);
    }
  }

  /** A nominator who leaves gets the stake of its shares, what was promised to it, its unstaked deposit, and the
      storage refunds that belong to them. */
  lemma LeavingPays(p: Pool, p': Pool, current: nat, head: nat, pendingSlash: bool, n: AccountId)
    requires UnlockNominator(p, current, head, pendingSlash, n) == Ok(p')
    ensures n in p.deposits && StakePaid(p, p', current, n, p.totalShares, p.totalStake)
    ensures StoragePaid(p, p', n, StorageDeposit(p.deposits[n]))
  {
    LeavingPaysStorage(p, p', current, head, pendingSlash, n);
    var price, d, w := UnlockLeaves(p, p', current, head, pendingSlash, n);
    ConvertedPending(p.prices, p.deposits[n], d, current);
    ConvertedTotal(p.prices, WithdrawalOf(p.withdrawals, n), w, current);
    SharePrice.SharesToStakeIsSale(price, p.totalShares, p.totalStake, d.shares + InSharesOf(w));
  }

  /** The stake and the storage fund of an operator, if it still exists. */
  ghost function Remaining(d: DomainStaking.Domain, id: OperatorId): nat {
    if id in d.operators then d.operators[id].totalStake + d.operators[id].fund else 0
  }

  /** Pool, payment and treasury balance: what the leaver does not get stays in the pool, or goes to the treasury with
      the last one. `p'` is the pool as the leaver left it. */
  lemma LeavingBalances(d: DomainStaking.Domain, d': DomainStaking.Domain, id: OperatorId, n: AccountId)
    returns (p': Pool)
    requires DomainStaking.UnlockNominator(d, id, n) == Ok(d')
    ensures id in d.operators && n in d.operators[id].deposits
    ensures UnlockNominator(d.operators[id], d.epoch, d.head, id in d.pendingSlash, n) == Ok(p')
    ensures var p := d.operators[id];
            && p.released <= p'.released && p.storageOut <= p'.storageOut
            && d'.treasury + Remaining(d', id) + (p'.released - p.released) + (p'.storageOut - p.storageOut)
               == d.treasury + Remaining(d, id) + Promised(WithdrawalOf(p.withdrawals, n), p.prices, d.epoch)
                  + Unpriced(p.deposits[n], p.prices) + WithdrawalOf(p.withdrawals, n).totalStorageFee
    ensures id in d'.operators ==> d'.treasury == d.treasury && d'.operators[id] == p'
    ensures id !in d'.operators <==> p'.deposits == map[] && p'.withdrawals == map[]
  {
    var p := d.operators[id];
    p' := UnlockNominator(p, d.epoch, d.head, id in d.pendingSlash, n).value;
    LeavingPays(p, p', d.epoch, d.head, id in d.pendingSlash, n);
  }

  // ---- Slashing ----

  lemma ConvertedAnyway(p: Pool, current: nat, n: AccountId)
    ensures var d := ConvertedDeposit(p.prices, DepositOf(p.deposits, n), current);
            && PendingAmount(d) == Unpriced(DepositOf(p.deposits, n), p.prices)
            && d.shares == Claim(DepositOf(p.deposits, n), p.prices)
    ensures var w := ConvertedWithdrawal(p.prices, WithdrawalOf(p.withdrawals, n), current);
            && w.total == Promised(WithdrawalOf(p.withdrawals, n), p.prices, current)
            && w.totalStorageFee == WithdrawalOf(p.withdrawals, n).totalStorageFee
  {}

  /** A slash takes the stake of a nominator at the price of its round, and everything promised to it; what was not
      staked yet is given back with its storage deposit. */
  lemma SlashPays(p: Pool, p': Pool, current: nat, price: nat, shares0: nat, stake0: nat, n: AccountId)
    requires SlashNominator(p, current, price, n) == Ok(p') && SharePrice.IsPriceOf(price, shares0, stake0)
    ensures StakePaid(p, p', current, n, shares0, stake0)
    ensures StoragePaid(p, p', n, UnpricedStorage(DepositOf(p.deposits, n), p.prices))
  {
    ConvertedAnyway(p, current, n);
    SharePrice.SharesToStakeIsSale(price, shares0, stake0, SlashedShares(p, current, n));
    SlashPaysStorage(p, p', current, price, n);
  }

  /** In a round everybody is slashed at the price that the pool had when the round began. */
  lemma SlashBatchPays(p: Pool, p': Pool, current: nat, ns: seq<AccountId>, n: AccountId) returns (q: Pool)
    requires SlashBatch(p, current, ns + [n]) == Ok(p')
    ensures SlashBatch(p, current, ns) == Ok(q)
    ensures StakePaid(q, p', current, n, p.totalShares, p.totalStake)
    ensures StoragePaid(q, p', n, UnpricedStorage(DepositOf(q.deposits, n), q.prices))
  {
    var price := SharePrice.New(p.totalShares, p.totalStake).value;
    assert (ns + [n])[..|ns|] == ns;
    q := SlashEach(p, current, price, ns).value;
    SlashPays(q, p', current, price, p.totalShares, p.totalStake, n);
  }

  lemma SlashPaysStorage(p: Pool, p': Pool, current: nat, price: nat, n: AccountId)
    requires SlashNominator(p, current, price, n) == Ok(p')
    ensures StoragePaid(p, p', n, UnpricedStorage(DepositOf(p.deposits, n), p.prices))
  {
    var d := ConvertedDeposit(p.prices, DepositOf(p.deposits, n), current);
    var fee := PendingStorageFee(d);
    if 0 < p.totalStorageFee && fee <= p.totalStorageFee {
      StorageFund.RedeemIsPart(p.fund, p.totalStorageFee, fee);
    }
  }
}
