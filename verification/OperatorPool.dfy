/** One operator's staking pool: the operator record with everything stored under its id. */
module OperatorPool {
  import opened StakingTypes
  import opened Perquintill
  import SharePrice
  import StorageFund

  /** `credited` to `ownerLeft` only record history: the stake ever put into the pool and ever paid out of it, what was
      ever paid into its storage fund and out of it, and whether the owner has unlocked. No operation reads them. */
  datatype Pool = Pool(
    owner: AccountId, minNominatorStake: nat, tax: Percent, status: OperatorStatus,
    totalStake: nat, totalShares: nat, depositsInEpoch: nat, withdrawalsInEpoch: nat,
    totalStorageFee: nat, fund: nat,
    prices: map<nat, nat>, deposits: map<AccountId, Deposit>, withdrawals: map<AccountId, Withdrawal>,
    credited: nat, released: nat, storageIn: nat, storageOut: nat, ownerLeft: bool)

  function DepositOf(deposits: map<AccountId, Deposit>, n: AccountId): Deposit {
    if n in deposits then deposits[n] else NO_DEPOSIT
  }

  function WithdrawalOf(withdrawals: map<AccountId, Withdrawal>, n: AccountId): Withdrawal {
    if n in withdrawals then withdrawals[n] else NO_WITHDRAWAL
  }

  // ---- Lazy conversion at a stored price ----

  /** Turns a pending deposit into shares once the price of its epoch is stored. */
  function ConvertDeposit(prices: map<nat, nat>, d: Deposit, current: nat): Result<Deposit> {
    match d.pending
    case None => Ok(d)
    case Some(q) =>
      if q.epoch in prices then
        Ok(Deposit(d.shares + SharePrice.StakeToShares(prices[q.epoch], q.amount), d.storageFee + q.storageFee, None))
      else if q.epoch >= current then Ok(d)
      else Err(MissingOperatorEpochSharePrice)
  }

  /** Turns a withdrawal in shares into a queue entry once its epoch is over. */
  function ConvertWithdrawal(prices: map<nat, nat>, w: Withdrawal, current: nat): Result<Withdrawal> {
    match w.inShares
    case None => Ok(w)
    case Some(s) =>
      if s.epoch >= current then Ok(w)
      else if s.epoch !in prices then Err(MissingOperatorEpochSharePrice)
      else
        var amount := SharePrice.SharesToStake(prices[s.epoch], s.shares);
        Ok(Withdrawal(w.total + amount, w.totalStorageFee,
                      w.queue + [InBalance(s.unlockAt, amount, s.storageFee)], None))
  }

  // ---- Nominate ----

  /** Converts what an earlier epoch left pending and adds a new pending deposit. */
  function AddDeposit(p: Pool, n: AccountId, current: nat, staking: nat, storageFee: nat, minimum: Option<nat>)
    : Result<Pool>
  {
    var d :- ConvertDeposit(p.prices, DepositOf(p.deposits, n), current);
    var q := match d.pending
      case None => Pending(current, staking, storageFee)
      case Some(prev) => Pending(current, prev.amount + staking, prev.storageFee + storageFee);
    if d.shares == 0 && minimum.Some? && q.amount + q.storageFee < minimum.value then Err(MinimumNominatorStake)
    else Ok(p.(deposits := p.deposits[n := d.(pending := Some(q))]))
  }

  function Nominate(p: Pool, current: nat, pendingSlash: bool, n: AccountId, amount: nat): Result<Pool> {
    if amount == 0 then Err(ZeroDeposit)
    else if StatusOf(p.status, pendingSlash) != Registered then Err(OperatorNotRegistered)
    else
      var storageFee := StorageFund.Reserve(amount);
      var staking := amount - storageFee;
      AddDeposit(p.(depositsInEpoch := p.depositsInEpoch + staking,
                    totalStorageFee := p.totalStorageFee + storageFee,
                    fund := p.fund + storageFee,
                    storageIn := p.storageIn + storageFee),
                 n, current, staking, storageFee, Some(p.minNominatorStake))
  }

  // ---- Withdraw ----

  predicate RegisteredOrDeactivated(s: OperatorStatus) { s.Registered? || s.Deactivated? }

  /** The share price at this instant, counting the rewards of the running epoch net of tax. */
  function CurrentSharePrice(p: Pool, rewards: Option<nat>): Result<nat> {
    var stake := match rewards
      case None => p.totalStake
      case Some(r) => p.totalStake + r - TaxOn(p.tax, r);
    SharePrice.New(p.totalShares, stake)
  }

  function TaxOn(tax: Percent, reward: nat): (t: nat)
    ensures t <= reward
  {
    DivAtMost(tax * reward, 100, reward);
    tax * reward / 100
  }

  /** `net` is the reward without `tax` percent of it, rounded in favour of the pool. */
  ghost predicate IsNet(net: nat, reward: nat, tax: Percent) {
    net <= reward && (reward - net) * 100 <= tax * reward < (reward - net + 1) * 100
  }

  lemma TaxIsPercentage(tax: Percent, reward: nat)
    ensures IsNet(reward - TaxOn(tax, reward), reward, tax)
  {
    DivBounds(tax * reward, 100);
  }

  /** How many shares a request really withdraws: everything, when too little would remain. */
  function SharesToWithdraw(p: Pool, config: Config, rewards: Option<nat>, n: AccountId, d: Deposit, toWithdraw: nat)
    : Result<nat>
  {
    if d.shares < toWithdraw then Err(InsufficientShares)
    else if d.shares == toWithdraw then (if n == p.owner then Err(MinimumOperatorStake) else Ok(toWithdraw))
    else
      var remaining := d.shares - toWithdraw;
      var price :- CurrentSharePrice(p, rewards);
      var stake := SharePrice.SharesToStake(price, remaining)
                   + MulFloor(FromRational(remaining, d.shares), d.storageFee);
      if n == p.owner && stake < config.minOperatorStake then Err(MinimumOperatorStake)
      else if n != p.owner && stake < p.minNominatorStake then Ok(d.shares)
      else Ok(toWithdraw)
  }

  /** Adds a request to the withdrawal in shares of the running epoch. */
  function AddInShares(w: Withdrawal, current: nat, unlockAt: nat, shares: nat, storageFee: nat): Withdrawal {
    var s := match w.inShares
      case None => InShares(current, unlockAt, shares, storageFee)
      case Some(prev) => InShares(current, unlockAt, prev.shares + shares, prev.storageFee + storageFee);
    w.(inShares := Some(s), totalStorageFee := w.totalStorageFee + storageFee)
  }

  function Withdraw(p: Pool, config: Config, current: nat, head: nat, pendingSlash: bool, rewards: Option<nat>,
                    n: AccountId, toWithdraw: nat): Result<Pool>
  {
    if toWithdraw == 0 then Err(ZeroWithdraw)
    else if !RegisteredOrDeactivated(StatusOf(p.status, pendingSlash)) then Err(OperatorNotRegisteredOrDeactivated)
    else if n !in p.deposits then Err(UnknownNominator)
    else
      var d :- ConvertDeposit(p.prices, p.deposits[n], current);
      var w :- ConvertWithdrawal(p.prices, WithdrawalOf(p.withdrawals, n), current);
      if n in p.withdrawals && |w.queue| >= config.withdrawalLimit then Err(TooManyWithdrawals)
      else
        var shares :- SharesToWithdraw(p, config, rewards, n, d, toWithdraw);
        WithdrawShares(p, config, current, head, n, d, w, shares)
  }

  function WithdrawShares(p: Pool, config: Config, current: nat, head: nat, n: AccountId, d: Deposit, w: Withdrawal,
                          shares: nat): Result<Pool>
    requires shares <= d.shares
  {
    var storageFee := MulFloor(FromRational(shares, d.shares), d.storageFee);
    var redeemed := StorageFund.Redeem(p.fund, p.totalStorageFee, storageFee);
    if redeemed > p.fund then Err(BundleStorageFund)
    else if storageFee > d.storageFee || storageFee > p.totalStorageFee then Err(BalanceOverflow)
    else if d.shares == shares && d.pending.Some?
            && d.pending.value.amount + d.pending.value.storageFee < p.minNominatorStake then
      Err(MinimumNominatorStake)
    else
      var d' := d.(shares := d.shares - shares, storageFee := d.storageFee - storageFee);
      var w' := AddInShares(w, current, head + config.lockingPeriod, shares, redeemed);
      Ok(p.(fund := p.fund - redeemed,
            totalStorageFee := p.totalStorageFee - storageFee,
            withdrawalsInEpoch := p.withdrawalsInEpoch + shares,
            deposits := p.deposits[n := d'],
            withdrawals := p.withdrawals[n := w']))
  }

  // ---- Unlock matured withdrawals ----

  /** The number of leading queue entries whose unlock block has been reached. */
  function MaturedCount(queue: seq<InBalance>, head: nat): (k: nat)
    ensures k <= |queue|
  {
    if queue == [] || queue[0].unlockAt > head then 0 else 1 + MaturedCount(queue[1..], head)
  }

  function QueueAmount(queue: seq<InBalance>): nat {
    if queue == [] then 0 else queue[0].amount + QueueAmount(queue[1..])
  }

  function QueueStorageFee(queue: seq<InBalance>): nat {
    if queue == [] then 0 else queue[0].storageFee + QueueStorageFee(queue[1..])
  }

  function UnlockFunds(p: Pool, current: nat, head: nat, pendingSlash: bool, n: AccountId): Result<Pool> {
    if !RegisteredOrDeactivated(StatusOf(p.status, pendingSlash)) then Err(OperatorNotRegisteredOrDeactivated)
    else if n !in p.withdrawals then Err(MissingWithdrawal)
    else
      var w :- ConvertWithdrawal(p.prices, p.withdrawals[n], current);
      if w.queue == [] then Err(MissingWithdrawal)
      else
        var k := MaturedCount(w.queue, head);
        var amount := QueueAmount(w.queue[..k]);
        var storageFee := QueueStorageFee(w.queue[..k]);
        if amount == 0 && storageFee == 0 then Err(UnlockPeriodNotComplete)
        else if amount > w.total || storageFee > w.totalStorageFee then Err(BalanceUnderflow)
        else
          var w' := w.(total := w.total - amount, totalStorageFee := w.totalStorageFee - storageFee,
                       queue := w.queue[k..]);
          Ok(StoreUnlocked(p.(released := p.released + amount, storageOut := p.storageOut + storageFee), n, w'))
  }

  /** Drops a withdrawal with nothing left in it, and then a deposit with nothing left in it. */
  function StoreUnlocked(p: Pool, n: AccountId, w: Withdrawal): Pool {
    if w.queue == [] && w.inShares.None? then
      var d := DepositOf(p.deposits, n);
      p.(withdrawals := p.withdrawals - {n},
         deposits := if d.shares == 0 && d.pending.None? then p.deposits - {n} else p.deposits)
    else p.(withdrawals := p.withdrawals[n := w])
  }

  // ---- Unlock a nominator of a deregistered operator ----

  function PendingAmount(d: Deposit): nat { if d.pending.Some? then d.pending.value.amount else 0 }

  function PendingStorageFee(d: Deposit): nat { if d.pending.Some? then d.pending.value.storageFee else 0 }

  function InSharesOf(w: Withdrawal): nat { if w.inShares.Some? then w.inShares.value.shares else 0 }

  function UnlockNominator(p: Pool, current: nat, head: nat, pendingSlash: bool, n: AccountId): Result<Pool> {
    var status := StatusOf(p.status, pendingSlash);
    if !status.Deregistered? then Err(OperatorNotDeregistered)
    else if status.unlockAt > head then Err(UnlockPeriodNotComplete)
    else
      var price :- SharePrice.New(p.totalShares, p.totalStake);
      if n !in p.deposits then Err(UnknownNominator)
      else
        var d :- ConvertDeposit(p.prices, p.deposits[n], current);
        var w :- ConvertWithdrawal(p.prices, WithdrawalOf(p.withdrawals, n), current);
        var shares := d.shares + InSharesOf(w);
        var staked := SharePrice.SharesToStake(price, shares);
        var storageFee := PendingStorageFee(d) + d.storageFee;
        var redeemed := StorageFund.Redeem(p.fund, p.totalStorageFee, storageFee);
        if shares > p.totalShares then Err(ShareOverflow)
        else if staked > p.totalStake then Err(BalanceOverflow)
        else if redeemed > p.fund then Err(BundleStorageFund)
        else
          Ok(p.(totalShares := p.totalShares - shares,
                totalStake := p.totalStake - staked,
                totalStorageFee := if storageFee <= p.totalStorageFee then p.totalStorageFee - storageFee else 0,
                fund := p.fund - redeemed,
                deposits := p.deposits - {n},
                withdrawals := p.withdrawals - {n},
                credited := p.credited + PendingAmount(d),
                released := p.released + staked + w.total + PendingAmount(d),
                storageOut := p.storageOut + redeemed + w.totalStorageFee,
                ownerLeft := p.ownerLeft || n == p.owner))
  }

  // ---- Storage ----

  /** Bundle storage was charged to the storage fund, or a fee for it refunded, so that it now holds `fund`. */
  function SetFund(p: Pool, fund: nat): Pool {
    if fund < p.fund then p.(fund := fund, storageOut := p.storageOut + (p.fund - fund))
    else p.(fund := fund, storageIn := p.storageIn + (fund - p.fund))
  }

  // ---- Slash ----

  /** A deposit or withdrawal of the epoch of the slash stays as it is: that epoch never gets a price. */
  function ConvertedDeposit(prices: map<nat, nat>, d: Deposit, current: nat): Deposit {
    var r := ConvertDeposit(prices, d, current);
    if r.Ok? then r.value else d
  }

  function ConvertedWithdrawal(prices: map<nat, nat>, w: Withdrawal, current: nat): Withdrawal {
    var r := ConvertWithdrawal(prices, w, current);
    if r.Ok? then r.value else w
  }

  /** The shares that a slash takes from one nominator. */
  function SlashedShares(p: Pool, current: nat, n: AccountId): nat {
    ConvertedDeposit(p.prices, DepositOf(p.deposits, n), current).shares
    + InSharesOf(ConvertedWithdrawal(p.prices, WithdrawalOf(p.withdrawals, n), current))
  }

  /** Removes one nominator with the stake of its shares; a deposit that is not staked yet is given back. */
  function TakeNominator(p: Pool, current: nat, n: AccountId, staked: nat): Result<Pool> {
    var d := ConvertedDeposit(p.prices, DepositOf(p.deposits, n), current);
    var w := ConvertedWithdrawal(p.prices, WithdrawalOf(p.withdrawals, n), current);
    var shares := SlashedShares(p, current, n);
    var redeemed := if d.pending.Some? then StorageFund.Redeem(p.fund, p.totalStorageFee, PendingStorageFee(d)) else 0;
    if shares > p.totalShares then Err(ShareOverflow)
    else if staked > p.totalStake then Err(BalanceOverflow)
    else if redeemed > p.fund then Err(BundleStorageFund)
    else
      Ok(p.(totalShares := p.totalShares - shares,
            totalStake := p.totalStake - staked,
            totalStorageFee := if PendingStorageFee(d) <= p.totalStorageFee
                               then p.totalStorageFee - PendingStorageFee(d) else 0,
            fund := p.fund - redeemed,
            deposits := p.deposits - {n},
            withdrawals := p.withdrawals - {n},
            credited := p.credited + PendingAmount(d),
            released := p.released + staked + w.total + PendingAmount(d),
            storageOut := p.storageOut + redeemed + w.totalStorageFee))
  }

  function SlashNominator(p: Pool, current: nat, price: nat, n: AccountId): Result<Pool> {
    TakeNominator(p, current, n, SharePrice.SharesToStake(price, SlashedShares(p, current, n)))
  }

  function SlashEach(p: Pool, current: nat, price: nat, ns: seq<AccountId>): Result<Pool> {
    if ns == [] then Ok(p)
    else
      var q :- SlashEach(p, current, price, ns[..|ns| - 1]);
      SlashNominator(q, current, price, ns[|ns| - 1])
  }

  /** One round of slashing takes the given nominators at one share price. */
  function SlashBatch(p: Pool, current: nat, ns: seq<AccountId>): Result<Pool> {
    var price :- SharePrice.New(p.totalShares, p.totalStake);
    SlashEach(p, current, price, ns)
  }

  // ---- Epoch boundary ----

  /** Credits a reward: the owner's tax is deposited again, the rest raises the stake of the pool. */
  function TakeReward(p: Pool, current: nat, reward: nat): Result<Pool> {
    var tax := TaxOn(p.tax, reward);
    var net := reward - tax;
    if tax == 0 then Ok(p.(totalStake := p.totalStake + net, credited := p.credited + net))
    else
      var storageFee := StorageFund.Reserve(tax);
      var staking := tax - storageFee;
      AddDeposit(p.(depositsInEpoch := p.depositsInEpoch + staking,
                    totalStorageFee := p.totalStorageFee + storageFee,
                    fund := p.fund + storageFee,
                    storageIn := p.storageIn + storageFee,
                    totalStake := p.totalStake + net,
                    credited := p.credited + net),
                 p.owner, current, staking, storageFee, None)
  }

  predicate Idle(p: Pool) { p.depositsInEpoch == 0 && p.withdrawalsInEpoch == 0 }

  /** Moves the whole pool once, at one price, and stores the price for later lazy conversions. */
  function Finalize(p: Pool, epoch: nat): Result<Pool> {
    if Idle(p) then Ok(p)
    else
      var price :- SharePrice.New(p.totalShares, p.totalStake);
      var paid := SharePrice.SharesToStake(price, p.withdrawalsInEpoch);
      if paid > p.totalStake then Err(BalanceUnderflow)
      else if p.withdrawalsInEpoch > p.totalShares then Err(ShareUnderflow)
      else
        Ok(p.(totalStake := p.totalStake - paid + p.depositsInEpoch,
              totalShares := p.totalShares - p.withdrawalsInEpoch
                             + SharePrice.StakeToShares(price, p.depositsInEpoch),
              depositsInEpoch := 0,
              withdrawalsInEpoch := 0,
              prices := p.prices[epoch := price],
              credited := p.credited + p.depositsInEpoch))
  }

  // ---- Registration ----

  /** The pool of a new operator: the owner's deposit is already in the totals, at a price of one. */
  function Register(owner: AccountId, amount: nat, minNominatorStake: nat, tax: Percent, epoch: nat): Pool {
    var storageFee := StorageFund.Reserve(amount);
    var staking := amount - storageFee;
    Pool(owner, minNominatorStake, tax, Registered,
         staking, SharePrice.StakeToShares(SharePrice.One(), staking), 0, 0,
         storageFee, storageFee,
         map[epoch := SharePrice.One()],
         map[owner := Deposit(0, 0, Some(Pending(epoch, staking, storageFee)))],
         map[], staking, 0, storageFee, 0, false)
  }
}
