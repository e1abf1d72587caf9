/** What every operation keeps true of a pool whose operator is neither slashed nor pending slash. */
module PoolInvariant {
  import opened StakingTypes
  import opened OperatorPool
  import opened MapSums
  import SharePrice

  // ---- What one nominator holds ----

  /** The deposit still waiting for a price. */
  ghost function Unpriced(d: Deposit, prices: map<nat, nat>): nat {
    if d.pending.Some? && d.pending.value.epoch !in prices then d.pending.value.amount else 0
  }

  /** The shares a deposit stands for, whether or not it has been converted yet. */
  ghost function Claim(d: Deposit, prices: map<nat, nat>): nat {
    d.shares + if d.pending.Some? && d.pending.value.epoch in prices
               then SharePrice.StakeToShares(prices[d.pending.value.epoch], d.pending.value.amount) else 0
  }

  ghost function StorageDeposit(d: Deposit): nat {
    match d.pending
    case None => d.storageFee
    case Some(q) => d.storageFee + q.storageFee
  }

  /** The shares of a withdrawal requested in the running epoch. */
  ghost function Open(w: Withdrawal, current: nat): nat {
    if w.inShares.Some? && w.inShares.value.epoch >= current then w.inShares.value.shares else 0
  }

  /** The stake owed to a withdrawer, whether or not it has been converted yet. */
  ghost function Promised(w: Withdrawal, prices: map<nat, nat>, current: nat): nat {
    w.total + if w.inShares.Some? && w.inShares.value.epoch < current && w.inShares.value.epoch in prices
              then SharePrice.SharesToStake(prices[w.inShares.value.epoch], w.inShares.value.shares) else 0
  }

  // ---- Sums over all nominators ----

  type Deposits = map<AccountId, Deposit>
  type Withdrawals = map<AccountId, Withdrawal>

  ghost function UnpricedIn(prices: map<nat, nat>): Deposit -> nat { d => Unpriced(d, prices) }

  ghost function ClaimIn(prices: map<nat, nat>): Deposit -> nat { d => Claim(d, prices) }

  ghost function StorageIn(): Deposit -> nat { d => StorageDeposit(d) }

  ghost function OpenAt(current: nat): Withdrawal -> nat { w => Open(w, current) }

  ghost function PromisedIn(prices: map<nat, nat>, current: nat): Withdrawal -> nat {
    w => Promised(w, prices, current)
  }

  // ---- The invariant ----

  /** An item belongs to the running epoch, or to an earlier one whose price is stored. */
  ghost predicate Settled(epoch: nat, prices: map<nat, nat>, current: nat) {
    epoch == current || (epoch < current && epoch in prices)
  }

  ghost predicate DepositOk(d: Deposit, prices: map<nat, nat>, current: nat) {
    match d.pending
    case None => d.shares == 0 ==> d.storageFee == 0
    case Some(q) => q.amount > 0 && Settled(q.epoch, prices, current)
  }

  ghost predicate Sorted(queue: seq<InBalance>) {
    forall i, j :: 0 <= i < j < |queue| ==> queue[i].unlockAt <= queue[j].unlockAt
  }

  ghost predicate AllUnlockBy(queue: seq<InBalance>, block: nat) {
    forall i :: 0 <= i < |queue| ==> queue[i].unlockAt <= block
  }

  /** The queue is sorted, its totals are exact and its length is bounded. */
  ghost predicate QueueOk(w: Withdrawal, config: Config, head: nat) {
    && Sorted(w.queue)
    && w.total == QueueAmount(w.queue)
    && match w.inShares
       case None =>
         && AllUnlockBy(w.queue, head + config.lockingPeriod)
         && w.totalStorageFee == QueueStorageFee(w.queue)
         && 0 < |w.queue| <= config.withdrawalLimit
       case Some(s) =>
         && AllUnlockBy(w.queue, s.unlockAt)
         && s.unlockAt <= head + config.lockingPeriod
         && w.totalStorageFee == QueueStorageFee(w.queue) + s.storageFee
         && |w.queue| < config.withdrawalLimit
         && s.shares > 0
  }

  ghost predicate WithdrawalOk(w: Withdrawal, prices: map<nat, nat>, config: Config, current: nat, head: nat) {
    && QueueOk(w, config, head)
    && (w.inShares.Some? ==> Settled(w.inShares.value.epoch, prices, current))
  }

  /** What holds of each nominator on its own. */
  ghost predicate Holdings(p: Pool, config: Config, current: nat, head: nat) {
    && (forall e :: e in p.prices ==> e <= current)
    && (forall n :: n in p.deposits ==> DepositOk(p.deposits[n], p.prices, current))
    && (forall n :: n in p.withdrawals ==> n in p.deposits)
    && (forall n :: n in p.withdrawals ==> WithdrawalOk(p.withdrawals[n], p.prices, config, current, head))
  }

  /** The aggregates of the operator record cover the sums over all nominators. */
  ghost predicate Books(p: Pool, current: nat) {
    && p.depositsInEpoch == Total(p.deposits, UnpricedIn(p.prices))
    && p.withdrawalsInEpoch == Total(p.withdrawals, OpenAt(current))
    && Total(p.deposits, ClaimIn(p.prices)) + p.withdrawalsInEpoch <= p.totalShares <= p.totalStake
    && p.totalStorageFee == Total(p.deposits, StorageIn())
    // nothing is paid or promised that was not put in
    && p.totalStake + Total(p.withdrawals, PromisedIn(p.prices, current)) + p.released <= p.credited
  }

  ghost predicate OwnerStakes(p: Pool) {
    !p.ownerLeft ==> p.owner in p.deposits && Claim(p.deposits[p.owner], p.prices) >= 1
  }

  ghost predicate PendingNow(d: Deposit, current: nat) {
    d.pending.Some? && d.pending.value.epoch == current
  }

  /** A stored price of one for the running epoch, and not one share to spare. */
  ghost predicate Exact(p: Pool, current: nat) {
    && current in p.prices && p.prices[current] == SharePrice.One()
    && Total(p.deposits, ClaimIn(p.prices)) + p.withdrawalsInEpoch == p.totalShares
  }

  /** In its registration epoch a pool already has a price for the running epoch, and only its owner in it. */
  ghost predicate EarlyOk(p: Pool, current: nat) {
    current in p.prices ==>
      && Exact(p, current)
      && p.totalStake == p.credited
      && p.depositsInEpoch == 0
      && !p.ownerLeft
      && (forall n :: n in p.deposits ==> n == p.owner)
      && (forall n :: n in p.deposits && PendingNow(p.deposits[n], current) ==> p.withdrawalsInEpoch == 0)
  }

  ghost predicate Inv(p: Pool, config: Config, current: nat, head: nat) {
    Holdings(p, config, current, head) && Books(p, current) && OwnerStakes(p) && EarlyOk(p, current)
  }

  // ---- Consequences ----

  /** While the owner has not unlocked, a share price can always be built. */
  lemma PriceExists(p: Pool, config: Config, current: nat, head: nat)
    requires Inv(p, config, current, head) && !p.ownerLeft
    ensures 0 < p.totalShares - p.withdrawalsInEpoch
    ensures SharePrice.New(p.totalShares, p.totalStake).Ok?
  {
    TotalAtLeast(p.deposits, ClaimIn(p.prices), p.owner);
  }

  /** No lazy conversion ever misses its price. */
  lemma ConversionsSucceed(p: Pool, config: Config, current: nat, head: nat, n: AccountId)
    requires Inv(p, config, current, head)
    ensures ConvertDeposit(p.prices, DepositOf(p.deposits, n), current).Ok?
    ensures ConvertWithdrawal(p.prices, WithdrawalOf(p.withdrawals, n), current).Ok?
  {}

  // ---- Lazy conversion ----

  /** Lazy conversion is invisible: it changes neither what is claimed nor what is promised. */
  lemma ConvertDepositInvisible(prices: map<nat, nat>, d: Deposit, current: nat)
    requires ConvertDeposit(prices, d, current).Ok?
    ensures var c := ConvertDeposit(prices, d, current).value;
            && Claim(c, prices) == Claim(d, prices)
            && Unpriced(c, prices) == Unpriced(d, prices)
            && StorageDeposit(c) == StorageDeposit(d)
            && (c.pending.Some? ==> c == d && c.pending.value.epoch !in prices)
  {}

  lemma ConvertWithdrawalInvisible(prices: map<nat, nat>, w: Withdrawal, current: nat)
    requires ConvertWithdrawal(prices, w, current).Ok?
    ensures var c := ConvertWithdrawal(prices, w, current).value;
            && Promised(c, prices, current) == Promised(w, prices, current)
            && Open(c, current) == Open(w, current)
            && (c.inShares.Some? ==> c == w && c.inShares.value.epoch >= current)
  {}

  lemma ConvertedQueueOk(prices: map<nat, nat>, w: Withdrawal, current: nat, config: Config, head: nat)
    requires ConvertWithdrawal(prices, w, current).Ok? && QueueOk(w, config, head)
    ensures QueueOk(ConvertWithdrawal(prices, w, current).value, config, head)
  {
    if w.inShares.Some? {
      var c := ConvertWithdrawal(prices, w, current).value;
      if c != w {
        QueueSumsAppend(w.queue, [c.queue[|w.queue|]]);
      }
    }
  }

  lemma {:induction false} QueueSumsAppend(a: seq<InBalance>, b: seq<InBalance>)
    ensures QueueAmount(a + b) == QueueAmount(a) + QueueAmount(b)
    ensures QueueStorageFee(a + b) == QueueStorageFee(a) + QueueStorageFee(b)
  {
    if a == [] {
      assert a + b == b;
    } else {
      assert (a + b)[1..] == a[1..] + b;
      QueueSumsAppend(a[1..], b);
    }
  }
}
