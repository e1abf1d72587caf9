/** Slashing the nominators of an operator in rounds, in any order. */
module Slashing {
  import opened StakingTypes
  import opened OperatorPool
  import opened PoolInvariant
  import opened MapSums
  import opened Perquintill
  import SharePrice
  import StorageFund

  /** The shares of a withdrawal that was not converted, because its epoch is not over or has no price. */
  ghost function Locked(w: Withdrawal, prices: map<nat, nat>, current: nat): nat {
    InSharesOf(ConvertedWithdrawal(prices, w, current))
  }

  ghost function LockedIn(prices: map<nat, nat>, current: nat): Withdrawal -> nat { w => Locked(w, prices, current) }

  /** What stays true of a pool from the moment its operator is slashed or pending slash. */
  ghost predicate Frozen(p: Pool, current: nat) {
    && (forall n :: n in p.withdrawals ==> n in p.deposits)
    && Total(p.deposits, ClaimIn(p.prices)) + Total(p.withdrawals, LockedIn(p.prices, current))
       <= p.totalShares <= p.totalStake
    && Total(p.deposits, StorageIn()) <= p.totalStorageFee
  }

  // ---- Becoming and staying frozen ----

  lemma LockedIsOpen(w: Withdrawal, prices: map<nat, nat>, config: Config, current: nat, head: nat)
    requires WithdrawalOk(w, prices, config, current, head)
    ensures Locked(w, prices, current) == Open(w, current)
  {}

  /** A sound pool is sound when it freezes. */
  lemma InvFreezes(p: Pool, config: Config, current: nat, head: nat)
    requires Inv(p, config, current, head)
    ensures Frozen(p, current)
  {
    forall n | n in p.withdrawals
      ensures LockedIn(p.prices, current)(p.withdrawals[n]) == OpenAt(current)(p.withdrawals[n])
    {
      LockedIsOpen(p.withdrawals[n], p.prices, config, current, head);
    }
    TotalOverSame(p.withdrawals, LockedIn(p.prices, current), p.withdrawals, OpenAt(current), p.withdrawals.Keys);
  }

  lemma {:induction false} TotalLess<K, V>(m: map<K, V>, f: V -> nat, g: V -> nat, keys: set<K>)
    requires forall v :: f(v) <= g(v)
    ensures TotalOver(m, f, keys) <= TotalOver(m, g, keys)
  {
    if keys != {} {
      var k :| k in keys;
      TotalOverPick(m, f, keys, k);
      TotalOverPick(m, g, keys, k);
      TotalLess(m, f, g, keys - {k});
    }
  }

  /** Later epochs convert more withdrawals and lock fewer shares. */
  lemma FrozenLater(p: Pool, current: nat, later: nat)
    requires Frozen(p, current) && current <= later
    ensures Frozen(p, later)
  {
    TotalLess(p.withdrawals, LockedIn(p.prices, later), LockedIn(p.prices, current), p.withdrawals.Keys);
  }

  // ---- One nominator ----

  /** The pool still has at least the stake per share that it had when the round began. */
  ghost predicate AtLeast(stakeNow: nat, sharesNow: nat, shares: nat, stake: nat) {
    stakeNow * shares >= stake * sharesNow
  }

  lemma SharesClaimed(p: Pool, current: nat, n: AccountId)
    requires Frozen(p, current) && n in p.deposits
    ensures var d := ConvertedDeposit(p.prices, p.deposits[n], current);
            var w := ConvertedWithdrawal(p.prices, WithdrawalOf(p.withdrawals, n), current);
            && d.shares + InSharesOf(w) <= p.totalShares
            && PendingStorageFee(d) <= p.totalStorageFee
            && Total(p.deposits - {n}, ClaimIn(p.prices)) + Total(p.withdrawals - {n}, LockedIn(p.prices, current))
               <= p.totalShares - d.shares - InSharesOf(w)
            && Total(p.deposits - {n}, StorageIn()) <= p.totalStorageFee - PendingStorageFee(d)
  {
    TotalRemove(p.deposits, ClaimIn(p.prices), n);
    TotalRemove(p.deposits, StorageIn(), n);
    TotalRemove(p.withdrawals, LockedIn(p.prices, current), n);
  }

  /** Paying `y` for `s` shares at no more than the starting price keeps that price for the rest. */
  lemma PaysNoMore(t: nat, s0: nat, t0: nat, s: nat, y: nat, x: nat)
    requires 0 < s0 <= t0 && AtLeast(t, s, s0, t0) && y * s0 <= x * t0 && x <= s
    ensures y <= t && AtLeast(t - y, s - x, s0, t0) && t - y >= s - x
  {
    assert x * t0 <= s * t0 by { MulMono(x, s, t0); }
    CancelMul(y, t, s0);
    Distribute(t - y, y, s0);
    Distribute(s - x, x, t0);
    assert (t - y) * s0 >= t0 * (s - x);
    assert s0 * (s - x) <= t0 * (s - x) by { MulMono(s0, t0, s - x); }
    CancelMul(s - x, t - y, s0);
  }

  lemma TakesNoMore(p: Pool, current: nat, price: nat, shares: nat, stake: nat, n: AccountId)
    requires Frozen(p, current) && n in p.deposits && SharePrice.IsPriceOf(price, shares, stake)
    requires AtLeast(p.totalStake, p.totalShares, shares, stake)
    ensures var x := SlashedShares(p, current, n);
            var y := SharePrice.SharesToStake(price, x);
            && x <= p.totalShares && y <= p.totalStake && p.totalShares - x <= p.totalStake - y
            && AtLeast(p.totalStake - y, p.totalShares - x, shares, stake)
  {
    SharesClaimed(p, current, n);
    var x := SlashedShares(p, current, n);
    SharePrice.SharesToStakeBound(price, shares, stake, x);
    PaysNoMore(p.totalStake, shares, stake, p.totalShares, SharePrice.SharesToStake(price, x), x);
  }

  lemma TakeSucceeds(p: Pool, current: nat, n: AccountId, staked: nat)
    requires Frozen(p, current) && n in p.deposits && SlashedShares(p, current, n) <= p.totalShares
    requires staked <= p.totalStake && p.totalShares - SlashedShares(p, current, n) <= p.totalStake - staked
    ensures TakeNominator(p, current, n, staked).Ok?
    ensures var p' := TakeNominator(p, current, n, staked).value;
            && p'.totalShares == p.totalShares - SlashedShares(p, current, n) && p'.totalStake == p.totalStake - staked
            && Frozen(p', current)
  {
    SharesClaimed(p, current, n);
    var d := ConvertedDeposit(p.prices, p.deposits[n], current);
    StorageFund.RedeemWithin(p.fund, p.totalStorageFee, PendingStorageFee(d));
  }

  lemma SlashOneKeeps(p: Pool, current: nat, price: nat, shares: nat, stake: nat, n: AccountId)
    requires Frozen(p, current) && n in p.deposits && SharePrice.IsPriceOf(price, shares, stake)
    requires AtLeast(p.totalStake, p.totalShares, shares, stake)
    ensures SlashNominator(p, current, price, n).Ok?
    ensures var p' := SlashNominator(p, current, price, n).value;
            Frozen(p', current) && AtLeast(p'.totalStake, p'.totalShares, shares, stake)
  {
    TakesNoMore(p, current, price, shares, stake, n);
    TakeSucceeds(p, current, n, SharePrice.SharesToStake(price, SlashedShares(p, current, n)));
  }

  // ---- A round ----

  ghost predicate Distinct(ns: seq<AccountId>) { forall i, j :: 0 <= i < j < |ns| ==> ns[i] != ns[j] }

  /** A round removes exactly the nominators it takes and never changes the status. */
  lemma {:induction false} SlashEachTakes(p: Pool, current: nat, price: nat, ns: seq<AccountId>)
    requires SlashEach(p, current, price, ns).Ok?
    ensures SlashEach(p, current, price, ns).value.status == p.status
    ensures SlashEach(p, current, price, ns).value.deposits == p.deposits - (set n | n in ns)
  {
    if ns != [] {
      var k := |ns| - 1;
      SlashEachTakes(p, current, price, ns[..k]);
      assert ns == ns[..k] + [ns[k]];
      TakenTogether(p.deposits, (set n | n in ns[..k]), ns[k]);
      assert (set n | n in ns) == (set n | n in ns[..k]) + {ns[k]};
    }
  }

  lemma TakenTogether<K, V>(m: map<K, V>, ks: set<K>, k: K)
    ensures m - ks - {k} == m - (ks + {k})
  {}

  lemma {:induction false} SlashEachKeeps(p: Pool, current: nat, price: nat, ns: seq<AccountId>)
    requires Frozen(p, current) && SharePrice.IsPriceOf(price, p.totalShares, p.totalStake)
    requires Distinct(ns) && forall i :: 0 <= i < |ns| ==> ns[i] in p.deposits
    ensures SlashEach(p, current, price, ns).Ok?
    ensures var p' := SlashEach(p, current, price, ns).value;
            Frozen(p', current) && AtLeast(p'.totalStake, p'.totalShares, p.totalShares, p.totalStake)
  {
    if ns != [] {
      var k := |ns| - 1;
      assert forall i :: 0 <= i < k ==> ns[..k][i] == ns[i];
      SlashEachKeeps(p, current, price, ns[..k]);
      SlashEachTakes(p, current, price, ns[..k]);
      assert ns[k] !in ns[..k];
      SlashOneKeeps(SlashEach(p, current, price, ns[..k]).value, current, price, p.totalShares, p.totalStake, ns[k]);
    }
  }

  /** However many nominators are taken in a round and in whatever order, the round succeeds exactly when the pool has
      shares to build a price from; those who remain keep at least their stake per share. */
  lemma SlashBatchSucceeds(p: Pool, current: nat, ns: seq<AccountId>)
    requires Frozen(p, current) && Distinct(ns) && forall i :: 0 <= i < |ns| ==> ns[i] in p.deposits
    ensures SlashBatch(p, current, ns).Ok? <==> p.totalShares > 0
    ensures SlashBatch(p, current, ns).Ok? ==>
              var p' := SlashBatch(p, current, ns).value;
              && Frozen(p', current) && AtLeast(p'.totalStake, p'.totalShares, p.totalShares, p.totalStake)
              && p'.status == p.status && p'.deposits == p.deposits - (set n | n in ns)
  {
    if p.totalShares > 0 {
      var price := SharePrice.New(p.totalShares, p.totalStake).value;
      SlashEachKeeps(p, current, price, ns);
      SlashEachTakes(p, current, price, ns);
    }
  }

  // ---- Nothing is slashed that was not put in ----

  /** The stake owed to a withdrawer once the epoch of its request is over. */
  ghost function Due(w: Withdrawal, prices: map<nat, nat>): nat {
    w.total + if w.inShares.Some? && w.inShares.value.epoch in prices
              then SharePrice.SharesToStake(prices[w.inShares.value.epoch], w.inShares.value.shares) else 0
  }

  ghost function DueIn(prices: map<nat, nat>): Withdrawal -> nat { w => Due(w, prices) }

  /** Whatever epoch it is: stake, what withdrawers are owed and what was paid out or slashed came from deposits and
      net rewards. */
  ghost predicate Funded(p: Pool) {
    p.totalStake + Total(p.withdrawals, DueIn(p.prices)) + p.released <= p.credited
  }

  lemma DueIsPromised(w: Withdrawal, prices: map<nat, nat>, config: Config, current: nat, head: nat)
    requires WithdrawalOk(w, prices, config, current, head)
    ensures current !in prices || Open(w, current) == 0 ==> Due(w, prices) == Promised(w, prices, current)
    ensures current in prices && prices[current] == SharePrice.One() ==>
              Due(w, prices) == Promised(w, prices, current) + Open(w, current)
  {
    if w.inShares.Some? {
      MulFloorOne(w.inShares.value.shares);
    }
  }

  lemma {:induction false} DueTotal(p: Pool, config: Config, current: nat, head: nat, ns: set<AccountId>)
    requires Holdings(p, config, current, head) && current in p.prices && p.prices[current] == SharePrice.One()
    ensures TotalOver(p.withdrawals, DueIn(p.prices), ns)
            == TotalOver(p.withdrawals, PromisedIn(p.prices, current), ns)
               + TotalOver(p.withdrawals, OpenAt(current), ns)
  {
    if ns != {} {
      var n :| n in ns;
      DueTotal(p, config, current, head, ns - {n});
      TotalOverPick(p.withdrawals, DueIn(p.prices), ns, n);
      TotalOverPick(p.withdrawals, PromisedIn(p.prices, current), ns, n);
      TotalOverPick(p.withdrawals, OpenAt(current), ns, n);
      if n in p.withdrawals {
        DueIsPromised(p.withdrawals[n], p.prices, config, current, head);
      }
    }
  }

  /** A pool is funded when it freezes, unless a withdrawal of its registration epoch is open: that epoch has a price
      although the shares have not been burnt. */
  lemma FreezesFunded(p: Pool, config: Config, current: nat, head: nat)
    requires Inv(p, config, current, head)
    ensures Funded(p) <==> (current in p.prices ==> p.withdrawalsInEpoch == 0)
  {
    if current in p.prices {
      DueTotal(p, config, current, head, p.withdrawals.Keys);
    } else {
      forall n | n in p.withdrawals
        ensures DueIn(p.prices)(p.withdrawals[n]) == PromisedIn(p.prices, current)(p.withdrawals[n])
      {
        DueIsPromised(p.withdrawals[n], p.prices, config, current, head);
      }
      TotalOverSame(p.withdrawals, DueIn(p.prices), p.withdrawals, PromisedIn(p.prices, current), p.withdrawals.Keys);
    }
  }

  lemma TakesWhatIsDue(w: Withdrawal, prices: map<nat, nat>, current: nat)
    ensures ConvertedWithdrawal(prices, w, current).total <= Due(w, prices)
  {}

  lemma TakeKeepsFunded(p: Pool, p': Pool, current: nat, n: AccountId, staked: nat)
    requires Funded(p) && TakeNominator(p, current, n, staked) == Ok(p')
    ensures Funded(p')
  {
    TakesWhatIsDue(WithdrawalOf(p.withdrawals, n), p.prices, current);
    TotalRemove(p.withdrawals, DueIn(p.prices), n);
  }

  /** Slashing takes no more than what there is, whoever it takes. */
  lemma {:induction false} SlashEachKeepsFunded(p: Pool, current: nat, price: nat, ns: seq<AccountId>)
    requires Funded(p) && SlashEach(p, current, price, ns).Ok?
    ensures Funded(SlashEach(p, current, price, ns).value)
  {
    if ns != [] {
      var k := |ns| - 1;
      SlashEachKeepsFunded(p, current, price, ns[..k]);
      var q := SlashEach(p, current, price, ns[..k]).value;
      var staked := SharePrice.SharesToStake(price, SlashedShares(q, current, ns[k]));
      TakeKeepsFunded(q, SlashEach(p, current, price, ns).value, current, ns[k], staked);
    }
  }
}
