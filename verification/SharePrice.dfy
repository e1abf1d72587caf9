/** The share price of an operator pool: shares per unit of stake, never above one. */
module SharePrice {
  import opened Perquintill
  import opened StakingTypes

  function New(shares: nat, stake: nat): (r: Result<nat>)
    ensures r.Ok? <==> 0 < shares <= stake
  {
    if shares > stake then Err(ShareOverflow)
    else if stake == 0 || shares == 0 then Err(ZeroSharePrice)
    else Ok(FromRational(shares, stake))
  }

  /** The number of shares per unit of stake, rounded down. */
  lemma NewIsRatio(shares: nat, stake: nat)
    requires New(shares, stake).Ok?
    ensures var price := New(shares, stake).value;
            price * stake <= shares * ONE < (price + 1) * stake
  {
    DivBounds(shares * ONE, stake);
  }

  function One(): (p: nat) { ONE }

  function StakeToShares(price: nat, stake: nat): (shares: nat) { MulFloor(price, stake) }

  function SharesToStake(price: nat, shares: nat): (stake: nat) {
    ReciprocalMulFloor(PlusEpsilon(price), shares)
  }

  ghost predicate IsPriceOf(price: nat, shares: nat, stake: nat) {
    0 < shares <= stake && price == FromRational(shares, stake)
  }

  /** Deposits buy at most their proportional number of shares. */
  lemma StakeToSharesBound(price: nat, shares: nat, stake: nat, a: nat)
    requires IsPriceOf(price, shares, stake)
    ensures StakeToShares(price, a) * stake <= a * shares
  {
    ProportionBound(shares, stake, a);
  }

  /** The stored price and the one-unit-higher price used for withdrawals enclose `shares / stake`. */
  lemma PriceBrackets(price: nat, shares: nat, stake: nat)
    requires IsPriceOf(price, shares, stake)
    ensures price * stake <= shares * ONE <= PlusEpsilon(price) * stake
    ensures PlusEpsilon(price) * stake <= shares * ONE + stake
  {
    DivBounds(shares * ONE, stake);
    if price < ONE {
      Distribute(price, 1, stake);
    } else {
      assert price == ONE;
      CancelMul(stake, shares, ONE);
    }
  }

  /** Withdrawn shares pay at most their proportional amount of stake. */
  lemma SharesToStakeBound(price: nat, shares: nat, stake: nat, s: nat)
    requires IsPriceOf(price, shares, stake)
    ensures SharesToStake(price, s) * shares <= s * stake
  {
    var e := PlusEpsilon(price);
    var y := SharesToStake(price, s);
    PriceBrackets(price, shares, stake);
    assert y * e <= s * ONE by { DivBounds(s * ONE, e); }
    calc {
      y * shares * ONE;
      == { MulSwap(y, shares, ONE); MulSwap(shares, ONE, y); }
      shares * ONE * y;
      <= { MulMono(shares * ONE, e * stake, y); }
      e * stake * y;
      == { MulSwap(e, stake, y); MulSwap(y, e, stake); }
      y * e * stake;
      <= { MulMono(y * e, s * ONE, stake); }
      s * ONE * stake;
      == { MulSwap(s, ONE, stake); }
      s * stake * ONE;
    }
    CancelMul(y * shares, s * stake, ONE);
  }

  /** The more stake stands behind the shares, the more they sell for. */
  lemma MoreStakeSellsBetter(shares: nat, stake: nat, more: nat, s: nat)
    requires 0 < shares <= stake <= more
    ensures SharesToStake(FromRational(shares, stake), s) <= SharesToStake(FromRational(shares, more), s)
  {
    DivAntitone(shares * ONE, stake, more);
    DivAntitone(s * ONE, PlusEpsilon(FromRational(shares, more)), PlusEpsilon(FromRational(shares, stake)));
  }

  /** Rounding loses less than one share and one part in 10^18 of the deposit. */
  lemma StakeToSharesDust(price: nat, shares: nat, stake: nat, a: nat)
    requires IsPriceOf(price, shares, stake)
    ensures a * shares * ONE < (StakeToShares(price, a) + 1) * ONE * stake + a * stake
  {
    ProportionIsPart(shares, stake, a);
  }

  lemma SharesToStakeDust(price: nat, shares: nat, stake: nat, s: nat)
    requires IsPriceOf(price, shares, stake)
    ensures s * ONE * stake < (SharesToStake(price, s) + 1) * (shares * ONE + stake)
  {
    var e := PlusEpsilon(price);
    var y := SharesToStake(price, s);
    PriceBrackets(price, shares, stake);
    assert s * ONE < (y + 1) * e by { DivBounds(s * ONE, e); }
    calc {
      s * ONE * stake;
      < { MulMonoStrict(s * ONE, (y + 1) * e, stake); }
      (y + 1) * e * stake;
      == { MulSwap(y + 1, e, stake); MulSwap(e, stake, y + 1); }
      e * stake * (y + 1);
      <= { MulMono(e * stake, shares * ONE + stake, y + 1); }
      (shares * ONE + stake) * (y + 1);
    }
  }

  /** `y` is the stake of `s` out of `shares`, rounded down. */
  ghost predicate IsSale(y: nat, s: nat, shares: nat, stake: nat) {
    y * shares <= s * stake && s * ONE * stake < (y + 1) * (shares * ONE + stake)
  }

  lemma SharesToStakeIsSale(price: nat, shares: nat, stake: nat, s: nat)
    requires IsPriceOf(price, shares, stake)
    ensures IsSale(SharesToStake(price, s), s, shares, stake)
  {
    SharesToStakeBound(price, shares, stake, s);
    SharesToStakeDust(price, shares, stake, s);
  }

  /** Buying shares and selling them back at the same price never gains anything. */
  lemma BuyThenSell(price: nat, shares: nat, stake: nat, a: nat)
    requires IsPriceOf(price, shares, stake)
    ensures SharesToStake(price, StakeToShares(price, a)) <= a
  {
    var x := StakeToShares(price, a);
    StakeToSharesBound(price, shares, stake, a);
    SharesToStakeBound(price, shares, stake, x);
    CancelMul(SharesToStake(price, x), a, shares);
  }

  lemma SellThenBuy(price: nat, shares: nat, stake: nat, s: nat)
    requires IsPriceOf(price, shares, stake)
    ensures StakeToShares(price, SharesToStake(price, s)) <= s
  {
    var y := SharesToStake(price, s);
    SharesToStakeBound(price, shares, stake, s);
    StakeToSharesBound(price, shares, stake, y);
    CancelMul(StakeToShares(price, y), s, stake);
  }

  lemma StakeToSharesSuperadditive(price: nat, a: nat, b: nat)
    ensures StakeToShares(price, a) + StakeToShares(price, b) <= StakeToShares(price, a + b)
  {
    MulFloorSuperadditive(price, a, b);
  }

  lemma SharesToStakeSuperadditive(price: nat, a: nat, b: nat)
    ensures SharesToStake(price, a) + SharesToStake(price, b) <= SharesToStake(price, a + b)
  {
    ReciprocalSuperadditive(PlusEpsilon(price), a, b);
  }

  /** Selling part of the pool leaves enough: no underflow, and stake per share does not fall. */
  lemma SellKeepsRatio(price: nat, shares: nat, stake: nat, s: nat)
    requires IsPriceOf(price, shares, stake) && s <= shares
    ensures SharesToStake(price, s) <= stake
    ensures (stake - SharesToStake(price, s)) * shares >= stake * (shares - s)
    ensures stake - SharesToStake(price, s) >= shares - s
  {
    var y := SharesToStake(price, s);
    SharesToStakeBound(price, shares, stake, s);
    assert s * stake <= shares * stake by { MulMono(s, shares, stake); }
    CancelMul(y, stake, shares);
    Distribute(stake - y, y, shares);
    Distribute(shares - s, s, stake);
    assert (stake - y) * shares >= stake * (shares - s);
    calc {
      (stake - y) * shares;
      >= stake * (shares - s);
      >= { MulMono(shares, stake, shares - s); }
      shares * (shares - s);
    }
    CancelMul(shares - s, stake - y, shares);
  }

  /** Buying into the pool does not lower stake per share. */
  lemma BuyKeepsRatio(price: nat, shares: nat, stake: nat, a: nat)
    requires IsPriceOf(price, shares, stake)
    ensures (stake + a) * shares >= stake * (shares + StakeToShares(price, a))
    ensures StakeToShares(price, a) <= a
  {
    var x := StakeToShares(price, a);
    StakeToSharesBound(price, shares, stake, a);
    Distribute(stake, a, shares);
    Distribute(shares, x, stake);
    MulFloorAtMost(price, a);
  }
}
