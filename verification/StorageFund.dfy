/** The bundle storage fund of an operator. */
module StorageFund {
  import opened Perquintill

  /** 20 percent of every deposit is reserved for bundle storage. */
  const STORAGE_FEE_RESERVE: nat := 200_000_000_000_000_000

  function Reserve(amount: nat): (fee: nat)
    ensures amount > 0 ==> fee < amount
    ensures fee <= amount
  {
    MulFloorAtMost(STORAGE_FEE_RESERVE, amount);
    MulFloor(STORAGE_FEE_RESERVE, amount)
  }

  /** One part in five of a deposit, rounded down. */
  lemma ReserveIsFifth(amount: nat)
    ensures Reserve(amount) == amount / 5
  {
    assert STORAGE_FEE_RESERVE * 5 == ONE;
    DivBounds(STORAGE_FEE_RESERVE * amount, ONE);
    DivBounds(amount, 5);
  }

  /** The balance redeemed by `deposit` out of a fund of `balance` for deposits of `total`. */
  function Redeem(balance: nat, total: nat, deposit: nat): (r: nat) {
    if balance == total then deposit else MulFloor(FromRational(deposit, total), balance)
  }

  /** A redemption never exceeds the fund, and leaves at least the same balance per deposit to the rest. */
  lemma RedeemIsFair(balance: nat, total: nat, deposit: nat)
    requires deposit <= total
    ensures Redeem(balance, total, deposit) <= balance
    ensures (balance - Redeem(balance, total, deposit)) * total >= balance * (total - deposit)
  {
    var r := Redeem(balance, total, deposit);
    if balance != total {
      MulFloorAtMost(FromRational(deposit, total), balance);
      if total > 0 {
        ProportionBound(deposit, total, balance);
        Distribute(balance - r, r, total);
        Distribute(total - deposit, deposit, balance);
      }
    }
  }

  /** A deposit redeems its part of the fund, to the unit. */
  lemma RedeemIsPart(balance: nat, total: nat, deposit: nat)
    requires deposit <= total && total > 0
    ensures IsPart(Redeem(balance, total, deposit), balance, deposit, total)
  {
    if balance == total {
      MulSwap(total, deposit, ONE);
      MulSwap(deposit, ONE, total);
      Distribute(deposit * ONE, ONE, total);
    } else {
      ProportionIsPart(deposit, total, balance);
    }
  }

  lemma RedeemWithin(balance: nat, total: nat, deposit: nat)
    requires deposit <= total
    ensures Redeem(balance, total, deposit) <= balance
  {
    if balance != total {
      MulFloorAtMost(FromRational(deposit, total), balance);
    }
  }

  /** Redeeming everything empties the fund. */
  lemma RedeemAll(balance: nat, total: nat)
    ensures Redeem(balance, total, total) == balance
  {
    if balance != total {
      if total > 0 {
        DivAtLeast(total * ONE, total, ONE);
      }
      assert FromRational(total, total) == ONE;
      MulFloorOne(balance);
    }
  }

  /** The fund and the deposits left in it after a list of redemptions. */
  function RedeemEach(balance: nat, total: nat, deposits: seq<nat>): (nat, nat) {
    if deposits == [] then (balance, total)
    else
      var k := |deposits| - 1;
      var (b, t) := RedeemEach(balance, total, deposits[..k]);
      var r := Redeem(b, t, deposits[k]);
      (if r <= b then b - r else 0, if deposits[k] <= t then t - deposits[k] else 0)
  }

  function SumOf(deposits: seq<nat>): nat {
    if deposits == [] then 0 else SumOf(deposits[..|deposits| - 1]) + deposits[|deposits| - 1]
  }

  /** Whoever redeems in whatever order, the deposits that stay keep at least their balance per deposit. */
  lemma {:induction false} RedeemEachIsFair(balance: nat, total: nat, deposits: seq<nat>)
    requires SumOf(deposits) <= total
    ensures var (b, t) := RedeemEach(balance, total, deposits);
            t == total - SumOf(deposits) && b * total >= balance * t
  {
    if deposits != [] {
      var k := |deposits| - 1;
      RedeemEachIsFair(balance, total, deposits[..k]);
      var (b, t) := RedeemEach(balance, total, deposits[..k]);
      RedeemOneMore(balance, total, b, t, deposits[k]);
    }
  }

  lemma RedeemOneMore(balance: nat, total: nat, b: nat, t: nat, deposit: nat)
    requires deposit <= t && b * total >= balance * t
    ensures Redeem(b, t, deposit) <= b && (b - Redeem(b, t, deposit)) * total >= balance * (t - deposit)
  {
    RedeemIsFair(b, t, deposit);
    if t > 0 {
      RatioTrans(total, balance, t, b, t - deposit, b - Redeem(b, t, deposit));
    }
  }
}
