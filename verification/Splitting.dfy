/** Splitting an amount in proportion to weights, rounding every share down. */
module Splitting {
  import opened MapSums
  import opened Perquintill

  function Share(weight: nat, total: nat, amount: nat): nat { MulFloor(FromRational(weight, total), amount) }

  /** A share is the proportional part of the amount, to the unit. */
  lemma ShareIsPart(weight: nat, total: nat, amount: nat)
    requires weight <= total && total > 0
    ensures IsPart(Share(weight, total, amount), amount, weight, total)
  {
    ProportionIsPart(weight, total, amount);
  }

  function ShareOf(total: nat, amount: nat): nat -> nat { w => Share(w, total, amount) }

  ghost function Itself(): nat -> nat { w => w }

  lemma {:induction false} SharesProportional<K>(weights: map<K, nat>, total: nat, amount: nat, keys: set<K>)
    requires total > 0 && forall k :: k in weights ==> weights[k] <= total
    ensures TotalOver(weights, ShareOf(total, amount), keys) * total <= amount * TotalOver(weights, Itself(), keys)
  {
    if keys != {} {
      var k :| k in keys;
      SharesProportional(weights, total, amount, keys - {k});
      TotalOverPick(weights, ShareOf(total, amount), keys, k);
      TotalOverPick(weights, Itself(), keys, k);
      ShareProportional(weights, total, amount, k);
      AddProportions(ValueAt(weights, ShareOf(total, amount), k), ValueAt(weights, Itself(), k),
                     TotalOver(weights, ShareOf(total, amount), keys - {k}), TotalOver(weights, Itself(), keys - {k}),
                     total, amount);
    }
  }

  lemma ShareProportional<K>(weights: map<K, nat>, total: nat, amount: nat, k: K)
    requires total > 0 && (k in weights ==> weights[k] <= total)
    ensures ValueAt(weights, ShareOf(total, amount), k) * total <= amount * ValueAt(weights, Itself(), k)
  {
    if k in weights {
      ProportionBound(weights[k], total, amount);
    }
  }

  lemma AddProportions(s1: nat, w1: nat, s2: nat, w2: nat, total: nat, amount: nat)
    requires s1 * total <= amount * w1 && s2 * total <= amount * w2
    ensures (s1 + s2) * total <= amount * (w1 + w2)
  {
    Distribute(s1, s2, total);
    Distribute(w1, w2, amount);
  }

  /** The shares of any weights that sum to at most `total` never exceed the amount split. */
  lemma SharesWithin<K>(weights: map<K, nat>, total: nat, amount: nat)
    requires Total(weights, Itself()) <= total
    ensures total > 0 || weights.Keys == {} ==> Total(weights, ShareOf(total, amount)) <= amount
  {
    if total > 0 {
      forall k | k in weights
        ensures weights[k] <= total
      {
        TotalAtLeast(weights, Itself(), k);
      }
      SharesProportional(weights, total, amount, weights.Keys);
      var shares, sum := Total(weights, ShareOf(total, amount)), Total(weights, Itself());
      assert amount * sum <= amount * total by { MulMono(sum, total, amount); }
      CancelMul(shares, amount, total);
    }
  }
}
