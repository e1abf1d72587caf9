/** Refunds of bundle storage fees when a block is confirmed, and the treasury that takes what is left. */
module StorageRefund {
  import opened ReceiptTypes
  import opened DomainStaking
  import opened MapSums
  import opened Perquintill
  import opened Splitting
  import EpochTransition
  import opened StakingPallet

  type Amounts = map<OperatorId, nat>

  /** The operators that still exist and paid for storage. */
  function Payers(paid: Amounts, known: set<OperatorId>): Amounts {
    map op | op in paid && op in known && paid[op] != 0 :: paid[op]
  }

  /** The storage funds after a fee is split by the storage paid for, and what goes to the treasury. */
  ghost function Refund(funds: Amounts, fee: nat, paid: Amounts, known: set<OperatorId>): (Amounts, nat) {
    if fee == 0 then (funds, 0)
    else
      var share := ShareOf(Total(paid, Itself()), fee);
      var spent := Total(Payers(paid, known), share);
      (AddShares(funds, Payers(paid, known), share), if spent <= fee then fee - spent else 0)
  }

  lemma PayersWithin(paid: Amounts, known: set<OperatorId>)
    ensures Total(Payers(paid, known), Itself()) <= Total(paid, Itself())
    ensures Total(paid, Itself()) > 0 || Payers(paid, known).Keys == {}
  {
    var w := Payers(paid, known);
    TotalOverUnion(paid, Itself(), w.Keys, paid.Keys - w.Keys);
    assert paid.Keys == w.Keys + (paid.Keys - w.Keys);
    TotalOverSame(paid, Itself(), w, Itself(), w.Keys);
    if op :| op in w {
      TotalAtLeast(w, Itself(), op);
    }
  }

  /** The shares never exceed the fee. */
  lemma RefundWithin(fee: nat, paid: Amounts, known: set<OperatorId>)
    ensures Total(Payers(paid, known), ShareOf(Total(paid, Itself()), fee)) <= fee
  {
    PayersWithin(paid, known);
    SharesWithin(Payers(paid, known), Total(paid, Itself()), fee);
  }

  /** A refund gives every unit of the fee to a storage fund or to the treasury. */
  lemma RefundConserves(funds: Amounts, fee: nat, paid: Amounts, known: set<OperatorId>)
    ensures var (funds', left) := Refund(funds, fee, paid, known);
            Total(funds', Itself()) + left == Total(funds, Itself()) + fee
  {
    RefundWithin(fee, paid, known);
    EpochTransition.AddSharesSum(funds, Payers(paid, known), ShareOf(Total(paid, Itself()), fee));
  }

  /** Every operator that exists and paid for storage gets its part of the fee, and nobody else gets anything. */
  lemma RefundsShared(funds: Amounts, fee: nat, paid: Amounts, known: set<OperatorId>, op: OperatorId)
    ensures var funds' := Refund(funds, fee, paid, known).0;
            && ValueAt(funds, Itself(), op) <= ValueAt(funds', Itself(), op)
            && var rise := ValueAt(funds', Itself(), op) - ValueAt(funds, Itself(), op);
            if op in known && op in paid && paid[op] > 0 then IsPart(rise, fee, paid[op], Total(paid, Itself()))
            else rise == 0
  {
    if op in known && op in paid && paid[op] > 0 {
      TotalAtLeast(paid, Itself(), op);
      ShareIsPart(paid[op], Total(paid, Itself()), fee);
    }
  }

  lemma PartWithin(w: Amounts, f: nat -> nat, part: set<OperatorId>)
    requires part <= w.Keys
    ensures TotalOver(w, f, part) <= Total(w, f)
  {
    TotalOverUnion(w, f, part, w.Keys - part);
    assert w.Keys == part + (w.Keys - part);
  }

  lemma OneMore(w: Amounts, f: nat -> nat, done: set<OperatorId>, op: OperatorId)
    requires op in w && op !in done && done <= w.Keys
    ensures TotalOver(w, f, done + {op}) == TotalOver(w, f, done) + f(w[op]) <= Total(w, f)
  {
    TotalOverAdd(w, f, done, op);
    PartWithin(w, f, done + {op});
  }

  method SumOf(paid: Amounts) returns (sum: nat)
    ensures sum == Total(paid, Itself())
  {
    sum := 0;
    var todo, done := paid.Keys, {};
    while todo != {}
      invariant todo + done == paid.Keys && todo !! done
      invariant sum == TotalOver(paid, Itself(), done)
      decreases todo
    {
      var op :| op in todo;
      OneMore(paid, Itself(), done, op);
      sum := sum + paid[op];
      todo, done := todo - {op}, done + {op};
    }
  }

  /** Takes the shares off the fee operator by operator; `ok` unless the fee runs out. */
  method SplitFee(was: Amounts, fee: nat, w: Amounts, share: nat -> nat) returns (ok: bool, funds: Amounts, left: nat)
    ensures ok <==> Total(w, share) <= fee
    ensures ok ==> funds == AddShares(was, w, share) && left == fee - Total(w, share)
  {
    ok, funds, left := true, was, fee;
    var todo, done := w.Keys, {};
    while todo != {}
      invariant todo + done == w.Keys && todo !! done
      invariant SharesAdded(was, w, share, done, funds)
      invariant left + TotalOver(w, share, done) == fee
      decreases todo
    {
      var op :| op in todo;
      OneMore(w, share, done, op);
      OneShareAdded(was, w, share, done, funds, op);
      funds := funds[op := (if op in funds then funds[op] else 0) + share(w[op])];
      if share(w[op]) > left {
        return false, funds, left;
      }
      left := left - share(w[op]);
      todo, done := todo - {op}, done + {op};
    }
    AllSharesAdded(was, w, share, funds);
  }

  // ---- The treasury ----

  /** `accumulated` waits until the treasury account can take it. */
  datatype Treasury = Treasury(minted: nat, accumulated: nat)

  function MintInto(t: Treasury, amount: nat, canDeposit: bool): Treasury {
    if amount == 0 then t
    else if canDeposit then Treasury(t.minted + t.accumulated + amount, 0)
    else t.(accumulated := t.accumulated + amount)
  }

  function MintAll(t: Treasury, mints: seq<(nat, bool)>): Treasury {
    if mints == [] then t else var k := |mints| - 1; MintInto(MintAll(t, mints[..k]), mints[k].0, mints[k].1)
  }

  function SumOfMints(mints: seq<(nat, bool)>): nat {
    if mints == [] then 0 else var k := |mints| - 1; SumOfMints(mints[..k]) + mints[k].0
  }

  /** Whatever the treasury account could take when, nothing minted for it is lost, and the first deposit that succeeds
      brings everything that was held back. */
  lemma {:induction false} TreasuryLosesNothing(t: Treasury, mints: seq<(nat, bool)>)
    ensures var t' := MintAll(t, mints);
            t'.minted + t'.accumulated == t.minted + t.accumulated + SumOfMints(mints)
    ensures mints != [] && mints[|mints| - 1].0 > 0 && mints[|mints| - 1].1 ==> MintAll(t, mints).accumulated == 0
  {
    if mints != [] {
      TreasuryLosesNothing(t, mints[..|mints| - 1]);
    }
  }

  class Pallet {
    var funds: Amounts
    var treasury: Treasury

    constructor ()
      ensures funds == map[] && treasury == Treasury(0, 0)
    {
      funds, treasury := map[], Treasury(0, 0);
    }

    /** Nothing is lost: what the treasury cannot take now is held back, and all of it goes with the next deposit. */
    method MintIntoTreasury(amount: nat, canDeposit: bool)
      modifies this`treasury
      ensures treasury == MintInto(old(treasury), amount, canDeposit)
      ensures treasury.minted + treasury.accumulated == old(treasury).minted + old(treasury).accumulated + amount
      ensures amount > 0 && canDeposit ==> treasury.accumulated == 0
      ensures !canDeposit ==> treasury.minted == old(treasury).minted
    {
      if amount == 0 {
        return;
      }
      var total := treasury.accumulated + amount;
      if canDeposit {
        treasury := Treasury(treasury.minted + total, 0);
      } else {
        treasury := treasury.(accumulated := total);
      }
    }

    /** Refunds the operators in proportion to the storage they paid for, the rest goes to the treasury. The fee never
        runs out on the way. */
    method RefundStorageFee(fee: nat, paid: Amounts, known: set<OperatorId>, canDeposit: bool) returns (ok: bool)
      modifies this
      ensures ok
      ensures funds == Refund(old(funds), fee, paid, known).0
      ensures treasury == MintInto(old(treasury), Refund(old(funds), fee, paid, known).1, canDeposit)
      ensures Total(funds, Itself()) + treasury.minted + treasury.accumulated
              == old(Total(funds, Itself())) + old(treasury).minted + old(treasury).accumulated + fee
    {
      RefundConserves(funds, fee, paid, known);
      ok := true;
      if fee == 0 {
        return;
      }
      var total := SumOf(paid);
      RefundWithin(fee, paid, known);
      var split, left;
      ok, split, left := SplitFee(funds, fee, Payers(paid, known), ShareOf(total, fee));
      if !ok {
        return;
      }
      funds := split;
      MintIntoTreasury(left, canDeposit);
    }
  }
}
