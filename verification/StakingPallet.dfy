/** The staking storage of one domain and the calls that change it step by step. */
module StakingPallet {
  import opened ReceiptTypes
  import opened StakingTypes
  import opened OperatorPool
  import opened DomainStaking
  import opened StakingRuns
  import opened MapSums
  import opened Splitting
  import DomainInvariant
  import EpochLoops
  import EpochTransition
  import Payments
  import PoolRules
  import SharePrice
  import SlashRuns
  import Slashing
  import StakingRefusals

  /** Pops the matured entries off the front of a withdrawal queue, adding up what they release. */
  method PopMatured(queue: seq<InBalance>, head: nat) returns (rest: seq<InBalance>, amount: nat, storageFee: nat)
    ensures rest == queue[MaturedCount(queue, head)..]
    ensures amount == QueueAmount(queue[..MaturedCount(queue, head)])
    ensures storageFee == QueueStorageFee(queue[..MaturedCount(queue, head)])
  {
    rest, amount, storageFee := queue, 0, 0;
    ghost var k := 0;
    while rest != [] && rest[0].unlockAt <= head
      invariant k <= |queue| && rest == queue[k..]
      invariant MaturedCount(queue, head) == k + MaturedCount(rest, head)
      invariant amount == QueueAmount(queue[..k])
      invariant storageFee == QueueStorageFee(queue[..k])
      decreases |rest|
    {
      AmountsSnoc(queue, k);
      amount := amount + rest[0].amount;
      storageFee := storageFee + rest[0].storageFee;
      rest := rest[1..];
      k := k + 1;
    }
  }

  lemma {:induction false} AmountsSnoc(queue: seq<InBalance>, k: nat)
    requires k < |queue|
    ensures QueueAmount(queue[..k + 1]) == QueueAmount(queue[..k]) + queue[k].amount
    ensures QueueStorageFee(queue[..k + 1]) == QueueStorageFee(queue[..k]) + queue[k].storageFee
  {
    if k > 0 {
      assert queue[..k + 1][1..] == queue[1..][..k] && queue[..k][1..] == queue[1..][..k - 1];
      AmountsSnoc(queue[1..], k - 1);
    }
  }

  /** Counts how often each operator occurs. */
  method CountOccurrences(ids: seq<OperatorId>) returns (weights: map<OperatorId, nat>)
    ensures weights == Weights(ids)
  {
    weights := map[];
    for i := 0 to |ids|
      invariant weights == Weights(ids[..i])
    {
      var id := ids[i];
      assert ids[..i + 1] == ids[..i] + [id];
      weights := weights[id := (if id in weights then weights[id] else 0) + 1];
    }
    assert ids[..|ids|] == ids;
  }

  /** The operators of `done` have got their share. */
  ghost predicate SharesAdded(was: map<OperatorId, nat>, weights: map<OperatorId, nat>, share: nat -> nat,
                              done: set<OperatorId>, rewards: map<OperatorId, nat>)
  {
    && done <= weights.Keys && rewards.Keys == was.Keys + done
    && (forall id :: id in rewards ==>
         rewards[id] == (if id in was then was[id] else 0) + (if id in done then share(weights[id]) else 0))
  }

  lemma OneShareAdded(was: map<OperatorId, nat>, weights: map<OperatorId, nat>, share: nat -> nat,
                      done: set<OperatorId>, rewards: map<OperatorId, nat>, id: OperatorId)
    requires SharesAdded(was, weights, share, done, rewards) && id in weights && id !in done
    ensures SharesAdded(was, weights, share, done + {id},
                        rewards[id := (if id in rewards then rewards[id] else 0) + share(weights[id])])
  {}

  lemma AllSharesAdded(was: map<OperatorId, nat>, weights: map<OperatorId, nat>, share: nat -> nat,
                       rewards: map<OperatorId, nat>)
    requires SharesAdded(was, weights, share, weights.Keys, rewards)
    ensures rewards == AddShares(was, weights, share)
  {}

  /** Adds the share of each operator to what it has. */
  method AddRewardShares(was: map<OperatorId, nat>, weights: map<OperatorId, nat>, share: nat -> nat)
    returns (rewards: map<OperatorId, nat>, handedOut: nat)
    ensures rewards == AddShares(was, weights, share)
    ensures handedOut == Total(weights, share)
  {
    rewards, handedOut := was, 0;
    var todo, done := weights.Keys, {};
    while todo != {}
      invariant todo + done == weights.Keys && todo !! done
      invariant SharesAdded(was, weights, share, done, rewards)
      invariant handedOut == TotalOver(weights, share, done)
      decreases todo
    {
      var id :| id in todo;
      TotalOverAdd(weights, share, done, id);
      OneShareAdded(was, weights, share, done, rewards, id);
      rewards := rewards[id := (if id in rewards then rewards[id] else 0) + share(weights[id])];
      handedOut := handedOut + share(weights[id]);
      todo, done := todo - {id}, done + {id};
    }
    AllSharesAdded(was, weights, share, rewards);
  }

  /** Unlocks the matured withdrawals of one nominator. */
  method UnlockFromPool(was: Pool, epoch: nat, head: nat, pendingSlash: bool, n: AccountId) returns (r: Result<Pool>)
    ensures r == OperatorPool.UnlockFunds(was, epoch, head, pendingSlash, n)
  {
    var p := was;
    if !RegisteredOrDeactivated(StatusOf(p.status, pendingSlash)) {
      return Err(OperatorNotRegisteredOrDeactivated);
    }
    if n !in p.withdrawals {
      return Err(MissingWithdrawal);
    }
    var w :- ConvertWithdrawal(p.prices, p.withdrawals[n], epoch);
    if w.queue == [] {
      return Err(MissingWithdrawal);
    }
    var rest, amount, storageFee := PopMatured(w.queue, head);
    if amount == 0 && storageFee == 0 {
      return Err(UnlockPeriodNotComplete);
    }
    if amount > w.total || storageFee > w.totalStorageFee {
      return Err(BalanceUnderflow);
    }
    w := w.(total := w.total - amount, totalStorageFee := w.totalStorageFee - storageFee, queue := rest);
    p := p.(released := p.released + amount, storageOut := p.storageOut + storageFee);
    if w.queue == [] && w.inShares.None? {
      assert n !in p.deposits ==> p.deposits - {n} == p.deposits;
      p := p.(withdrawals := p.withdrawals - {n});
      if n in p.deposits && p.deposits[n].shares == 0 && p.deposits[n].pending.None? {
        p := p.(deposits := p.deposits - {n});
      }
    } else {
      p := p.(withdrawals := p.withdrawals[n := w]);
    }
    return Ok(p);
  }

  /** Slashes nominators of one operator, in no particular order, until all or at least `max` are slashed. */
  method DrainPool(p: Pool, current: nat, max: nat) returns (r: Result<Pool>, ns: seq<AccountId>)
    ensures r == SlashBatch(p, current, ns) && Slashing.Distinct(ns)
    ensures forall i :: 0 <= i < |ns| ==> ns[i] in p.deposits
    ensures r.Ok? ==> r.value.deposits == map[] || |ns| >= max
    ensures |ns| <= max || |ns| <= 1
  {
    ns := [];
    var price := SharePrice.New(p.totalShares, p.totalStake);
    if price.Err? {
      return Err(price.error), ns;
    }
    var q := p;
    while q.deposits != map[]
      invariant SlashEach(p, current, price.value, ns) == Ok(q) && Slashing.Distinct(ns)
      invariant q.deposits.Keys <= p.deposits.Keys
      invariant forall i :: 0 <= i < |ns| ==> ns[i] in p.deposits && ns[i] !in q.deposits
      invariant |ns| < max || ns == []
      decreases q.deposits.Keys
    {
      assert q.deposits.Keys != {};
      var n :| n in q.deposits;
      assert (ns + [n])[..|ns|] == ns;
      var step := SlashNominator(q, current, price.value, n);
      ns := ns + [n];
      if step.Err? {
        return Err(step.error), ns;
      }
      q := step.value;
      if |ns| >= max {
        break;
      }
    }
    r := Ok(q);
  }

  datatype StakingSummary = StakingSummary(
    epoch: nat, totalStake: nat, current: map<OperatorId, nat>, next: set<OperatorId>, rewards: map<OperatorId, nat>)

  /** The summary without an operator of the given stake, unless the stake of the domain would underflow. */
  function Without(s: StakingSummary, id: OperatorId, stake: nat): Option<StakingSummary> {
    if id in s.current && s.totalStake < stake then None
    else Some(s.(totalStake := if id in s.current then s.totalStake - stake else s.totalStake,
                 current := s.current - {id}, next := s.next - {id}))
  }

  class Pallet {
    const config: Config
    var operators: map<OperatorId, Pool>
    var nextId: nat
    var summary: StakingSummary
    var deregistered: set<OperatorId>
    var deactivated: set<OperatorId>
    var invalidAuthors: set<OperatorId>
    var pendingSlashes: set<OperatorId>
    var pendingSlash: set<OperatorId>
    var head: nat
    var treasury: nat

    function State(): Domain
      reads this
    {
      Domain(operators, nextId, summary.epoch, summary.totalStake, summary.current, summary.next, summary.rewards,
             deregistered, deactivated, invalidAuthors, pendingSlashes, pendingSlash, head, treasury)
    }

    /** Every live pool is sound, every other one frozen, and the operator sets agree with the operators. */
    ghost predicate Valid()
      reads this
    {
      DomainInvariant.ConfigOk(config) && SlashRuns.AllOk(State(), config)
    }

    constructor (c: Config)
      ensures config == c && State() == EmptyDomain()
      ensures DomainInvariant.ConfigOk(c) ==> Valid()
    {
      config := c;
      operators, nextId, summary := map[], 0, StakingSummary(0, 0, map[], {}, map[]);
      deregistered, deactivated, invalidAuthors, pendingSlashes, pendingSlash := {}, {}, {}, {}, {};
      head, treasury := 0, 0;
    }

    /** A new operator has an id never used before, and the whole amount is staked or reserved for storage. */
    method RegisterOperator(owner: AccountId, amount: nat, minNominatorStake: nat, tax: Percent)
      returns (r: Result<OperatorId>)
      modifies this
      ensures match DomainStaking.Register(old(State()), config, owner, amount, minNominatorStake, tax)
              case Ok(d) => r.Ok? && State() == d
              case Err(e) => r == Err(e) && State() == old(State())
      ensures old(Valid()) ==> Valid()
      ensures r.Ok? ==>
                && r.value in operators
                && operators[r.value].totalStake + operators[r.value].totalStorageFee == amount
                && operators[r.value].owner == owner && operators[r.value].tax == tax
                && operators[r.value].minNominatorStake == minNominatorStake
      ensures old(Valid()) && r.Ok? ==> r.value !in old(operators)
    {
      if old(Valid()) {
        SlashRuns.RegisterOutcome(State(), config, owner, amount, minNominatorStake, tax);
      }
      r := AddOperator(owner, amount, minNominatorStake, tax);
    }

    method AddOperator(owner: AccountId, amount: nat, minNominatorStake: nat, tax: Percent)
      returns (r: Result<OperatorId>)
      modifies this
      ensures match DomainStaking.Register(old(State()), config, owner, amount, minNominatorStake, tax)
              case Ok(d) => r == Ok(old(nextId)) && State() == d
              case Err(e) => r == Err(e) && State() == old(State())
    {
      if amount < config.minOperatorStake {
        return Err(MinimumOperatorStake);
      }
      var id := nextId;
      nextId := id + 1;
      operators := operators[id := OperatorPool.Register(owner, amount, minNominatorStake, tax, summary.epoch)];
      summary := summary.(next := summary.next + {id});
      return Ok(id);
    }

    /** The whole amount waits for the end of the epoch or is reserved for storage. The pool stays sound exactly when
        this is not the epoch in which the operator registered. */
    method NominateOperator(id: OperatorId, n: AccountId, amount: nat) returns (failed: Option<Error>)
      modifies this
      ensures match DomainStaking.Nominate(old(State()), id, n, amount)
              case Ok(d) => failed.None? && State() == d
              case Err(e) => failed == Some(e) && State() == old(State())
      ensures old(Valid()) ==> (Valid() <==> failed.Some? || Timely(old(State()), NominateStep(id, n, amount)))
      ensures old(Valid()) && failed.Some? ==>
                failed.value in {ZeroDeposit, UnknownOperator, OperatorNotRegistered, MinimumNominatorStake}
      ensures failed.None? ==>
                && id in old(operators) && id in operators
                && operators[id].depositsInEpoch + operators[id].totalStorageFee
                   == old(operators)[id].depositsInEpoch + old(operators)[id].totalStorageFee + amount
    {
      if old(Valid()) {
        StakingRefusals.NominateRefused(State(), config, id, n, amount);
      }
      if amount == 0 {
        return Some(ZeroDeposit);
      }
      if id !in operators {
        return Some(UnknownOperator);
      }
      var r := OperatorPool.Nominate(operators[id], summary.epoch, id in pendingSlash, n, amount);
      if r.Err? {
        return Some(r.error);
      }
      PoolRules.NominatePaysIn(operators[id], r.value, summary.epoch, id in pendingSlash, n, amount);
      operators := operators[id := r.value];
      failed := None;
      if old(Valid()) {
        SlashRuns.StepKeepsAll(old(State()), State(), config, NominateStep(id, n, amount));
      }
    }

    /** No stake leaves the pool yet, and what leaves the storage fund is held for the withdrawer. The call never fails
        for want of a price or of storage balance. */
    method WithdrawStake(id: OperatorId, n: AccountId, shares: nat) returns (failed: Option<Error>)
      modifies this
      ensures match DomainStaking.Withdraw(old(State()), config, id, n, shares)
              case Ok(d) => failed.None? && State() == d
              case Err(e) => failed == Some(e) && State() == old(State())
      ensures old(Valid()) ==> Valid()
      ensures old(Valid()) && failed.Some? ==>
                failed.value in {ZeroWithdraw, UnknownOperator, OperatorNotRegisteredOrDeactivated, UnknownNominator,
                                 TooManyWithdrawals, InsufficientShares, MinimumOperatorStake, MinimumNominatorStake}
      ensures failed.None? ==>
                id in old(operators) && id in operators && Payments.Refunded(old(operators)[id], operators[id], n)
    {
      if old(Valid()) {
        StakingRefusals.WithdrawRefused(State(), config, id, n, shares);
      }
      if shares == 0 {
        return Some(ZeroWithdraw);
      }
      if id !in operators {
        return Some(UnknownOperator);
      }
      var rewards := if id in summary.rewards then Some(summary.rewards[id]) else None;
      var r := OperatorPool.Withdraw(operators[id], config, summary.epoch, head, id in pendingSlash, rewards, n,
                                     shares);
      if r.Err? {
        return Some(r.error);
      }
      ghost var d, taken := Payments.WithdrawPays(operators[id], r.value, config, summary.epoch, head,
                                                  id in pendingSlash, rewards, n, shares);
      if r.value.status.Deactivated? {
        deactivated := deactivated + {id};
      }
      operators := operators[id := r.value];
      failed := None;
      if old(Valid()) {
        SlashRuns.StepKeepsAll(old(State()), State(), config, WithdrawStep(id, n, shares));
      }
    }

    /** Succeeds exactly for a nominator of a deregistered pool with shares, from the unlock block on. */
    method UnlockNominator(id: OperatorId, n: AccountId) returns (failed: Option<Error>)
      modifies this
      ensures match DomainStaking.UnlockNominator(old(State()), id, n)
              case Ok(d) => failed.None? && State() == d
              case Err(e) => failed == Some(e) && State() == old(State())
      ensures old(Valid()) ==> (Valid() <==> failed.Some? || DomainInvariant.CanLeave(old(State()), id, n))
      ensures old(Valid()) ==> (failed.None? <==> StakingRefusals.MayLeave(old(State()), id, n))
    {
      if old(Valid()) {
        SlashRuns.LeaveOutcome(State(), config, id, n);
      }
      failed := PayLeaver(id, n);
    }

    method PayLeaver(id: OperatorId, n: AccountId) returns (failed: Option<Error>)
      modifies this
      ensures match DomainStaking.UnlockNominator(old(State()), id, n)
              case Ok(d) => failed.None? && State() == d
              case Err(e) => failed == Some(e) && State() == old(State())
    {
      if id !in operators {
        return Some(UnknownOperator);
      }
      var r := OperatorPool.UnlockNominator(operators[id], summary.epoch, head, id in pendingSlash, n);
      if r.Err? {
        return Some(r.error);
      }
      if r.value.deposits == map[] && r.value.withdrawals == map[] {
        operators := operators - {id};
        treasury := treasury + r.value.totalStake + r.value.fund;
      } else {
        operators := operators[id := r.value];
      }
      failed := None;
    }

    /** A deregistered operator leaves the next operator set but stays in that of the running epoch. */
    method DeregisterOperator(who: AccountId, id: OperatorId) returns (failed: Option<Error>)
      modifies this
      ensures match Deregister(old(State()), config, who, id)
              case Ok(d) => failed.None? && State() == d
              case Err(e) => failed == Some(e) && State() == old(State())
      ensures old(Valid()) ==> Valid()
      ensures failed.None? ==> id !in summary.next && summary.current == old(summary.current)
    {
      failed := SetDeregistered(who, id);
      if old(Valid()) && failed.None? {
        SlashRuns.StepKeepsAll(old(State()), State(), config, DeregisterStep(who, id));
      }
    }

    method SetDeregistered(who: AccountId, id: OperatorId) returns (failed: Option<Error>)
      modifies this
      ensures match Deregister(old(State()), config, who, id)
              case Ok(d) => failed.None? && State() == d
              case Err(e) => failed == Some(e) && State() == old(State())
    {
      if id !in operators || operators[id].owner != who {
        return Some(NotOperatorOwner);
      }
      if !RegisteredOrDeactivated(StatusOf(operators[id].status, id in pendingSlash)) {
        return Some(OperatorNotRegisteredOrDeactivated);
      }
      if operators[id].status.Deactivated? {
        deactivated := deactivated - {id};
      }
      operators := operators[id := operators[id].(status := Deregistered(summary.epoch, head + config.lockingPeriod))];
      summary := summary.(next := summary.next - {id});
      deregistered := deregistered + {id};
      failed := None;
    }

    /** Succeeds exactly for a registered operator that is not pending slash: the stake never underflows. */
    method DeactivateOperator(id: OperatorId) returns (failed: Option<Error>)
      modifies this
      ensures match Deactivate(old(State()), config, id)
              case Ok(d) => failed.None? && State() == d
              case Err(e) => failed == Some(e) && State() == old(State())
      ensures old(Valid()) ==> Valid()
      ensures old(Valid()) ==> (failed.None? <==> id in old(operators) && StatusIn(old(State()), id) == Registered)
    {
      if old(Valid()) {
        SlashRuns.DeactivateOutcome(State(), config, id);
      }
      failed := SetDeactivated(id);
    }

    method SetDeactivated(id: OperatorId) returns (failed: Option<Error>)
      modifies this
      ensures match Deactivate(old(State()), config, id)
              case Ok(d) => failed.None? && State() == d
              case Err(e) => failed == Some(e) && State() == old(State())
    {
      if id !in operators {
        return Some(UnknownOperator);
      }
      if StatusOf(operators[id].status, id in pendingSlash) != Registered {
        return Some(OperatorNotRegistered);
      }
      var left := Without(summary, id, operators[id].totalStake);
      if left.None? {
        return Some(BalanceUnderflow);
      }
      summary := left.value;
      operators := operators[id := operators[id].(status := Deactivated(summary.epoch + config.activationDelay))];
      deactivated := deactivated + {id};
      failed := None;
    }

    /** A reactivated operator joins the next operator set, not that of the running epoch. */
    method ReactivateOperator(id: OperatorId) returns (failed: Option<Error>)
      modifies this
      ensures match Reactivate(old(State()), id)
              case Ok(d) => failed.None? && State() == d
              case Err(e) => failed == Some(e) && State() == old(State())
      ensures old(Valid()) ==> Valid()
      ensures old(Valid()) && failed.None? ==> id in summary.next && id !in summary.current
    {
      if id !in operators {
        return Some(UnknownOperator);
      }
      var status := StatusOf(operators[id].status, id in pendingSlash);
      if !status.Deactivated? {
        return Some(OperatorNotDeactivated);
      }
      if summary.epoch < status.until {
        return Some(ReactivationDelayPeriodIncomplete);
      }
      operators := operators[id := operators[id].(status := Registered)];
      summary := summary.(next := summary.next + {id});
      deactivated := deactivated - {id};
      failed := None;
      if old(Valid()) {
        assert DomainInvariant.OperatorOk(old(State()), id);
        SlashRuns.StepKeepsAll(old(State()), State(), config, ReactivateStep(id));
      }
    }

    /** One round of slashing an operator that waits for it fails only when the pool has no shares. */
    method SlashOperator(id: OperatorId, max: nat, given: nat) returns (failed: Option<Error>, ns: seq<AccountId>)
      modifies this
      ensures id !in old(operators) ==> failed == Some(UnknownOperator) && State() == old(State())
      ensures id in old(operators) ==>
                match DrainSlashed(old(State()), id, ns, given)
                case Ok(d) => failed.None? && State() == d
                case Err(e) => failed == Some(e) && State() == old(State())
      ensures Slashing.Distinct(ns) && (|ns| <= max || |ns| <= 1)
      ensures forall i :: 0 <= i < |ns| ==> id in old(operators) && ns[i] in old(operators)[id].deposits
      ensures old(Valid()) && id in old(pendingSlashes) ==> Valid()
      ensures old(Valid()) && id in old(pendingSlashes) ==>
                (failed.None? <==> id in old(operators) && old(operators)[id].totalShares > 0)
    {
      if id !in operators {
        return Some(UnknownOperator), [];
      }
      var r;
      r, ns := DrainPool(operators[id], summary.epoch, max);
      if old(Valid()) && id in pendingSlashes {
        SlashRuns.DrainOutcome(State(), config, id, ns, given);
      }
      if r.Err? {
        return Some(r.error), ns;
      }
      if r.value.deposits == map[] && r.value.withdrawals == map[] {
        operators := operators - {id};
        pendingSlashes := pendingSlashes - {id};
      } else {
        operators := operators[id := r.value];
      }
      treasury := given;
      failed := None;
    }

    method UnlockFunds(id: OperatorId, n: AccountId) returns (failed: Option<Error>)
      modifies this
      ensures match DomainStaking.UnlockFunds(old(State()), id, n)
              case Ok(d) => failed.None? && State() == d
              case Err(e) => failed == Some(e) && State() == old(State())
      ensures old(Valid()) ==> Valid()
      ensures old(Valid()) && failed.Some? ==>
                failed.value in {UnknownOperator, OperatorNotRegisteredOrDeactivated, MissingWithdrawal,
                                 UnlockPeriodNotComplete}
    {
      if old(Valid()) {
        StakingRefusals.UnlockFundsRefused(State(), config, id, n);
      }
      if id !in operators {
        return Some(UnknownOperator);
      }
      var r := UnlockFromPool(operators[id], summary.epoch, head, id in pendingSlash, n);
      if r.Err? {
        return Some(r.error);
      }
      operators := operators[id := r.value];
      failed := None;
      if old(Valid()) {
        SlashRuns.StepKeepsAll(old(State()), State(), config, UnlockFundsStep(id, n));
      }
    }

    /** Hands out a block reward operator by operator, to each its part; the rest is minted. */
    method RewardOperators(ids: seq<OperatorId>, amount: nat)
      modifies this
      ensures DomainStaking.RewardOperators(old(State()), ids, amount) == Ok(State())
      ensures old(Valid()) ==> Valid()
      ensures Total(summary.rewards, Itself()) + treasury
              == old(Total(summary.rewards, Itself())) + old(treasury) + amount
      ensures forall id: OperatorId ::
                EpochTransition.RewardShared(old(summary).rewards, summary.rewards, ids, amount, id)
    {
      EpochTransition.RewardOperatorsConserves(State(), ids, amount);
      forall id: OperatorId
        ensures var d := DomainStaking.RewardOperators(State(), ids, amount).value;
                EpochTransition.RewardShared(summary.rewards, d.rewards, ids, amount, id)
      {
        EpochTransition.RewardsShared(State(), ids, amount, id);
      }
      if amount == 0 {
        return;
      }
      var weights := CountOccurrences(ids);
      var rewards, handedOut := AddRewardShares(summary.rewards, weights, ShareOf(|ids|, amount));
      summary := summary.(rewards := rewards);
      treasury := treasury + (amount - handedOut);
      if old(Valid()) {
        SlashRuns.StepKeepsAll(old(State()), State(), config, RewardStep(ids, amount));
      }
    }

    /** Ends the epoch loop by loop; any failure leaves the storage as it was. */
    method EndEpoch(chainRewards: nat) returns (ok: bool)
      modifies this
      ensures match DomainStaking.EndEpoch(old(State()), chainRewards)
              case Some(d) => ok && State() == d
              case None => !ok && State() == old(State())
      ensures old(Valid()) ==> Valid()
    {
      var r := EpochLoops.Run(State(), chainRewards);
      ok := r.Some?;
      if ok {
        operators := r.value.operators;
        summary := StakingSummary(r.value.epoch, r.value.totalStake, r.value.current, r.value.next, map[]);
        deregistered, deactivated, invalidAuthors := {}, {}, {};
        treasury := r.value.treasury;
        if old(Valid()) {
          SlashRuns.StepKeepsAll(old(State()), State(), config, EndEpochStep(chainRewards));
        }
      }
    }

    /** Marks the authors of invalid bundles one after the other; a failure undoes the whole list. */
    method MarkInvalidBundleAuthors(ids: seq<OperatorId>, h: ReceiptHash) returns (failed: bool)
      modifies this
      ensures match MarkAllInvalid(old(State()), ids, h)
              case Ok(d) => !failed && State() == d
              case Err(_) => failed && State() == old(State())
      ensures old(Valid()) ==> !failed && Valid()
    {
      if old(Valid()) {
        SlashRuns.MarkAllInvalidKeeps(State(), config, ids, h);
      }
      failed := MarkEach(ids, h);
    }

    method MarkEach(ids: seq<OperatorId>, h: ReceiptHash) returns (failed: bool)
      modifies this
      ensures match MarkAllInvalid(old(State()), ids, h)
              case Ok(d) => !failed && State() == d
              case Err(_) => failed && State() == old(State())
    {
      var was := (operators, summary, invalidAuthors);
      failed := false;
      for i := 0 to |ids|
        invariant !failed && MarkAllInvalid(old(State()), ids[..i], h) == Ok(State())
        invariant was == old((operators, summary, invalidAuthors))
        invariant State() == old(State()).(operators := operators, totalStake := summary.totalStake,
                                           current := summary.current, next := summary.next,
                                           invalidAuthors := invalidAuthors)
      {
        MarkNext(old(State()), ids, h, i);
        var id := ids[i];
        if id in operators && id !in pendingSlashes
           && StatusOf(operators[id].status, id in pendingSlash) == Registered {
          var left := Without(summary, id, operators[id].totalStake);
          if left.None? {
            MarkFailsEarlier(old(State()), ids, h, i + 1);
            operators, summary, invalidAuthors := was.0, was.1, was.2;
            failed := true;
            return;
          }
          summary := left.value;
          operators := operators[id := operators[id].(status := InvalidBundle(h))];
          invalidAuthors := invalidAuthors + {id};
        }
      }
      assert ids[..|ids|] == ids;
    }

    /** Takes the marks of a fraudulent receipt back. */
    method UnmarkInvalidBundleAuthors(ids: seq<OperatorId>, h: ReceiptHash)
      modifies this
      ensures State() == UnmarkAllInvalid(old(State()), ids, h)
      ensures old(Valid()) ==> Valid()
    {
      if old(Valid()) {
        SlashRuns.UnmarkAllInvalidKeeps(State(), config, ids, h);
      }
      for i := 0 to |ids|
        invariant State() == UnmarkAllInvalid(old(State()), ids[..i], h)
      {
        assert ids[..i + 1][..i] == ids[..i];
        var id := ids[i];
        if id !in pendingSlashes && id !in pendingSlash && id in operators && operators[id].status == InvalidBundle(h) {
          operators := operators[id := operators[id].(status := Registered)];
          invalidAuthors := invalidAuthors - {id};
          summary := summary.(next := summary.next + {id});
        }
      }
      assert ids[..|ids|] == ids;
    }

    /** Slashes a list of operators one after the other; a failure undoes the whole list. */
    method MarkOperatorsAsSlashed(ids: seq<OperatorId>) returns (failed: bool)
      modifies this
      ensures match MarkAllSlashed(old(State()), ids)
              case Ok(d) => !failed && State() == d
              case Err(_) => failed && State() == old(State())
      ensures old(Valid()) ==> !failed && Valid()
    {
      if old(Valid()) {
        SlashRuns.MarkAllSlashedKeeps(State(), config, ids);
      }
      failed := SlashEach(ids);
    }

    method SlashEach(ids: seq<OperatorId>) returns (failed: bool)
      modifies this
      ensures match MarkAllSlashed(old(State()), ids)
              case Ok(d) => !failed && State() == d
              case Err(_) => failed && State() == old(State())
    {
      var was := (operators, summary, pendingSlashes);
      failed := false;
      for i := 0 to |ids|
        invariant !failed && MarkAllSlashed(old(State()), ids[..i]) == Ok(State())
        invariant was == old((operators, summary, pendingSlashes))
        invariant State() == old(State()).(operators := operators, totalStake := summary.totalStake,
                                           current := summary.current, next := summary.next,
                                           pendingSlashes := pendingSlashes)
      {
        assert ids[..i + 1][..i] == ids[..i];
        var id := ids[i];
        if id in operators && id !in pendingSlashes {
          var left := Without(summary, id, operators[id].totalStake);
          if left.None? {
            FailsEarlier(old(State()), ids, i + 1);
            operators, summary, pendingSlashes := was.0, was.1, was.2;
            failed := true;
            return;
          }
          summary := left.value;
          operators := operators[id := operators[id].(status := Slashed)];
          pendingSlashes := pendingSlashes + {id};
        }
      }
      assert ids[..|ids|] == ids;
    }
  }

  lemma MarkNext(d: Domain, ids: seq<OperatorId>, h: ReceiptHash, i: nat)
    requires i < |ids|
    ensures MarkAllInvalid(d, ids[..i], h).Ok? ==>
              MarkAllInvalid(d, ids[..i + 1], h) == MarkInvalid(MarkAllInvalid(d, ids[..i], h).value, ids[i], h)
  {
    assert ids[..i + 1][..i] == ids[..i];
  }

  lemma {:induction false} MarkFailsEarlier(d: Domain, ids: seq<OperatorId>, h: ReceiptHash, k: nat)
    requires k <= |ids| && MarkAllInvalid(d, ids[..k], h).Err?
    ensures MarkAllInvalid(d, ids, h).Err?
    decreases |ids|
  {
    if k < |ids| {
      var init := ids[..|ids| - 1];
      assert init[..k] == ids[..k];
      MarkFailsEarlier(d, init, h, k);
    } else {
      assert ids[..k] == ids;
    }
  }

  lemma {:induction false} FailsEarlier(d: Domain, ids: seq<OperatorId>, k: nat)
    requires k <= |ids| && MarkAllSlashed(d, ids[..k]).Err?
    ensures MarkAllSlashed(d, ids).Err?
    decreases |ids|
  {
    if k < |ids| {
      var init := ids[..|ids| - 1];
      assert init[..k] == ids[..k];
      FailsEarlier(d, init, k);
    } else {
      assert ids[..k] == ids;
    }
  }
}
