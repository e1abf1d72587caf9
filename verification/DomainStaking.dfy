/** The staking state of one domain and the operations on it. */
module DomainStaking {
  import opened ReceiptTypes
  import opened StakingTypes
  import opened OperatorPool
  import opened PoolBoundary
  import opened MapSums
  import opened Splitting

  /** `treasury` is what was minted for the treasury, deposited there already or still accumulated.
      `pendingSlash` holds the operators that a rewound receipt makes pending slash. */
  datatype Domain = Domain(
    operators: map<OperatorId, Pool>, nextId: nat, epoch: nat,
    totalStake: nat, current: map<OperatorId, nat>, next: set<OperatorId>, rewards: map<OperatorId, nat>,
    deregistered: set<OperatorId>, deactivated: set<OperatorId>, invalidAuthors: set<OperatorId>,
    pendingSlashes: set<OperatorId>, pendingSlash: set<OperatorId>, head: nat, treasury: nat)

  function EmptyDomain(): Domain {
    Domain(map[], 0, 0, 0, map[], {}, map[], {}, {}, {}, {}, {}, 0, 0)
  }

  function StatusIn(d: Domain, id: OperatorId): OperatorStatus
    requires id in d.operators
  {
    StatusOf(d.operators[id].status, id in d.pendingSlash)
  }

  /** Neither slashed nor pending slash. */
  predicate Live(d: Domain, id: OperatorId) {
    id in d.operators && !StatusIn(d, id).Slashed? && !StatusIn(d, id).PendingSlash?
  }

  function SetPool(d: Domain, id: OperatorId, p: Pool): Domain { d.(operators := d.operators[id := p]) }

  function SetStatus(d: Domain, id: OperatorId, s: OperatorStatus): Domain
    requires id in d.operators
  {
    SetPool(d, id, d.operators[id].(status := s))
  }

  function RewardIn(d: Domain, id: OperatorId): Option<nat> {
    if id in d.rewards then Some(d.rewards[id]) else None
  }

  // ---- Calls of owners and nominators ----

  function Register(d: Domain, config: Config, owner: AccountId, amount: nat, minNominatorStake: nat, tax: Percent)
    : Result<Domain>
  {
    if amount < config.minOperatorStake then Err(MinimumOperatorStake)
    else
      var p := OperatorPool.Register(owner, amount, minNominatorStake, tax, d.epoch);
      Ok(d.(operators := d.operators[d.nextId := p], nextId := d.nextId + 1, next := d.next + {d.nextId}))
  }

  function Nominate(d: Domain, id: OperatorId, n: AccountId, amount: nat): Result<Domain> {
    if amount == 0 then Err(ZeroDeposit)
    else if id !in d.operators then Err(UnknownOperator)
    else
      var p :- OperatorPool.Nominate(d.operators[id], d.epoch, id in d.pendingSlash, n, amount);
      Ok(SetPool(d, id, p))
  }

  /** A withdrawal from a deactivated operator makes sure that the epoch gets a share price. */
  function Withdraw(d: Domain, config: Config, id: OperatorId, n: AccountId, shares: nat): Result<Domain> {
    if shares == 0 then Err(ZeroWithdraw)
    else if id !in d.operators then Err(UnknownOperator)
    else
      var p :- OperatorPool.Withdraw(d.operators[id], config, d.epoch, d.head, id in d.pendingSlash, RewardIn(d, id), n,
                                     shares);
      var deactivated := if p.status.Deactivated? then d.deactivated + {id} else d.deactivated;
      Ok(SetPool(d, id, p).(deactivated := deactivated))
  }

  function UnlockFunds(d: Domain, id: OperatorId, n: AccountId): Result<Domain> {
    if id !in d.operators then Err(UnknownOperator)
    else
      var p :- OperatorPool.UnlockFunds(d.operators[id], d.epoch, d.head, id in d.pendingSlash, n);
      Ok(SetPool(d, id, p))
  }

  /** The operator is removed with its last nominator, and what is left of it goes to the treasury. */
  function UnlockNominator(d: Domain, id: OperatorId, n: AccountId): Result<Domain> {
    if id !in d.operators then Err(UnknownOperator)
    else
      var p :- OperatorPool.UnlockNominator(d.operators[id], d.epoch, d.head, id in d.pendingSlash, n);
      if p.deposits == map[] && p.withdrawals == map[] then
        Ok(d.(operators := d.operators - {id}, treasury := d.treasury + p.totalStake + p.fund))
      else Ok(SetPool(d, id, p))
  }

  function Deregister(d: Domain, config: Config, who: AccountId, id: OperatorId): Result<Domain> {
    if id !in d.operators || d.operators[id].owner != who then Err(NotOperatorOwner)
    else if !RegisteredOrDeactivated(StatusIn(d, id)) then Err(OperatorNotRegisteredOrDeactivated)
    else
      Ok(SetStatus(d, id, Deregistered(d.epoch, d.head + config.lockingPeriod)).(
           deactivated := if d.operators[id].status.Deactivated? then d.deactivated - {id} else d.deactivated,
           next := d.next - {id},
           deregistered := d.deregistered + {id}))
  }

  /** Takes an operator out of the current and the next operator set. */
  function DropFromSets(d: Domain, id: OperatorId): Result<Domain>
    requires id in d.operators
  {
    if id in d.current && d.totalStake < d.operators[id].totalStake then Err(BalanceUnderflow)
    else
      Ok(d.(current := d.current - {id},
            totalStake := if id in d.current then d.totalStake - d.operators[id].totalStake else d.totalStake,
            next := d.next - {id}))
  }

  function Deactivate(d: Domain, config: Config, id: OperatorId): Result<Domain> {
    if id !in d.operators then Err(UnknownOperator)
    else if StatusIn(d, id) != Registered then Err(OperatorNotRegistered)
    else
      var dropped :- DropFromSets(d, id);
      Ok(SetStatus(dropped, id, Deactivated(d.epoch + config.activationDelay)).(deactivated := d.deactivated + {id}))
  }

  function Reactivate(d: Domain, id: OperatorId): Result<Domain> {
    if id !in d.operators then Err(UnknownOperator)
    else if !StatusIn(d, id).Deactivated? then Err(OperatorNotDeactivated)
    else if d.epoch < StatusIn(d, id).until then Err(ReactivationDelayPeriodIncomplete)
    else Ok(SetStatus(d, id, Registered).(next := d.next + {id}, deactivated := d.deactivated - {id}))
  }

  // ---- Consequences of receipts ----

  function MarkSlashed(d: Domain, id: OperatorId): Result<Domain> {
    if id !in d.operators || id in d.pendingSlashes then Ok(d)
    else
      var dropped :- DropFromSets(d, id);
      Ok(SetStatus(dropped, id, Slashed).(pendingSlashes := d.pendingSlashes + {id}))
  }

  function MarkAllSlashed(d: Domain, ids: seq<OperatorId>): Result<Domain> {
    if ids == [] then Ok(d)
    else
      var d1 :- MarkAllSlashed(d, ids[..|ids| - 1]);
      MarkSlashed(d1, ids[|ids| - 1])
  }

  function MarkInvalid(d: Domain, id: OperatorId, receipt: ReceiptHash): Result<Domain> {
    if id in d.pendingSlashes || id !in d.operators || StatusIn(d, id) != Registered then Ok(d)
    else
      var dropped :- DropFromSets(d, id);
      Ok(SetStatus(dropped, id, InvalidBundle(receipt)).(invalidAuthors := d.invalidAuthors + {id}))
  }

  function UnmarkInvalid(d: Domain, id: OperatorId, receipt: ReceiptHash): Domain {
    if id in d.pendingSlashes || id in d.pendingSlash || id !in d.operators
       || d.operators[id].status != InvalidBundle(receipt) then d
    else SetStatus(d, id, Registered).(invalidAuthors := d.invalidAuthors - {id}, next := d.next + {id})
  }

  function MarkAllInvalid(d: Domain, ids: seq<OperatorId>, receipt: ReceiptHash): Result<Domain> {
    if ids == [] then Ok(d)
    else
      var d1 :- MarkAllInvalid(d, ids[..|ids| - 1], receipt);
      MarkInvalid(d1, ids[|ids| - 1], receipt)
  }

  function UnmarkAllInvalid(d: Domain, ids: seq<OperatorId>, receipt: ReceiptHash): Domain {
    if ids == [] then d else UnmarkInvalid(UnmarkAllInvalid(d, ids[..|ids| - 1], receipt), ids[|ids| - 1], receipt)
  }

  /** How often each operator occurs in a list. */
  function Weights(ids: seq<OperatorId>): map<OperatorId, nat> { map id | id in ids :: multiset(ids)[id] }

  function AddShares(rewards: map<OperatorId, nat>, weights: map<OperatorId, nat>, share: nat -> nat)
    : map<OperatorId, nat>
  {
    map id | id in rewards.Keys + weights.Keys ::
      (if id in rewards then rewards[id] else 0) + (if id in weights then share(weights[id]) else 0)
  }

  /** Splits a reward by the number of times each operator occurs; the dust goes to the treasury. */
  ghost function RewardOperators(d: Domain, ids: seq<OperatorId>, amount: nat): Result<Domain> {
    if amount == 0 then Ok(d)
    else
      var handedOut := Total(Weights(ids), ShareOf(|ids|, amount));
      if handedOut > amount then Err(BalanceUnderflow)
      else Ok(d.(rewards := AddShares(d.rewards, Weights(ids), ShareOf(|ids|, amount)),
                 treasury := d.treasury + (amount - handedOut)))
  }

  /** One round of slashing the nominators `ns` of an operator, which is removed with the last of them. `treasury` is
      what the treasury has been given after the round. */
  function DrainSlashed(d: Domain, id: OperatorId, ns: seq<AccountId>, treasury: nat): Result<Domain>
    requires id in d.operators
  {
    var p :- SlashBatch(d.operators[id], d.epoch, ns);
    if p.deposits == map[] && p.withdrawals == map[] then
      Ok(d.(operators := d.operators - {id}, pendingSlashes := d.pendingSlashes - {id}, treasury := treasury))
    else Ok(SetPool(d, id, p).(treasury := treasury))
  }

  // ---- Epoch transition ----

  /** The part of the chain rewards that each rewarded operator gets. */
  function ChainShare(d: Domain, chainRewards: nat): nat { Share(1, |d.rewards|, chainRewards) }

  function FullReward(d: Domain, id: OperatorId, chainRewards: nat): Option<nat> {
    if id in d.rewards then Some(d.rewards[id] + ChainShare(d, chainRewards)) else None
  }

  /** The pool of a live operator after its reward, before the aggregate move. */
  function RewardedPool(d: Domain, id: OperatorId, chainRewards: nat): Result<Pool>
    requires id in d.operators
  {
    var reward := FullReward(d, id, chainRewards);
    if reward.None? || !Live(d, id) then Ok(d.operators[id])
    else TakeReward(d.operators[id], d.epoch, reward.value)
  }

  /** The operators whose epoch is finalized: the next operators, and those that left the set during the epoch or
      deposited their own tax. */
  predicate Processed(d: Domain, id: OperatorId, chainRewards: nat) {
    && Live(d, id)
    && (id in d.next || id in d.deregistered || id in d.deactivated || id in d.invalidAuthors
        || TaxDue(d.operators[id], FullReward(d, id, chainRewards)) > 0)
  }

  function FinalizedPool(d: Domain, id: OperatorId, chainRewards: nat): Result<Pool>
    requires id in d.operators
  {
    var p :- RewardedPool(d, id, chainRewards);
    if Processed(d, id, chainRewards) then Finalize(p, d.epoch) else Ok(p)
  }

  /** The operators of the coming epoch. */
  function Staying(d: Domain): set<OperatorId> { set id | id in d.next && id !in d.pendingSlash }

  ghost predicate EpochCanEnd(d: Domain, chainRewards: nat) {
    && (forall id :: id in d.operators ==> FinalizedPool(d, id, chainRewards).Ok?)
    && (forall id :: id in Staying(d) ==> id in d.operators && d.operators[id].status.Registered?)
  }

  ghost function FinalizedPools(d: Domain, chainRewards: nat): map<OperatorId, Pool>
    requires EpochCanEnd(d, chainRewards)
  {
    map id | id in d.operators :: FinalizedPool(d, id, chainRewards).value
  }

  /** What the boundary mints into the treasury: rewards of removed, slashed and pending-slash operators, and the
      part of the chain rewards that is not handed out. */
  ghost function ToTreasury(d: Domain, chainRewards: nat): nat {
    TotalOver(FullRewards(d, chainRewards), Itself(), Forfeiting(d)) + ChainDust(d, chainRewards)
  }

  function ChainDust(d: Domain, chainRewards: nat): nat {
    if d.rewards == map[] then chainRewards
    else if ChainShare(d, chainRewards) * |d.rewards| <= chainRewards
    then chainRewards - ChainShare(d, chainRewards) * |d.rewards| else 0
  }

  function FullRewards(d: Domain, chainRewards: nat): map<OperatorId, nat> {
    map id | id in d.rewards :: FullReward(d, id, chainRewards).value
  }

  /** The rewarded operators that get nothing. */
  function Forfeiting(d: Domain): set<OperatorId> { set id | id in d.rewards && !Live(d, id) }

  function StakesOf(pools: map<OperatorId, Pool>, ids: set<OperatorId>): map<OperatorId, nat>
    requires ids <= pools.Keys
  {
    map id | id in ids :: pools[id].totalStake
  }

  ghost function EndEpoch(d: Domain, chainRewards: nat): Option<Domain> {
    if !EpochCanEnd(d, chainRewards) then None
    else
      var pools := FinalizedPools(d, chainRewards);
      var current := StakesOf(pools, Staying(d));
      Some(d.(operators := pools,
              epoch := d.epoch + 1,
              totalStake := Total(current, Itself()),
              current := current,
              next := Staying(d),
              rewards := map[],
              deregistered := {}, deactivated := {}, invalidAuthors := {},
              treasury := d.treasury + ToTreasury(d, chainRewards)))
  }
}
