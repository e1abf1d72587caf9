/** The loops of the epoch transition, each proved against what it does to all operators at once. */
module EpochLoops {
  import opened ReceiptTypes
  import opened StakingTypes
  import opened OperatorPool
  import opened DomainStaking
  import opened PoolBoundary
  import opened MapSums
  import opened Splitting
  import EpochTransition

  predicate LiveIn(operators: map<OperatorId, Pool>, pendingSlash: set<OperatorId>, id: OperatorId) {
    id in operators && !operators[id].status.Slashed? && !operators[id].status.PendingSlash? && id !in pendingSlash
  }

  function LiveSet(operators: map<OperatorId, Pool>, pendingSlash: set<OperatorId>): set<OperatorId> {
    set id | id in operators && LiveIn(operators, pendingSlash, id)
  }

  /** The rewarded operators that deposit a tax. */
  function TaxPayers(operators: map<OperatorId, Pool>, rewards: map<OperatorId, nat>, share: nat, live: set<OperatorId>)
    : set<OperatorId>
  {
    set id | id in rewards && id in live && id in operators && TaxOn(operators[id].tax, rewards[id] + share) > 0
  }

  /** The operators that left the sets or pay tax, and are not finalized with the next operators. */
  function Leftover(operators: map<OperatorId, Pool>, ids: set<OperatorId>, next: set<OperatorId>,
                    pendingSlash: set<OperatorId>): set<OperatorId>
  {
    set id | id in ids && id !in next && LiveIn(operators, pendingSlash, id)
  }

  ghost function Raised(share: nat): nat -> nat { r => r + share }

  /** Adds up the rewards of the operators that are not paid. */
  method Forfeit(rewards: map<OperatorId, nat>, share: nat, ids: set<OperatorId>) returns (sum: nat)
    requires ids <= rewards.Keys
    ensures sum == TotalOver(rewards, Raised(share), ids)
  {
    sum := 0;
    var todo, done := ids, {};
    while todo != {}
      invariant todo + done == ids && todo !! done
      invariant sum == TotalOver(rewards, Raised(share), done)
      decreases todo
    {
      var id :| id in todo;
      TotalOverAdd(rewards, Raised(share), done, id);
      sum := sum + rewards[id] + share;
      todo, done := todo - {id}, done + {id};
    }
  }

  /** The entries `ids` have taken the step, the others are unchanged. */
  ghost predicate Stepped<V(!new)>(was: map<OperatorId, V>, ids: set<OperatorId>, step: (OperatorId, V) -> Result<V>,
                             entries: map<OperatorId, V>)
  {
    && entries.Keys == was.Keys && ids <= was.Keys
    && (forall id :: id in ids ==> step(id, was[id]) == Ok(entries[id]))
    && (forall id :: id in was && id !in ids ==> entries[id] == was[id])
  }

  /** Applies a step that may fail to the given entries, one after the other. */
  method UpdateEach<V(!new)>(was: map<OperatorId, V>, ids: set<OperatorId>, step: (OperatorId, V) -> Result<V>)
    returns (ok: bool, entries: map<OperatorId, V>)
    requires ids <= was.Keys
    ensures ok ==> Stepped(was, ids, step, entries)
    ensures !ok ==> exists id :: id in ids && step(id, was[id]).Err?
  {
    entries := was;
    var todo, done := ids, {};
    while todo != {}
      invariant todo + done == ids && todo !! done
      invariant Stepped(was, done, step, entries)
      decreases todo
    {
      var id :| id in todo;
      var q := step(id, entries[id]);
      if q.Err? {
        return false, entries;
      }
      entries := entries[id := q.value];
      todo, done := todo - {id}, done + {id};
    }
    ok := true;
  }

  function RewardWith(rewards: map<OperatorId, nat>, share: nat, epoch: nat): (OperatorId, Pool) -> Result<Pool> {
    (id: OperatorId, p: Pool) => TakeReward(p, epoch, (if id in rewards then rewards[id] else 0) + share)
  }

  function FinalizeIn(epoch: nat): (OperatorId, Pool) -> Result<Pool> {
    (id: OperatorId, p: Pool) => Finalize(p, epoch)
  }

  /** The operators of the next epoch are registered and finalized, and their stake is summed up. */
  ghost predicate NextFinalized(was: map<OperatorId, Pool>, ids: set<OperatorId>, epoch: nat,
                                operators: map<OperatorId, Pool>, current: map<OperatorId, nat>)
  {
    && Stepped(was, ids, FinalizeIn(epoch), operators) && current.Keys == ids
    && (forall id :: id in ids ==> was[id].status.Registered? && current[id] == operators[id].totalStake)
  }

  ghost predicate CannotFinalize(was: map<OperatorId, Pool>, epoch: nat, id: OperatorId) {
    id !in was || !was[id].status.Registered? || Finalize(was[id], epoch).Err?
  }

  /** Finalizes the operators of the next epoch, checking their status, and sums up their stake. */
  method FinalizeNext(was: map<OperatorId, Pool>, ids: set<OperatorId>, epoch: nat)
    returns (ok: bool, operators: map<OperatorId, Pool>, totalStake: nat, current: map<OperatorId, nat>)
    ensures ok ==> NextFinalized(was, ids, epoch, operators, current) && totalStake == Total(current, Itself())
    ensures !ok ==> exists id :: id in ids && CannotFinalize(was, epoch, id)
  {
    operators, totalStake, current := was, 0, map[];
    TotalZero(current, Itself());
    var todo, done := ids, {};
    while todo != {}
      invariant todo + done == ids && todo !! done
      invariant NextFinalized(was, done, epoch, operators, current)
      invariant totalStake == Total(current, Itself())
      decreases todo
    {
      var id :| id in todo;
      if id !in operators || operators[id].status != Registered {
        assert CannotFinalize(was, epoch, id);
        return false, was, 0, map[];
      }
      var q := Finalize(operators[id], epoch);
      if q.Err? {
        assert CannotFinalize(was, epoch, id);
        return false, was, 0, map[];
      }
      TotalUpdate(current, Itself(), id, q.value.totalStake);
      operators := operators[id := q.value];
      totalStake := totalStake + q.value.totalStake;
      current := current[id := q.value.totalStake];
      todo, done := todo - {id}, done + {id};
    }
    ok := true;
  }

  // ---- The loops together ----

  lemma LiveAgrees(d: Domain, id: OperatorId)
    ensures id in LiveSet(d.operators, d.pendingSlash) <==> Live(d, id)
  {
  }

  /** What the first loop leaves behind. */
  ghost predicate TaxesStaked(d: Domain, chainRewards: nat, rewarded: map<OperatorId, Pool>) {
    var share := ChainShare(d, chainRewards);
    Stepped(d.operators, d.rewards.Keys * LiveSet(d.operators, d.pendingSlash), RewardWith(d.rewards, share, d.epoch),
            rewarded)
  }

  lemma RewardedAt(d: Domain, chainRewards: nat, rewarded: map<OperatorId, Pool>, id: OperatorId)
    requires TaxesStaked(d, chainRewards, rewarded) && id in d.operators
    ensures RewardedPool(d, id, chainRewards) == Ok(rewarded[id])
    ensures rewarded[id].status == d.operators[id].status
  {
    LiveAgrees(d, id);
    var reward := FullReward(d, id, chainRewards);
    if reward.Some? && Live(d, id) {
      EpochTransition.TakeRewardFrame(d.operators[id], rewarded[id], d.epoch, reward.value);
    }
  }

  /** The operators finalized by the last loop. */
  function Others(d: Domain, chainRewards: nat, rewarded: map<OperatorId, Pool>): set<OperatorId> {
    var live := LiveSet(d.operators, d.pendingSlash);
    var taxPayers := TaxPayers(d.operators, d.rewards, ChainShare(d, chainRewards), live);
    Leftover(rewarded, taxPayers + d.invalidAuthors + d.deregistered + d.deactivated, d.next, d.pendingSlash)
  }

  lemma ProcessedIn(d: Domain, chainRewards: nat, rewarded: map<OperatorId, Pool>, id: OperatorId)
    requires TaxesStaked(d, chainRewards, rewarded) && id in d.operators
    ensures Processed(d, id, chainRewards) <==>
            (id in Staying(d) && Live(d, id)) || id in Others(d, chainRewards, rewarded)
  {
    RewardedAt(d, chainRewards, rewarded, id);
    LiveStays(d, rewarded, id);
    TaxPayersAre(d, chainRewards, id);
  }

  lemma LiveStays(d: Domain, rewarded: map<OperatorId, Pool>, id: OperatorId)
    requires id in d.operators && id in rewarded && rewarded[id].status == d.operators[id].status
    ensures LiveIn(rewarded, d.pendingSlash, id) <==> Live(d, id)
  {}

  lemma TaxPayersAre(d: Domain, chainRewards: nat, id: OperatorId)
    requires id in d.operators
    ensures id in TaxPayers(d.operators, d.rewards, ChainShare(d, chainRewards), LiveSet(d.operators, d.pendingSlash))
            <==> Live(d, id) && TaxDue(d.operators[id], FullReward(d, id, chainRewards)) > 0
  {
    LiveAgrees(d, id);
  }

  /** Two loops over disjoint entries take every entry through the step once. */
  lemma SteppedTwice<V(!new)>(was: map<OperatorId, V>, a: set<OperatorId>, b: set<OperatorId>,
                              step: (OperatorId, V) -> Result<V>, mid: map<OperatorId, V>, end: map<OperatorId, V>)
    requires a !! b && Stepped(was, a, step, mid) && Stepped(mid, b, step, end)
    ensures Stepped(was, a + b, step, end)
    ensures forall id :: id in a ==> end[id] == mid[id]
  {
  }

  /** What both finalizing loops leave behind, operator by operator. */
  ghost predicate FinalizedAt(d: Domain, chainRewards: nat, p: Pool, q: Pool, id: OperatorId)
    requires id in d.operators
  {
    && RewardedPool(d, id, chainRewards) == Ok(p)
    && (if Processed(d, id, chainRewards) then Finalize(p, d.epoch) == Ok(q) else p == q)
    && (id in Staying(d) ==> d.operators[id].status.Registered?)
  }

  lemma FinalizedOnce(d: Domain, chainRewards: nat, rewarded: map<OperatorId, Pool>, ids: set<OperatorId>,
                      finalized: map<OperatorId, Pool>, id: OperatorId)
    requires id in d.operators && id in rewarded && RewardedPool(d, id, chainRewards) == Ok(rewarded[id])
    requires id in ids <==> Processed(d, id, chainRewards)
    requires id in Staying(d) ==> d.operators[id].status.Registered?
    requires Stepped(rewarded, ids, FinalizeIn(d.epoch), finalized)
    ensures FinalizedAt(d, chainRewards, rewarded[id], finalized[id], id)
  {
    assert id in ids ==> FinalizeIn(d.epoch)(id, rewarded[id]) == Ok(finalized[id]);
  }

  lemma FinalizedAll(d: Domain, chainRewards: nat, rewarded: map<OperatorId, Pool>, finalized: map<OperatorId, Pool>)
    requires rewarded.Keys == finalized.Keys == d.operators.Keys && Staying(d) <= d.operators.Keys
    requires forall id :: id in d.operators ==> FinalizedAt(d, chainRewards, rewarded[id], finalized[id], id)
    ensures EpochCanEnd(d, chainRewards)
    ensures finalized == FinalizedPools(d, chainRewards)
  {
    forall id | id in d.operators
      ensures FinalizedPool(d, id, chainRewards) == Ok(finalized[id])
    {
      assert FinalizedAt(d, chainRewards, rewarded[id], finalized[id], id);
    }
  }

  lemma AllProcessed(d: Domain, chainRewards: nat, rewarded: map<OperatorId, Pool>, id: OperatorId)
    requires TaxesStaked(d, chainRewards, rewarded) && id in d.operators
    requires id in Staying(d) ==> rewarded[id].status.Registered?
    ensures RewardedPool(d, id, chainRewards) == Ok(rewarded[id])
    ensures id in Staying(d) + Others(d, chainRewards, rewarded) <==> Processed(d, id, chainRewards)
    ensures id in Staying(d) ==> d.operators[id].status.Registered?
  {
    RewardedAt(d, chainRewards, rewarded, id);
    ProcessedIn(d, chainRewards, rewarded, id);
  }

  /** The loops finalize each operator at most once, and the right ones. */
  lemma LoopsEndEpoch(d: Domain, chainRewards: nat, rewarded: map<OperatorId, Pool>, ids: set<OperatorId>,
                      finalized: map<OperatorId, Pool>)
    requires rewarded.Keys == d.operators.Keys
    requires forall id :: id in d.operators ==> RewardedPool(d, id, chainRewards) == Ok(rewarded[id])
    requires forall id :: id in d.operators ==> (id in ids <==> Processed(d, id, chainRewards))
    requires forall id :: id in Staying(d) ==> id in d.operators && d.operators[id].status.Registered?
    requires Stepped(rewarded, ids, FinalizeIn(d.epoch), finalized)
    ensures EpochCanEnd(d, chainRewards)
    ensures finalized == FinalizedPools(d, chainRewards)
  {
    forall id | id in d.operators
      ensures FinalizedAt(d, chainRewards, rewarded[id], finalized[id], id)
    {
      FinalizedOnce(d, chainRewards, rewarded, ids, finalized, id);
    }
    FinalizedAll(d, chainRewards, rewarded, finalized);
  }

  lemma CurrentStakes(rewarded: map<OperatorId, Pool>, staying: set<OperatorId>, others: set<OperatorId>, epoch: nat,
                      staked: map<OperatorId, Pool>, current: map<OperatorId, nat>, finalized: map<OperatorId, Pool>)
    requires NextFinalized(rewarded, staying, epoch, staked, current) && staying !! others
    requires Stepped(staked, others, FinalizeIn(epoch), finalized)
    ensures Stepped(rewarded, staying + others, FinalizeIn(epoch), finalized)
    ensures staying <= finalized.Keys && current == StakesOf(finalized, staying)
  {
    SteppedTwice(rewarded, staying, others, FinalizeIn(epoch), staked, finalized);
  }

  // ---- When a loop fails ----

  lemma RewardFails(d: Domain, chainRewards: nat, id: OperatorId)
    requires id in d.rewards.Keys * LiveSet(d.operators, d.pendingSlash)
    requires RewardWith(d.rewards, ChainShare(d, chainRewards), d.epoch)(id, d.operators[id]).Err?
    ensures !EpochCanEnd(d, chainRewards)
  {
    LiveAgrees(d, id);
    assert FinalizedPool(d, id, chainRewards).Err?;
  }

  lemma NextFails(d: Domain, chainRewards: nat, rewarded: map<OperatorId, Pool>, id: OperatorId)
    requires TaxesStaked(d, chainRewards, rewarded)
    requires id in Staying(d) && CannotFinalize(rewarded, d.epoch, id)
    ensures !EpochCanEnd(d, chainRewards)
  {
    if id in d.operators && d.operators[id].status.Registered? {
      RewardedAt(d, chainRewards, rewarded, id);
      assert FinalizedPool(d, id, chainRewards).Err?;
    }
  }

  lemma OtherFails(d: Domain, chainRewards: nat, rewarded: map<OperatorId, Pool>, staked: map<OperatorId, Pool>,
                   current: map<OperatorId, nat>, id: OperatorId)
    requires TaxesStaked(d, chainRewards, rewarded)
    requires NextFinalized(rewarded, Staying(d), d.epoch, staked, current)
    requires id in Others(d, chainRewards, rewarded) && id in staked && FinalizeIn(d.epoch)(id, staked[id]).Err?
    ensures !EpochCanEnd(d, chainRewards)
  {
    RewardedAt(d, chainRewards, rewarded, id);
    ProcessedIn(d, chainRewards, rewarded, id);
    assert FinalizedPool(d, id, chainRewards).Err?;
  }

  /** The first loop: every rewarded live operator takes its reward and its part of the chain rewards. */
  method StakeTaxes(d: Domain, chainRewards: nat) returns (ok: bool, rewarded: map<OperatorId, Pool>)
    ensures ok ==> TaxesStaked(d, chainRewards, rewarded)
    ensures !ok ==> !EpochCanEnd(d, chainRewards)
  {
    var live := LiveSet(d.operators, d.pendingSlash);
    var step := RewardWith(d.rewards, ChainShare(d, chainRewards), d.epoch);
    ok, rewarded := UpdateEach(d.operators, d.rewards.Keys * live, step);
    if !ok {
      ghost var id :| id in d.rewards.Keys * live && step(id, d.operators[id]).Err?;
      RewardFails(d, chainRewards, id);
    }
  }

  /** The other two loops: the next operators and then everybody else who needs a share price. */
  method FinalizeStakes(d: Domain, chainRewards: nat, rewarded: map<OperatorId, Pool>)
    returns (ok: bool, staked: map<OperatorId, Pool>, finalized: map<OperatorId, Pool>, stake: nat,
             current: map<OperatorId, nat>)
    requires TaxesStaked(d, chainRewards, rewarded)
    ensures ok ==> NextFinalized(rewarded, Staying(d), d.epoch, staked, current)
                   && Stepped(staked, Others(d, chainRewards, rewarded), FinalizeIn(d.epoch), finalized)
                   && stake == Total(current, Itself())
    ensures !ok ==> !EpochCanEnd(d, chainRewards)
  {
    ok, staked, stake, current := FinalizeNext(rewarded, Staying(d), d.epoch);
    if !ok {
      finalized := staked;
      ghost var id :| id in Staying(d) && CannotFinalize(rewarded, d.epoch, id);
      NextFails(d, chainRewards, rewarded, id);
      return;
    }
    var others := Others(d, chainRewards, rewarded);
    ok, finalized := UpdateEach(staked, others, FinalizeIn(d.epoch));
    if !ok {
      ghost var id :| id in others && FinalizeIn(d.epoch)(id, staked[id]).Err?;
      OtherFails(d, chainRewards, rewarded, staked, current, id);
    }
  }

  /** All loops together take every pool across the boundary, or the epoch cannot end. */
  method FinalizeAll(d: Domain, chainRewards: nat)
    returns (ok: bool, finalized: map<OperatorId, Pool>, stake: nat, current: map<OperatorId, nat>)
    ensures ok <==> EpochCanEnd(d, chainRewards)
    ensures ok ==> finalized == FinalizedPools(d, chainRewards)
                   && Staying(d) <= finalized.Keys && current == StakesOf(finalized, Staying(d))
                   && stake == Total(current, Itself())
  {
    var rewarded, staked;
    ok, rewarded := StakeTaxes(d, chainRewards);
    if !ok {
      return false, map[], 0, map[];
    }
    ok, staked, finalized, stake, current := FinalizeStakes(d, chainRewards, rewarded);
    if ok {
      forall id | id in d.operators
        ensures RewardedPool(d, id, chainRewards) == Ok(rewarded[id])
        ensures id in Staying(d) + Others(d, chainRewards, rewarded) <==> Processed(d, id, chainRewards)
        ensures id in Staying(d) ==> d.operators[id].status.Registered?
      {
        AllProcessed(d, chainRewards, rewarded, id);
      }
      var others := Others(d, chainRewards, rewarded);
      CurrentStakes(rewarded, Staying(d), others, d.epoch, staked, current, finalized);
      LoopsEndEpoch(d, chainRewards, rewarded, Staying(d) + others, finalized);
    }
  }

  lemma {:induction false} ForfeitedSum(d: Domain, chainRewards: nat, ids: set<OperatorId>)
    requires ids <= d.rewards.Keys
    ensures TotalOver(d.rewards, Raised(ChainShare(d, chainRewards)), ids)
            == TotalOver(FullRewards(d, chainRewards), Itself(), ids)
    decreases ids
  {
    if ids != {} {
      var id :| id in ids;
      TotalOverPick(d.rewards, Raised(ChainShare(d, chainRewards)), ids, id);
      TotalOverPick(FullRewards(d, chainRewards), Itself(), ids, id);
      ForfeitedSum(d, chainRewards, ids - {id});
    }
  }

  /** Ends the epoch: a failure of any loop ends it with nothing changed. */
  method Run(d: Domain, chainRewards: nat) returns (r: Option<Domain>)
    ensures r == EndEpoch(d, chainRewards)
    ensures r.Some? ==> r.value == d.(operators := r.value.operators, epoch := r.value.epoch,
                                      totalStake := r.value.totalStake, current := r.value.current,
                                      next := r.value.next, rewards := map[],
                                      deregistered := {}, deactivated := {}, invalidAuthors := {},
                                      treasury := r.value.treasury)
  {
    var ok, finalized, stake, current := FinalizeAll(d, chainRewards);
    if !ok {
      return None;
    }
    var forfeited := Forfeit(d.rewards, ChainShare(d, chainRewards), Forfeiting(d));
    ForfeitedSum(d, chainRewards, Forfeiting(d));
    r := Some(d.(operators := finalized, epoch := d.epoch + 1, totalStake := stake, current := current,
                 next := Staying(d), rewards := map[], deregistered := {}, deactivated := {}, invalidAuthors := {},
                 treasury := d.treasury + forfeited + ChainDust(d, chainRewards)));
  }
}
