/** Rewards of block proposers and voters out of a limited issuance. */
module Rewards {
  import opened StakingTypes
  import opened MapSums
  import opened Splitting
  import opened Perquintill
  import opened SubsidyCurve
  import R = Runs

  /** `taxNumerator / taxDenominator` of a vote reward goes to the proposer. */
  datatype Params = Params(averageOver: nat, byteFee: nat, maxLength: nat, taxNumerator: nat, taxDenominator: nat)

  /** `credited` holds what each account was ever rewarded. */
  datatype Issuance = Issuance(
    remaining: nat, enabled: bool, proposerPoints: seq<Point>, voterPoints: seq<Point>, usage: nat,
    credited: map<AccountId, nat>)

  /** What one block brings. */
  datatype Block = Block(number: nat, used: nat, rewardsOn: bool, author: Option<AccountId>, voters: seq<AccountId>)

  function Min(a: nat, b: nat): nat { if a < b then a else b }

  function Max(a: nat, b: nat): nat { if a < b then b else a }

  function ShiftPoints(points: seq<Point>, offset: nat): seq<Point> {
    seq(|points|, i requires 0 <= i < |points| => points[i].(block := points[i].block + offset))
  }

  function AverageUsage(used: nat, average: nat, over: nat, height: nat): nat {
    if over == 0 then used
    else if height <= over then (average + used) / 2
    else Weighted(2, used, over - 1, average)
  }

  /** The average of two values with weights that do not add up to zero. */
  function Weighted(v: nat, a: nat, w: nat, b: nat): nat
    requires v + w > 0
  {
    (v * a + w * b) / (v + w)
  }

  /** What the usage of blocks takes off a reward. */
  function Decrease(usage: nat, cap: nat, maxLength: nat): nat
    requires maxLength > 0
  {
    usage * cap / maxLength
  }

  function BlockReward(points: seq<Point>, height: nat, usage: nat, params: Params): nat
    requires params.maxLength > 0
  {
    var reference := Subsidy(points, height);
    var decrease := Decrease(usage, Min(reference, params.maxLength * params.byteFee), params.maxLength);
    if decrease <= reference then reference - decrease else 0
  }

  /** The usage of blocks takes its part of the fees of a full block off the reward, rounded down. */
  lemma DecreaseIsPart(usage: nat, cap: nat, n: nat)
    requires n > 0
    ensures Decrease(usage, cap, n) * n <= usage * cap < (Decrease(usage, cap, n) + 1) * n
  {
    DivBounds(usage * cap, n);
  }

  /** A block pays its reference subsidy less the usage's part of the fees of a full block, or of the subsidy if that is
      less. */
  lemma BlockRewardIs(points: seq<Point>, height: nat, usage: nat, params: Params)
    requires params.maxLength > 0
    ensures var reference := Subsidy(points, height);
            var r := BlockReward(points, height, usage, params);
            var cap := Min(reference, params.maxLength * params.byteFee);
            && r <= reference
            && (r > 0 ==> (reference - r) * params.maxLength <= usage * cap < (reference - r + 1) * params.maxLength)
            && (r == 0 ==> reference * params.maxLength <= usage * cap)
  {
    var reference := Subsidy(points, height);
    var cap := Min(reference, params.maxLength * params.byteFee);
    DecreaseIsPart(usage, cap, params.maxLength);
    if Decrease(usage, cap, params.maxLength) >= reference {
      MulMono(reference, Decrease(usage, cap, params.maxLength), params.maxLength);
    }
  }

  /** An idle chain pays the whole reference subsidy; a full one pays less by the fees of a full block. */
  lemma BlockRewardEnds(points: seq<Point>, height: nat, params: Params)
    requires params.maxLength > 0
    ensures BlockReward(points, height, 0, params) == Subsidy(points, height)
    ensures var reference := Subsidy(points, height);
            BlockReward(points, height, params.maxLength, params)
            == reference - Min(reference, params.maxLength * params.byteFee)
  {
    DecreaseEnds(Min(Subsidy(points, height), params.maxLength * params.byteFee), params.maxLength);
  }

  lemma DecreaseEnds(cap: nat, n: nat)
    requires n > 0
    ensures Decrease(0, cap, n) == 0 && Decrease(n, cap, n) == cap
  {
    assert n * cap == cap * n;
    DivAtMost(n * cap, n, cap);
    DivAtLeast(n * cap, n, cap);
  }

  /** The more the blocks are used, the less is paid. */
  lemma UsageLowersReward(points: seq<Point>, height: nat, usage: nat, more: nat, params: Params)
    requires params.maxLength > 0 && usage <= more
    ensures BlockReward(points, height, more, params) <= BlockReward(points, height, usage, params)
  {
    DecreaseMono(usage, more, Min(Subsidy(points, height), params.maxLength * params.byteFee), params.maxLength);
  }

  lemma DecreaseMono(usage: nat, more: nat, cap: nat, n: nat)
    requires n > 0 && usage <= more
    ensures Decrease(usage, cap, n) <= Decrease(more, cap, n)
  {
    MulMono(usage, more, cap);
    DivMono(usage * cap, more * cap, n);
  }

  lemma DivMono(a: nat, b: nat, n: nat)
    requires n > 0 && a <= b
    ensures a / n <= b / n
  {
    assert a / n * n <= b by { DivBounds(a, n); }
    DivAtLeast(b, n, a / n);
  }

  /** The average usage stays between the old average and the usage of the block. */
  lemma AverageBetween(used: nat, average: nat, over: nat, height: nat, low: nat, high: nat)
    requires low <= used <= high && low <= average <= high
    ensures low <= AverageUsage(used, average, over, height) <= high
  {
    if over > 0 && height > over {
      WeightedBetween(2, used, over - 1, average, low, high);
    }
  }

  /** Early on a block counts as much as all before it; then a new block counts twice what each of the last `over` - 1
      blocks does. */
  ghost predicate IsAverage(r: nat, used: nat, average: nat, over: nat, height: nat) {
    && (over == 0 ==> r == used)
    && (0 < over && height <= over ==> 2 * r <= average + used <= 2 * r + 1)
    && (0 < over < height ==> r * (over + 1) <= 2 * used + (over - 1) * average < (r + 1) * (over + 1))
  }

  lemma AverageIs(used: nat, average: nat, over: nat, height: nat)
    ensures IsAverage(AverageUsage(used, average, over, height), used, average, over, height)
  {
    if 0 < over < height {
      DivBounds(2 * used + (over - 1) * average, 2 + (over - 1));
    }
  }

  lemma WeightedBetween(v: nat, a: nat, w: nat, b: nat, low: nat, high: nat)
    requires v + w > 0 && low <= a <= high && low <= b <= high
    ensures low <= Weighted(v, a, w, b) <= high
  {
    MulMono(low, a, v);
    MulMono(low, b, w);
    MulMono(a, high, v);
    MulMono(b, high, w);
    MulCommutes(v, a);
    MulCommutes(w, b);
    MulCommutes(low, v);
    MulCommutes(low, w);
    MulCommutes(high, v);
    MulCommutes(high, w);
    Distribute(v, w, low);
    Distribute(v, w, high);
    MulCommutes(v + w, low);
    MulCommutes(v + w, high);
    DivAtLeast(v * a + w * b, v + w, low);
    DivAtMost(v * a + w * b, v + w, high);
  }

  function ProposerTax(reward: nat, params: Params): nat
    requires params.taxDenominator > 0
  {
    reward / params.taxDenominator * params.taxNumerator
  }

  function Credit(credited: map<AccountId, nat>, who: AccountId, amount: nat): map<AccountId, nat> {
    if amount == 0 then credited else credited[who := (if who in credited then credited[who] else 0) + amount]
  }

  // ---- Votes ----

  datatype Payout = Payout(remaining: nat, blockReward: nat, credited: map<AccountId, nat>)

  /** Pays one vote as far as the issuance lasts; without an author the voter keeps the tax. */
  function PayVote(p: Payout, voter: AccountId, reward: nat, tax: nat, hasAuthor: bool): Payout {
    var paid := Min(reward, p.remaining);
    var taxed := Min(tax, p.remaining - paid);
    Payout(p.remaining - paid - taxed,
           if hasAuthor then p.blockReward + taxed else p.blockReward,
           Credit(p.credited, voter, if hasAuthor then paid else paid + taxed))
  }

  function PayVotes(p: Payout, voters: seq<AccountId>, reward: nat, tax: nat, hasAuthor: bool): Payout {
    if voters == [] then p
    else
      var k := |voters| - 1;
      PayVote(PayVotes(p, voters[..k], reward, tax, hasAuthor), voters[k], reward, tax, hasAuthor)
  }

  // ---- A block ----

  lemma {:induction false} ShiftedWindow(points: seq<Point>, offset: nat, height: nat)
    ensures Window(ShiftPoints(points, offset), offset + height) == Window(points, height)
  {
    if |points| >= 2 {
      assert ShiftPoints(points, offset)[1..] == ShiftPoints(points[1..], offset);
      ShiftedWindow(points[1..], offset, height);
    }
  }

  /** Shifting the points shifts the whole curve. */
  lemma ShiftedCurve(points: seq<Point>, offset: nat, height: nat)
    ensures Subsidy(ShiftPoints(points, offset), offset + height) == Subsidy(points, height)
  {
    ShiftedWindow(points, offset, height);
  }

  /** The same curve, a number of blocks later. */
  ghost predicate Shifted(points: seq<Point>, points': seq<Point>, offset: nat) {
    forall h: nat :: Subsidy(points, h) == Subsidy(points', offset + h)
  }

  lemma ShiftsCurve(points: seq<Point>, offset: nat)
    ensures Shifted(points, ShiftPoints(points, offset), offset)
  {
    forall h: nat
      ensures Subsidy(points, h) == Subsidy(ShiftPoints(points, offset), offset + h)
    {
      ShiftedCurve(points, offset, h);
    }
  }

  function Enable(s: Issuance, number: nat): Issuance {
    if s.enabled then s
    else s.(enabled := true, proposerPoints := ShiftPoints(s.proposerPoints, number),
            voterPoints := ShiftPoints(s.voterPoints, number))
  }

  predicate ParamsOk(params: Params) {
    params.maxLength > 0 && 0 < params.taxDenominator && params.taxNumerator <= params.taxDenominator
  }

  /** The proposer takes its fraction of a vote reward, rounded down before it is multiplied. */
  lemma TaxIsPart(reward: nat, params: Params)
    requires ParamsOk(params)
    ensures var t := ProposerTax(reward, params);
            && t * params.taxDenominator <= reward * params.taxNumerator
            && (params.taxNumerator > 0 ==>
                  reward * params.taxNumerator < (t + params.taxNumerator) * params.taxDenominator)
  {
    LineIs(reward, params.taxDenominator, params.taxNumerator);
  }

  lemma TaxWithin(reward: nat, params: Params)
    requires ParamsOk(params)
    ensures ProposerTax(reward, params) <= reward
  {
    DropWithin(reward, params.taxDenominator, params.taxNumerator);
  }

  /** The author's own reward, as far as the issuance lasts. */
  function AuthorReward(s: Issuance, block: Block, params: Params): (r: nat)
    requires params.maxLength > 0
    ensures r <= s.remaining && (block.author.None? ==> r == 0)
  {
    if block.author.Some? then Min(BlockReward(s.proposerPoints, block.number, s.usage, params), s.remaining) else 0
  }

  /** The author gets the reward of the block, or what is left. */
  lemma AuthorRewardIs(s: Issuance, block: Block, params: Params)
    requires params.maxLength > 0 && block.author.Some?
    ensures var r := AuthorReward(s, block, params);
            var full := BlockReward(s.proposerPoints, block.number, s.usage, params);
            if full <= s.remaining then r == full else r == s.remaining
  {}

  /** What a voter and the proposer get of one vote. */
  function VoteReward(s: Issuance, number: nat, params: Params): (r: (nat, nat))
    requires ParamsOk(params)
    ensures r.0 + r.1 == Subsidy(s.voterPoints, number)
  {
    var vote := Subsidy(s.voterPoints, number);
    TaxWithin(vote, params);
    (vote - ProposerTax(vote, params), ProposerTax(vote, params))
  }

  function Paid(s: Issuance, block: Block, params: Params): Payout
    requires ParamsOk(params)
  {
    var own := AuthorReward(s, block, params);
    var (reward, tax) := VoteReward(s, block.number, params);
    PayVotes(Payout(s.remaining - own, own, s.credited), block.voters, reward, tax, block.author.Some?)
  }

  /** The points and the average usage are brought up to date before anything is paid. */
  function Prepared(s: Issuance, block: Block, params: Params): Issuance {
    var s1 := Enable(s, block.number);
    s1.(usage := AverageUsage(block.used, s1.usage, params.averageOver, block.number))
  }

  function FinalizeBlock(s: Issuance, block: Block, params: Params): Issuance
    requires ParamsOk(params)
  {
    if !block.rewardsOn then s
    else
      var s1 := Prepared(s, block, params);
      var p := Paid(s1, block, params);
      s1.(remaining := p.remaining,
          credited := if block.author.Some? then Credit(p.credited, block.author.value, p.blockReward) else p.credited)
  }

  // ---- Conservation ----

  lemma CreditSum(credited: map<AccountId, nat>, who: AccountId, amount: nat)
    ensures Total(Credit(credited, who, amount), Itself()) == Total(credited, Itself()) + amount
  {
    var sum: nat := (if who in credited then credited[who] else 0) + amount;
    TotalUpdate(credited, Itself(), who, sum);
  }

  /** Votes move issuance to accounts and to the block reward, unit by unit. */
  lemma {:induction false} VotesConserve(p: Payout, voters: seq<AccountId>, reward: nat, tax: nat, hasAuthor: bool)
    ensures var q := PayVotes(p, voters, reward, tax, hasAuthor);
            && q.remaining + q.blockReward + Total(q.credited, Itself())
               == p.remaining + p.blockReward + Total(p.credited, Itself())
            && (!hasAuthor ==> q.blockReward == p.blockReward)
  {
    if voters != [] {
      var k := |voters| - 1;
      VotesConserve(p, voters[..k], reward, tax, hasAuthor);
      var q := PayVotes(p, voters[..k], reward, tax, hasAuthor);
      var paid := Min(reward, q.remaining);
      var taxed := Min(tax, q.remaining - paid);
      CreditSum(q.credited, voters[k], if hasAuthor then paid else paid + taxed);
    }
  }

  /** While the issuance lasts every vote is paid in full. */
  lemma {:induction false} VotesInFull(p: Payout, voters: seq<AccountId>, reward: nat, tax: nat, hasAuthor: bool)
    requires p.remaining >= (reward + tax) * |voters|
    ensures var q := PayVotes(p, voters, reward, tax, hasAuthor);
            && q.remaining == p.remaining - (reward + tax) * |voters|
            && q.blockReward == p.blockReward + (if hasAuthor then tax * |voters| else 0)
  {
    if voters != [] {
      var k := |voters| - 1;
      MulSucc(reward + tax, |voters|);
      MulSucc(tax, |voters|);
      VotesInFull(p, voters[..k], reward, tax, hasAuthor);
    }
  }

  // ---- Who is paid ----

  function CreditOf(credited: map<AccountId, nat>, a: AccountId): nat { if a in credited then credited[a] else 0 }

  /** What a voter gets of one vote: without an author it keeps the tax. */
  function VoterShare(reward: nat, tax: nat, hasAuthor: bool): nat { if hasAuthor then reward else reward + tax }

  lemma OneVotePaid(p: Payout, voter: AccountId, reward: nat, tax: nat, hasAuthor: bool, a: AccountId)
    ensures var before, after := CreditOf(p.credited, a),
                                 CreditOf(PayVote(p, voter, reward, tax, hasAuthor).credited, a);
            && before <= after <= before + (if a == voter then VoterShare(reward, tax, hasAuthor) else 0)
            && (p.remaining >= reward + tax ==>
                  after == before + if a == voter then VoterShare(reward, tax, hasAuthor) else 0)
  {}

  lemma OneMoreVote(voters: seq<AccountId>, a: AccountId, each: nat)
    requires voters != []
    ensures var k := |voters| - 1;
            multiset(voters)[a] * each == multiset(voters[..k])[a] * each + if a == voters[k] then each else 0
  {
    var k := |voters| - 1;
    assert voters == voters[..k] + [voters[k]];
    Distribute(multiset(voters[..k])[a], if voters[k] == a then 1 else 0, each);
  }

  /** Nobody but the voters is paid for votes, and a vote pays its reward, or less when the issuance runs out. */
  lemma {:induction false} VotersPaid(p: Payout, voters: seq<AccountId>, reward: nat, tax: nat, hasAuthor: bool,
                                      a: AccountId)
    ensures var before, after := CreditOf(p.credited, a),
                                 CreditOf(PayVotes(p, voters, reward, tax, hasAuthor).credited, a);
            && before <= after <= before + multiset(voters)[a] * VoterShare(reward, tax, hasAuthor)
            && (p.remaining >= (reward + tax) * |voters| ==>
                  after == before + multiset(voters)[a] * VoterShare(reward, tax, hasAuthor))
  {
    if voters != [] {
      var k := |voters| - 1;
      VotersPaid(p, voters[..k], reward, tax, hasAuthor, a);
      OneVotePaid(PayVotes(p, voters[..k], reward, tax, hasAuthor), voters[k], reward, tax, hasAuthor, a);
      OneMoreVote(voters, a, VoterShare(reward, tax, hasAuthor));
      MulSucc(reward + tax, |voters|);
      if p.remaining >= (reward + tax) * |voters| {
        VotesInFull(p, voters[..k], reward, tax, hasAuthor);
      }
    }
  }

  function Times(n: nat, each: nat): nat { n * each }

  lemma VotesPay(p: Payout, voters: seq<AccountId>, reward: nat, tax: nat, hasAuthor: bool, a: AccountId)
    ensures var q := PayVotes(p, voters, reward, tax, hasAuthor);
            && CreditOf(p.credited, a) <= CreditOf(q.credited, a)
            && (a !in voters ==> CreditOf(q.credited, a) == CreditOf(p.credited, a))
            && (Times(|voters|, reward + tax) <= p.remaining ==>
                  && q.blockReward == p.blockReward + (if hasAuthor then Times(|voters|, tax) else 0)
                  && CreditOf(q.credited, a)
                     == CreditOf(p.credited, a) + Times(multiset(voters)[a], VoterShare(reward, tax, hasAuthor)))
  {
    VotersPaid(p, voters, reward, tax, hasAuthor, a);
    MulCommutes(|voters|, reward + tax);
    MulCommutes(|voters|, tax);
    if Times(|voters|, reward + tax) <= p.remaining {
      VotesInFull(p, voters, reward, tax, hasAuthor);
    }
  }

  /** What a block pays to `a` while the issuance lasts. */
  function Earned(s: Issuance, block: Block, params: Params, a: AccountId): nat
    requires ParamsOk(params)
  {
    var (reward, tax) := VoteReward(s, block.number, params);
    Times(multiset(block.voters)[a], VoterShare(reward, tax, block.author.Some?))
    + if block.author == Some(a) then AuthorReward(s, block, params) + Times(|block.voters|, tax) else 0
  }

  /** What a block pays at most. */
  function Budget(s: Issuance, block: Block, params: Params): nat
    requires ParamsOk(params)
  {
    var (reward, tax) := VoteReward(s, block.number, params);
    AuthorReward(s, block, params) + Times(|block.voters|, reward + tax)
  }

  lemma PreparedPays(s: Issuance, block: Block, params: Params, a: AccountId)
    requires ParamsOk(params)
    ensures var p := Paid(s, block, params);
            && CreditOf(s.credited, a) <= CreditOf(p.credited, a)
            && (a !in block.voters ==> CreditOf(p.credited, a) == CreditOf(s.credited, a))
            && (Budget(s, block, params) <= s.remaining ==>
                  CreditOf(p.credited, a) + (if block.author == Some(a) then p.blockReward else 0)
                  == CreditOf(s.credited, a) + Earned(s, block, params, a))
  {
    var own := AuthorReward(s, block, params);
    var (reward, tax) := VoteReward(s, block.number, params);
    VotesPay(Payout(s.remaining - own, own, s.credited), block.voters, reward, tax, block.author.Some?, a);
  }

  ghost predicate BlockPaid(s: Issuance, s': Issuance, block: Block, params: Params, a: AccountId)
    requires ParamsOk(params)
  {
    var s1 := Prepared(s, block, params);
    && CreditOf(s.credited, a) <= CreditOf(s'.credited, a)
    && (!block.rewardsOn || (a !in block.voters && block.author != Some(a)) ==>
          CreditOf(s'.credited, a) == CreditOf(s.credited, a))
    && (block.rewardsOn && Budget(s1, block, params) <= s.remaining ==>
          CreditOf(s'.credited, a) == CreditOf(s.credited, a) + Earned(s1, block, params, a))
  }

  /** In a block only the voters and the author are paid: the voters their part of the vote subsidy, the author the
      proposer subsidy and the taxes on the votes, in full while the issuance lasts. */
  lemma BlockPays(s: Issuance, block: Block, params: Params, a: AccountId)
    requires ParamsOk(params)
    ensures BlockPaid(s, FinalizeBlock(s, block, params), block, params, a)
  {
    if block.rewardsOn {
      PreparedPays(Prepared(s, block, params), block, params, a);
    }
  }

  /** A block issues exactly what leaves the remaining issuance. */
  lemma BlockConserves(s: Issuance, block: Block, params: Params)
    requires ParamsOk(params)
    ensures var s' := FinalizeBlock(s, block, params);
            s'.remaining + Total(s'.credited, Itself()) == s.remaining + Total(s.credited, Itself())
  {
    if block.rewardsOn {
      var s1 := Prepared(s, block, params);
      var own := AuthorReward(s1, block, params);
      var (reward, tax) := VoteReward(s1, block.number, params);
      VotesConserve(Payout(s1.remaining - own, own, s1.credited), block.voters, reward, tax, block.author.Some?);
      if block.author.Some? {
        var p := Paid(s1, block, params);
        CreditSum(p.credited, block.author.value, p.blockReward);
      }
    }
  }

  // ---- Runs ----

  datatype Step = BlockStep(block: Block) | ParamsStep(proposerPoints: seq<Point>, voterPoints: seq<Point>)

  ghost predicate Next(s: Issuance, s': Issuance, params: Params, step: Step)
    requires ParamsOk(params)
  {
    match step
    case BlockStep(block) => s' == FinalizeBlock(s, block, params)
    case ParamsStep(proposerPoints, voterPoints) =>
      s' == s.(proposerPoints := proposerPoints, voterPoints := voterPoints)
  }

  ghost predicate CanStep(s: Issuance, s': Issuance, params: Params) {
    ParamsOk(params) && exists step :: Next(s, s', params, step)
  }

  ghost function Start(initial: nat): Issuance -> bool {
    (s: Issuance) => s.remaining == initial && s.credited == map[]
  }

  ghost function StepOf(params: Params): (Issuance, Issuance) -> bool { (s, s') => CanStep(s, s', params) }

  ghost predicate Backed(s: Issuance, initial: nat) { s.remaining + Total(s.credited, Itself()) == initial }

  ghost function BackedBy(initial: nat): Issuance -> bool { s => Backed(s, initial) }

  lemma BackedInductive(params: Params, initial: nat)
    ensures R.Inductive(Start(initial), StepOf(params), BackedBy(initial))
  {
    forall s | Start(initial)(s)
      ensures BackedBy(initial)(s)
    {
      TotalZero(s.credited, Itself());
    }
    forall s, s' | BackedBy(initial)(s) && StepOf(params)(s, s')
      ensures BackedBy(initial)(s')
    {
      var step :| Next(s, s', params, step);
      if step.BlockStep? {
        BlockConserves(s, step.block, params);
      }
    }
  }

  /** Over every run of blocks, whatever the voters, the authors and the curves, the rewards issued and the remaining
      issuance add up to the initial one. */
  lemma IssuanceIsBounded(run: seq<Issuance>, params: Params, initial: nat, i: nat)
    requires R.IsRun(run, Start(initial), StepOf(params)) && i < |run|
    ensures run[i].remaining + Total(run[i].credited, Itself()) == initial
  {
    BackedInductive(params, initial);
    R.Invariance(run, Start(initial), StepOf(params), BackedBy(initial), i);
    assert BackedBy(initial)(run[i]);
  }

  // ---- The pallet ----

  class Pallet {
    var remaining: nat
    var enabled: bool
    var proposerPoints: seq<Point>
    var voterPoints: seq<Point>
    var usage: nat
    var credited: map<AccountId, nat>

    function State(): Issuance
      reads this
    {
      Issuance(remaining, enabled, proposerPoints, voterPoints, usage, credited)
    }

    constructor (initial: nat, proposer: seq<Point>, voter: seq<Point>)
      ensures State() == Issuance(initial, false, proposer, voter, 0, map[])
    {
      remaining, enabled, proposerPoints, voterPoints, usage, credited := initial, false, proposer, voter, 0, map[];
    }

    /** The points count from the block in which rewards start. */
    method Prepare(block: Block, params: Params)
      modifies this
      ensures State() == Prepared(old(State()), block, params)
      ensures enabled && (old(enabled) ==> proposerPoints == old(proposerPoints) && voterPoints == old(voterPoints))
      ensures !old(enabled) ==>
                && Shifted(old(proposerPoints), proposerPoints, block.number)
                && Shifted(old(voterPoints), voterPoints, block.number)
      ensures Min(old(usage), block.used) <= usage <= Max(old(usage), block.used)
      ensures IsAverage(usage, block.used, old(usage), params.averageOver, block.number)
    {
      AverageIs(block.used, usage, params.averageOver, block.number);
      AverageBetween(block.used, usage, params.averageOver, block.number,
                     Min(usage, block.used), Max(usage, block.used));
      if !enabled {
        ShiftsCurve(proposerPoints, block.number);
        ShiftsCurve(voterPoints, block.number);
        enabled := true;
        proposerPoints := ShiftPoints(proposerPoints, block.number);
        voterPoints := ShiftPoints(voterPoints, block.number);
      }
      usage := AverageUsage(block.used, usage, params.averageOver, block.number);
    }

    method DoFinalize(block: Block, params: Params)
      requires ParamsOk(params)
      modifies this
      ensures State() == FinalizeBlock(old(State()), block, params)
      ensures remaining + Total(credited, Itself()) == old(remaining) + old(Total(credited, Itself()))
      ensures forall a: AccountId :: BlockPaid(old(State()), State(), block, params, a)
    {
      BlockConserves(State(), block, params);
      forall a: AccountId
        ensures BlockPaid(State(), FinalizeBlock(State(), block, params), block, params, a)
      {
        BlockPays(State(), block, params, a);
      }
      if block.rewardsOn {
        PayOut(block, params);
      }
    }

    method PayOut(block: Block, params: Params)
      requires ParamsOk(params) && block.rewardsOn
      modifies this
      ensures State() == FinalizeBlock(old(State()), block, params)
    {
      Prepare(block, params);
      var s := State();
      var own := AuthorReward(s, block, params);
      var p := Payout(remaining - own, own, credited);
      var (reward, tax) := VoteReward(s, block.number, params);
      p := PayVoters(p, block.voters, reward, tax, block.author.Some?);
      credited := p.credited;
      if block.author.Some? && p.blockReward != 0 {
        credited := Credit(credited, block.author.value, p.blockReward);
      }
      remaining := p.remaining;
    }
  }

  lemma PayNext(p: Payout, voters: seq<AccountId>, i: nat, reward: nat, tax: nat, hasAuthor: bool)
    requires i < |voters|
    ensures PayVotes(p, voters[..i + 1], reward, tax, hasAuthor)
            == PayVote(PayVotes(p, voters[..i], reward, tax, hasAuthor), voters[i], reward, tax, hasAuthor)
  {
    assert voters[..i + 1][..i] == voters[..i];
  }

  /** Pays the votes one after the other. */
  method PayVoters(start: Payout, voters: seq<AccountId>, reward: nat, tax: nat, hasAuthor: bool) returns (p: Payout)
    ensures p == PayVotes(start, voters, reward, tax, hasAuthor)
  {
    p := start;
    for i := 0 to |voters|
      invariant p == PayVotes(start, voters[..i], reward, tax, hasAuthor)
    {
      PayNext(start, voters, i, reward, tax, hasAuthor);
      var paid := Min(reward, p.remaining);
      var taxed := Min(tax, p.remaining - paid);
      p := p.(remaining := p.remaining - paid - taxed);
      if hasAuthor {
        p := p.(blockReward := p.blockReward + taxed);
      } else {
        paid := paid + taxed;
      }
      p := p.(credited := Credit(p.credited, voters[i], paid));
    }
    assert voters[..|voters|] == voters;
  }
}
