/** Whole runs of a domain: its block tree and its staking pallet together. */
module DomainRuns {
  import opened ReceiptTypes
  import opened StakingTypes
  import opened TreeTypes
  import opened DomainStaking
  import opened DomainInvariant
  import opened ReceiptChain
  import opened BundleInbox
  import opened OperatorMarks
  import opened BlockTree
  import opened BlockTreeInvariant
  import opened TreeStaking
  import opened SlashRuns
  import BlockTreeRuns
  import BlockTreeSettlement
  import EpochTransition
  import OperatorPool
  import R = Runs
  import SharePrice
  import Slashing
  import StakingRuns

  datatype Whole = Whole(staking: Domain, tree: State)

  /** Both pallets see the same operators with the same statuses, and the same ones pending slash. */
  ghost predicate Agrees(d: Domain, s: State) {
    StatusesOf(d) == s.statuses && d.pendingSlash == PendingIn(s.chain) && d.nextId == s.nextId
  }

  ghost predicate WholeOk(w: Whole, config: Config, setup: Setup) {
    AllOk(w.staking, config) && StateOk(w.tree, setup) && Agrees(w.staking, w.tree)
  }

  // ---- What the block tree calls in the staking pallet ----

  /** The submitters of a fraudulent receipt are slashed and its marks taken back. */
  ghost function Punished(d: Domain, b: Inbox, bad: Node, pending: set<OperatorId>): Result<Domain> {
    var authors := AuthorsOf(b, bad.receipt);
    var d1 :- MarkAllSlashed(d, bad.operators);
    Ok(UnmarkAllInvalid(d1.(pendingSlash := pending), if authors.Done? then authors.value else [], HashOf(bad.receipt)))
  }

  ghost function WithHead(d: Domain, b: Inbox, r: Receipt, p: HeadParts): Result<Domain> {
    var d1 :- if p.stale.Some? then Punished(d, b, p.stale.value, PendingIn(p.c1)) else Ok(d);
    var d2 :- MarkAllInvalid(d1, p.authors, HashOf(r));
    Ok(d2.(pendingSlash := PendingIn(p.c2)))
  }

  ghost function WithConfirmed(d: Domain, b: Inbox, confirmed: Option<Node>): Result<Domain> {
    if confirmed.None? then Ok(d)
    else
      var settled := Confirm(b, confirmed.value.receipt);
      MarkAllSlashed(d, if settled.Done? then settled.value.1.invalid else [])
  }

  ghost predicate HeadCalls(d: Domain, d': Domain, b: Inbox, r: Receipt, p: HeadParts) {
    WithHead(d, b, r, p).Ok? && WithConfirmed(WithHead(d, b, r, p).value, b, p.confirmed) == Ok(d')
  }

  ghost predicate AcceptCalls(d: Domain, d': Domain, s: State, op: OperatorId, r: Receipt, depth: nat) {
    if Verify(s.chain, s.inbox, r) == Done(NewHead)
    then exists p :: HeadTaken(s, op, r, depth, p) && HeadCalls(d, d', s.inbox, r, p)
    else d' == d
  }

  ghost predicate FraudCalls(d: Domain, d': Domain, s: State, h: ReceiptHash) {
    && Target(s.chain, h) && Exists(s.chain, s.chain.nodes[h].receipt.number, h)
    && var bad := s.chain.nodes[h];
    var c1 := Removed(s.chain, bad.receipt.number);
    && Punished(d, s.inbox, bad, PendingIn(c1)).Ok?
    && d' == Punished(d, s.inbox, bad, PendingIn(c1)).value.(
                pendingSlash := PendingIn(c1.(head := bad.receipt.number - 1)))
  }

  // ---- The calls agree ----

  lemma PendingMove(d: Domain, config: Config, ids: set<OperatorId>)
    requires AllOk(d, config) && ConfigOk(config)
    requires forall id :: id in d.pendingSlash && id !in ids && id in d.operators ==> d.operators[id].status.Slashed?
    ensures AllOk(d.(pendingSlash := ids), config) && StatusesOf(d.(pendingSlash := ids)) == StatusesOf(d)
  {
    StepKeepsAll(d, d.(pendingSlash := ids), config, StakingRuns.PendingStep(ids));
  }

  lemma StatusIs(d: Domain, st: Statuses, id: OperatorId)
    requires StatusesOf(d) == st
    ensures id in d.operators <==> id in st
    ensures id in st ==> d.operators[id].status == st[id]
  {}

  lemma PendingInIs(c: Chain, o: OperatorId)
    ensures o in PendingIn(c) <==> IsPending(c, o)
  {}

  /** After the slashing the pending operators may move from those of `c` to those of `c1`. */
  lemma SlashThenMove(d: Domain, config: Config, c: Chain, c1: Chain, slashed: seq<OperatorId>)
    requires AllOk(d, config) && ConfigOk(config) && d.pendingSlash == PendingIn(c)
    requires forall o :: IsPending(c, o) && !IsPending(c1, o) ==> o in slashed
    ensures MarkAllSlashed(d, slashed).Ok?
    ensures var d1 := MarkAllSlashed(d, slashed).value.(pendingSlash := PendingIn(c1));
            AllOk(d1, config) && StatusesOf(d1) == Slash(StatusesOf(d), slashed) && d1.nextId == d.nextId
  {
    SlashAgrees(d, config, slashed);
    MarkAllSlashedKeeps(d, config, slashed);
    var d1 := MarkAllSlashed(d, slashed).value;
    forall id | id in d1.pendingSlash && id !in PendingIn(c1) && id in d1.operators
      ensures d1.operators[id].status.Slashed?
    {
      PendingInIs(c, id);
      PendingInIs(c1, id);
      StatusIs(d1, Slash(StatusesOf(d), slashed), id);
    }
    PendingMove(d1, config, PendingIn(c1));
  }

  lemma PunishAgrees(d: Domain, config: Config, c: Chain, c1: Chain, b: Inbox, bad: Node)
    requires AllOk(d, config) && ConfigOk(config) && d.pendingSlash == PendingIn(c)
    requires forall o :: IsPending(c, o) && !IsPending(c1, o) ==> o in bad.operators
    requires Punish(StatusesOf(d), c1, b, bad).Done?
    ensures Punished(d, b, bad, PendingIn(c1)).Ok?
    ensures var d' := Punished(d, b, bad, PendingIn(c1)).value;
            && AllOk(d', config) && d'.pendingSlash == PendingIn(c1) && d'.nextId == d.nextId
            && StatusesOf(d') == Punish(StatusesOf(d), c1, b, bad).value
  {
    SlashThenMove(d, config, c, c1, bad.operators);
    var d1 := MarkAllSlashed(d, bad.operators).value.(pendingSlash := PendingIn(c1));
    var authors := AuthorsOf(b, bad.receipt).value;
    UnmarkAgrees(d1, config, c1, authors, HashOf(bad.receipt));
    UnmarkAllInvalidKeeps(d1, config, authors, HashOf(bad.receipt));
  }

  /** The statuses after the stale receipt is punished and before the new head marks anybody. */
  lemma StaleAgrees(d: Domain, config: Config, s: State, op: OperatorId, r: Receipt, depth: nat, p: HeadParts)
    returns (d1: Domain)
    requires AllOk(d, config) && ConfigOk(config) && Agrees(d, s) && HeadTaken(s, op, r, depth, p)
    requires PruneFrame(s.chain, p.c1, p.stale, r.number)
    ensures (if p.stale.Some? then Punished(d, s.inbox, p.stale.value, PendingIn(p.c1)) else Ok(d)) == Ok(d1)
    ensures AllOk(d1, config) && StatusesOf(d1) == p.st1 && d1.pendingSlash == PendingIn(p.c1) && d1.nextId == d.nextId
  {
    if p.stale.Some? {
      PunishAgrees(d, config, s.chain, p.c1, s.inbox, p.stale.value);
      d1 := Punished(d, s.inbox, p.stale.value, PendingIn(p.c1)).value;
    } else {
      d1 := d;
    }
  }

  lemma MarkThenMove(d: Domain, config: Config, c1: Chain, c2: Chain, authors: seq<OperatorId>, h: ReceiptHash)
    requires AllOk(d, config) && ConfigOk(config) && d.pendingSlash == PendingIn(c1)
    requires forall o :: IsPending(c1, o) && !IsPending(c2, o) && o in d.operators ==> d.operators[o].status.Slashed?
    ensures MarkAllInvalid(d, authors, h).Ok?
    ensures var d1 := MarkAllInvalid(d, authors, h).value.(pendingSlash := PendingIn(c2));
            AllOk(d1, config) && StatusesOf(d1) == Mark(StatusesOf(d), c1, authors, h) && d1.nextId == d.nextId
  {
    MarkAgrees(d, config, c1, authors, h);
    MarkAllInvalidKeeps(d, config, authors, h);
    var d1 := MarkAllInvalid(d, authors, h).value;
    forall id | id in d1.pendingSlash && id !in PendingIn(c2) && id in d1.operators
      ensures d1.operators[id].status.Slashed?
    {
      PendingInIs(c1, id);
      PendingInIs(c2, id);
      StatusIs(d, StatusesOf(d), id);
      StatusIs(d1, Mark(StatusesOf(d), c1, authors, h), id);
    }
    PendingMove(d1, config, PendingIn(c2));
  }

  lemma StaleSlashed(s: State, op: OperatorId, r: Receipt, depth: nat, p: HeadParts, o: OperatorId)
    requires HeadTaken(s, op, r, depth, p)
    requires PruneFrame(s.chain, p.c1, p.stale, r.number) && ExtendFrame(p.c1, p.c2, p.confirmed, op, r)
    ensures IsPending(p.c1, o) && !IsPending(p.c2, o) && o in p.st1 ==> p.st1[o].Slashed?
  {
    HeadStepPending(s.chain, p.c1, p.stale, p.c2, p.confirmed, op, r, o);
  }

  lemma HeadAgrees(d: Domain, config: Config, s: State, op: OperatorId, r: Receipt, depth: nat, p: HeadParts)
    requires AllOk(d, config) && ConfigOk(config) && Agrees(d, s) && HeadTaken(s, op, r, depth, p)
    requires PruneFrame(s.chain, p.c1, p.stale, r.number) && ExtendFrame(p.c1, p.c2, p.confirmed, op, r)
    ensures WithHead(d, s.inbox, r, p).Ok?
    ensures var d' := WithHead(d, s.inbox, r, p).value; AllOk(d', config) && Agrees(d', AfterHead(s, r, p))
  {
    var d1 := StaleAgrees(d, config, s, op, r, depth, p);
    forall o | IsPending(p.c1, o) && !IsPending(p.c2, o) && o in d1.operators
      ensures d1.operators[o].status.Slashed?
    {
      StaleSlashed(s, op, r, depth, p, o);
      StatusIs(d1, p.st1, o);
    }
    MarkThenMove(d1, config, p.c1, p.c2, p.authors, HashOf(r));
  }

  lemma ConfirmAgrees(d: Domain, config: Config, s1: State, s': State, confirmed: Option<Node>, ok: bool)
    requires AllOk(d, config) && ConfigOk(config) && Agrees(d, s1)
    requires Done(s') == if confirmed.None? then Done(s1) else ConfirmBlock(s1, confirmed.value.receipt, ok)
    ensures WithConfirmed(d, s1.inbox, confirmed).Ok?
    ensures var d' := WithConfirmed(d, s1.inbox, confirmed).value; AllOk(d', config) && Agrees(d', s')
  {
    if confirmed.Some? {
      var invalid := Confirm(s1.inbox, confirmed.value.receipt).value.1.invalid;
      SlashAgrees(d, config, invalid);
      MarkAllSlashedKeeps(d, config, invalid);
    }
  }

  /** A new head changes the operators in the staking pallet exactly as it does in the block tree, and none of its calls
      fails. */
  lemma NewHeadAgrees(d: Domain, config: Config, s: State, s': State, setup: Setup, op: OperatorId, r: Receipt,
                      ok: bool, p: HeadParts)
    requires AllOk(d, config) && ConfigOk(config) && Agrees(d, s) && StateOk(s, setup)
    requires HeadTaken(s, op, r, setup.depth, p) && AcceptHead(s, op, r, setup.depth, ok) == Done(s')
    ensures exists d' :: HeadCalls(d, d', s.inbox, r, p)
    ensures forall d' :: HeadCalls(d, d', s.inbox, r, p) ==> AllOk(d', config) && Agrees(d', s')
  {
    HeadStepFrames(s.chain, p.c1, p.stale, p.c2, p.confirmed, op, r, s.past, setup.genesis, setup.depth);
    AcceptHeadIs(s, op, r, setup.depth, ok, p);
    HeadAgrees(d, config, s, op, r, setup.depth, p);
    var d1 := WithHead(d, s.inbox, r, p).value;
    ConfirmAgrees(d1, config, AfterHead(s, r, p), s', p.confirmed, ok);
    assert HeadCalls(d, WithConfirmed(d1, s.inbox, p.confirmed).value, s.inbox, r, p);
  }

  lemma AcceptAgrees(d: Domain, config: Config, s: State, s': State, setup: Setup, op: OperatorId, r: Receipt, ok: bool)
    requires AllOk(d, config) && ConfigOk(config) && Agrees(d, s) && StateOk(s, setup) && op in s.statuses
    requires Accept(s, op, r, setup.depth, ok) == Done(s')
    ensures exists d' :: AcceptCalls(d, d', s, op, r, setup.depth)
    ensures forall d' :: AcceptCalls(d, d', s, op, r, setup.depth) ==> AllOk(d', config) && Agrees(d', s')
  {
    VerifiedKind(s.chain, s.inbox, r);
    if Verify(s.chain, s.inbox, r).value.NewHead? {
      var p := AcceptHeadParts(s, op, r, setup);
      NewHeadAgrees(d, config, s, s', setup, op, r, ok, p);
      var made :| HeadCalls(d, made, s.inbox, r, p);
      assert AcceptCalls(d, made, s, op, r, setup.depth);
      forall d' | AcceptCalls(d, d', s, op, r, setup.depth)
        ensures AllOk(d', config) && Agrees(d', s')
      {
        var q :| HeadTaken(s, op, r, setup.depth, q) && HeadCalls(d, d', s.inbox, r, q);
        NewHeadAgrees(d, config, s, s', setup, op, r, ok, q);
      }
    } else {
      VerifiedCurrent(s.chain, s.inbox, r);
      EndorseFrames(s.chain, s'.chain, op, r);
      SamePending(s.chain, s'.chain);
      assert AcceptCalls(d, d, s, op, r, setup.depth);
    }
  }

  lemma SamePending(c: Chain, c': Chain)
    requires forall o :: IsPending(c', o) <==> IsPending(c, o)
    ensures PendingIn(c') == PendingIn(c)
  {
    forall o: OperatorId
      ensures o in PendingIn(c') <==> o in PendingIn(c)
    {
      PendingInIs(c, o);
      PendingInIs(c', o);
    }
  }

  lemma FraudPending(c: Chain, c1: Chain, bad: Node, number: nat, o: OperatorId)
    requires PruneFrame(c, c1, Some(bad), number) && 0 < number <= c.head
    ensures IsPending(c, o) ==> IsPending(c1, o)
    ensures IsPending(c1, o) ==> IsPending(c1.(head := number - 1), o)
  {}

  lemma FraudAgrees(d: Domain, config: Config, s: State, s': State, setup: Setup, h: ReceiptHash)
    requires AllOk(d, config) && ConfigOk(config) && Agrees(d, s) && StateOk(s, setup)
    requires SubmitFraudProof(s, h) == Done(s')
    ensures exists d' :: FraudCalls(d, d', s, h)
    ensures forall d' :: FraudCalls(d, d', s, h) ==> AllOk(d', config) && Agrees(d', s')
  {
    FraudKeepsState(s, h, setup);
    FraudKeeps(s.chain, s.past, setup.genesis, setup.depth, h);
    var bad := s.chain.nodes[h];
    MatchedAuthors(s.inbox, s.settled, bad.receipt);
    FraudIs(s, h);
    var number, c1 := bad.receipt.number, Removed(s.chain, bad.receipt.number);
    PruneFrames(s.chain, c1, Some(bad), number);
    var d' := ChallengeAgrees(d, config, s, bad, c1, number);
    assert FraudCalls(d, d', s, h);
  }

  lemma ChallengeAgrees(d: Domain, config: Config, s: State, bad: Node, c1: Chain, number: nat) returns (d': Domain)
    requires AllOk(d, config) && ConfigOk(config) && Agrees(d, s) && PruneFrame(s.chain, c1, Some(bad), number)
    requires 0 < number <= s.chain.head && Punish(s.statuses, c1, s.inbox, bad).Done?
    ensures Punished(d, s.inbox, bad, PendingIn(c1)).Ok?
    ensures d' == Punished(d, s.inbox, bad, PendingIn(c1)).value.(pendingSlash := PendingIn(c1.(head := number - 1)))
    ensures AllOk(d', config) && d'.nextId == d.nextId
    ensures StatusesOf(d') == Punish(s.statuses, c1, s.inbox, bad).value
  {
    var c' := c1.(head := number - 1);
    forall o: OperatorId
      ensures IsPending(s.chain, o) ==> IsPending(c1, o)
      ensures o in PendingIn(c1) ==> o in PendingIn(c')
    {
      FraudPending(s.chain, c1, bad, number, o);
      PendingInIs(c1, o);
      PendingInIs(c', o);
    }
    PunishAgrees(d, config, s.chain, c1, s.inbox, bad);
    var d1 := Punished(d, s.inbox, bad, PendingIn(c1)).value;
    PendingMove(d1, config, PendingIn(c'));
    d' := d1.(pendingSlash := PendingIn(c'));
  }

  // ---- Steps of both ----

  datatype Step =
    | TreeStep(treeCall: BlockTreeRuns.Step)
    | StakingStep(stakingCall: StakingRuns.Step)

  ghost predicate TreeCalls(d: Domain, d': Domain, s: State, setup: Setup, call: BlockTreeRuns.Step) {
    match call
    case BundleStep(op, r, _, _) => AcceptCalls(d, d', s, op, r, setup.depth)
    case ReceiptStep(op, r, _) => AcceptCalls(d, d', s, op, r, setup.depth)
    case FraudStep(h) => FraudCalls(d, d', s, h)
    case BlockStep(_) => d' == d
    // operators are registered and removed, and change their status, by calls of the staking pallet
    case _ => false
  }

  /** Slashing and marking is left to the block tree. */
  ghost predicate OwnCall(call: StakingRuns.Step) {
    !call.MarkSlashedStep? && !call.MarkInvalidStep? && !call.UnmarkInvalidStep? && !call.PendingStep?
  }

  ghost predicate Next(w: Whole, w': Whole, config: Config, setup: Setup, step: Step) {
    match step
    case TreeStep(call) =>
      && BlockTreeRuns.Next(w.tree, w'.tree, setup, call)
      && TreeCalls(w.staking, w'.staking, w.tree, setup, call)
    case StakingStep(call) =>
      && OwnCall(call) && StakingRuns.Next(w.staking, w'.staking, config, call) && StakingRuns.Timely(w.staking, call)
      && w'.tree == w.tree.(statuses := StatusesOf(w'.staking), nextId := w'.staking.nextId)
  }

  /** Whatever the block tree does, the staking pallet can follow. */
  lemma TreeNeverWaits(w: Whole, s': State, config: Config, setup: Setup, call: BlockTreeRuns.Step)
    requires WholeOk(w, config, setup) && ConfigOk(config) && BlockTreeRuns.Next(w.tree, s', setup, call)
    requires call.BundleStep? || call.ReceiptStep? || call.FraudStep? || call.BlockStep?
    ensures exists d' :: Next(w, Whole(d', s'), config, setup, TreeStep(call))
    ensures forall d' :: TreeCalls(w.staking, d', w.tree, setup, call) ==> AllOk(d', config) && Agrees(d', s')
  {
    TreeAgrees(w.staking, w.tree, s', config, setup, call);
    var d' :| TreeCalls(w.staking, d', w.tree, setup, call);
    assert Next(w, Whole(d', s'), config, setup, TreeStep(call));
  }

  lemma TreeAgrees(d: Domain, s: State, s': State, config: Config, setup: Setup, call: BlockTreeRuns.Step)
    requires AllOk(d, config) && ConfigOk(config) && Agrees(d, s) && StateOk(s, setup)
    requires BlockTreeRuns.Next(s, s', setup, call)
    requires call.BundleStep? || call.ReceiptStep? || call.FraudStep? || call.BlockStep?
    ensures exists d' :: TreeCalls(d, d', s, setup, call)
    ensures forall d' :: TreeCalls(d, d', s, setup, call) ==> AllOk(d', config) && Agrees(d', s')
  {
    match call
    case BundleStep(op, r, _, ok) =>
      AcceptAgrees(d, config, s, Accept(s, op, r, setup.depth, ok).value, setup, op, r, ok);
      BundleIds(s, s', op, r, call.d, setup.depth, ok);
      var d' :| AcceptCalls(d, d', s, op, r, setup.depth);
      assert TreeCalls(d, d', s, setup, call);
    case ReceiptStep(op, r, ok) =>
      AcceptAgrees(d, config, s, s', setup, op, r, ok);
      var d' :| AcceptCalls(d, d', s, op, r, setup.depth);
      assert TreeCalls(d, d', s, setup, call);
    case FraudStep(h) =>
      FraudAgrees(d, config, s, s', setup, h);
      var d' :| FraudCalls(d, d', s, h);
      assert TreeCalls(d, d', s, setup, call);
    case BlockStep(_) =>
      assert TreeCalls(d, d, s, setup, call);
  }

  lemma BundleIds(s: State, s': State, op: OperatorId, r: Receipt, dig: Digest, depth: nat, ok: bool)
    requires SubmitBundle(s, op, r, dig, depth, ok) == Done(s')
    ensures var s1 := Accept(s, op, r, depth, ok).value;
            s'.statuses == s1.statuses && s'.chain == s1.chain && s'.nextId == s1.nextId
  {}

  // ---- Calls of the staking pallet, seen from the block tree ----

  /** Nothing, or a step of the block tree. */
  ghost predicate Follows(s: State, s': State, setup: Setup) { s' == s || BlockTreeRuns.CanStep(s, s', setup) }

  ghost function Mirrored(s: State, d: Domain): State { s.(statuses := StatusesOf(d), nextId := d.nextId) }

  ghost predicate SameStatuses(d: Domain, d': Domain) {
    && d'.operators.Keys == d.operators.Keys && d'.nextId == d.nextId && d'.pendingSlash == d.pendingSlash
    && (forall id :: id in d.operators ==> d'.operators[id].status == d.operators[id].status)
  }

  lemma SameFollows(d: Domain, d': Domain, s: State, setup: Setup)
    requires Agrees(d, s) && SameStatuses(d, d')
    ensures Agrees(d', Mirrored(s, d')) && Follows(s, Mirrored(s, d'), setup)
  {
    assert StatusesOf(d') == StatusesOf(d);
  }

  lemma RemoveFollows(d: Domain, d': Domain, s: State, setup: Setup, id: OperatorId)
    requires Agrees(d, s) && id in d.operators && d'.operators == d.operators - {id}
    requires d'.nextId == d.nextId && d'.pendingSlash == d.pendingSlash
    requires d.operators[id].status.Slashed? || (d.operators[id].status.Deregistered? && id !in d.pendingSlash)
    ensures Agrees(d', Mirrored(s, d')) && Follows(s, Mirrored(s, d'), setup)
  {
    StatusIs(d, s.statuses, id);
    PendingInIs(s.chain, id);
    assert StatusesOf(d') == StatusesOf(d) - {id};
    assert BlockTreeRuns.Next(s, Mirrored(s, d'), setup, BlockTreeRuns.RemoveStep(id));
  }

  lemma StatusFollows(d: Domain, d': Domain, s: State, setup: Setup, id: OperatorId, status: OperatorStatus)
    requires Agrees(d, s) && id in d.operators && StatusAt(d, d', id, status) && d'.nextId == d.nextId
    requires !d.operators[id].status.Slashed? && !d.operators[id].status.InvalidBundle?
    requires status.Registered? || status.Deregistered? || status.Deactivated?
    ensures Agrees(d', Mirrored(s, d')) && Follows(s, Mirrored(s, d'), setup)
  {
    StatusIs(d, s.statuses, id);
    StatusesAt(d, d', id, status);
    assert BlockTreeRuns.Next(s, Mirrored(s, d'), setup, BlockTreeRuns.StatusStep(id, status));
  }

  lemma RegisterFollows(d: Domain, d': Domain, s: State, config: Config, setup: Setup, call: StakingRuns.Step)
    requires Agrees(d, s) && call.RegisterStep? && StakingRuns.Next(d, d', config, call)
    ensures Agrees(d', Mirrored(s, d')) && Follows(s, Mirrored(s, d'), setup)
  {
    assert StatusesOf(d') == StatusesOf(d)[d.nextId := Registered];
    assert BlockTreeRuns.Next(s, Mirrored(s, d'), setup, BlockTreeRuns.RegisterStep);
  }

  lemma OwnerFollows(d: Domain, d': Domain, s: State, config: Config, setup: Setup, call: StakingRuns.Step)
    requires Agrees(d, s) && StakingRuns.Next(d, d', config, call)
    requires call.DeregisterStep? || call.DeactivateStep? || call.ReactivateStep?
    ensures Agrees(d', Mirrored(s, d')) && Follows(s, Mirrored(s, d'), setup)
  {
    OwnerSetsStatus(d, d', config, call);
    StatusFollows(d, d', s, setup, call.id, d'.operators[call.id].status);
  }

  lemma OwnerSetsStatus(d: Domain, d': Domain, config: Config, call: StakingRuns.Step)
    requires StakingRuns.Next(d, d', config, call)
    requires call.DeregisterStep? || call.DeactivateStep? || call.ReactivateStep?
    ensures call.id in d.operators && call.id in d'.operators && d'.nextId == d.nextId
    ensures StatusAt(d, d', call.id, d'.operators[call.id].status)
    ensures !d.operators[call.id].status.Slashed? && !d.operators[call.id].status.InvalidBundle?
    ensures var now := d'.operators[call.id].status; now.Registered? || now.Deregistered? || now.Deactivated?
  {}

  lemma NominatorsKeepStatuses(d: Domain, d': Domain, config: Config, call: StakingRuns.Step)
    requires StakingRuns.Next(d, d', config, call)
    requires call.NominateStep? || call.WithdrawStep? || call.UnlockFundsStep?
    ensures SameStatuses(d, d')
  {
    match call
    case NominateStep(i, n, amount) =>
      NominateFrame(d.operators[i], d'.operators[i], d.epoch, i in d.pendingSlash, n, amount);
    case WithdrawStep(i, n, shares) =>
      WithdrawFrame(d.operators[i], d'.operators[i], config, d.epoch, d.head, i in d.pendingSlash, RewardIn(d, i), n,
                    shares);
    case UnlockFundsStep(i, n) =>
      UnlockFundsFrame(d.operators[i], d'.operators[i], d.epoch, d.head, i in d.pendingSlash, n);
  }

  lemma OthersKeepStatuses(d: Domain, d': Domain, config: Config, call: StakingRuns.Step)
    requires StakingRuns.Next(d, d', config, call) && (call.RewardStep? || call.AdvanceStep? || call.FundStep?)
    ensures SameStatuses(d, d')
  {}

  lemma EpochKeepsStatuses(d: Domain, d': Domain, config: Config, chainRewards: nat)
    requires Inv(d, config) && EndEpoch(d, chainRewards) == Some(d')
    ensures SameStatuses(d, d')
  {
    forall id | id in d.operators
      ensures id in d'.operators && d'.operators[id].status == d.operators[id].status
    {
      if Live(d, id) {
        EpochTransition.EndEpochPool(d, d', chainRewards, id);
        EpochTransition.BoundaryFrame(d.operators[id], d'.operators[id], d.epoch, FullReward(d, id, chainRewards));
      } else {
        EpochTransition.EndEpochOthers(d, d', chainRewards, id);
      }
    }
  }

  lemma LeavingFollows(d: Domain, d': Domain, s: State, config: Config, setup: Setup, call: StakingRuns.Step)
    requires Agrees(d, s) && call.UnlockNominatorStep? && StakingRuns.Next(d, d', config, call)
    ensures Agrees(d', Mirrored(s, d')) && Follows(s, Mirrored(s, d'), setup)
  {
    var p := d.operators[call.id];
    var p' := OperatorPool.UnlockNominator(p, d.epoch, d.head, call.id in d.pendingSlash, call.n).value;
    UnlockNominatorFrame(p, p', d.epoch, d.head, call.id in d.pendingSlash, call.n);
    if p'.deposits == map[] && p'.withdrawals == map[] {
      RemoveFollows(d, d', s, setup, call.id);
    } else {
      SameFollows(d, d', s, setup);
    }
  }

  lemma DrainFollows(d: Domain, d': Domain, s: State, config: Config, setup: Setup, call: StakingRuns.Step)
    requires SetsOk(d) && Agrees(d, s) && call.DrainStep? && StakingRuns.Next(d, d', config, call)
    ensures Agrees(d', Mirrored(s, d')) && Follows(s, Mirrored(s, d'), setup)
  {
    assert OperatorOk(d, call.id);
    DrainedStatuses(d, d', call.id, call.ns, call.treasury);
    if call.id !in d'.operators {
      RemoveFollows(d, d', s, setup, call.id);
    } else {
      SameFollows(d, d', s, setup);
    }
  }

  lemma DrainedStatuses(d: Domain, d': Domain, id: OperatorId, ns: seq<AccountId>, treasury: nat)
    requires id in d.operators && DrainSlashed(d, id, ns, treasury) == Ok(d')
    ensures if id in d'.operators then SameStatuses(d, d')
            else d'.operators == d.operators - {id} && d'.nextId == d.nextId && d'.pendingSlash == d.pendingSlash
  {
    var p := d.operators[id];
    Slashing.SlashEachTakes(p, d.epoch, SharePrice.New(p.totalShares, p.totalStake).value, ns);
  }

  /** Every call of owners, nominators and the epoch is nothing to the block tree, or one of its own steps. */
  lemma StakingFollows(d: Domain, d': Domain, s: State, config: Config, setup: Setup, call: StakingRuns.Step)
    requires Inv(d, config) && Agrees(d, s) && OwnCall(call) && StakingRuns.Next(d, d', config, call)
    ensures Agrees(d', Mirrored(s, d')) && Follows(s, Mirrored(s, d'), setup)
  {
    if call.RegisterStep? {
      RegisterFollows(d, d', s, config, setup, call);
    } else if call.DeregisterStep? || call.DeactivateStep? || call.ReactivateStep? {
      OwnerFollows(d, d', s, config, setup, call);
    } else if call.UnlockNominatorStep? {
      LeavingFollows(d, d', s, config, setup, call);
    } else if call.DrainStep? {
      DrainFollows(d, d', s, config, setup, call);
    } else {
      if call.NominateStep? || call.WithdrawStep? || call.UnlockFundsStep? {
        NominatorsKeepStatuses(d, d', config, call);
      } else if call.EndEpochStep? {
        EpochKeepsStatuses(d, d', config, call.chainRewards);
      } else {
        OthersKeepStatuses(d, d', config, call);
      }
      SameFollows(d, d', s, setup);
    }
  }

  // ---- Runs ----

  lemma NextKeepsWhole(w: Whole, w': Whole, config: Config, setup: Setup, step: Step)
    requires WholeOk(w, config, setup) && ConfigOk(config) && Next(w, w', config, setup, step)
    ensures WholeOk(w', config, setup)
  {
    match step
    case TreeStep(call) =>
      TreeNeverWaits(w, w'.tree, config, setup, call);
      BlockTreeRuns.NextKeeps(w.tree, w'.tree, setup, call);
    case StakingStep(call) =>
      StepKeepsAll(w.staking, w'.staking, config, call);
      StakingFollows(w.staking, w'.staking, w.tree, config, setup, call);
      if w'.tree != w.tree {
        var t :| BlockTreeRuns.Next(w.tree, w'.tree, setup, t);
        BlockTreeRuns.NextKeeps(w.tree, w'.tree, setup, t);
      }
  }

  ghost predicate CanStep(w: Whole, w': Whole, config: Config, setup: Setup) {
    exists step :: Next(w, w', config, setup, step)
  }

  ghost predicate Starts(w: Whole, setup: Setup) { w.staking == EmptyDomain() && BlockTreeRuns.Starts(w.tree, setup) }

  ghost function Start(setup: Setup): Whole -> bool { w => Starts(w, setup) }

  ghost function StepOf(config: Config, setup: Setup): (Whole, Whole) -> bool {
    (w, w') => CanStep(w, w', config, setup)
  }

  ghost function OkOf(config: Config, setup: Setup): Whole -> bool { w => WholeOk(w, config, setup) }

  lemma StartOk(w: Whole, config: Config, setup: Setup)
    requires BlockTreeRuns.SetupOk(setup) && Starts(w, setup)
    ensures WholeOk(w, config, setup)
  {
    var block, parentHash :| setup.genesis.consensus < block && w.tree == Init(setup, block, parentHash);
    InitOk(setup, block, parentHash);
    EmptyOk(config);
    assert StatusesOf(EmptyDomain()) == map[];
  }

  lemma OkInductive(config: Config, setup: Setup)
    requires ConfigOk(config) && BlockTreeRuns.SetupOk(setup)
    ensures R.Inductive(Start(setup), StepOf(config, setup), OkOf(config, setup))
  {
    forall w | Start(setup)(w)
      ensures OkOf(config, setup)(w)
    {
      StartOk(w, config, setup);
    }
    forall w, w' | OkOf(config, setup)(w) && StepOf(config, setup)(w, w')
      ensures OkOf(config, setup)(w')
    {
      var step :| Next(w, w', config, setup, step);
      NextKeepsWhole(w, w', config, setup, step);
    }
  }

  ghost predicate Run(run: seq<Whole>, config: Config, setup: Setup) {
    ConfigOk(config) && BlockTreeRuns.SetupOk(setup) && R.IsRun(run, Start(setup), StepOf(config, setup))
  }

  /** Along every run of the whole domain both pallets stay sound and agree on every operator. */
  lemma PalletsAgree(run: seq<Whole>, config: Config, setup: Setup, i: nat)
    requires Run(run, config, setup) && i < |run|
    ensures WholeOk(run[i], config, setup)
  {
    OkInductive(config, setup);
    R.Invariance(run, Start(setup), StepOf(config, setup), OkOf(config, setup), i);
    assert OkOf(config, setup)(run[i]);
  }

  // ---- What the operators of a domain can rely on ----

  /** The next operators that are not pending slash are exactly the operators in good standing, everybody in the running
      operator set may submit bundles unless pending slash, and the slashed ones are exactly those waiting to be
      slashed. */
  lemma OperatorSetsInGoodStanding(run: seq<Whole>, config: Config, setup: Setup, i: nat, id: OperatorId)
    requires Run(run, config, setup) && i < |run|
    ensures var d, s := run[i].staking, run[i].tree;
            && (id in d.next && !IsPending(s.chain, id) <==>
                id in s.statuses && s.statuses[id].Registered? && !IsPending(s.chain, id))
            && (id in d.current && !IsPending(s.chain, id) ==> CanSubmit(s.statuses, s.chain, id))
            && (id in d.pendingSlashes <==> id in s.statuses && s.statuses[id].Slashed?)
  {
    PalletsAgree(run, config, setup, i);
    StandingOk(run[i].staking, run[i].tree, id);
  }

  lemma StandingOk(d: Domain, s: State, id: OperatorId)
    requires SetsOk(d) && Agrees(d, s)
    ensures id in d.next && !IsPending(s.chain, id) <==>
            id in s.statuses && s.statuses[id].Registered? && !IsPending(s.chain, id)
    ensures id in d.current && !IsPending(s.chain, id) ==> CanSubmit(s.statuses, s.chain, id)
    ensures id in d.pendingSlashes <==> id in s.statuses && s.statuses[id].Slashed?
    ensures id in s.statuses && (s.statuses[id].InvalidBundle? || s.statuses[id].Slashed?) ==>
              id !in d.next && id !in d.current
  {
    StatusIs(d, s.statuses, id);
    PendingInIs(s.chain, id);
    if id in d.operators {
      assert OperatorOk(d, id);
    }
  }

  /** An operator marked for an invalid bundle is in no operator set. When the receipt that marked it leaves the tree it
      is slashed and waits for it, or it is back among the next operators, or another receipt that is still stored marks
      it, or it has become pending slash. */
  lemma MarkedOperators(w: Whole, w': Whole, config: Config, setup: Setup, step: Step, h: ReceiptHash, o: OperatorId)
    requires WholeOk(w, config, setup) && ConfigOk(config) && Next(w, w', config, setup, step)
    requires BlockTreeSettlement.MarkedBy(w.tree, o, h) && h !in w'.tree.chain.nodes
    ensures o !in w.staking.next && o !in w.staking.current
    ensures BlockTreeSettlement.Resolved(w.tree, w'.tree, h, o)
    ensures || o in w'.staking.pendingSlashes
            || o in w'.staking.next
            || (w'.tree.statuses[o].InvalidBundle? && o !in w'.staking.next && o !in w'.staking.current)
            || IsPending(w'.tree.chain, o)
  {
    NextKeepsWhole(w, w', config, setup, step);
    StandingOk(w.staking, w.tree, o);
    StandingOk(w'.staking, w'.tree, o);
    assert MarkOk(w.tree.chain, w.tree.inbox, w.tree.statuses, o);
    if step.TreeStep? {
      BlockTreeSettlement.MarksResolve(w.tree, w'.tree, setup, step.treeCall, h, o);
    } else {
      assert false;
    }
  }
}
