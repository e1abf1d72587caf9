/** How one step moves the receipts, the confirmed log and the statuses of operators. */
module BlockTreeSteps {
  import opened ReceiptTypes
  import opened StakingTypes
  import opened TreeTypes
  import opened ReceiptChain
  import opened BundleInbox
  import opened OperatorMarks
  import opened BlockTree
  import opened BlockTreeInvariant
  import opened BlockTreeRuns

  /** Slashed operators stay slashed, and those of `slashed` are. */
  ghost predicate StatusFrame(st: Statuses, st': Statuses, slashed: seq<OperatorId>) {
    && st'.Keys == st.Keys
    && (forall o :: o in st && (st[o].Slashed? || o in slashed) ==> st'[o].Slashed?)
  }

  function Submitters(node: Option<Node>): seq<OperatorId> { if node.Some? then node.value.operators else [] }

  /** A step that puts a new head on the chain. */
  ghost predicate HeadMove(s: State, s': State, op: OperatorId, r: Receipt, stale: Option<Node>,
                           confirmed: Option<Node>, c1: Chain) {
    && r.number == s.chain.head + 1
    && PruneFrame(s.chain, c1, stale, r.number) && ExtendFrame(c1, s'.chain, confirmed, op, r)
    && s'.past == Advance(s.past, r.number, confirmed) && s'.added == s.added + [HashOf(r)]
    && StatusFrame(s.statuses, s'.statuses, Submitters(stale)) && s'.nextId == s.nextId
  }

  /** A step that prunes a receipt and rewinds the head below it. */
  ghost predicate FraudMove(s: State, s': State, bad: Node, c1: Chain) {
    && 0 < bad.receipt.number <= s.chain.head
    && PruneFrame(s.chain, c1, Some(bad), bad.receipt.number) && s'.chain == c1.(head := bad.receipt.number - 1)
    && s'.past == s.past && s'.added == s.added
    && StatusFrame(s.statuses, s'.statuses, bad.operators) && s'.nextId == s.nextId
  }

  /** A step that leaves the stored receipts and the head alone, but may add submitters to the head. */
  ghost predicate QuietMove(s: State, s': State) {
    && s'.chain.head == s.chain.head && s'.past == s.past && s'.added == s.added && s.nextId <= s'.nextId
    && s'.chain.nodes.Keys == s.chain.nodes.Keys
    && (forall h :: h in s.chain.nodes ==> s'.chain.nodes[h].receipt == s.chain.nodes[h].receipt
                                           && s.chain.nodes[h].operators <= s'.chain.nodes[h].operators)
    && (forall o :: IsPending(s'.chain, o) <==> IsPending(s.chain, o))
    && (forall o: OperatorId :: o < s.nextId && Gone(s.statuses, o) ==> Gone(s'.statuses, o))
    && (forall o :: o in s.statuses && o !in s'.statuses ==> s.statuses[o].Slashed? || !IsPending(s.chain, o))
    && (forall o :: o in s'.statuses && o < s.nextId ==> o in s.statuses)
  }

  // ---- Every step is one of the three ----

  lemma PunishSlashes(st: Statuses, c: Chain, b: Inbox, bad: Node)
    requires Punish(st, c, b, bad).Done?
    ensures StatusFrame(st, Punish(st, c, b, bad).value, bad.operators)
  {}

  lemma HeadStatuses(s: State, op: OperatorId, r: Receipt, depth: nat, p: HeadParts)
    requires HeadTaken(s, op, r, depth, p)
    ensures StatusFrame(s.statuses, AfterHead(s, r, p).statuses, Submitters(p.stale))
  {
    if p.stale.Some? {
      PunishSlashes(s.statuses, p.c1, s.inbox, p.stale.value);
    }
  }

  lemma ConfirmStatuses(s: State, s': State, r: Receipt, ok: bool)
    requires ConfirmBlock(s, r, ok) == Done(s')
    ensures StatusFrame(s.statuses, s'.statuses, [])
    ensures s'.chain == s.chain && s'.past == s.past && s'.added == s.added && s'.nextId == s.nextId
  {}

  lemma AcceptHeadMoves(s: State, s': State, op: OperatorId, r: Receipt, setup: Setup, ok: bool)
    returns (stale: Option<Node>, confirmed: Option<Node>, c1: Chain)
    requires StateOk(s, setup) && Verify(s.chain, s.inbox, r) == Done(NewHead) && op in s.statuses
    requires AcceptHead(s, op, r, setup.depth, ok) == Done(s')
    ensures HeadMove(s, s', op, r, stale, confirmed, c1)
    ensures HeadStep(s.chain, c1, stale, s'.chain, confirmed, op, r, setup.depth)
  {
    var p := AcceptHeadParts(s, op, r, setup);
    AcceptHeadIs(s, op, r, setup.depth, ok, p);
    HeadStatuses(s, op, r, setup.depth, p);
    HeadStepFrames(s.chain, p.c1, p.stale, p.c2, p.confirmed, op, r, s.past, setup.genesis, setup.depth);
    stale, confirmed, c1 := p.stale, p.confirmed, p.c1;
    if p.confirmed.Some? {
      ConfirmStatuses(AfterHead(s, r, p), s', p.confirmed.value.receipt, ok);
    }
  }

  lemma EndorseMoves(s: State, s': State, op: OperatorId, r: Receipt)
    requires Verify(s.chain, s.inbox, r) == Done(CurrentHead)
    requires Endorse(s.chain, op, r).Done? && s' == s.(chain := Endorse(s.chain, op, r).value)
    ensures QuietMove(s, s')
  {
    VerifiedCurrent(s.chain, s.inbox, r);
    EndorseFrames(s.chain, s'.chain, op, r);
  }

  lemma FraudMoves(s: State, s': State, h: ReceiptHash, setup: Setup) returns (bad: Node, c1: Chain)
    requires StateOk(s, setup) && SubmitFraudProof(s, h) == Done(s')
    ensures FraudMove(s, s', bad, c1)
  {
    FraudKeepsState(s, h, setup);
    FraudKeeps(s.chain, s.past, setup.genesis, setup.depth, h);
    bad := s.chain.nodes[h];
    MatchedAuthors(s.inbox, s.settled, bad.receipt);
    FraudIs(s, h);
    c1 := Removed(s.chain, bad.receipt.number);
    PruneFrames(s.chain, c1, Some(bad), bad.receipt.number);
    PunishSlashes(s.statuses, c1, s.inbox, bad);
  }

  /** `s'` up to its inbox and what was settled. */
  ghost predicate SameTree(s: State, s': State) {
    && s'.chain == s.chain && s'.past == s.past && s'.added == s.added
    && s'.nextId == s.nextId && s'.statuses == s.statuses
  }

  ghost predicate Moves(s: State, s': State, setup: Setup) {
    || (exists op, r, stale, confirmed, c1 ::
          && HeadMove(s, s', op, r, stale, confirmed, c1)
          && HeadStep(s.chain, c1, stale, s'.chain, confirmed, op, r, setup.depth))
    || (exists bad, c1 :: FraudMove(s, s', bad, c1))
    || QuietMove(s, s')
  }

  lemma AcceptMoves(s: State, s': State, op: OperatorId, r: Receipt, setup: Setup, ok: bool)
    requires StateOk(s, setup) && op in s.statuses && Accept(s, op, r, setup.depth, ok) == Done(s')
    ensures Moves(s, s', setup)
  {
    VerifiedKind(s.chain, s.inbox, r);
    if Verify(s.chain, s.inbox, r).value.NewHead? {
      var stale, confirmed, c1 := AcceptHeadMoves(s, s', op, r, setup, ok);
    } else {
      EndorseMoves(s, s', op, r);
    }
  }

  lemma MovesToo(s: State, s1: State, s': State, setup: Setup)
    requires Moves(s, s1, setup) && SameTree(s1, s')
    ensures Moves(s, s', setup)
  {
    if op, r, stale, confirmed, c1 :| HeadMove(s, s1, op, r, stale, confirmed, c1)
                                      && HeadStep(s.chain, c1, stale, s1.chain, confirmed, op, r, setup.depth) {
      assert HeadMove(s, s', op, r, stale, confirmed, c1);
    } else if bad, c1 :| FraudMove(s, s1, bad, c1) {
      assert FraudMove(s, s', bad, c1);
    }
  }

  lemma NextMoves(s: State, s': State, setup: Setup, step: Step)
    requires StateOk(s, setup) && Next(s, s', setup, step)
    ensures Moves(s, s', setup)
  {
    match step
    case BundleStep(op, r, d, ok) =>
      var s1 := Accept(s, op, r, setup.depth, ok).value;
      AcceptMoves(s, s1, op, r, setup, ok);
      MovesToo(s, s1, s', setup);
    case ReceiptStep(op, r, ok) =>
      AcceptMoves(s, s', op, r, setup, ok);
    case FraudStep(h) =>
      var bad, c1 := FraudMoves(s, s', h, setup);
    case _ =>
      OtherMoves(s, s', setup, step);
  }

  lemma OtherMoves(s: State, s': State, setup: Setup, step: Step)
    requires Known(s.chain, s.statuses, s.nextId) && Next(s, s', setup, step)
    requires !step.BundleStep? && !step.ReceiptStep? && !step.FraudStep?
    ensures QuietMove(s, s')
  {}
}
