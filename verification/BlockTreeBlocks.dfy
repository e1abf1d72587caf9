/** What is accepted in a consensus block. */
module BlockTreeBlocks {
  import opened ReceiptTypes
  import opened TreeTypes
  import opened ReceiptChain
  import opened BundleInbox
  import opened BlockTree
  import opened BlockTreeInvariant
  import opened BlockTreeRuns
  import opened BlockTreeSteps
  import R = Runs

  lemma HeadAdds(s: State, s': State, setup: Setup, op: OperatorId, r: Receipt, ok: bool)
    requires AcceptHead(s, op, r, setup.depth, ok) == Done(s')
    ensures s'.added == s.added + [HashOf(r)] && s'.added != s.added
  {
    assert |s'.added| == |s.added| + 1;
  }

  lemma VerifiedReport(c: Chain, b: Inbox, r: Receipt)
    requires Verify(c, b, r) == Done(NewHead)
    ensures r.wellFormed && ExpectedHash(b, r.consensus) == Done(r.consensusHash)
    ensures r.bundles != [] && SameRoots(r.bundles, DigestsOf(b, r))
  {}

  /** A new head is well formed, extends the old one, and reports the bundles that its consensus block put into the
      inbox of its number. */
  lemma AcceptedHead(s: State, s': State, setup: Setup, op: OperatorId, r: Receipt, ok: bool)
    requires StateOk(s, setup) && Accept(s, op, r, setup.depth, ok) == Done(s') && s'.added != s.added
    ensures r.number == s.chain.head + 1 && Exists(s.chain, s.chain.head, r.parent)
    ensures s.chain.newHead.None? && s'.added == s.added + [HashOf(r)]
    ensures r.wellFormed && ExpectedHash(s.inbox, r.consensus) == Done(r.consensusHash) && r.consensus < s.inbox.block
    ensures r.bundles != [] && SameRoots(r.bundles, DigestsOf(s.inbox, r))
  {
    VerifiedKind(s.chain, s.inbox, r);
    if Verify(s.chain, s.inbox, r).value.NewHead? {
      VerifiedHead(s.chain, s.inbox, r);
      VerifiedReport(s.chain, s.inbox, r);
      HeadAdds(s, s', setup, op, r, ok);
    }
  }

  /** Any other receipt that is accepted is the stored head itself. */
  lemma AcceptedAgain(s: State, s': State, op: OperatorId, r: Receipt, setup: Setup, ok: bool)
    requires StateOk(s, setup) && Accept(s, op, r, setup.depth, ok) == Done(s') && s'.added == s.added
    ensures Exists(s.chain, s.chain.head, HashOf(r)) && HashOf(r) in s'.chain.nodes
    ensures s'.chain.nodes[HashOf(r)].operators == s.chain.nodes[HashOf(r)].operators + [op]
  {
    VerifiedKind(s.chain, s.inbox, r);
    if Verify(s.chain, s.inbox, r).value.NewHead? {
      HeadAdds(s, s', setup, op, r, ok);
      assert false;
    } else {
      VerifiedCurrent(s.chain, s.inbox, r);
    }
  }

  /** Bundles come from operators in good standing and only when at most one receipt is missing. */
  lemma AcceptedBundle(s: State, s': State, op: OperatorId, r: Receipt, d: Digest, depth: nat, ok: bool)
    requires SubmitBundle(s, op, r, d, depth, ok) == Done(s')
    ensures s.inbox.headDomain <= s.chain.head + 1
    ensures op in s.statuses && !IsPending(s.chain, op) && (s.statuses[op].Registered? || s.statuses[op].Deregistered?)
    ensures d.header in s'.inbox.authors && s'.inbox.authors[d.header] == op && s'.inbox.bundled
  {}

  // ---- One new head in a block ----

  lemma AcceptBlock(s: State, s': State, op: OperatorId, r: Receipt, depth: nat, ok: bool)
    requires Accept(s, op, r, depth, ok) == Done(s')
    ensures s'.inbox.block == s.inbox.block
  {}

  /** The head of the block is kept, or there was none and there is one now. */
  ghost predicate HeadOnce(s: State, s': State) {
    || (s'.added == s.added && s'.chain.newHead == s.chain.newHead)
    || (s.chain.newHead.None? && s'.chain.newHead.Some? && |s'.added| == |s.added| + 1)
  }

  lemma AcceptOnce(s: State, s': State, setup: Setup, op: OperatorId, r: Receipt, ok: bool)
    requires StateOk(s, setup) && op in s.statuses && Accept(s, op, r, setup.depth, ok) == Done(s')
    ensures HeadOnce(s, s')
  {
    VerifiedKind(s.chain, s.inbox, r);
    if Verify(s.chain, s.inbox, r).value.NewHead? {
      VerifiedHead(s.chain, s.inbox, r);
      var stale, confirmed, c1 := AcceptHeadMoves(s, s', op, r, setup, ok);
      HeadStepKeeps(s.chain, c1, stale, s'.chain, confirmed, op, r, s.past, setup.genesis, setup.depth);
      ExtendKeeps(c1, s.past, op, r, setup.genesis, setup.depth);
    }
  }

  /** Within a block the head is extended at most once, and not at all after it was. */
  ghost predicate WithinBlock(a: State, s: State) {
    && a.inbox.block <= s.inbox.block
    && (a.inbox.block == s.inbox.block ==> HeadOnce(a, s))
  }

  lemma NextOnce(s: State, s': State, setup: Setup, step: Step)
    requires StateOk(s, setup) && Next(s, s', setup, step)
    ensures WithinBlock(s, s')
  {
    match step
    case BundleStep(op, r, d, ok) =>
      var s1 := Accept(s, op, r, setup.depth, ok).value;
      AcceptOnce(s, s1, setup, op, r, ok);
      AcceptBlock(s, s1, op, r, setup.depth, ok);
    case ReceiptStep(op, r, ok) =>
      AcceptOnce(s, s', setup, op, r, ok);
      AcceptBlock(s, s', op, r, setup.depth, ok);
    case _ =>
  }

  ghost function BlockRel(): (State, State) -> bool { (a, s) => WithinBlock(a, s) }

  lemma BlockSteps(setup: Setup)
    ensures R.EachStep(StepOf(setup), OkOf(setup), BlockRel())
  {
    forall s, s' | OkOf(setup)(s) && StepOf(setup)(s, s')
      ensures BlockRel()(s, s')
    {
      var step :| Next(s, s', setup, step);
      NextOnce(s, s', setup, step);
    }
  }

  lemma BlockOrder()
    ensures R.Preorder(BlockRel())
  {}

  lemma BlockExtends(setup: Setup)
    ensures R.Extends(StepOf(setup), OkOf(setup), BlockRel())
  {
    BlockSteps(setup);
    BlockOrder();
    R.ExtendsByOrder(StepOf(setup), OkOf(setup), BlockRel());
  }

  lemma StartFresh(s: State, setup: Setup)
    requires Start(setup)(s)
    ensures s.chain.newHead.None?
  {}

  lemma NewBlockFresh(s: State, s': State, setup: Setup, step: Step)
    requires Next(s, s', setup, step) && s'.inbox.block != s.inbox.block
    ensures s'.chain.newHead.None?
  {
    match step
    case BundleStep(op, r, d, ok) =>
      AcceptBlock(s, Accept(s, op, r, setup.depth, ok).value, op, r, setup.depth, ok);
    case ReceiptStep(op, r, ok) => AcceptBlock(s, s', op, r, setup.depth, ok);
    case _ =>
  }

  /** Over every run, what counts as the new head of a block was added in that block: every block may add one. */
  lemma {:induction false} NewHeadIsNew(run: seq<State>, setup: Setup, i: nat) returns (j: nat)
    requires Run(run, setup) && i < |run| && run[i].chain.newHead.Some?
    ensures j < i && run[j].inbox.block == run[i].inbox.block && |run[j].added| < |run[i].added|
  {
    StartFresh(run[0], setup);
    assert StepOf(setup)(run[i - 1], run[i]);
    var step :| Next(run[i - 1], run[i], setup, step);
    RunOk(run, setup, i - 1);
    NextOnce(run[i - 1], run[i], setup, step);
    if run[i].inbox.block != run[i - 1].inbox.block {
      NewBlockFresh(run[i - 1], run[i], setup, step);
      assert false;
    } else if run[i].added == run[i - 1].added && run[i].chain.newHead == run[i - 1].chain.newHead {
      j := NewHeadIsNew(run, setup, i - 1);
    } else {
      j := i - 1;
    }
  }

  /** Over every run, a consensus block adds at most one new head, however many bundles and fraud proofs it holds. */
  lemma OneHeadPerBlock(run: seq<State>, setup: Setup, i: nat, j: nat)
    requires Run(run, setup) && i <= j < |run| && run[i].inbox.block == run[j].inbox.block
    ensures |run[i].added| <= |run[j].added| <= |run[i].added| + 1
    ensures run[i].chain.newHead.Some? ==> run[j].added == run[i].added
  {
    OkInductive(setup);
    BlockExtends(setup);
    R.Progress(run, Start(setup), StepOf(setup), OkOf(setup), BlockRel(), i, j);
    assert BlockRel()(run[i], run[j]);
  }
}
