/** What the block tree promises over whole runs. */
module BlockTreeTheorems {
  import opened ReceiptTypes
  import opened StakingTypes
  import opened TreeTypes
  import opened ReceiptChain
  import opened BundleInbox
  import opened OperatorMarks
  import opened BlockTree
  import opened BlockTreeInvariant
  import opened BlockTreeRuns
  import opened BlockTreeSteps
  import R = Runs

  lemma StepMoves(s: State, s': State, setup: Setup)
    requires OkOf(setup)(s) && StepOf(setup)(s, s')
    ensures Moves(s, s', setup) && Bijection(s.chain) && Known(s.chain, s.statuses, s.nextId)
  {
    var step :| Next(s, s', setup, step);
    NextMoves(s, s', setup, step);
  }

  // ---- One chain ----

  lemma OneChain(c: Chain, past: Past, genesis: Receipt, n: nat)
    requires Core(c, past, genesis)
    ensures c.head in c.tree
    ensures |past.log| <= n <= c.head ==>
              n in c.tree && Ancestor(c, c.tree[c.head], c.head - n) == Some(c.tree[n])
    ensures 0 < |past.log| == n ==> n in c.tree && c.nodes[c.tree[n]].receipt.parent == HashOf(past.log[n - 1])
  {
    if |past.log| <= n <= c.head {
      AncestorAt(c, past, c.head, c.head - n);
    }
    assert LinkedAt(c, past.log, n);
  }

  /** In every reachable state the receipts from the oldest unconfirmed one to the head are one hash-linked chain on
      top of the confirmed ones, and the two maps of the tree are inverse to each other. */
  lemma SingleChain(run: seq<State>, setup: Setup, i: nat, n: nat)
    requires Run(run, setup) && i < |run|
    ensures var c, log := run[i].chain, run[i].past.log;
            && Bijection(c)
            && c.head in c.tree
            && (|log| <= n <= c.head ==> n in c.tree && Ancestor(c, c.tree[c.head], c.head - n) == Some(c.tree[n]))
            && (0 < |log| == n ==> n in c.tree && c.nodes[c.tree[n]].receipt.parent == HashOf(log[n - 1]))
  {
    RunOk(run, setup, i);
    OneChain(run[i].chain, run[i].past, setup.genesis, n);
  }

  /** The errors of a broken tree: a missing node, an occupied block number, a report shorter than its inbox. */
  predicate Broken(e: TreeError) { e.OverwritingER? || e.MissingDomainBlock? || e.BundleIndexOutOfRange? }

  lemma VerifyErrors(c: Chain, b: Inbox, r: Receipt)
    ensures Verify(c, b, r).Failed? ==> !Broken(Verify(c, b, r).error)
  {}

  /** No call ever finds the tree broken, and a fraud proof succeeds exactly on its legitimate targets. */
  lemma CallsNeverBreak(run: seq<State>, setup: Setup, i: nat, op: OperatorId, r: Receipt, ok: bool, h: ReceiptHash)
    requires Run(run, setup) && i < |run| && op in run[i].statuses
    ensures Accept(run[i], op, r, setup.depth, ok).Failed? ==> !Broken(Accept(run[i], op, r, setup.depth, ok).error)
    ensures SubmitFraudProof(run[i], h).Done? <==> Target(run[i].chain, h)
  {
    RunOk(run, setup, i);
    AcceptErrors(run[i], setup, op, r, ok);
    FraudKeepsState(run[i], h, setup);
  }

  lemma AcceptErrors(s: State, setup: Setup, op: OperatorId, r: Receipt, ok: bool)
    requires StateOk(s, setup) && op in s.statuses
    ensures Accept(s, op, r, setup.depth, ok).Failed? ==> !Broken(Accept(s, op, r, setup.depth, ok).error)
  {
    AcceptKeeps(s, op, r, setup, ok);
    VerifyErrors(s.chain, s.inbox, r);
  }

  // ---- Confirmation ----

  ghost predicate LogGrows(a: State, s: State) { a.past.log <= s.past.log }

  lemma MovesLogGrows(s: State, s': State, setup: Setup)
    requires Moves(s, s', setup)
    ensures LogGrows(s, s') && |s'.past.log| <= |s.past.log| + 1
  {}

  ghost function LogRel(): (State, State) -> bool { (a, s) => LogGrows(a, s) }

  lemma LogSteps(setup: Setup)
    ensures R.EachStep(StepOf(setup), OkOf(setup), LogRel())
  {
    forall s, s' | OkOf(setup)(s) && StepOf(setup)(s, s')
      ensures LogRel()(s, s')
    {
      StepMoves(s, s', setup);
      MovesLogGrows(s, s', setup);
    }
  }

  lemma LogOrder()
    ensures R.Preorder(LogRel())
  {}

  lemma LogExtends(setup: Setup)
    ensures R.Extends(StepOf(setup), OkOf(setup), LogRel())
  {
    LogSteps(setup);
    LogOrder();
    R.ExtendsByOrder(StepOf(setup), OkOf(setup), LogRel());
  }

  /** Confirmed blocks are final: block `k` is the `k`-th to be confirmed, once and for all, each confirmed receipt has
      the one before it as its parent, and none is above the head, however often the head is rewound. */
  lemma ConfirmationIsFinal(run: seq<State>, setup: Setup, i: nat, j: nat, k: nat)
    requires Run(run, setup) && i <= j < |run|
    ensures run[i].past.log <= run[j].past.log && |run[j].past.log| <= run[j].chain.head
    ensures k < |run[j].past.log| ==> run[j].past.log[k].number == k
    ensures 0 < k < |run[j].past.log| ==> run[j].past.log[k].parent == HashOf(run[j].past.log[k - 1])
    ensures run[j].past.log != [] ==> run[j].past.log[0] == setup.genesis
    ensures var log := run[j].past.log;
            run[j].chain.confirmed == if log == [] then setup.genesis else log[|log| - 1]
  {
    OkInductive(setup);
    LogExtends(setup);
    R.Progress(run, Start(setup), StepOf(setup), OkOf(setup), LogRel(), i, j);
    assert LogRel()(run[i], run[j]);
    RunOk(run, setup, j);
    ConfirmedChain(run[j], setup, k);
  }

  lemma ConfirmedChain(s: State, setup: Setup, k: nat)
    requires StateOk(s, setup)
    ensures |s.past.log| <= s.chain.head
    ensures k < |s.past.log| ==> s.past.log[k].number == k
    ensures 0 < k < |s.past.log| ==> s.past.log[k].parent == HashOf(s.past.log[k - 1])
    ensures s.past.log != [] ==> s.past.log[0] == setup.genesis
    ensures s.chain.confirmed == if s.past.log == [] then setup.genesis else s.past.log[|s.past.log| - 1]
  {}

  /** The head `r`, higher than ever, confirms the last entry of the log, its ancestor `depth` generations back. */
  ghost predicate Confirms(s: State, s': State, r: Receipt, depth: nat) {
    && r.number == s.chain.head + 1 && r.number > s.past.top
    && Exists(s'.chain, s'.chain.head, HashOf(r)) && s'.chain.head == r.number
    && s'.past.log != [] && s'.past.log == s.past.log + [s'.past.log[|s'.past.log| - 1]]
    && Ancestor(s'.chain, HashOf(r), depth) == Some(HashOf(s'.past.log[|s'.past.log| - 1]))
  }

  lemma {:induction false} AncestorParent(c: Chain, h: ReceiptHash, k: nat, g: ReceiptHash)
    requires Ancestor(c, h, k) == Some(g) && g in c.nodes
    ensures Ancestor(c, h, k + 1) == Some(c.nodes[g].receipt.parent)
    decreases k
  {
    if k > 0 {
      AncestorParent(c, c.nodes[h].receipt.parent, k - 1, g);
    }
  }

  /** The last confirmed receipt is the parent of the oldest stored one. */
  lemma LastConfirmedIsAncestor(c: Chain, past: Past, genesis: Receipt, depth: nat)
    requires ChainOk(c, past, genesis, depth) && past.log != [] && c.head == past.top
    ensures c.head in c.tree && Ancestor(c, c.tree[c.head], depth) == Some(HashOf(past.log[|past.log| - 1]))
  {
    var lo := |past.log|;
    AncestorAt(c, past, c.head, depth - 1);
    assert LinkedAt(c, past.log, lo);
    AncestorParent(c, c.tree[c.head], depth - 1, c.tree[lo]);
  }

  lemma HeadConfirms(s: State, s': State, setup: Setup, op: OperatorId, r: Receipt, stale: Option<Node>,
                     confirmed: Option<Node>, c1: Chain)
    requires ChainOk(s.chain, s.past, setup.genesis, setup.depth) && HeadMove(s, s', op, r, stale, confirmed, c1)
    requires HeadStep(s.chain, c1, stale, s'.chain, confirmed, op, r, setup.depth) && confirmed.Some?
    ensures Confirms(s, s', r, setup.depth)
  {
    HeadStepKeeps(s.chain, c1, stale, s'.chain, confirmed, op, r, s.past, setup.genesis, setup.depth);
    ExtendKeeps(c1, s.past, op, r, setup.genesis, setup.depth);
    LastConfirmedIsAncestor(s'.chain, s'.past, setup.genesis, setup.depth);
  }

  /** A block is confirmed only by a new head higher than all before, which is its descendant in generation `depth`
      along the links of the chain as it is then stored. */
  lemma ConfirmedByDescendant(s: State, s': State, setup: Setup, step: Step)
    requires StateOk(s, setup) && Next(s, s', setup, step) && s'.past.log != s.past.log
    ensures exists r :: Confirms(s, s', r, setup.depth)
  {
    NextMoves(s, s', setup, step);
    var op, r, stale, confirmed, c1 :| HeadMove(s, s', op, r, stale, confirmed, c1)
                                       && HeadStep(s.chain, c1, stale, s'.chain, confirmed, op, r, setup.depth);
    HeadConfirms(s, s', setup, op, r, stale, confirmed, c1);
  }

  // ---- Pending slash ----

  /** Still an operator, and slashed. */
  ghost predicate NowSlashed(s: State, o: OperatorId) { o in s.statuses && s.statuses[o].Slashed? }

  lemma HeadEndsPending(s: State, s': State, op: OperatorId, r: Receipt, stale: Option<Node>, confirmed: Option<Node>,
                        c1: Chain, o: OperatorId)
    requires HeadMove(s, s', op, r, stale, confirmed, c1) && IsPending(s.chain, o) && !IsPending(s'.chain, o)
    ensures o in s.statuses ==> NowSlashed(s', o)
  {
    HeadStepPending(s.chain, c1, stale, s'.chain, confirmed, op, r, o);
  }

  lemma FraudKeepsPending(s: State, s': State, bad: Node, c1: Chain, o: OperatorId)
    requires FraudMove(s, s', bad, c1) && IsPending(s.chain, o)
    ensures IsPending(s'.chain, o)
  {}

  lemma MovesEndPending(s: State, s': State, setup: Setup, o: OperatorId)
    requires Moves(s, s', setup) && IsPending(s.chain, o) && !IsPending(s'.chain, o)
    ensures o in s.statuses ==> NowSlashed(s', o)
  {
    if op, r, stale, confirmed, c1 :| HeadMove(s, s', op, r, stale, confirmed, c1)
                                      && HeadStep(s.chain, c1, stale, s'.chain, confirmed, op, r, setup.depth) {
      HeadEndsPending(s, s', op, r, stale, confirmed, c1, o);
    } else if bad, c1 :| FraudMove(s, s', bad, c1) {
      FraudKeepsPending(s, s', bad, c1, o);
      assert false;
    }
  }

  /** An operator stops being pending slash only by being slashed in that very step. */
  lemma PendingEndsBySlash(s: State, s': State, setup: Setup, step: Step, o: OperatorId)
    requires StateOk(s, setup) && Next(s, s', setup, step) && IsPending(s.chain, o) && !IsPending(s'.chain, o)
    ensures o in s.statuses ==> NowSlashed(s', o)
  {
    NextMoves(s, s', setup, step);
    MovesEndPending(s, s', setup, o);
  }

  lemma MovesKeepDoomed(s: State, s': State, setup: Setup, o: OperatorId)
    requires Moves(s, s', setup) && o in s.statuses && o < s.nextId
    requires IsPending(s.chain, o) || s.statuses[o].Slashed?
    ensures o !in s'.statuses ==> s.statuses[o].Slashed?
    ensures o in s'.statuses ==> IsPending(s'.chain, o) || s'.statuses[o].Slashed?
  {
    if s.statuses[o].Slashed? {
      MovesKeepGone(s, s', setup, o);
    } else if !IsPending(s'.chain, o) {
      MovesEndPending(s, s', setup, o);
    }
  }

  /** Ids are never used again. */
  lemma MovesKeepIds(s: State, s': State, setup: Setup, o: OperatorId)
    requires Moves(s, s', setup) && o < s.nextId
    ensures o < s'.nextId && (o in s'.statuses ==> o in s.statuses)
  {}

  /** What a later state keeps of an operator that was pending slash or slashed. */
  ghost predicate StaysDoomed(a: State, s: State, o: OperatorId) {
    Doomed(o)(a) ==> o < s.nextId && (o in s.statuses ==> Doomed(o)(s))
  }

  ghost function DoomedRel(o: OperatorId): (State, State) -> bool { (a, s) => StaysDoomed(a, s, o) }

  ghost function Doomed(o: OperatorId): State -> bool {
    (s: State) => o in s.statuses && o < s.nextId && (IsPending(s.chain, o) || s.statuses[o].Slashed?)
  }

  ghost function RemovedSlashed(o: OperatorId): (State, State) -> bool {
    (s: State, s': State) => o !in s'.statuses && NowSlashed(s, o)
  }

  lemma StaysDoomedNext(a: State, s: State, s': State, setup: Setup, o: OperatorId)
    requires StaysDoomed(a, s, o) && Moves(s, s', setup)
    ensures StaysDoomed(a, s', o)
  {
    if Doomed(o)(a) {
      MovesKeepIds(s, s', setup, o);
      if o in s'.statuses {
        MovesKeepDoomed(s, s', setup, o);
      }
    }
  }

  lemma DoomedExtends(setup: Setup, o: OperatorId)
    ensures R.Extends(StepOf(setup), OkOf(setup), DoomedRel(o))
  {
    forall a, s, s' | OkOf(setup)(a) && OkOf(setup)(s) && DoomedRel(o)(a, s) && StepOf(setup)(s, s')
      ensures DoomedRel(o)(a, s')
    {
      StepMoves(s, s', setup);
      StaysDoomedNext(a, s, s', setup, o);
    }
  }

  lemma DoomedLeaves(setup: Setup, o: OperatorId)
    ensures R.LeavesBy(StepOf(setup), OkOf(setup), Doomed(o), RemovedSlashed(o))
  {
    forall s, s' | OkOf(setup)(s) && Doomed(o)(s) && StepOf(setup)(s, s')
      ensures Doomed(o)(s') || RemovedSlashed(o)(s, s')
    {
      StepMoves(s, s', setup);
      MovesKeepIds(s, s', setup, o);
      MovesKeepDoomed(s, s', setup, o);
    }
  }

  /** Once pending slash, an operator stays so until it is slashed, and it is not removed before. */
  lemma PendingIsFinal(run: seq<State>, setup: Setup, i: nat, j: nat, o: OperatorId)
    requires Run(run, setup) && i <= j < |run| && o in run[i].statuses && IsPending(run[i].chain, o)
    ensures o in run[j].statuses ==> IsPending(run[j].chain, o) || run[j].statuses[o].Slashed?
    ensures o !in run[j].statuses ==> exists k :: i <= k < j && NowSlashed(run[k], o)
  {
    OkInductive(setup);
    DoomedExtends(setup, o);
    DoomedLeaves(setup, o);
    RunOk(run, setup, i);
    R.Progress(run, Start(setup), StepOf(setup), OkOf(setup), DoomedRel(o), i, j);
    assert DoomedRel(o)(run[i], run[j]);
    if o !in run[j].statuses {
      var k := R.Leaving(run, Start(setup), StepOf(setup), OkOf(setup), Doomed(o), RemovedSlashed(o), i, j);
      assert NowSlashed(run[k], o);
    }
  }

  lemma DoomedCannotSubmit(s: State, o: OperatorId, r: Receipt, d: Digest, depth: nat, ok: bool)
    requires o in s.statuses ==> Doomed(o)(s)
    ensures SubmitBundle(s, o, r, d, depth, ok).Failed? && SubmitReceipt(s, o, r, depth, ok).Failed?
  {}

  /** Once an operator is pending slash or slashed, none of its bundles and receipts is ever accepted again. */
  lemma SlashedNeverSubmit(run: seq<State>, setup: Setup, i: nat, j: nat, o: OperatorId, r: Receipt, d: Digest,
                           ok: bool)
    requires Run(run, setup) && i <= j < |run| && o in run[i].statuses
    requires IsPending(run[i].chain, o) || run[i].statuses[o].Slashed?
    ensures SubmitBundle(run[j], o, r, d, setup.depth, ok).Failed?
    ensures SubmitReceipt(run[j], o, r, setup.depth, ok).Failed?
  {
    OkInductive(setup);
    DoomedExtends(setup, o);
    RunOk(run, setup, i);
    R.Progress(run, Start(setup), StepOf(setup), OkOf(setup), DoomedRel(o), i, j);
    assert DoomedRel(o)(run[i], run[j]);
    DoomedCannotSubmit(run[j], o, r, d, setup.depth, ok);
  }

  /** Pending slash is only reported for an operator listed by a stored receipt above the head. */
  lemma PendingHasReceipt(run: seq<State>, setup: Setup, i: nat, o: OperatorId)
    requires Run(run, setup) && i < |run| && IsPending(run[i].chain, o)
    ensures var c := run[i].chain;
            exists h :: h in c.nodes && c.nodes[h].receipt.number > c.head && o in c.nodes[h].operators
  {
    RunOk(run, setup, i);
    var c := run[i].chain;
    var h := c.tree[c.latest[o]];
    assert h in c.nodes && c.nodes[h].receipt.number > c.head;
  }

  // ---- Receipts left above a rewound head ----

  /** The receipt `x` is stored above the head and lists `o`. */
  ghost predicate StaleWith(s: State, x: Receipt, o: OperatorId) {
    x.number > s.chain.head && HashOf(x) in s.chain.nodes && o in s.chain.nodes[HashOf(x)].operators
  }

  /** What becomes of a submitter of a stale receipt: it is slashed before the receipt goes. */
  ghost predicate Followed(a: State, s: State, x: Receipt, o: OperatorId) {
    StaleWith(a, x, o) ==> StaleWith(s, x, o) || (o < s.nextId && Gone(s.statuses, o))
  }

  lemma GoneStays(st: Statuses, st': Statuses, slashed: seq<OperatorId>, o: OperatorId)
    requires StatusFrame(st, st', slashed) && (Gone(st, o) || o in slashed)
    ensures Gone(st', o)
  {}

  lemma HeadFollows(s: State, s': State, op: OperatorId, r: Receipt, stale: Option<Node>, confirmed: Option<Node>,
                    c1: Chain, x: Receipt, o: OperatorId)
    requires HeadMove(s, s', op, r, stale, confirmed, c1) && Bijection(s.chain) && StaleWith(s, x, o)
    ensures StaleWith(s', x, o) || Gone(s'.statuses, o)
  {
    if HashOf(x) !in c1.nodes {
      GoneStays(s.statuses, s'.statuses, Submitters(stale), o);
    }
  }

  lemma FraudFollows(s: State, s': State, bad: Node, c1: Chain, x: Receipt, o: OperatorId)
    requires FraudMove(s, s', bad, c1) && Bijection(s.chain) && StaleWith(s, x, o)
    ensures StaleWith(s', x, o)
  {}

  lemma MovesFollow(s: State, s': State, setup: Setup, x: Receipt, o: OperatorId)
    requires Moves(s, s', setup) && Bijection(s.chain) && StaleWith(s, x, o)
    ensures StaleWith(s', x, o) || Gone(s'.statuses, o)
  {
    if op, r, stale, confirmed, c1 :| HeadMove(s, s', op, r, stale, confirmed, c1)
                                      && HeadStep(s.chain, c1, stale, s'.chain, confirmed, op, r, setup.depth) {
      HeadFollows(s, s', op, r, stale, confirmed, c1, x, o);
    } else if bad, c1 :| FraudMove(s, s', bad, c1) {
      FraudFollows(s, s', bad, c1, x, o);
    }
  }

  lemma MovesKeepGone(s: State, s': State, setup: Setup, o: OperatorId)
    requires Moves(s, s', setup) && o < s.nextId
    ensures o < s'.nextId && (Gone(s.statuses, o) ==> Gone(s'.statuses, o))
  {
    if Gone(s.statuses, o) {
      if op, r, stale, confirmed, c1 :| HeadMove(s, s', op, r, stale, confirmed, c1)
                                        && HeadStep(s.chain, c1, stale, s'.chain, confirmed, op, r, setup.depth) {
        GoneStays(s.statuses, s'.statuses, Submitters(stale), o);
      } else if bad, c1 :| FraudMove(s, s', bad, c1) {
        GoneStays(s.statuses, s'.statuses, bad.operators, o);
      }
    }
  }

  ghost function FollowRel(x: Receipt, o: OperatorId): (State, State) -> bool { (a, s) => Followed(a, s, x, o) }

  lemma FollowNext(a: State, s: State, s': State, setup: Setup, x: Receipt, o: OperatorId)
    requires Followed(a, s, x, o) && Bijection(s.chain) && Known(s.chain, s.statuses, s.nextId) && Moves(s, s', setup)
    ensures Followed(a, s', x, o)
  {
    if StaleWith(a, x, o) {
      assert o < s.nextId;
      MovesKeepGone(s, s', setup, o);
      if StaleWith(s, x, o) {
        MovesFollow(s, s', setup, x, o);
      }
    }
  }

  lemma FollowExtends(setup: Setup, x: Receipt, o: OperatorId)
    ensures R.Extends(StepOf(setup), OkOf(setup), FollowRel(x, o))
  {
    forall a, s, s' | OkOf(setup)(a) && OkOf(setup)(s) && FollowRel(x, o)(a, s) && StepOf(setup)(s, s')
      ensures FollowRel(x, o)(a, s')
    {
      StepMoves(s, s', setup);
      FollowNext(a, s, s', setup, x, o);
    }
  }

  /** A submitter of a stale receipt that is no operator any more or slashed when the head has climbed back. */
  lemma StaleSubmittersGone(run: seq<State>, setup: Setup, i: nat, j: nat, x: Receipt, o: OperatorId)
    requires Run(run, setup) && i <= j < |run| && StaleWith(run[i], x, o) && x.number <= run[j].chain.head
    ensures Gone(run[j].statuses, o)
  {
    OkInductive(setup);
    FollowExtends(setup, x, o);
    R.Progress(run, Start(setup), StepOf(setup), OkOf(setup), FollowRel(x, o), i, j);
    assert FollowRel(x, o)(run[i], run[j]);
  }

  /** The head reaches the number of the stale receipt `x`: its submitter, if still an operator, is slashed. */
  ghost predicate Reached(s: State, s': State, x: Receipt, o: OperatorId) {
    && StaleWith(s, x, o) && s'.chain.head == x.number
    && (o in s.statuses ==> NowSlashed(s', o))
  }

  lemma HeadReaches(s: State, s': State, op: OperatorId, r: Receipt, stale: Option<Node>, confirmed: Option<Node>,
                    c1: Chain, x: Receipt, o: OperatorId)
    requires HeadMove(s, s', op, r, stale, confirmed, c1) && Bijection(s.chain) && StaleWith(s, x, o)
    ensures StaleWith(s', x, o) || Reached(s, s', x, o)
  {}

  lemma MovesReach(s: State, s': State, setup: Setup, x: Receipt, o: OperatorId)
    requires Moves(s, s', setup) && Bijection(s.chain) && StaleWith(s, x, o)
    ensures StaleWith(s', x, o) || Reached(s, s', x, o)
  {
    if op, r, stale, confirmed, c1 :| HeadMove(s, s', op, r, stale, confirmed, c1)
                                      && HeadStep(s.chain, c1, stale, s'.chain, confirmed, op, r, setup.depth) {
      HeadReaches(s, s', op, r, stale, confirmed, c1, x, o);
    } else if bad, c1 :| FraudMove(s, s', bad, c1) {
      FraudFollows(s, s', bad, c1, x, o);
    }
  }

  ghost function StaleRel(x: Receipt, o: OperatorId): State -> bool { s => StaleWith(s, x, o) }

  ghost function ReachedRel(x: Receipt, o: OperatorId): (State, State) -> bool { (s, s') => Reached(s, s', x, o) }

  lemma StaleLeaves(setup: Setup, x: Receipt, o: OperatorId)
    ensures R.LeavesBy(StepOf(setup), OkOf(setup), StaleRel(x, o), ReachedRel(x, o))
  {
    forall s, s' | OkOf(setup)(s) && StaleRel(x, o)(s) && StepOf(setup)(s, s')
      ensures StaleRel(x, o)(s') || ReachedRel(x, o)(s, s')
    {
      StepMoves(s, s', setup);
      MovesReach(s, s', setup, x, o);
    }
  }

  /** A receipt that a fraud proof left above the head stays there until the head has climbed back to its number; in
      the step in which it does, all who submitted the receipt and are still operators are slashed. From then on none
      of them is an operator in good standing. */
  lemma StaleSubmittersSlashed(run: seq<State>, setup: Setup, i: nat, j: nat, x: Receipt, o: OperatorId)
    returns (k: nat)
    requires Run(run, setup) && i <= j < |run| && StaleWith(run[i], x, o) && x.number <= run[j].chain.head
    ensures i <= k < j && Reached(run[k], run[k + 1], x, o) && Gone(run[j].statuses, o)
  {
    StaleSubmittersGone(run, setup, i, j, x, o);
    OkInductive(setup);
    StaleLeaves(setup, x, o);
    k := R.Leaving(run, Start(setup), StepOf(setup), OkOf(setup), StaleRel(x, o), ReachedRel(x, o), i, j);
    assert ReachedRel(x, o)(run[k], run[k + 1]);
  }

  // ---- Stale receipts are not confirmed ----

  ghost predicate InLog(s: State, x: Receipt) { x.number < |s.past.log| && s.past.log[x.number] == x }

  ghost predicate AboveHead(s: State, x: Receipt) { HashOf(x) in s.chain.nodes ==> x.number > s.chain.head }

  /** Unless it was added again, `x` is neither confirmed nor below the head. */
  ghost predicate Unconfirmed(a: State, s: State, x: Receipt) {
    && |a.added| <= |s.added|
    && (HashOf(x) in a.chain.nodes && x.number > a.chain.head ==>
          HashOf(x) in s.added[|a.added|..] || (AboveHead(s, x) && !InLog(s, x)))
  }

  lemma HeadUnconfirmed(s: State, s': State, op: OperatorId, r: Receipt, stale: Option<Node>, confirmed: Option<Node>,
                        c1: Chain, x: Receipt)
    requires HeadMove(s, s', op, r, stale, confirmed, c1) && Bijection(s.chain) && AboveHead(s, x) && !InLog(s, x)
    requires HashOf(r) != HashOf(x)
    ensures AboveHead(s', x) && !InLog(s', x)
  {}

  lemma FraudUnconfirmed(s: State, s': State, bad: Node, c1: Chain, x: Receipt)
    requires FraudMove(s, s', bad, c1) && AboveHead(s, x) && !InLog(s, x)
    ensures AboveHead(s', x) && !InLog(s', x)
  {}

  lemma MovesAdd(s: State, s': State, setup: Setup, x: Receipt)
    requires Moves(s, s', setup) && Bijection(s.chain)
    ensures |s.added| <= |s'.added| && s.added <= s'.added
    ensures AboveHead(s, x) && !InLog(s, x) ==>
              HashOf(x) in s'.added[|s.added|..] || (AboveHead(s', x) && !InLog(s', x))
  {
    if op, r, stale, confirmed, c1 :| HeadMove(s, s', op, r, stale, confirmed, c1)
                                      && HeadStep(s.chain, c1, stale, s'.chain, confirmed, op, r, setup.depth) {
      assert s'.added[|s.added|] == HashOf(r);
      if AboveHead(s, x) && !InLog(s, x) && HashOf(r) != HashOf(x) {
        HeadUnconfirmed(s, s', op, r, stale, confirmed, c1, x);
      }
    } else if bad, c1 :| FraudMove(s, s', bad, c1) {
      if AboveHead(s, x) && !InLog(s, x) {
        FraudUnconfirmed(s, s', bad, c1, x);
      }
    }
  }

  lemma UnconfirmedNext(a: State, s: State, s': State, setup: Setup, x: Receipt)
    requires Unconfirmed(a, s, x) && Bijection(s.chain) && Moves(s, s', setup)
    ensures Unconfirmed(a, s', x)
  {
    MovesAdd(s, s', setup, x);
    SuffixGrows(s.added, s'.added, |a.added|, HashOf(x));
  }

  lemma SuffixGrows(a: seq<ReceiptHash>, b: seq<ReceiptHash>, k: nat, h: ReceiptHash)
    requires a <= b && k <= |a|
    ensures h in a[k..] || h in b[|a|..] ==> h in b[k..]
  {
    assert b[k..] == a[k..] + b[|a|..];
  }

  ghost function UnconfirmedRel(x: Receipt): (State, State) -> bool { (a, s) => Unconfirmed(a, s, x) }

  lemma UnconfirmedExtends(setup: Setup, x: Receipt)
    ensures R.Extends(StepOf(setup), OkOf(setup), UnconfirmedRel(x))
  {
    forall a, s, s' | OkOf(setup)(a) && OkOf(setup)(s) && UnconfirmedRel(x)(a, s) && StepOf(setup)(s, s')
      ensures UnconfirmedRel(x)(a, s')
    {
      StepMoves(s, s', setup);
      UnconfirmedNext(a, s, s', setup, x);
    }
  }

  /** A receipt left above a rewound head is not confirmed unless it is submitted again as a new head. */
  lemma StaleNotConfirmed(run: seq<State>, setup: Setup, i: nat, j: nat, x: Receipt)
    requires Run(run, setup) && i <= j < |run|
    requires HashOf(x) in run[i].chain.nodes && x.number > run[i].chain.head && x in run[j].past.log
    ensures |run[i].added| <= |run[j].added| && HashOf(x) in run[j].added[|run[i].added|..]
  {
    OkInductive(setup);
    UnconfirmedExtends(setup, x);
    R.Progress(run, Start(setup), StepOf(setup), OkOf(setup), UnconfirmedRel(x), i, j);
    assert UnconfirmedRel(x)(run[i], run[j]);
    RunOk(run, setup, j);
    var k :| 0 <= k < |run[j].past.log| && run[j].past.log[k] == x;
    assert run[j].past.log[k].number == k;
  }
}
