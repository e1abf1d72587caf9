/** Who is pending slash: whoever's recorded submission lies above a rewound head. */
module PendingSubmitters {
  import opened ReceiptTypes
  import opened StakingTypes
  import opened TreeTypes
  import opened ReceiptChain
  import opened OperatorMarks
  import opened BlockTree
  import opened BlockTreeInvariant
  import opened BlockTreeRuns
  import opened BlockTreeSteps
  import BlockTreeTheorems
  import R = Runs

  // ---- What one submission records ----

  /** The latest submission of `op` is `number` or a later one, and nobody else's is raised. */
  ghost predicate Recorded(c: Chain, c': Chain, op: OperatorId, number: nat) {
    && LatestOf(c', op) >= number
    && (forall o :: o != op ==> LatestOf(c', o) <= LatestOf(c, o))
  }

  lemma EndorseRecords(c: Chain, c': Chain, op: OperatorId, r: Receipt)
    requires Endorse(c, op, r) == Done(c')
    ensures Recorded(c, c', op, r.number)
  {}

  lemma ExtendRecords(c: Chain, c': Chain, confirmed: Option<Node>, op: OperatorId, r: Receipt, depth: nat)
    requires Extend(c, op, r, depth) == Done((c', confirmed))
    ensures if r.number < depth then Recorded(c, c', op, r.number)
            else forall o :: LatestOf(c', o) <= LatestOf(c, o)
  {}

  /** A submission is recorded when it endorses the head, and when it is a new head below the pruning depth; no other
      submission is. */
  lemma SubmissionRecorded(s: State, s': State, setup: Setup, op: OperatorId, r: Receipt, ok: bool)
    requires StateOk(s, setup) && op in s.statuses && Accept(s, op, r, setup.depth, ok) == Done(s')
    ensures if s'.added == s.added || r.number < setup.depth then Recorded(s.chain, s'.chain, op, r.number)
            else forall o :: LatestOf(s'.chain, o) <= LatestOf(s.chain, o)
  {
    VerifiedKind(s.chain, s.inbox, r);
    if Verify(s.chain, s.inbox, r).value.NewHead? {
      var stale, confirmed, c1 := AcceptHeadMoves(s, s', op, r, setup, ok);
      ExtendRecords(c1, s'.chain, confirmed, op, r, setup.depth);
      assert s'.added != s.added by { assert |s'.added| == |s.added| + 1; }
      PrunedLatest(s.chain, c1, stale, r.number);
    } else {
      EndorseRecords(s.chain, s'.chain, op, r);
    }
  }

  lemma PrunedLatest(c: Chain, c1: Chain, stale: Option<Node>, number: nat)
    requires Prune(c, number) == Done((c1, stale))
    ensures forall o :: LatestOf(c1, o) <= LatestOf(c, o)
  {}

  // ---- How long it is remembered ----

  /** The submission is still recorded, or its submitter is gone, or its block is confirmed. */
  ghost predicate HeldTo(s: State, o: OperatorId, number: nat) {
    o < s.nextId && (LatestOf(s.chain, o) >= number || Gone(s.statuses, o) || |s.past.log| > number)
  }

  ghost predicate Forgotten(c: Chain, o: OperatorId, node: Option<Node>) {
    node.Some? && o in node.value.operators && node.value.receipt.number == LatestOf(c, o)
  }

  lemma ExtendForgets(c: Chain, c': Chain, confirmed: Option<Node>, op: OperatorId, r: Receipt, depth: nat,
                      o: OperatorId)
    requires Extend(c, op, r, depth) == Done((c', confirmed))
    ensures LatestOf(c', o) >= LatestOf(c, o) || Forgotten(c, o, confirmed)
  {}

  lemma HeadHolds(s: State, s': State, setup: Setup, op: OperatorId, r: Receipt, stale: Option<Node>,
                  confirmed: Option<Node>, c1: Chain, o: OperatorId, number: nat)
    requires HeldTo(s, o, number) && LatestOf(s.chain, o) >= number && StateOk(s', setup)
    requires HeadMove(s, s', op, r, stale, confirmed, c1)
    requires HeadStep(s.chain, c1, stale, s'.chain, confirmed, op, r, setup.depth)
    ensures HeldTo(s', o, number)
  {
    ExtendForgets(c1, s'.chain, confirmed, op, r, setup.depth, o);
    if LatestOf(c1, o) != LatestOf(s.chain, o) {
      assert o in s.statuses ==> s'.statuses[o].Slashed?;
    } else if Forgotten(c1, o, confirmed) {
      LogNumbers(s', setup);
    }
  }

  lemma LogNumbers(s: State, setup: Setup)
    requires StateOk(s, setup)
    ensures forall i :: 0 <= i < |s.past.log| ==> s.past.log[i].number == i
  {}

  lemma FraudHolds(s: State, s': State, bad: Node, c1: Chain, o: OperatorId, number: nat)
    requires HeldTo(s, o, number) && LatestOf(s.chain, o) >= number && FraudMove(s, s', bad, c1)
    ensures HeldTo(s', o, number)
  {
    if LatestOf(c1, o) != LatestOf(s.chain, o) {
      assert o in s.statuses ==> s'.statuses[o].Slashed?;
    }
  }

  lemma QuietRecords(s: State, s': State, setup: Setup, step: Step, o: OperatorId)
    requires StateOk(s, setup) && Next(s, s', setup, step) && !step.FraudStep? && s'.added == s.added
    ensures LatestOf(s'.chain, o) >= LatestOf(s.chain, o)
  {
    match step
    case BundleStep(op, r, d, ok) =>
      AgainRecords(s, Accept(s, op, r, setup.depth, ok).value, setup, op, r, ok, o);
    case ReceiptStep(op, r, ok) =>
      AgainRecords(s, s', setup, op, r, ok, o);
    case _ =>
  }

  lemma AgainRecords(s: State, s': State, setup: Setup, op: OperatorId, r: Receipt, ok: bool, o: OperatorId)
    requires StateOk(s, setup) && op in s.statuses && Accept(s, op, r, setup.depth, ok) == Done(s')
    requires s'.added == s.added
    ensures LatestOf(s'.chain, o) >= LatestOf(s.chain, o)
  {
    VerifiedKind(s.chain, s.inbox, r);
    if Verify(s.chain, s.inbox, r).value.NewHead? {
      var stale, confirmed, c1 := AcceptHeadMoves(s, s', op, r, setup, ok);
      assert false;
    } else {
      EndorseRaises(s.chain, s'.chain, op, r, o);
    }
  }

  lemma EndorseRaises(c: Chain, c': Chain, op: OperatorId, r: Receipt, o: OperatorId)
    requires Endorse(c, op, r) == Done(c')
    ensures LatestOf(c', o) >= LatestOf(c, o)
  {}

  lemma NextHolds(s: State, s': State, setup: Setup, step: Step, o: OperatorId, number: nat)
    requires StateOk(s, setup) && Next(s, s', setup, step) && HeldTo(s, o, number)
    ensures HeldTo(s', o, number)
  {
    NextKeeps(s, s', setup, step);
    NextMoves(s, s', setup, step);
    BlockTreeTheorems.MovesKeepGone(s, s', setup, o);
    BlockTreeTheorems.MovesLogGrows(s, s', setup);
    if LatestOf(s.chain, o) >= number {
      if op, r, stale, confirmed, c1 :| HeadMove(s, s', op, r, stale, confirmed, c1)
                                        && HeadStep(s.chain, c1, stale, s'.chain, confirmed, op, r, setup.depth) {
        HeadHolds(s, s', setup, op, r, stale, confirmed, c1, o, number);
      } else if bad, c1 :| FraudMove(s, s', bad, c1) {
        FraudHolds(s, s', bad, c1, o, number);
      } else {
        FraudOrQuiet(s, s', setup, step);
        QuietRecords(s, s', setup, step, o);
      }
    }
  }

  lemma FraudOrQuiet(s: State, s': State, setup: Setup, step: Step)
    requires StateOk(s, setup) && Next(s, s', setup, step) && QuietMove(s, s')
    requires !exists bad, c1 :: FraudMove(s, s', bad, c1)
    ensures !step.FraudStep? && s'.added == s.added
  {
    if step.FraudStep? {
      var bad, c1 := FraudMoves(s, s', step.h, setup);
    }
  }

  ghost function HeldRel(o: OperatorId, number: nat): State -> bool { s => HeldTo(s, o, number) }

  /** Over every run, whoever's submission of block `number` was recorded is pending slash whenever the head is below
      that block, unless it is slashed or has left. */
  lemma RecordedArePending(run: seq<State>, setup: Setup, i: nat, j: nat, o: OperatorId, number: nat)
    requires Run(run, setup) && i <= j < |run| && o < run[i].nextId && LatestOf(run[i].chain, o) >= number
    requires run[j].chain.head < number
    ensures IsPending(run[j].chain, o) || Gone(run[j].statuses, o)
  {
    OkInductive(setup);
    forall s, s' | OkOf(setup)(s) && HeldRel(o, number)(s) && StepOf(setup)(s, s')
      ensures HeldRel(o, number)(s')
    {
      var step :| Next(s, s', setup, step);
      NextHolds(s, s', setup, step, o, number);
    }
    R.Remains(run, Start(setup), StepOf(setup), OkOf(setup), HeldRel(o, number), i, j);
    assert HeldRel(o, number)(run[j]);
    RunOk(run, setup, j);
  }
}
