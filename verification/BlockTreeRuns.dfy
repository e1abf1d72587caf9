/** Every run of the block tree of a domain. */
module BlockTreeRuns {
  import opened ReceiptTypes
  import opened StakingTypes
  import opened TreeTypes
  import opened ReceiptChain
  import opened BlockTree
  import opened BlockTreeInvariant
  import opened Runs

  datatype Step =
    // header hashes of bundles are distinct
    | BundleStep(op: OperatorId, r: Receipt, d: Digest, transfersOk: bool)
    | ReceiptStep(op: OperatorId, r: Receipt, transfersOk: bool)
    | FraudStep(h: ReceiptHash)
    | BlockStep(hash: nat)
    | RegisterStep
    // owners register, deregister, deactivate and reactivate
    | StatusStep(op: OperatorId, status: OperatorStatus)
    // an operator is removed when all its nominators are slashed, or have left after it deregistered
    | RemoveStep(op: OperatorId)

  ghost predicate Next(s: State, s': State, setup: Setup, step: Step) {
    match step
    case BundleStep(op, r, d, ok) =>
      d.header !in s.settled.places && SubmitBundle(s, op, r, d, setup.depth, ok) == Done(s')
    case ReceiptStep(op, r, ok) => SubmitReceipt(s, op, r, setup.depth, ok) == Done(s')
    case FraudStep(h) => SubmitFraudProof(s, h) == Done(s')
    case BlockStep(hash) => s' == EndBlock(s, hash)
    case RegisterStep => s' == s.(statuses := s.statuses[s.nextId := Registered], nextId := s.nextId + 1)
    case StatusStep(op, status) =>
      && op in s.statuses && !s.statuses[op].Slashed? && !s.statuses[op].InvalidBundle?
      && (status.Registered? || status.Deregistered? || status.Deactivated?)
      && s' == s.(statuses := s.statuses[op := status])
    case RemoveStep(op) =>
      && op in s.statuses && (s.statuses[op].Slashed? || (s.statuses[op].Deregistered? && !IsPending(s.chain, op)))
      && s' == s.(statuses := s.statuses - {op})
  }

  // ---- Every step keeps the invariant ----

  lemma BundleKeeps(s: State, s': State, setup: Setup, op: OperatorId, r: Receipt, d: Digest, ok: bool)
    requires StateOk(s, setup) && Next(s, s', setup, BundleStep(op, r, d, ok))
    ensures StateOk(s', setup)
  {
    AcceptKeeps(s, op, r, setup, ok);
    var s1 := Accept(s, op, r, setup.depth, ok).value;
    AcceptPlaces(s, s1, op, r, setup.depth, ok);
    AppendKeepsState(s1, op, d, setup);
  }

  lemma AcceptPlaces(s: State, s1: State, op: OperatorId, r: Receipt, depth: nat, ok: bool)
    requires Accept(s, op, r, depth, ok) == Done(s1)
    ensures s1.settled.places == s.settled.places && s1.nextId == s.nextId
  {
    if Verify(s.chain, s.inbox, r).value.NewHead? {
      HeadPlaces(s, s1, op, r, depth, ok);
    }
  }

  lemma HeadPlaces(s: State, s1: State, op: OperatorId, r: Receipt, depth: nat, ok: bool)
    requires AcceptHead(s, op, r, depth, ok) == Done(s1)
    ensures s1.settled.places == s.settled.places && s1.nextId == s.nextId
  {}

  lemma OwnerStepKeeps(s: State, s': State, setup: Setup, step: Step)
    requires StateOk(s, setup) && Next(s, s', setup, step)
    requires step.RegisterStep? || step.StatusStep? || step.RemoveStep?
    ensures StateOk(s', setup)
  {
    forall o: OperatorId
      ensures MarkOk(s'.chain, s'.inbox, s'.statuses, o)
    {
      assert MarkOk(s.chain, s.inbox, s.statuses, o);
    }
  }

  lemma NextKeeps(s: State, s': State, setup: Setup, step: Step)
    requires StateOk(s, setup) && Next(s, s', setup, step)
    ensures StateOk(s', setup)
  {
    match step
    case BundleStep(op, r, d, ok) => BundleKeeps(s, s', setup, op, r, d, ok);
    case ReceiptStep(op, r, ok) => AcceptKeeps(s, op, r, setup, ok);
    case FraudStep(h) => FraudKeepsState(s, h, setup);
    case BlockStep(hash) => EndBlockKeeps(s, hash, setup);
    case _ => OwnerStepKeeps(s, s', setup, step);
  }

  // ---- Runs ----

  ghost predicate CanStep(s: State, s': State, setup: Setup) { exists step :: Next(s, s', setup, step) }

  ghost predicate SetupOk(setup: Setup) { setup.genesis.number == 0 && setup.depth >= 1 }

  /** The domain starts after the consensus block that its genesis receipt names, which is block 0. */
  ghost predicate Starts(s: State, setup: Setup) {
    exists block, parentHash :: setup.genesis.consensus < block && s == Init(setup, block, parentHash)
  }

  ghost function Start(setup: Setup): State -> bool { s => Starts(s, setup) }

  ghost function StepOf(setup: Setup): (State, State) -> bool { (s, s') => CanStep(s, s', setup) }

  ghost function OkOf(setup: Setup): State -> bool { s => StateOk(s, setup) }

  lemma OkInductive(setup: Setup)
    requires SetupOk(setup)
    ensures Inductive(Start(setup), StepOf(setup), OkOf(setup))
  {
    forall s | Start(setup)(s)
      ensures OkOf(setup)(s)
    {
      var block, parentHash :| setup.genesis.consensus < block && s == Init(setup, block, parentHash);
      InitOk(setup, block, parentHash);
    }
    forall s, s' | OkOf(setup)(s) && StepOf(setup)(s, s')
      ensures OkOf(setup)(s')
    {
      var step :| Next(s, s', setup, step);
      NextKeeps(s, s', setup, step);
    }
  }

  ghost predicate Run(run: seq<State>, setup: Setup) {
    SetupOk(setup) && IsRun(run, Start(setup), StepOf(setup))
  }

  /** In every state of every run the invariant holds. */
  lemma RunOk(run: seq<State>, setup: Setup, i: nat)
    requires Run(run, setup) && i < |run|
    ensures StateOk(run[i], setup)
  {
    OkInductive(setup);
    Invariance(run, Start(setup), StepOf(setup), OkOf(setup), i);
    assert OkOf(setup)(run[i]);
  }
}
