/** Which receipts are accepted: a new head is derived from the consensus block that its bundles were submitted in, and
    every such receipt is accepted. */
module ConsensusHashes {
  import opened ReceiptTypes
  import opened StakingTypes
  import opened TreeTypes
  import opened ReceiptChain
  import opened BundleInbox
  import opened BlockTree
  import opened BlockTreeInvariant
  import opened BlockTreeRuns
  import BlockTreeBlocks
  import R = Runs

  // ---- The hash of a finished block ----

  /** Block `n` is over and ended with `hash`, as far as the inbox still knows. */
  ghost predicate Ended(b: Inbox, n: nat, hash: nat) {
    && n < b.block
    && (n in b.hashes ==> b.hashes[n] == hash)
    && (n + 1 == b.block ==> b.parentHash == hash)
  }

  /** The hashes kept are some of those kept before. */
  ghost predicate HashesKept(b: Inbox, b': Inbox) {
    && b'.block == b.block && b'.parentHash == b.parentHash
    && (forall n :: n in b'.hashes ==> n in b.hashes && b'.hashes[n] == b.hashes[n])
  }

  lemma AcceptKeepsHashes(s: State, s': State, op: OperatorId, r: Receipt, depth: nat, ok: bool)
    requires Accept(s, op, r, depth, ok) == Done(s')
    ensures HashesKept(s.inbox, s'.inbox)
  {
    if Verify(s.chain, s.inbox, r).value.NewHead? {
      HeadKeepsHashes(s, s', op, r, depth, ok);
    }
  }

  lemma HeadKeepsHashes(s: State, s': State, op: OperatorId, r: Receipt, depth: nat, ok: bool)
    requires AcceptHead(s, op, r, depth, ok) == Done(s')
    ensures HashesKept(s.inbox, s'.inbox)
  {}

  lemma NextKeepsHashes(s: State, s': State, setup: Setup, step: Step)
    requires Next(s, s', setup, step) && !step.BlockStep?
    ensures HashesKept(s.inbox, s'.inbox)
  {
    match step
    case BundleStep(op, r, d, ok) =>
      AcceptKeepsHashes(s, Accept(s, op, r, setup.depth, ok).value, op, r, setup.depth, ok);
    case ReceiptStep(op, r, ok) => AcceptKeepsHashes(s, s', op, r, setup.depth, ok);
    case _ =>
  }

  ghost function EndedWith(n: nat, hash: nat): State -> bool { (s: State) => Ended(s.inbox, n, hash) }

  lemma EndedKept(setup: Setup, n: nat, hash: nat)
    ensures R.Kept(StepOf(setup), OkOf(setup), EndedWith(n, hash))
  {
    forall s, s' | OkOf(setup)(s) && EndedWith(n, hash)(s) && StepOf(setup)(s, s')
      ensures EndedWith(n, hash)(s')
    {
      var step :| Next(s, s', setup, step);
      if !step.BlockStep? {
        NextKeepsHashes(s, s', setup, step);
      }
    }
  }

  lemma JustEnded(s: State, setup: Setup, hash: nat)
    requires StateOk(s, setup)
    ensures Ended(EndBlock(s, hash).inbox, s.inbox.block, hash)
  {}

  /** The step from `i` to `i` + 1 ended consensus block `n` with `hash`. */
  ghost predicate EndsAt(run: seq<State>, i: nat, n: nat, hash: nat) {
    i + 1 < |run| && run[i].inbox.block == n && run[i + 1] == EndBlock(run[i], hash)
  }

  lemma EndedSince(run: seq<State>, setup: Setup, i: nat, j: nat, n: nat, hash: nat)
    requires Run(run, setup) && EndsAt(run, i, n, hash) && i < j < |run|
    ensures Ended(run[j].inbox, n, hash)
  {
    OkInductive(setup);
    RunOk(run, setup, i);
    JustEnded(run[i], setup, hash);
    EndedKept(setup, n, hash);
    assert EndedWith(n, hash)(run[i + 1]);
    R.Remains(run, Start(setup), StepOf(setup), OkOf(setup), EndedWith(n, hash), i + 1, j);
    assert EndedWith(n, hash)(run[j]);
  }

  lemma ExpectedIsHash(b: Inbox, n: nat, hash: nat, other: nat)
    requires Ended(b, n, hash) && ExpectedHash(b, n) == Done(other)
    ensures other == hash
  {}

  /** Over every run, a new head names the hash that its consensus block ended with. */
  lemma HeadsNameTheirBlock(run: seq<State>, setup: Setup, i: nat, j: nat, hash: nat, op: OperatorId, r: Receipt,
                            ok: bool)
    requires Run(run, setup) && EndsAt(run, i, r.consensus, hash) && i < j < |run|
    requires Accept(run[j], op, r, setup.depth, ok).Done?
    requires Accept(run[j], op, r, setup.depth, ok).value.added != run[j].added
    ensures r.consensusHash == hash
  {
    EndedSince(run, setup, i, j, r.consensus, hash);
    RunOk(run, setup, j);
    BlockTreeBlocks.AcceptedHead(run[j], Accept(run[j], op, r, setup.depth, ok).value, setup, op, r, ok);
    ExpectedIsHash(run[j].inbox, r.consensus, hash, r.consensusHash);
  }

  // ---- The hashes that are still needed are there ----

  /** Every consensus block has at most one domain block, and the hash of a finished one is kept until its domain block
      is confirmed. */
  ghost predicate Derived(b: Inbox, first: nat) {
    && (forall k :: k in b.digests ==>
          && first < k.1 && (k.1 < b.block ==> k.1 in b.hashes) && (k.1 == b.block ==> k.0 == b.headDomain))
    && (forall k, k' :: k in b.digests && k' in b.digests && k.1 == k'.1 ==> k == k')
    && (forall n :: n in b.hashes && n + 1 == b.block ==> b.hashes[n] == b.parentHash)
  }

  lemma AppendDerived(b: Inbox, first: nat, d: Digest, op: OperatorId)
    requires KeysOk(b) && Derived(b, first) && first < b.block
    ensures Derived(Append(b, d, op), first)
  {
    var b' := Append(b, d, op);
    var k := (b'.headDomain, b.block);
    forall k' | k' in b'.digests
      ensures first < k'.1 && (k'.1 < b'.block ==> k'.1 in b'.hashes) && (k'.1 == b'.block ==> k' == k)
    {
      assert k' != k ==> k' in b.digests && KeyOk(b, k');
    }
  }

  lemma NextBlockDerived(b: Inbox, first: nat, hash: nat)
    requires KeysOk(b) && Derived(b, first)
    ensures Derived(NextBlock(b, hash), first)
  {
    var b' := NextBlock(b, hash);
    forall k | k in b'.digests
      ensures first < k.1 && k.1 < b'.block && k.1 in b'.hashes
    {
      assert KeyOk(b, k);
    }
  }

  lemma ConfirmDerived(b: Inbox, b': Inbox, first: nat, r: Receipt)
    requires Derived(b, first) && Confirm(b, r).Done? && b' == Confirm(b, r).value.0
    requires Matches(b, r) && (r.number == 0 ==> r.consensus <= first)
    ensures Derived(b', first)
  {
    forall k | k in b'.digests
      ensures k in b.digests && k.1 != r.consensus
    {
      assert r.number > 0 ==> (r.number, r.consensus) in b.digests;
    }
  }

  /** The receipt that a new head confirms was checked against the inbox, or is the genesis receipt. */
  lemma HeadDerived(s: State, s': State, op: OperatorId, r: Receipt, setup: Setup, ok: bool)
    requires StateOk(s, setup) && Verify(s.chain, s.inbox, r) == Done(NewHead) && op in s.statuses
    requires AcceptHead(s, op, r, setup.depth, ok) == Done(s') && Derived(s.inbox, setup.genesis.consensus)
    ensures Derived(s'.inbox, setup.genesis.consensus)
  {
    var p := AcceptHeadParts(s, op, r, setup);
    AcceptHeadIs(s, op, r, setup.depth, ok, p);
    if p.confirmed.Some? {
      VerifiedHead(s.chain, s.inbox, r);
      HeadKeeps(s, op, r, setup, p);
      var confirmed := p.confirmed.value;
      ConfirmedMatches(s.chain, s.inbox, p.c1, p.stale, p.c2, confirmed, op, r);
      FirstIsGenesis(p.c2, AfterHead(s, r, p).past, setup);
      ConfirmDerived(s.inbox, s'.inbox, setup.genesis.consensus, confirmed.receipt);
    }
  }

  lemma FirstIsGenesis(c: Chain, past: Past, setup: Setup)
    requires ChainOk(c, past, setup.genesis, setup.depth) && past.log != []
    ensures past.log[|past.log| - 1].number == 0 ==> past.log[|past.log| - 1] == setup.genesis
  {
    assert HashAt(c, past.log, 0) == Some(HashOf(past.log[0]));
  }

  lemma AcceptDerived(s: State, s': State, op: OperatorId, r: Receipt, setup: Setup, ok: bool)
    requires StateOk(s, setup) && op in s.statuses && Accept(s, op, r, setup.depth, ok) == Done(s')
    requires Derived(s.inbox, setup.genesis.consensus)
    ensures Derived(s'.inbox, setup.genesis.consensus)
  {
    VerifiedKind(s.chain, s.inbox, r);
    if Verify(s.chain, s.inbox, r).value.NewHead? {
      HeadDerived(s, s', op, r, setup, ok);
    }
  }

  // ---- No inbox is lost before its block is confirmed ----

  ghost predicate HasInbox(b: Inbox, n: nat) { exists consensus :: (n, consensus) in b.digests }

  /** Every domain block that is not confirmed yet has its inbox. */
  ghost predicate InboxesKept(b: Inbox, confirmed: nat) {
    forall n: nat :: 0 < n && confirmed <= n <= b.headDomain ==> HasInbox(b, n)
  }

  lemma AppendKeepsInboxes(b: Inbox, confirmed: nat, d: Digest, op: OperatorId)
    requires InboxesKept(b, confirmed)
    ensures InboxesKept(Append(b, d, op), confirmed)
  {
    var b' := Append(b, d, op);
    forall n: nat | 0 < n && confirmed <= n <= b'.headDomain
      ensures HasInbox(b', n)
    {
      if n == b'.headDomain {
        assert (n, b.block) in b'.digests;
      } else {
        assert HasInbox(b, n);
        var consensus :| (n, consensus) in b.digests;
        assert (n, consensus) in b'.digests;
      }
    }
  }

  lemma ConfirmKeepsInboxes(b: Inbox, b': Inbox, confirmed: nat, r: Receipt)
    requires InboxesKept(b, confirmed) && Confirm(b, r).Done? && b' == Confirm(b, r).value.0 && r.number == confirmed
    ensures InboxesKept(b', confirmed + 1)
  {
    forall n: nat | confirmed + 1 <= n <= b'.headDomain
      ensures HasInbox(b', n)
    {
      assert HasInbox(b, n);
      var consensus :| (n, consensus) in b.digests;
      assert (n, consensus) in b'.digests;
    }
  }

  lemma HeadKeepsInboxes(s: State, s': State, op: OperatorId, r: Receipt, setup: Setup, ok: bool)
    requires StateOk(s, setup) && Verify(s.chain, s.inbox, r) == Done(NewHead) && op in s.statuses
    requires AcceptHead(s, op, r, setup.depth, ok) == Done(s') && InboxesKept(s.inbox, |s.past.log|)
    ensures InboxesKept(s'.inbox, |s'.past.log|)
  {
    var p := AcceptHeadParts(s, op, r, setup);
    AcceptHeadIs(s, op, r, setup.depth, ok, p);
    if p.confirmed.Some? {
      ConfirmedNumber(s, op, r, setup, p);
      ConfirmKeepsInboxes(s.inbox, s'.inbox, |s.past.log|, p.confirmed.value.receipt);
    }
  }

  lemma ConfirmedNumber(s: State, op: OperatorId, r: Receipt, setup: Setup, p: HeadParts)
    requires StateOk(s, setup) && HeadTaken(s, op, r, setup.depth, p) && p.confirmed.Some?
    ensures p.confirmed.value.receipt.number == |s.past.log|
  {
    HeadStepKeeps(s.chain, p.c1, p.stale, p.c2, p.confirmed, op, r, s.past, setup.genesis, setup.depth);
    NumbersInOrder(p.c2, Advance(s.past, r.number, p.confirmed), setup);
  }

  lemma NumbersInOrder(c: Chain, past: Past, setup: Setup)
    requires ChainOk(c, past, setup.genesis, setup.depth) && past.log != []
    ensures past.log[|past.log| - 1].number == |past.log| - 1
  {}

  lemma AcceptKeepsInboxes(s: State, s': State, op: OperatorId, r: Receipt, setup: Setup, ok: bool)
    requires StateOk(s, setup) && op in s.statuses && Accept(s, op, r, setup.depth, ok) == Done(s')
    requires InboxesKept(s.inbox, |s.past.log|)
    ensures InboxesKept(s'.inbox, |s'.past.log|)
  {
    VerifiedKind(s.chain, s.inbox, r);
    if Verify(s.chain, s.inbox, r).value.NewHead? {
      HeadKeepsInboxes(s, s', op, r, setup, ok);
    }
  }

  // ---- No hash is kept longer ----

  ghost predicate HasBundles(b: Inbox, consensus: nat) { exists n :: (n, consensus) in b.digests }

  /** Only the hashes of blocks whose bundles still wait are kept. */
  ghost predicate NoLeaks(b: Inbox) {
    (forall n :: n in b.hashes ==> HasBundles(b, n)) && (b.bundled ==> HasBundles(b, b.block))
  }

  lemma AppendNoLeaks(b: Inbox, d: Digest, op: OperatorId)
    requires NoLeaks(b)
    ensures NoLeaks(Append(b, d, op))
  {
    var b' := Append(b, d, op);
    assert (b'.headDomain, b.block) in b'.digests;
    forall n | n in b'.hashes
      ensures HasBundles(b', n)
    {
      assert HasBundles(b, n);
      var m :| (m, n) in b.digests;
      assert (m, n) in b'.digests;
    }
  }

  lemma NextBlockNoLeaks(b: Inbox, hash: nat)
    requires NoLeaks(b)
    ensures NoLeaks(NextBlock(b, hash))
  {
    forall n | n in NextBlock(b, hash).hashes
      ensures HasBundles(NextBlock(b, hash), n)
    {
      assert HasBundles(b, n);
    }
  }

  lemma ConfirmNoLeaks(b: Inbox, b': Inbox, r: Receipt)
    requires KeysOk(b) && NoLeaks(b) && Confirm(b, r).Done? && b' == Confirm(b, r).value.0 && Matches(b, r)
    ensures NoLeaks(b')
  {
    forall n | n in b'.hashes || (b'.bundled && n == b'.block)
      ensures HasBundles(b', n)
    {
      assert HasBundles(b, n);
      var m :| (m, n) in b.digests;
      assert KeyOk(b, (m, n));
      assert m != r.number;
      assert (m, n) in b'.digests;
    }
  }

  lemma HeadNoLeaks(s: State, s': State, op: OperatorId, r: Receipt, setup: Setup, ok: bool)
    requires StateOk(s, setup) && Verify(s.chain, s.inbox, r) == Done(NewHead) && op in s.statuses
    requires AcceptHead(s, op, r, setup.depth, ok) == Done(s') && NoLeaks(s.inbox)
    ensures NoLeaks(s'.inbox)
  {
    var p := AcceptHeadParts(s, op, r, setup);
    AcceptHeadIs(s, op, r, setup.depth, ok, p);
    if p.confirmed.Some? {
      HeadStepFrames(s.chain, p.c1, p.stale, p.c2, p.confirmed, op, r, s.past, setup.genesis, setup.depth);
      ConfirmedMatches(s.chain, s.inbox, p.c1, p.stale, p.c2, p.confirmed.value, op, r);
      ConfirmNoLeaks(s.inbox, s'.inbox, p.confirmed.value.receipt);
    }
  }

  lemma AcceptNoLeaks(s: State, s': State, op: OperatorId, r: Receipt, setup: Setup, ok: bool)
    requires StateOk(s, setup) && op in s.statuses && Accept(s, op, r, setup.depth, ok) == Done(s')
    requires NoLeaks(s.inbox)
    ensures NoLeaks(s'.inbox)
  {
    VerifiedKind(s.chain, s.inbox, r);
    if Verify(s.chain, s.inbox, r).value.NewHead? {
      HeadNoLeaks(s, s', op, r, setup, ok);
    }
  }

  // ---- Over every run ----

  ghost predicate InboxSound(b: Inbox, confirmed: nat, first: nat) {
    Derived(b, first) && InboxesKept(b, confirmed) && NoLeaks(b) && first < b.block
  }

  ghost predicate DerivedOk(s: State, setup: Setup) {
    StateOk(s, setup) && InboxSound(s.inbox, |s.past.log|, setup.genesis.consensus)
  }

  lemma AcceptSound(s: State, s': State, op: OperatorId, r: Receipt, setup: Setup, ok: bool)
    requires DerivedOk(s, setup) && op in s.statuses && Accept(s, op, r, setup.depth, ok) == Done(s')
    ensures DerivedOk(s', setup)
  {
    AcceptKeeps(s, op, r, setup, ok);
    AcceptDerived(s, s', op, r, setup, ok);
    AcceptKeepsInboxes(s, s', op, r, setup, ok);
    AcceptNoLeaks(s, s', op, r, setup, ok);
    AcceptKeepsHashes(s, s', op, r, setup.depth, ok);
  }

  lemma BundleSound(s: State, s': State, setup: Setup, op: OperatorId, r: Receipt, d: Digest, ok: bool)
    requires DerivedOk(s, setup) && Next(s, s', setup, BundleStep(op, r, d, ok))
    ensures InboxSound(s'.inbox, |s'.past.log|, setup.genesis.consensus)
  {
    var s1 := Accept(s, op, r, setup.depth, ok).value;
    AcceptSound(s, s1, op, r, setup, ok);
    AppendDerived(s1.inbox, setup.genesis.consensus, d, op);
    AppendKeepsInboxes(s1.inbox, |s1.past.log|, d, op);
    AppendNoLeaks(s1.inbox, d, op);
  }

  lemma BlockSound(b: Inbox, confirmed: nat, first: nat, hash: nat)
    requires KeysOk(b) && InboxSound(b, confirmed, first)
    ensures InboxSound(NextBlock(b, hash), confirmed, first)
  {
    NextBlockDerived(b, first, hash);
    NextBlockNoLeaks(b, hash);
    var b' := NextBlock(b, hash);
    forall n: nat | 0 < n && confirmed <= n <= b'.headDomain
      ensures HasInbox(b', n)
    {
      assert HasInbox(b, n);
    }
  }

  lemma OtherSound(s: State, s': State, setup: Setup, step: Step)
    requires Next(s, s', setup, step) && !step.BundleStep? && !step.ReceiptStep? && !step.BlockStep?
    ensures s'.inbox == s.inbox && s'.past == s.past
  {}

  lemma NextSound(s: State, s': State, setup: Setup, step: Step)
    requires DerivedOk(s, setup) && Next(s, s', setup, step)
    ensures InboxSound(s'.inbox, |s'.past.log|, setup.genesis.consensus)
  {
    match step
    case BundleStep(op, r, d, ok) => BundleSound(s, s', setup, op, r, d, ok);
    case ReceiptStep(op, r, ok) => AcceptSound(s, s', op, r, setup, ok);
    case BlockStep(hash) => BlockSound(s.inbox, |s.past.log|, setup.genesis.consensus, hash);
    case _ => OtherSound(s, s', setup, step);
  }

  ghost function DerivedOf(setup: Setup): State -> bool { s => DerivedOk(s, setup) }

  lemma RunDerived(run: seq<State>, setup: Setup, i: nat)
    requires Run(run, setup) && i < |run|
    ensures DerivedOk(run[i], setup)
  {
    forall s | Start(setup)(s)
      ensures DerivedOf(setup)(s)
    {
      var block, parentHash :| setup.genesis.consensus < block && s == Init(setup, block, parentHash);
      InitOk(setup, block, parentHash);
    }
    forall s, s' | DerivedOf(setup)(s) && StepOf(setup)(s, s')
      ensures DerivedOf(setup)(s')
    {
      var step :| Next(s, s', setup, step);
      NextKeeps(s, s', setup, step);
      NextSound(s, s', setup, step);
    }
    R.Invariance(run, Start(setup), StepOf(setup), DerivedOf(setup), i);
    assert DerivedOf(setup)(run[i]);
  }

  /** Over every run, the inbox of every domain block that is not confirmed is there, each from a consensus block of its
      own, and of the finished blocks exactly the hashes of those are kept. */
  lemma InboxesComplete(run: seq<State>, setup: Setup, i: nat, n: nat)
    requires Run(run, setup) && i < |run|
    ensures var b := run[i].inbox;
            && (0 < n && |run[i].past.log| <= n <= b.headDomain ==> HasInbox(b, n))
            && (n < b.block ==> (n in b.hashes <==> HasBundles(b, n)))
            && (forall k, k' :: k in b.digests && k' in b.digests && (k.0 == k'.0 || k.1 == k'.1) ==> k == k')
  {
    RunDerived(run, setup, i);
    var b := run[i].inbox;
    if n < b.block && HasBundles(b, n) {
      var m :| (m, n) in b.digests;
    }
  }

  // ---- Every honest receipt is accepted ----

  /** A well-formed receipt that extends the head by the block whose bundles came in its consensus block. */
  ghost predicate Honest(c: Chain, b: Inbox, r: Receipt, hash: nat) {
    && c.newHead.None? && r.number == c.head + 1 && Exists(c, c.head, r.parent)
    && r.wellFormed && r.consensusHash == hash
    && (r.number, r.consensus) in b.digests && SameRoots(r.bundles, DigestsOf(b, r))
  }

  lemma HashExpected(b: Inbox, first: nat, k: Key, hash: nat)
    requires Derived(b, first) && k in b.digests && Ended(b, k.1, hash)
    ensures ExpectedHash(b, k.1) == Done(hash)
  {}

  lemma HonestVerifies(c: Chain, b: Inbox, r: Receipt, hash: nat)
    requires Honest(c, b, r, hash) && ExpectedHash(b, r.consensus) == Done(hash) && DigestsOf(b, r) != []
    ensures Verify(c, b, r) == Done(NewHead)
  {}

  lemma HonestIff(c: Chain, b: Inbox, first: nat, r: Receipt, hash: nat)
    requires KeysOk(b) && Derived(b, first) && Ended(b, r.consensus, hash)
    ensures Verify(c, b, r) == Done(NewHead) <==> Honest(c, b, r, hash)
  {
    if Honest(c, b, r, hash) {
      HashExpected(b, first, (r.number, r.consensus), hash);
      HonestVerifies(c, b, r, hash);
    }
    if Verify(c, b, r) == Done(NewHead) {
      VerifiedHead(c, b, r);
      BlockTreeBlocks.VerifiedReport(c, b, r);
      ExpectedIsHash(b, r.consensus, hash, r.consensusHash);
    }
  }

  lemma VerifiedTaken(s: State, setup: Setup, op: OperatorId, r: Receipt)
    requires StateOk(s, setup) && op in s.statuses
    ensures var t := Accept(s, op, r, setup.depth, true);
            && (t.Done? <==> Verify(s.chain, s.inbox, r).Done?)
            && (t.Done? && t.value.added != s.added <==> Verify(s.chain, s.inbox, r) == Done(NewHead))
  {
    if Verify(s.chain, s.inbox, r).Done? {
      VerifiedKind(s.chain, s.inbox, r);
      AcceptKeeps(s, op, r, setup, true);
      if Verify(s.chain, s.inbox, r).value.NewHead? {
        HeadTakenWhole(s, setup, op, r);
      }
    }
  }

  lemma HeadTakenWhole(s: State, setup: Setup, op: OperatorId, r: Receipt)
    requires StateOk(s, setup) && op in s.statuses && Verify(s.chain, s.inbox, r) == Done(NewHead)
    ensures var t := AcceptHead(s, op, r, setup.depth, true);
            t.Done? && t.value.added == s.added + [HashOf(r)] && t.value.added != s.added
  {
    var p := AcceptHeadParts(s, op, r, setup);
    AcceptHeadIs(s, op, r, setup.depth, true, p);
    VerifiedHead(s.chain, s.inbox, r);
    if p.confirmed.Some? {
      ConfirmKeepsState(s, op, r, setup, true, p);
    }
    BlockTreeBlocks.HeadAdds(s, AcceptHead(s, op, r, setup.depth, true).value, setup, op, r, true);
  }

  /** Over every run, a receipt derived from a finished block becomes the new head exactly when it is honest about it:
      whoever executes the next domain block correctly can always put its receipt on the chain. */
  lemma HonestHeads(run: seq<State>, setup: Setup, i: nat, j: nat, hash: nat, op: OperatorId, r: Receipt)
    requires Run(run, setup) && EndsAt(run, i, r.consensus, hash) && i < j < |run| && op in run[j].statuses
    ensures var t := Accept(run[j], op, r, setup.depth, true);
            t.Done? && t.value.added != run[j].added <==> Honest(run[j].chain, run[j].inbox, r, hash)
  {
    EndedSince(run, setup, i, j, r.consensus, hash);
    RunDerived(run, setup, j);
    HonestIff(run[j].chain, run[j].inbox, setup.genesis.consensus, r, hash);
    VerifiedTaken(run[j], setup, op, r);
  }

  /** The receipt of an honest executor for the next block, with nothing reported as invalid. */
  ghost function NextReceipt(c: Chain, b: Inbox, consensus: nat, hash: nat): Receipt
    requires c.head in c.tree
  {
    var ds := DigestsAt(b, c.head + 1, consensus);
    Receipt(c.head + 1, consensus, hash,
            seq(|ds|, i requires 0 <= i < |ds| => InboxedBundle(ds[i].extrinsicsRoot, false)),
            c.tree[c.head], true, 0)
  }

  lemma NextIsHonest(c: Chain, b: Inbox, consensus: nat, hash: nat)
    requires c.head in c.tree && c.newHead.None? && (c.head + 1, consensus) in b.digests
    ensures Honest(c, b, NextReceipt(c, b, consensus, hash), hash)
  {}

  /** The bundles of the next block after `head` are complete. */
  predicate NextComplete(b: Inbox, head: nat) { head < b.headDomain && (b.bundled ==> head + 1 < b.headDomain) }

  lemma NextInbox(b: Inbox, confirmed: nat, first: nat, head: nat) returns (consensus: nat, hash: nat)
    requires KeysOk(b) && InboxSound(b, confirmed, first) && confirmed <= head && NextComplete(b, head)
    ensures (head + 1, consensus) in b.digests && Ended(b, consensus, hash)
  {
    assert HasInbox(b, head + 1);
    consensus :| (head + 1, consensus) in b.digests;
    assert KeyOk(b, (head + 1, consensus));
    hash := b.hashes[consensus];
  }

  lemma HeadStored(c: Chain, past: Past, setup: Setup)
    requires ChainOk(c, past, setup.genesis, setup.depth)
    ensures |past.log| <= c.head && c.head in c.tree
  {}

  /** The chain never gets stuck: whenever the bundles of the next domain block are complete and no receipt was added in
      the running block yet, some receipt for it becomes the new head. */
  lemma NextHeadExists(run: seq<State>, setup: Setup, i: nat, op: OperatorId) returns (r: Receipt)
    requires Run(run, setup) && i < |run| && op in run[i].statuses
    requires run[i].chain.newHead.None? && NextComplete(run[i].inbox, run[i].chain.head)
    ensures Accept(run[i], op, r, setup.depth, true).Done?
    ensures Accept(run[i], op, r, setup.depth, true).value.added == run[i].added + [HashOf(r)]
  {
    RunDerived(run, setup, i);
    HeadStored(run[i].chain, run[i].past, setup);
    r := VerifiedNext(run[i].chain, run[i].inbox, |run[i].past.log|, setup.genesis.consensus);
    HeadTakenWhole(run[i], setup, op, r);
  }

  lemma VerifiedNext(c: Chain, b: Inbox, confirmed: nat, first: nat) returns (r: Receipt)
    requires KeysOk(b) && InboxSound(b, confirmed, first) && confirmed <= c.head && c.head in c.tree
    requires c.newHead.None? && NextComplete(b, c.head)
    ensures Verify(c, b, r) == Done(NewHead)
  {
    var consensus, hash := NextInbox(b, confirmed, first, c.head);
    r := NextReceipt(c, b, consensus, hash);
    NextIsHonest(c, b, consensus, hash);
    HonestIff(c, b, first, r, hash);
  }

  /** Any other receipt is accepted exactly when it is the stored head, put there in this block, or the genesis receipt
      before the first bundle. */
  lemma EndorsedHeads(run: seq<State>, setup: Setup, i: nat, op: OperatorId, r: Receipt)
    requires Run(run, setup) && i < |run| && op in run[i].statuses
    ensures var s := run[i];
            var t := Accept(s, op, r, setup.depth, true);
            t.Done? && t.value.added == s.added <==>
              && r.number == s.chain.head && Exists(s.chain, s.chain.head, HashOf(r))
              && (s.chain.newHead == Some(HashOf(r))
                  || (s.chain.newHead.None? && s.chain.head == 0 && s.inbox.headDomain == 0))
  {
    RunOk(run, setup, i);
    VerifiedTaken(run[i], setup, op, r);
    CurrentIff(run[i], setup, r);
  }

  lemma CurrentIff(s: State, setup: Setup, r: Receipt)
    requires StateOk(s, setup)
    ensures Verify(s.chain, s.inbox, r) == Done(CurrentHead) <==>
              && r.number == s.chain.head && Exists(s.chain, s.chain.head, HashOf(r))
              && (s.chain.newHead == Some(HashOf(r))
                  || (s.chain.newHead.None? && s.chain.head == 0 && s.inbox.headDomain == 0))
    ensures Verify(s.chain, s.inbox, r).Done? ==> Verify(s.chain, s.inbox, r).value in {NewHead, CurrentHead}
  {}

  // ---- Bundles and receipts ----

  predicate GoodStanding(s: State, op: OperatorId) {
    op in s.statuses && !IsPending(s.chain, op) && (s.statuses[op].Registered? || s.statuses[op].Deregistered?)
  }

  /** A bundle is accepted exactly with an acceptable receipt, from an operator in good standing and while at most one
      receipt is missing; when more are missing, receipts come alone. */
  lemma SubmissionsAccepted(s: State, op: OperatorId, r: Receipt, d: Digest, depth: nat, ok: bool)
    ensures SubmitBundle(s, op, r, d, depth, ok).Done? <==>
            GoodStanding(s, op) && s.inbox.headDomain <= s.chain.head + 1 && Accept(s, op, r, depth, ok).Done?
    ensures SubmitReceipt(s, op, r, depth, ok).Done? <==>
            GoodStanding(s, op) && s.inbox.headDomain > s.chain.head + 1 && Accept(s, op, r, depth, ok).Done?
  {}
}
