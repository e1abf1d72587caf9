/** Submitting bundles, receipts and fraud proofs of a domain, and the blocks in between. */
module BlockTree {
  import opened ReceiptTypes
  import opened StakingTypes
  import opened TreeTypes
  import opened ReceiptChain
  import opened BundleInbox
  import opened OperatorMarks

  /** `past`, `settled` and `added` only record what has happened: no operation reads them. */
  datatype State = State(
    chain: Chain, inbox: Inbox, statuses: Statuses, nextId: nat, past: Past, settled: Settled, added: seq<ReceiptHash>)

  datatype Setup = Setup(genesis: Receipt, depth: nat)

  function Init(setup: Setup, block: nat, parentHash: nat): State {
    State(Genesis(setup.genesis), Inbox(0, map[], map[], map[], parentHash, block, false), map[], 0, Past(0, []),
          Settled(map[], {}), [])
  }

  // ---- Which receipts are accepted ----

  datatype ReceiptType = NewHead | CurrentHead | Rejected(error: TreeError)

  function TypeOf(c: Chain, headDomain: nat, r: Receipt): ReceiptType {
    if r.number > c.head + 1 then Rejected(InFutureReceipt)
    else if r.number == c.head + 1 then (if c.newHead.Some? then Rejected(InFutureReceipt) else NewHead)
    else if c.confirmed.number != 0 && r.number <= c.confirmed.number then Rejected(PrunedReceipt)
    else if !Exists(c, r.number, HashOf(r)) then Rejected(NewBranchReceipt)
    else if r.number == c.head && (c.newHead.Some? || (r.number == 0 && headDomain == 0)) then CurrentHead
    else Rejected(StaleReceipt)
  }

  /** The hash of the consensus block that a receipt claims to be derived from. */
  function ExpectedHash(b: Inbox, consensus: nat): Outcome<nat> {
    if consensus in b.hashes then Done(b.hashes[consensus])
    else if consensus + 1 == b.block then Done(b.parentHash)
    else Failed(UnavailableConsensusBlockHash)
  }

  function Verify(c: Chain, b: Inbox, r: Receipt): Outcome<ReceiptType> {
    var t := TypeOf(c, b.headDomain, r);
    if t.Rejected? then Failed(t.error)
    else if c.newHead.Some? then (if c.newHead.value == HashOf(r) then Done(t) else Failed(UnmatchedNewHeadReceipt))
    else if r.number == 0 then (if Exists(c, 0, HashOf(r)) then Done(t) else Failed(BadGenesisReceipt))
    else if !r.wellFormed then Failed(InvalidExecutionTrace)
    else
      var hash :- ExpectedHash(b, r.consensus);
      if r.consensusHash != hash then Failed(BuiltOnUnknownConsensusBlock)
      else if r.bundles == [] || !SameRoots(r.bundles, DigestsOf(b, r)) then Failed(InvalidExtrinsicsRoots)
      else if !Exists(c, r.number - 1, r.parent) then Failed(UnknownParentBlockReceipt)
      else Done(t)
  }

  // ---- Processing an accepted receipt ----

  /** A receipt proved fraudulent: its submitters are slashed and its marks taken back. */
  function Punish(st: Statuses, c: Chain, b: Inbox, bad: Node): Outcome<Statuses> {
    var authors :- AuthorsOf(b, bad.receipt);
    Done(Unmark(Slash(st, bad.operators), c, authors, HashOf(bad.receipt)))
  }

  /** A new head replaces a stale receipt of the same number, and may confirm the block `depth` below it. */
  function AcceptHead(s: State, op: OperatorId, r: Receipt, depth: nat, transfersOk: bool): Outcome<State> {
    var pruned :- Prune(s.chain, r.number);
    var st1 :- if pruned.1.Some? then Punish(s.statuses, pruned.0, s.inbox, pruned.1.value) else Done(s.statuses);
    var authors :- AuthorsOf(s.inbox, r);
    var st2 := Mark(st1, pruned.0, authors, HashOf(r));
    var extended :- Extend(pruned.0, op, r, depth);
    var s2 := s.(chain := extended.0, statuses := st2, past := Advance(s.past, r.number, extended.1),
                 added := s.added + [HashOf(r)]);
    if extended.1.None? then Done(s2) else ConfirmBlock(s2, extended.1.value.receipt, transfersOk)
  }

  /** Settles the bundles of a confirmed receipt and slashes the authors of invalid ones. */
  function ConfirmBlock(s: State, r: Receipt, transfersOk: bool): Outcome<State> {
    var settled :- Confirm(s.inbox, r);
    if !transfersOk then Failed(TransfersFailed)
    else
      Done(s.(inbox := settled.0, statuses := Slash(s.statuses, settled.1.invalid),
              settled := s.settled.(done := s.settled.done + Headers(DigestsOf(s.inbox, r)))))
  }

  function Accept(s: State, op: OperatorId, r: Receipt, depth: nat, transfersOk: bool): Outcome<State> {
    var t :- Verify(s.chain, s.inbox, r);
    if t.NewHead? then AcceptHead(s, op, r, depth, transfersOk)
    else
      var c :- Endorse(s.chain, op, r);
      Done(s.(chain := c))
  }

  // ---- Calls and hooks ----

  /** How many receipts are still to be submitted. */
  function ReceiptGap(s: State): nat {
    if s.inbox.headDomain >= s.chain.head then s.inbox.headDomain - s.chain.head else 0
  }

  function SubmitBundle(s: State, op: OperatorId, r: Receipt, d: Digest, depth: nat, transfersOk: bool)
    : Outcome<State>
  {
    if ReceiptGap(s) > 1 then Failed(UnexpectedReceiptGap)
    else if !CanSubmit(s.statuses, s.chain, op) then Failed(BadOperator)
    else
      var s1 :- Accept(s, op, r, depth, transfersOk);
      var b := Append(s1.inbox, d, op);
      var k := (b.headDomain, b.block);
      var place := (k, |DigestsAt(s1.inbox, k.0, k.1)|);
      Done(s1.(inbox := b, settled := s1.settled.(places := s1.settled.places[d.header := place])))
  }

  function SubmitReceipt(s: State, op: OperatorId, r: Receipt, depth: nat, transfersOk: bool): Outcome<State> {
    if ReceiptGap(s) <= 1 then Failed(ExpectingReceiptGap)
    else if !CanSubmit(s.statuses, s.chain, op) then Failed(BadOperator)
    else Accept(s, op, r, depth, transfersOk)
  }

  /** Prunes the bad receipt at once and rewinds the head; its descendants are pruned as the head climbs back. */
  function SubmitFraudProof(s: State, h: ReceiptHash): Outcome<State> {
    if h !in s.chain.nodes then Failed(BadReceiptNotFound)
    else
      var bad := s.chain.nodes[h].receipt;
      if bad.number == 0 then Failed(ChallengingGenesisReceipt)
      else if s.chain.head < bad.number then Failed(BadReceiptAlreadyReported)
      else if bad.parent !in s.chain.nodes then Failed(ParentReceiptNotFound)
      else
        var pruned :- Prune(s.chain, bad.number);
        if pruned.1.None? then Failed(BadReceiptNotFound)
        else
          var st :- Punish(s.statuses, pruned.0, s.inbox, pruned.1.value);
          Done(s.(chain := pruned.0.(head := bad.number - 1), statuses := st))
  }

  /** The end of a consensus block and the start of the next one. */
  function EndBlock(s: State, hash: nat): State {
    s.(chain := s.chain.(newHead := None), inbox := NextBlock(s.inbox, hash))
  }
}
