/** What every call and every block keeps true of the block tree of a domain. */
module BlockTreeInvariant {
  import opened ReceiptTypes
  import opened StakingTypes
  import opened TreeTypes
  import opened ReceiptChain
  import opened BundleInbox
  import opened OperatorMarks
  import opened BlockTree

  /** The inbox each stored receipt was checked against is still there, unchanged. */
  ghost predicate NodesMatch(c: Chain, b: Inbox) { forall h :: h in c.nodes ==> Matches(b, c.nodes[h].receipt) }

  /** An operator marked for invalid bundles, unless pending slash, is an author reported by a stored receipt. */
  ghost predicate MarkOk(c: Chain, b: Inbox, st: Statuses, op: OperatorId) {
    op in st && st[op].InvalidBundle? && !IsPending(c, op) ==>
      st[op].receipt in c.nodes && Reported(b, c.nodes[st[op].receipt].receipt, op)
  }

  ghost predicate Reported(b: Inbox, r: Receipt, op: OperatorId) {
    AuthorsOf(b, r).Done? && op in AuthorsOf(b, r).value
  }

  ghost predicate MarksOk(c: Chain, b: Inbox, st: Statuses) { forall op :: MarkOk(c, b, st, op) }

  ghost predicate Known(c: Chain, st: Statuses, nextId: nat) {
    && (forall op :: op in st ==> op < nextId)
    && (forall h, op :: h in c.nodes && op in c.nodes[h].operators ==> op < nextId)
  }

  ghost predicate StateOk(s: State, setup: Setup) {
    && ChainOk(s.chain, s.past, setup.genesis, setup.depth)
    && InboxOk(s.inbox, s.settled)
    && NodesMatch(s.chain, s.inbox)
    && MarksOk(s.chain, s.inbox, s.statuses)
    && Known(s.chain, s.statuses, s.nextId)
  }

  lemma InitOk(setup: Setup, block: nat, parentHash: nat)
    requires setup.genesis.number == 0 && setup.depth >= 1
    ensures StateOk(Init(setup, block, parentHash), setup)
  {
    GenesisOk(setup.genesis, setup.depth);
  }

  // ---- What verification guarantees ----

  lemma VerifiedHead(c: Chain, b: Inbox, r: Receipt)
    requires Verify(c, b, r) == Done(NewHead) && KeysOk(b)
    ensures r.number == c.head + 1 && c.newHead.None? && Exists(c, c.head, r.parent) && Matches(b, r)
  {}

  lemma VerifiedCurrent(c: Chain, b: Inbox, r: Receipt)
    requires Verify(c, b, r) == Done(CurrentHead)
    ensures r.number == c.head && Exists(c, r.number, HashOf(r))
  {}

  lemma VerifiedKind(c: Chain, b: Inbox, r: Receipt)
    requires Verify(c, b, r).Done?
    ensures Verify(c, b, r) == Done(NewHead) || Verify(c, b, r) == Done(CurrentHead)
  {}

  lemma MatchedAuthors(b: Inbox, past: Settled, r: Receipt)
    requires InboxOk(b, past) && Matches(b, r)
    ensures AuthorsOf(b, r).Done?
  {}

  // ---- A new head, step by step ----

  /** The parts of `AcceptHead`. */
  datatype HeadParts = HeadParts(c1: Chain, stale: Option<Node>, st1: Statuses, authors: seq<OperatorId>,
                                 c2: Chain, confirmed: Option<Node>)

  ghost predicate HeadTaken(s: State, op: OperatorId, r: Receipt, depth: nat, p: HeadParts) {
    && HeadStep(s.chain, p.c1, p.stale, p.c2, p.confirmed, op, r, depth)
    && Done(p.st1) == (if p.stale.Some? then Punish(s.statuses, p.c1, s.inbox, p.stale.value) else Done(s.statuses))
    && AuthorsOf(s.inbox, r) == Done(p.authors)
  }

  function AfterHead(s: State, r: Receipt, p: HeadParts): State {
    s.(chain := p.c2, statuses := Mark(p.st1, p.c1, p.authors, HashOf(r)),
       past := Advance(s.past, r.number, p.confirmed), added := s.added + [HashOf(r)])
  }

  lemma AcceptHeadIs(s: State, op: OperatorId, r: Receipt, depth: nat, transfersOk: bool, p: HeadParts)
    requires HeadTaken(s, op, r, depth, p)
    ensures AcceptHead(s, op, r, depth, transfersOk) ==
            if p.confirmed.None? then Done(AfterHead(s, r, p))
            else ConfirmBlock(AfterHead(s, r, p), p.confirmed.value.receipt, transfersOk)
  {}

  lemma StaleMatches(c: Chain, b: Inbox, c1: Chain, stale: Option<Node>, number: nat, past: Settled)
    requires NodesMatch(c, b) && InboxOk(b, past) && Prune(c, number) == Done((c1, stale)) && stale.Some?
    ensures AuthorsOf(b, stale.value.receipt).Done?
  {
    MatchedAuthors(b, past, stale.value.receipt);
  }

  lemma HeadChain(c: Chain, past: Past, op: OperatorId, r: Receipt, setup: Setup)
    returns (c1: Chain, stale: Option<Node>, c2: Chain, confirmed: Option<Node>)
    requires ChainOk(c, past, setup.genesis, setup.depth) && r.number == c.head + 1 && Exists(c, c.head, r.parent)
    ensures HeadStep(c, c1, stale, c2, confirmed, op, r, setup.depth)
  {
    StalePruneKeeps(c, past, setup.genesis, setup.depth, r.number);
    var (a, b) := Prune(c, r.number).value;
    c1, stale := a, b;
    ExtendKeeps(c1, past, op, r, setup.genesis, setup.depth);
    var (a', b') := Extend(c1, op, r, setup.depth).value;
    c2, confirmed := a', b';
  }

  /** No step of accepting a new head can fail, except the transfers of a block it confirms. */
  lemma AcceptHeadParts(s: State, op: OperatorId, r: Receipt, setup: Setup) returns (p: HeadParts)
    requires StateOk(s, setup) && Verify(s.chain, s.inbox, r) == Done(NewHead)
    ensures HeadTaken(s, op, r, setup.depth, p)
  {
    VerifiedHead(s.chain, s.inbox, r);
    var c1, stale, c2, confirmed := HeadChain(s.chain, s.past, op, r, setup);
    MatchedAuthors(s.inbox, s.settled, r);
    var st1 := s.statuses;
    if stale.Some? {
      StaleMatches(s.chain, s.inbox, c1, stale, r.number, s.settled);
      st1 := Punish(s.statuses, c1, s.inbox, stale.value).value;
    }
    p := HeadParts(c1, stale, st1, AuthorsOf(s.inbox, r).value, c2, confirmed);
  }

  /** Before anything is confirmed a mark names the new head `r` or an earlier receipt. */
  ghost predicate MarkSource(c1: Chain, c2: Chain, b: Inbox, st: Statuses, r: Receipt, o: OperatorId) {
    o in st && st[o].InvalidBundle? && !IsPending(c2, o) ==>
      || (st[o].receipt == HashOf(r) && Reported(b, r, o))
      || (st[o].receipt in c1.nodes && Reported(b, c1.nodes[st[o].receipt].receipt, o))
  }

  lemma HeadMarks(s: State, op: OperatorId, r: Receipt, depth: nat, p: HeadParts, o: OperatorId)
    requires HeadTaken(s, op, r, depth, p) && MarkOk(s.chain, s.inbox, s.statuses, o)
    requires PruneFrame(s.chain, p.c1, p.stale, r.number) && ExtendFrame(p.c1, p.c2, p.confirmed, op, r)
    ensures MarkSource(p.c1, p.c2, s.inbox, AfterHead(s, r, p).statuses, r, o)
  {
    HeadStepPending(s.chain, p.c1, p.stale, p.c2, p.confirmed, op, r, o);
  }

  lemma MarkStays(c1: Chain, c2: Chain, b: Inbox, st: Statuses, op: OperatorId, r: Receipt, o: OperatorId)
    requires MarkSource(c1, c2, b, st, r, o) && ExtendFrame(c1, c2, None, op, r)
    ensures MarkOk(c2, b, st, o)
  {}

  /** Whoever is still marked after the slashing is marked by another receipt, which is still stored. */
  lemma MarkSettles(c1: Chain, c2: Chain, b: Inbox, b': Inbox, st: Statuses, op: OperatorId, r: Receipt,
                    confirmed: Node, invalid: seq<OperatorId>, o: OperatorId)
    requires MarkSource(c1, c2, b, st, r, o) && ExtendFrame(c1, c2, Some(confirmed), op, r)
    requires AuthorsOf(b, confirmed.receipt) == Done(invalid)
    requires forall h :: h in c2.nodes ==> Undisturbed(b, b', c2.nodes[h].receipt)
    ensures MarkOk(c2, b', Slash(st, invalid), o)
  {
    if o in st && st[o].InvalidBundle? && st[o].receipt in c2.nodes {
      assert Undisturbed(b, b', c2.nodes[st[o].receipt].receipt);
    }
  }

  lemma KnownStatuses(s: State, op: OperatorId, r: Receipt, depth: nat, p: HeadParts)
    requires HeadTaken(s, op, r, depth, p)
    ensures AfterHead(s, r, p).statuses.Keys == s.statuses.Keys
  {}

  lemma HeadKnown(s: State, op: OperatorId, r: Receipt, depth: nat, p: HeadParts)
    requires HeadTaken(s, op, r, depth, p) && Known(s.chain, s.statuses, s.nextId) && op in s.statuses
    requires PruneFrame(s.chain, p.c1, p.stale, r.number) && ExtendFrame(p.c1, p.c2, p.confirmed, op, r)
    ensures Known(p.c2, AfterHead(s, r, p).statuses, s.nextId)
  {
    KnownStatuses(s, op, r, depth, p);
  }

  lemma HeadMatches(c: Chain, b: Inbox, c1: Chain, stale: Option<Node>, c2: Chain, confirmed: Option<Node>,
                    op: OperatorId, r: Receipt)
    requires NodesMatch(c, b) && Matches(b, r)
    requires PruneFrame(c, c1, stale, r.number) && ExtendFrame(c1, c2, confirmed, op, r)
    ensures NodesMatch(c2, b)
  {}

  /** A new head that confirms nothing keeps the invariant. */
  lemma HeadKeeps(s: State, op: OperatorId, r: Receipt, setup: Setup, p: HeadParts)
    requires StateOk(s, setup) && HeadTaken(s, op, r, setup.depth, p) && Matches(s.inbox, r) && op in s.statuses
    ensures var s' := AfterHead(s, r, p);
            && ChainOk(s'.chain, s'.past, setup.genesis, setup.depth)
            && NodesMatch(s'.chain, s'.inbox)
            && Known(s'.chain, s'.statuses, s'.nextId)
            && PruneFrame(s.chain, p.c1, p.stale, r.number) && ExtendFrame(p.c1, p.c2, p.confirmed, op, r)
            && (p.confirmed.None? ==> StateOk(s', setup))
  {
    HeadStepKeeps(s.chain, p.c1, p.stale, p.c2, p.confirmed, op, r, s.past, setup.genesis, setup.depth);
    HeadStepFrames(s.chain, p.c1, p.stale, p.c2, p.confirmed, op, r, s.past, setup.genesis, setup.depth);
    HeadMatches(s.chain, s.inbox, p.c1, p.stale, p.c2, p.confirmed, op, r);
    HeadKnown(s, op, r, setup.depth, p);
    if p.confirmed.None? {
      HeadMarksOk(s, op, r, setup.depth, p);
    }
  }

  lemma HeadMarksOk(s: State, op: OperatorId, r: Receipt, depth: nat, p: HeadParts)
    requires HeadTaken(s, op, r, depth, p) && MarksOk(s.chain, s.inbox, s.statuses) && p.confirmed.None?
    requires PruneFrame(s.chain, p.c1, p.stale, r.number) && ExtendFrame(p.c1, p.c2, p.confirmed, op, r)
    ensures MarksOk(p.c2, s.inbox, AfterHead(s, r, p).statuses)
  {
    forall o: OperatorId
      ensures MarkOk(p.c2, s.inbox, AfterHead(s, r, p).statuses, o)
    {
      assert MarkOk(s.chain, s.inbox, s.statuses, o);
      HeadMarks(s, op, r, depth, p, o);
      MarkStays(p.c1, p.c2, s.inbox, AfterHead(s, r, p).statuses, op, r, o);
    }
  }

  // ---- Confirmation ----

  /** The receipt confirmed last is older than every stored one. */
  lemma ConfirmedApart(c: Chain, past: Past, setup: Setup)
    requires ChainOk(c, past, setup.genesis, setup.depth) && past.log != []
    ensures forall h :: h in c.nodes ==> c.nodes[h].receipt.number > past.log[|past.log| - 1].number
  {}

  lemma ConfirmedInbox(c: Chain, b: Inbox, past: Settled, confirmed: Receipt)
    returns (b': Inbox, invalid: seq<OperatorId>)
    requires InboxOk(b, past) && NodesMatch(c, b) && Matches(b, confirmed)
    requires forall h :: h in c.nodes ==> c.nodes[h].receipt.number > confirmed.number
    ensures Confirm(b, confirmed).Done? && b' == Confirm(b, confirmed).value.0
    ensures invalid == Confirm(b, confirmed).value.1.invalid
    ensures AuthorsOf(b, confirmed) == Done(invalid)
    ensures InboxOk(b', past.(done := past.done + Headers(DigestsOf(b, confirmed))))
    ensures forall h :: h in c.nodes ==> Undisturbed(b, b', c.nodes[h].receipt)
    ensures NodesMatch(c, b')
  {
    BundleInbox.ConfirmKeeps(b, past, confirmed);
    MatchedAuthors(b, past, confirmed);
    b', invalid := Confirm(b, confirmed).value.0, Confirm(b, confirmed).value.1.invalid;
    forall h | h in c.nodes
      ensures Undisturbed(b, b', c.nodes[h].receipt)
    {
      ConfirmUndisturbed(b, past, confirmed, c.nodes[h].receipt);
    }
  }

  lemma ConfirmedMarks(s: State, op: OperatorId, r: Receipt, depth: nat, p: HeadParts, b': Inbox,
                       invalid: seq<OperatorId>)
    requires HeadTaken(s, op, r, depth, p) && MarksOk(s.chain, s.inbox, s.statuses) && p.confirmed.Some?
    requires PruneFrame(s.chain, p.c1, p.stale, r.number) && ExtendFrame(p.c1, p.c2, p.confirmed, op, r)
    requires AuthorsOf(s.inbox, p.confirmed.value.receipt) == Done(invalid)
    requires forall h :: h in p.c2.nodes ==> Undisturbed(s.inbox, b', p.c2.nodes[h].receipt)
    ensures MarksOk(p.c2, b', Slash(AfterHead(s, r, p).statuses, invalid))
  {
    var st := AfterHead(s, r, p).statuses;
    forall o: OperatorId
      ensures MarkOk(p.c2, b', Slash(st, invalid), o)
    {
      assert MarkOk(s.chain, s.inbox, s.statuses, o);
      HeadMarks(s, op, r, depth, p, o);
      MarkSettles(p.c1, p.c2, s.inbox, b', st, op, r, p.confirmed.value, invalid, o);
    }
  }

  lemma SlashedKnown(c: Chain, st: Statuses, nextId: nat, ops: seq<OperatorId>)
    requires Known(c, st, nextId)
    ensures Known(c, Slash(st, ops), nextId)
  {}

  lemma ConfirmBlockIs(s: State, r: Receipt, transfersOk: bool)
    requires Confirm(s.inbox, r).Done?
    ensures ConfirmBlock(s, r, transfersOk) ==
            if !transfersOk then Failed(TransfersFailed)
            else
              var (b', settlement) := Confirm(s.inbox, r).value;
              Done(s.(inbox := b', statuses := Slash(s.statuses, settlement.invalid),
                      settled := s.settled.(done := s.settled.done + Headers(DigestsOf(s.inbox, r)))))
  {}

  lemma ConfirmedMatches(c: Chain, b: Inbox, c1: Chain, stale: Option<Node>, c2: Chain, confirmed: Node,
                         op: OperatorId, r: Receipt)
    requires NodesMatch(c, b)
    requires PruneFrame(c, c1, stale, r.number) && ExtendFrame(c1, c2, Some(confirmed), op, r)
    ensures Matches(b, confirmed.receipt)
  {
    assert c1.nodes[HashOf(confirmed.receipt)] == confirmed;
  }

  lemma ConfirmedState(s2: State, setup: Setup, confirmed: Receipt, b': Inbox, invalid: seq<OperatorId>)
    requires ChainOk(s2.chain, s2.past, setup.genesis, setup.depth) && Known(s2.chain, s2.statuses, s2.nextId)
    requires Confirm(s2.inbox, confirmed).Done? && b' == Confirm(s2.inbox, confirmed).value.0
    requires invalid == Confirm(s2.inbox, confirmed).value.1.invalid
    requires InboxOk(b', s2.settled.(done := s2.settled.done + Headers(DigestsOf(s2.inbox, confirmed))))
    requires NodesMatch(s2.chain, b') && MarksOk(s2.chain, b', Slash(s2.statuses, invalid))
    ensures ConfirmBlock(s2, confirmed, false) == Failed(TransfersFailed)
    ensures ConfirmBlock(s2, confirmed, true).Done? && StateOk(ConfirmBlock(s2, confirmed, true).value, setup)
  {
    SlashedKnown(s2.chain, s2.statuses, s2.nextId, invalid);
    ConfirmBlockIs(s2, confirmed, true);
  }

  lemma ConfirmKeepsState(s: State, op: OperatorId, r: Receipt, setup: Setup, transfersOk: bool, p: HeadParts)
    requires StateOk(s, setup) && HeadTaken(s, op, r, setup.depth, p) && Matches(s.inbox, r) && op in s.statuses
    requires p.confirmed.Some?
    ensures var s2 := ConfirmBlock(AfterHead(s, r, p), p.confirmed.value.receipt, transfersOk);
            && (s2.Done? <==> transfersOk) && (s2.Failed? ==> s2.error == TransfersFailed)
            && (s2.Done? ==> StateOk(s2.value, setup))
  {
    HeadKeeps(s, op, r, setup, p);
    var confirmed := p.confirmed.value;
    ConfirmedApart(p.c2, AfterHead(s, r, p).past, setup);
    ConfirmedMatches(s.chain, s.inbox, p.c1, p.stale, p.c2, confirmed, op, r);
    var b', invalid := ConfirmedInbox(p.c2, s.inbox, s.settled, confirmed.receipt);
    ConfirmedMarks(s, op, r, setup.depth, p, b', invalid);
    ConfirmedState(AfterHead(s, r, p), setup, confirmed.receipt, b', invalid);
  }

  lemma AcceptHeadKeeps(s: State, op: OperatorId, r: Receipt, setup: Setup, transfersOk: bool)
    requires StateOk(s, setup) && Verify(s.chain, s.inbox, r) == Done(NewHead) && op in s.statuses
    ensures var s' := AcceptHead(s, op, r, setup.depth, transfersOk);
            && (s'.Failed? ==> s'.error == TransfersFailed)
            && (s'.Done? ==> StateOk(s'.value, setup))
  {
    var p := AcceptHeadParts(s, op, r, setup);
    AcceptHeadIs(s, op, r, setup.depth, transfersOk, p);
    VerifiedHead(s.chain, s.inbox, r);
    if p.confirmed.None? {
      HeadKeeps(s, op, r, setup, p);
    } else {
      ConfirmKeepsState(s, op, r, setup, transfersOk, p);
    }
  }

  // ---- Another submission of the head ----

  ghost predicate EndorseFrame(c: Chain, c': Chain, op: OperatorId, r: Receipt) {
    && c'.head == c.head && c'.nodes.Keys == c.nodes.Keys
    && (forall h :: h in c.nodes ==> c'.nodes[h].receipt == c.nodes[h].receipt)
    && (forall h, o :: h in c.nodes && o in c'.nodes[h].operators ==> o in c.nodes[h].operators || o == op)
    && (forall o :: IsPending(c', o) <==> IsPending(c, o))
  }

  lemma EndorseFrames(c: Chain, c': Chain, op: OperatorId, r: Receipt)
    requires Endorse(c, op, r) == Done(c') && r.number == c.head
    ensures EndorseFrame(c, c', op, r)
  {}

  lemma EndorseKeepsState(s: State, op: OperatorId, r: Receipt, setup: Setup)
    requires StateOk(s, setup) && Verify(s.chain, s.inbox, r) == Done(CurrentHead) && op in s.statuses
    ensures Endorse(s.chain, op, r).Done?
    ensures StateOk(s.(chain := Endorse(s.chain, op, r).value), setup)
  {
    VerifiedCurrent(s.chain, s.inbox, r);
    EndorseKeeps(s.chain, s.past, op, r, setup.genesis, setup.depth);
    var c' := Endorse(s.chain, op, r).value;
    EndorseFrames(s.chain, c', op, r);
    EndorsedRest(s.chain, c', s.inbox, s.statuses, s.nextId, op, r);
  }

  lemma EndorsedRest(c: Chain, c': Chain, b: Inbox, st: Statuses, nextId: nat, op: OperatorId, r: Receipt)
    requires EndorseFrame(c, c', op, r) && NodesMatch(c, b) && MarksOk(c, b, st) && Known(c, st, nextId) && op in st
    ensures NodesMatch(c', b) && MarksOk(c', b, st) && Known(c', st, nextId)
  {
    forall o: OperatorId
      ensures MarkOk(c', b, st, o)
    {
      assert MarkOk(c, b, st, o);
    }
  }

  /** Accepting a verified receipt fails only when the transfers of a confirmed block do. */
  lemma AcceptKeeps(s: State, op: OperatorId, r: Receipt, setup: Setup, transfersOk: bool)
    requires StateOk(s, setup) && op in s.statuses
    ensures var s' := Accept(s, op, r, setup.depth, transfersOk);
            && (s'.Failed? ==> Verify(s.chain, s.inbox, r) == Failed(s'.error) || s'.error == TransfersFailed)
            && (s'.Done? ==> StateOk(s'.value, setup))
  {
    if Verify(s.chain, s.inbox, r).Done? {
      VerifiedKind(s.chain, s.inbox, r);
      if Verify(s.chain, s.inbox, r).value.NewHead? {
        AcceptHeadKeeps(s, op, r, setup, transfersOk);
      } else {
        EndorseKeepsState(s, op, r, setup);
      }
    }
  }

  // ---- Bundles and blocks ----

  lemma DisturbNone(c: Chain, b: Inbox, b': Inbox, st: Statuses)
    requires NodesMatch(c, b) && MarksOk(c, b, st)
    requires forall h :: h in c.nodes ==> Undisturbed(b, b', c.nodes[h].receipt)
    ensures NodesMatch(c, b') && MarksOk(c, b', st)
  {
    forall o: OperatorId
      ensures MarkOk(c, b', st, o)
    {
      assert MarkOk(c, b, st, o);
    }
  }

  lemma AppendKeepsState(s: State, op: OperatorId, d: Digest, setup: Setup)
    requires StateOk(s, setup) && d.header !in s.settled.places
    ensures var b := Append(s.inbox, d, op);
            var k := (b.headDomain, b.block);
            var place := (k, |DigestsAt(s.inbox, k.0, k.1)|);
            StateOk(s.(inbox := b, settled := s.settled.(places := s.settled.places[d.header := place])), setup)
  {
    AppendKeeps(s.inbox, s.settled, d, op);
    forall h | h in s.chain.nodes
      ensures Undisturbed(s.inbox, Append(s.inbox, d, op), s.chain.nodes[h].receipt)
    {
      AppendUndisturbed(s.inbox, s.settled, d, op, s.chain.nodes[h].receipt);
    }
    DisturbNone(s.chain, s.inbox, Append(s.inbox, d, op), s.statuses);
  }

  lemma NewHeadIrrelevant(c: Chain, past: Past, setup: Setup)
    requires ChainOk(c, past, setup.genesis, setup.depth)
    ensures ChainOk(c.(newHead := None), past, setup.genesis, setup.depth)
  {
    forall n: nat
      ensures LinkedAt(c.(newHead := None), past.log, n)
    {
      assert LinkedAt(c, past.log, n);
    }
  }

  lemma NewHeadUnmarked(c: Chain, b: Inbox, st: Statuses)
    requires MarksOk(c, b, st)
    ensures MarksOk(c.(newHead := None), b, st)
  {
    var c' := c.(newHead := None);
    forall o: OperatorId
      ensures MarkOk(c', b, st, o)
    {
      assert MarkOk(c, b, st, o);
    }
  }

  lemma BlockDisturbsNone(c: Chain, b: Inbox, past: Settled, st: Statuses, hash: nat)
    requires NodesMatch(c, b) && MarksOk(c, b, st) && InboxOk(b, past)
    ensures NodesMatch(c, NextBlock(b, hash)) && MarksOk(c, NextBlock(b, hash), st)
  {
    forall h | h in c.nodes
      ensures Undisturbed(b, NextBlock(b, hash), c.nodes[h].receipt)
    {
      NextBlockUndisturbed(b, past, hash, c.nodes[h].receipt);
    }
    DisturbNone(c, b, NextBlock(b, hash), st);
  }

  lemma EndBlockKeeps(s: State, hash: nat, setup: Setup)
    requires StateOk(s, setup)
    ensures StateOk(EndBlock(s, hash), setup)
  {
    NewHeadIrrelevant(s.chain, s.past, setup);
    NewHeadUnmarked(s.chain, s.inbox, s.statuses);
    NextBlockKeeps(s.inbox, s.settled, hash);
    BlockDisturbsNone(s.chain.(newHead := None), s.inbox, s.settled, s.statuses, hash);
  }

  // ---- Fraud proofs ----

  lemma FraudMarks(c: Chain, c1: Chain, b: Inbox, st: Statuses, st': Statuses, bad: Node, number: nat, o: OperatorId)
    requires PruneFrame(c, c1, Some(bad), number) && Punish(st, c1, b, bad) == Done(st') && MarkOk(c, b, st, o)
    requires 0 < number <= c.head
    ensures MarkOk(c1.(head := number - 1), b, st', o)
  {}

  lemma FraudRest(c: Chain, c1: Chain, b: Inbox, st: Statuses, st': Statuses, nextId: nat, bad: Node, number: nat)
    requires PruneFrame(c, c1, Some(bad), number) && Punish(st, c1, b, bad) == Done(st')
    requires NodesMatch(c, b) && MarksOk(c, b, st) && Known(c, st, nextId) && 0 < number <= c.head
    ensures var c' := c1.(head := number - 1);
            NodesMatch(c', b) && MarksOk(c', b, st') && Known(c', st', nextId)
  {
    var c' := c1.(head := number - 1);
    forall o: OperatorId
      ensures MarkOk(c', b, st', o)
    {
      assert MarkOk(c, b, st, o);
      FraudMarks(c, c1, b, st, st', bad, number, o);
    }
  }

  /** What a fraud proof may target. */
  predicate Target(c: Chain, h: ReceiptHash) {
    h in c.nodes && 0 < c.nodes[h].receipt.number <= c.head && c.nodes[h].receipt.parent in c.nodes
  }

  lemma FraudIs(s: State, h: ReceiptHash)
    requires Target(s.chain, h) && Exists(s.chain, s.chain.nodes[h].receipt.number, h)
    requires AuthorsOf(s.inbox, s.chain.nodes[h].receipt).Done?
    ensures var bad := s.chain.nodes[h];
            var c1 := Removed(s.chain, bad.receipt.number);
            && Prune(s.chain, bad.receipt.number) == Done((c1, Some(bad)))
            && Punish(s.statuses, c1, s.inbox, bad).Done?
            && SubmitFraudProof(s, h) == Done(s.(chain := c1.(head := bad.receipt.number - 1),
                                                 statuses := Punish(s.statuses, c1, s.inbox, bad).value))
  {}

  lemma FraudOk(s: State, h: ReceiptHash, setup: Setup)
    requires StateOk(s, setup) && Target(s.chain, h)
    ensures SubmitFraudProof(s, h).Done?
    ensures StateOk(SubmitFraudProof(s, h).value, setup)
  {
    var c := s.chain;
    var bad, number := c.nodes[h], c.nodes[h].receipt.number;
    FraudKeeps(c, s.past, setup.genesis, setup.depth, h);
    MatchedAuthors(s.inbox, s.settled, bad.receipt);
    FraudIs(s, h);
    var c1 := Removed(c, number);
    PruneFrames(c, c1, Some(bad), number);
    FraudRest(c, c1, s.inbox, s.statuses, Punish(s.statuses, c1, s.inbox, bad).value, s.nextId, bad, number);
  }

  /** A fraud proof succeeds exactly when its target is a stored non-genesis receipt up to the head whose parent is
      stored. */
  lemma FraudKeepsState(s: State, h: ReceiptHash, setup: Setup)
    requires StateOk(s, setup)
    ensures SubmitFraudProof(s, h).Done? <==> Target(s.chain, h)
    ensures SubmitFraudProof(s, h).Done? ==> StateOk(SubmitFraudProof(s, h).value, setup)
  {
    if Target(s.chain, h) {
      FraudOk(s, h, setup);
    } else {
      FraudFails(s, h);
    }
  }

  lemma FraudFails(s: State, h: ReceiptHash)
    requires !Target(s.chain, h)
    ensures SubmitFraudProof(s, h).Failed?
  {}
}
