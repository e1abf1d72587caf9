/** How marks of invalid bundles resolve, and how bundles settle, over whole runs. */
module BlockTreeSettlement {
  import opened ReceiptTypes
  import opened StakingTypes
  import opened TreeTypes
  import opened ReceiptChain
  import opened BundleInbox
  import opened OperatorMarks
  import opened BlockTree
  import opened BlockTreeInvariant
  import opened BlockTreeRuns
  import opened MapSums
  import opened Splitting
  import R = Runs

  // ---- Marks ----

  /** A mark of an operator that is not pending slash always names a stored receipt that reports it. */
  lemma MarksHaveReceipts(run: seq<State>, setup: Setup, i: nat, o: OperatorId)
    requires Run(run, setup) && i < |run|
    requires o in run[i].statuses && run[i].statuses[o].InvalidBundle? && !IsPending(run[i].chain, o)
    ensures var h := run[i].statuses[o].receipt;
            h in run[i].chain.nodes && Reported(run[i].inbox, run[i].chain.nodes[h].receipt, o)
  {
    RunOk(run, setup, i);
    assert MarkOk(run[i].chain, run[i].inbox, run[i].statuses, o);
  }

  ghost predicate MarkedBy(s: State, o: OperatorId, h: ReceiptHash) {
    o in s.statuses && s.statuses[o] == InvalidBundle(h) && !IsPending(s.chain, o)
  }

  lemma PunishUnmarks(st: Statuses, c: Chain, b: Inbox, bad: Node, o: OperatorId)
    requires Punish(st, c, b, bad).Done? && o in st && !IsPending(c, o)
    requires st[o] == InvalidBundle(HashOf(bad.receipt)) && Reported(b, bad.receipt, o)
    ensures var st' := Punish(st, c, b, bad).value;
            o in st' && st'[o] == if o in bad.operators then Slashed else Registered
  {}

  /** A fraud proof against the receipt restores the operators it marked, unless they submitted it. */
  lemma FraudRestores(s: State, s': State, setup: Setup, h: ReceiptHash, o: OperatorId)
    requires StateOk(s, setup) && SubmitFraudProof(s, h) == Done(s') && MarkedBy(s, o, h)
    ensures h in s.chain.nodes && o in s'.statuses
    ensures s'.statuses[o] == if o in s.chain.nodes[h].operators then Slashed else Registered
  {
    FraudKeepsState(s, h, setup);
    FraudKeeps(s.chain, s.past, setup.genesis, setup.depth, h);
    var bad := s.chain.nodes[h];
    MatchedAuthors(s.inbox, s.settled, bad.receipt);
    FraudIs(s, h);
    assert MarkOk(s.chain, s.inbox, s.statuses, o);
    var c1 := Removed(s.chain, bad.receipt.number);
    PruneFrames(s.chain, c1, Some(bad), bad.receipt.number);
    PunishUnmarks(s.statuses, c1, s.inbox, bad, o);
  }

  /** A new head at the number of a stale receipt takes back its marks; only the new head may mark again. */
  lemma HeadRestores(s: State, op: OperatorId, r: Receipt, setup: Setup, p: HeadParts, o: OperatorId)
    requires StateOk(s, setup) && HeadTaken(s, op, r, setup.depth, p) && p.stale.Some?
    requires MarkedBy(s, o, HashOf(p.stale.value.receipt))
    ensures var st := AfterHead(s, r, p).statuses;
            && o in st
            && (if o in p.stale.value.operators then st[o] == Slashed
                else if o in p.authors then st[o] == InvalidBundle(HashOf(r)) else st[o] == Registered)
  {
    var bad := p.stale.value;
    HeadStepFrames(s.chain, p.c1, p.stale, p.c2, p.confirmed, op, r, s.past, setup.genesis, setup.depth);
    assert MarkOk(s.chain, s.inbox, s.statuses, o);
    PunishUnmarks(s.statuses, p.c1, s.inbox, bad, o);
  }

  lemma MarkSurvives(s: State, op: OperatorId, r: Receipt, depth: nat, p: HeadParts, o: OperatorId, h: ReceiptHash)
    requires HeadTaken(s, op, r, depth, p) && o in s.statuses && s.statuses[o] == InvalidBundle(h)
    requires p.stale.Some? ==> h != HashOf(p.stale.value.receipt)
    ensures var st := AfterHead(s, r, p).statuses; o in st && (st[o].Slashed? || st[o] == InvalidBundle(h))
  {}

  /** Confirming the receipt slashes everyone it marked. */
  lemma ConfirmSlashes(s: State, s': State, op: OperatorId, r: Receipt, setup: Setup, ok: bool, p: HeadParts,
                       o: OperatorId)
    requires StateOk(s, setup) && HeadTaken(s, op, r, setup.depth, p) && p.confirmed.Some? && op in s.statuses
    requires Matches(s.inbox, r)
    requires ConfirmBlock(AfterHead(s, r, p), p.confirmed.value.receipt, ok) == Done(s')
    requires MarkedBy(s, o, HashOf(p.confirmed.value.receipt))
    ensures o in s'.statuses && s'.statuses[o].Slashed?
  {
    HeadKeeps(s, op, r, setup, p);
    var confirmed := p.confirmed.value;
    ConfirmedMatches(s.chain, s.inbox, p.c1, p.stale, p.c2, confirmed, op, r);
    ConfirmedApart(p.c2, AfterHead(s, r, p).past, setup);
    var b', invalid := ConfirmedInbox(p.c2, s.inbox, s.settled, confirmed.receipt);
    assert MarkOk(s.chain, s.inbox, s.statuses, o);
    MarkSurvives(s, op, r, setup.depth, p, o, HashOf(confirmed.receipt));
    ConfirmBlockIs(AfterHead(s, r, p), confirmed.receipt, ok);
  }

  // ---- Who is marked and who is slashed ----

  /** The operators that submitted the receipt stored at `number`, if there is one. */
  ghost predicate SubmittedAt(c: Chain, number: nat, o: OperatorId) {
    number in c.tree && c.tree[number] in c.nodes && o in c.nodes[c.tree[number]].operators
  }

  lemma HeadMarksRegistered(s: State, op: OperatorId, r: Receipt, depth: nat, p: HeadParts, o: OperatorId)
    requires HeadTaken(s, op, r, depth, p) && PruneFrame(s.chain, p.c1, p.stale, r.number)
    requires o in s.statuses && s.statuses[o].Registered? && !IsPending(s.chain, o)
    ensures var st := AfterHead(s, r, p).statuses;
            o in st && st[o] == if SubmittedAt(s.chain, r.number, o) then Slashed
                                else if Reported(s.inbox, r, o) then InvalidBundle(HashOf(r)) else Registered
  {}

  /** The receipt that the step from `s` to `s'` confirms reports `o` as the author of an invalid bundle. */
  ghost predicate ConfirmsAgainst(s: State, s': State, o: OperatorId) {
    exists c :: s'.past.log == s.past.log + [c] && Reported(s.inbox, c, o)
  }

  lemma ConfirmedAuthors(s: State, s1: State, s': State, c: Receipt, ok: bool, o: OperatorId)
    requires ConfirmBlock(s1, c, ok) == Done(s') && s1.inbox == s.inbox && s1.past.log == s.past.log + [c]
    requires Confirm(s.inbox, c).Done? && AuthorsOf(s.inbox, c) == Done(Confirm(s.inbox, c).value.1.invalid)
    requires o in s1.statuses
    ensures o in s'.statuses
    ensures s'.statuses[o] == if ConfirmsAgainst(s, s', o) then Slashed else s1.statuses[o]
  {
    assert s'.past.log[|s.past.log|] == c;
    if ConfirmsAgainst(s, s', o) {
      var c' :| s'.past.log == s.past.log + [c'] && Reported(s.inbox, c', o);
      assert s'.past.log[|s.past.log|] == c';
    }
  }

  lemma HeadSettles(s: State, s': State, setup: Setup, op: OperatorId, r: Receipt, ok: bool, p: HeadParts,
                    o: OperatorId)
    requires StateOk(s, setup) && HeadTaken(s, op, r, setup.depth, p) && Matches(s.inbox, r) && op in s.statuses
    requires Done(s') == if p.confirmed.None? then Done(AfterHead(s, r, p))
                         else ConfirmBlock(AfterHead(s, r, p), p.confirmed.value.receipt, ok)
    requires o in s.statuses
    ensures o in AfterHead(s, r, p).statuses && o in s'.statuses
    ensures s'.statuses[o] == if ConfirmsAgainst(s, s', o) then Slashed else AfterHead(s, r, p).statuses[o]
  {
    KnownStatuses(s, op, r, setup.depth, p);
    if p.confirmed.Some? {
      ConfirmedReport(s, setup, op, r, p);
      ConfirmedAuthors(s, AfterHead(s, r, p), s', p.confirmed.value.receipt, ok, o);
    } else {
      NothingConfirmed(s, s', o);
    }
  }

  lemma NothingConfirmed(s: State, s': State, o: OperatorId)
    requires s'.past.log == s.past.log
    ensures !ConfirmsAgainst(s, s', o)
  {
    assert forall c :: |s.past.log + [c]| == |s.past.log| + 1;
  }

  lemma ConfirmedReport(s: State, setup: Setup, op: OperatorId, r: Receipt, p: HeadParts)
    requires StateOk(s, setup) && HeadTaken(s, op, r, setup.depth, p) && Matches(s.inbox, r) && op in s.statuses
    requires p.confirmed.Some?
    ensures var c := p.confirmed.value.receipt;
            Confirm(s.inbox, c).Done? && AuthorsOf(s.inbox, c) == Done(Confirm(s.inbox, c).value.1.invalid)
  {
    HeadKeeps(s, op, r, setup, p);
    var confirmed := p.confirmed.value;
    ConfirmedMatches(s.chain, s.inbox, p.c1, p.stale, p.c2, confirmed, op, r);
    ConfirmedApart(p.c2, AfterHead(s, r, p).past, setup);
    var b', invalid := ConfirmedInbox(p.c2, s.inbox, s.settled, confirmed.receipt);
  }

  /** A new head slashes a registered operator that submitted the receipt it replaces, or that the confirmed receipt
      reports; it marks one that it reports itself, and leaves every other registered operator alone. */
  lemma HeadTreatsRegistered(s: State, s': State, setup: Setup, op: OperatorId, r: Receipt, ok: bool, o: OperatorId)
    requires StateOk(s, setup) && op in s.statuses && Accept(s, op, r, setup.depth, ok) == Done(s')
    requires s'.added != s.added
    requires o in s.statuses && s.statuses[o].Registered? && !IsPending(s.chain, o)
    ensures o in s'.statuses
    ensures s'.statuses[o] ==
            if SubmittedAt(s.chain, r.number, o) || ConfirmsAgainst(s, s', o) then Slashed
            else if Reported(s.inbox, r, o) then InvalidBundle(HashOf(r)) else Registered
  {
    VerifiedKind(s.chain, s.inbox, r);
    var p := AcceptHeadParts(s, op, r, setup);
    AcceptHeadIs(s, op, r, setup.depth, ok, p);
    VerifiedHead(s.chain, s.inbox, r);
    HeadStepFrames(s.chain, p.c1, p.stale, p.c2, p.confirmed, op, r, s.past, setup.genesis, setup.depth);
    HeadMarksRegistered(s, op, r, setup.depth, p, o);
    HeadSettles(s, s', setup, op, r, ok, p, o);
  }

  /** A fraud proof slashes the submitters of the bad receipt, takes its marks back, and leaves everybody else alone. */
  lemma FraudTreats(s: State, s': State, setup: Setup, h: ReceiptHash, o: OperatorId)
    requires StateOk(s, setup) && SubmitFraudProof(s, h) == Done(s') && o in s.statuses
    ensures h in s.chain.nodes && o in s'.statuses
    ensures s'.statuses[o] == if o in s.chain.nodes[h].operators then Slashed
                              else if MarkedBy(s, o, h) then Registered else s.statuses[o]
  {
    FraudKeepsState(s, h, setup);
    FraudKeeps(s.chain, s.past, setup.genesis, setup.depth, h);
    var bad := s.chain.nodes[h];
    MatchedAuthors(s.inbox, s.settled, bad.receipt);
    FraudIs(s, h);
    assert MarkOk(s.chain, s.inbox, s.statuses, o);
    var c1 := Removed(s.chain, bad.receipt.number);
    PruneFrames(s.chain, c1, Some(bad), bad.receipt.number);
    PunishTreats(s.statuses, s.chain, c1, s.inbox, bad, o);
  }

  lemma PunishTreats(st: Statuses, c: Chain, c1: Chain, b: Inbox, bad: Node, o: OperatorId)
    requires Punish(st, c1, b, bad).Done? && o in st && PruneFrame(c, c1, Some(bad), bad.receipt.number)
    requires MarkOk(c, b, st, o) && c.nodes[HashOf(bad.receipt)] == bad
    ensures var st' := Punish(st, c1, b, bad).value;
            && o in st'
            && st'[o] == if o in bad.operators then Slashed
                         else if st[o] == InvalidBundle(HashOf(bad.receipt)) && !IsPending(c, o) then Registered
                         else st[o]
  {}

  /** What becomes of an operator marked by a receipt that leaves the tree: it is slashed if the receipt was confirmed
      or if it submitted the receipt itself, and otherwise registered again or marked by a receipt still there. */
  ghost predicate Resolved(s: State, s': State, h: ReceiptHash, o: OperatorId) {
    && h in s.chain.nodes && o in s'.statuses
    && var node, now := s.chain.nodes[h], s'.statuses[o];
    && (s'.past.log == s.past.log + [node.receipt] || o in node.operators ==> now.Slashed?)
    && (now.Slashed? || now.Registered? || (now.InvalidBundle? && now.receipt != h && now.receipt in s'.chain.nodes))
  }

  lemma StaleIsNotConfirmed(c: Chain, c1: Chain, stale: Node, c2: Chain, confirmed: Option<Node>, op: OperatorId,
                            r: Receipt)
    requires PruneFrame(c, c1, Some(stale), r.number) && ExtendFrame(c1, c2, confirmed, op, r)
    ensures HashOf(stale.receipt) in c.nodes && c.nodes[HashOf(stale.receipt)] == stale && HashOf(r) in c2.nodes
    ensures confirmed.Some? ==> confirmed.value.receipt != stale.receipt
  {}

  lemma ConfirmOnlySlashes(s1: State, s': State, confirmed: Option<Node>, ok: bool, o: OperatorId)
    requires Done(s') == if confirmed.None? then Done(s1) else ConfirmBlock(s1, confirmed.value.receipt, ok)
    ensures s'.chain == s1.chain && s'.past == s1.past
    ensures o in s1.statuses ==> o in s'.statuses && (s'.statuses[o] == s1.statuses[o] || s'.statuses[o].Slashed?)
  {}

  lemma StaleResolves(s: State, s': State, op: OperatorId, r: Receipt, setup: Setup, ok: bool, p: HeadParts,
                      o: OperatorId)
    requires StateOk(s, setup) && HeadTaken(s, op, r, setup.depth, p) && p.stale.Some?
    requires PruneFrame(s.chain, p.c1, p.stale, r.number) && ExtendFrame(p.c1, p.c2, p.confirmed, op, r)
    requires Done(s') == if p.confirmed.None? then Done(AfterHead(s, r, p))
                         else ConfirmBlock(AfterHead(s, r, p), p.confirmed.value.receipt, ok)
    requires HashOf(p.stale.value.receipt) !in s'.chain.nodes && MarkedBy(s, o, HashOf(p.stale.value.receipt))
    ensures Resolved(s, s', HashOf(p.stale.value.receipt), o)
  {
    HeadRestores(s, op, r, setup, p, o);
    StaleIsNotConfirmed(s.chain, p.c1, p.stale.value, p.c2, p.confirmed, op, r);
    ConfirmOnlySlashes(AfterHead(s, r, p), s', p.confirmed, ok, o);
    ResolvedAfter(s, AfterHead(s, r, p), s', p.stale.value, p.confirmed, r, o);
  }

  lemma ResolvedAfter(s: State, s1: State, s': State, stale: Node, confirmed: Option<Node>, r: Receipt, o: OperatorId)
    requires HashOf(stale.receipt) in s.chain.nodes && s.chain.nodes[HashOf(stale.receipt)] == stale
    requires HashOf(stale.receipt) !in s'.chain.nodes && HashOf(r) in s'.chain.nodes && o in s1.statuses
    requires o in stale.operators ==> s1.statuses[o].Slashed?
    requires s1.statuses[o].Slashed? || s1.statuses[o].Registered? || s1.statuses[o] == InvalidBundle(HashOf(r))
    requires o in s'.statuses && (s'.statuses[o] == s1.statuses[o] || s'.statuses[o].Slashed?)
    requires s'.past.log == if confirmed.Some? then s.past.log + [confirmed.value.receipt] else s.past.log
    requires confirmed.Some? ==> confirmed.value.receipt != stale.receipt
    ensures Resolved(s, s', HashOf(stale.receipt), o)
  {
    assert confirmed.Some? ==> s'.past.log[|s.past.log|] == confirmed.value.receipt;
  }

  lemma LeavesTree(c: Chain, c1: Chain, stale: Option<Node>, c2: Chain, confirmed: Option<Node>, op: OperatorId,
                   r: Receipt, h: ReceiptHash)
    requires PruneFrame(c, c1, stale, r.number) && ExtendFrame(c1, c2, confirmed, op, r) && h in c.nodes
    requires h !in c2.nodes
    ensures (stale.Some? && h == HashOf(stale.value.receipt))
            || (confirmed.Some? && h == HashOf(confirmed.value.receipt))
  {}

  lemma HeadResolves(s: State, s': State, op: OperatorId, r: Receipt, setup: Setup, ok: bool, h: ReceiptHash,
                     o: OperatorId)
    requires StateOk(s, setup) && Verify(s.chain, s.inbox, r) == Done(NewHead) && op in s.statuses
    requires AcceptHead(s, op, r, setup.depth, ok) == Done(s') && MarkedBy(s, o, h)
    requires h in s.chain.nodes && h !in s'.chain.nodes
    ensures Resolved(s, s', h, o)
  {
    var p := AcceptHeadParts(s, op, r, setup);
    VerifiedHead(s.chain, s.inbox, r);
    AcceptHeadIs(s, op, r, setup.depth, ok, p);
    HeadStepFrames(s.chain, p.c1, p.stale, p.c2, p.confirmed, op, r, s.past, setup.genesis, setup.depth);
    ConfirmOnlySlashes(AfterHead(s, r, p), s', p.confirmed, ok, o);
    LeavesTree(s.chain, p.c1, p.stale, p.c2, p.confirmed, op, r, h);
    if p.stale.Some? && h == HashOf(p.stale.value.receipt) {
      StaleResolves(s, s', op, r, setup, ok, p, o);
    } else {
      ConfirmSlashes(s, s', op, r, setup, ok, p, o);
    }
  }

  /** In the step in which a receipt leaves the tree every mark it made is resolved: by slashing if the receipt was
      confirmed, and by taking the mark back if it was fraudulent or replaced. */
  lemma MarksResolve(s: State, s': State, setup: Setup, step: Step, h: ReceiptHash, o: OperatorId)
    requires StateOk(s, setup) && Next(s, s', setup, step) && MarkedBy(s, o, h) && h !in s'.chain.nodes
    ensures Resolved(s, s', h, o)
  {
    assert MarkOk(s.chain, s.inbox, s.statuses, o);
    match step
    case BundleStep(op, r, d, ok) => AcceptResolves(s, Accept(s, op, r, setup.depth, ok).value, op, r, setup, ok, h, o);
    case ReceiptStep(op, r, ok) => AcceptResolves(s, s', op, r, setup, ok, h, o);
    case FraudStep(g) => FraudResolves(s, s', setup, g, h, o);
    case _ =>
  }

  lemma AcceptResolves(s: State, s': State, op: OperatorId, r: Receipt, setup: Setup, ok: bool, h: ReceiptHash,
                       o: OperatorId)
    requires StateOk(s, setup) && op in s.statuses && Accept(s, op, r, setup.depth, ok) == Done(s')
    requires MarkedBy(s, o, h) && h !in s'.chain.nodes
    ensures Resolved(s, s', h, o)
  {
    VerifiedKind(s.chain, s.inbox, r);
    assert MarkOk(s.chain, s.inbox, s.statuses, o);
    if Verify(s.chain, s.inbox, r).value.NewHead? {
      HeadResolves(s, s', op, r, setup, ok, h, o);
    } else {
      assert false;
    }
  }

  lemma FraudResolves(s: State, s': State, setup: Setup, g: ReceiptHash, h: ReceiptHash, o: OperatorId)
    requires StateOk(s, setup) && SubmitFraudProof(s, g) == Done(s') && MarkedBy(s, o, h) && h !in s'.chain.nodes
    ensures Resolved(s, s', h, o)
  {
    FraudRemoves(s, s', setup, g);
    assert MarkOk(s.chain, s.inbox, s.statuses, o);
    FraudRestores(s, s', setup, h, o);
  }

  lemma FraudRemoves(s: State, s': State, setup: Setup, h: ReceiptHash)
    requires StateOk(s, setup) && SubmitFraudProof(s, h) == Done(s')
    ensures s'.chain.nodes == s.chain.nodes - {h} && s'.past == s.past
  {
    FraudKeepsState(s, h, setup);
    FraudKeeps(s.chain, s.past, setup.genesis, setup.depth, h);
    MatchedAuthors(s.inbox, s.settled, s.chain.nodes[h].receipt);
    FraudIs(s, h);
  }

  // ---- Bundles ----

  /** Places never change and settled bundles stay settled. */
  ghost predicate SettledGrows(a: State, s: State) {
    && a.settled.done <= s.settled.done
    && (forall header :: header in a.settled.places ==>
          header in s.settled.places && s.settled.places[header] == a.settled.places[header])
  }

  lemma AcceptSettles(s: State, s': State, op: OperatorId, r: Receipt, depth: nat, ok: bool)
    requires Accept(s, op, r, depth, ok) == Done(s')
    ensures SettledGrows(s, s')
  {}

  lemma NextSettles(s: State, s': State, setup: Setup, step: Step)
    requires Next(s, s', setup, step)
    ensures SettledGrows(s, s')
  {
    match step
    case BundleStep(op, r, d, ok) =>
      var s1 := Accept(s, op, r, setup.depth, ok).value;
      AcceptSettles(s, s1, op, r, setup.depth, ok);
      AcceptPlaces(s, s1, op, r, setup.depth, ok);
    case ReceiptStep(op, r, ok) => AcceptSettles(s, s', op, r, setup.depth, ok);
    case _ =>
  }

  ghost function SettledRel(): (State, State) -> bool { (a, s) => SettledGrows(a, s) }

  lemma SettledSteps(setup: Setup)
    ensures R.EachStep(StepOf(setup), OkOf(setup), SettledRel())
  {
    forall s, s' | OkOf(setup)(s) && StepOf(setup)(s, s')
      ensures SettledRel()(s, s')
    {
      var step :| Next(s, s', setup, step);
      NextSettles(s, s', setup, step);
    }
  }

  lemma SettledOrder()
    ensures R.Preorder(SettledRel())
  {}

  lemma SettledExtends(setup: Setup)
    ensures R.Extends(StepOf(setup), OkOf(setup), SettledRel())
  {
    SettledSteps(setup);
    SettledOrder();
    R.ExtendsByOrder(StepOf(setup), OkOf(setup), SettledRel());
  }

  /** Every bundle keeps the place it was given. It waits there with its author recorded until it is settled, and it
      never waits again: it settles at most once. */
  lemma BundlesSettleOnce(run: seq<State>, setup: Setup, i: nat, j: nat, header: nat)
    requires Run(run, setup) && i <= j < |run| && header in run[i].settled.places
    ensures var s := run[j];
            && header in s.settled.places && s.settled.places[header] == run[i].settled.places[header]
            && (header in s.settled.done <==> header !in s.inbox.authors)
            && (header in s.inbox.authors ==>
                Holds(s.inbox, s.settled.places[header].0, s.settled.places[header].1, header))
            && (header in run[i].settled.done ==> header in s.settled.done)
  {
    OkInductive(setup);
    SettledExtends(setup);
    R.Progress(run, Start(setup), StepOf(setup), OkOf(setup), SettledRel(), i, j);
    assert SettledRel()(run[i], run[j]);
    RunOk(run, setup, j);
  }

  /** The inbox a stored receipt was checked against stays as it was, so confirming it settles exactly its bundles:
      authors of invalid ones are slashed in order, the others get back the sizes of their own bundles. */
  lemma ConfirmationSettles(run: seq<State>, setup: Setup, i: nat, h: ReceiptHash, a: OperatorId)
    requires Run(run, setup) && i < |run| && h in run[i].chain.nodes
    ensures var b, r := run[i].inbox, run[i].chain.nodes[h].receipt;
            var ds := DigestsOf(b, r);
            && (r.number > 0 ==> SameRoots(r.bundles, ds) && ds != [])
            && Confirm(b, r).Done?
            && var (b', settlement) := Confirm(b, r).value;
               && b'.authors == b.authors - Headers(ds) && Headers(ds) <= b.authors.Keys
               && settlement.invalid == InvalidAuthors(ds, r.bundles, b.authors)
               && Total(settlement.paid, Itself()) == ValidSize(ds, r.bundles)
               && (if a in settlement.paid then settlement.paid[a] else 0) == PaidTo(ds, r.bundles, b.authors, a)
  {
    RunOk(run, setup, i);
    var b, r := run[i].inbox, run[i].chain.nodes[h].receipt;
    BundleInbox.ConfirmKeeps(b, run[i].settled, r);
    HeadersInPlace(b, run[i].settled, (r.number, r.consensus));
    SettlePays(DigestsOf(b, r), r.bundles, b.authors, a);
  }
}
