/** The block tree and the staking pallet agree on the statuses of operators and on who is pending slash. */
module TreeStaking {
  import opened ReceiptTypes
  import opened StakingTypes
  import opened DomainStaking
  import opened DomainInvariant
  import opened ReceiptChain
  import opened OperatorMarks
  import BlockTree
  import BlockTreeInvariant
  import BlockTreeRuns
  import BlockTreeSteps
  import BlockTreeTheorems
  import StakingRuns

  function StatusesOf(d: Domain): Statuses { map id | id in d.operators :: d.operators[id].status }

  function PendingIn(c: Chain): set<OperatorId> { set op | op in c.latest && c.head < c.latest[op] }

  /** Only the status of `id` changes. */
  ghost predicate StatusAt(d: Domain, d': Domain, id: OperatorId, s: OperatorStatus) {
    && d'.operators.Keys == d.operators.Keys && d'.pendingSlash == d.pendingSlash
    && (forall o :: o in d.operators ==> d'.operators[o].status == if o == id then s else d.operators[o].status)
  }

  /** Neither the pending operators nor the next id change. */
  ghost predicate SameOutside(d: Domain, d': Domain) { d'.pendingSlash == d.pendingSlash && d'.nextId == d.nextId }

  lemma StatusesAt(d: Domain, d': Domain, id: OperatorId, s: OperatorStatus)
    requires StatusAt(d, d', id, s)
    ensures StatusesOf(d') == SetStatusOf(StatusesOf(d), id, s)
  {}

  // ---- Agreement ----

  lemma SlashOne(d: Domain, config: Config, id: OperatorId)
    requires Inv(d, config)
    ensures MarkSlashed(d, id).Ok?
    ensures var d' := MarkSlashed(d, id).value;
            && Inv(d', config) && SameOutside(d, d')
            && StatusesOf(d') == SetStatusOf(StatusesOf(d), id, Slashed)
  {
    MarkSlashedKeeps(d, config, id);
    if id in d.operators {
      assert OperatorOk(d, id);
    }
    StatusesAt(d, MarkSlashed(d, id).value, id, Slashed);
  }

  /** Slashing a list of operators in the staking pallet is slashing them in the block tree. */
  lemma {:induction false} SlashAgrees(d: Domain, config: Config, ids: seq<OperatorId>)
    requires Inv(d, config)
    ensures MarkAllSlashed(d, ids).Ok?
    ensures var d' := MarkAllSlashed(d, ids).value;
            Inv(d', config) && StatusesOf(d') == Slash(StatusesOf(d), ids) && SameOutside(d, d')
  {
    if ids != [] {
      var k := |ids| - 1;
      SlashAgrees(d, config, ids[..k]);
      SlashOne(MarkAllSlashed(d, ids[..k]).value, config, ids[k]);
      Snoc(ids);
      SlashSnoc(StatusesOf(d), ids[..k], ids[k]);
    }
  }

  lemma MarkOne(d: Domain, config: Config, id: OperatorId, h: ReceiptHash)
    requires Inv(d, config)
    ensures MarkInvalid(d, id, h).Ok?
    ensures var d', st := MarkInvalid(d, id, h).value, StatusesOf(d);
            && Inv(d', config) && SameOutside(d, d')
            && StatusesOf(d') == if id in st && StatusOf(st[id], id in d.pendingSlash) == Registered
                                 then SetStatusOf(st, id, InvalidBundle(h)) else st
  {
    MarkInvalidKeeps(d, config, id, h);
    if id in d.operators {
      assert OperatorOk(d, id);
      if StatusIn(d, id) == Registered {
        MarkedStatuses(d, MarkInvalid(d, id, h).value, id, h);
      }
    }
  }

  lemma MarkedStatuses(d: Domain, d': Domain, id: OperatorId, h: ReceiptHash)
    requires id in d.operators && id !in d.pendingSlashes && StatusIn(d, id) == Registered
    requires MarkInvalid(d, id, h) == Ok(d')
    ensures SameOutside(d, d') && StatusesOf(d') == SetStatusOf(StatusesOf(d), id, InvalidBundle(h))
  {
    StatusesAt(d, d', id, InvalidBundle(h));
  }

  lemma {:induction false} MarkAgrees(d: Domain, config: Config, c: Chain, ids: seq<OperatorId>, h: ReceiptHash)
    requires Inv(d, config) && d.pendingSlash == PendingIn(c)
    ensures MarkAllInvalid(d, ids, h).Ok?
    ensures var d' := MarkAllInvalid(d, ids, h).value;
            Inv(d', config) && StatusesOf(d') == Mark(StatusesOf(d), c, ids, h) && SameOutside(d, d')
  {
    if ids != [] {
      var k := |ids| - 1;
      MarkAgrees(d, config, c, ids[..k], h);
      MarkOne(MarkAllInvalid(d, ids[..k], h).value, config, ids[k], h);
      Snoc(ids);
      MarkSnoc(StatusesOf(d), c, ids[..k], ids[k], h);
    }
  }

  lemma UnmarkOne(d: Domain, config: Config, id: OperatorId, h: ReceiptHash)
    requires Inv(d, config)
    ensures var d', st := UnmarkInvalid(d, id, h), StatusesOf(d);
            && Inv(d', config) && SameOutside(d, d')
            && StatusesOf(d') == if id in st && id !in d.pendingSlash && st[id] == InvalidBundle(h)
                                 then SetStatusOf(st, id, Registered) else st
  {
    UnmarkInvalidKeeps(d, config, id, h);
    UnmarkedStatuses(d, id, h);
  }

  lemma UnmarkedStatuses(d: Domain, id: OperatorId, h: ReceiptHash)
    requires SetsOk(d)
    ensures var d', st := UnmarkInvalid(d, id, h), StatusesOf(d);
            && SameOutside(d, d')
            && StatusesOf(d') == if id in st && id !in d.pendingSlash && st[id] == InvalidBundle(h)
                                 then SetStatusOf(st, id, Registered) else st
  {
    if id in d.operators {
      assert OperatorOk(d, id);
      if id !in d.pendingSlash && d.operators[id].status == InvalidBundle(h) {
        StatusesAt(d, UnmarkInvalid(d, id, h), id, Registered);
      }
    }
  }

  lemma {:induction false} UnmarkAgrees(d: Domain, config: Config, c: Chain, ids: seq<OperatorId>, h: ReceiptHash)
    requires Inv(d, config) && d.pendingSlash == PendingIn(c)
    ensures var d' := UnmarkAllInvalid(d, ids, h);
            Inv(d', config) && StatusesOf(d') == Unmark(StatusesOf(d), c, ids, h) && SameOutside(d, d')
  {
    if ids != [] {
      var k := |ids| - 1;
      UnmarkAgrees(d, config, c, ids[..k], h);
      UnmarkOne(UnmarkAllInvalid(d, ids[..k], h), config, ids[k], h);
      Snoc(ids);
      UnmarkSnoc(StatusesOf(d), c, ids[..k], ids[k], h);
    }
  }

  /** Whatever the block tree does, it never takes a live operator out of pending slash: the change of the pending set
      is one that the staking pallet allows. */
  lemma TreeStepAllowed(s: BlockTree.State, s': BlockTree.State, setup: BlockTree.Setup, step: BlockTreeRuns.Step,
                        d: Domain, config: Config)
    requires BlockTreeInvariant.StateOk(s, setup) && BlockTreeRuns.Next(s, s', setup, step)
    requires StatusesOf(d) == s'.statuses && d.pendingSlash == PendingIn(s.chain)
    ensures var pending := PendingIn(s'.chain);
            StakingRuns.Next(d, d.(pendingSlash := pending), config, StakingRuns.PendingStep(pending))
  {
    var d' := d.(pendingSlash := PendingIn(s'.chain));
    forall id | id in d.pendingSlash && id !in d'.pendingSlash
      ensures !Live(d', id)
    {
      BlockTreeTheorems.PendingEndsBySlash(s, s', setup, step, id);
      BlockTreeSteps.NextMoves(s, s', setup, step);
      BlockTreeTheorems.MovesKeepIds(s, s', setup, id);
      assert id in d.operators ==> StatusesOf(d)[id] == d.operators[id].status;
    }
  }
}
