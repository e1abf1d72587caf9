/** The storage of the block tree of a domain and the calls that change it step by step. */
module TreePallet {
  import opened ReceiptTypes
  import opened StakingTypes
  import opened TreeTypes
  import opened ReceiptChain
  import opened BundleInbox
  import opened OperatorMarks
  import opened BlockTree
  import BlockTreeInvariant
  import BlockTreeRuns
  import BlockTreeTheorems

  class ReceiptStore {
    var tree: map<nat, ReceiptHash>
    var nodes: map<ReceiptHash, Node>
    var head: nat
    var newHead: Option<ReceiptHash>
    var latest: map<OperatorId, nat>
    var confirmed: Receipt

    function Value(): Chain
      reads this
    {
      Chain(tree, nodes, head, newHead, latest, confirmed)
    }

    constructor (genesis: Receipt)
      ensures Value() == Genesis(genesis)
    {
      tree := map[0 := HashOf(genesis)];
      nodes := map[HashOf(genesis) := Node(genesis, [])];
      head, newHead, latest, confirmed := 0, None, map[], genesis;
    }

    /** A failed call leaves no trace in storage. */
    method Restore(c: Chain)
      modifies this
      ensures Value() == c
    {
      tree, nodes, head, newHead, latest, confirmed := c.tree, c.nodes, c.head, c.newHead, c.latest, c.confirmed;
    }

    /** Forgets the latest submission of each listed operator, if it is `number`. */
    method ForgetLatest(ops: seq<OperatorId>, number: nat)
      modifies this`latest
      ensures latest == ClearLatest(old(latest), ops, number)
    {
      for i := 0 to |ops|
        invariant latest == ClearLatest(old(latest), ops[..i], number)
      {
        if ops[i] in latest && latest[ops[i]] == number {
          latest := latest - {ops[i]};
        }
        assert ops[..i + 1] == ops[..i] + [ops[i]];
      }
      assert ops[..|ops|] == ops;
    }

    method Prune(number: nat) returns (r: Outcome<Option<Node>>)
      modifies this
      ensures match ReceiptChain.Prune(old(Value()), number)
              case Done(p) => r == Done(p.1) && Value() == p.0
              case Failed(e) => r == Failed(e) && Value() == old(Value())
    {
      if number !in tree {
        return Done(None);
      }
      var h := tree[number];
      if h !in nodes {
        return Failed(MissingDomainBlock);
      }
      var node := nodes[h];
      tree := tree - {number};
      nodes := nodes - {h};
      ForgetLatest(node.operators, node.receipt.number);
      r := Done(Some(node));
    }

    /** The latest submission of an operator never falls. */
    method RaiseLatest(op: OperatorId, number: nat)
      modifies this`latest
      ensures Value() == ReceiptChain.RaiseLatest(old(Value()), op, number)
      ensures LatestOf(Value(), op) >= number
      ensures forall o :: LatestOf(Value(), o) >= LatestOf(old(Value()), o)
    {
      if number > (if op in latest then latest[op] else 0) {
        latest := latest[op := number];
      }
    }

    /** Adds a new head; returns the node it confirms. A failure leaves the store as it was. */
    method Extend(op: OperatorId, r: Receipt, depth: nat) returns (res: Outcome<Option<Node>>)
      modifies this
      ensures match ReceiptChain.Extend(old(Value()), op, r, depth)
              case Done(p) => res == Done(p.1) && Value() == p.0
              case Failed(e) => res == Failed(e) && Value() == old(Value())
    {
      var c := Value();
      if r.number in tree {
        return Failed(OverwritingER);
      }
      tree := tree[r.number := HashOf(r)];
      nodes := nodes[HashOf(r) := Node(r, [op])];
      head := r.number;
      newHead := Some(HashOf(r));
      if r.number < depth {
        RaiseLatest(op, r.number);
        return Done(None);
      }
      res := Prune(r.number - depth);
      if res.Failed? {
        Restore(c);
      } else if res.value.Some? {
        confirmed := res.value.value.receipt;
      }
    }

    /** Another operator submits a stored receipt: who submitted what before is kept, in order. */
    method Endorse(op: OperatorId, r: Receipt) returns (res: Outcome<()>)
      modifies this
      ensures match ReceiptChain.Endorse(old(Value()), op, r)
              case Done(c) => res == Done(()) && Value() == c
              case Failed(e) => res == Failed(e) && Value() == old(Value())
      ensures nodes.Keys == old(nodes).Keys && forall h :: h in nodes ==>
                nodes[h].receipt == old(nodes)[h].receipt && old(nodes)[h].operators <= nodes[h].operators
    {
      var h := HashOf(r);
      if h !in nodes {
        return Failed(MissingDomainBlock);
      }
      nodes := nodes[h := nodes[h].(operators := nodes[h].operators + [op])];
      RaiseLatest(op, r.number);
      res := Done(());
    }
  }

  class InboxStore {
    var headDomain: nat
    var digests: map<Key, seq<Digest>>
    var authors: map<nat, OperatorId>
    var hashes: map<nat, nat>
    var parentHash: nat
    var block: nat
    var bundled: bool

    function Value(): Inbox
      reads this
    {
      Inbox(headDomain, digests, authors, hashes, parentHash, block, bundled)
    }

    constructor (at: nat, parent: nat)
      ensures Value() == Inbox(0, map[], map[], map[], parent, at, false)
    {
      headDomain, digests, authors, hashes, parentHash, block, bundled := 0, map[], map[], map[], parent, at, false;
    }

    method Restore(b: Inbox)
      modifies this
      ensures Value() == b
    {
      headDomain, digests, authors, hashes := b.headDomain, b.digests, b.authors, b.hashes;
      parentHash, block, bundled := b.parentHash, b.block, b.bundled;
    }

    /** Takes the author of each bundle of a confirmed block, then forgets its inbox. */
    method Confirm(r: Receipt) returns (res: Outcome<Settlement>)
      modifies this
      ensures match BundleInbox.Confirm(old(Value()), r)
              case Done(p) => res == Done(p.1) && Value() == p.0
              case Failed(e) => res == Failed(e) && Value() == old(Value())
    {
      var ds := DigestsOf(Value(), r);
      if |ds| > |r.bundles| {
        return Failed(BundleIndexOutOfRange);
      }
      var s := Settlement(map[], [], authors);
      for i := 0 to |ds|
        invariant s == Settle(ds[..i], r.bundles, old(authors)) && s.authors == authors
        invariant Value() == old(Value()).(authors := authors)
      {
        SettleNext(ds, r.bundles, old(authors), i);
        var d := ds[i];
        if d.header in authors {
          var author := authors[d.header];
          authors := authors - {d.header};
          s := s.(authors := authors);
          if r.bundles[i].invalid {
            s := s.(invalid := s.invalid + [author]);
          } else {
            s := s.(paid := s.paid[author := (if author in s.paid then s.paid[author] else 0) + d.size]);
          }
        }
      }
      assert ds[..|ds|] == ds;
      digests := map k | k in digests && k.0 != r.number :: digests[k];
      hashes := hashes - {r.consensus};
      res := Done(s);
    }

    /** The bundle goes to the end of the inbox of the running block; all others stay in place. */
    method Append(d: Digest, op: OperatorId)
      modifies this
      ensures Value() == BundleInbox.Append(old(Value()), d, op)
      ensures (headDomain, block) in digests
      ensures DigestsAt(old(Value()), headDomain, block) < digests[(headDomain, block)]
      ensures forall k :: k in old(digests) ==> k in digests && old(digests)[k] <= digests[k]
    {
      if !bundled {
        headDomain := headDomain + 1;
        bundled := true;
      }
      var k := (headDomain, block);
      digests := digests[k := (if k in digests then digests[k] else []) + [d]];
      authors := authors[d.header := op];
    }

    /** The hash of a block is kept exactly when the block holds bundles. */
    method NextBlock(hash: nat)
      modifies this
      ensures Value() == BundleInbox.NextBlock(old(Value()), hash)
      ensures hashes == if old(bundled) then old(hashes)[old(block) := hash] else old(hashes)
    {
      if bundled {
        hashes := hashes[block := hash];
      }
      parentHash := hash;
      block := block + 1;
      bundled := false;
    }
  }

  /** `past`, `settled` and `added` are the history that `BlockTree.State` records. */
  class Pallet {
    const setup: Setup
    const receipts: ReceiptStore
    const inbox: InboxStore
    var statuses: Statuses
    var nextId: nat
    ghost var past: Past
    ghost var settled: Settled
    ghost var added: seq<ReceiptHash>

    ghost function State(): State
      reads this, receipts, inbox
    {
      BlockTree.State(receipts.Value(), inbox.Value(), statuses, nextId, past, settled, added)
    }

    /** The receipts are one chain on the confirmed ones, every stored receipt matches its inbox, and every mark names a
        stored receipt. */
    ghost predicate Valid()
      reads this, receipts, inbox
    {
      BlockTreeRuns.SetupOk(setup) && BlockTreeInvariant.StateOk(State(), setup)
    }

    constructor (how: Setup, block: nat, parentHash: nat)
      ensures setup == how && State() == Init(how, block, parentHash)
      ensures BlockTreeRuns.SetupOk(how) ==> Valid()
      ensures fresh(receipts) && fresh(inbox)
    {
      setup := how;
      receipts := new ReceiptStore(how.genesis);
      inbox := new InboxStore(block, parentHash);
      statuses, nextId := map[], 0;
      past, settled, added := Past(0, []), Settled(map[], {}), [];
      new;
      if BlockTreeRuns.SetupOk(how) {
        BlockTreeInvariant.InitOk(how, block, parentHash);
      }
    }

    method SlashAll(ops: seq<OperatorId>)
      modifies this`statuses
      ensures statuses == Slash(old(statuses), ops)
    {
      for i := 0 to |ops|
        invariant statuses == Slash(old(statuses), ops[..i])
      {
        SlashSnoc(old(statuses), ops[..i], ops[i]);
        assert ops[..i + 1] == ops[..i] + [ops[i]];
        if ops[i] in statuses {
          statuses := statuses[ops[i] := Slashed];
        }
      }
      assert ops[..|ops|] == ops;
    }

    method MarkAll(authors: seq<OperatorId>, h: ReceiptHash)
      modifies this`statuses
      ensures statuses == Mark(old(statuses), receipts.Value(), authors, h)
    {
      var c := receipts.Value();
      for i := 0 to |authors|
        invariant statuses == Mark(old(statuses), c, authors[..i], h)
      {
        var op := authors[i];
        MarkSnoc(old(statuses), c, authors[..i], op, h);
        assert authors[..i + 1] == authors[..i] + [op];
        if op in statuses && StatusOf(statuses[op], IsPending(c, op)) == Registered {
          statuses := statuses[op := InvalidBundle(h)];
        }
      }
      assert authors[..|authors|] == authors;
    }

    method UnmarkAll(authors: seq<OperatorId>, h: ReceiptHash)
      modifies this`statuses
      ensures statuses == Unmark(old(statuses), receipts.Value(), authors, h)
    {
      var c := receipts.Value();
      for i := 0 to |authors|
        invariant statuses == Unmark(old(statuses), c, authors[..i], h)
      {
        var op := authors[i];
        UnmarkSnoc(old(statuses), c, authors[..i], op, h);
        assert authors[..i + 1] == authors[..i] + [op];
        if op in statuses && !IsPending(c, op) && statuses[op] == InvalidBundle(h) {
          statuses := statuses[op := Registered];
        }
      }
      assert authors[..|authors|] == authors;
    }

    /** Slashes the submitters of a fraudulent receipt and takes its marks back. */
    method PunishAll(bad: Node) returns (failed: Option<TreeError>)
      modifies this`statuses
      ensures match Punish(old(statuses), receipts.Value(), inbox.Value(), bad)
              case Done(st) => failed.None? && statuses == st
              case Failed(e) => failed == Some(e)
    {
      var authors := AuthorsOf(inbox.Value(), bad.receipt);
      if authors.Failed? {
        return Some(authors.error);
      }
      SlashAll(bad.operators);
      UnmarkAll(authors.value, HashOf(bad.receipt));
      failed := None;
    }

    /** Settles a confirmed block. */
    method ConfirmReceipt(r: Receipt, transfersOk: bool) returns (failed: Option<TreeError>)
      modifies this, inbox
      ensures match ConfirmBlock(old(State()), r, transfersOk)
              case Done(s) => failed.None? && State() == s
              case Failed(e) => failed == Some(e)
      ensures receipts.Value() == old(receipts.Value())
    {
      ghost var headers := Headers(DigestsOf(inbox.Value(), r));
      var settlement := inbox.Confirm(r);
      if settlement.Failed? {
        return Some(settlement.error);
      }
      if !transfersOk {
        return Some(TransfersFailed);
      }
      SlashAll(settlement.value.invalid);
      settled := settled.(done := settled.done + headers);
      failed := None;
    }

    /** Prunes a stale receipt of the given number, if there is one, and punishes it. */
    method DropStale(number: nat) returns (failed: Option<TreeError>)
      modifies this`statuses, receipts
      ensures match ReceiptChain.Prune(old(receipts.Value()), number)
              case Failed(e) => failed == Some(e)
              case Done(p) =>
                && receipts.Value() == p.0
                && match if p.1.Some? then Punish(old(statuses), p.0, inbox.Value(), p.1.value) else Done(old(statuses))
                   case Failed(e) => failed == Some(e)
                   case Done(st) => failed.None? && statuses == st
      ensures inbox.Value() == old(inbox.Value())
    {
      var stale := receipts.Prune(number);
      if stale.Failed? {
        return Some(stale.error);
      }
      failed := None;
      if stale.value.Some? {
        failed := PunishAll(stale.value.value);
      }
    }

    /** Puts a new head on the chain; a failure may leave a half-done state, which the caller undoes. */
    method TryHead(op: OperatorId, r: Receipt, transfersOk: bool) returns (failed: Option<TreeError>)
      modifies this, receipts, inbox
      ensures match AcceptHead(old(State()), op, r, setup.depth, transfersOk)
              case Done(s) => failed.None? && State() == s
              case Failed(e) => failed == Some(e)
    {
      failed := DropStale(r.number);
      if failed.Some? {
        return;
      }
      var authors := AuthorsOf(inbox.Value(), r);
      if authors.Failed? {
        return Some(authors.error);
      }
      MarkAll(authors.value, HashOf(r));
      var confirmed := receipts.Extend(op, r, setup.depth);
      if confirmed.Failed? {
        return Some(confirmed.error);
      }
      past := Advance(past, r.number, confirmed.value);
      added := added + [HashOf(r)];
      failed := None;
      if confirmed.value.Some? {
        failed := ConfirmReceipt(confirmed.value.value.receipt, transfersOk);
      }
    }

    /** Verifies and takes a receipt; a failure leaves the storage as it was. */
    method TakeReceipt(op: OperatorId, r: Receipt, transfersOk: bool) returns (failed: Option<TreeError>)
      modifies this, receipts, inbox
      ensures match Accept(old(State()), op, r, setup.depth, transfersOk)
              case Done(s) => failed.None? && State() == s
              case Failed(e) => failed == Some(e) && State() == old(State())
    {
      var c, b, st, id := receipts.Value(), inbox.Value(), statuses, nextId;
      ghost var history := (past, settled, added);
      var t := Verify(c, b, r);
      if t.Failed? {
        return Some(t.error);
      }
      if t.value.NewHead? {
        failed := TryHead(op, r, transfersOk);
        if failed.Some? {
          receipts.Restore(c);
          inbox.Restore(b);
          statuses, nextId := st, id;
          past, settled, added := history.0, history.1, history.2;
        }
      } else {
        var endorsed := receipts.Endorse(op, r);
        failed := if endorsed.Failed? then Some(endorsed.error) else None;
      }
    }

    function Gap(): nat
      reads receipts, inbox
    {
      if inbox.headDomain >= receipts.head then inbox.headDomain - receipts.head else 0
    }

    /** A bundle with a new header never finds the tree broken. */
    method SubmitBundle(op: OperatorId, r: Receipt, d: Digest, transfersOk: bool) returns (failed: Option<TreeError>)
      modifies this, receipts, inbox
      ensures match BlockTree.SubmitBundle(old(State()), op, r, d, setup.depth, transfersOk)
              case Done(s) => failed.None? && State() == s
              case Failed(e) => failed == Some(e) && State() == old(State())
      ensures old(Valid()) && d.header !in old(settled).places ==> Valid()
      ensures old(Valid()) && failed.Some? ==> !BlockTreeTheorems.Broken(failed.value)
    {
      if old(Valid()) {
        BundleOutcome(State(), setup, op, r, d, transfersOk);
      }
      failed := TakeBundle(op, r, d, transfersOk);
    }

    method TakeBundle(op: OperatorId, r: Receipt, d: Digest, transfersOk: bool) returns (failed: Option<TreeError>)
      modifies this, receipts, inbox
      ensures match BlockTree.SubmitBundle(old(State()), op, r, d, setup.depth, transfersOk)
              case Done(s) => failed.None? && State() == s
              case Failed(e) => failed == Some(e) && State() == old(State())
    {
      if Gap() > 1 {
        return Some(UnexpectedReceiptGap);
      }
      if !CanSubmit(statuses, receipts.Value(), op) {
        return Some(BadOperator);
      }
      failed := TakeReceipt(op, r, transfersOk);
      if failed.None? {
        ghost var before := inbox.Value();
        inbox.Append(d, op);
        ghost var k := (inbox.headDomain, inbox.block);
        settled := settled.(places := settled.places[d.header := (k, |DigestsAt(before, k.0, k.1)|)]);
      }
    }

    method SubmitReceipt(op: OperatorId, r: Receipt, transfersOk: bool) returns (failed: Option<TreeError>)
      modifies this, receipts, inbox
      ensures match BlockTree.SubmitReceipt(old(State()), op, r, setup.depth, transfersOk)
              case Done(s) => failed.None? && State() == s
              case Failed(e) => failed == Some(e) && State() == old(State())
      ensures old(Valid()) ==> Valid()
      ensures old(Valid()) && failed.Some? ==> !BlockTreeTheorems.Broken(failed.value)
    {
      if old(Valid()) {
        ReceiptOutcome(State(), setup, op, r, transfersOk);
      }
      if Gap() <= 1 {
        return Some(ExpectingReceiptGap);
      }
      if !CanSubmit(statuses, receipts.Value(), op) {
        return Some(BadOperator);
      }
      failed := TakeReceipt(op, r, transfersOk);
    }

    /** Succeeds exactly on a stored receipt up to the head, other than genesis, whose parent is stored. */
    method SubmitFraudProof(h: ReceiptHash) returns (failed: Option<TreeError>)
      modifies this, receipts
      ensures match BlockTree.SubmitFraudProof(old(State()), h)
              case Done(s) => failed.None? && State() == s
              case Failed(e) => failed == Some(e) && State() == old(State())
      ensures old(Valid()) ==> Valid()
      ensures old(Valid()) ==> (failed.None? <==> BlockTreeInvariant.Target(old(receipts.Value()), h))
    {
      if old(Valid()) {
        BlockTreeInvariant.FraudKeepsState(State(), h, setup);
      }
      failed := Challenge(h);
    }

    method Challenge(h: ReceiptHash) returns (failed: Option<TreeError>)
      modifies this, receipts
      ensures match BlockTree.SubmitFraudProof(old(State()), h)
              case Done(s) => failed.None? && State() == s
              case Failed(e) => failed == Some(e) && State() == old(State())
    {
      var c, st := receipts.Value(), statuses;
      if h !in receipts.nodes {
        return Some(BadReceiptNotFound);
      }
      var bad := receipts.nodes[h].receipt;
      if bad.number == 0 {
        return Some(ChallengingGenesisReceipt);
      }
      if receipts.head < bad.number {
        return Some(BadReceiptAlreadyReported);
      }
      if bad.parent !in receipts.nodes {
        return Some(ParentReceiptNotFound);
      }
      var pruned := receipts.Prune(bad.number);
      if pruned.Failed? {
        return Some(pruned.error);
      }
      if pruned.value.None? {
        return Some(BadReceiptNotFound);
      }
      failed := PunishAll(pruned.value.value);
      if failed.Some? {
        receipts.Restore(c);
        statuses := st;
      } else {
        receipts.head := bad.number - 1;
      }
    }

    method EndBlock(hash: nat)
      modifies receipts, inbox
      ensures State() == BlockTree.EndBlock(old(State()), hash)
      ensures old(Valid()) ==> Valid()
      ensures receipts.newHead.None? && receipts.nodes == old(receipts.nodes) && inbox.digests == old(inbox.digests)
    {
      if old(Valid()) {
        BlockTreeInvariant.EndBlockKeeps(State(), hash, setup);
      }
      receipts.newHead := None;
      inbox.NextBlock(hash);
    }
  }

  // ---- What the calls of a sound tree bring ----

  lemma ReceiptOutcome(s: State, setup: Setup, op: OperatorId, r: Receipt, ok: bool)
    requires BlockTreeInvariant.StateOk(s, setup)
    ensures match BlockTree.SubmitReceipt(s, op, r, setup.depth, ok)
            case Done(s') => BlockTreeInvariant.StateOk(s', setup)
            case Failed(e) => !BlockTreeTheorems.Broken(e)
  {
    if CanSubmit(s.statuses, s.chain, op) {
      AcceptOutcome(s, setup, op, r, ok);
    }
  }

  lemma AcceptOutcome(s: State, setup: Setup, op: OperatorId, r: Receipt, ok: bool)
    requires BlockTreeInvariant.StateOk(s, setup) && op in s.statuses
    ensures match Accept(s, op, r, setup.depth, ok)
            case Done(s') => BlockTreeInvariant.StateOk(s', setup)
            case Failed(e) => !BlockTreeTheorems.Broken(e)
  {
    BlockTreeInvariant.AcceptKeeps(s, op, r, setup, ok);
    BlockTreeTheorems.AcceptErrors(s, setup, op, r, ok);
  }

  lemma BundleOutcome(s: State, setup: Setup, op: OperatorId, r: Receipt, d: Digest, ok: bool)
    requires BlockTreeInvariant.StateOk(s, setup)
    ensures match BlockTree.SubmitBundle(s, op, r, d, setup.depth, ok)
            case Done(s') => d.header !in s.settled.places ==> BlockTreeInvariant.StateOk(s', setup)
            case Failed(e) => !BlockTreeTheorems.Broken(e)
  {
    var done := BlockTree.SubmitBundle(s, op, r, d, setup.depth, ok);
    if CanSubmit(s.statuses, s.chain, op) {
      BlockTreeTheorems.AcceptErrors(s, setup, op, r, ok);
    }
    if done.Done? && d.header !in s.settled.places {
      BlockTreeRuns.BundleKeeps(s, done.value, setup, op, r, d, ok);
    }
  }
}
