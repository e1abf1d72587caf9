/** The stored execution receipts of a domain and how the chain of them grows, shrinks and is confirmed. */
module ReceiptChain {
  import opened ReceiptTypes
  import opened StakingTypes
  import opened TreeTypes

  /** `tree` maps a domain block number to its receipt, `latest` an operator to the highest number it submitted. */
  datatype Chain = Chain(
    tree: map<nat, ReceiptHash>, nodes: map<ReceiptHash, Node>, head: nat, newHead: Option<ReceiptHash>,
    latest: map<OperatorId, nat>, confirmed: Receipt)

  function Genesis(genesis: Receipt): Chain {
    Chain(map[0 := HashOf(genesis)], map[HashOf(genesis) := Node(genesis, [])], 0, None, map[], genesis)
  }

  predicate Exists(c: Chain, number: nat, h: ReceiptHash) { number in c.tree && c.tree[number] == h }

  function LatestOf(c: Chain, op: OperatorId): nat { if op in c.latest then c.latest[op] else 0 }

  /** The operator submitted a receipt above the head, so the head was rewound below it. */
  predicate IsPending(c: Chain, op: OperatorId) { c.head < LatestOf(c, op) }

  /** Forgets the latest submission of the listed operators where it is `number`. */
  function ClearLatest(latest: map<OperatorId, nat>, ops: seq<OperatorId>, number: nat): map<OperatorId, nat> {
    map op | op in latest && !(op in ops && latest[op] == number) :: latest[op]
  }

  function Removed(c: Chain, number: nat): Chain
    requires number in c.tree && c.tree[number] in c.nodes
  {
    var node := c.nodes[c.tree[number]];
    c.(tree := c.tree - {number}, nodes := c.nodes - {c.tree[number]},
       latest := ClearLatest(c.latest, node.operators, node.receipt.number))
  }

  function Prune(c: Chain, number: nat): Outcome<(Chain, Option<Node>)> {
    if number !in c.tree then Done((c, None))
    else if c.tree[number] !in c.nodes then Failed(MissingDomainBlock)
    else Done((Removed(c, number), Some(c.nodes[c.tree[number]])))
  }

  function Add(c: Chain, op: OperatorId, r: Receipt): Outcome<Chain> {
    if r.number in c.tree then Failed(OverwritingER)
    else Done(c.(tree := c.tree[r.number := HashOf(r)], nodes := c.nodes[HashOf(r) := Node(r, [op])]))
  }

  function RaiseLatest(c: Chain, op: OperatorId, number: nat): Chain {
    if number > LatestOf(c, op) then c.(latest := c.latest[op := number]) else c
  }

  /** Adds a new head and prunes the block `depth` below it. When that block is still there it is confirmed. */
  function Extend(c: Chain, op: OperatorId, r: Receipt, depth: nat): Outcome<(Chain, Option<Node>)> {
    var c1 :- Add(c, op, r);
    var c2 := c1.(head := r.number, newHead := Some(HashOf(r)));
    if r.number < depth then Done((RaiseLatest(c2, op, r.number), None))
    else
      var pruned :- Prune(c2, r.number - depth);
      match pruned.1
      case None => Done((c2, None))
      case Some(node) => Done((pruned.0.(confirmed := node.receipt), Some(node)))
  }

  /** Another operator submits the head of this block. */
  function Endorse(c: Chain, op: OperatorId, r: Receipt): Outcome<Chain> {
    if HashOf(r) !in c.nodes then Failed(MissingDomainBlock)
    else
      var node := c.nodes[HashOf(r)];
      Done(RaiseLatest(c.(nodes := c.nodes[HashOf(r) := node.(operators := node.operators + [op])]), op, r.number))
  }

  // ---- The invariant ----

  /** What has happened so far: the highest head ever, and the confirmed receipts in order. */
  datatype Past = Past(top: nat, log: seq<Receipt>)

  ghost predicate Bijection(c: Chain) {
    && (forall n :: n in c.tree ==> c.tree[n] in c.nodes && c.nodes[c.tree[n]].receipt.number == n)
    && (forall h :: h in c.nodes ==> h == HashOf(c.nodes[h].receipt) && Exists(c, c.nodes[h].receipt.number, h))
  }

  /** Everything from the oldest unconfirmed block up to the head is stored, and nothing below. */
  ghost predicate Window(c: Chain, past: Past) {
    && |past.log| <= c.head <= past.top
    && (forall n :: n in c.tree ==> |past.log| <= n <= past.top)
    && (forall n :: |past.log| <= n <= c.head ==> n in c.tree)
  }

  /** The hash of block `n`, confirmed or stored. */
  ghost function HashAt(c: Chain, log: seq<Receipt>, n: nat): Option<ReceiptHash> {
    if n < |log| then Some(HashOf(log[n])) else if n in c.tree then Some(c.tree[n]) else None
  }

  /** Block `n`, if stored below or at the head, names the block before it as its parent. */
  ghost predicate LinkedAt(c: Chain, log: seq<Receipt>, n: nat) {
    0 < n <= c.head && n in c.tree && c.tree[n] in c.nodes ==>
      Some(c.nodes[c.tree[n]].receipt.parent) == HashAt(c, log, n - 1)
  }

  /** The receipts from genesis to the head form one chain of hashes. */
  ghost predicate Linked(c: Chain, log: seq<Receipt>) { forall n :: LinkedAt(c, log, n) }

  ghost predicate LogOk(c: Chain, log: seq<Receipt>, genesis: Receipt) {
    && (forall i :: 0 <= i < |log| ==> log[i].number == i)
    && (forall i, j :: 0 <= i < j < |log| && j == i + 1 ==> log[j].parent == HashOf(log[i]))
    && HashAt(c, log, 0) == Some(HashOf(genesis))
    && c.confirmed == (if log == [] then genesis else log[|log| - 1])
  }

  ghost predicate DepthOk(past: Past, depth: nat) {
    |past.log| == if past.top >= depth then past.top - depth + 1 else 0
  }

  /** A recorded latest submission is a stored receipt that lists the operator. */
  ghost predicate LatestOk(c: Chain) {
    forall op :: op in c.latest ==>
      && c.latest[op] > 0 && c.latest[op] in c.tree && c.tree[c.latest[op]] in c.nodes
      && op in c.nodes[c.tree[c.latest[op]]].operators
  }

  ghost predicate Core(c: Chain, past: Past, genesis: Receipt) {
    && Bijection(c) && LatestOk(c) && Window(c, past) && Linked(c, past.log) && LogOk(c, past.log, genesis)
    && genesis.number == 0
  }

  ghost predicate ChainOk(c: Chain, past: Past, genesis: Receipt, depth: nat) {
    Core(c, past, genesis) && DepthOk(past, depth) && depth >= 1
  }

  lemma GenesisOk(genesis: Receipt, depth: nat)
    requires genesis.number == 0 && depth >= 1
    ensures ChainOk(Genesis(genesis), Past(0, []), genesis, depth)
  {}

  // ---- Pruning ----

  /** Pruning a block above the head leaves the chain below alone. */
  lemma StalePruneKeeps(c: Chain, past: Past, genesis: Receipt, depth: nat, number: nat)
    requires ChainOk(c, past, genesis, depth) && number > c.head
    ensures Prune(c, number).Done?
    ensures var (c', node) := Prune(c, number).value;
            && ChainOk(c', past, genesis, depth) && number !in c'.tree && c'.head == c.head && c'.newHead == c.newHead
            && (node.Some? <==> number in c.tree)
  {
    if number in c.tree {
      RemovedBijection(c, number);
      RemovedLatest(c, number);
      var c' := Removed(c, number);
      forall n: nat
        ensures LinkedAt(c', past.log, n)
      {
        assert LinkedAt(c, past.log, n);
      }
    }
  }

  lemma RemovedBijection(c: Chain, number: nat)
    requires Bijection(c) && number in c.tree
    ensures Bijection(Removed(c, number))
  {}

  lemma RemovedLatest(c: Chain, number: nat)
    requires Bijection(c) && LatestOk(c) && number in c.tree
    ensures LatestOk(Removed(c, number))
    ensures forall op :: LatestOf(c, op) == number && number > 0 ==> op in c.nodes[c.tree[number]].operators
  {}

  // ---- A new head ----

  /** The chain with the new head added, before anything is pruned. */
  function Added(c: Chain, op: OperatorId, r: Receipt): Chain {
    c.(tree := c.tree[r.number := HashOf(r)], nodes := c.nodes[HashOf(r) := Node(r, [op])],
       head := r.number, newHead := Some(HashOf(r)))
  }

  /** What has happened after a new head: it may be the highest so far, and it may confirm a block. */
  function Advance(past: Past, number: nat, confirmed: Option<Node>): Past {
    Past(if number > past.top then number else past.top,
         if confirmed.Some? then past.log + [confirmed.value.receipt] else past.log)
  }

  ghost predicate Extends(c: Chain, r: Receipt) {
    r.number == c.head + 1 && r.number !in c.tree && Exists(c, c.head, r.parent)
  }

  lemma AddedBijection(c: Chain, op: OperatorId, r: Receipt)
    requires Bijection(c) && LatestOk(c) && Extends(c, r)
    ensures HashOf(r) !in c.nodes
    ensures Bijection(Added(c, op, r)) && LatestOk(Added(c, op, r))
  {}

  lemma AddedLinked(c: Chain, past: Past, op: OperatorId, r: Receipt, genesis: Receipt)
    requires Bijection(c) && Window(c, past) && Linked(c, past.log) && LogOk(c, past.log, genesis) && Extends(c, r)
    requires HashOf(r) !in c.nodes
    ensures Linked(Added(c, op, r), past.log) && LogOk(Added(c, op, r), past.log, genesis)
    ensures Window(Added(c, op, r), Advance(past, r.number, None))
  {
    forall n: nat
      ensures LinkedAt(Added(c, op, r), past.log, n)
    {
      assert LinkedAt(c, past.log, n);
    }
  }

  lemma AddedKeeps(c: Chain, past: Past, op: OperatorId, r: Receipt, genesis: Receipt)
    requires Core(c, past, genesis) && Extends(c, r)
    ensures Core(Added(c, op, r), Advance(past, r.number, None), genesis)
    ensures HashOf(r) !in c.nodes
  {
    AddedBijection(c, op, r);
    AddedLinked(c, past, op, r, genesis);
  }

  lemma RaiseLatestKeeps(c: Chain, past: Past, op: OperatorId, number: nat, genesis: Receipt)
    requires Core(c, past, genesis) && number > 0
    requires number in c.tree && op in c.nodes[c.tree[number]].operators
    ensures Core(RaiseLatest(c, op, number), past, genesis)
  {
    forall n: nat
      ensures LinkedAt(RaiseLatest(c, op, number), past.log, n)
    {
      assert LinkedAt(c, past.log, n);
    }
  }

  /** Confirming the oldest stored block moves it from the tree to the log. */
  lemma ConfirmKeeps(c: Chain, past: Past, genesis: Receipt)
    requires Core(c, past, genesis) && |past.log| < c.head
    ensures var lo := |past.log|;
            && lo in c.tree && c.tree[lo] in c.nodes
            && var r := c.nodes[c.tree[lo]].receipt;
               r.number == lo && Core(Removed(c, lo).(confirmed := r), past.(log := past.log + [r]), genesis)
  {
    var lo := |past.log|;
    RemovedBijection(c, lo);
    RemovedLatest(c, lo);
    ConfirmLinked(c, past, genesis);
  }

  lemma ConfirmLinked(c: Chain, past: Past, genesis: Receipt)
    requires Bijection(c) && Window(c, past) && Linked(c, past.log) && LogOk(c, past.log, genesis)
    requires |past.log| < c.head
    ensures var lo := |past.log|;
            var r := c.nodes[c.tree[lo]].receipt;
            var c', past' := Removed(c, lo).(confirmed := r), past.(log := past.log + [r]);
            Window(c', past') && Linked(c', past'.log) && LogOk(c', past'.log, genesis)
  {
    var lo := |past.log|;
    var r := c.nodes[c.tree[lo]].receipt;
    var c', past' := Removed(c, lo).(confirmed := r), past.(log := past.log + [r]);
    assert LinkedAt(c, past.log, lo);
    forall n: nat
      ensures LinkedAt(c', past'.log, n)
    {
      assert LinkedAt(c, past.log, n);
    }
  }

  lemma ExtendLow(c: Chain, past: Past, op: OperatorId, r: Receipt, genesis: Receipt, depth: nat)
    requires ChainOk(c, past, genesis, depth) && Extends(c, r) && r.number < depth
    ensures Extend(c, op, r, depth) == Done((RaiseLatest(Added(c, op, r), op, r.number), None))
    ensures ChainOk(RaiseLatest(Added(c, op, r), op, r.number), Advance(past, r.number, None), genesis, depth)
  {
    AddedKeeps(c, past, op, r, genesis);
    RaiseLatestKeeps(Added(c, op, r), Advance(past, r.number, None), op, r.number, genesis);
  }

  lemma ExtendAgain(c: Chain, past: Past, op: OperatorId, r: Receipt, genesis: Receipt, depth: nat)
    requires ChainOk(c, past, genesis, depth) && Extends(c, r) && depth <= r.number <= past.top
    ensures Extend(c, op, r, depth) == Done((Added(c, op, r), None))
    ensures ChainOk(Added(c, op, r), Advance(past, r.number, None), genesis, depth)
  {
    AddedKeeps(c, past, op, r, genesis);
  }

  lemma ExtendHigh(c: Chain, past: Past, op: OperatorId, r: Receipt, genesis: Receipt, depth: nat) returns (node: Node)
    requires ChainOk(c, past, genesis, depth) && Extends(c, r) && depth <= r.number && past.top < r.number
    ensures var lo := |past.log|;
            var c2 := Added(c, op, r);
            && lo + depth == r.number
            && Exists(c2, lo, HashOf(node.receipt))
            && HashOf(node.receipt) in c2.nodes && c2.nodes[HashOf(node.receipt)] == node
            && var c' := Removed(c2, lo).(confirmed := node.receipt);
               && Extend(c, op, r, depth) == Done((c', Some(node)))
               && ChainOk(c', Advance(past, r.number, Some(node)), genesis, depth)
  {
    AddedKeeps(c, past, op, r, genesis);
    var c2 := Added(c, op, r);
    ConfirmKeeps(c2, Advance(past, r.number, None), genesis);
    node := c2.nodes[c2.tree[|past.log|]];
  }

  /** A new head never fails, and it confirms a block exactly when the head gets higher than ever before: the
      oldest one, `depth` below. */
  lemma ExtendKeeps(c: Chain, past: Past, op: OperatorId, r: Receipt, genesis: Receipt, depth: nat)
    requires ChainOk(c, past, genesis, depth) && Extends(c, r)
    ensures Extend(c, op, r, depth).Done?
    ensures var (c', node) := Extend(c, op, r, depth).value;
            && ChainOk(c', Advance(past, r.number, node), genesis, depth)
            && (node.Some? <==> r.number > past.top && r.number >= depth)
            && (node.Some? ==>
                |past.log| + depth == r.number && Exists(Added(c, op, r), |past.log|, HashOf(node.value.receipt)))
            && c'.head == r.number && c'.newHead == Some(HashOf(r))
  {
    if r.number < depth {
      ExtendLow(c, past, op, r, genesis, depth);
    } else if r.number <= past.top {
      ExtendAgain(c, past, op, r, genesis, depth);
    } else {
      var node := ExtendHigh(c, past, op, r, genesis, depth);
    }
  }

  // ---- A fraud proof ----

  lemma FraudKeeps(c: Chain, past: Past, genesis: Receipt, depth: nat, h: ReceiptHash)
    requires ChainOk(c, past, genesis, depth) && h in c.nodes
    requires var r := c.nodes[h].receipt; 0 < r.number <= c.head && r.parent in c.nodes
    ensures var number := c.nodes[h].receipt.number;
            && Exists(c, number, h)
            && ChainOk(Removed(c, number).(head := number - 1), past, genesis, depth)
  {
    var number := c.nodes[h].receipt.number;
    RemovedBijection(c, number);
    RemovedLatest(c, number);
    assert LinkedAt(c, past.log, number);
    ParentStored(c, past, number - 1, c.nodes[h].receipt.parent, genesis);
    var c' := Removed(c, number).(head := number - 1);
    forall n: nat
      ensures LinkedAt(c', past.log, n)
    {
      assert LinkedAt(c, past.log, n);
    }
  }

  lemma ParentStored(c: Chain, past: Past, n: nat, h: ReceiptHash, genesis: Receipt)
    requires Bijection(c) && Window(c, past) && LogOk(c, past.log, genesis)
    requires HashAt(c, past.log, n) == Some(h) && h in c.nodes
    ensures |past.log| <= n && n in c.tree
  {}

  // ---- Another submission of the head ----

  lemma EndorseKeeps(c: Chain, past: Past, op: OperatorId, r: Receipt, genesis: Receipt, depth: nat)
    requires ChainOk(c, past, genesis, depth) && Exists(c, r.number, HashOf(r))
    ensures Endorse(c, op, r).Done?
    ensures ChainOk(Endorse(c, op, r).value, past, genesis, depth)
  {
    var node := c.nodes[HashOf(r)];
    var c' := c.(nodes := c.nodes[HashOf(r) := node.(operators := node.operators + [op])]);
    ListedKeeps(c, c', past, op, HashOf(r), genesis);
    if r.number > 0 {
      RaiseLatestKeeps(c', past, op, r.number, genesis);
    }
  }

  lemma ListedKeeps(c: Chain, c': Chain, past: Past, op: OperatorId, h: ReceiptHash, genesis: Receipt)
    requires Core(c, past, genesis) && h in c.nodes
    requires c' == c.(nodes := c.nodes[h := c.nodes[h].(operators := c.nodes[h].operators + [op])])
    ensures Core(c', past, genesis)
  {
    forall n: nat
      ensures LinkedAt(c', past.log, n)
    {
      assert LinkedAt(c, past.log, n);
    }
  }

  // ---- Ancestors ----

  /** The hash reached by following `k` parent links between stored receipts. */
  function Ancestor(c: Chain, h: ReceiptHash, k: nat): Option<ReceiptHash>
    decreases k
  {
    if k == 0 then Some(h)
    else if h !in c.nodes then None
    else Ancestor(c, c.nodes[h].receipt.parent, k - 1)
  }

  lemma {:induction false} AncestorAt(c: Chain, past: Past, n: nat, k: nat)
    requires Bijection(c) && Window(c, past) && Linked(c, past.log)
    requires k <= n <= c.head && |past.log| <= n - k
    ensures n in c.tree && n - k in c.tree && Ancestor(c, c.tree[n], k) == Some(c.tree[n - k])
    decreases k
  {
    if k > 0 {
      assert LinkedAt(c, past.log, n);
      AncestorAt(c, past, n - 1, k - 1);
    }
  }

  /** What a new head confirms is exactly its `depth`-th ancestor. */
  lemma ConfirmedIsAncestor(c: Chain, past: Past, op: OperatorId, r: Receipt, genesis: Receipt, depth: nat)
    requires ChainOk(c, past, genesis, depth) && Extends(c, r)
    requires Extend(c, op, r, depth).Done? && Extend(c, op, r, depth).value.1.Some?
    ensures var confirmed := Extend(c, op, r, depth).value.1.value.receipt;
            && Ancestor(Added(c, op, r), HashOf(r), depth) == Some(HashOf(confirmed))
            && confirmed.number == r.number - depth == |past.log|
  {
    ExtendKeeps(c, past, op, r, genesis, depth);
    AddedKeeps(c, past, op, r, genesis);
    AncestorAt(Added(c, op, r), Advance(past, r.number, None), r.number, depth);
  }

  // ---- What a step does to the other receipts ----

  /** A new head on top of the chain, replacing a stale receipt of its number if there is one. */
  ghost predicate HeadStep(c: Chain, c1: Chain, stale: Option<Node>, c2: Chain, confirmed: Option<Node>,
                           op: OperatorId, r: Receipt, depth: nat)
  {
    && r.number == c.head + 1 && Exists(c, c.head, r.parent)
    && Prune(c, r.number) == Done((c1, stale)) && Extend(c1, op, r, depth) == Done((c2, confirmed))
  }

  lemma HeadStepKeeps(c: Chain, c1: Chain, stale: Option<Node>, c2: Chain, confirmed: Option<Node>, op: OperatorId,
                      r: Receipt, past: Past, genesis: Receipt, depth: nat)
    requires ChainOk(c, past, genesis, depth) && HeadStep(c, c1, stale, c2, confirmed, op, r, depth)
    ensures ChainOk(c1, past, genesis, depth) && Extends(c1, r)
    ensures ChainOk(c2, Advance(past, r.number, confirmed), genesis, depth)
  {
    StalePruneKeeps(c, past, genesis, depth, r.number);
    ExtendKeeps(c1, past, op, r, genesis, depth);
  }

  /** Every receipt stays except the confirmed one, and latest submissions above the new head stay. */
  ghost predicate ExtendFrame(c: Chain, c': Chain, confirmed: Option<Node>, op: OperatorId, r: Receipt) {
    && c'.head == r.number
    && HashOf(r) !in c.nodes && HashOf(r) in c'.nodes && c'.nodes[HashOf(r)] == Node(r, [op])
    && (forall h :: h in c'.nodes && h != HashOf(r) ==> h in c.nodes && c'.nodes[h] == c.nodes[h])
    && (forall h :: h in c.nodes && h !in c'.nodes ==>
         confirmed.Some? && h == HashOf(confirmed.value.receipt) && c.nodes[h] == confirmed.value)
    && (confirmed.Some? ==> HashOf(confirmed.value.receipt) in c.nodes && HashOf(confirmed.value.receipt) !in c'.nodes
                            && confirmed.value.receipt.number < r.number)
    && (forall h :: h in c.nodes ==> c.nodes[h].receipt.number != r.number)
    && (forall o :: LatestOf(c, o) > r.number || LatestOf(c', o) > r.number ==> LatestOf(c', o) == LatestOf(c, o))
  }

  lemma ExtendIs(c: Chain, op: OperatorId, r: Receipt, depth: nat)
    requires r.number !in c.tree
    ensures r.number < depth ==> Extend(c, op, r, depth) == Done((RaiseLatest(Added(c, op, r), op, r.number), None))
    ensures r.number >= depth && r.number - depth !in Added(c, op, r).tree ==>
              Extend(c, op, r, depth) == Done((Added(c, op, r), None))
    ensures r.number >= depth && r.number - depth in Added(c, op, r).tree
            && Added(c, op, r).tree[r.number - depth] in Added(c, op, r).nodes ==>
              var c2 := Added(c, op, r);
              var node := c2.nodes[c2.tree[r.number - depth]];
              Extend(c, op, r, depth) == Done((Removed(c2, r.number - depth).(confirmed := node.receipt), Some(node)))
  {}

  lemma ExtendFrames(c: Chain, c': Chain, confirmed: Option<Node>, op: OperatorId, r: Receipt, depth: nat)
    requires Bijection(c) && Bijection(Added(c, op, r)) && HashOf(r) !in c.nodes && r.number !in c.tree && depth >= 1
    requires Extend(c, op, r, depth) == Done((c', confirmed))
    ensures ExtendFrame(c, c', confirmed, op, r)
  {
    ExtendIs(c, op, r, depth);
    if r.number < depth {
      RaiseFrame(c, op, r);
    } else if r.number - depth in c.tree {
      ConfirmFrame(c, op, r, r.number - depth);
    } else {
      AddFrame(c, op, r);
    }
  }

  lemma AddFrame(c: Chain, op: OperatorId, r: Receipt)
    requires Bijection(c) && HashOf(r) !in c.nodes && r.number !in c.tree
    ensures ExtendFrame(c, Added(c, op, r), None, op, r)
  {}

  lemma RaiseFrame(c: Chain, op: OperatorId, r: Receipt)
    requires Bijection(c) && HashOf(r) !in c.nodes && r.number !in c.tree
    ensures ExtendFrame(c, RaiseLatest(Added(c, op, r), op, r.number), None, op, r)
  {}

  lemma ConfirmFrame(c: Chain, op: OperatorId, r: Receipt, number: nat)
    requires Bijection(c) && Bijection(Added(c, op, r)) && number in c.tree && number < r.number
    requires HashOf(r) !in c.nodes && r.number !in c.tree
    ensures var node := c.nodes[c.tree[number]];
            var c2 := Added(c, op, r);
            && number in c2.tree && c2.tree[number] in c2.nodes && c2.nodes[c2.tree[number]] == node
            && ExtendFrame(c, Removed(c2, number).(confirmed := node.receipt), Some(node), op, r)
  {
    AddFrame(c, op, r);
    RemoveFrame(c, Added(c, op, r), op, r, number);
  }

  lemma RemoveFrame(c: Chain, c2: Chain, op: OperatorId, r: Receipt, number: nat)
    requires ExtendFrame(c, c2, None, op, r) && Bijection(c2) && number in c2.tree && number < r.number
    requires c2.tree[number] in c.nodes && c.nodes[c2.tree[number]] == c2.nodes[c2.tree[number]]
    ensures var node := c2.nodes[c2.tree[number]];
            ExtendFrame(c, Removed(c2, number).(confirmed := node.receipt), Some(node), op, r)
  {}

  /** Only the stale receipt goes, and the latest submissions that name it. */
  ghost predicate PruneFrame(c: Chain, c1: Chain, stale: Option<Node>, number: nat) {
    && c1.head == c.head
    && (forall h :: h in c1.nodes ==> h in c.nodes && c1.nodes[h] == c.nodes[h])
    && (forall h :: h in c.nodes && h !in c1.nodes ==>
         stale.Some? && h == HashOf(stale.value.receipt) && c.nodes[h] == stale.value)
    && (stale.Some? ==> HashOf(stale.value.receipt) in c.nodes && HashOf(stale.value.receipt) !in c1.nodes
                        && stale.value.receipt.number == number)
    && (forall o :: LatestOf(c1, o) == LatestOf(c, o)
                    || (stale.Some? && o in stale.value.operators && LatestOf(c, o) == number && LatestOf(c1, o) == 0))
    && (forall o :: LatestOf(c, o) == number > 0 ==> stale.Some? && o in stale.value.operators)
  }

  lemma PruneFrames(c: Chain, c1: Chain, stale: Option<Node>, number: nat)
    requires Bijection(c) && LatestOk(c) && Prune(c, number) == Done((c1, stale))
    ensures PruneFrame(c, c1, stale, number)
  {}

  /** Each stored receipt stays, except the stale one and the confirmed one; and an operator stops being pending
      slash only as a submitter of the stale one. */
  lemma HeadStepFrames(c: Chain, c1: Chain, stale: Option<Node>, c2: Chain, confirmed: Option<Node>, op: OperatorId,
                       r: Receipt, past: Past, genesis: Receipt, depth: nat)
    requires ChainOk(c, past, genesis, depth) && HeadStep(c, c1, stale, c2, confirmed, op, r, depth)
    ensures PruneFrame(c, c1, stale, r.number) && ExtendFrame(c1, c2, confirmed, op, r)
  {
    HeadStepKeeps(c, c1, stale, c2, confirmed, op, r, past, genesis, depth);
    PruneFrames(c, c1, stale, r.number);
    AddedBijection(c1, op, r);
    ExtendFrames(c1, c2, confirmed, op, r, depth);
  }

  lemma HeadStepPending(c: Chain, c1: Chain, stale: Option<Node>, c2: Chain, confirmed: Option<Node>, op: OperatorId,
                        r: Receipt, o: OperatorId)
    requires PruneFrame(c, c1, stale, r.number) && ExtendFrame(c1, c2, confirmed, op, r) && r.number == c.head + 1
    ensures IsPending(c, o) && !IsPending(c2, o) ==> stale.Some? && o in stale.value.operators
    ensures IsPending(c2, o) ==> IsPending(c1, o)
    ensures IsPending(c1, o) ==> IsPending(c, o)
  {}
}
