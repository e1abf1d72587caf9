/** The guard against bundles that reuse a slot. */
module SlotGuard {
  import opened ReceiptTypes
  import opened Runs

  /** `inBlock` holds the slots used in the running block, `highest` the highest one used before it. `accepted` and
      `earlier` only record what was accepted, and how much of it before the running block. */
  datatype Slots = Slots(
    inBlock: map<OperatorId, set<nat>>, highest: map<OperatorId, nat>, accepted: seq<(OperatorId, nat)>, earlier: nat)

  function InBlock(s: Slots, op: OperatorId): set<nat> { if op in s.inBlock then s.inBlock[op] else {} }

  function HighestBefore(s: Slots, op: OperatorId): nat { if op in s.highest then s.highest[op] else 0 }

  ghost predicate IsLast(slots: set<nat>, last: nat) { last in slots && forall x :: x in slots ==> x <= last }

  lemma {:induction false} LastExists(slots: set<nat>)
    requires slots != {}
    ensures exists last :: IsLast(slots, last)
    decreases slots
  {
    var x :| x in slots;
    if slots - {x} == {} {
      assert slots == {x};
      assert IsLast(slots, x);
    } else {
      LastExists(slots - {x});
      var y :| IsLast(slots - {x}, y);
      assert forall z :: z in slots ==> z == x || z in slots - {x};
      assert IsLast(slots, if x > y then x else y);
    }
  }

  ghost function Last(slots: set<nat>): (last: nat)
    requires slots != {}
    ensures IsLast(slots, last)
  {
    LastExists(slots);
    var last :| IsLast(slots, last); last
  }

  /** The highest slot of earlier blocks. Inside a block it is stored; the transaction pool looks at a state whose last
      block has not been folded in yet. */
  ghost function PreviousHighest(s: Slots, op: OperatorId, preDispatch: bool): nat {
    if preDispatch || InBlock(s, op) == {} then HighestBefore(s, op) else Last(InBlock(s, op))
  }

  ghost predicate Admitted(s: Slots, op: OperatorId, slot: nat) {
    slot > PreviousHighest(s, op, true) && slot !in InBlock(s, op)
  }

  function Record(s: Slots, op: OperatorId, slot: nat): Slots {
    s.(inBlock := s.inBlock[op := InBlock(s, op) + {slot}], accepted := s.accepted + [(op, slot)])
  }

  /** At the start of a block the slots of the last one are folded into the highest ones. */
  ghost function FoldIn(s: Slots): Slots {
    s.(inBlock := map[], highest := Highest(s.inBlock, s.highest), earlier := |s.accepted|)
  }

  ghost function Highest(inBlock: map<OperatorId, set<nat>>, highest: map<OperatorId, nat>): map<OperatorId, nat> {
    map op | op in highest.Keys + inBlock.Keys && (op in highest || inBlock[op] != {}) ::
      if op in inBlock && inBlock[op] != {} then Last(inBlock[op]) else highest[op]
  }

  /** What the transaction pool sees before a block starts is what the block sees after. */
  lemma PoolAgrees(s: Slots, op: OperatorId)
    ensures PreviousHighest(s, op, false) == PreviousHighest(FoldIn(s), op, true)
  {}

  // ---- The invariant ----

  /** The slots accepted before the running block, and those accepted in it. */
  ghost predicate Before(s: Slots, op: OperatorId, slot: nat) {
    exists i :: 0 <= i < s.earlier && i < |s.accepted| && s.accepted[i] == (op, slot)
  }

  ghost predicate Now(s: Slots, op: OperatorId, slot: nat) {
    exists i :: s.earlier <= i < |s.accepted| && s.accepted[i] == (op, slot)
  }

  ghost predicate AboveEarlier(s: Slots, op: OperatorId, slot: nat) {
    forall x: nat :: Before(s, op, x) ==> x < slot
  }

  /** Every accepted slot is remembered, by itself or below the highest one, which was accepted itself. */
  ghost predicate Remembers(s: Slots, op: OperatorId) {
    && (forall slot :: slot in InBlock(s, op) <==> Now(s, op, slot))
    && (forall slot: nat :: Before(s, op, slot) ==> slot <= HighestBefore(s, op))
    && (HighestBefore(s, op) > 0 ==> Before(s, op, HighestBefore(s, op)))
    && (forall slot :: slot in InBlock(s, op) ==> slot > HighestBefore(s, op))
  }

  ghost predicate SlotsOk(s: Slots) {
    && s.earlier <= |s.accepted|
    && (forall op: OperatorId :: Remembers(s, op))
    && (forall i, j :: 0 <= i < j < |s.accepted| ==> s.accepted[i] != s.accepted[j])
  }

  datatype Step = BundleStep(op: OperatorId, slot: nat) | BlockStep

  ghost predicate Next(s: Slots, s': Slots, step: Step) {
    match step
    case BundleStep(op, slot) => Admitted(s, op, slot) && s' == Record(s, op, slot)
    case BlockStep => s' == FoldIn(s)
  }

  /** A slot is admitted exactly when it is above all slots accepted in earlier blocks and was not used in this one. */
  lemma FreshSlots(s: Slots, op: OperatorId, slot: nat)
    requires SlotsOk(s)
    ensures Admitted(s, op, slot) <==>
            slot > 0 && !Now(s, op, slot) && AboveEarlier(s, op, slot)
  {
    assert Remembers(s, op);
  }

  lemma RecordRemembers(s: Slots, op: OperatorId, slot: nat, o: OperatorId)
    requires SlotsOk(s) && Admitted(s, op, slot)
    ensures Remembers(Record(s, op, slot), o)
  {
    var s' := Record(s, op, slot);
    assert Remembers(s, o);
    forall x
      ensures Before(s', o, x) <==> Before(s, o, x)
      ensures Now(s', o, x) <==> Now(s, o, x) || (o == op && x == slot)
    {
      RecordAdds(s, op, slot, o, x);
    }
  }

  lemma RecordAdds(s: Slots, op: OperatorId, slot: nat, o: OperatorId, x: nat)
    requires s.earlier <= |s.accepted|
    ensures var s' := Record(s, op, slot);
            && (Before(s', o, x) <==> Before(s, o, x))
            && (Now(s', o, x) <==> Now(s, o, x) || (o == op && x == slot))
  {
    var s' := Record(s, op, slot);
    assert forall i :: 0 <= i < |s.accepted| ==> s'.accepted[i] == s.accepted[i];
    assert s'.accepted[|s.accepted|] == (op, slot);
  }

  lemma RecordKeeps(s: Slots, op: OperatorId, slot: nat)
    requires SlotsOk(s) && Admitted(s, op, slot)
    ensures SlotsOk(Record(s, op, slot))
  {
    var s' := Record(s, op, slot);
    forall o: OperatorId
      ensures Remembers(s', o)
    {
      RecordRemembers(s, op, slot, o);
    }
    forall i, j | 0 <= i < j < |s'.accepted|
      ensures s'.accepted[i] != s'.accepted[j]
    {
      if j == |s.accepted| && s.accepted[i] == (op, slot) {
        SeenBefore(s, op, slot);
      }
    }
  }

  lemma SeenBefore(s: Slots, op: OperatorId, slot: nat)
    requires SlotsOk(s) && (op, slot) in s.accepted
    ensures !Admitted(s, op, slot)
  {
    var i :| 0 <= i < |s.accepted| && s.accepted[i] == (op, slot);
    assert Remembers(s, op);
    assert if i < s.earlier then Before(s, op, slot) else Now(s, op, slot);
  }

  lemma FoldRemembers(s: Slots, op: OperatorId)
    requires SlotsOk(s)
    ensures Remembers(FoldIn(s), op)
  {
    var s' := FoldIn(s);
    assert Remembers(s, op);
    forall x
      ensures Before(s', op, x) <==> Before(s, op, x) || x in InBlock(s, op)
      ensures !Now(s', op, x)
    {
      assert Now(s, op, x) <==> x in InBlock(s, op);
    }
    if InBlock(s, op) != {} {
      assert Last(InBlock(s, op)) in InBlock(s, op);
    }
  }

  lemma FoldKeeps(s: Slots)
    requires SlotsOk(s)
    ensures SlotsOk(FoldIn(s))
  {
    forall op: OperatorId
      ensures Remembers(FoldIn(s), op)
    {
      FoldRemembers(s, op);
    }
  }

  ghost function Start(): Slots -> bool { s => s == Slots(map[], map[], [], 0) }

  ghost predicate CanStep(s: Slots, s': Slots) { exists step :: Next(s, s', step) }

  ghost function StepOf(): (Slots, Slots) -> bool { (s, s') => CanStep(s, s') }

  ghost function OkOf(): Slots -> bool { s => SlotsOk(s) }

  /** Over every run no operator has two bundles accepted for the same slot. */
  lemma NoSlotReused(run: seq<Slots>, k: nat, i: nat, j: nat)
    requires IsRun(run, Start(), StepOf()) && k < |run| && i < j < |run[k].accepted|
    ensures run[k].accepted[i] != run[k].accepted[j]
  {
    forall s, s' | OkOf()(s) && StepOf()(s, s')
      ensures OkOf()(s')
    {
      var step :| Next(s, s', step);
      match step
      case BundleStep(op, slot) => RecordKeeps(s, op, slot);
      case BlockStep => FoldKeeps(s);
    }
    Invariance(run, Start(), StepOf(), OkOf(), k);
    assert OkOf()(run[k]);
  }

  // ---- The pallet ----

  /** The operators of `done` have been drained. */
  ghost predicate Drained(inBlock: map<OperatorId, set<nat>>, was: map<OperatorId, nat>, done: set<OperatorId>,
                          highest: map<OperatorId, nat>)
  {
    && done <= inBlock.Keys
    && highest.Keys == was.Keys + (set op | op in done && inBlock[op] != {})
    && (forall op :: op in highest ==>
          highest[op] == if op in done && inBlock[op] != {} then Last(inBlock[op]) else was[op])
  }

  lemma DrainedAll(inBlock: map<OperatorId, set<nat>>, was: map<OperatorId, nat>, highest: map<OperatorId, nat>)
    requires Drained(inBlock, was, inBlock.Keys, highest)
    ensures highest == Highest(inBlock, was)
  {}

  /** Drains the slots of the last block operator by operator. */
  method DrainSlots(inBlock: map<OperatorId, set<nat>>, was: map<OperatorId, nat>)
    returns (highest: map<OperatorId, nat>)
    ensures highest == Highest(inBlock, was)
  {
    highest := was;
    var todo, done := inBlock.Keys, {};
    while todo != {}
      invariant todo + done == inBlock.Keys && todo !! done && Drained(inBlock, was, done, highest)
      decreases todo
    {
      var op :| op in todo;
      if inBlock[op] != {} {
        LastExists(inBlock[op]);
        var last :| last in inBlock[op] && forall x :: x in inBlock[op] ==> x <= last;
        assert last == Last(inBlock[op]);
        highest := highest[op := last];
      }
      todo, done := todo - {op}, done + {op};
    }
    DrainedAll(inBlock, was, highest);
  }

  class Pallet {
    var inBlock: map<OperatorId, set<nat>>
    var highest: map<OperatorId, nat>
    ghost var accepted: seq<(OperatorId, nat)>
    ghost var earlier: nat

    ghost function State(): Slots
      reads this
    {
      Slots(inBlock, highest, accepted, earlier)
    }

    /** Every accepted slot is remembered, and none was accepted twice. */
    ghost predicate Valid()
      reads this
    {
      SlotsOk(State())
    }

    constructor ()
      ensures State() == Slots(map[], map[], [], 0) && Valid()
    {
      inBlock, highest, accepted, earlier := map[], map[], [], 0;
    }

    /** Accepts a bundle exactly when its slot is above those of earlier blocks and was not used in this one. */
    method Submit(op: OperatorId, slot: nat) returns (failed: bool)
      modifies this
      ensures failed <==> !Admitted(old(State()), op, slot)
      ensures State() == if failed then old(State()) else Record(old(State()), op, slot)
      ensures old(Valid()) ==> Valid()
      ensures old(Valid()) && (op, slot) in old(accepted) ==> failed
      ensures old(Valid()) ==>
                (!failed <==> slot > 0 && !Now(old(State()), op, slot) && AboveEarlier(old(State()), op, slot))
    {
      if old(Valid()) {
        FreshSlots(State(), op, slot);
        if (op, slot) in accepted {
          SeenBefore(State(), op, slot);
        }
        if Admitted(State(), op, slot) {
          RecordKeeps(State(), op, slot);
        }
      }
      var used := if op in inBlock then inBlock[op] else {};
      failed := slot <= (if op in highest then highest[op] else 0) || slot in used;
      if !failed {
        inBlock := inBlock[op := used + {slot}];
        accepted := accepted + [(op, slot)];
      }
    }

    /** At the start of a block the slots of the last one are drained. */
    method OnInitialize()
      modifies this
      ensures State() == FoldIn(old(State()))
      ensures old(Valid()) ==> Valid()
    {
      if old(Valid()) {
        FoldKeeps(State());
      }
      highest := DrainSlots(inBlock, highest);
      inBlock, earlier := map[], |accepted|;
    }
  }
}
