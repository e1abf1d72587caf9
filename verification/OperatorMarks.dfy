/** The statuses of the operators of a domain, as far as receipts change them. */
module OperatorMarks {
  import opened ReceiptTypes
  import opened StakingTypes
  import opened ReceiptChain

  type Statuses = map<OperatorId, OperatorStatus>

  function Slash(st: Statuses, ops: seq<OperatorId>): Statuses {
    map op | op in st :: if op in ops then Slashed else st[op]
  }

  /** Registered authors of bundles reported as invalid may not submit bundles until their receipt is settled. */
  function Mark(st: Statuses, c: Chain, authors: seq<OperatorId>, h: ReceiptHash): Statuses {
    map op | op in st ::
      if op in authors && StatusOf(st[op], IsPending(c, op)) == Registered then InvalidBundle(h) else st[op]
  }

  /** The receipt was fraudulent, so its marks are taken back. */
  function Unmark(st: Statuses, c: Chain, authors: seq<OperatorId>, h: ReceiptHash): Statuses {
    map op | op in st :: if op in authors && !IsPending(c, op) && st[op] == InvalidBundle(h) then Registered else st[op]
  }

  predicate CanSubmit(st: Statuses, c: Chain, op: OperatorId) {
    op in st && var s := StatusOf(st[op], IsPending(c, op)); s.Registered? || s.Deregistered?
  }

  /** Slashed, or no operator any more. */
  predicate Gone(st: Statuses, op: OperatorId) { op in st ==> st[op].Slashed? }

  // ---- Lists of operators, from the back ----

  function SetStatusOf(st: Statuses, id: OperatorId, s: OperatorStatus): Statuses {
    if id in st then st[id := s] else st
  }

  lemma SlashSnoc(st: Statuses, ids: seq<OperatorId>, id: OperatorId)
    ensures Slash(st, ids + [id]) == SetStatusOf(Slash(st, ids), id, Slashed)
  {}

  lemma MarkSnoc(st: Statuses, c: Chain, ids: seq<OperatorId>, id: OperatorId, h: ReceiptHash)
    ensures var m := Mark(st, c, ids, h);
            Mark(st, c, ids + [id], h) ==
            if id in m && StatusOf(m[id], IsPending(c, id)) == Registered
            then SetStatusOf(m, id, InvalidBundle(h)) else m
  {}

  lemma UnmarkSnoc(st: Statuses, c: Chain, ids: seq<OperatorId>, id: OperatorId, h: ReceiptHash)
    ensures var m := Unmark(st, c, ids, h);
            Unmark(st, c, ids + [id], h) ==
            if id in m && !IsPending(c, id) && m[id] == InvalidBundle(h) then SetStatusOf(m, id, Registered) else m
  {}

  lemma Snoc(ids: seq<OperatorId>)
    requires ids != []
    ensures ids == ids[..|ids| - 1] + [ids[|ids| - 1]]
  {}
}
