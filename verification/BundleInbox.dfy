/** The bundles waiting in the inbox of each domain block, and how they settle when the block is confirmed. */
module BundleInbox {
  import opened ReceiptTypes
  import opened TreeTypes
  import opened MapSums
  import opened Splitting

  /** The number of a domain block and of the consensus block it is derived from. */
  type Key = (nat, nat)

  datatype Inbox = Inbox(
    headDomain: nat, digests: map<Key, seq<Digest>>, authors: map<nat, OperatorId>, hashes: map<nat, nat>,
    parentHash: nat, block: nat, bundled: bool)

  function DigestsAt(b: Inbox, number: nat, consensus: nat): seq<Digest> {
    if (number, consensus) in b.digests then b.digests[(number, consensus)] else []
  }

  function DigestsOf(b: Inbox, r: Receipt): seq<Digest> { DigestsAt(b, r.number, r.consensus) }

  /** The authors of the bundles that a receipt reports as invalid. */
  function InvalidAuthors(ds: seq<Digest>, bundles: seq<InboxedBundle>, authors: map<nat, OperatorId>): seq<OperatorId>
    requires |ds| <= |bundles|
  {
    if ds == [] then []
    else
      var k := |ds| - 1;
      InvalidAuthors(ds[..k], bundles, authors)
      + (if ds[k].header in authors && bundles[k].invalid then [authors[ds[k].header]] else [])
  }

  /** Exactly the recorded authors of bundles reported as invalid. */
  lemma {:induction false} InvalidAuthorsAre(ds: seq<Digest>, bundles: seq<InboxedBundle>,
                                             authors: map<nat, OperatorId>, o: OperatorId)
    requires |ds| <= |bundles|
    ensures o in InvalidAuthors(ds, bundles, authors) <==>
            exists i :: 0 <= i < |ds| && ds[i].header in authors && authors[ds[i].header] == o && bundles[i].invalid
  {
    if ds != [] {
      var k := |ds| - 1;
      InvalidAuthorsAre(ds[..k], bundles, authors, o);
      assert forall i :: 0 <= i < k ==> ds[..k][i] == ds[i];
    }
  }

  /** The authors of the bundles reported as invalid; a report shorter than the inbox would abort the call. */
  function AuthorsOf(b: Inbox, r: Receipt): Outcome<seq<OperatorId>> {
    if |DigestsOf(b, r)| > |r.bundles| then Failed(BundleIndexOutOfRange)
    else Done(InvalidAuthors(DigestsOf(b, r), r.bundles, b.authors))
  }

  /** What confirming a block works out: the bundle sizes to refund by author, the authors of invalid bundles, and
      the authors that are still unsettled. */
  datatype Settlement = Settlement(paid: map<OperatorId, nat>, invalid: seq<OperatorId>, authors: map<nat, OperatorId>)

  function SettleOne(s: Settlement, d: Digest, invalid: bool): Settlement {
    if d.header !in s.authors then s
    else
      var author := s.authors[d.header];
      var rest := s.(authors := s.authors - {d.header});
      if invalid then rest.(invalid := s.invalid + [author])
      else rest.(paid := s.paid[author := (if author in s.paid then s.paid[author] else 0) + d.size])
  }

  function Settle(ds: seq<Digest>, bundles: seq<InboxedBundle>, authors: map<nat, OperatorId>): Settlement
    requires |ds| <= |bundles|
  {
    if ds == [] then Settlement(map[], [], authors)
    else
      var k := |ds| - 1;
      SettleOne(Settle(ds[..k], bundles, authors), ds[k], bundles[k].invalid)
  }

  lemma SettleNext(ds: seq<Digest>, bundles: seq<InboxedBundle>, authors: map<nat, OperatorId>, i: nat)
    requires i < |ds| <= |bundles|
    ensures Settle(ds[..i + 1], bundles, authors)
            == SettleOne(Settle(ds[..i], bundles, authors), ds[i], bundles[i].invalid)
  {
    assert ds[..i + 1][..i] == ds[..i];
  }

  /** Settles the bundles of a confirmed receipt and forgets the inbox of its block. */
  function Confirm(b: Inbox, r: Receipt): Outcome<(Inbox, Settlement)> {
    var ds := DigestsOf(b, r);
    if |ds| > |r.bundles| then Failed(BundleIndexOutOfRange)
    else
      var s := Settle(ds, r.bundles, b.authors);
      Done((b.(digests := map k | k in b.digests && k.0 != r.number :: b.digests[k],
               authors := s.authors, hashes := b.hashes - {r.consensus}), s))
  }

  /** The first bundle of a consensus block starts a new domain block. */
  function Append(b: Inbox, d: Digest, op: OperatorId): Inbox {
    var number := if b.bundled then b.headDomain else b.headDomain + 1;
    b.(headDomain := number, bundled := true,
       digests := b.digests[(number, b.block) := DigestsAt(b, number, b.block) + [d]],
       authors := b.authors[d.header := op])
  }

  /** The hash of a consensus block is kept when bundles were submitted in it. */
  function NextBlock(b: Inbox, hash: nat): Inbox {
    b.(hashes := if b.bundled then b.hashes[b.block := hash] else b.hashes,
       parentHash := hash, block := b.block + 1, bundled := false)
  }

  predicate SameRoots(bundles: seq<InboxedBundle>, ds: seq<Digest>) {
    |bundles| == |ds| && forall i :: 0 <= i < |ds| ==> bundles[i].extrinsicsRoot == ds[i].extrinsicsRoot
  }

  // ---- The invariant ----

  /** Where every bundle ever accepted was put, and which bundles are settled. */
  datatype Settled = Settled(places: map<nat, (Key, nat)>, done: set<nat>)

  ghost predicate KeyOk(b: Inbox, k: Key) {
    && 1 <= k.0 <= b.headDomain && k.1 <= b.block
    && (k.1 == b.block ==> b.bundled)
    && (b.bundled && k.0 == b.headDomain ==> k.1 == b.block)
  }

  ghost predicate Holds(b: Inbox, k: Key, i: nat, header: nat) {
    k in b.digests && i < |b.digests[k]| && b.digests[k][i].header == header
  }

  /** Every bundle in the inbox has its author and its own place. */
  ghost predicate InPlace(b: Inbox, places: map<nat, (Key, nat)>) {
    forall k, i :: k in b.digests && 0 <= i < |b.digests[k]| ==>
      var header := b.digests[k][i].header; header in b.authors && header in places && places[header] == (k, i)
  }

  /** Every recorded author has its bundle in the inbox. */
  ghost predicate Authored(b: Inbox, places: map<nat, (Key, nat)>) {
    forall header :: header in b.authors ==> header in places && Holds(b, places[header].0, places[header].1, header)
  }

  /** Each domain block has one inbox, under the consensus block it is derived from. */
  ghost predicate KeysOk(b: Inbox) {
    && (forall k :: k in b.digests ==> KeyOk(b, k) && b.digests[k] != [])
    && (forall k, k' :: k in b.digests && k' in b.digests && k.0 == k'.0 ==> k == k')
    && (forall n :: n in b.hashes ==> n < b.block)
    && (b.bundled ==> b.headDomain > 0)
  }

  /** Every bundle ever accepted is either settled or still has its author recorded, never both. */
  ghost predicate Ledger(authors: map<nat, OperatorId>, past: Settled) {
    past.done + authors.Keys == past.places.Keys && past.done !! authors.Keys
  }

  ghost predicate InboxOk(b: Inbox, past: Settled) {
    KeysOk(b) && InPlace(b, past.places) && Authored(b, past.places) && Ledger(b.authors, past)
  }

  // ---- Settling ----

  ghost predicate Distinct(ds: seq<Digest>) { forall i, j :: 0 <= i < j < |ds| ==> ds[i].header != ds[j].header }

  function Headers(ds: seq<Digest>): set<nat> { set i | 0 <= i < |ds| :: ds[i].header }

  /** The sizes of the bundles reported as valid. */
  function ValidSize(ds: seq<Digest>, bundles: seq<InboxedBundle>): nat
    requires |ds| <= |bundles|
  {
    if ds == [] then 0
    else var k := |ds| - 1; ValidSize(ds[..k], bundles) + (if bundles[k].invalid then 0 else ds[k].size)
  }

  lemma HeadersSnoc(ds: seq<Digest>)
    requires ds != []
    ensures Headers(ds) == Headers(ds[..|ds| - 1]) + {ds[|ds| - 1].header}
    ensures Distinct(ds) ==> Distinct(ds[..|ds| - 1]) && ds[|ds| - 1].header !in Headers(ds[..|ds| - 1])
  {
    var k := |ds| - 1;
    assert forall i :: 0 <= i < k ==> ds[..k][i] == ds[i];
    assert ds[k].header in Headers(ds);
    assert Headers(ds[..k]) <= Headers(ds) by {
      forall x | x in Headers(ds[..k])
        ensures x in Headers(ds)
      {
        var i :| 0 <= i < k && ds[..k][i].header == x;
        assert ds[i].header == x;
      }
    }
  }

  /** Every author of the block is taken exactly once: those of invalid bundles in order, the others with the
      whole size of their bundles. */
  lemma {:induction false} SettleTakesAll(ds: seq<Digest>, bundles: seq<InboxedBundle>, authors: map<nat, OperatorId>)
    requires |ds| <= |bundles| && Distinct(ds) && Headers(ds) <= authors.Keys
    ensures var s := Settle(ds, bundles, authors);
            && s.authors == authors - Headers(ds)
            && s.invalid == InvalidAuthors(ds, bundles, authors)
            && Total(s.paid, Itself()) == ValidSize(ds, bundles)
  {
    if ds == [] {
      TotalZero(Settle(ds, bundles, authors).paid, Itself());
      assert authors - {} == authors;
    } else {
      var k := |ds| - 1;
      HeadersSnoc(ds);
      SettleTakesAll(ds[..k], bundles, authors);
      var s := Settle(ds[..k], bundles, authors);
      TakeOne(authors, Headers(ds[..k]), ds[k].header);
      if !bundles[k].invalid {
        PayOne(s.paid, authors[ds[k].header], ds[k].size);
      }
    }
  }

  /** The sizes of the valid bundles of one author. */
  function PaidTo(ds: seq<Digest>, bundles: seq<InboxedBundle>, authors: map<nat, OperatorId>, a: OperatorId): nat
    requires |ds| <= |bundles|
  {
    if ds == [] then 0
    else
      var k := |ds| - 1;
      PaidTo(ds[..k], bundles, authors, a)
      + (if !bundles[k].invalid && ds[k].header in authors && authors[ds[k].header] == a then ds[k].size else 0)
  }

  /** Each author is refunded exactly the sizes of its own valid bundles. */
  lemma {:induction false} SettlePays(ds: seq<Digest>, bundles: seq<InboxedBundle>, authors: map<nat, OperatorId>,
                                      a: OperatorId)
    requires |ds| <= |bundles| && Distinct(ds) && Headers(ds) <= authors.Keys
    ensures var paid := Settle(ds, bundles, authors).paid;
            (if a in paid then paid[a] else 0) == PaidTo(ds, bundles, authors, a)
  {
    if ds != [] {
      var k := |ds| - 1;
      HeadersSnoc(ds);
      SettlePays(ds[..k], bundles, authors, a);
      SettleTakesAll(ds[..k], bundles, authors);
    }
  }

  lemma TakeOne(authors: map<nat, OperatorId>, taken: set<nat>, header: nat)
    ensures authors - taken - {header} == authors - (taken + {header})
  {}

  lemma PayOne(paid: map<OperatorId, nat>, author: OperatorId, size: nat)
    ensures Total(paid[author := (if author in paid then paid[author] else 0) + size], Itself())
            == Total(paid, Itself()) + size
  {
    var sum: nat := (if author in paid then paid[author] else 0) + size;
    TotalUpdate(paid, Itself(), author, sum);
  }

  /** Authors of other blocks do not change who is invalid in this one. */
  lemma {:induction false} InvalidAuthorsSame(ds: seq<Digest>, bundles: seq<InboxedBundle>,
                                              authors: map<nat, OperatorId>, authors': map<nat, OperatorId>)
    requires |ds| <= |bundles|
    requires forall i :: 0 <= i < |ds| ==> ds[i].header in authors && ds[i].header in authors'
                                           && authors[ds[i].header] == authors'[ds[i].header]
    ensures InvalidAuthors(ds, bundles, authors) == InvalidAuthors(ds, bundles, authors')
  {
    if ds != [] {
      var k := |ds| - 1;
      assert forall i :: 0 <= i < k ==> ds[..k][i] == ds[i];
      InvalidAuthorsSame(ds[..k], bundles, authors, authors');
    }
  }

  // ---- What keeps the invariant ----

  lemma AppendInPlace(b: Inbox, places: map<nat, (Key, nat)>, d: Digest, op: OperatorId)
    requires InPlace(b, places) && d.header !in places
    ensures var b' := Append(b, d, op);
            var k := (b'.headDomain, b.block);
            InPlace(b', places[d.header := (k, |DigestsAt(b, k.0, k.1)|)])
  {
    var b' := Append(b, d, op);
    var k := (b'.headDomain, b.block);
    var places' := places[d.header := (k, |DigestsAt(b, k.0, k.1)|)];
    forall k', i | k' in b'.digests && 0 <= i < |b'.digests[k']|
      ensures var header := b'.digests[k'][i].header;
              header in b'.authors && header in places' && places'[header] == (k', i)
    {
      if k' in b.digests && i < |b.digests[k']| {
        assert b'.digests[k'][i] == b.digests[k'][i];
      } else {
        assert b'.digests[k'][i] == d;
      }
    }
  }

  lemma AppendAuthored(b: Inbox, places: map<nat, (Key, nat)>, d: Digest, op: OperatorId)
    requires Authored(b, places)
    ensures var b' := Append(b, d, op);
            var k := (b'.headDomain, b.block);
            Authored(b', places[d.header := (k, |DigestsAt(b, k.0, k.1)|)])
  {
    var b' := Append(b, d, op);
    var k := (b'.headDomain, b.block);
    var places' := places[d.header := (k, |DigestsAt(b, k.0, k.1)|)];
    forall header | header in b'.authors
      ensures header in places' && Holds(b', places'[header].0, places'[header].1, header)
    {
      if header != d.header {
        assert Holds(b, places[header].0, places[header].1, header);
      }
    }
  }

  lemma AppendKeysOk(b: Inbox, d: Digest, op: OperatorId)
    requires KeysOk(b)
    ensures KeysOk(Append(b, d, op))
  {
    var b' := Append(b, d, op);
    var k := (b'.headDomain, b.block);
    forall k' | k' in b'.digests
      ensures KeyOk(b', k') && b'.digests[k'] != [] && (k'.0 == k.0 ==> k' == k)
    {
      assert k' != k ==> KeyOk(b, k');
    }
  }

  lemma LedgerGrows(authors: map<nat, OperatorId>, past: Settled, header: nat, op: OperatorId, place: (Key, nat))
    requires Ledger(authors, past) && header !in past.places
    ensures Ledger(authors[header := op], past.(places := past.places[header := place]))
  {}

  lemma LedgerSettles(authors: map<nat, OperatorId>, past: Settled, taken: set<nat>)
    requires Ledger(authors, past) && taken <= authors.Keys
    ensures Ledger(authors - taken, past.(done := past.done + taken))
  {
    assert (authors - taken).Keys == authors.Keys - taken;
  }

  /** A bundle with a new header hash goes to one new place. */
  lemma AppendKeeps(b: Inbox, past: Settled, d: Digest, op: OperatorId)
    requires InboxOk(b, past) && d.header !in past.places
    ensures var b' := Append(b, d, op);
            var k := (b'.headDomain, b.block);
            InboxOk(b', past.(places := past.places[d.header := (k, |DigestsAt(b, k.0, k.1)|)]))
    ensures forall number: nat, consensus: nat :: consensus < b.block ==>
              DigestsAt(Append(b, d, op), number, consensus) == DigestsAt(b, number, consensus)
  {
    AppendInPlace(b, past.places, d, op);
    AppendAuthored(b, past.places, d, op);
    AppendKeysOk(b, d, op);
    var k := (Append(b, d, op).headDomain, b.block);
    LedgerGrows(b.authors, past, d.header, op, (k, |DigestsAt(b, k.0, k.1)|));
  }

  lemma NextBlockKeeps(b: Inbox, past: Settled, hash: nat)
    requires InboxOk(b, past)
    ensures InboxOk(NextBlock(b, hash), past)
  {
    var b' := NextBlock(b, hash);
    forall header | header in b'.authors
      ensures header in past.places && Holds(b', past.places[header].0, past.places[header].1, header)
    {
      assert Holds(b, past.places[header].0, past.places[header].1, header);
    }
  }

  lemma HeadersInPlace(b: Inbox, past: Settled, k: Key)
    requires InboxOk(b, past)
    ensures var ds := DigestsAt(b, k.0, k.1);
            Distinct(ds) && Headers(ds) <= b.authors.Keys
  {
    var ds := DigestsAt(b, k.0, k.1);
    forall i, j | 0 <= i < j < |ds|
      ensures ds[i].header != ds[j].header
    {
      assert past.places[ds[i].header] == (k, i) && past.places[ds[j].header] == (k, j);
    }
  }

  /** The inbox that a receipt was checked against. */
  ghost predicate Matches(b: Inbox, r: Receipt) {
    if r.number == 0 then true
    else
      && (r.number, r.consensus) in b.digests && r.consensus < b.block
      && SameRoots(r.bundles, DigestsOf(b, r))
  }

  /** Headers placed elsewhere are not among those of a key. */
  lemma OtherHeaders(b: Inbox, past: Settled, k: Key, header: nat)
    requires InboxOk(b, past) && header in b.authors
    ensures header in Headers(DigestsAt(b, k.0, k.1)) <==> past.places[header].0 == k
  {
    var ds := DigestsAt(b, k.0, k.1);
    assert Holds(b, past.places[header].0, past.places[header].1, header);
    if header in Headers(ds) {
      var i :| 0 <= i < |ds| && ds[i].header == header;
      assert past.places[ds[i].header] == (k, i);
    }
  }

  /** Confirming a block settles exactly the bundles of that block, and no other. */
  lemma ConfirmKeeps(b: Inbox, past: Settled, r: Receipt)
    requires InboxOk(b, past) && Matches(b, r)
    ensures Confirm(b, r).Done?
    ensures var (b', s) := Confirm(b, r).value;
            && b'.authors == b.authors - Headers(DigestsOf(b, r))
            && s.invalid == InvalidAuthors(DigestsOf(b, r), r.bundles, b.authors)
            && Total(s.paid, Itself()) == ValidSize(DigestsOf(b, r), r.bundles)
            && InboxOk(b', past.(done := past.done + Headers(DigestsOf(b, r))))
  {
    var k := (r.number, r.consensus);
    HeadersInPlace(b, past, k);
    if r.number == 0 {
      assert k !in b.digests;
    }
    SettleTakesAll(DigestsOf(b, r), r.bundles, b.authors);
    ConfirmPlaces(b, past, r);
  }

  lemma ConfirmPlaces(b: Inbox, past: Settled, r: Receipt)
    requires InboxOk(b, past) && Matches(b, r) && |DigestsOf(b, r)| <= |r.bundles|
    requires Settle(DigestsOf(b, r), r.bundles, b.authors).authors == b.authors - Headers(DigestsOf(b, r))
    requires Headers(DigestsOf(b, r)) <= b.authors.Keys
    ensures var b' := Confirm(b, r).value.0;
            InboxOk(b', past.(done := past.done + Headers(DigestsOf(b, r))))
  {
    var k := (r.number, r.consensus);
    var taken := Headers(DigestsOf(b, r));
    forall header | header in b.authors
      ensures header in taken <==> past.places[header].0 == k
    {
      OtherHeaders(b, past, k, header);
    }
    LedgerSettles(b.authors, past, taken);
    var b' := Confirm(b, r).value.0;
    DropBlockKeeps(b, b', past.places, r.number, k, taken);
  }

  lemma DropBlockKeeps(b: Inbox, b': Inbox, places: map<nat, (Key, nat)>, number: nat, k: Key, taken: set<nat>)
    requires KeysOk(b) && InPlace(b, places) && Authored(b, places) && k.0 == number
    requires number == 0 || k in b.digests
    requires forall header :: header in b.authors ==> (header in taken <==> places[header].0 == k)
    requires b'.digests == map k' | k' in b.digests && k'.0 != number :: b.digests[k']
    requires b'.authors == b.authors - taken
    requires b'.hashes.Keys <= b.hashes.Keys && b'.block == b.block && b'.bundled == b.bundled
    requires b'.headDomain == b.headDomain
    ensures KeysOk(b') && InPlace(b', places) && Authored(b', places)
  {
    forall header | header in b'.authors
      ensures header in places && Holds(b', places[header].0, places[header].1, header)
    {
      assert Holds(b, places[header].0, places[header].1, header);
    }
    forall k', i | k' in b'.digests && 0 <= i < |b'.digests[k']|
      ensures var header := b'.digests[k'][i].header;
              header in b'.authors && header in places && places[header] == (k', i)
    {
      assert places[b.digests[k'][i].header] == (k', i);
    }
    forall k' | k' in b'.digests
      ensures KeyOk(b', k') && b'.digests[k'] != []
    {
      assert KeyOk(b, k');
    }
  }

  // ---- What the inbox keeps for stored receipts ----

  /** The receipt still matches its inbox and reports the same authors. */
  ghost predicate Undisturbed(b: Inbox, b': Inbox, r: Receipt) {
    Matches(b', r) && AuthorsOf(b', r) == AuthorsOf(b, r)
  }

  lemma SameInboxUndisturbed(b: Inbox, b': Inbox, r: Receipt)
    requires Matches(b, r) && b.block <= b'.block && DigestsOf(b', r) == DigestsOf(b, r)
    requires (r.number, r.consensus) in b.digests ==> (r.number, r.consensus) in b'.digests
    requires forall d :: d in DigestsOf(b, r) ==> d.header in b.authors && d.header in b'.authors
                                                  && b'.authors[d.header] == b.authors[d.header]
    ensures Undisturbed(b, b', r)
  {
    if |DigestsOf(b, r)| <= |r.bundles| {
      InvalidAuthorsSame(DigestsOf(b, r), r.bundles, b.authors, b'.authors);
    }
  }

  lemma AppendUndisturbed(b: Inbox, past: Settled, d: Digest, op: OperatorId, r: Receipt)
    requires InboxOk(b, past) && Matches(b, r) && d.header !in past.places
    ensures Undisturbed(b, Append(b, d, op), r)
  {
    SameInboxUndisturbed(b, Append(b, d, op), r);
  }

  lemma NextBlockUndisturbed(b: Inbox, past: Settled, hash: nat, r: Receipt)
    requires InboxOk(b, past) && Matches(b, r)
    ensures Undisturbed(b, NextBlock(b, hash), r)
  {
    SameInboxUndisturbed(b, NextBlock(b, hash), r);
  }

  lemma ConfirmUndisturbed(b: Inbox, past: Settled, confirmed: Receipt, r: Receipt)
    requires InboxOk(b, past) && Matches(b, r) && Matches(b, confirmed) && confirmed.number != r.number
    ensures Confirm(b, confirmed).Done? && Undisturbed(b, Confirm(b, confirmed).value.0, r)
  {
    ConfirmKeeps(b, past, confirmed);
    var k := (confirmed.number, confirmed.consensus);
    forall d | d in DigestsOf(b, r)
      ensures d.header in b.authors && d.header !in Headers(DigestsOf(b, confirmed))
    {
      var i :| 0 <= i < |DigestsOf(b, r)| && DigestsOf(b, r)[i] == d;
      assert past.places[b.digests[(r.number, r.consensus)][i].header] == ((r.number, r.consensus), i);
      OtherHeaders(b, past, k, d.header);
    }
    SameInboxUndisturbed(b, Confirm(b, confirmed).value.0, r);
  }
}
