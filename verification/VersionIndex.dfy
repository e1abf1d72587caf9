/** The compressed index of bundle and receipt versions by consensus block. */
module VersionIndex {
  import opened StakingTypes

  /** `version` was in force up to and including block `number`. An ordered map is the sequence of its entries. */
  datatype Entry<V> = Entry(number: nat, version: V)

  ghost predicate Ascending<V>(m: seq<Entry<V>>) {
    forall i, j :: 0 <= i < j < |m| ==> m[i].number < m[j].number
  }

  /** Insertion into an ordered map. */
  function Insert<V>(m: seq<Entry<V>>, e: Entry<V>): seq<Entry<V>> {
    if m == [] || e.number < m[0].number then [e] + m
    else if e.number == m[0].number then [e] + m[1..]
    else [m[0]] + Insert(m[1..], e)
  }

  /** Records that `current` was in force up to `block`, extending the last entry when it has the same version. */
  function Update<V(==)>(block: nat, m: seq<Entry<V>>, current: V): seq<Entry<V>> {
    if m == [] then Insert(m, Entry(block, current))
    else
      var k := |m| - 1;
      if m[k].version == current then Insert(m[..k], Entry(block, current))
      else Insert(Insert(m[..k], m[k]), Entry(block, current))
  }

  /** The version of the first entry at or after a block. */
  function Find<V>(m: seq<Entry<V>>, n: nat): Option<V> {
    if m == [] then None else if n <= m[0].number then Some(m[0].version) else Find(m[1..], n)
  }

  /** The version in force at a block, by the full history of upgrades. */
  function VersionAt<V>(history: seq<Entry<V>>, n: nat, current: V): V {
    var r := Find(history, n);
    if r.Some? then r.value else current
  }

  /** Looks a block up, first at the end of the index and then from its start. */
  method Lookup<V>(n: nat, m: seq<Entry<V>>, current: V) returns (r: Option<V>)
    requires Ascending(m)
    ensures r == Some(VersionAt(m, n, current))
  {
    if m == [] {
      return Some(current);
    }
    var last := m[|m| - 1];
    if n > last.number {
      FindPast(m, n);
      return Some(current);
    }
    if n == last.number {
      FindFirst(m, n, |m| - 1);
      return Some(last.version);
    }
    for i := 0 to |m|
      invariant forall j :: 0 <= j < i ==> m[j].number < n
    {
      if n <= m[i].number {
        FindFirst(m, n, i);
        return Some(m[i].version);
      }
    }
    r := None;
  }

  lemma {:induction false} FindFirst<V>(m: seq<Entry<V>>, n: nat, i: nat)
    requires i < |m| && n <= m[i].number && forall j :: 0 <= j < i ==> m[j].number < n
    ensures Find(m, n) == Some(m[i].version)
  {
    if i > 0 {
      assert forall j :: 0 <= j < i - 1 ==> m[1..][j] == m[j + 1];
      FindFirst(m[1..], n, i - 1);
    }
  }

  lemma {:induction false} FindPast<V>(m: seq<Entry<V>>, n: nat)
    requires forall j :: 0 <= j < |m| ==> m[j].number < n
    ensures Find(m, n).None?
  {
    if m != [] {
      assert forall j :: 0 <= j < |m| - 1 ==> m[1..][j] == m[j + 1];
      FindPast(m[1..], n);
    }
  }

  lemma {:induction false} FindAppend<V>(m: seq<Entry<V>>, e: Entry<V>, n: nat)
    ensures Find(m + [e], n) == if Find(m, n).Some? then Find(m, n) else if n <= e.number then Some(e.version) else None
  {
    if m == [] {
      assert [] + [e] == [e];
    } else {
      assert (m + [e])[1..] == m[1..] + [e];
      FindAppend(m[1..], e, n);
    }
  }

  lemma {:induction false} InsertLast<V>(m: seq<Entry<V>>, e: Entry<V>)
    requires forall j :: 0 <= j < |m| ==> m[j].number < e.number
    ensures Insert(m, e) == m + [e]
  {
    if m != [] {
      assert forall j :: 0 <= j < |m| - 1 ==> m[1..][j] == m[j + 1];
      InsertLast(m[1..], e);
    }
  }

  /** The index after a whole history of upgrades. */
  function Merge<V(==)>(history: seq<Entry<V>>): seq<Entry<V>> {
    if history == [] then []
    else var k := |history| - 1; Update(history[k].number, Merge(history[..k]), history[k].version)
  }

  /** Neighbouring entries have different versions. */
  ghost predicate Compressed<V>(m: seq<Entry<V>>) {
    Ascending(m) && forall i, j :: 0 <= i && j == i + 1 < |m| ==> m[i].version != m[j].version
  }

  lemma UpdateIs<V>(block: nat, m: seq<Entry<V>>, current: V)
    requires Ascending(m) && (m != [] ==> m[|m| - 1].number < block)
    ensures Update(block, m, current) ==
            if m != [] && m[|m| - 1].version == current then m[..|m| - 1] + [Entry(block, current)]
            else m + [Entry(block, current)]
  {
    if m == [] {
      InsertLast(m, Entry(block, current));
    } else {
      var k := |m| - 1;
      assert forall j :: 0 <= j < k ==> m[..k][j] == m[j];
      InsertLast(m[..k], Entry(block, current));
      InsertLast(m[..k], m[k]);
      assert m[..k] + [m[k]] == m;
      InsertLast(m, Entry(block, current));
    }
  }

  lemma UpdateFinds<V>(block: nat, m: seq<Entry<V>>, current: V, n: nat)
    requires Ascending(m) && (m != [] ==> m[|m| - 1].number < block)
    ensures Find(Update(block, m, current), n) ==
            if Find(m, n).Some? then Find(m, n) else if n <= block then Some(current) else None
  {
    UpdateIs(block, m, current);
    FindAppend(m, Entry(block, current), n);
    if m != [] && m[|m| - 1].version == current {
      var k := |m| - 1;
      assert m[..k] + [m[k]] == m;
      FindAppend(m[..k], m[k], n);
      FindAppend(m[..k], Entry(block, current), n);
    }
  }

  lemma UpdateCompressed<V>(block: nat, m: seq<Entry<V>>, current: V)
    requires Compressed(m) && (m != [] ==> m[|m| - 1].number < block)
    ensures var m' := Update(block, m, current);
            Compressed(m') && m' != [] && m'[|m'| - 1] == Entry(block, current)
  {
    UpdateIs(block, m, current);
  }

  lemma {:induction false} MergeCompressed<V>(history: seq<Entry<V>>)
    requires Ascending(history)
    ensures Compressed(Merge(history))
    ensures history != [] ==> Merge(history) != [] && Merge(history)[|Merge(history)| - 1] == history[|history| - 1]
    ensures history == [] ==> Merge(history) == []
  {
    if history != [] {
      var k := |history| - 1;
      MergeCompressed(history[..k]);
      UpdateCompressed(history[k].number, Merge(history[..k]), history[k].version);
    }
  }

  lemma IndexStep<V>(history: seq<Entry<V>>, m: seq<Entry<V>>, e: Entry<V>, n: nat)
    requires Find(m, n) == Find(history, n) && Ascending(m) && (m != [] ==> m[|m| - 1].number < e.number)
    ensures Find(Update(e.number, m, e.version), n) == Find(history + [e], n)
  {
    UpdateFinds(e.number, m, e.version, n);
    FindAppend(history, e, n);
  }

  /** After any upgrades at increasing blocks, the index gives for every block the version of the first upgrade at or
      after it, or the current one: the same as the full history. */
  lemma {:induction false} IndexRefinesHistory<V>(history: seq<Entry<V>>, n: nat, current: V)
    requires Ascending(history)
    ensures Find(Merge(history), n) == Find(history, n)
    ensures VersionAt(Merge(history), n, current) == VersionAt(history, n, current)
    decreases |history|
  {
    if history != [] {
      var h := history[..|history| - 1];
      IndexRefinesHistory(h, n, current);
      IndexGrows(h, history, n);
    }
  }

  lemma IndexGrows<V>(h: seq<Entry<V>>, history: seq<Entry<V>>, n: nat)
    requires Ascending(history) && history != [] && h == history[..|history| - 1]
    requires Find(Merge(h), n) == Find(h, n)
    ensures Find(Merge(history), n) == Find(history, n)
  {
    var e := history[|history| - 1];
    MergeCompressed(h);
    assert h + [e] == history;
    IndexStep(h, Merge(h), e, n);
  }
}
