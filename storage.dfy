/** services/storageService.ts: the IndexedDB database of the application, with one object
    store for the business context and one for the generation history, both keyed by `id`.
    Each store is the sequence of its records in key order, which is the order `getAll`
    returns them in. Each operation is one transaction that commits or fails as a whole. */
module Storage {
  import opened Wrappers
  import opened Types

  /** How a database operation rejects: IndexedDB is missing from the browser
      (`openDB`), or the transaction of an `add` whose key is already stored fails. The
      value the promise rejects with is not modelled; no caller reads it. */
  datatype StoreError = NotSupported | AddFailed

  // ---------------------------------------------------------------- keys

  /** The order on string keys, character by character with a proper prefix first. Dafny
      compares characters by scalar value where IndexedDB compares UTF-16 code units; the
      two agree below U+D800, which covers the digit strings used as ids. */
  predicate KeyLess(a: string, b: string)
    decreases |a|
  {
    if a == [] then b != []
    else if b == [] then false
    else a[0] < b[0] || (a[0] == b[0] && KeyLess(a[1..], b[1..]))
  }

  lemma {:induction false} KeyLessIrreflexive(a: string)
    ensures !KeyLess(a, a)
    decreases |a|
  {
    if a != [] {
      KeyLessIrreflexive(a[1..]);
    }
  }

  lemma {:induction false} KeyLessTransitive(a: string, b: string, c: string)
    requires KeyLess(a, b) && KeyLess(b, c)
    ensures KeyLess(a, c)
    decreases |a|
  {
    if a != [] && b != [] && c != [] && a[0] == b[0] && b[0] == c[0] {
      KeyLessTransitive(a[1..], b[1..], c[1..]);
    }
  }

  /** Distinct keys are always ordered one way or the other. */
  lemma {:induction false} KeyLessTotal(a: string, b: string)
    requires a != b
    ensures KeyLess(a, b) || KeyLess(b, a)
    decreases |a|
  {
    if a != [] && b != [] && a[0] == b[0] {
      assert a == [a[0]] + a[1..] && b == [b[0]] + b[1..];
      KeyLessTotal(a[1..], b[1..]);
    }
  }

  // ---------------------------------------------------------------- history store

  function IdsOf(table: seq<GeneratedResult>): set<string> {
    set r | r in table :: r.id
  }

  /** The records are in strictly increasing key order, so no key is stored twice. */
  predicate KeyOrdered(table: seq<GeneratedResult>) {
    forall i, j :: 0 <= i < j < |table| ==> KeyLess(table[i].id, table[j].id)
  }

  /** `store.add(r)` for a key not yet stored: `r` goes to its key position. */
  function InsertByKey(table: seq<GeneratedResult>, r: GeneratedResult): (t: seq<GeneratedResult>)
    ensures multiset(t) == multiset(table) + multiset{r}
    ensures |t| == |table| + 1
    decreases |table|
  {
    if table == [] then [r]
    else if KeyLess(r.id, table[0].id) then [r] + table
    else
      assert table == [table[0]] + table[1..];
      [table[0]] + InsertByKey(table[1..], r)
  }

  /** A record whose key is below every stored key, or one that follows the first record. */
  lemma PrependKeepsKeyOrder(first: GeneratedResult, rest: seq<GeneratedResult>)
    requires KeyOrdered(rest)
    requires forall x :: x in rest ==> KeyLess(first.id, x.id)
    ensures KeyOrdered([first] + rest)
  {
    var t := [first] + rest;
    forall i, j | 0 <= i < j < |t|
      ensures KeyLess(t[i].id, t[j].id)
    {
      if i == 0 {
        assert t[j] == rest[j - 1] && rest[j - 1] in rest;
      } else {
        assert t[i] == rest[i - 1] && t[j] == rest[j - 1];
      }
    }
  }

  lemma {:induction false} InsertKeepsKeyOrder(table: seq<GeneratedResult>, r: GeneratedResult)
    requires KeyOrdered(table) && r.id !in IdsOf(table)
    ensures KeyOrdered(InsertByKey(table, r))
    decreases |table|
  {
    if table == [] {
    } else if KeyLess(r.id, table[0].id) {
      forall x | x in table
        ensures KeyLess(r.id, x.id)
      {
        var j :| 0 <= j < |table| && table[j] == x;
        if j > 0 {
          KeyLessTransitive(r.id, table[0].id, x.id);
        }
      }
      PrependKeepsKeyOrder(r, table);
    } else {
      var rest := table[1..];
      assert table[0] in table;
      KeyLessTotal(r.id, table[0].id);
      assert IdsOf(rest) <= IdsOf(table) by {
        forall x | x in rest ensures x in table { }
      }
      assert KeyOrdered(rest);
      InsertKeepsKeyOrder(rest, r);
      var tail := InsertByKey(rest, r);
      forall x | x in tail
        ensures KeyLess(table[0].id, x.id)
      {
        assert x in multiset(tail);
        if x != r {
          assert x in multiset(rest);
          var k :| 0 <= k < |rest| && rest[k] == x;
          assert rest[k] == table[k + 1];
        }
      }
      PrependKeepsKeyOrder(table[0], tail);
    }
  }

  /** `store.delete(id)`: every record with another key stays, in order. */
  function RemoveKey(table: seq<GeneratedResult>, id: string): (t: seq<GeneratedResult>)
    ensures forall r :: r in t <==> r in table && r.id != id
    decreases |table|
  {
    if table == [] then []
    else if table[0].id == id then RemoveKey(table[1..], id)
    else [table[0]] + RemoveKey(table[1..], id)
  }

  lemma {:induction false} RemoveAbsentKey(table: seq<GeneratedResult>, id: string)
    requires id !in IdsOf(table)
    ensures RemoveKey(table, id) == table
    decreases |table|
  {
    if table != [] {
      assert table[0] in table;
      assert IdsOf(table[1..]) <= IdsOf(table) by {
        forall x | x in table[1..] ensures x in table { }
      }
      RemoveAbsentKey(table[1..], id);
      assert table == [table[0]] + table[1..];
    }
  }

  lemma {:induction false} RemoveKeepsKeyOrder(table: seq<GeneratedResult>, id: string)
    requires KeyOrdered(table)
    ensures KeyOrdered(RemoveKey(table, id))
    decreases |table|
  {
    if table != [] {
      RemoveKeepsKeyOrder(table[1..], id);
      var rest := RemoveKey(table[1..], id);
      if table[0].id != id {
        forall j | 0 <= j < |rest|
          ensures KeyLess(table[0].id, rest[j].id)
        {
          assert rest[j] in rest;
          var k :| 0 <= k < |table[1..]| && table[1..][k] == rest[j];
          assert table[k + 1] == rest[j];
        }
      }
    }
  }

  // ---------------------------------------------------------------- getHistory order

  /** The order `getHistory` returns: newer first; equal timestamps in key order, because
      `getAll` yields key order and Array.prototype.sort is stable. */
  predicate Before(a: GeneratedResult, b: GeneratedResult) {
    a.timestamp > b.timestamp || (a.timestamp == b.timestamp && KeyLess(a.id, b.id))
  }

  predicate NewestFirst(r: seq<GeneratedResult>) {
    forall i, j :: 0 <= i < j < |r| ==> Before(r[i], r[j])
  }

  /** One step of a stable sort with comparator `b.timestamp - a.timestamp`: `x` goes after
      every record that is at least as new. */
  function InsertByTime(sorted: seq<GeneratedResult>, x: GeneratedResult): (r: seq<GeneratedResult>)
    ensures multiset(r) == multiset(sorted) + multiset{x}
    decreases |sorted|
  {
    if sorted == [] then [x]
    else if sorted[0].timestamp < x.timestamp then [x] + sorted
    else
      assert sorted == [sorted[0]] + sorted[1..];
      [sorted[0]] + InsertByTime(sorted[1..], x)
  }

  /** `records.sort((a, b) => b.timestamp - a.timestamp)`. */
  function SortByTime(records: seq<GeneratedResult>): (r: seq<GeneratedResult>)
    ensures multiset(r) == multiset(records)
    decreases |records|
  {
    if records == [] then []
    else
      var n := |records| - 1;
      assert records == records[..n] + [records[n]];
      InsertByTime(SortByTime(records[..n]), records[n])
  }

  lemma {:induction false} InsertByTimeOrdered(sorted: seq<GeneratedResult>, x: GeneratedResult)
    requires NewestFirst(sorted)
    requires forall e :: e in sorted ==> KeyLess(e.id, x.id)
    ensures NewestFirst(InsertByTime(sorted, x))
    decreases |sorted|
  {
    if sorted != [] {
      if sorted[0].timestamp < x.timestamp {
        forall j | 0 <= j < |sorted|
          ensures Before(x, sorted[j])
        {
          assert j == 0 || Before(sorted[0], sorted[j]);
        }
        ConsNewestFirst(x, sorted);
      } else {
        var rest := sorted[1..];
        NewestFirstTail(sorted);
        assert forall e :: e in rest ==> e in sorted;
        InsertByTimeOrdered(rest, x);
        HeadBeforeInserted(sorted, x);
        ConsNewestFirst(sorted[0], InsertByTime(rest, x));
      }
    }
  }

  /** A record before every entry of a newest-first list can be put in front of it. */
  lemma ConsNewestFirst(h: GeneratedResult, tail: seq<GeneratedResult>)
    requires NewestFirst(tail)
    requires forall j :: 0 <= j < |tail| ==> Before(h, tail[j])
    ensures NewestFirst([h] + tail)
  {
    var r := [h] + tail;
    forall i, j | 0 <= i < j < |r| ensures Before(r[i], r[j]) {
      assert r[j] == tail[j - 1];
      if i > 0 {
        assert r[i] == tail[i - 1];
      }
    }
  }

  /** When `x` is not newer than the head, the head stays before everything the insertion
      into the rest produces. */
  lemma HeadBeforeInserted(sorted: seq<GeneratedResult>, x: GeneratedResult)
    requires sorted != [] && NewestFirst(sorted) && KeyLess(sorted[0].id, x.id)
    requires sorted[0].timestamp >= x.timestamp
    ensures forall j :: 0 <= j < |InsertByTime(sorted[1..], x)| ==> Before(sorted[0], InsertByTime(sorted[1..], x)[j])
  {
    var rest := sorted[1..];
    var tail := InsertByTime(rest, x);
    forall j | 0 <= j < |tail|
      ensures Before(sorted[0], tail[j])
    {
      assert tail[j] in multiset(tail);
      if tail[j] != x {
        assert tail[j] in multiset(rest);
        var k :| 0 <= k < |rest| && rest[k] == tail[j];
        assert rest[k] == sorted[k + 1];
      }
    }
  }

  /** Sorting a key-ordered store gives a newest-first list in which records with equal
      timestamps keep their key order, holding exactly the stored records. */
  lemma {:induction false} SortByTimeOrdered(records: seq<GeneratedResult>)
    requires KeyOrdered(records)
    ensures NewestFirst(SortByTime(records))
    decreases |records|
  {
    if records != [] {
      var n := |records| - 1;
      var init := records[..n];
      assert KeyOrdered(init);
      SortByTimeOrdered(init);
      forall e | e in SortByTime(init)
        ensures KeyLess(e.id, records[n].id)
      {
        assert e in multiset(SortByTime(init));
        assert e in multiset(init);
        var k :| 0 <= k < n && init[k] == e;
      }
      InsertByTimeOrdered(SortByTime(init), records[n]);
    }
  }

  lemma SameFirst(a: seq<GeneratedResult>, b: seq<GeneratedResult>)
    requires NewestFirst(a) && NewestFirst(b) && multiset(a) == multiset(b) && a != []
    ensures b != [] && a[0] == b[0]
  {
    assert a[0] in multiset(b);
    var i :| 0 <= i < |b| && b[i] == a[0];
    assert b[0] in multiset(a);
    var j :| 0 <= j < |a| && a[j] == b[0];
    if i != 0 {
      if j == 0 {
        KeyLessIrreflexive(b[0].id);
        assert false;
      } else {
        BeforeAsymmetric(a[0], b[0]);
        assert false;
      }
    }
  }

  /** Newest-first is a strict total order on records with distinct keys, so it fixes the
      result: two newest-first lists of the same records are equal. */
  lemma {:induction false} NewestFirstUnique(a: seq<GeneratedResult>, b: seq<GeneratedResult>)
    requires NewestFirst(a) && NewestFirst(b) && multiset(a) == multiset(b)
    ensures a == b
    decreases |a|
  {
    if a != [] {
      SameFirst(a, b);
      SameTail(a, b);
      NewestFirstTail(a);
      NewestFirstTail(b);
      NewestFirstUnique(a[1..], b[1..]);
      assert a == [a[0]] + a[1..] && b == [b[0]] + b[1..];
    }
  }

  lemma SameTail(a: seq<GeneratedResult>, b: seq<GeneratedResult>)
    requires a != [] && b != [] && a[0] == b[0] && multiset(a) == multiset(b)
    ensures multiset(a[1..]) == multiset(b[1..])
  {
    assert a == [a[0]] + a[1..] && b == [b[0]] + b[1..];
    assert multiset(a[1..]) == multiset(a) - multiset{a[0]} == multiset(b[1..]);
  }

  lemma NewestFirstTail(a: seq<GeneratedResult>)
    requires a != [] && NewestFirst(a)
    ensures NewestFirst(a[1..])
  {
    forall i, j | 0 <= i < j < |a| - 1 ensures Before(a[1..][i], a[1..][j]) {
      assert a[1..][i] == a[i + 1] && a[1..][j] == a[j + 1];
    }
  }

  lemma BeforeAsymmetric(x: GeneratedResult, y: GeneratedResult)
    ensures !(Before(x, y) && Before(y, x))
  {
    if Before(x, y) && Before(y, x) {
      KeyLessTransitive(x.id, y.id, x.id);
      KeyLessIrreflexive(x.id);
    }
  }

  // ---------------------------------------------------------------- the database

  /** The database: whether the browser provides IndexedDB, and the two stores. */
  class Database {
    const supported: bool
    var contexts: seq<BusinessContext>
    var history: seq<GeneratedResult>

    /** The context store holds at most the one record `saveContext` wrote, and the history
        store holds each key once, in key order. */
    ghost predicate Valid()
      reads this
    {
      |contexts| <= 1 && KeyOrdered(history)
    }

    constructor (supported: bool)
      ensures this.supported == supported && contexts == [] && history == [] && Valid()
    {
      this.supported := supported;
      contexts := [];
      history := [];
    }

    /** `saveContext` (lines 32-43): clear the store, then add the context. */
    method SaveContext(context: BusinessContext) returns (r: Result<(), StoreError>)
      requires Valid()
      modifies this
      ensures Valid()
      ensures supported ==> r.Ok? && contexts == [context]
      ensures !supported ==> r == Err(NotSupported) && contexts == old(contexts)
      ensures history == old(history)
    {
      if !supported {
        return Err(NotSupported);
      }
      contexts := [];
      contexts := contexts + [context];
      return Ok(());
    }

    /** `getContext` (lines 45-57): the first record of the store, or null. */
    method GetContext() returns (r: Result<Option<BusinessContext>, StoreError>)
      ensures !supported ==> r == Err(NotSupported)
      ensures supported ==> r.Ok?
      ensures r.Ok? ==> (r.value.Some? <==> contexts != [])
      ensures r.Ok? && r.value.Some? ==> r.value.value == contexts[0]
    {
      if !supported {
        return Err(NotSupported);
      }
      var results := contexts;
      r := Ok(if |results| > 0 then Some(results[0]) else None);
    }

    /** `saveResult` (lines 59-68): `add`, which fails the transaction on a stored key. */
    method SaveResult(result: GeneratedResult) returns (r: Result<(), StoreError>)
      requires Valid()
      modifies this
      ensures Valid()
      ensures !supported ==> r == Err(NotSupported) && history == old(history)
      ensures supported && result.id in IdsOf(old(history)) ==>
        r == Err(AddFailed) && history == old(history)
      ensures supported && result.id !in IdsOf(old(history)) ==>
        r.Ok? && multiset(history) == multiset(old(history)) + multiset{result}
      ensures contexts == old(contexts)
    {
      if !supported {
        return Err(NotSupported);
      }
      if result.id in IdsOf(history) {
        return Err(AddFailed);
      }
      InsertKeepsKeyOrder(history, result);
      history := InsertByKey(history, result);
      return Ok(());
    }

    /** `getHistory` (lines 70-83): every stored result, newest first. */
    method GetHistory() returns (r: Result<seq<GeneratedResult>, StoreError>)
      requires Valid()
      ensures !supported ==> r == Err(NotSupported)
      ensures supported ==> r.Ok? && multiset(r.value) == multiset(history) && NewestFirst(r.value)
    {
      if !supported {
        return Err(NotSupported);
      }
      var all := history;
      SortByTimeOrdered(all);
      var sorted := SortByTime(all);
      return Ok(sorted);
    }

    /** `deleteResult` (lines 85-94). */
    method DeleteResult(id: string) returns (r: Result<(), StoreError>)
      requires Valid()
      modifies this
      ensures Valid()
      ensures !supported ==> r == Err(NotSupported) && history == old(history)
      ensures supported ==> r.Ok? && forall x :: x in history <==> x in old(history) && x.id != id
      ensures id !in IdsOf(old(history)) ==> history == old(history)
      ensures contexts == old(contexts)
    {
      if !supported {
        return Err(NotSupported);
      }
      RemoveKeepsKeyOrder(history, id);
      if id !in IdsOf(history) {
        RemoveAbsentKey(history, id);
      }
      history := RemoveKey(history, id);
      return Ok(());
    }

    /** `clearData` (lines 96-105): both stores in one transaction. */
    method ClearData() returns (r: Result<(), StoreError>)
      requires Valid()
      modifies this
      ensures Valid()
      ensures supported ==> r.Ok? && contexts == [] && history == []
      ensures !supported ==> r == Err(NotSupported) && contexts == old(contexts) && history == old(history)
    {
      if !supported {
        return Err(NotSupported);
      }
      contexts := [];
      history := [];
      return Ok(());
    }
  }
}
