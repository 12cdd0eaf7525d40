/**
 * One Dexie table as a map from primary key to record, and the table
 * operations the store uses: `put`, `bulkPut`, `bulkAdd` and `toArray`.
 */
module Tables {
  import opened Wrappers
  import opened Lists

  /** Every record is stored under its own primary key. */
  ghost predicate Keyed<R>(t: map<string, R>, key: R -> string) {
    forall k :: k in t ==> key(t[k]) == k
  }

  /** No two records of `records` share a primary key. */
  predicate UniqueKeys<R>(records: seq<R>, key: R -> string) {
    forall a, b :: 0 <= a < b < |records| ==> key(records[a]) != key(records[b])
  }

  function KeysOf<R(==)>(records: seq<R>, key: R -> string): set<string> {
    set x | x in records :: key(x)
  }

  lemma KeysOfSnoc<R>(records: seq<R>, x: R, key: R -> string)
    ensures KeysOf(records + [x], key) == KeysOf(records, key) + {key(x)}
  {
    assert forall y :: y in records + [x] <==> y in records || y == x;
  }

  /** `table.put(record)`: the record replaces whatever its key held; every other key keeps its record. */
  function Put<R>(t: map<string, R>, x: R, key: R -> string): (r: map<string, R>)
    ensures r.Keys == t.Keys + {key(x)}
    ensures key(x) in r && r[key(x)] == x
    ensures forall k :: k in t && k != key(x) ==> r[k] == t[k]
  {
    t[key(x) := x]
  }

  lemma PutKeepsKeyed<R>(t: map<string, R>, x: R, key: R -> string)
    requires Keyed(t, key)
    ensures Keyed(Put(t, x, key), key)
  {
  }

  /** `table.bulkPut(records)`: puts in sequence, so a later record wins over an earlier one with the same key. */
  function BulkPut<R(==)>(t: map<string, R>, records: seq<R>, key: R -> string): (r: map<string, R>)
    ensures r.Keys == t.Keys + KeysOf(records, key)
    ensures forall k :: k in t && k !in KeysOf(records, key) ==> r[k] == t[k]
  {
    if records == [] then t
    else
      var init, last := records[..|records| - 1], records[|records| - 1];
      assert records == init + [last];
      KeysOfSnoc(init, last, key);
      Put(BulkPut(t, init, key), last, key)
  }

  /** The record a key ends up with is the last one written under it. */
  lemma {:induction false} BulkPutLastWins<R>(t: map<string, R>, records: seq<R>, key: R -> string, i: nat)
    requires i < |records|
    requires forall j :: i < j < |records| ==> key(records[j]) != key(records[i])
    ensures BulkPut(t, records, key)[key(records[i])] == records[i]
  {
    var n := |records| - 1;
    var init, last := records[..n], records[n];
    assert records == init + [last];
    var before := BulkPut(t, init, key);
    assert BulkPut(t, records, key) == Put(before, last, key);
    if i < n {
      var k := key(records[i]);
      assert init[i] == records[i];
      assert forall j :: i < j < |init| ==> init[j] == records[j];
      BulkPutLastWins(t, init, key, i);
      assert k != key(last);
    }
  }

  lemma {:induction false} BulkPutKeepsKeyed<R>(t: map<string, R>, records: seq<R>, key: R -> string)
    requires Keyed(t, key)
    ensures Keyed(BulkPut(t, records, key), key)
  {
    if records != [] {
      BulkPutKeepsKeyed(t, records[..|records| - 1], key);
    }
  }

  /** Every key of a batch without repeated keys ends up holding its record. */
  lemma BulkPutUniqueStoresAll<R>(t: map<string, R>, records: seq<R>, key: R -> string)
    requires UniqueKeys(records, key)
    ensures forall x :: x in records ==> BulkPut(t, records, key)[key(x)] == x
  {
    forall x | x in records ensures BulkPut(t, records, key)[key(x)] == x {
      var i :| 0 <= i < |records| && records[i] == x;
      BulkPutLastWins(t, records, key, i);
    }
  }

  /** `bulkAdd` succeeds only when no key repeats within the batch or already exists in the table. */
  predicate Addable<R(==)>(t: map<string, R>, records: seq<R>, key: R -> string) {
    UniqueKeys(records, key) && forall x :: x in records ==> key(x) !in t
  }

  /** `table.bulkAdd(records)`: `None` is the constraint error that aborts the enclosing transaction. */
  function BulkAdd<R(==)>(t: map<string, R>, records: seq<R>, key: R -> string): (r: Option<map<string, R>>)
    ensures r.Some? <==> Addable(t, records, key)
    ensures r.Some? ==>
      && r.value.Keys == t.Keys + KeysOf(records, key)
      && (forall k :: k in t ==> r.value[k] == t[k])
      && (forall x :: x in records ==> r.value[key(x)] == x)
  {
    if Addable(t, records, key) then
      BulkPutUniqueStoresAll(t, records, key);
      Some(BulkPut(t, records, key))
    else None
  }

  /** A `bulkAdd` that succeeds keeps every record stored under its own key. */
  lemma BulkAddKeepsKeyed<R>(t: map<string, R>, records: seq<R>, key: R -> string)
    requires Keyed(t, key)
    ensures BulkAdd(t, records, key).Some? ==> Keyed(BulkAdd(t, records, key).value, key)
  {
    BulkPutKeepsKeyed(t, records, key);
  }

  /** The table holding exactly `records`. */
  function MapOf<R(==)>(records: seq<R>, key: R -> string): map<string, R> {
    BulkPut(map[], records, key)
  }

  /** Adding to an empty table yields exactly the batch. */
  lemma AddToEmpty<R>(t: map<string, R>, records: seq<R>, key: R -> string)
    requires |t| == 0 && Addable(t, records, key)
    ensures BulkAdd(t, records, key) == Some(MapOf(records, key))
  {
    assert t.Keys == {};
    assert t == map[];
  }

  /** `s` lists the records of `t`, one entry per key. */
  ghost predicate IsListing<R(!new)>(s: seq<R>, t: map<string, R>) {
    |s| == |t| && forall x :: x in s <==> x in t.Values
  }

  /**
   * `table.toArray()`: every stored record once; the order of the keys is not modelled.
   * When every record is stored under its own `key`, no record is listed twice.
   */
  method ToArray<R(==,!new)>(t: map<string, R>, ghost key: R -> string) returns (s: seq<R>)
    ensures IsListing(s, t)
    ensures Keyed(t, key) ==> NoDuplicates(s)
  {
    s := [];
    var rest := t.Keys;
    while rest != {}
      invariant rest <= t.Keys
      invariant |s| + |rest| == |t.Keys|
      invariant forall x :: x in s <==> exists k :: k in t.Keys - rest && t[k] == x
      invariant Keyed(t, key) ==> NoDuplicates(s) && forall i :: 0 <= i < |s| ==> key(s[i]) !in rest
      decreases |rest|
    {
      var k :| k in rest;
      s := s + [t[k]];
      rest := rest - {k};
    }
  }
}
