/** Sequence operations shared by the request handlers, the store and the seed generator. */
module Lists {
  import opened Wrappers


  /** `s.filter(p)`. */
  function Filter<T>(s: seq<T>, p: T -> bool): (r: seq<T>)
    ensures |r| <= |s|
  {
    if s == [] then []
    else if p(s[0]) then [s[0]] + Filter(s[1..], p)
    else Filter(s[1..], p)
  }

  /** An element is kept exactly when it occurs in the input and satisfies the predicate. */
  lemma {:induction false} FilterMembership<T>(s: seq<T>, p: T -> bool)
    ensures forall x :: x in Filter(s, p) <==> x in s && p(x)
  {
    if s != [] {
      FilterMembership(s[1..], p);
      assert s == [s[0]] + s[1..];
    }
  }

  /** Filtering keeps relative order: it distributes over concatenation. */
  lemma {:induction false} FilterAppend<T>(a: seq<T>, b: seq<T>, p: T -> bool)
    ensures Filter(a + b, p) == Filter(a, p) + Filter(b, p)
  {
    if a == [] {
      assert a + b == b;
    } else {
      assert (a + b)[1..] == a[1..] + b;
      FilterAppend(a[1..], b, p);
    }
  }

  /** A predicate every element satisfies keeps the whole sequence. */
  lemma {:induction false} FilterKeepsAll<T>(s: seq<T>, p: T -> bool)
    requires forall x :: x in s ==> p(x)
    ensures Filter(s, p) == s
  {
    if s != [] {
      assert forall x :: x in s[1..] ==> x in s;
      FilterKeepsAll(s[1..], p);
    }
  }

  /** Filtering never duplicates an element. */
  lemma {:induction false} FilterMultiset<T>(s: seq<T>, p: T -> bool)
    ensures multiset(Filter(s, p)) <= multiset(s)
  {
    if s != [] {
      FilterMultiset(s[1..], p);
      assert s == [s[0]] + s[1..];
    }
  }

  predicate NoDuplicates<T(==)>(s: seq<T>) {
    forall i, j :: 0 <= i < j < |s| ==> s[i] != s[j]
  }

  lemma {:induction false} NoDuplicatesCount<T>(s: seq<T>, x: T)
    requires NoDuplicates(s)
    ensures multiset(s)[x] <= 1
  {
    if s != [] {
      assert s == [s[0]] + s[1..];
      NoDuplicatesCount(s[1..], x);
    }
  }

  lemma RepeatedCount<T>(s: seq<T>, i: nat, j: nat)
    requires i < j < |s| && s[i] == s[j]
    ensures multiset(s)[s[i]] >= 2
  {
    assert s == s[..j] + s[j..];
    assert s[i] in s[..j];
    assert s[j] in s[j..];
  }

  /** A sub-multiset of a duplicate-free sequence is itself duplicate-free. */
  lemma SubMultisetNoDuplicates<T>(r: seq<T>, s: seq<T>)
    requires NoDuplicates(s) && multiset(r) <= multiset(s)
    ensures NoDuplicates(r)
  {
    forall i, j | 0 <= i < j < |r|
      ensures r[i] != r[j]
    {
      if r[i] == r[j] {
        RepeatedCount(r, i, j);
        NoDuplicatesCount(s, r[i]);
        assert false;
      }
    }
  }

  /** A prefix holds no more copies of anything than the whole. */
  lemma PrefixMultiset<T>(s: seq<T>, n: nat)
    requires n <= |s|
    ensures multiset(s[..n]) <= multiset(s)
  {
    assert s == s[..n] + s[n..];
  }

  /** The concatenation of a sequence of blocks. */
  function Flatten<T>(blocks: seq<seq<T>>): seq<T> {
    if blocks == [] then [] else Flatten(blocks[..|blocks| - 1]) + blocks[|blocks| - 1]
  }

  /** Every element of a concatenation comes from one of its blocks. */
  lemma {:induction false} FlattenMembership<T>(blocks: seq<seq<T>>, x: T)
    requires x in Flatten(blocks)
    ensures exists b :: 0 <= b < |blocks| && x in blocks[b]
  {
    var n := |blocks|;
    if x in blocks[n - 1] {
    } else {
      FlattenMembership(blocks[..n - 1], x);
      var b :| 0 <= b < n - 1 && x in blocks[..n - 1][b];
      assert x in blocks[b];
    }
  }

  /** The first element satisfying `p` (`Array.prototype.find`, Dexie's `first()`). */
  function Find<T>(s: seq<T>, p: T -> bool): (r: Option<T>)
    ensures r.Some? ==> r.value in s && p(r.value)
    ensures r.None? <==> forall x :: x in s ==> !p(x)
    ensures r.Some? ==> exists i :: 0 <= i < |s| && s[i] == r.value && forall k :: 0 <= k < i ==> !p(s[k])
  {
    if s == [] then None
    else if p(s[0]) then Some(s[0])
    else
      var rest := Find(s[1..], p);
      assert forall x :: x in s ==> x == s[0] || x in s[1..];
      if rest.Some? then FirstShifts(s, p, rest.value); rest
      else rest
  }

  /** A first match in `s[1..]` is a first match in `s` when `s[0]` does not match. */
  lemma FirstShifts<T>(s: seq<T>, p: T -> bool, x: T)
    requires |s| > 0 && !p(s[0])
    requires exists i :: 0 <= i < |s[1..]| && s[1..][i] == x && forall k :: 0 <= k < i ==> !p(s[1..][k])
    ensures exists i :: 0 <= i < |s| && s[i] == x && forall k :: 0 <= k < i ==> !p(s[k])
  {
    var i :| 0 <= i < |s[1..]| && s[1..][i] == x && forall k :: 0 <= k < i ==> !p(s[1..][k]);
    assert s[i + 1] == x && forall k :: 0 <= k < i + 1 ==> !p(s[k]);
  }
}
