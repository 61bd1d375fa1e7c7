/** The result of a query `find(filter).sort({ key: -1 })`: every matching
    document exactly once, in non-increasing order of the key. The database
    does not order documents whose keys are equal, and neither does this. */
module Listing {

  predicate SortedDesc<T>(s: seq<T>, key: T -> int) {
    forall i, j :: 0 <= i < j < |s| ==> key(s[i]) >= key(s[j])
  }

  /** `r` lists the members of `xs`, each exactly once. */
  predicate ListsExactly<T>(r: seq<T>, xs: set<T>) {
    multiset(r) == multiset(xs)
  }

  lemma ListsExactlyMembers<T>(r: seq<T>, xs: set<T>)
    requires ListsExactly(r, xs)
    ensures forall x :: x in r <==> x in xs
    ensures |r| == |xs|
    ensures forall i, j :: 0 <= i < j < |r| ==> r[i] != r[j]
  {
    forall x ensures x in r <==> x in xs {
      assert x in r <==> x in multiset(r);
      assert x in xs <==> x in multiset(xs);
    }
    assert |r| == |multiset(r)| == |multiset(xs)| == |xs|;
    forall i, j | 0 <= i < j < |r| ensures r[i] != r[j] {
      RepeatCounted(r, i, j);
      assert multiset(xs)[r[i]] <= 1;
    }
  }

  lemma RepeatCounted<T>(r: seq<T>, i: nat, j: nat)
    requires i < j < |r|
    ensures r[i] == r[j] ==> multiset(r)[r[i]] >= 2
  {
    assert r == r[..i] + [r[i]] + r[i + 1..j] + [r[j]] + r[j + 1..];
  }

  /** Inserts `x` into a list sorted by `key`, ahead of the elements with the same key. */
  function InsertDesc<T>(s: seq<T>, x: T, key: T -> int): (r: seq<T>)
    ensures multiset(r) == multiset(s) + multiset{x}
  {
    if |s| == 0 || key(x) >= key(s[0]) then [x] + s
    else
      assert s == [s[0]] + s[1..];
      [s[0]] + InsertDesc(s[1..], x, key)
  }

  lemma ConsSorted<T>(h: T, tail: seq<T>, key: T -> int)
    requires SortedDesc(tail, key)
    requires forall i :: 0 <= i < |tail| ==> key(h) >= key(tail[i])
    ensures SortedDesc([h] + tail, key)
  {
    forall i, j | 0 <= i < j < |[h] + tail| ensures key(([h] + tail)[i]) >= key(([h] + tail)[j]) {
      assert ([h] + tail)[j] == tail[j - 1];
      if i > 0 {
        assert ([h] + tail)[i] == tail[i - 1];
      }
    }
  }

  /** Below the head of a sorted list: every element of the list but the head. */
  lemma HeadBoundsInsert<T>(s: seq<T>, x: T, key: T -> int)
    requires SortedDesc(s, key) && |s| > 0 && key(x) < key(s[0])
    ensures forall i :: 0 <= i < |InsertDesc(s[1..], x, key)| ==> key(s[0]) >= key(InsertDesc(s[1..], x, key)[i])
  {
    var tail := InsertDesc(s[1..], x, key);
    forall i | 0 <= i < |tail| ensures key(s[0]) >= key(tail[i]) {
      assert tail[i] in multiset(tail);
      if tail[i] != x {
        assert tail[i] in multiset(s[1..]);
        var k :| 0 <= k < |s[1..]| && s[1..][k] == tail[i];
        assert s[k + 1] == tail[i];
      }
    }
  }

  lemma {:induction false} InsertDescSorted<T>(s: seq<T>, x: T, key: T -> int)
    requires SortedDesc(s, key)
    ensures SortedDesc(InsertDesc(s, x, key), key)
  {
    if |s| == 0 || key(x) >= key(s[0]) {
      ConsSorted(x, s, key);
    } else {
      assert SortedDesc(s[1..], key) by {
        forall i, j | 0 <= i < j < |s[1..]| ensures key(s[1..][i]) >= key(s[1..][j]) {
          assert s[1..][i] == s[i + 1] && s[1..][j] == s[j + 1];
        }
      }
      InsertDescSorted(s[1..], x, key);
      HeadBoundsInsert(s, x, key);
      ConsSorted(s[0], InsertDesc(s[1..], x, key), key);
    }
  }

  /** Orders the documents that match a query. */
  method SortDesc<T>(xs: set<T>, key: T -> int) returns (r: seq<T>)
    ensures SortedDesc(r, key)
    ensures ListsExactly(r, xs)
  {
    r := [];
    var rest := xs;
    while rest != {}
      invariant rest <= xs
      invariant SortedDesc(r, key)
      invariant multiset(r) + multiset(rest) == multiset(xs)
      decreases |rest|
    {
      var x :| x in rest;
      InsertDescSorted(r, x, key);
      r := InsertDesc(r, x, key);
      assert multiset(rest) == multiset(rest - {x}) + multiset{x};
      rest := rest - {x};
    }
  }
}
