/** The ranker: ORDER BY score DESC followed by LIMIT.

    The SQL leaves the order of rows with equal scores unspecified; the model
    fixes it to the enumeration order of the rows (a stable sort), and proves
    that choice as a property of its own. */
module Ranking {

  ghost predicate SortedDesc<T>(s: seq<T>, key: T -> real)
  {
    forall i, j :: 0 <= i < j < |s| ==> key(s[i]) >= key(s[j])
  }

  /** The rows whose key is exactly k, in their order. */
  function WithKey<T>(s: seq<T>, key: T -> real, k: real): seq<T>
  {
    if s == [] then []
    else if key(s[0]) == k then [s[0]] + WithKey(s[1..], key, k)
    else WithKey(s[1..], key, k)
  }

  /** Puts x in front of the first row whose key is not greater than its own. */
  function InsertDesc<T>(x: T, r: seq<T>, key: T -> real): (q: seq<T>)
    requires SortedDesc(r, key)
    ensures SortedDesc(q, key)
    ensures multiset(q) == multiset(r) + multiset{x}
    ensures q[0] == x || q[0] == r[0]
  {
    if r == [] || key(r[0]) <= key(x) then
      ConsSorted(x, r, key);
      [x] + r
    else
      var tail := InsertDesc(x, r[1..], key);
      assert key(r[0]) >= key(tail[0]);
      ConsSorted(r[0], tail, key);
      assert multiset([r[0]] + tail) == multiset(r) + multiset{x} by {
        assert r == [r[0]] + r[1..];
      }
      [r[0]] + tail
  }

  /** A row no lower than the head of a sorted table may go in front of it. */
  lemma ConsSorted<T>(x: T, r: seq<T>, key: T -> real)
    requires SortedDesc(r, key) && (r != [] ==> key(x) >= key(r[0]))
    ensures SortedDesc([x] + r, key)
  {
    var q := [x] + r;
    forall i, j | 0 <= i < j < |q| ensures key(q[i]) >= key(q[j]) {
      assert q[j] == r[j - 1];
      if i == 0 {
        assert key(r[0]) >= key(r[j - 1]);
      } else {
        assert q[i] == r[i - 1];
      }
    }
  }

  /** Inserting x only adds x to the rows with its key, in front of them. */
  lemma {:induction false} InsertDescWithKey<T>(x: T, r: seq<T>, key: T -> real, k: real)
    requires SortedDesc(r, key)
    ensures WithKey(InsertDesc(x, r, key), key, k) == if key(x) == k then [x] + WithKey(r, key, k) else WithKey(r, key, k)
  {
    var q := InsertDesc(x, r, key);
    if r == [] || key(r[0]) <= key(x) {
      assert q[1..] == r;
    } else {
      InsertDescWithKey(x, r[1..], key, k);
      assert q[1..] == InsertDesc(x, r[1..], key);
      assert r == [r[0]] + r[1..];
    }
  }

  /** ORDER BY key DESC, ties in enumeration order. */
  function SortDesc<T>(s: seq<T>, key: T -> real): (r: seq<T>)
    ensures SortedDesc(r, key)
    ensures multiset(r) == multiset(s)
    ensures |r| == |s|
    ensures forall i :: 0 <= i < |r| ==> r[i] in s
    ensures forall i :: 0 <= i < |s| ==> s[i] in r
    ensures forall k :: WithKey(r, key, k) == WithKey(s, key, k)
  {
    if s == [] then []
    else
      var rest := SortDesc(s[1..], key);
      SortStep(s, key, rest);
      InsertDesc(s[0], rest, key)
  }

  /** Inserting the first row into the sorted rest sorts the whole table. */
  lemma SortStep<T>(s: seq<T>, key: T -> real, rest: seq<T>)
    requires s != [] && SortedDesc(rest, key)
    requires multiset(rest) == multiset(s[1..])
    requires forall k :: WithKey(rest, key, k) == WithKey(s[1..], key, k)
    ensures multiset(InsertDesc(s[0], rest, key)) == multiset(s)
    ensures |InsertDesc(s[0], rest, key)| == |s|
    ensures forall i :: 0 <= i < |InsertDesc(s[0], rest, key)| ==> InsertDesc(s[0], rest, key)[i] in s
    ensures forall i :: 0 <= i < |s| ==> s[i] in InsertDesc(s[0], rest, key)
    ensures forall k :: WithKey(InsertDesc(s[0], rest, key), key, k) == WithKey(s, key, k)
  {
    var r := InsertDesc(s[0], rest, key);
    assert multiset(r) == multiset(s) by {
      assert s == [s[0]] + s[1..];
    }
    assert |r| == |multiset(r)| == |multiset(s)| == |s|;
    SameMembers(r, s);
    forall k ensures WithKey(r, key, k) == WithKey(s, key, k) {
      InsertDescWithKey(s[0], rest, key, k);
    }
  }

  /** Sorting keeps exactly the rows it was given. */
  lemma SortDescMembers<T>(s: seq<T>, key: T -> real)
    ensures forall x :: x in SortDesc(s, key) <==> x in s
  {
    var r := SortDesc(s, key);
    forall x ensures x in r <==> x in s {
      assert x in r <==> x in multiset(r);
    }
  }

  lemma SameMembers<T>(a: seq<T>, b: seq<T>)
    requires multiset(a) == multiset(b)
    ensures forall i :: 0 <= i < |a| ==> a[i] in b
    ensures forall i :: 0 <= i < |b| ==> b[i] in a
  {
    forall i | 0 <= i < |a| ensures a[i] in b {
      assert a[i] in multiset(a);
    }
    forall i | 0 <= i < |b| ensures b[i] in a {
      assert b[i] in multiset(b);
    }
  }

  /** LIMIT n. */
  function Take<T>(s: seq<T>, n: nat): (r: seq<T>)
    ensures |r| == if |s| <= n then |s| else n
    ensures r == s[..|r|]
  {
    if |s| <= n then s else s[..n]
  }

  /** ORDER BY key DESC LIMIT n: the top n rows by key, best first; nothing left
      out ranks above anything kept. */
  function TopN<T>(s: seq<T>, key: T -> real, n: nat): (r: seq<T>)
    ensures |r| == if |s| <= n then |s| else n
    ensures |s| <= n ==> multiset(r) == multiset(s)
    ensures multiset(r) <= multiset(s)
    ensures forall i :: 0 <= i < |r| ==> r[i] in s
    ensures SortedDesc(r, key)
  {
    var sorted := SortDesc(s, key);
    TakePrefix(sorted, key, n);
    Take(sorted, n)
  }

  /** A prefix of a table is a part of it, and a prefix of a sorted table is sorted. */
  lemma TakePrefix<T>(s: seq<T>, key: T -> real, n: nat)
    ensures multiset(Take(s, n)) <= multiset(s)
    ensures forall i :: 0 <= i < |Take(s, n)| ==> Take(s, n)[i] in s
    ensures SortedDesc(s, key) ==> SortedDesc(Take(s, n), key)
  {
    var r := Take(s, n);
    assert s == r + s[|r|..];
    assert multiset(s) == multiset(r) + multiset(s[|r|..]);
    forall i | 0 <= i < |r| ensures r[i] in s {
      assert r[i] == s[i];
    }
  }

  /** Every row that LIMIT cut off scores no higher than every row it kept. */
  lemma TopNCutsLowest<T>(s: seq<T>, key: T -> real, n: nat, x: T, y: T)
    requires x in TopN(s, key, n)
    requires y in s && y !in TopN(s, key, n)
    ensures key(x) >= key(y)
  {
    var sorted := SortDesc(s, key);
    var r := TopN(s, key, n);
    assert r == sorted[..|r|];
    var i :| 0 <= i < |r| && r[i] == x;
    var k :| 0 <= k < |s| && s[k] == y;
    assert y in sorted;
    var j :| 0 <= j < |sorted| && sorted[j] == y;
    assert sorted[i] == x;
  }
}
