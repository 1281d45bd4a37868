/** Sequence helpers that stand for SQL's WHERE, COUNT, SUM and GROUP BY over
    an in-memory table. */
module Seqs {

  /** WHERE p: the rows that satisfy p, in table order. */
  function Filter<T>(s: seq<T>, p: T -> bool): (r: seq<T>)
    ensures |r| <= |s|
    ensures forall i :: 0 <= i < |r| ==> r[i] in s && p(r[i])
    ensures forall i :: 0 <= i < |s| && p(s[i]) ==> s[i] in r
  {
    if s == [] then []
    else if p(s[0]) then [s[0]] + Filter(s[1..], p)
    else Filter(s[1..], p)
  }

  lemma {:induction false} FilterAppend<T>(a: seq<T>, b: seq<T>, p: T -> bool)
    ensures Filter(a + b, p) == Filter(a, p) + Filter(b, p)
  {
    if a == [] {
      assert a + b == b;
    } else {
      assert (a + b)[0] == a[0];
      assert (a + b)[1..] == a[1..] + b;
      FilterAppend(a[1..], b, p);
    }
  }

  /** A row is kept exactly when it is in the table and satisfies p. */
  lemma FilterMembers<T>(s: seq<T>, p: T -> bool)
    ensures forall x :: x in Filter(s, p) <==> x in s && p(x)
  {
    var r := Filter(s, p);
    forall x ensures x in r <==> x in s && p(x) {
      if x in r {
        var i :| 0 <= i < |r| && r[i] == x;
      }
      if x in s && p(x) {
        var i :| 0 <= i < |s| && s[i] == x;
      }
    }
  }

  /** Filtering is a sub-multiset of the table. */
  lemma {:induction false} FilterMultiset<T>(s: seq<T>, p: T -> bool)
    ensures multiset(Filter(s, p)) <= multiset(s)
  {
    if s != [] {
      var rest := Filter(s[1..], p);
      FilterMultiset(s[1..], p);
      assert multiset(s) == multiset{s[0]} + multiset(s[1..]) by {
        assert s == [s[0]] + s[1..];
      }
      if p(s[0]) {
        assert multiset(Filter(s, p)) == multiset{s[0]} + multiset(rest) by {
          assert Filter(s, p) == [s[0]] + rest;
        }
      } else {
        assert Filter(s, p) == rest;
      }
    }
  }

  /** Filtering a table without repeated rows repeats no row. */
  lemma {:induction false} FilterDistinct<T>(s: seq<T>, p: T -> bool)
    requires forall i, j :: 0 <= i < j < |s| ==> s[i] != s[j]
    ensures forall i, j :: 0 <= i < j < |Filter(s, p)| ==> Filter(s, p)[i] != Filter(s, p)[j]
  {
    if s != [] {
      var rest := s[1..];
      assert forall i, j :: 0 <= i < j < |rest| ==> rest[i] != rest[j] by {
        forall i, j | 0 <= i < j < |rest| ensures rest[i] != rest[j] {
          assert rest[i] == s[i + 1] && rest[j] == s[j + 1];
        }
      }
      FilterDistinct(rest, p);
      if p(s[0]) {
        var r := Filter(s, p);
        var tail := Filter(rest, p);
        assert r == [s[0]] + tail;
        forall j | 0 <= j < |tail| ensures tail[j] != s[0] {
          var k :| 0 <= k < |rest| && rest[k] == tail[j];
          assert rest[k] == s[k + 1];
        }
        forall i, j | 0 <= i < j < |r| ensures r[i] != r[j] {
          assert r[j] == tail[j - 1];
          if i > 0 {
            assert r[i] == tail[i - 1];
            assert tail[i - 1] != tail[j - 1];
          } else {
            assert r[i] == s[0] && tail[j - 1] != s[0];
          }
        }
      } else {
        assert Filter(s, p) == Filter(rest, p);
      }
    }
  }

  /** COUNT(*) ... WHERE p. */
  function Count<T>(s: seq<T>, p: T -> bool): (n: nat)
    ensures n <= |s|
    ensures n == 0 <==> forall i :: 0 <= i < |s| ==> !p(s[i])
  {
    var r := Filter(s, p);
    assert |r| > 0 ==> exists i :: 0 <= i < |s| && p(s[i]) by {
      if |r| > 0 {
        assert r[0] in s;
        var i :| 0 <= i < |s| && s[i] == r[0];
        assert p(s[i]);
      }
    }
    |r|
  }

  /** Counting row by row: the first row adds one exactly when it qualifies. */
  lemma CountCons<T>(s: seq<T>, p: T -> bool)
    requires s != []
    ensures Count(s, p) == (if p(s[0]) then 1 else 0) + Count(s[1..], p)
  {
  }

  /** Two conditions that never hold together count at most every row once. */
  lemma {:induction false} CountDisjoint<T>(s: seq<T>, p: T -> bool, q: T -> bool)
    requires forall i :: 0 <= i < |s| ==> !(p(s[i]) && q(s[i]))
    ensures Count(s, p) + Count(s, q) <= |s|
  {
    if s != [] {
      CountCons(s, p);
      CountCons(s, q);
      CountDisjoint(s[1..], p, q);
    }
  }

  /** SUM(f(row)) over the table; 0 over no rows (as the handlers' reduce with 0). */
  function Sum<T>(s: seq<T>, f: T -> real): real
  {
    if s == [] then 0.0 else f(s[0]) + Sum(s[1..], f)
  }

  lemma {:induction false} SumAppend<T>(a: seq<T>, b: seq<T>, f: T -> real)
    ensures Sum(a + b, f) == Sum(a, f) + Sum(b, f)
  {
    if a == [] {
      assert a + b == b;
    } else {
      assert (a + b)[0] == a[0];
      assert (a + b)[1..] == a[1..] + b;
      SumAppend(a[1..], b, f);
    }
  }

  /** The sum over a single row is that row's value. */
  lemma SumOne<T>(s: seq<T>, f: T -> real)
    requires |s| == 1
    ensures Sum(s, f) == f(s[0])
  {
    assert s[1..] == [];
  }

  lemma {:induction false} SumNonNegative<T>(s: seq<T>, f: T -> real)
    requires forall x :: x in s ==> f(x) >= 0.0
    ensures Sum(s, f) >= 0.0
  {
    if s != [] {
      SumNonNegative(s[1..], f);
    }
  }

  /** SUM over an integer column. */
  function SumInt<T>(s: seq<T>, f: T -> int): int
  {
    if s == [] then 0 else f(s[0]) + SumInt(s[1..], f)
  }

  lemma SumIntOne<T>(s: seq<T>, f: T -> int)
    requires |s| == 1
    ensures SumInt(s, f) == f(s[0])
  {
    assert s[1..] == [];
  }

  lemma {:induction false} SumIntAppend<T>(a: seq<T>, b: seq<T>, f: T -> int)
    ensures SumInt(a + b, f) == SumInt(a, f) + SumInt(b, f)
  {
    if a == [] {
      assert a + b == b;
    } else {
      assert (a + b)[0] == a[0];
      assert (a + b)[1..] == a[1..] + b;
      SumIntAppend(a[1..], b, f);
    }
  }

  /** A sequence without repetitions has as many distinct elements as positions. */
  lemma {:induction false} DistinctCard<K>(r: seq<K>)
    requires forall i, j :: 0 <= i < j < |r| ==> r[i] != r[j]
    ensures |set x | x in r| == |r|
  {
    if r != [] {
      var rest := r[1..];
      assert forall i, j :: 0 <= i < j < |rest| ==> rest[i] != rest[j] by {
        forall i, j | 0 <= i < j < |rest| ensures rest[i] != rest[j] {
          assert rest[i] == r[i + 1] && rest[j] == r[j + 1];
        }
      }
      DistinctCard(rest);
      assert (set x | x in r) == {r[0]} + (set x | x in rest) by {
        assert r == [r[0]] + rest;
      }
      forall j | 0 <= j < |rest| ensures rest[j] != r[0] {
        assert rest[j] == r[j + 1];
      }
    }
  }

  /** In a sequence without repetitions every value occurs at most once. */
  lemma {:induction false} DistinctMultiplicity<T>(s: seq<T>, x: T)
    requires forall i, j :: 0 <= i < j < |s| ==> s[i] != s[j]
    ensures multiset(s)[x] <= 1
  {
    if s != [] {
      var rest := s[1..];
      assert forall i, j :: 0 <= i < j < |rest| ==> rest[i] != rest[j] by {
        forall i, j | 0 <= i < j < |rest| ensures rest[i] != rest[j] {
          assert rest[i] == s[i + 1] && rest[j] == s[j + 1];
        }
      }
      DistinctMultiplicity(rest, x);
      assert multiset(s) == multiset{s[0]} + multiset(rest) by {
        assert s == [s[0]] + rest;
      }
      if x == s[0] {
        forall j | 0 <= j < |rest| ensures rest[j] != x {
          assert rest[j] == s[j + 1];
        }
        assert x !in multiset(rest);
      }
    }
  }

  /** One row per key, in key order: the SELECT list of a GROUP BY evaluated
      on each group. */
  function MapKeys<K, V>(keys: seq<K>, f: K -> V): (r: seq<V>)
    ensures |r| == |keys|
    ensures forall i :: 0 <= i < |keys| ==> r[i] == f(keys[i])
    ensures forall k :: k in keys ==> f(k) in r
    ensures forall x :: x in r ==> exists k :: k in keys && x == f(k)
  {
    var r := seq(|keys|, i requires 0 <= i < |keys| => f(keys[i]));
    assert forall k :: k in keys ==> f(k) in r by {
      forall k | k in keys ensures f(k) in r {
        var i :| 0 <= i < |keys| && keys[i] == k;
        assert r[i] == f(k);
      }
    }
    assert forall x :: x in r ==> exists k :: k in keys && x == f(k) by {
      forall x | x in r ensures exists k :: k in keys && x == f(k) {
        var i :| 0 <= i < |r| && r[i] == x;
        assert keys[i] in keys;
      }
    }
    r
  }

  /** The distinct group keys of the table, in order of first appearance
      (the enumeration order of a GROUP BY in this model). */
  function DistinctKeys<T, K(==)>(s: seq<T>, key: T -> K): (r: seq<K>)
    ensures |r| <= |s|
    ensures forall i, j :: 0 <= i < j < |r| ==> r[i] != r[j]
    ensures forall i :: 0 <= i < |s| ==> key(s[i]) in r
    ensures forall j :: 0 <= j < |r| ==> exists i :: 0 <= i < |s| && key(s[i]) == r[j]
  {
    if s == [] then []
    else
      var rest := DistinctKeys(s[..|s| - 1], key);
      var last := s[|s| - 1];
      assert forall i :: 0 <= i < |s| - 1 ==> s[..|s| - 1][i] == s[i];
      if key(last) in rest then rest else rest + [key(last)]
  }
}
