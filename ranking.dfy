/** Descending sort by a numeric key, as `[...xs].sort((a, b) => key(b) - key(a))` does it.

    `Array.prototype.sort` is stable, so the result is fully determined: the elements in
    non-increasing key order, and elements with equal keys in their input order.
    `SortDesc` computes that result by insertion; `SortedStableIsUnique` shows that any
    permutation with those two properties is exactly `SortDesc`, whatever algorithm the
    engine uses. */
module Ranking {

  ghost predicate NonIncreasing<T>(s: seq<T>, key: T -> real) {
    forall i, j :: 0 <= i < j < |s| ==> key(s[i]) >= key(s[j])
  }

  /** The elements whose key is `k`, in order: the tie class of `k`. */
  function TieClass<T>(s: seq<T>, key: T -> real, k: real): seq<T> {
    if s == [] then []
    else (if key(s[0]) == k then [s[0]] else []) + TieClass(s[1..], key, k)
  }

  /** Every tie class appears in the same order in `r` as in `s`. */
  ghost predicate KeepsTieOrder<T>(r: seq<T>, s: seq<T>, key: T -> real) {
    forall k :: TieClass(r, key, k) == TieClass(s, key, k)
  }

  /** Place `x` in front of the first element whose key is not greater than its own. */
  function Insert<T>(x: T, s: seq<T>, key: T -> real): (r: seq<T>)
    ensures multiset(r) == multiset(s) + multiset{x}
  {
    if s == [] then [x]
    else if key(s[0]) <= key(x) then [x] + s
    else
      assert s == [s[0]] + s[1..];
      [s[0]] + Insert(x, s[1..], key)
  }

  lemma {:induction false} InsertKeepsOrder<T>(x: T, s: seq<T>, key: T -> real)
    requires NonIncreasing(s, key)
    ensures NonIncreasing(Insert(x, s, key), key)
  {
    if s == [] {
    } else if key(s[0]) <= key(x) {
      var r := [x] + s;
      forall i, j | 0 <= i < j < |r| ensures key(r[i]) >= key(r[j]) {
        if i == 0 {
          assert r[j] == s[j - 1];
          assert key(s[0]) >= key(s[j - 1]);
        } else {
          assert r[i] == s[i - 1] && r[j] == s[j - 1];
        }
      }
    } else {
      var t := Insert(x, s[1..], key);
      InsertKeepsOrder(x, s[1..], key);
      var r := [s[0]] + t;
      forall i | 0 <= i < |s[1..]| ensures key(s[1..][i]) <= key(s[0]) {
        assert s[1..][i] == s[i + 1];
      }
      InsertStaysBelow(x, s[1..], key, key(s[0]));
      forall i, j | 0 <= i < j < |r| ensures key(r[i]) >= key(r[j]) {
        if i == 0 {
          assert r[j] == t[j - 1];
        } else {
          assert r[i] == t[i - 1] && r[j] == t[j - 1];
        }
      }
    }
  }

  /** Inserting an element under a bound into elements under it keeps every element under it. */
  lemma InsertStaysBelow<T>(x: T, s: seq<T>, key: T -> real, bound: real)
    requires key(x) <= bound
    requires forall i :: 0 <= i < |s| ==> key(s[i]) <= bound
    ensures forall i :: 0 <= i < |Insert(x, s, key)| ==> key(Insert(x, s, key)[i]) <= bound
  {
    var t := Insert(x, s, key);
    forall i | 0 <= i < |t| ensures key(t[i]) <= bound {
      assert t[i] in multiset(s) + multiset{x};
      if t[i] != x {
        var j :| 0 <= j < |s| && s[j] == t[i];
      }
    }
  }

  function SortDesc<T>(s: seq<T>, key: T -> real): (r: seq<T>)
    ensures multiset(r) == multiset(s)
    ensures |r| == |s|
    ensures NonIncreasing(r, key)
  {
    if s == [] then []
    else
      assert s == [s[0]] + s[1..];
      var t := SortDesc(s[1..], key);
      InsertKeepsOrder(s[0], t, key);
      Insert(s[0], t, key)
  }

  lemma {:induction false} TieClassAppend<T>(a: seq<T>, b: seq<T>, key: T -> real, k: real)
    ensures TieClass(a + b, key, k) == TieClass(a, key, k) + TieClass(b, key, k)
  {
    if a == [] {
      assert a + b == b;
    } else {
      var ab := a + b;
      var h := if key(a[0]) == k then [a[0]] else [];
      assert ab[0] == a[0];
      assert ab[1..] == a[1..] + b;
      assert TieClass(ab, key, k) == h + TieClass(a[1..] + b, key, k);
      assert TieClass(a, key, k) == h + TieClass(a[1..], key, k);
      TieClassAppend(a[1..], b, key, k);
      assert h + (TieClass(a[1..], key, k) + TieClass(b, key, k))
          == (h + TieClass(a[1..], key, k)) + TieClass(b, key, k);
    }
  }

  /** The tie class of a sequence built by prepending one element. */
  lemma TieClassCons<T>(y: T, t: seq<T>, key: T -> real, k: real)
    ensures TieClass([y] + t, key, k) == (if key(y) == k then [y] else []) + TieClass(t, key, k)
  {
    assert ([y] + t)[1..] == t;
  }

  lemma {:induction false} TieClassOfInsert<T>(x: T, s: seq<T>, key: T -> real, k: real)
    ensures TieClass(Insert(x, s, key), key, k)
            == (if key(x) == k then [x] else []) + TieClass(s, key, k)
  {
    if s == [] {
    } else if key(s[0]) <= key(x) {
      TieClassCons(x, s, key, k);
    } else {
      TieClassOfInsert(x, s[1..], key, k);
      InsertPastHead(x, s[0], Insert(x, s[1..], key), s[1..], key, k);
      assert Insert(x, s, key) == [s[0]] + Insert(x, s[1..], key);
      assert s == [s[0]] + s[1..];
    }
  }

  /** The inductive step of `TieClassOfInsert` when `x` goes after the head `y`: `t` is the
      insertion into the rest `u`. */
  lemma InsertPastHead<T>(x: T, y: T, t: seq<T>, u: seq<T>, key: T -> real, k: real)
    requires key(y) > key(x)
    requires TieClass(t, key, k) == (if key(x) == k then [x] else []) + TieClass(u, key, k)
    ensures TieClass([y] + t, key, k) == (if key(x) == k then [x] else []) + TieClass([y] + u, key, k)
  {
    TieClassCons(y, t, key, k);
    TieClassCons(y, u, key, k);
    var rest := TieClass(u, key, k);
    if key(x) == k {
      assert TieClass([y] + t, key, k) == [x] + rest;
    } else if key(y) == k {
      assert TieClass([y] + t, key, k) == [y] + rest;
    } else {
      assert TieClass([y] + t, key, k) == rest;
    }
  }

  /** Ties keep their input order: the sort is stable. */
  lemma {:induction false} SortDescIsStable<T>(s: seq<T>, key: T -> real, k: real)
    ensures TieClass(SortDesc(s, key), key, k) == TieClass(s, key, k)
  {
    if s != [] {
      SortDescIsStable(s[1..], key, k);
      TieClassOfInsert(s[0], SortDesc(s[1..], key), key, k);
    }
  }

  lemma SortDescKeepsTieOrder<T>(s: seq<T>, key: T -> real)
    ensures KeepsTieOrder(SortDesc(s, key), s, key)
  {
    forall k ensures TieClass(SortDesc(s, key), key, k) == TieClass(s, key, k) {
      SortDescIsStable(s, key, k);
    }
  }

  lemma {:induction false} TieClassMembers<T>(s: seq<T>, key: T -> real, k: real, x: T)
    ensures x in TieClass(s, key, k) <==> x in s && key(x) == k
  {
    if s != [] {
      TieClassMembers(s[1..], key, k, x);
      assert s == [s[0]] + s[1..];
    }
  }

  lemma TieClassOfHead<T>(s: seq<T>, key: T -> real)
    requires s != []
    ensures TieClass(s, key, key(s[0])) == [s[0]] + TieClass(s[1..], key, key(s[0]))
  {
  }

  /** Removing the head removes it from its own tie class and leaves every other class alone. */
  lemma TieClassOfTail<T>(s: seq<T>, key: T -> real, k: real)
    requires s != []
    ensures TieClass(s[1..], key, k)
            == if key(s[0]) == k then TieClass(s, key, k)[1..] else TieClass(s, key, k)
  {
  }

  lemma NoTiesMeansEmpty<T>(s: seq<T>, key: T -> real)
    requires forall k :: TieClass(s, key, k) == []
    ensures s == []
  {
    if s != [] {
      TieClassOfHead(s, key);
    }
  }

  /** The head of a sorted sequence has the greatest key of any of its elements. */
  lemma HeadIsGreatest<T>(s: seq<T>, key: T -> real, x: T)
    requires NonIncreasing(s, key) && x in s
    ensures key(x) <= key(s[0])
  {
    var j :| 0 <= j < |s| && s[j] == x;
    if j > 0 {
      assert key(s[0]) >= key(s[j]);
    }
  }

  /** Two non-empty sorted sequences with the same tie classes start with the same element. */
  lemma SortedSameTiesSameHead<T>(a: seq<T>, b: seq<T>, key: T -> real)
    requires a != [] && b != []
    requires NonIncreasing(a, key) && NonIncreasing(b, key)
    requires KeepsTieOrder(a, b, key)
    ensures a[0] == b[0]
  {
    var ka, kb := key(a[0]), key(b[0]);
    TieClassOfHead(a, key);
    TieClassOfHead(b, key);
    assert TieClass(a, key, ka) == TieClass(b, key, ka);
    assert TieClass(a, key, kb) == TieClass(b, key, kb);
    // The head of each is an element of the other, so neither key exceeds the other.
    TieClassMembers(b, key, ka, a[0]);
    TieClassMembers(a, key, kb, b[0]);
    HeadIsGreatest(b, key, a[0]);
    HeadIsGreatest(a, key, b[0]);
    assert TieClass(b, key, ka)[0] == b[0];
  }

  /** Dropping a common head keeps the tie classes equal. */
  lemma SameTiesAfterHead<T>(a: seq<T>, b: seq<T>, key: T -> real)
    requires a != [] && b != [] && a[0] == b[0]
    requires KeepsTieOrder(a, b, key)
    ensures KeepsTieOrder(a[1..], b[1..], key)
  {
    forall k ensures TieClass(a[1..], key, k) == TieClass(b[1..], key, k) {
      assert TieClass(a, key, k) == TieClass(b, key, k);
      TieClassOfTail(a, key, k);
      TieClassOfTail(b, key, k);
    }
  }

  lemma NonIncreasingTail<T>(s: seq<T>, key: T -> real)
    requires s != [] && NonIncreasing(s, key)
    ensures NonIncreasing(s[1..], key)
  {
    forall i, j | 0 <= i < j < |s| - 1 ensures key(s[1..][i]) >= key(s[1..][j]) {
      assert s[1..][i] == s[i + 1] && s[1..][j] == s[j + 1];
    }
  }

  /** Two sorted sequences with the same tie classes are equal. */
  lemma {:induction false} SortedSameTiesEqual<T>(a: seq<T>, b: seq<T>, key: T -> real)
    requires NonIncreasing(a, key) && NonIncreasing(b, key)
    requires KeepsTieOrder(a, b, key)
    ensures a == b
    decreases |a| + |b|
  {
    if a == [] {
      NoTiesMeansEmpty(b, key);
    } else if b == [] {
      NoTiesMeansEmpty(a, key);
    } else {
      SortedSameTiesSameHead(a, b, key);
      SameTiesAfterHead(a, b, key);
      NonIncreasingTail(a, key);
      NonIncreasingTail(b, key);
      SortedSameTiesEqual(a[1..], b[1..], key);
      assert a == [a[0]] + a[1..];
      assert b == [b[0]] + b[1..];
    }
  }

  /** Any stable descending sort of `s` returns exactly `SortDesc(s, key)`. */
  lemma SortedStableIsUnique<T>(s: seq<T>, r: seq<T>, key: T -> real)
    requires NonIncreasing(r, key) && KeepsTieOrder(r, s, key)
    ensures r == SortDesc(s, key)
  {
    SortDescKeepsTieOrder(s, key);
    SortedSameTiesEqual(r, SortDesc(s, key), key);
  }

  /** Ranking an already ranked list leaves it as it is. */
  lemma SortDescIdempotent<T>(s: seq<T>, key: T -> real)
    ensures SortDesc(SortDesc(s, key), key) == SortDesc(s, key)
  {
    var r := SortDesc(s, key);
    SortDescKeepsTieOrder(r, key);
    SortedSameTiesEqual(SortDesc(r, key), r, key);
  }
}
