/** What every module shares: a value that may be absent, and weighted sums over a sequence. */
module Common {
  datatype Option<+T> = None | Some(value: T)

  /** Python's int(): towards zero. */
  function Truncated(x: real): (n: int)
    ensures x >= 0.0 ==> n as real <= x < n as real + 1.0
    ensures x <= 0.0 ==> n as real - 1.0 < x <= n as real
  {
    if x >= 0.0 then x.Floor else -((-x).Floor)
  }

  function Sum<T>(s: seq<T>, w: T -> int): int {
    if s == [] then 0 else Sum(s[..|s| - 1], w) + w(s[|s| - 1])
  }

  lemma SumAppend<T>(s: seq<T>, x: T, w: T -> int)
    ensures Sum(s + [x], w) == Sum(s, w) + w(x)
  {
    assert (s + [x])[..|s|] == s;
  }

  lemma {:induction false} SumUpdate<T>(s: seq<T>, i: nat, x: T, w: T -> int)
    requires i < |s|
    ensures Sum(s[i := x], w) == Sum(s, w) - w(s[i]) + w(x)
  {
    var n := |s| - 1;
    if i == n {
      assert s[i := x][..n] == s[..n];
    } else {
      assert s[i := x][..n] == s[..n][i := x];
      SumUpdate(s[..n], i, x, w);
    }
  }

  lemma {:induction false} SumAtMost<T>(s: seq<T>, v: T -> int, w: T -> int)
    requires forall x :: x in s ==> v(x) <= w(x)
    ensures Sum(s, v) <= Sum(s, w)
  {
    if s != [] {
      SumAtMost(s[..|s| - 1], v, w);
    }
  }

  lemma {:induction false} SumPositive<T>(s: seq<T>, w: T -> int, i: nat)
    requires i < |s| && w(s[i]) > 0
    requires forall x :: x in s ==> w(x) >= 0
    ensures Sum(s, w) > 0
  {
    var n := |s| - 1;
    if i < n {
      SumPositive(s[..n], w, i);
    } else {
      SumAtMost(s[..n], (x: T) => 0, w);
      SumZero(s[..n], (x: T) => 0);
    }
  }

  lemma {:induction false} SumZero<T>(s: seq<T>, w: T -> int)
    requires forall x :: x in s ==> w(x) == 0
    ensures Sum(s, w) == 0
  {
    if s != [] {
      SumZero(s[..|s| - 1], w);
    }
  }

  lemma {:induction false} SumMinus<T>(s: seq<T>, u: T -> int, v: T -> int, w: T -> int)
    requires forall x :: x in s ==> w(x) == u(x) - v(x)
    ensures Sum(s, w) == Sum(s, u) - Sum(s, v)
  {
    if s != [] {
      SumMinus(s[..|s| - 1], u, v, w);
    }
  }

  /** The same, of amounts. */
  function RealSum<T>(s: seq<T>, w: T -> real): real {
    if s == [] then 0.0 else RealSum(s[..|s| - 1], w) + w(s[|s| - 1])
  }

  lemma {:induction false} SumCovered<T>(s: seq<T>, w: T -> int, u: T -> int, v: T -> int)
    requires forall x :: x in s ==> w(x) <= u(x) + v(x)
    ensures Sum(s, w) <= Sum(s, u) + Sum(s, v)
  {
    if s != [] {
      SumCovered(s[..|s| - 1], w, u, v);
    }
  }

  lemma {:induction false} SumOnes<T>(s: seq<T>, w: T -> int, lo: nat, hi: nat)
    requires lo <= hi <= |s|
    requires forall i :: 0 <= i < |s| ==> w(s[i]) == if lo <= i < hi then 1 else 0
    ensures Sum(s, w) == hi - lo
  {
    if s != [] {
      var n := |s| - 1;
      if lo <= n < hi {
        SumOnes(s[..n], w, lo, n);
      } else {
        SumOnes(s[..n], w, if lo <= n then lo else n, if lo <= n then hi else n);
      }
    }
  }

  function Dropped<T>(s: seq<T>, i: nat): seq<T>
    requires i < |s|
  {
    s[..i] + s[i + 1..]
  }

  lemma {:induction false} SumDropped<T>(s: seq<T>, i: nat, w: T -> int)
    requires i < |s|
    ensures Sum(Dropped(s, i), w) == Sum(s, w) - w(s[i])
  {
    var n := |s| - 1;
    if i == n {
      assert Dropped(s, i) == s[..n];
    } else {
      assert Dropped(s, i) == Dropped(s[..n], i) + [s[n]];
      SumDropped(s[..n], i, w);
      SumAppend(Dropped(s[..n], i), s[n], w);
    }
  }

  lemma {:induction false} SumBounded<T>(s: seq<T>, w: T -> int, most: nat, n: nat)
    requires |s| <= n && forall i :: 0 <= i < |s| ==> w(s[i]) <= most
    ensures Sum(s, w) <= n * most
  {
    if s != [] {
      SumBounded(s[..|s| - 1], w, most, n - 1);
    }
  }

  /** The values of a map added up, in whatever order. */
  ghost function FoldMap<K, V, T>(m: map<K, V>, zero: T, add: (T, V) -> T): T
    decreases m.Keys
  {
    if k: K :| k in m then add(FoldMap(m - {k}, zero, add), m[k]) else zero
  }

  lemma {:induction false} FoldKeeps<K, V, T>(m: map<K, V>, zero: T, add: (T, V) -> T, ok: T -> bool)
    requires ok(zero) && forall t, v :: ok(t) ==> ok(add(t, v))
    ensures ok(FoldMap(m, zero, add))
    decreases m.Keys
  {
    if k: K :| k in m && FoldMap(m, zero, add) == add(FoldMap(m - {k}, zero, add), m[k]) {
      FoldKeeps(m - {k}, zero, add, ok);
    }
  }

  lemma {:induction false} FoldTakesAny<K, V, T>(m: map<K, V>, zero: T, add: (T, V) -> T, k: K)
    requires k in m && forall t, u, v :: add(add(t, u), v) == add(add(t, v), u)
    ensures FoldMap(m, zero, add) == add(FoldMap(m - {k}, zero, add), m[k])
    decreases m.Keys
  {
    var j :| j in m && FoldMap(m, zero, add) == add(FoldMap(m - {j}, zero, add), m[j]);
    if j != k {
      FoldTakesAny(m - {j}, zero, add, k);
      assert k in m - {j} && j in m - {k};
      FoldTakesAny(m - {k}, zero, add, j);
      assert m - {j} - {k} == m - {k} - {j};
    }
  }
}
