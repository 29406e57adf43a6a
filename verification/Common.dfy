/** Values shared by every module: optional values, identifiers, the clock's unit and a stable sort. */
module Common {

  datatype Option<+T> = None | Some(value: T)

  /** A UUID. Its order is the byte order PostgreSQL and Rust's `Uuid` agree on. */
  type Uuid = nat

  /** Every clock in the model counts milliseconds. */
  const SECOND: nat := 1000

  function Min(a: int, b: int): int {
    if a <= b then a else b
  }

  function Pow2(n: nat): (p: nat)
    ensures p >= 1
  {
    if n == 0 then 1 else 2 * Pow2(n - 1)
  }

  lemma {:induction false} Pow2Monotone(a: nat, b: nat)
    requires a <= b
    ensures Pow2(a) <= Pow2(b)
    decreases b - a
  {
    if a < b {
      Pow2Monotone(a + 1, b);
    }
  }

  ghost predicate SortedByKey<T>(key: T -> int, s: seq<T>) {
    forall i, j :: 0 <= i < j < |s| ==> key(s[i]) <= key(s[j])
  }

  function InsertByKey<T>(key: T -> int, x: T, s: seq<T>): seq<T> {
    if s == [] || key(x) <= key(s[0]) then [x] + s
    else [s[0]] + InsertByKey(key, x, s[1..])
  }

  /** The standard library's stable `sort_by_key`. */
  function SortByKey<T>(key: T -> int, s: seq<T>): seq<T> {
    if s == [] then [] else InsertByKey(key, s[0], SortByKey(key, s[1..]))
  }

  lemma {:induction false} InsertByKeyKeeps<T>(key: T -> int, x: T, s: seq<T>)
    ensures multiset(InsertByKey(key, x, s)) == multiset(s) + multiset{x}
  {
    if s != [] && key(s[0]) < key(x) {
      InsertByKeyKeeps(key, x, s[1..]);
      assert s == [s[0]] + s[1..];
    }
  }

  lemma {:induction false} InsertByKeySorts<T>(key: T -> int, x: T, s: seq<T>)
    requires SortedByKey(key, s)
    ensures SortedByKey(key, InsertByKey(key, x, s))
    ensures forall y :: y in InsertByKey(key, x, s) ==> y == x || y in s
  {
    if s != [] && key(s[0]) < key(x) {
      var rest := InsertByKey(key, x, s[1..]);
      InsertByKeySorts(key, x, s[1..]);
      forall k | 0 <= k < |rest| ensures key(s[0]) <= key(rest[k]) {
        assert rest[k] in rest;
      }
    }
  }

  lemma {:induction false} SortByKeySorts<T>(key: T -> int, s: seq<T>)
    ensures SortedByKey(key, SortByKey(key, s))
    ensures multiset(SortByKey(key, s)) == multiset(s)
  {
    if s != [] {
      SortByKeySorts(key, s[1..]);
      InsertByKeySorts(key, s[0], SortByKey(key, s[1..]));
      InsertByKeyKeeps(key, s[0], SortByKey(key, s[1..]));
      assert s == [s[0]] + s[1..];
    }
  }

  /** A subset is no larger than its superset. */
  lemma CardinalityOfSubset<T>(a: set<T>, b: set<T>)
    requires a <= b
    ensures |a| <= |b|
  {
    assert b == a + (b - a);
  }

  /** A number nobody uses, above all those in use. */
  lemma Unused(ids: set<nat>) returns (n: nat)
    ensures n !in ids && forall id :: id in ids ==> id < n
    decreases |ids|
  {
    if ids == {} {
      n := 0;
    } else {
      var x :| x in ids;
      var above := Unused(ids - {x});
      n := if above > x then above else x + 1;
      assert forall y :: y in ids ==> y == x || y in ids - {x};
    }
  }

  /** The values of a map, added up. */
  ghost function Sum(m: map<nat, nat>): nat
    decreases |m.Keys|
  {
    if m == map[] then 0
    else
      var k :| k in m;
      assert |(m - {k}).Keys| < |m.Keys| by {
        assert m.Keys == (m - {k}).Keys + {k};
      }
      m[k] + Sum(m - {k})
  }

  /** In whatever order. */
  lemma {:induction false} SumAt(m: map<nat, nat>, k: nat)
    requires k in m
    ensures Sum(m) == m[k] + Sum(m - {k})
    decreases |m.Keys|
  {
    var j :| j in m && Sum(m) == m[j] + Sum(m - {j});
    if j != k {
      assert m.Keys == (m - {k}).Keys + {k} && m.Keys == (m - {j}).Keys + {j};
      SumAt(m - {j}, k);
      SumAt(m - {k}, j);
      assert m - {j} - {k} == m - {k} - {j};
    }
  }

  /** Lowering or dropping one value lowers the sum. */
  lemma SumDrops(m: map<nat, nat>, k: nat, less: map<nat, nat>)
    requires k in m && less - {k} == m - {k}
    requires if k in less then less[k] < m[k] else m[k] > 0
    ensures Sum(less) < Sum(m)
  {
    SumAt(m, k);
    if k in less {
      SumAt(less, k);
    } else {
      assert less - {k} == less;
    }
  }
}
