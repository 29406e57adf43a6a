/** Course row locks: the witness and its order, and why transactions that follow it cannot deadlock. */
module CourseLocks {
  import opened Common

  ghost predicate Ascending(ids: seq<Uuid>) {
    forall i, j :: 0 <= i < j < |ids| ==> ids[i] < ids[j]
  }

  // ------------------------------------------------------------- the witness

  /** `lock_courses_tx`: the existing rows among the requested ids, in the order they are locked. */
  ghost predicate Locks(existing: set<Uuid>, requested: seq<Uuid>, ids: seq<Uuid>) {
    Ascending(ids) && forall id :: id in ids <==> id in requested && id in existing
  }

  /** The witness is determined by what was asked for: there is only one such order. */
  lemma {:induction false} LocksAreUnique(existing: set<Uuid>, requested: seq<Uuid>, a: seq<Uuid>, b: seq<Uuid>)
    requires Locks(existing, requested, a) && Locks(existing, requested, b)
    ensures a == b
    decreases |a|
  {
    assert a != [] ==> a[0] in b;
    assert b != [] ==> b[0] in a;
    if a != [] {
      var x := a[0];
      assert a[0] == b[0];
      forall id ensures (id in a <==> id == x || id in a[1..]) && (id in b <==> id == x || id in b[1..]) {
      }
      LocksAreUnique(existing - {x}, requested, a[1..], b[1..]);
    }
  }

  /** `binary_search` on the witness's ids. */
  method Covers(ids: seq<Uuid>, course: Uuid) returns (found: bool)
    requires Ascending(ids)
    ensures found <==> course in ids
  {
    var lo, hi := 0, |ids|;
    while lo < hi
      invariant 0 <= lo <= hi <= |ids|
      invariant forall i :: 0 <= i < lo ==> ids[i] < course
      invariant forall i :: hi <= i < |ids| ==> course < ids[i]
    {
      var mid := (lo + hi) / 2;
      if ids[mid] == course {
        return true;
      } else if ids[mid] < course {
        lo := mid + 1;
      } else {
        hi := mid;
      }
    }
    found := false;
  }

  datatype Ordered<T> = Sorted(items: seq<T>) | NotCovered(course: Uuid)

  /** The first item whose course the witness does not cover. */
  ghost predicate FirstUncovered<T>(ids: seq<Uuid>, items: seq<T>, id: T -> Uuid, k: nat) {
    k < |items| && id(items[k]) !in ids && forall j :: 0 <= j < k ==> id(items[j]) in ids
  }

  /** Items in lock order, every one of them covered -- or the first that is not. */
  method InLockOrder<T>(ids: seq<Uuid>, items: seq<T>, id: T -> Uuid) returns (ordered: Ordered<T>)
    requires Ascending(ids)
    ensures ordered.Sorted? <==> forall x :: x in items ==> id(x) in ids
    ensures ordered.Sorted? ==>
              SortedByKey(id, ordered.items) && multiset(ordered.items) == multiset(items)
    ensures ordered.NotCovered? ==>
              exists k: nat :: FirstUncovered(ids, items, id, k) && ordered.course == id(items[k])
  {
    var k := 0;
    while k < |items|
      invariant 0 <= k <= |items|
      invariant forall j :: 0 <= j < k ==> id(items[j]) in ids
    {
      var found := Covers(ids, id(items[k]));
      if !found {
        assert FirstUncovered(ids, items, id, k);
        return NotCovered(id(items[k]));
      }
      k := k + 1;
    }
    SortByKeySorts(id, items);
    ordered := Sorted(SortByKey(id, items));
  }

  // ------------------------------------------------------- locking as a machine

  type TxId = nat

  /** A transaction locks `ids[..held]` so far and keeps them until it ends. */
  datatype Tx = Tx(ids: seq<Uuid>, held: nat)

  type State = map<TxId, Tx>

  datatype Action = Begin(x: TxId, ids: seq<Uuid>) | Acquire(x: TxId) | End(x: TxId)

  predicate Waiting(tx: Tx) {
    tx.held < |tx.ids|
  }

  predicate Holds(tx: Tx, id: Uuid) {
    exists i :: 0 <= i < tx.held && i < |tx.ids| && tx.ids[i] == id
  }

  /** `x` is waiting for a row `y` holds. */
  predicate WaitsFor(s: State, x: TxId, y: TxId) {
    x in s && y in s && x != y && Waiting(s[x]) && Holds(s[y], s[x].ids[s[x].held])
  }

  ghost predicate Enabled(s: State, a: Action) {
    match a
    case Begin(x, ids) => x !in s && Ascending(ids)
    case Acquire(x) => x in s && Waiting(s[x]) && forall y :: y in s ==> !WaitsFor(s, x, y)
    case End(x) => x in s && !Waiting(s[x])
  }

  function Do(s: State, a: Action): State
    requires Enabled(s, a)
  {
    match a
    case Begin(x, ids) => s[x := Tx(ids, 0)]
    case Acquire(x) => s[x := s[x].(held := s[x].held + 1)]
    case End(x) => s - {x}
  }

  ghost predicate Run(s: State, acts: seq<Action>)
    decreases |acts|
  {
    acts == [] || (Enabled(s, acts[0]) && Run(Do(s, acts[0]), acts[1..]))
  }

  ghost function After(s: State, acts: seq<Action>): State
    requires Run(s, acts)
    decreases |acts|
  {
    if acts == [] then s else After(Do(s, acts[0]), acts[1..])
  }

  ghost predicate Safe(s: State) {
    && (forall x :: x in s ==> s[x].held <= |s[x].ids| && Ascending(s[x].ids))
    && (forall x, y, id :: x in s && y in s && x != y && Holds(s[x], id) ==> !Holds(s[y], id))
  }

  lemma SafeStep(s: State, a: Action)
    requires Safe(s) && Enabled(s, a)
    ensures Safe(Do(s, a))
  {
    var t := Do(s, a);
    forall x, y, id | x in t && y in t && x != y && Holds(t[x], id) ensures !Holds(t[y], id) {
      HeldBefore(s, a, x, id);
      HeldBefore(s, a, y, id);
    }
  }

  lemma HeldBefore(s: State, a: Action, x: TxId, id: Uuid)
    requires Safe(s) && Enabled(s, a) && x in Do(s, a)
    ensures Holds(Do(s, a)[x], id) <==>
            (x in s && Holds(s[x], id)) || (a == Acquire(x) && id == s[x].ids[s[x].held])
  {
    if a == Acquire(x) {
      var tx := Do(s, a)[x];
      assert tx.ids[s[x].held] == s[x].ids[s[x].held];
      if Holds(s[x], id) {
        var i :| 0 <= i < s[x].held && i < |s[x].ids| && s[x].ids[i] == id;
        assert tx.ids[i] == id;
      }
    }
  }

  /** A chain of transactions each waiting for the next. */
  ghost predicate WaitChain(s: State, chain: seq<TxId>) {
    |chain| >= 1 && forall i :: 0 <= i < |chain| - 1 ==> WaitsFor(s, chain[i], chain[i + 1])
  }

  /** The row a waiting transaction wants. */
  function Wanted(s: State, x: TxId): Uuid
    requires x in s && Waiting(s[x])
  {
    s[x].ids[s[x].held]
  }

  /** Along a chain of waiters the awaited row ids strictly increase. */
  lemma {:induction false} AwaitedRowsIncrease(s: State, chain: seq<TxId>)
    requires Safe(s) && WaitChain(s, chain) && |chain| >= 2
    requires chain[|chain| - 1] in s && Waiting(s[chain[|chain| - 1]])
    ensures chain[0] in s && Waiting(s[chain[0]])
    ensures Wanted(s, chain[0]) < Wanted(s, chain[|chain| - 1])
    decreases |chain|
  {
    assert WaitsFor(s, chain[0], chain[1]);
    var y := s[chain[1]];
    var i :| 0 <= i < y.held && i < |y.ids| && y.ids[i] == Wanted(s, chain[0]);
    if |chain| > 2 {
      assert forall j :: 0 <= j < |chain| - 2 ==> WaitsFor(s, chain[1..][j], chain[1..][j + 1]) by {
        forall j | 0 <= j < |chain| - 2 ensures WaitsFor(s, chain[1..][j], chain[1..][j + 1]) {
          assert WaitsFor(s, chain[j + 1], chain[j + 2]);
        }
      }
      AwaitedRowsIncrease(s, chain[1..]);
    }
  }

  /** The longest climb: from any waiter, following holders reaches a transaction that can move. */
  lemma {:induction false} SomeoneCanMove(s: State, x: TxId, seen: set<TxId>)
    requires Safe(s) && x in s
    requires seen <= s.Keys && x !in seen
    requires forall z :: z in seen ==> Waiting(s[z]) && (Waiting(s[x]) ==> Wanted(s, z) < Wanted(s, x))
    ensures exists y :: y in s && (Enabled(s, Acquire(y)) || Enabled(s, End(y)))
    decreases |s.Keys - seen|
  {
    if !Waiting(s[x]) {
      assert Enabled(s, End(x));
    } else if y :| y in s && WaitsFor(s, x, y) {
      if Waiting(s[y]) {
        AwaitedRowsIncrease(s, [x, y]);
      }
      assert y !in seen by {
        if y in seen {
          AwaitedRowsIncrease(s, [x, y]);
        }
      }
      assert s.Keys - (seen + {x}) < s.Keys - seen by {
        assert x in s.Keys - seen;
      }
      CardinalityDrops(s.Keys - (seen + {x}), s.Keys - seen, x);
      SomeoneCanMove(s, y, seen + {x});
    } else {
      assert Enabled(s, Acquire(x));
    }
  }

  lemma CardinalityDrops<T>(a: set<T>, b: set<T>, x: T)
    requires a <= b && x in b && x !in a
    ensures |a| < |b|
  {
    CardinalityOfSubset(a + {x}, b);
  }

  lemma {:induction false} RunIsSafe(s: State, acts: seq<Action>)
    requires Safe(s) && Run(s, acts)
    ensures Safe(After(s, acts))
    decreases |acts|
  {
    if acts != [] {
      SafeStep(s, acts[0]);
      RunIsSafe(Do(s, acts[0]), acts[1..]);
    }
  }

  /** The rows still to lock, and the end. */
  function Work(tx: Tx): nat {
    if tx.held < |tx.ids| then |tx.ids| - tx.held + 1 else 1
  }

  function Works(s: State): map<nat, nat> {
    map x | x in s :: Work(s[x])
  }

  lemma WorkDrops(s: State, a: Action)
    requires Safe(s) && Enabled(s, a) && (a.Acquire? || a.End?)
    ensures Sum(Works(Do(s, a))) < Sum(Works(s))
  {
    SumDrops(Works(s), a.x, Works(Do(s, a)));
  }

  lemma {:induction false} AllFinish(s: State) returns (acts: seq<Action>)
    requires Safe(s)
    ensures Run(s, acts) && After(s, acts) == map[]
    decreases Sum(Works(s))
  {
    if s == map[] {
      return [];
    }
    var x :| x in s;
    SomeoneCanMove(s, x, {});
    var y :| y in s && (Enabled(s, Acquire(y)) || Enabled(s, End(y)));
    var a := if Enabled(s, Acquire(y)) then Acquire(y) else End(y);
    SafeStep(s, a);
    WorkDrops(s, a);
    var rest := AllFinish(Do(s, a));
    acts := [a] + rest;
    assert acts[1..] == rest;
  }

  /**
   * Deadlock freedom: however many transactions lock whatever sets of courses, in no reachable
   * state does a chain of waiters close into a cycle; while any transaction is open, one can move;
   * and from there all of them can finish.
   */
  lemma NoDeadlock(acts: seq<Action>, chain: seq<TxId>)
    requires Run(map[], acts)
    ensures WaitChain(After(map[], acts), chain) && |chain| >= 2 ==> chain[0] != chain[|chain| - 1]
    ensures After(map[], acts) != map[] ==>
              exists y :: y in After(map[], acts)
                          && (Enabled(After(map[], acts), Acquire(y)) || Enabled(After(map[], acts), End(y)))
    ensures exists rest :: Run(After(map[], acts), rest) && After(After(map[], acts), rest) == map[]
  {
    RunIsSafe(map[], acts);
    var s := After(map[], acts);
    var rest := AllFinish(s);
    if WaitChain(s, chain) && |chain| >= 2 {
      assert WaitsFor(s, chain[0], chain[1]);
      if chain[0] == chain[|chain| - 1] {
        AwaitedRowsIncrease(s, chain);
      }
    }
    if s != map[] {
      var x :| x in s;
      SomeoneCanMove(s, x, {});
    }
  }

  // ------------------------------------------------- without the order

  /** Two transactions that lock the same two rows in opposite orders, each holding its first. */
  function Crossed(low: Uuid, high: Uuid): State {
    map[0 := Tx([low, high], 1), 1 := Tx([high, low], 1)]
  }

  /** The ascending order is what prevents the deadlock: locked crosswise, two rows are enough. */
  lemma CrossedOrderDeadlocks(low: Uuid, high: Uuid)
    requires low < high
    ensures var s := Crossed(low, high);
            && WaitChain(s, [0, 1, 0])
            && forall y :: y in s ==> !Enabled(s, Acquire(y)) && !Enabled(s, End(y))
  {
    var s := Crossed(low, high);
    assert s[0].ids[0] == low && s[1].ids[0] == high;
    assert WaitsFor(s, 0, 1) && WaitsFor(s, 1, 0);
  }
}
