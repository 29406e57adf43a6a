/**
 * Row locks between cancelling enrolments and deciding leave: cancellations lock enrolments and then
 * their pending requests, an approval locks its request and then, through a foreign key, its
 * enrolment. The strength of the enrolment lock is what keeps the two from waiting for each other.
 */
module LeaveLocks {
  import opened Common

  type TxId = nat

  datatype Row = EnrolmentRow(id: Uuid) | RequestRow(id: Uuid)

  /** PostgreSQL's row lock strengths, as far as they occur here. */
  datatype Mode = KeyShare | NoKeyUpdate | ForUpdate

  predicate Conflict(a: Mode, b: Mode) {
    if a.KeyShare? then b.ForUpdate? else if b.KeyShare? then a.ForUpdate? else true
  }

  datatype Tx =
    // One enrolment, locked for the ownership check; then its pending requests, in scan order.
    | CancelOne(enrolment: Uuid, locked: bool, requests: Option<seq<Uuid>>, taken: nat)
    // All of an order's enrolments in scan order, under the order's own row lock; then their requests.
    | CancelOrder(order: Uuid, enrolments: seq<Uuid>, held: nat, requests: Option<seq<Uuid>>, taken: nat)
    // The request, then the enrolment its attendance row refers to.
    | Approve(request: Uuid, stage: nat)
    // Rejecting, withdrawing a request or booking its makeup: the request only.
    | TakeRequest(request: Uuid, locked: bool)

  /** `mode`: how a single cancellation locks its enrolment. */
  datatype State = State(mode: Mode, enrolmentOf: map<Uuid, Uuid>, orderOf: map<Uuid, Uuid>, txs: map<TxId, Tx>)

  datatype Action =
    | Begin(x: TxId, tx: Tx)
    | Scan(x: TxId, requests: seq<Uuid>)
    | Acquire(x: TxId)
    | End(x: TxId)

  // ------------------------------------------------------------ holding, wanting

  /** The cancellation has all its enrolments. */
  predicate Holder(tx: Tx) {
    (tx.CancelOne? && tx.locked) || (tx.CancelOrder? && tx.held == |tx.enrolments|)
  }

  predicate HasEnrolment(tx: Tx, e: Uuid) {
    (tx.CancelOne? && tx.locked && tx.enrolment == e)
    || (tx.CancelOrder? && exists i :: 0 <= i < tx.held && i < |tx.enrolments| && tx.enrolments[i] == e)
  }

  predicate HasRequest(tx: Tx, r: Uuid) {
    match tx
    case CancelOne(_, _, Some(requests), taken) => exists i :: 0 <= i < taken && i < |requests| && requests[i] == r
    case CancelOrder(_, _, _, Some(requests), taken) => exists i :: 0 <= i < taken && i < |requests| && requests[i] == r
    case Approve(request, stage) => stage >= 1 && request == r
    case TakeRequest(request, locked) => locked && request == r
    case _ => false
  }

  /** The lock `tx` holds on `row`. */
  predicate Holds(s: State, tx: Tx, row: Row, mode: Mode) {
    match row
    case EnrolmentRow(e) =>
      || (HasEnrolment(tx, e) && mode == (if tx.CancelOne? then s.mode else NoKeyUpdate))
      || (tx.Approve? && tx.stage >= 2 && tx.request in s.enrolmentOf && s.enrolmentOf[tx.request] == e
          && mode == KeyShare)
    case RequestRow(r) => HasRequest(tx, r) && mode == NoKeyUpdate
  }

  /** The lock `tx` needs next. */
  function Wants(s: State, tx: Tx): Option<(Row, Mode)> {
    match tx
    case CancelOne(e, false, _, _) => Some((EnrolmentRow(e), s.mode))
    case CancelOne(_, true, Some(requests), taken) =>
      if taken < |requests| then Some((RequestRow(requests[taken]), NoKeyUpdate)) else None
    case CancelOrder(_, enrolments, held, requests, taken) =>
      if held < |enrolments| then Some((EnrolmentRow(enrolments[held]), NoKeyUpdate))
      else if requests.Some? && taken < |requests.value| then Some((RequestRow(requests.value[taken]), NoKeyUpdate))
      else None
    case Approve(r, stage) =>
      if stage == 0 then Some((RequestRow(r), NoKeyUpdate))
      else if stage == 1 && r in s.enrolmentOf then Some((EnrolmentRow(s.enrolmentOf[r]), KeyShare))
      else None
    case TakeRequest(r, false) => Some((RequestRow(r), NoKeyUpdate))
    case _ => None
  }

  ghost predicate WaitsFor(s: State, x: TxId, y: TxId) {
    && x in s.txs && y in s.txs && x != y && Wants(s, s.txs[x]).Some?
    && exists mode :: Holds(s, s.txs[y], Wants(s, s.txs[x]).value.0, mode) && Conflict(Wants(s, s.txs[x]).value.1, mode)
  }

  ghost predicate Enabled(s: State, a: Action) {
    match a
    case Begin(x, tx) =>
      && x !in s.txs
      && match tx {
        case CancelOne(_, locked, requests, taken) => !locked && requests.None? && taken == 0
        // The order's row is locked first, so no other cancellation of the order is under way.
        case CancelOrder(order, enrolments, held, requests, taken) =>
          && held == 0 && requests.None? && taken == 0
          && (forall e :: e in enrolments ==> e in s.orderOf && s.orderOf[e] == order)
          && forall y :: y in s.txs && s.txs[y].CancelOrder? ==> s.txs[y].order != order
        case Approve(_, stage) => stage == 0
        case TakeRequest(_, locked) => !locked
      }
    case Scan(x, requests) =>
      && x in s.txs && Holder(s.txs[x]) && s.txs[x].requests.None?
      && forall r :: r in requests ==> r in s.enrolmentOf && HasEnrolment(s.txs[x], s.enrolmentOf[r])
    case Acquire(x) =>
      x in s.txs && Wants(s, s.txs[x]).Some? && forall y :: y in s.txs ==> !WaitsFor(s, x, y)
    case End(x) => x in s.txs && Wants(s, s.txs[x]).None?
  }

  function Advanced(tx: Tx): Tx {
    match tx
    case CancelOne(e, locked, requests, taken) =>
      if !locked then CancelOne(e, true, requests, taken) else CancelOne(e, locked, requests, taken + 1)
    case CancelOrder(order, enrolments, held, requests, taken) =>
      if held < |enrolments| then CancelOrder(order, enrolments, held + 1, requests, taken)
      else CancelOrder(order, enrolments, held, requests, taken + 1)
    case Approve(r, stage) => Approve(r, stage + 1)
    case TakeRequest(r, _) => TakeRequest(r, true)
  }

  function Do(s: State, a: Action): State
    requires Enabled(s, a)
  {
    match a
    case Begin(x, tx) => s.(txs := s.txs[x := tx])
    case Scan(x, requests) => s.(txs := s.txs[x := s.txs[x].(requests := Some(requests))])
    case Acquire(x) => s.(txs := s.txs[x := Advanced(s.txs[x])])
    case End(x) => s.(txs := s.txs - {x})
  }

  // --------------------------------------------------------------- invariant

  ghost predicate TxOk(s: State, tx: Tx) {
    match tx
    case CancelOne(_, locked, requests, taken) =>
      && (requests.None? ==> taken == 0)
      && (requests.Some? ==> locked && taken <= |requests.value| && Scanned(s, tx, requests.value))
    case CancelOrder(order, enrolments, held, requests, taken) =>
      && held <= |enrolments|
      && (requests.None? ==> taken == 0)
      && (forall e :: e in enrolments ==> e in s.orderOf && s.orderOf[e] == order)
      && (requests.Some? ==> held == |enrolments| && taken <= |requests.value| && Scanned(s, tx, requests.value))
    case _ => true
  }

  /** A cancellation only touches requests of enrolments it has locked. */
  ghost predicate Scanned(s: State, tx: Tx, requests: seq<Uuid>) {
    forall r :: r in requests ==> r in s.enrolmentOf && HasEnrolment(tx, s.enrolmentOf[r])
  }

  ghost predicate Exclusive(s: State) {
    && (forall x, y, e :: x in s.txs && y in s.txs && x != y && HasEnrolment(s.txs[x], e) ==>
        !HasEnrolment(s.txs[y], e))
    && (forall x, y :: x in s.txs && y in s.txs && x != y && s.txs[x].CancelOrder? && s.txs[y].CancelOrder? ==>
          s.txs[x].order != s.txs[y].order)
  }

  ghost predicate Safe(s: State) {
    !s.mode.KeyShare? && Exclusive(s) && forall x :: x in s.txs ==> TxOk(s, s.txs[x])
  }

  lemma AdvancedHas(s: State, tx: Tx, e: Uuid)
    requires TxOk(s, tx) && Wants(s, tx).Some?
    ensures HasEnrolment(Advanced(tx), e) <==>
            HasEnrolment(tx, e) || (Wants(s, tx).value.0 == EnrolmentRow(e) && !tx.Approve?)
  {
    if tx.CancelOrder? && tx.held < |tx.enrolments| {
      var after := Advanced(tx);
      assert after.enrolments[tx.held] == tx.enrolments[tx.held];
      if HasEnrolment(tx, e) {
        var i :| 0 <= i < tx.held && i < |tx.enrolments| && tx.enrolments[i] == e;
        assert after.enrolments[i] == e;
      }
    }
  }

  lemma AcquireIsOk(s: State, x: TxId)
    requires Safe(s) && Enabled(s, Acquire(x))
    ensures TxOk(s, Advanced(s.txs[x]))
  {
    var tx := s.txs[x];
    assert TxOk(s, tx);
    if (tx.CancelOne? || tx.CancelOrder?) && tx.requests.Some? {
      forall r | r in tx.requests.value ensures r in s.enrolmentOf && HasEnrolment(Advanced(tx), s.enrolmentOf[r]) {
        AdvancedHas(s, tx, s.enrolmentOf[r]);
      }
    }
  }

  lemma HolderBlocks(s: State, x: TxId, y: TxId, e: Uuid)
    requires Safe(s) && x in s.txs && y in s.txs && x != y && !s.txs[x].Approve?
    requires Wants(s, s.txs[x]).Some? && Wants(s, s.txs[x]).value.0 == EnrolmentRow(e)
    ensures HasEnrolment(s.txs[y], e) ==> WaitsFor(s, x, y)
  {
    assert HasEnrolment(s.txs[y], e) ==>
        Holds(s, s.txs[y], EnrolmentRow(e), if s.txs[y].CancelOne? then s.mode else NoKeyUpdate);
  }

  lemma AcquireIsExclusive(s: State, x: TxId, y: TxId, e: Uuid)
    requires Safe(s) && Enabled(s, Acquire(x)) && y in s.txs && x != y && HasEnrolment(Advanced(s.txs[x]), e)
    ensures !HasEnrolment(s.txs[y], e)
  {
    assert TxOk(s, s.txs[x]);
    AdvancedHas(s, s.txs[x], e);
    if Wants(s, s.txs[x]).value.0 == EnrolmentRow(e) && !s.txs[x].Approve? {
      HolderBlocks(s, x, y, e);
    }
  }

  lemma AcquireKeepsSafe(s: State, x: TxId)
    requires Safe(s) && Enabled(s, Acquire(x))
    ensures Safe(Do(s, Acquire(x)))
  {
    AcquireIsOk(s, x);
    forall y, e | y in s.txs && x != y && HasEnrolment(Advanced(s.txs[x]), e) ensures !HasEnrolment(s.txs[y], e) {
      AcquireIsExclusive(s, x, y, e);
    }
    TableStays(s, Do(s, Acquire(x)), x);
  }

  /** Only `x` changed, and into something that is all right. */
  lemma TableStays(s: State, t: State, x: TxId)
    requires Safe(s) && t == s.(txs := t.txs) && x in t.txs && TxOk(s, t.txs[x])
    requires forall y :: y in t.txs && y != x ==> y in s.txs && t.txs[y] == s.txs[y]
    ensures forall y :: y in t.txs ==> TxOk(t, t.txs[y])
  {
    forall y | y in t.txs ensures TxOk(t, t.txs[y]) {
      assert TxOk(s, t.txs[y]);
      SameTables(s, t, t.txs[y]);
    }
  }

  lemma SameTables(s: State, t: State, tx: Tx)
    requires t == s.(txs := t.txs) && TxOk(s, tx)
    ensures TxOk(t, tx)
  {
  }

  lemma ScanKeepsSafe(s: State, x: TxId, requests: seq<Uuid>)
    requires Safe(s) && Enabled(s, Scan(x, requests))
    ensures Safe(Do(s, Scan(x, requests)))
  {
    var after := s.txs[x].(requests := Some(requests));
    assert TxOk(s, s.txs[x]);
    forall e ensures HasEnrolment(after, e) <==> HasEnrolment(s.txs[x], e) {
    }
    assert TxOk(s, after);
    TableStays(s, Do(s, Scan(x, requests)), x);
  }

  lemma BeginKeepsSafe(s: State, x: TxId, tx: Tx)
    requires Safe(s) && Enabled(s, Begin(x, tx))
    ensures Safe(Do(s, Begin(x, tx)))
  {
    assert TxOk(s, tx);
    TableStays(s, Do(s, Begin(x, tx)), x);
  }

  lemma SafeStep(s: State, a: Action)
    requires Safe(s) && Enabled(s, a)
    ensures Safe(Do(s, a))
  {
    match a
    case Acquire(x) => AcquireKeepsSafe(s, x);
    case Scan(x, requests) => ScanKeepsSafe(s, x, requests);
    case Begin(x, tx) => BeginKeepsSafe(s, x, tx);
    case End(_) =>
      forall y | y in Do(s, a).txs ensures TxOk(Do(s, a), Do(s, a).txs[y]) {
        SameTables(s, Do(s, a), s.txs[y]);
      }
  }

  // ------------------------------------------------------------ no deadlock

  /** Who may wait for whom: only for a smaller rank. */
  function Rank(tx: Tx): nat {
    match tx
    case Approve(_, stage) => if stage == 0 then 2 else 0
    case TakeRequest(_, locked) => if locked then 0 else 2
    case CancelOrder(_, _, _, _, _) => if Holder(tx) then 1 else 3
    case CancelOne(_, _, _, _) => if Holder(tx) then 1 else 4
  }

  lemma WaitingForEnrolment(s: State, x: TxId, y: TxId)
    requires Safe(s) && s.mode == NoKeyUpdate && WaitsFor(s, x, y) && Wants(s, s.txs[x]).value.0.EnrolmentRow?
    ensures Rank(s.txs[y]) < Rank(s.txs[x])
  {
    var e := Wants(s, s.txs[x]).value.0.id;
    assert TxOk(s, s.txs[x]) && TxOk(s, s.txs[y]);
    assert HasEnrolment(s.txs[y], e);
    OrderHolds(s, s.txs[y], e);
  }

  lemma OrderHolds(s: State, tx: Tx, e: Uuid)
    requires TxOk(s, tx) && HasEnrolment(tx, e)
    ensures tx.CancelOrder? ==> e in s.orderOf && s.orderOf[e] == tx.order
  {
  }

  lemma WaitingForRequest(s: State, x: TxId, y: TxId)
    requires Safe(s) && WaitsFor(s, x, y) && Wants(s, s.txs[x]).value.0.RequestRow?
    ensures Rank(s.txs[y]) < Rank(s.txs[x])
  {
    var r := Wants(s, s.txs[x]).value.0.id;
    assert TxOk(s, s.txs[x]) && TxOk(s, s.txs[y]);
    assert HasRequest(s.txs[y], r);
    ScansItsOwn(s, s.txs[x], r);
    ScansItsOwn(s, s.txs[y], r);
  }

  /** A cancellation that has or wants a request holds the request's enrolment. */
  lemma ScansItsOwn(s: State, tx: Tx, r: Uuid)
    requires TxOk(s, tx) && (HasRequest(tx, r) || Wants(s, tx) == Some((RequestRow(r), NoKeyUpdate)))
    ensures tx.CancelOne? || tx.CancelOrder? ==>
              Holder(tx) && r in s.enrolmentOf && HasEnrolment(tx, s.enrolmentOf[r])
  {
  }

  lemma RankDrops(s: State, x: TxId, y: TxId)
    requires Safe(s) && s.mode == NoKeyUpdate && WaitsFor(s, x, y)
    ensures Rank(s.txs[y]) < Rank(s.txs[x])
  {
    if Wants(s, s.txs[x]).value.0.EnrolmentRow? {
      WaitingForEnrolment(s, x, y);
    } else {
      WaitingForRequest(s, x, y);
    }
  }

  ghost predicate WaitChain(s: State, chain: seq<TxId>) {
    |chain| >= 2 && forall i :: 0 <= i < |chain| - 1 ==> WaitsFor(s, chain[i], chain[i + 1])
  }

  lemma {:induction false} ChainDescends(s: State, chain: seq<TxId>)
    requires Safe(s) && s.mode == NoKeyUpdate && WaitChain(s, chain)
    ensures chain[0] in s.txs && chain[|chain| - 1] in s.txs
    ensures Rank(s.txs[chain[|chain| - 1]]) < Rank(s.txs[chain[0]])
    decreases |chain|
  {
    assert WaitsFor(s, chain[0], chain[1]);
    RankDrops(s, chain[0], chain[1]);
    if |chain| > 2 {
      forall i | 0 <= i < |chain[1..]| - 1 ensures WaitsFor(s, chain[1..][i], chain[1..][i + 1]) {
        assert WaitsFor(s, chain[i + 1], chain[i + 2]);
      }
      ChainDescends(s, chain[1..]);
    }
  }

  /** From any open transaction, following those it waits for leads to one that can move. */
  lemma {:induction false} SomeoneCanMove(s: State, x: TxId)
    requires Safe(s) && s.mode == NoKeyUpdate && x in s.txs
    ensures exists y :: y in s.txs && (Enabled(s, Acquire(y)) || Enabled(s, End(y)))
    decreases Rank(s.txs[x])
  {
    if y :| y in s.txs && WaitsFor(s, x, y) {
      RankDrops(s, x, y);
      SomeoneCanMove(s, y);
    } else {
      assert Enabled(s, Acquire(x)) || Enabled(s, End(x));
    }
  }

  ghost predicate Run(s: State, acts: seq<Action>)
    decreases |acts|
  {
    acts == [] || (Enabled(s, acts[0]) && Run(Do(s, acts[0]), acts[1..]))
  }

  ghost function After(s: State, acts: seq<Action>): State
    requires Run(s, acts)
    decreases |acts|
  {
    if acts == [] then s else After(Do(s, acts[0]), acts[1..])
  }

  lemma {:induction false} LocksAreSafe(s: State, acts: seq<Action>)
    requires Safe(s) && Run(s, acts)
    ensures Safe(After(s, acts)) && After(s, acts).mode == s.mode
    decreases |acts|
  {
    if acts != [] {
      SafeStep(s, acts[0]);
      LocksAreSafe(Do(s, acts[0]), acts[1..]);
    }
  }

  /** The locks a transaction still takes, without what a scan may yet find, and its end. */
  function Work(tx: Tx): nat {
    match tx
    case CancelOne(_, locked, requests, taken) => (if locked then 1 else 2) + Left(requests, taken)
    case CancelOrder(_, enrolments, held, requests, taken) =>
      1 + (if held < |enrolments| then |enrolments| - held else 0) + Left(requests, taken)
    case Approve(_, stage) => if stage < 2 then 3 - stage else 1
    case TakeRequest(_, locked) => if locked then 1 else 2
  }

  function Left(requests: Option<seq<Uuid>>, taken: nat): nat {
    if requests.Some? && taken < |requests.value| then |requests.value| - taken else 0
  }

  function Works(s: State): map<nat, nat> {
    map x | x in s.txs :: Work(s.txs[x])
  }

  lemma WorkDrops(s: State, a: Action)
    requires Safe(s) && Enabled(s, a) && (a.Acquire? || a.End?)
    ensures Sum(Works(Do(s, a))) < Sum(Works(s))
  {
    assert TxOk(s, s.txs[a.x]);
    SumDrops(Works(s), a.x, Works(Do(s, a)));
  }

  lemma {:induction false} AllFinish(s: State) returns (acts: seq<Action>)
    requires Safe(s) && s.mode == NoKeyUpdate
    ensures Run(s, acts) && After(s, acts).txs == map[]
    decreases Sum(Works(s))
  {
    if s.txs == map[] {
      return [];
    }
    var x :| x in s.txs;
    SomeoneCanMove(s, x);
    var y :| y in s.txs && (Enabled(s, Acquire(y)) || Enabled(s, End(y)));
    var a := if Enabled(s, Acquire(y)) then Acquire(y) else End(y);
    SafeStep(s, a);
    WorkDrops(s, a);
    var rest := AllFinish(Do(s, a));
    acts := [a] + rest;
    assert acts[1..] == rest;
  }

  /**
   * Cancellations, approvals and everything else that locks a request never deadlock: in no
   * reachable state does a chain of waiters close; while any transaction is open one can move; and
   * from there all of them can finish.
   */
  lemma CancelAndApproveNeverDeadlock(s: State, acts: seq<Action>, chain: seq<TxId>)
    requires s.mode == NoKeyUpdate && s.txs == map[] && Run(s, acts)
    ensures WaitChain(After(s, acts), chain) ==> chain[0] != chain[|chain| - 1]
    ensures After(s, acts).txs != map[] ==>
              exists y :: y in After(s, acts).txs
                          && (Enabled(After(s, acts), Acquire(y)) || Enabled(After(s, acts), End(y)))
    ensures exists rest :: Run(After(s, acts), rest) && After(After(s, acts), rest).txs == map[]
  {
    LocksAreSafe(s, acts);
    var t := After(s, acts);
    var rest := AllFinish(t);
    if WaitChain(t, chain) {
      ChainDescends(t, chain);
    }
    if t.txs != map[] {
      var x :| x in t.txs;
      SomeoneCanMove(t, x);
    }
  }

  /** Locking the enrolment FOR UPDATE instead, one cancellation and one approval are enough for a cycle. */
  lemma ForUpdateDeadlocks(enrolment: Uuid, request: Uuid)
    ensures var s := State(ForUpdate, map[request := enrolment], map[], map[]);
            var acts := [Begin(0, CancelOne(enrolment, false, None, 0))] + ([Begin(1, Approve(request, 0))]
                        + ([Acquire(0)] + ([Acquire(1)] + ([Scan(0, [request])] + []))));
            && Run(s, acts) && WaitChain(After(s, acts), [0, 1, 0])
            && forall y :: y in After(s, acts).txs ==>
                !Enabled(After(s, acts), Acquire(y)) && !Enabled(After(s, acts), End(y))
  {
    var s := State(ForUpdate, map[request := enrolment], map[], map[]);
    var s1 := s.(txs := map[0 := CancelOne(enrolment, false, None, 0)]);
    var s2 := s1.(txs := s1.txs[1 := Approve(request, 0)]);
    var s3 := s2.(txs := s2.txs[0 := CancelOne(enrolment, true, None, 0)]);
    var s4 := s3.(txs := s3.txs[1 := Approve(request, 1)]);
    var s5 := s4.(txs := s4.txs[0 := CancelOne(enrolment, true, Some([request]), 0)]);
    OneMore(s4, Scan(0, [request]), [], s5);
    OneMore(s3, Acquire(1), [Scan(0, [request])] + [], s4);
    OneMore(s2, Acquire(0), [Acquire(1)] + ([Scan(0, [request])] + []), s3);
    OneMore(s1, Begin(1, Approve(request, 0)), [Acquire(0)] + ([Acquire(1)] + ([Scan(0, [request])] + [])), s2);
    OneMore(s, Begin(0, CancelOne(enrolment, false, None, 0)),
            [Begin(1, Approve(request, 0))] + ([Acquire(0)] + ([Acquire(1)] + ([Scan(0, [request])] + []))), s1);
    BothWait(s5, enrolment, request);
  }

  lemma BothWait(s: State, enrolment: Uuid, request: Uuid)
    requires s.mode == ForUpdate && s.enrolmentOf == map[request := enrolment]
    requires s.txs == map[0 := CancelOne(enrolment, true, Some([request]), 0), 1 := Approve(request, 1)]
    ensures WaitChain(s, [0, 1, 0])
    ensures forall y :: y in s.txs ==> !Enabled(s, Acquire(y)) && !Enabled(s, End(y))
  {
    assert Wants(s, s.txs[0]) == Some((RequestRow(request), NoKeyUpdate));
    assert Wants(s, s.txs[1]) == Some((EnrolmentRow(enrolment), KeyShare));
    assert Holds(s, s.txs[1], RequestRow(request), NoKeyUpdate);
    assert Holds(s, s.txs[0], EnrolmentRow(enrolment), ForUpdate);
    assert WaitsFor(s, 0, 1) && WaitsFor(s, 1, 0);
  }

  lemma OneMore(s: State, a: Action, acts: seq<Action>, t: State)
    requires Enabled(s, a) && Do(s, a) == t && Run(t, acts)
    ensures Run(s, [a] + acts) && After(s, [a] + acts) == After(t, acts)
  {
    assert ([a] + acts)[1..] == acts;
  }
}
