/**
 * Enrolment batches against each other and against cancellations, statement by statement: the
 * course rows are locked first, the seats are counted in a later statement, and what a batch has
 * inserted is invisible to others until it commits.
 */
module EnrolmentRuns {
  import opened Common
  import CourseLocks
  import opened Enrolments

  type TxId = nat

  /** What a batch has established about the course it is at. */
  datatype Phase = Ready | Counted | Checked

  datatype Tx = Tx(
    user: Uuid,
    order: Uuid,
    courses: seq<Uuid>,   // in lock order
    locked: nat,          // rows locked so far
    next: nat,            // course being enrolled
    phase: Phase,
    pending: Table)       // inserted, not committed

  datatype State = State(
    capacity: map<Uuid, nat>,
    rows: Table,
    txs: map<TxId, Tx>,
    used: set<Uuid>)      // every enrolment id handed out

  datatype Action =
    | Begin(x: TxId, user: Uuid, order: Uuid, courses: seq<Uuid>)
    | Lock(x: TxId)
    | CountSeats(x: TxId)
    | CheckDuplicate(x: TxId)
    | Insert(x: TxId, id: Uuid)
    | Commit(x: TxId)
    | Abort(x: TxId)
    | Cancel(id: Uuid)
    | CancelByOrder(order: Uuid)
    | AddCourse(course: Uuid, max: nat)
    | RaiseCapacity(course: Uuid, max: nat)

  predicate Holds(tx: Tx, course: Uuid) {
    exists i :: 0 <= i < tx.locked && i < |tx.courses| && tx.courses[i] == course
  }

  ghost predicate Free(s: State, x: TxId, course: Uuid) {
    forall y :: y in s.txs && y != x ==> !Holds(s.txs[y], course)
  }

  /** What transaction `x` sees: the committed rows and its own. */
  function View(s: State, x: TxId): Table
    requires x in s.txs
  {
    s.rows + s.txs[x].pending
  }

  /** All locks are taken and a course is left to enrol. */
  predicate Enrolling(s: State, x: TxId, phase: Phase) {
    x in s.txs && s.txs[x].locked == |s.txs[x].courses| && s.txs[x].next < |s.txs[x].courses| && s.txs[x].phase == phase
  }

  function Course(s: State, x: TxId): Uuid
    requires x in s.txs && s.txs[x].next < |s.txs[x].courses|
  {
    s.txs[x].courses[s.txs[x].next]
  }

  ghost predicate Enabled(s: State, a: Action) {
    match a
    case Begin(x, _, _, courses) => x !in s.txs && CourseLocks.Ascending(courses)
    case Lock(x) =>
      x in s.txs && s.txs[x].locked < |s.txs[x].courses| && Free(s, x, s.txs[x].courses[s.txs[x].locked])
    // A failed check aborts the batch instead.
    case CountSeats(x) =>
      Enrolling(s, x, Ready) && Course(s, x) in s.capacity && !IsFull(s.capacity, View(s, x), Course(s, x))
    case CheckDuplicate(x) => Enrolling(s, x, Counted) && !ExistsActive(View(s, x), s.txs[x].user, Course(s, x))
    case Insert(x, id) => Enrolling(s, x, Checked) && id !in s.used
    case Commit(x) => x in s.txs && s.txs[x].locked == s.txs[x].next == |s.txs[x].courses|
    case Abort(x) => x in s.txs
    case Cancel(id) => true
    case CancelByOrder(_) => true
    case AddCourse(course, _) => course !in s.capacity
    case RaiseCapacity(course, max) => course in s.capacity && s.capacity[course] <= max
  }

  /** The conditional UPDATE: active rows of the given ids turn cancelled. */
  function Cancelled(rows: Table, ids: set<Uuid>): Table {
    map e | e in rows :: if e in ids then rows[e].(active := false) else rows[e]
  }

  function OfOrder(rows: Table, order: Uuid): set<Uuid> {
    set e | e in rows && rows[e].order == order
  }

  function Do(s: State, a: Action): State
    requires Enabled(s, a)
  {
    match a
    case Begin(x, user, order, courses) => s.(txs := s.txs[x := Tx(user, order, courses, 0, 0, Ready, map[])])
    case Lock(x) => s.(txs := s.txs[x := s.txs[x].(locked := s.txs[x].locked + 1)])
    case CountSeats(x) => s.(txs := s.txs[x := s.txs[x].(phase := Counted)])
    case CheckDuplicate(x) => s.(txs := s.txs[x := s.txs[x].(phase := Checked)])
    case Insert(x, id) =>
      var tx := s.txs[x];
      s.(txs := s.txs[x := tx.(
           next := tx.next + 1, phase := Ready,
           pending := tx.pending[id := Enrolment(tx.user, Course(s, x), tx.order, true)])],
         used := s.used + {id})
    case Commit(x) => s.(rows := View(s, x), txs := s.txs - {x})
    case Abort(x) => s.(txs := s.txs - {x})
    case Cancel(id) => s.(rows := Cancelled(s.rows, {id}))
    case CancelByOrder(order) => s.(rows := Cancelled(s.rows, OfOrder(s.rows, order)))
    case AddCourse(course, max) => s.(capacity := s.capacity[course := max])
    case RaiseCapacity(course, max) => s.(capacity := s.capacity[course := max])
  }

  ghost predicate Init(s: State) {
    s.rows == map[] && s.txs == map[] && s.used == {}
  }

  // --------------------------------------------------------------- invariant

  /** Nobody holds more seats than there are. */
  ghost predicate WithinCapacity(capacity: map<Uuid, nat>, rows: Table) {
    forall c :: c in capacity ==> |ActiveIn(rows, c)| <= capacity[c]
  }

  /** Enrolments only name courses that exist. */
  ghost predicate CoursesKnown(capacity: map<Uuid, nat>, rows: Table) {
    forall e :: e in rows ==> rows[e].course in capacity
  }

  /** The tables as one transaction sees them obey the rules. */
  ghost predicate ViewOk(capacity: map<Uuid, nat>, view: Table) {
    WithinCapacity(capacity, view) && CoursesKnown(capacity, view) && UniqueActive(view)
  }

  predicate Passed(tx: Tx, course: Uuid) {
    exists i :: 0 <= i < tx.next && i < |tx.courses| && tx.courses[i] == course
  }

  predicate Placed(tx: Tx, course: Uuid) {
    exists e :: e in tx.pending && tx.pending[e].course == course
  }

  predicate InBuyersName(tx: Tx, e: Enrolment) {
    e.active && e.user == tx.user && e.order == tx.order
  }

  /** One active enrolment for each course already passed, in the buyer's name. */
  ghost predicate PendingOk(tx: Tx) {
    && tx.locked <= |tx.courses| && tx.next <= |tx.courses|
    && (tx.next > 0 || !tx.phase.Ready? ==> tx.locked == |tx.courses|)
    && (forall e :: e in tx.pending ==> InBuyersName(tx, tx.pending[e]) && Passed(tx, tx.pending[e].course))
    && (forall i :: 0 <= i < tx.next ==> Placed(tx, tx.courses[i]))
  }

  /** What the checks of the current course have established still holds. */
  ghost predicate PhaseOk(tx: Tx, capacity: map<Uuid, nat>, view: Table) {
    && (!tx.phase.Ready? ==>
          && tx.next < |tx.courses| && tx.courses[tx.next] in capacity
          && |ActiveIn(view, tx.courses[tx.next])| < capacity[tx.courses[tx.next]])
    && (tx.phase.Checked? ==> !ExistsActive(view, tx.user, tx.courses[tx.next]))
  }

  ghost predicate Fits(tx: Tx, rows: Table, capacity: map<Uuid, nat>, used: set<Uuid>) {
    && PendingOk(tx)
    && tx.pending.Keys !! rows.Keys && tx.pending.Keys <= used
    && ViewOk(capacity, rows + tx.pending)
    && PhaseOk(tx, capacity, rows + tx.pending)
  }

  ghost predicate TxOk(s: State, x: TxId)
    requires x in s.txs
  {
    Fits(s.txs[x], s.rows, s.capacity, s.used)
  }

  ghost predicate LocksOk(s: State) {
    && (forall x, y, c :: x in s.txs && y in s.txs && x != y && Holds(s.txs[x], c) ==> !Holds(s.txs[y], c))
    && (forall x, y :: x in s.txs && y in s.txs && x != y ==> s.txs[x].pending.Keys !! s.txs[y].pending.Keys)
  }

  ghost predicate Safe(s: State) {
    && s.rows.Keys <= s.used
    && ViewOk(s.capacity, s.rows)
    && LocksOk(s)
    && forall x :: x in s.txs ==> TxOk(s, x)
  }

  /** A batch has rows only in courses it holds the lock of. */
  lemma PendingIsLocked(tx: Tx, e: Uuid)
    requires PendingOk(tx) && e in tx.pending
    ensures Holds(tx, tx.pending[e].course)
  {
    assert Passed(tx, tx.pending[e].course);
  }

  lemma CurrentCourseIsLocked(tx: Tx)
    requires PendingOk(tx) && !tx.phase.Ready? && tx.next < |tx.courses|
    ensures Holds(tx, tx.courses[tx.next])
  {
  }

  // --- cancellations

  /** `after` is `before` with some rows gone or cancelled. */
  ghost predicate Weaker(before: Table, after: Table) {
    forall e :: e in after ==>
      e in before && after[e].course == before[e].course && after[e].user == before[e].user
      && (after[e].active ==> before[e].active)
  }

  lemma CancelIsWeaker(rows: Table, ids: set<Uuid>, pending: Table)
    ensures Weaker(rows + pending, Cancelled(rows, ids) + pending)
    ensures Weaker(rows, Cancelled(rows, ids))
  {
  }

  /** Cancelling only ever frees seats. */
  lemma WeakerFrees(before: Table, after: Table, course: Uuid)
    requires Weaker(before, after)
    ensures |ActiveIn(after, course)| <= |ActiveIn(before, course)|
  {
    CardinalityOfSubset(ActiveIn(after, course), ActiveIn(before, course));
  }

  lemma WeakerKeepsView(capacity: map<Uuid, nat>, before: Table, after: Table)
    requires Weaker(before, after) && ViewOk(capacity, before)
    ensures ViewOk(capacity, after)
  {
    forall c | c in capacity ensures |ActiveIn(after, c)| <= capacity[c] {
      WeakerFrees(before, after, c);
    }
  }

  lemma WeakerKeepsPhase(tx: Tx, capacity: map<Uuid, nat>, before: Table, after: Table)
    requires Weaker(before, after) && PhaseOk(tx, capacity, before)
    ensures PhaseOk(tx, capacity, after)
  {
    if !tx.phase.Ready? {
      WeakerFrees(before, after, tx.courses[tx.next]);
    }
  }

  lemma CancelKeepsSafe(s: State, ids: set<Uuid>)
    requires Safe(s)
    ensures Safe(s.(rows := Cancelled(s.rows, ids)))
  {
    var t := s.(rows := Cancelled(s.rows, ids));
    CancelIsWeaker(s.rows, ids, map[]);
    WeakerKeepsView(s.capacity, s.rows, t.rows);
    forall x | x in t.txs ensures TxOk(t, x) {
      CancelKeepsTx(s, ids, x);
    }
  }

  lemma CancelKeepsTx(s: State, ids: set<Uuid>, x: TxId)
    requires Safe(s) && x in s.txs
    ensures TxOk(s.(rows := Cancelled(s.rows, ids)), x)
  {
    var t := s.(rows := Cancelled(s.rows, ids));
    assert TxOk(s, x);
    CancelIsWeaker(s.rows, ids, s.txs[x].pending);
    WeakerKeepsView(s.capacity, View(s, x), View(t, x));
    WeakerKeepsPhase(s.txs[x], s.capacity, View(s, x), View(t, x));
  }

  // --- commits

  ghost predicate Apart(rows: Table, theirs: Table, mine: Table) {
    theirs.Keys !! rows.Keys && mine.Keys !! rows.Keys && theirs.Keys !! mine.Keys
  }

  predicate Touches(rows: Table, course: Uuid) {
    exists e :: e in rows && rows[e].course == course
  }

  /** Rows another batch commits in courses one does not touch do not show. */
  lemma CommitElsewhere(rows: Table, theirs: Table, mine: Table, course: Uuid)
    requires Apart(rows, theirs, mine)
    ensures !Touches(theirs, course) ==> ActiveIn((rows + theirs) + mine, course) == ActiveIn(rows + mine, course)
    ensures !Touches(mine, course) ==> ActiveIn((rows + theirs) + mine, course) == ActiveIn(rows + theirs, course)
  {
    var v := (rows + theirs) + mine;
    assert forall e :: e in v && e !in theirs ==> v[e] == (rows + mine)[e];
    assert forall e :: e in v && e !in mine ==> v[e] == (rows + theirs)[e];
  }

  lemma CommitKeepsView(capacity: map<Uuid, nat>, rows: Table, theirs: Table, mine: Table)
    requires Apart(rows, theirs, mine)
    requires ViewOk(capacity, rows + theirs) && ViewOk(capacity, rows + mine)
    requires forall c :: !Touches(theirs, c) || !Touches(mine, c)
    ensures ViewOk(capacity, (rows + theirs) + mine)
  {
    var v := (rows + theirs) + mine;
    forall c | c in capacity ensures |ActiveIn(v, c)| <= capacity[c] {
      CommitElsewhere(rows, theirs, mine, c);
    }
    CommitKeepsUnique(rows, theirs, mine);
    forall e | e in v ensures v[e].course in capacity {
      assert e in theirs ==> v[e] == (rows + theirs)[e];
      assert e !in theirs ==> v[e] == (rows + mine)[e];
    }
  }

  lemma CommitKeepsUnique(rows: Table, theirs: Table, mine: Table)
    requires Apart(rows, theirs, mine)
    requires UniqueActive(rows + theirs) && UniqueActive(rows + mine)
    requires forall c :: !Touches(theirs, c) || !Touches(mine, c)
    ensures UniqueActive((rows + theirs) + mine)
  {
    var v := (rows + theirs) + mine;
    forall a, b | a in v && b in v && a != b && v[a].active && v[b].active && v[a].user == v[b].user
      ensures v[a].course != v[b].course
    {
      if a !in theirs && b !in theirs {
        assert v[a] == (rows + mine)[a] && v[b] == (rows + mine)[b];
      } else if a !in mine && b !in mine {
        assert v[a] == (rows + theirs)[a] && v[b] == (rows + theirs)[b];
      } else {
        assert Touches(theirs, v[a].course) || Touches(theirs, v[b].course);
        assert Touches(mine, v[a].course) || Touches(mine, v[b].course);
      }
    }
  }

  lemma CommitKeepsPhase(tx: Tx, capacity: map<Uuid, nat>, rows: Table, theirs: Table)
    requires Apart(rows, theirs, tx.pending) && PhaseOk(tx, capacity, rows + tx.pending)
    requires !tx.phase.Ready? ==> !Touches(theirs, tx.courses[tx.next])
    ensures PhaseOk(tx, capacity, (rows + theirs) + tx.pending)
  {
    if !tx.phase.Ready? {
      CommitElsewhere(rows, theirs, tx.pending, tx.courses[tx.next]);
      var v := (rows + theirs) + tx.pending;
      assert forall e :: e in v && e !in theirs ==> v[e] == (rows + tx.pending)[e];
      assert forall e :: e in theirs ==> v[e] == theirs[e];
    }
  }

  /** Two open batches have no course in common, and neither is at a course of the other. */
  lemma LocksSeparate(s: State, x: TxId, y: TxId)
    requires Safe(s) && x in s.txs && y in s.txs && x != y
    ensures forall c :: !Touches(s.txs[y].pending, c) || !Touches(s.txs[x].pending, c)
    ensures !s.txs[x].phase.Ready? ==>
              s.txs[x].next < |s.txs[x].courses| && !Touches(s.txs[y].pending, s.txs[x].courses[s.txs[x].next])
  {
    assert TxOk(s, x) && TxOk(s, y);
    forall e | e in s.txs[y].pending ensures Holds(s.txs[y], s.txs[y].pending[e].course) {
      PendingIsLocked(s.txs[y], e);
    }
    forall e | e in s.txs[x].pending ensures Holds(s.txs[x], s.txs[x].pending[e].course) {
      PendingIsLocked(s.txs[x], e);
    }
    if !s.txs[x].phase.Ready? {
      CurrentCourseIsLocked(s.txs[x]);
    }
  }

  lemma CommitKeepsSafe(s: State, y: TxId)
    requires Safe(s) && Enabled(s, Commit(y))
    ensures Safe(Do(s, Commit(y)))
  {
    var t := Do(s, Commit(y));
    assert TxOk(s, y) && t.rows == View(s, y);
    forall x | x in t.txs ensures TxOk(t, x) {
      assert TxOk(s, x);
      LocksSeparate(s, x, y);
      CommitKeepsView(s.capacity, s.rows, s.txs[y].pending, s.txs[x].pending);
      CommitKeepsPhase(s.txs[x], s.capacity, s.rows, s.txs[y].pending);
    }
  }

  // --- a batch's own statements

  lemma InsertKeepsView(capacity: map<Uuid, nat>, view: Table, id: Uuid, e: Enrolment)
    requires ViewOk(capacity, view) && id !in view && e.course in capacity
    requires |ActiveIn(view, e.course)| < capacity[e.course] && !ExistsActive(view, e.user, e.course)
    ensures ViewOk(capacity, view[id := e])
  {
    forall c | c in capacity ensures |ActiveIn(view[id := e], c)| <= capacity[c] {
      ActiveAfterInsert(view, id, e, c);
    }
  }

  lemma InsertKeepsPending(tx: Tx, id: Uuid, e: Enrolment)
    requires PendingOk(tx) && id !in tx.pending && tx.next < |tx.courses| && tx.locked == |tx.courses|
    requires e == Enrolment(tx.user, tx.courses[tx.next], tx.order, true)
    ensures PendingOk(tx.(next := tx.next + 1, phase := Ready, pending := tx.pending[id := e]))
  {
    var after := tx.(next := tx.next + 1, phase := Ready, pending := tx.pending[id := e]);
    forall i | 0 <= i < after.next ensures Placed(after, after.courses[i]) {
      if i < tx.next {
        assert Placed(tx, tx.courses[i]);
        var p :| p in tx.pending && tx.pending[p].course == tx.courses[i];
        assert after.pending[p].course == after.courses[i];
      } else {
        assert after.pending[id].course == after.courses[i];
      }
    }
    forall p | p in after.pending ensures Passed(after, after.pending[p].course) {
      if p == id {
        assert after.courses[tx.next] == after.pending[p].course;
      } else {
        assert Passed(tx, tx.pending[p].course);
        var i :| 0 <= i < tx.next && i < |tx.courses| && tx.courses[i] == tx.pending[p].course;
        assert after.courses[i] == after.pending[p].course;
      }
    }
  }

  lemma InsertedFits(tx: Tx, rows: Table, capacity: map<Uuid, nat>, used: set<Uuid>, id: Uuid, e: Enrolment)
    requires Fits(tx, rows, capacity, used) && rows.Keys <= used && id !in used
    requires tx.phase.Checked? && tx.next < |tx.courses| && tx.locked == |tx.courses|
    requires e == Enrolment(tx.user, tx.courses[tx.next], tx.order, true)
    ensures Fits(tx.(next := tx.next + 1, phase := Ready, pending := tx.pending[id := e]), rows, capacity, used + {id})
  {
    InsertKeepsPending(tx, id, e);
    assert ViewOk(capacity, rows + tx.pending[id := e]) by {
      InsertedView(tx, rows, capacity, id, e);
    }
  }

  lemma InsertedView(tx: Tx, rows: Table, capacity: map<Uuid, nat>, id: Uuid, e: Enrolment)
    requires ViewOk(capacity, rows + tx.pending) && PhaseOk(tx, capacity, rows + tx.pending)
    requires tx.phase.Checked? && id !in rows && id !in tx.pending
    requires e == Enrolment(tx.user, tx.courses[tx.next], tx.order, true)
    ensures ViewOk(capacity, rows + tx.pending[id := e])
  {
    InsertKeepsView(capacity, rows + tx.pending, id, e);
    assert rows + tx.pending[id := e] == (rows + tx.pending)[id := e];
  }

  lemma InsertKeepsTx(s: State, y: TxId, id: Uuid, x: TxId)
    requires Enabled(s, Insert(y, id)) && s.rows.Keys <= s.used && x in s.txs && TxOk(s, x) && TxOk(s, y)
    ensures TxOk(Do(s, Insert(y, id)), x)
  {
    if x == y {
      var tx := s.txs[y];
      InsertedFits(tx, s.rows, s.capacity, s.used, id, Enrolment(tx.user, tx.courses[tx.next], tx.order, true));
    } else {
      SameTx(s, Do(s, Insert(y, id)), x);
    }
  }

  lemma InsertKeepsSafe(s: State, y: TxId, id: Uuid)
    requires Safe(s) && Enabled(s, Insert(y, id))
    ensures Safe(Do(s, Insert(y, id)))
  {
    forall x | x in s.txs ensures TxOk(Do(s, Insert(y, id)), x) {
      assert TxOk(s, x) && TxOk(s, y);
      InsertKeepsTx(s, y, id, x);
    }
    LocksStayOk(s, Insert(y, id));
  }

  /** Nothing a transaction depends on has moved. */
  lemma SameTx(s: State, t: State, x: TxId)
    requires x in s.txs && x in t.txs && TxOk(s, x)
    requires t.rows == s.rows && t.capacity == s.capacity && s.used <= t.used && t.txs[x] == s.txs[x]
    ensures TxOk(t, x)
  {
    assert View(t, x) == View(s, x);
  }

  /** Statements that only read, lock or begin leave every view as it is. */
  predicate Quiet(a: Action) {
    a.Begin? || a.Lock? || a.CountSeats? || a.CheckDuplicate? || a.Abort?
  }

  lemma PendingStaysOk(tx: Tx, after: Tx)
    requires PendingOk(tx) && after == tx.(locked := after.locked, phase := after.phase)
    requires tx.locked <= after.locked <= |tx.courses|
    requires after.phase.Ready? || after.locked == |after.courses|
    ensures PendingOk(after)
  {
    assert forall c :: Passed(tx, c) ==> Passed(after, c);
    assert forall c :: Placed(tx, c) ==> Placed(after, c);
  }

  lemma CheckedFits(tx: Tx, rows: Table, capacity: map<Uuid, nat>, used: set<Uuid>, after: Tx)
    requires Fits(tx, rows, capacity, used) && after == tx.(locked := after.locked, phase := after.phase)
    requires tx.locked <= after.locked <= |tx.courses|
    requires after.phase.Ready? || after.locked == |after.courses|
    requires PhaseOk(after, capacity, rows + tx.pending)
    ensures Fits(after, rows, capacity, used)
  {
    PendingStaysOk(tx, after);
  }

  lemma LockKeepsTx(s: State, x: TxId)
    requires Enabled(s, Lock(x)) && TxOk(s, x)
    ensures TxOk(Do(s, Lock(x)), x)
  {
    CheckedFits(s.txs[x], s.rows, s.capacity, s.used, s.txs[x].(locked := s.txs[x].locked + 1));
  }

  lemma CountKeepsTx(s: State, x: TxId)
    requires Enabled(s, CountSeats(x)) && TxOk(s, x)
    ensures TxOk(Do(s, CountSeats(x)), x)
  {
    CheckedFits(s.txs[x], s.rows, s.capacity, s.used, s.txs[x].(phase := Counted));
  }

  lemma DuplicateCheckKeepsTx(s: State, x: TxId)
    requires Enabled(s, CheckDuplicate(x)) && TxOk(s, x)
    ensures TxOk(Do(s, CheckDuplicate(x)), x)
  {
    CheckedFits(s.txs[x], s.rows, s.capacity, s.used, s.txs[x].(phase := Checked));
  }

  lemma QuietKeepsTx(s: State, a: Action, x: TxId)
    requires Safe(s) && Enabled(s, a) && Quiet(a) && x in Do(s, a).txs
    ensures TxOk(Do(s, a), x)
  {
    var t := Do(s, a);
    if x !in s.txs {
      assert s.rows + t.txs[x].pending == s.rows;
    } else {
      assert TxOk(s, x);
      if a == Lock(x) {
        LockKeepsTx(s, x);
      } else if a == CountSeats(x) {
        CountKeepsTx(s, x);
      } else if a == CheckDuplicate(x) {
        DuplicateCheckKeepsTx(s, x);
      } else {
        SameTx(s, t, x);
      }
    }
  }

  lemma CapacityKeepsView(capacity: map<Uuid, nat>, more: map<Uuid, nat>, view: Table)
    requires ViewOk(capacity, view)
    requires forall c :: c in capacity ==> c in more && capacity[c] <= more[c]
    ensures ViewOk(more, view)
  {
    forall c | c in more ensures |ActiveIn(view, c)| <= more[c] {
      if c !in capacity {
        assert ActiveIn(view, c) == {};
      }
    }
  }

  lemma CapacityKeepsSafe(s: State, a: Action)
    requires Safe(s) && Enabled(s, a) && (a.AddCourse? || a.RaiseCapacity?)
    ensures Safe(Do(s, a))
  {
    var t := Do(s, a);
    CapacityKeepsView(s.capacity, t.capacity, s.rows);
    forall x | x in s.txs ensures TxOk(t, x) {
      assert TxOk(s, x) && View(t, x) == View(s, x);
      CapacityKeepsView(s.capacity, t.capacity, View(s, x));
    }
  }

  lemma LocksStayOk(s: State, a: Action)
    requires Safe(s) && Enabled(s, a) && (Quiet(a) || a.Insert?)
    ensures LocksOk(Do(s, a))
  {
    var t := Do(s, a);
    forall x, y, c | x in t.txs && y in t.txs && x != y && Holds(t.txs[x], c) ensures !Holds(t.txs[y], c) {
      HeldBefore(s, a, x, c);
      HeldBefore(s, a, y, c);
    }
    PendingStaysApart(s, a);
  }

  lemma PendingStaysApart(s: State, a: Action)
    requires Safe(s) && Enabled(s, a) && (Quiet(a) || a.Insert?)
    ensures forall x, y :: x in Do(s, a).txs && y in Do(s, a).txs && x != y ==>
              Do(s, a).txs[x].pending.Keys !! Do(s, a).txs[y].pending.Keys
  {
    var t := Do(s, a);
    forall x, y | x in t.txs && y in t.txs && x != y ensures t.txs[x].pending.Keys !! t.txs[y].pending.Keys {
      PendingBefore(s, a, x);
      PendingBefore(s, a, y);
    }
  }

  lemma PendingBefore(s: State, a: Action, x: TxId)
    requires Safe(s) && Enabled(s, a) && x in Do(s, a).txs
    ensures x in s.txs ==> s.txs[x].pending.Keys <= s.used
    ensures Do(s, a).txs[x].pending.Keys
            == (if x in s.txs then s.txs[x].pending.Keys else {}) + (if a.Insert? && a.x == x then {a.id} else {})
  {
    assert x in s.txs ==> TxOk(s, x);
  }

  lemma HeldAfterLock(tx: Tx, c: Uuid)
    requires tx.locked < |tx.courses|
    ensures Holds(tx.(locked := tx.locked + 1), c) <==> Holds(tx, c) || c == tx.courses[tx.locked]
  {
    var after := tx.(locked := tx.locked + 1);
    assert after.courses[tx.locked] == tx.courses[tx.locked];
    if Holds(tx, c) {
      var i :| 0 <= i < tx.locked && i < |tx.courses| && tx.courses[i] == c;
      assert after.courses[i] == c;
    }
  }

  lemma HeldBefore(s: State, a: Action, x: TxId, c: Uuid)
    requires Enabled(s, a) && (Quiet(a) || a.Insert?) && x in Do(s, a).txs
    ensures Holds(Do(s, a).txs[x], c) <==>
            (x in s.txs && Holds(s.txs[x], c)) || (a == Lock(x) && c == s.txs[x].courses[s.txs[x].locked])
  {
    if a == Lock(x) {
      HeldAfterLock(s.txs[x], c);
    }
  }

  lemma SafeStep(s: State, a: Action)
    requires Safe(s) && Enabled(s, a)
    ensures Safe(Do(s, a))
  {
    match a {
      case Cancel(id) => CancelKeepsSafe(s, {id});
      case CancelByOrder(order) => CancelKeepsSafe(s, OfOrder(s.rows, order));
      case Commit(y) => CommitKeepsSafe(s, y);
      case AddCourse(_, _) => CapacityKeepsSafe(s, a);
      case RaiseCapacity(_, _) => CapacityKeepsSafe(s, a);
      case Insert(y, id) => InsertKeepsSafe(s, y, id);
      case _ =>
        forall x | x in Do(s, a).txs ensures TxOk(Do(s, a), x) { QuietKeepsTx(s, a, x); }
        LocksStayOk(s, a);
    }
  }

  // -------------------------------------------------------------------- runs

  ghost predicate Run(s: State, acts: seq<Action>)
    decreases |acts|
  {
    acts == [] || (Enabled(s, acts[0]) && Run(Do(s, acts[0]), acts[1..]))
  }

  ghost function After(s: State, acts: seq<Action>): State
    requires Run(s, acts)
    decreases |acts|
  {
    if acts == [] then s else After(Do(s, acts[0]), acts[1..])
  }

  /**
   * Enrolment capacity: over every interleaving of batches, commits, roll-backs and cancellations,
   * committed active enrolments never exceed a course's capacity, and nobody is active twice in one.
   */
  lemma {:induction false} CapacityHolds(s: State, acts: seq<Action>)
    requires Safe(s) && Run(s, acts)
    ensures Safe(After(s, acts))
    ensures WithinCapacity(After(s, acts).capacity, After(s, acts).rows) && UniqueActive(After(s, acts).rows)
    decreases |acts|
  {
    if acts != [] {
      SafeStep(s, acts[0]);
      CapacityHolds(Do(s, acts[0]), acts[1..]);
    }
  }

  /** Committing `x` adds its rows, keeps every other, and enrols the buyer in courses that are new to them. */
  ghost predicate EnrolsBuyer(rows: Table, after: Table, tx: Tx) {
    && (forall e :: e in rows ==> e in after && after[e] == rows[e])
    && (forall e :: e in after && e !in rows ==> InBuyersName(tx, after[e]))
    && forall c :: c in tx.courses ==> ExistsActive(after, tx.user, c) && !ExistsActive(rows, tx.user, c)
  }

  lemma CommitEnrols(tx: Tx, rows: Table, capacity: map<Uuid, nat>, used: set<Uuid>)
    requires Fits(tx, rows, capacity, used) && tx.next == |tx.courses|
    ensures EnrolsBuyer(rows, rows + tx.pending, tx)
  {
    forall c | c in tx.courses ensures ExistsActive(rows + tx.pending, tx.user, c) && !ExistsActive(rows, tx.user, c) {
      var i :| 0 <= i < |tx.courses| && tx.courses[i] == c;
      BuyerGainsCourse(tx, rows, i);
    }
  }

  lemma BuyerGainsCourse(tx: Tx, rows: Table, i: nat)
    requires PendingOk(tx) && tx.pending.Keys !! rows.Keys && UniqueActive(rows + tx.pending) && i < tx.next
    ensures ExistsActive(rows + tx.pending, tx.user, tx.courses[i])
    ensures !ExistsActive(rows, tx.user, tx.courses[i])
  {
    assert Placed(tx, tx.courses[i]);
    var e :| e in tx.pending && tx.pending[e].course == tx.courses[i];
    var v := rows + tx.pending;
    assert v[e] == tx.pending[e] && InBuyersName(tx, tx.pending[e]);
    forall b | b in rows && rows[b].active && rows[b].user == tx.user ensures rows[b].course != tx.courses[i] {
      assert v[b] == rows[b] && b != e;
    }
  }

  lemma InitIsSafe(s: State)
    requires Init(s)
    ensures Safe(s)
  {
    forall c | c in s.capacity ensures |ActiveIn(s.rows, c)| <= s.capacity[c] {
      assert ActiveIn(s.rows, c) == {};
    }
  }

  /** All or nothing: a commit enrols the buyer in every course of the batch, an abort in none. */
  lemma BatchIsAtomic(s0: State, acts: seq<Action>, x: TxId)
    requires Init(s0) && Run(s0, acts) && x in After(s0, acts).txs
    ensures Do(After(s0, acts), Abort(x)).rows == After(s0, acts).rows
    ensures Enabled(After(s0, acts), Commit(x)) ==>
              EnrolsBuyer(After(s0, acts).rows, Do(After(s0, acts), Commit(x)).rows, After(s0, acts).txs[x])
  {
    InitIsSafe(s0);
    CapacityHolds(s0, acts);
    var s := After(s0, acts);
    if Enabled(s, Commit(x)) {
      CommitEnrols(s.txs[x], s.rows, s.capacity, s.used);
    }
  }

  // ----------------------------------------------------------- served alone

  lemma {:induction false} Extend(s: State, acts: seq<Action>, a: Action)
    requires Run(s, acts) && Enabled(After(s, acts), a)
    ensures Run(s, acts + [a]) && After(s, acts + [a]) == Do(After(s, acts), a)
    decreases |acts|
  {
    if acts == [] {
      assert acts + [a] == [a] && Run(Do(s, a), []);
    } else {
      Extend(Do(s, acts[0]), acts[1..], a);
      assert (acts + [a])[1..] == acts[1..] + [a];
    }
  }

  /** The statements of a batch: `n` course locks in order ... */
  function Locking(x: TxId, user: Uuid, order: Uuid, courses: seq<Uuid>, n: nat): seq<Action> {
    if n == 0 then [Begin(x, user, order, courses)] else Locking(x, user, order, courses, n - 1) + [Lock(x)]
  }

  /** ... and then, course by course, the count, the duplicate check and the insert. */
  function Enrols(x: TxId, user: Uuid, order: Uuid, courses: seq<Uuid>, ids: seq<Uuid>, n: nat): seq<Action>
    requires n <= |ids|
  {
    if n == 0 then Locking(x, user, order, courses, |courses|)
    else Enrols(x, user, order, courses, ids, n - 1) + [CountSeats(x)] + [CheckDuplicate(x)] + [Insert(x, ids[n - 1])]
  }

  lemma {:induction false} LocksRun(s: State, x: TxId, user: Uuid, order: Uuid, courses: seq<Uuid>, n: nat)
    requires s.txs == map[] && CourseLocks.Ascending(courses) && n <= |courses|
    ensures Run(s, Locking(x, user, order, courses, n))
    ensures After(s, Locking(x, user, order, courses, n))
            == s.(txs := map[x := Tx(user, order, courses, n, 0, Ready, map[])])
  {
    if n == 0 {
      assert [] + [Begin(x, user, order, courses)] == [Begin(x, user, order, courses)];
      Extend(s, [], Begin(x, user, order, courses));
    } else {
      LocksRun(s, x, user, order, courses, n - 1);
      Extend(s, Locking(x, user, order, courses, n - 1), Lock(x));
    }
  }

  /** Nobody refuses the buyer any of the courses, and the ids are new. */
  ghost predicate Admissible(s: State, user: Uuid, courses: seq<Uuid>, ids: seq<Uuid>) {
    && s.txs == map[] && CourseLocks.Ascending(courses) && |ids| == |courses| && FreshIds(s.rows, ids)
    && (forall i :: 0 <= i < |ids| ==> ids[i] !in s.used)
    && forall c :: c in courses ==> Refusal(s.capacity, s.rows, user, c).None?
  }

  /** Where the batch is after `n` courses, at `phase` of the next. */
  ghost predicate Along(s: State, t: State, x: TxId, batch: Tx, ids: seq<Uuid>, n: nat, phase: Phase)
    requires n <= |batch.courses| == |ids|
  {
    && t.capacity == s.capacity && t.rows == s.rows && t.txs.Keys == {x}
    && t.txs[x] == batch.(locked := |batch.courses|, next := n, phase := phase, pending := t.txs[x].pending)
    && s.rows + t.txs[x].pending == Added(s.rows, batch.user, batch.order, batch.courses[..n], ids[..n])
    && (forall i :: n <= i < |ids| ==> ids[i] !in t.used)
  }

  lemma CourseCounted(s: State, t: State, x: TxId, batch: Tx, ids: seq<Uuid>, n: nat)
    requires Admissible(s, batch.user, batch.courses, ids) && n < |batch.courses|
    requires Along(s, t, x, batch, ids, n, Ready)
    ensures Enabled(t, CountSeats(x)) && Along(s, Do(t, CountSeats(x)), x, batch, ids, n, Counted)
  {
    NotRefused(s, batch, ids, n);
  }

  lemma CourseChecked(s: State, t: State, x: TxId, batch: Tx, ids: seq<Uuid>, n: nat)
    requires Admissible(s, batch.user, batch.courses, ids) && n < |batch.courses|
    requires Along(s, t, x, batch, ids, n, Counted)
    ensures Enabled(t, CheckDuplicate(x)) && Along(s, Do(t, CheckDuplicate(x)), x, batch, ids, n, Checked)
  {
    NotRefused(s, batch, ids, n);
  }

  lemma CourseInserted(s: State, t: State, x: TxId, batch: Tx, ids: seq<Uuid>, n: nat)
    requires Admissible(s, batch.user, batch.courses, ids) && n < |batch.courses|
    requires Along(s, t, x, batch, ids, n, Checked)
    ensures Enabled(t, Insert(x, ids[n])) && Along(s, Do(t, Insert(x, ids[n])), x, batch, ids, n + 1, Ready)
  {
    var pending := t.txs[x].pending[ids[n] := Enrolment(batch.user, batch.courses[n], batch.order, true)];
    assert batch.courses[..n + 1][..n] == batch.courses[..n] && ids[..n + 1][..n] == ids[..n];
    assert s.rows + pending == (s.rows + t.txs[x].pending)[ids[n] := pending[ids[n]]];
  }

  /** What the batch has already inserted refuses it none of the courses left. */
  lemma NotRefused(s: State, batch: Tx, ids: seq<Uuid>, n: nat)
    requires Admissible(s, batch.user, batch.courses, ids) && n < |batch.courses|
    ensures Refusal(s.capacity, Added(s.rows, batch.user, batch.order, batch.courses[..n], ids[..n]),
                    batch.user, batch.courses[n]).None?
  {
    assert batch.courses[n] in batch.courses && batch.courses[n] !in batch.courses[..n];
    RefusalUnaffected(s.capacity, s.rows, batch.user, batch.order, batch.courses[..n], ids[..n], batch.courses[n]);
  }

  lemma {:induction false} EnrolsRun(s: State, x: TxId, batch: Tx, ids: seq<Uuid>, n: nat)
    requires Admissible(s, batch.user, batch.courses, ids) && n <= |batch.courses|
    ensures var acts := Enrols(x, batch.user, batch.order, batch.courses, ids, n);
            Run(s, acts) && Along(s, After(s, acts), x, batch, ids, n, Ready)
  {
    if n == 0 {
      LocksRun(s, x, batch.user, batch.order, batch.courses, |batch.courses|);
      assert s.rows + map[] == s.rows;
    } else {
      EnrolsRun(s, x, batch, ids, n - 1);
      var acts := Enrols(x, batch.user, batch.order, batch.courses, ids, n - 1);
      CourseCounted(s, After(s, acts), x, batch, ids, n - 1);
      Extend(s, acts, CountSeats(x));
      CourseChecked(s, After(s, acts + [CountSeats(x)]), x, batch, ids, n - 1);
      Extend(s, acts + [CountSeats(x)], CheckDuplicate(x));
      CourseInserted(s, After(s, acts + [CountSeats(x)] + [CheckDuplicate(x)]), x, batch, ids, n - 1);
      Extend(s, acts + [CountSeats(x)] + [CheckDuplicate(x)], Insert(x, ids[n - 1]));
    }
  }

  /** A batch served alone is a run of its statements, and it enrols the buyer in every course. */
  lemma BatchIsARun(s: State, x: TxId, user: Uuid, order: Uuid, courses: seq<Uuid>, ids: seq<Uuid>)
    requires Admissible(s, user, courses, ids)
    ensures var acts := Enrols(x, user, order, courses, ids, |courses|) + [Commit(x)];
            && Run(s, acts) && After(s, acts).txs == map[]
            && After(s, acts).rows == Added(s.rows, user, order, courses, ids)
  {
    EnrolsRun(s, x, Tx(user, order, courses, 0, 0, Ready, map[]), ids, |courses|);
    assert courses[..|courses|] == courses && ids[..|ids|] == ids;
    Extend(s, Enrols(x, user, order, courses, ids, |courses|), Commit(x));
  }
}
