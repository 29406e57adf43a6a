/**
 * Booking transactions against each other, statement by statement: creating locks the slot row and
 * counts in a later statement; cancelling locks the booking row and then shares the slot row.
 */
module BookingRuns {
  import opened Common
  import opened Bookings

  type TxId = nat

  datatype Tx =
    | Holding(b: Booking)                           // slot row locked; the booking to be made
    | Counted(b: Booking)                           // room was found
    | Inserted(b: Booking, id: Uuid)                // row written, not committed
    | Checking(booking: Uuid, admin: bool)          // booking row locked, its status cancellable
    | Cleared(booking: Uuid, shares: bool)          // past the 24-hour check; an admin's shares no slot row
    | Updated(booking: Uuid, shares: bool)          // row flipped, not committed

  datatype State = State(
    slots: map<Uuid, Slot>,
    bookings: Table,
    txs: map<TxId, Tx>,
    used: set<Uuid>,             // every booking id handed out
    queued: seq<BookingEvent>)   // in the outbox

  datatype Action =
    | LockSlot(x: TxId, user: Uuid, slot: Uuid, note: Option<string>)
    | CountRoom(x: TxId)
    | Insert(x: TxId, id: Uuid, now: nat)
    | CommitCreate(x: TxId)
    | LockBooking(x: TxId, booking: Uuid, user: Uuid, admin: bool)
    | CheckTime(x: TxId, now: nat)
    | SkipCheck(x: TxId)
    | Update(x: TxId)
    | CommitCancel(x: TxId)
    | Abort(x: TxId)
    | AddSlot(slot: Uuid, added: Slot)
    | SetClosed(slot: Uuid, closed: bool)
    | RaiseCapacity(slot: Uuid, capacity: nat)
    | SetPrice(slot: Uuid, price: nat)

  predicate Creates(tx: Tx) {
    tx.Holding? || tx.Counted? || tx.Inserted?
  }

  predicate SlotLocked(s: State, slot: Uuid) {
    exists y :: y in s.txs && Creates(s.txs[y]) && s.txs[y].b.slot == slot
  }

  /** A member's cancellation shares the row of the booking's slot once it has checked the time. */
  predicate SlotShared(s: State, slot: Uuid) {
    exists y :: y in s.txs && (s.txs[y].Cleared? || s.txs[y].Updated?) && s.txs[y].shares
                && s.txs[y].booking in s.bookings && s.bookings[s.txs[y].booking].slot == slot
  }

  predicate BookingLocked(s: State, id: Uuid) {
    exists y :: y in s.txs && !Creates(s.txs[y]) && s.txs[y].booking == id
  }

  ghost predicate Enabled(s: State, a: Action) {
    match a
    case LockSlot(x, _, slot, _) =>
      x !in s.txs && slot in s.slots && !s.slots[slot].closed && !SlotLocked(s, slot) && !SlotShared(s, slot)
    case CountRoom(x) =>
      x in s.txs && s.txs[x].Holding? && s.txs[x].b.slot in s.slots
      && |Occupying(s.bookings, s.txs[x].b.slot)| < s.slots[s.txs[x].b.slot].capacity
    // A row being cancelled makes the insert wait, so the unique index is judged on committed rows.
    case Insert(x, id, now) =>
      && x in s.txs && s.txs[x].Counted? && id !in s.used && s.txs[x].b.slot in s.slots
      && s.slots[s.txs[x].b.slot].startsAt.Some? && now < s.slots[s.txs[x].b.slot].startsAt.value
      && !HasBooking(s.bookings, s.txs[x].b.user, s.txs[x].b.slot)
    case CommitCreate(x) => x in s.txs && s.txs[x].Inserted?
    case LockBooking(x, id, user, admin) =>
      && x !in s.txs && id in s.bookings && !BookingLocked(s, id)
      && (s.bookings[id].user == user || admin) && IsCancellable(s.bookings[id].status)
    case CheckTime(x, now) =>
      && x in s.txs && s.txs[x].Checking? && !s.txs[x].admin && s.txs[x].booking in s.bookings
      && s.bookings[s.txs[x].booking].slot in s.slots && !SlotLocked(s, s.bookings[s.txs[x].booking].slot)
      && CancelRefusal(s.slots, s.bookings, now, s.bookings[s.txs[x].booking].user, false, s.txs[x].booking).None?
    case SkipCheck(x) => x in s.txs && s.txs[x].Checking? && s.txs[x].admin
    case Update(x) =>
      && x in s.txs && s.txs[x].Cleared? && s.txs[x].booking in s.bookings
          && !s.bookings[s.txs[x].booking].status.Cancelled?
    case CommitCancel(x) => x in s.txs && s.txs[x].Updated? && s.txs[x].booking in s.bookings
    case Abort(x) => x in s.txs
    case AddSlot(slot, _) => slot !in s.slots
    case SetClosed(slot, _) => slot in s.slots && !SlotLocked(s, slot) && !SlotShared(s, slot)
    case RaiseCapacity(slot, capacity) =>
      slot in s.slots && !SlotLocked(s, slot) && !SlotShared(s, slot) && s.slots[slot].capacity <= capacity
    case SetPrice(slot, _) => slot in s.slots && !SlotLocked(s, slot) && !SlotShared(s, slot)
  }

  function Do(s: State, a: Action): State
    requires Enabled(s, a)
  {
    match a
    case LockSlot(x, user, slot, note) => s.(txs := s.txs[x := Holding(Made(s.slots, user, slot, note))])
    case CountRoom(x) => s.(txs := s.txs[x := Counted(s.txs[x].b)])
    case Insert(x, id, _) => s.(txs := s.txs[x := Inserted(s.txs[x].b, id)], used := s.used + {id})
    case CommitCreate(x) =>
      s.(bookings := s.bookings[s.txs[x].id := s.txs[x].b], txs := s.txs - {x},
         queued := s.queued + [BookingCreated(s.txs[x].id, s.txs[x].b.user, s.txs[x].b.slot)])
    case LockBooking(x, id, _, admin) => s.(txs := s.txs[x := Checking(id, admin)])
    case CheckTime(x, _) => s.(txs := s.txs[x := Cleared(s.txs[x].booking, true)])
    case SkipCheck(x) => s.(txs := s.txs[x := Cleared(s.txs[x].booking, false)])
    case Update(x) => s.(txs := s.txs[x := Updated(s.txs[x].booking, s.txs[x].shares)])
    case CommitCancel(x) =>
      var id := s.txs[x].booking;
      s.(bookings := CancelledAt(s.bookings, id), txs := s.txs - {x},
         queued := s.queued + [BookingCancelled(id, s.bookings[id].user, s.bookings[id].slot)])
    case Abort(x) => s.(txs := s.txs - {x})
    case AddSlot(slot, added) => s.(slots := s.slots[slot := added])
    case SetClosed(slot, closed) => s.(slots := s.slots[slot := s.slots[slot].(closed := closed)])
    case RaiseCapacity(slot, capacity) => s.(slots := s.slots[slot := s.slots[slot].(capacity := capacity)])
    case SetPrice(slot, price) => s.(slots := s.slots[slot := s.slots[slot].(price := price)])
  }

  // --------------------------------------------------------------- invariant

  ghost predicate WithinCapacity(slots: map<Uuid, Slot>, bookings: Table) {
    && (forall b :: b in bookings ==> bookings[b].slot in slots)
    && (forall slot :: slot in slots ==> |Occupying(bookings, slot)| <= slots[slot].capacity)
  }

  /** The partial unique index: one occupying booking per user and slot. */
  ghost predicate OnePerUser(bookings: Table) {
    forall a, b ::
      a in bookings && b in bookings && a != b && bookings[a].user == bookings[b].user
      && OccupiesSeat(bookings[a].status) && OccupiesSeat(bookings[b].status) ==>
        bookings[a].slot != bookings[b].slot
  }

  /** What a transaction has established still holds. */
  ghost predicate TxOk(slots: map<Uuid, Slot>, bookings: Table, used: set<Uuid>, tx: Tx) {
    if Creates(tx) then
      && tx.b.slot in slots && !slots[tx.b.slot].closed
      && tx.b.status == Confirmed && tx.b.price == slots[tx.b.slot].price
      && (!tx.Holding? ==> |Occupying(bookings, tx.b.slot)| < slots[tx.b.slot].capacity)
      && (tx.Inserted? ==> tx.id in used && tx.id !in bookings && !HasBooking(bookings, tx.b.user, tx.b.slot))
    else tx.booking in bookings && IsCancellable(bookings[tx.booking].status)
  }

  ghost predicate LocksOk(txs: map<TxId, Tx>) {
    forall x, y :: x in txs && y in txs && x != y ==>
      && (Creates(txs[x]) && Creates(txs[y]) ==> txs[x].b.slot != txs[y].b.slot)
      && (!Creates(txs[x]) && !Creates(txs[y]) ==> txs[x].booking != txs[y].booking)
      && (txs[x].Inserted? && txs[y].Inserted? ==> txs[x].id != txs[y].id)
  }

  ghost predicate Safe(s: State) {
    && WithinCapacity(s.slots, s.bookings)
    && OnePerUser(s.bookings)
    && s.bookings.Keys <= s.used
    && LocksOk(s.txs)
    && forall x :: x in s.txs ==> TxOk(s.slots, s.bookings, s.used, s.txs[x])
  }

  // --- commits

  lemma CreateKeepsTx(slots: map<Uuid, Slot>, bookings: Table, used: set<Uuid>, id: Uuid, b: Booking, tx: Tx)
    requires TxOk(slots, bookings, used, tx) && id !in bookings && OccupiesSeat(b.status)
    requires Creates(tx) ==> tx.b.slot != b.slot && (tx.Inserted? ==> tx.id != id)
    ensures TxOk(slots, bookings[id := b], used, tx)
  {
    if Creates(tx) {
      InsertOccupies(bookings, id, b, tx.b.slot);
    }
  }

  lemma CreateKeepsCapacity(slots: map<Uuid, Slot>, bookings: Table, id: Uuid, b: Booking)
    requires WithinCapacity(slots, bookings) && id !in bookings && OccupiesSeat(b.status) && b.slot in slots
    requires |Occupying(bookings, b.slot)| < slots[b.slot].capacity
    ensures WithinCapacity(slots, bookings[id := b])
  {
    forall slot | slot in slots ensures |Occupying(bookings[id := b], slot)| <= slots[slot].capacity {
      InsertOccupies(bookings, id, b, slot);
    }
  }

  lemma CreateKeepsOnePerUser(bookings: Table, id: Uuid, b: Booking)
    requires OnePerUser(bookings) && id !in bookings && !HasBooking(bookings, b.user, b.slot)
    ensures OnePerUser(bookings[id := b])
  {
    forall a | a in bookings && OccupiesSeat(bookings[a].status) && bookings[a].user == b.user
      ensures bookings[a].slot != b.slot
    {
      assert bookings[a].slot == b.slot ==> a in Occupying(bookings, b.slot);
    }
  }

  lemma CommitCreateKeepsSafe(s: State, x: TxId)
    requires Safe(s) && Enabled(s, CommitCreate(x))
    ensures Safe(Do(s, CommitCreate(x)))
  {
    var tx := s.txs[x];
    var b := tx.b;
    assert TxOk(s.slots, s.bookings, s.used, tx);
    CreateKeepsCapacity(s.slots, s.bookings, tx.id, b);
    CreateKeepsOnePerUser(s.bookings, tx.id, b);
    forall y | y in s.txs && y != x ensures TxOk(s.slots, s.bookings[tx.id := b], s.used, s.txs[y]) {
      assert TxOk(s.slots, s.bookings, s.used, s.txs[y]);
      CreateKeepsTx(s.slots, s.bookings, s.used, tx.id, b, s.txs[y]);
    }
  }

  lemma CancelKeepsTx(slots: map<Uuid, Slot>, bookings: Table, used: set<Uuid>, id: Uuid, tx: Tx)
    requires TxOk(slots, bookings, used, tx) && id in bookings && (!Creates(tx) ==> tx.booking != id)
    ensures TxOk(slots, CancelledAt(bookings, id), used, tx)
  {
    if Creates(tx) {
      CancelFrees(bookings, id, tx.b.slot);
      CardinalityOfSubset(Occupying(CancelledAt(bookings, id), tx.b.slot), Occupying(bookings, tx.b.slot));
    }
  }

  lemma CancelKeepsTables(slots: map<Uuid, Slot>, bookings: Table, id: Uuid)
    requires WithinCapacity(slots, bookings) && OnePerUser(bookings) && id in bookings
    ensures WithinCapacity(slots, CancelledAt(bookings, id)) && OnePerUser(CancelledAt(bookings, id))
  {
    forall slot | slot in slots ensures |Occupying(CancelledAt(bookings, id), slot)| <= slots[slot].capacity {
      CancelFrees(bookings, id, slot);
      CardinalityOfSubset(Occupying(CancelledAt(bookings, id), slot), Occupying(bookings, slot));
    }
  }

  lemma CommitCancelKeepsSafe(s: State, x: TxId)
    requires Safe(s) && Enabled(s, CommitCancel(x))
    ensures Safe(Do(s, CommitCancel(x)))
  {
    var id := s.txs[x].booking;
    CancelKeepsTables(s.slots, s.bookings, id);
    forall y | y in s.txs && y != x ensures TxOk(s.slots, CancelledAt(s.bookings, id), s.used, s.txs[y]) {
      assert TxOk(s.slots, s.bookings, s.used, s.txs[y]);
      CancelKeepsTx(s.slots, s.bookings, s.used, id, s.txs[y]);
    }
  }

  // --- statements

  /** `tx` holds the lock `x` has, or one nobody has. */
  predicate TakesOver(s: State, x: TxId, tx: Tx) {
    if Creates(tx) then
      (x in s.txs && Creates(s.txs[x]) && s.txs[x].b.slot == tx.b.slot) || !SlotLocked(s, tx.b.slot)
    else
      (x in s.txs && !Creates(s.txs[x]) && s.txs[x].booking == tx.booking) || !BookingLocked(s, tx.booking)
  }

  lemma MoreUsedIsOk(s: State, used: set<Uuid>, y: TxId)
    requires Safe(s) && s.used <= used && y in s.txs
    ensures TxOk(s.slots, s.bookings, used, s.txs[y])
  {
    assert TxOk(s.slots, s.bookings, s.used, s.txs[y]);
  }

  /** One transaction moves on; the tables stay. */
  lemma TxKeepsSafe(s: State, x: TxId, tx: Tx, used: set<Uuid>)
    requires Safe(s) && s.used <= used && TxOk(s.slots, s.bookings, used, tx)
    requires TakesOver(s, x, tx)
    requires tx.Inserted? ==> tx.id !in s.used
    ensures Safe(s.(txs := s.txs[x := tx], used := used))
  {
    forall y | y in s.txs ensures TxOk(s.slots, s.bookings, used, s.txs[y]) {
      MoreUsedIsOk(s, used, y);
    }
    LocksStayOk(s, x, tx);
  }

  lemma LocksStayOk(s: State, x: TxId, tx: Tx)
    requires Safe(s)
    requires TakesOver(s, x, tx)
    requires tx.Inserted? ==> tx.id !in s.used
    ensures LocksOk(s.txs[x := tx])
  {
    forall y | y in s.txs && y != x
      ensures Creates(tx) && Creates(s.txs[y]) ==> s.txs[y].b.slot != tx.b.slot
      ensures !Creates(tx) && !Creates(s.txs[y]) ==> s.txs[y].booking != tx.booking
      ensures tx.Inserted? && s.txs[y].Inserted? ==> s.txs[y].id != tx.id
    {
      StaysApart(s, x, tx, y);
    }
  }

  lemma StaysApart(s: State, x: TxId, tx: Tx, y: TxId)
    requires Safe(s) && y in s.txs && y != x
    requires TakesOver(s, x, tx)
    requires tx.Inserted? ==> tx.id !in s.used
    ensures Creates(tx) && Creates(s.txs[y]) ==> s.txs[y].b.slot != tx.b.slot
    ensures !Creates(tx) && !Creates(s.txs[y]) ==> s.txs[y].booking != tx.booking
    ensures tx.Inserted? && s.txs[y].Inserted? ==> s.txs[y].id != tx.id
  {
    assert TxOk(s.slots, s.bookings, s.used, s.txs[y]);
  }

  predicate Moves(a: Action) {
    a.LockSlot? || a.CountRoom? || a.Insert? || a.LockBooking? || a.CheckTime? || a.SkipCheck? || a.Update?
  }

  lemma MoveIsOk(s: State, a: Action)
    requires Safe(s) && Enabled(s, a) && Moves(a)
    ensures a.x in Do(s, a).txs && TxOk(s.slots, s.bookings, Do(s, a).used, Do(s, a).txs[a.x])
  {
    assert a.x in s.txs ==> TxOk(s.slots, s.bookings, s.used, s.txs[a.x]);
  }

  lemma MoveKeepsSafe(s: State, a: Action)
    requires Safe(s) && Enabled(s, a) && Moves(a)
    ensures Safe(Do(s, a))
  {
    MoveIsOk(s, a);
    var tx := Do(s, a).txs[a.x];
    TxKeepsSafe(s, a.x, tx, Do(s, a).used);
    assert Do(s, a) == s.(txs := s.txs[a.x := tx], used := Do(s, a).used);
  }

  /** Slots change only while nobody holds their row. */
  lemma SlotKeepsSafe(s: State, a: Action)
    requires Safe(s) && Enabled(s, a) && (a.AddSlot? || a.SetClosed? || a.RaiseCapacity? || a.SetPrice?)
    ensures Safe(Do(s, a))
  {
    var t := Do(s, a);
    forall slot | slot in t.slots ensures |Occupying(t.bookings, slot)| <= t.slots[slot].capacity {
      if slot !in s.slots {
        assert Occupying(s.bookings, slot) == {};
      }
    }
    forall x | x in s.txs ensures TxOk(t.slots, t.bookings, t.used, t.txs[x]) {
      assert TxOk(s.slots, s.bookings, s.used, s.txs[x]);
      assert Creates(s.txs[x]) ==> SlotLocked(s, s.txs[x].b.slot);
    }
  }

  lemma SafeStep(s: State, a: Action)
    requires Safe(s) && Enabled(s, a)
    ensures Safe(Do(s, a))
  {
    if Moves(a) {
      MoveKeepsSafe(s, a);
    } else if a.CommitCreate? {
      CommitCreateKeepsSafe(s, a.x);
    } else if a.CommitCancel? {
      CommitCancelKeepsSafe(s, a.x);
    } else if !a.Abort? {
      SlotKeepsSafe(s, a);
    }
  }

  // -------------------------------------------------------------------- runs

  ghost predicate Run(s: State, acts: seq<Action>)
    decreases |acts|
  {
    acts == [] || (Enabled(s, acts[0]) && Run(Do(s, acts[0]), acts[1..]))
  }

  ghost function After(s: State, acts: seq<Action>): State
    requires Run(s, acts)
    decreases |acts|
  {
    if acts == [] then s else After(Do(s, acts[0]), acts[1..])
  }

  lemma {:induction false} RunAppend(s: State, acts: seq<Action>, a: Action)
    requires Run(s, acts) && Enabled(After(s, acts), a)
    ensures Run(s, acts + [a]) && After(s, acts + [a]) == Do(After(s, acts), a)
    decreases |acts|
  {
    if acts == [] {
      assert acts + [a] == [a] && Run(Do(s, a), []);
    } else {
      RunAppend(Do(s, acts[0]), acts[1..], a);
      assert (acts + [a])[1..] == acts[1..] + [a];
    }
  }

  /** Each statement of a creation that meets nobody else, by the state it leaves. */
  lemma CreationSteps(s: State, x: TxId, now: nat, user: Uuid, slot: Uuid, note: Option<string>, id: Uuid)
    requires Safe(s) && s.txs == map[] && id !in s.used && CreateRefusal(s.slots, s.bookings, now, user, slot).None?
    ensures var b := Made(s.slots, user, slot, note);
            var s1 := s.(txs := map[x := Holding(b)]);
            var s2 := s.(txs := map[x := Counted(b)]);
            var s3 := s.(txs := map[x := Inserted(b, id)], used := s.used + {id});
            && Enabled(s, LockSlot(x, user, slot, note)) && Do(s, LockSlot(x, user, slot, note)) == s1
            && Enabled(s1, CountRoom(x)) && Do(s1, CountRoom(x)) == s2
            && Enabled(s2, Insert(x, id, now)) && Do(s2, Insert(x, id, now)) == s3
            && Enabled(s3, CommitCreate(x))
            && Do(s3, CommitCreate(x)) == s.(bookings := s.bookings[id := b], used := s.used + {id},
                                             queued := s.queued + [BookingCreated(id, user, slot)])
  {
  }

  /** `create_booking` served alone is a run of its statements. */
  lemma CreateIsARun(s: State, x: TxId, now: nat, user: Uuid, slot: Uuid, note: Option<string>, id: Uuid)
    requires Safe(s) && s.txs == map[] && id !in s.used && CreateRefusal(s.slots, s.bookings, now, user, slot).None?
    ensures var acts := [LockSlot(x, user, slot, note)] + [CountRoom(x)] + [Insert(x, id, now)] + [CommitCreate(x)];
            && Run(s, acts)
            && After(s, acts) == s.(bookings := s.bookings[id := Made(s.slots, user, slot, note)],
                                    used := s.used + {id},
                                    queued := s.queued + [BookingCreated(id, user, slot)])
  {
    CreationSteps(s, x, now, user, slot, note, id);
    var acts := [LockSlot(x, user, slot, note)];
    assert [] + acts == acts;
    RunAppend(s, [], acts[0]);
    RunAppend(s, acts, CountRoom(x));
    RunAppend(s, acts + [CountRoom(x)], Insert(x, id, now));
    RunAppend(s, acts + [CountRoom(x)] + [Insert(x, id, now)], CommitCreate(x));
  }

  /** The statements of a cancellation. */
  function Cancelling(x: TxId, id: Uuid, user: Uuid, admin: bool, now: nat): seq<Action> {
    [LockBooking(x, id, user, admin)] + [if admin then SkipCheck(x) else CheckTime(x, now)]
    + [Update(x)] + [CommitCancel(x)]
  }

  lemma CancellationSteps(s: State, x: TxId, now: nat, user: Uuid, admin: bool, id: Uuid)
    requires s.txs == map[] && CancelRefusal(s.slots, s.bookings, now, user, admin, id).None?
    ensures var check := if admin then SkipCheck(x) else CheckTime(x, now);
            var s1 := s.(txs := map[x := Checking(id, admin)]);
            var s2 := s.(txs := map[x := Cleared(id, !admin)]);
            var s3 := s.(txs := map[x := Updated(id, !admin)]);
            && Enabled(s, LockBooking(x, id, user, admin)) && Do(s, LockBooking(x, id, user, admin)) == s1
            && Enabled(s1, check) && Do(s1, check) == s2
            && Enabled(s2, Update(x)) && Do(s2, Update(x)) == s3
            && Enabled(s3, CommitCancel(x))
            && Do(s3, CommitCancel(x))
               == s.(bookings := s.bookings[id := s.bookings[id].(status := Cancelled)],
                     queued := s.queued + [BookingCancelled(id, s.bookings[id].user, s.bookings[id].slot)])
  {
  }

  /** `cancel_booking` served alone is a run of its statements, too. */
  lemma CancelIsARun(s: State, x: TxId, now: nat, user: Uuid, admin: bool, id: Uuid)
    requires s.txs == map[] && CancelRefusal(s.slots, s.bookings, now, user, admin, id).None?
    ensures Run(s, Cancelling(x, id, user, admin, now))
    ensures After(s, Cancelling(x, id, user, admin, now))
            == s.(bookings := s.bookings[id := s.bookings[id].(status := Cancelled)],
                  queued := s.queued + [BookingCancelled(id, s.bookings[id].user, s.bookings[id].slot)])
  {
    CancellationSteps(s, x, now, user, admin, id);
    var acts := [LockBooking(x, id, user, admin)];
    var check := if admin then SkipCheck(x) else CheckTime(x, now);
    assert [] + acts == acts;
    RunAppend(s, [], acts[0]);
    RunAppend(s, acts, check);
    RunAppend(s, acts + [check], Update(x));
    RunAppend(s, acts + [check] + [Update(x)], CommitCancel(x));
  }

  /** Over every interleaving no slot is overbooked and nobody holds two seats of one slot. */
  lemma {:induction false} OccupancyIsSafe(s: State, acts: seq<Action>)
    requires Safe(s) && Run(s, acts)
    ensures Safe(After(s, acts))
    ensures WithinCapacity(After(s, acts).slots, After(s, acts).bookings) && OnePerUser(After(s, acts).bookings)
    decreases |acts|
  {
    if acts != [] {
      SafeStep(s, acts[0]);
      OccupancyIsSafe(Do(s, acts[0]), acts[1..]);
    }
  }

  /** A closed slot gains no booking, whatever was under way when it closed. */
  lemma ClosedGainsNothing(s: State, a: Action, slot: Uuid)
    requires Safe(s) && Enabled(s, a) && slot in s.slots && s.slots[slot].closed
    ensures Occupying(Do(s, a).bookings, slot) <= Occupying(s.bookings, slot)
  {
    if a.CommitCreate? {
      assert TxOk(s.slots, s.bookings, s.used, s.txs[a.x]);
      InsertOccupies(s.bookings, s.txs[a.x].id, s.txs[a.x].b, slot);
    } else if a.CommitCancel? {
      CancelFrees(s.bookings, s.txs[a.x].booking, slot);
    }
  }

  /** The slot is closed from here to the end of the run. */
  ghost predicate StaysClosed(s: State, acts: seq<Action>, slot: Uuid)
    requires Run(s, acts)
    decreases |acts|
  {
    slot in s.slots && s.slots[slot].closed && (acts != [] ==> StaysClosed(Do(s, acts[0]), acts[1..], slot))
  }

  lemma {:induction false} ClosedOnlyReleases(s: State, acts: seq<Action>, slot: Uuid)
    requires Safe(s) && Run(s, acts) && StaysClosed(s, acts, slot)
    ensures Occupying(After(s, acts).bookings, slot) <= Occupying(s.bookings, slot)
    decreases |acts|
  {
    if acts != [] {
      SafeStep(s, acts[0]);
      ClosedGainsNothing(s, acts[0], slot);
      ClosedOnlyReleases(Do(s, acts[0]), acts[1..], slot);
    }
  }

  /** Once past its checks, a cancellation goes through and frees its seat, closed slot or not. */
  lemma ClosedStillReleases(s: State, x: TxId)
    requires Safe(s) && x in s.txs && s.txs[x].Cleared?
    ensures Enabled(s, Update(x)) && Enabled(Do(s, Update(x)), CommitCancel(x))
    ensures s.txs[x].booking in s.bookings
    ensures var t := Do(Do(s, Update(x)), CommitCancel(x)); var slot := s.bookings[s.txs[x].booking].slot;
            |Occupying(t.bookings, slot)| == |Occupying(s.bookings, slot)| - 1
  {
    assert TxOk(s.slots, s.bookings, s.used, s.txs[x]);
    CancelFrees(s.bookings, s.txs[x].booking, s.bookings[s.txs[x].booking].slot);
  }

  predicate Cancels(s: State, a: Action, id: Uuid) {
    a.CommitCancel? && a.x in s.txs && s.txs[a.x].Updated? && s.txs[a.x].booking == id
  }

  /** How often booking `id` is cancelled along a run. */
  ghost function Cancellations(s: State, acts: seq<Action>, id: Uuid): nat
    requires Run(s, acts)
    decreases |acts|
  {
    if acts == [] then 0 else (if Cancels(s, acts[0], id) then 1 else 0) + Cancellations(Do(s, acts[0]), acts[1..], id)
  }

  predicate IsCancelled(s: State, id: Uuid) {
    id in s.bookings && s.bookings[id].status.Cancelled?
  }

  lemma CancelledStays(s: State, a: Action, id: Uuid)
    requires Safe(s) && Enabled(s, a)
    ensures IsCancelled(s, id) ==> IsCancelled(Do(s, a), id) && !Cancels(s, a, id)
    ensures Cancels(s, a, id) ==> IsCancelled(Do(s, a), id)
  {
    if a.CommitCancel? || a.CommitCreate? {
      assert TxOk(s.slots, s.bookings, s.used, s.txs[a.x]);
    }
  }

  /** Each booking is cancelled at most once, so its seat is released at most once. */
  lemma {:induction false} CancelledAtMostOnce(s: State, acts: seq<Action>, id: Uuid)
    requires Safe(s) && Run(s, acts)
    ensures Cancellations(s, acts, id) <= if IsCancelled(s, id) then 0 else 1
    decreases |acts|
  {
    if acts != [] {
      SafeStep(s, acts[0]);
      CancelledStays(s, acts[0], id);
      CancelledAtMostOnce(Do(s, acts[0]), acts[1..], id);
    }
  }

  // --------------------------------------------------------- snapshots and events

  /** A booking costs what its slot cost when it committed. */
  lemma PriceIsTheSlots(s: State, x: TxId)
    requires Safe(s) && Enabled(s, CommitCreate(x))
    ensures var t := Do(s, CommitCreate(x)); var b := s.txs[x].b;
            && s.txs[x].id in t.bookings && t.bookings[s.txs[x].id] == b && b.slot in t.slots
                && b.price == t.slots[b.slot].price
  {
    assert TxOk(s.slots, s.bookings, s.used, s.txs[x]);
  }

  /** Whatever becomes of the slot's price, a booking keeps its own, and everything else but its status. */
  lemma {:induction false} BookingsKeepTheirPrice(s: State, acts: seq<Action>, id: Uuid)
    requires Safe(s) && Run(s, acts) && id in s.bookings
    ensures id in After(s, acts).bookings
    ensures After(s, acts).bookings[id] == s.bookings[id].(status := After(s, acts).bookings[id].status)
    decreases |acts|
  {
    if acts != [] {
      if acts[0].CommitCreate? {
        assert TxOk(s.slots, s.bookings, s.used, s.txs[acts[0].x]);
      }
      SafeStep(s, acts[0]);
      BookingsKeepTheirPrice(Do(s, acts[0]), acts[1..], id);
    }
  }

  ghost predicate Told(s: State, id: Uuid)
    requires id in s.bookings
  {
    var b := s.bookings[id];
    && multiset(s.queued)[BookingCreated(id, b.user, b.slot)] == 1
    && multiset(s.queued)[BookingCancelled(id, b.user, b.slot)] == if b.status.Cancelled? then 1 else 0
  }

  predicate Belongs(bookings: Table, e: BookingEvent) {
    e.id in bookings && bookings[e.id].user == e.user && bookings[e.id].slot == e.slot
  }

  ghost predicate AllBelong(bookings: Table, queued: seq<BookingEvent>) {
    forall e :: e in queued ==> Belongs(bookings, e)
  }

  /** The outbox holds one event for each booking made, one for each cancelled, and nothing else. */
  ghost predicate EventsMatch(s: State) {
    && (forall id :: id in s.bookings ==> Told(s, id))
    && AllBelong(s.bookings, s.queued)
  }

  lemma Queued(queued: seq<BookingEvent>, e: BookingEvent, other: BookingEvent)
    ensures multiset(queued + [e])[other] == multiset(queued)[other] + if e == other then 1 else 0
  {
  }

  lemma NeverQueued(queued: seq<BookingEvent>, e: BookingEvent)
    ensures e !in queued ==> multiset(queued)[e] == 0
  {
    assert e !in queued ==> e !in multiset(queued);
  }

  lemma CreationIsTold(s: State, x: TxId, id: Uuid)
    requires Safe(s) && EventsMatch(s) && Enabled(s, CommitCreate(x)) && id in Do(s, CommitCreate(x)).bookings
    ensures Told(Do(s, CommitCreate(x)), id)
  {
    var tx := s.txs[x];
    assert TxOk(s.slots, s.bookings, s.used, tx);
    var b := Do(s, CommitCreate(x)).bookings[id];
    var e := BookingCreated(tx.id, tx.b.user, tx.b.slot);
    Queued(s.queued, e, BookingCreated(id, b.user, b.slot));
    Queued(s.queued, e, BookingCancelled(id, b.user, b.slot));
    if id == tx.id {
      NeverQueued(s.queued, BookingCreated(id, b.user, b.slot));
      NeverQueued(s.queued, BookingCancelled(id, b.user, b.slot));
    } else {
      assert Told(s, id);
    }
  }

  lemma CancellationIsTold(s: State, x: TxId, id: Uuid)
    requires Safe(s) && EventsMatch(s) && Enabled(s, CommitCancel(x)) && id in Do(s, CommitCancel(x)).bookings
    ensures Told(Do(s, CommitCancel(x)), id)
  {
    var gone := s.txs[x].booking;
    assert TxOk(s.slots, s.bookings, s.used, s.txs[x]);
    assert Told(s, id);
    var b := s.bookings[id];
    var e := BookingCancelled(gone, s.bookings[gone].user, s.bookings[gone].slot);
    Queued(s.queued, e, BookingCreated(id, b.user, b.slot));
    Queued(s.queued, e, BookingCancelled(id, b.user, b.slot));
  }

  lemma CommitEvents(s: State, a: Action)
    requires Safe(s) && EventsMatch(s) && Enabled(s, a) && (a.CommitCreate? || a.CommitCancel?)
    ensures EventsMatch(Do(s, a))
  {
    forall id | id in Do(s, a).bookings ensures Told(Do(s, a), id) {
      if a.CommitCreate? {
        CreationIsTold(s, a.x, id);
      } else {
        CancellationIsTold(s, a.x, id);
      }
    }
    EventsBelong(s, a);
  }

  lemma EventsBelong(s: State, a: Action)
    requires Safe(s) && AllBelong(s.bookings, s.queued) && Enabled(s, a) && (a.CommitCreate? || a.CommitCancel?)
    ensures AllBelong(Do(s, a).bookings, Do(s, a).queued)
  {
    assert TxOk(s.slots, s.bookings, s.used, s.txs[a.x]);
    if a.CommitCreate? {
      var id, b := s.txs[a.x].id, s.txs[a.x].b;
      OneMoreBelongs(s.bookings, s.bookings[id := b], s.queued, BookingCreated(id, b.user, b.slot));
    } else {
      var id := s.txs[a.x].booking;
      OneMoreBelongs(s.bookings, CancelledAt(s.bookings, id), s.queued,
                     BookingCancelled(id, s.bookings[id].user, s.bookings[id].slot));
    }
  }

  lemma OneMoreBelongs(before: Table, after: Table, queued: seq<BookingEvent>, e: BookingEvent)
    requires AllBelong(before, queued) && Belongs(after, e)
    requires forall id :: id in before ==>
               id in after && after[id].user == before[id].user && after[id].slot == before[id].slot
    ensures AllBelong(after, queued + [e])
  {
    forall f | f in queued + [e] ensures Belongs(after, f) {
      assert f == e || Belongs(before, f);
    }
  }

  lemma QuietEvents(s: State, t: State)
    requires EventsMatch(s) && t.bookings == s.bookings && t.queued == s.queued
    ensures EventsMatch(t)
  {
    forall id | id in t.bookings ensures Told(t, id) {
      assert Told(s, id);
    }
  }

  lemma EventsStep(s: State, a: Action)
    requires Safe(s) && EventsMatch(s) && Enabled(s, a)
    ensures EventsMatch(Do(s, a))
  {
    if a.CommitCreate? || a.CommitCancel? {
      CommitEvents(s, a);
    } else {
      QuietEvents(s, Do(s, a));
    }
  }

  /** Events and bookings never disagree, however transactions interleave or abort. */
  lemma {:induction false} EventsAgreeWithBookings(s: State, acts: seq<Action>)
    requires Safe(s) && EventsMatch(s) && Run(s, acts)
    ensures EventsMatch(After(s, acts))
    decreases |acts|
  {
    if acts != [] {
      SafeStep(s, acts[0]);
      EventsStep(s, acts[0]);
      EventsAgreeWithBookings(Do(s, acts[0]), acts[1..]);
    }
  }
}
