/** Venue bookings: occupancy counted at read time, and creating or cancelling a booking served alone. */
module Bookings {
  import opened Common

  datatype Status = Pending | Confirmed | Cancelled | Completed | NoShow

  /** `price`: the slot's at the moment of booking. */
  datatype Booking = Booking(user: Uuid, slot: Uuid, status: Status, note: Option<string>, price: nat)

  /** `startsAt` is missing when the slot's local start time is ambiguous or does not exist. */
  datatype Slot = Slot(startsAt: Option<nat>, capacity: nat, closed: bool, price: nat)

  /** An event queued in the transaction that changes the booking. */
  datatype BookingEvent =
    | BookingCreated(id: Uuid, user: Uuid, slot: Uuid)
    | BookingCancelled(id: Uuid, user: Uuid, slot: Uuid)

  type Table = map<Uuid, Booking>

  const HOUR: nat := 3600 * SECOND

  predicate IsCancellable(status: Status) {
    status.Pending? || status.Confirmed?
  }

  predicate OccupiesSeat(status: Status) {
    !status.Cancelled?
  }

  /** The `occupying_bookings` view of one slot. */
  function Occupying(bookings: Table, slot: Uuid): set<Uuid> {
    set b | b in bookings && bookings[b].slot == slot && OccupiesSeat(bookings[b].status)
  }

  predicate HasBooking(bookings: Table, user: Uuid, slot: Uuid) {
    exists b :: b in Occupying(bookings, slot) && bookings[b].user == user
  }

  function CancelledAt(bookings: Table, id: Uuid): Table
    requires id in bookings
  {
    bookings[id := bookings[id].(status := Cancelled)]
  }

  /** A whole number of hours, rounded towards zero. */
  function NumHours(duration: int): int {
    if duration >= 0 then duration / HOUR else -(-duration / HOUR)
  }

  /** Rounding does not blur the 24-hour rule: 24 full hours are enough and nothing less is. */
  lemma RoundingKeepsTheDeadline(duration: int)
    ensures NumHours(duration) < 24 <==> duration < 24 * HOUR
  {
    if duration >= 0 {
      assert duration == duration / HOUR * HOUR + duration % HOUR;
    } else {
      assert -duration / HOUR >= 0;
    }
  }

  // ------------------------------------------------------------- served alone

  datatype Error =
    | FullOrClosed | AmbiguousTime | AlreadyStarted | Duplicate
    | NotFound | NotOwner | NotCancellable | TooLate

  /** The first reason `create_booking` gives, in its order of precedence. */
  function CreateRefusal(slots: map<Uuid, Slot>, bookings: Table, now: nat, user: Uuid, slot: Uuid): Option<Error> {
    if slot !in slots || slots[slot].closed
        || |Occupying(bookings, slot)| >= slots[slot].capacity then Some(FullOrClosed)
    else if slots[slot].startsAt.None? then Some(AmbiguousTime)
    else if slots[slot].startsAt.value <= now then Some(AlreadyStarted)
    else if HasBooking(bookings, user, slot) then Some(Duplicate)
    else None
  }

  function CancelRefusal(slots: map<Uuid, Slot>, bookings: Table, now: nat, user: Uuid, admin: bool,
      id: Uuid): Option<Error> {
    if id !in bookings then Some(NotFound)
    else if bookings[id].user != user && !admin then Some(NotOwner)
    else if !IsCancellable(bookings[id].status) then Some(NotCancellable)
    else if admin then None
    else if bookings[id].slot !in slots then Some(NotFound)
    else if slots[bookings[id].slot].startsAt.None? then Some(AmbiguousTime)
    else if slots[bookings[id].slot].startsAt.value - now < 24 * HOUR then Some(TooLate)
    else None
  }

  /** The booking a slot's holder writes. */
  function Made(slots: map<Uuid, Slot>, user: Uuid, slot: Uuid, note: Option<string>): Booking
    requires slot in slots
  {
    Booking(user, slot, Confirmed, note, slots[slot].price)
  }

  /** The bookings that hold a seat of the slot: all but the cancelled ones. */
  function Holders(bookings: Table, slot: Uuid): set<Uuid> {
    set b | b in bookings && bookings[b].slot == slot && bookings[b].status != Cancelled
  }

  class BookingDesk {
    var slots: map<Uuid, Slot>
    var bookings: Table
    var queued: seq<BookingEvent>

    method CreateBooking(now: nat, user: Uuid, slot: Uuid, note: Option<string>, id: Uuid)
        returns (refusal: Option<Error>)
      requires id !in bookings
      modifies `bookings, `queued
      ensures refusal == CreateRefusal(slots, old(bookings), now, user, slot)
      ensures refusal == (if slot !in slots || slots[slot].closed
                             || slots[slot].capacity <= |Holders(old(bookings), slot)| then Some(FullOrClosed)
                          else if slots[slot].startsAt.None? then Some(AmbiguousTime)
                          else if slots[slot].startsAt.value <= now then Some(AlreadyStarted)
                          else if exists b :: b in Holders(old(bookings), slot) && old(bookings)[b].user == user
                          then Some(Duplicate)
                          else None)
      ensures refusal.Some? ==> bookings == old(bookings) && queued == old(queued)
      ensures refusal.None? ==>
                && bookings == old(bookings)[id := Booking(user, slot, Confirmed, note, slots[slot].price)]
                && queued == old(queued) + [BookingCreated(id, user, slot)]
    {
      if slot !in slots || slots[slot].closed {
        return Some(FullOrClosed);
      }
      assert Occupying(bookings, slot) == Holders(bookings, slot);
      var occupied := |Occupying(bookings, slot)|;
      if occupied >= slots[slot].capacity {
        return Some(FullOrClosed);
      }
      if slots[slot].startsAt.None? {
        return Some(AmbiguousTime);
      }
      if slots[slot].startsAt.value <= now {
        return Some(AlreadyStarted);
      }
      if HasBooking(bookings, user, slot) {
        return Some(Duplicate);
      }
      bookings := bookings[id := Booking(user, slot, Confirmed, note, slots[slot].price)];
      queued := queued + [BookingCreated(id, user, slot)];
      return None;
    }

    method CancelBooking(now: nat, user: Uuid, admin: bool, id: Uuid) returns (refusal: Option<Error>)
      modifies `bookings, `queued
      ensures refusal == CancelRefusal(slots, old(bookings), now, user, admin, id)
      ensures refusal == (if id !in old(bookings) then Some(NotFound)
                          else if !admin && user != old(bookings)[id].user then Some(NotOwner)
                          else if old(bookings)[id].status != Pending && old(bookings)[id].status != Confirmed
                          then Some(NotCancellable)
                          else if admin then None
                          else if old(bookings)[id].slot !in slots then Some(NotFound)
                          else if slots[old(bookings)[id].slot].startsAt.None? then Some(AmbiguousTime)
                          else if slots[old(bookings)[id].slot].startsAt.value < now + 24 * 3600 * 1000
                          then Some(TooLate)
                          else None)
      ensures refusal.Some? ==> bookings == old(bookings) && queued == old(queued)
      ensures refusal.None? ==>
                && bookings == old(bookings)[id := old(bookings)[id].(status := Cancelled)]
                && queued == old(queued) + [BookingCancelled(id, bookings[id].user, bookings[id].slot)]
    {
      if id !in bookings {
        return Some(NotFound);
      }
      var booking := bookings[id];
      if booking.user != user && !admin {
        return Some(NotOwner);
      }
      if !IsCancellable(booking.status) {
        return Some(NotCancellable);
      }
      if !admin {
        if booking.slot !in slots {
          return Some(NotFound);
        }
        var startsAt := slots[booking.slot].startsAt;
        if startsAt.None? {
          return Some(AmbiguousTime);
        }
        RoundingKeepsTheDeadline(startsAt.value - now);
        if NumHours(startsAt.value - now) < 24 {
          return Some(TooLate);
        }
      }
      bookings := CancelledAt(bookings, id);
      queued := queued + [BookingCancelled(id, booking.user, booking.slot)];
      return None;
    }
  }

  // -------------------------------------------------------------- what steps do

  lemma InsertOccupies(bookings: Table, id: Uuid, b: Booking, slot: Uuid)
    requires id !in bookings && OccupiesSeat(b.status)
    ensures |Occupying(bookings[id := b], slot)| == |Occupying(bookings, slot)| + if b.slot == slot then 1 else 0
    ensures Occupying(bookings[id := b], slot) == Occupying(bookings, slot) + if b.slot == slot then {id} else {}
  {
    assert Occupying(bookings[id := b], slot) == Occupying(bookings, slot) + if b.slot == slot then {id} else {};
  }

  /** Cancelling frees exactly the booking's own seat, whether or not its slot has been closed since. */
  lemma CancelFrees(bookings: Table, id: Uuid, slot: Uuid)
    requires id in bookings
    ensures Occupying(CancelledAt(bookings, id), slot) == Occupying(bookings, slot) - {id}
    ensures id in Occupying(bookings, slot) ==>
            |Occupying(CancelledAt(bookings, id), slot)| == |Occupying(bookings, slot)| - 1
  {
    assert Occupying(CancelledAt(bookings, id), slot) == Occupying(bookings, slot) - {id};
  }

  lemma OccupancyIsUndone(bookings: Table, id: Uuid, b: Booking, slot: Uuid)
    requires id !in bookings && b.status == Confirmed
    ensures Occupying(CancelledAt(bookings[id := b], id), slot) == Occupying(bookings, slot)
    ensures forall user ::
              HasBooking(CancelledAt(bookings[id := b], id), user, slot) <==> HasBooking(bookings, user, slot)
  {
    InsertOccupies(bookings, id, b, slot);
    CancelFrees(bookings[id := b], id, slot);
    var after := CancelledAt(bookings[id := b], id);
    assert forall x :: x in Occupying(bookings, slot) ==> after[x] == bookings[x];
  }

  /** A booking made and then cancelled leaves every slot as it was: it can be made again, not cancelled again. */
  lemma CancelUndoesCreate(
      slots: map<Uuid, Slot>, bookings: Table, now: nat, user: Uuid, slot: Uuid, note: Option<string>, id: Uuid)
    requires id !in bookings && CreateRefusal(slots, bookings, now, user, slot).None?
    ensures var after := CancelledAt(bookings[id := Made(slots, user, slot, note)], id);
            && (forall s :: Occupying(after, s) == Occupying(bookings, s))
            && CreateRefusal(slots, after, now, user, slot).None?
            && CancelRefusal(slots, after, now, user, true, id) == Some(NotCancellable)
  {
    var b := Made(slots, user, slot, note);
    forall s ensures Occupying(CancelledAt(bookings[id := b], id), s) == Occupying(bookings, s) {
      OccupancyIsUndone(bookings, id, b, s);
    }
    OccupancyIsUndone(bookings, id, b, slot);
  }
}
