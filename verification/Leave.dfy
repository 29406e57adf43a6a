/** Leave requests and makeups: the decision rules, the physical seat formula, and each request served alone. */
module Leave {
  import opened Common

  datatype Status = Pending | Approved | Rejected | Cancelled

  datatype Enrolment = Enrolment(user: Uuid, course: Uuid, active: bool)

  datatype Request = Request(enrolment: Uuid, session: Uuid, status: Status, makeup: Option<Uuid>)

  /** A class meeting. `startsAt` is missing when its local start time is ambiguous or does not exist. */
  datatype Session = Session(course: Uuid, startsAt: Option<nat>)

  type Enrolments = map<Uuid, Enrolment>
  type Requests = map<Uuid, Request>

  datatype Db = Db(capacity: map<Uuid, nat>, sessions: map<Uuid, Session>, enrolments: Enrolments, requests: Requests)

  datatype Error =
    | BadStatus | LeaveNotFound | NotOwner | NotPending | EnrolmentCancelled | NotApproved | AlreadyBooked
    | SessionNotFound | OtherCourse | OwnSession | AmbiguousTime | AlreadyStarted | SessionFull | NotEnrolled
    | Duplicate | EnrolmentNotFound | EnrolmentAlreadyCancelled | NotCoach

  // ------------------------------------------------------------------- rules

  function ParseDecision(text: string): Option<Status> {
    if text == "approved" then Some(Approved) else if text == "rejected" then Some(Rejected) else None
  }

  function CheckDecidable(status: Status, enrolmentActive: bool, decision: Status): Option<Error> {
    if status != Pending then Some(NotPending)
    else if decision == Approved && !enrolmentActive then Some(EnrolmentCancelled)
    else None
  }

  function CheckMakeupSource(r: Request, enrolmentActive: bool): Option<Error> {
    if r.status != Approved then Some(NotApproved)
    else if r.makeup.Some? then Some(AlreadyBooked)
    else if !enrolmentActive then Some(EnrolmentCancelled)
    else None
  }

  function RequireNotStarted(session: Session, now: nat): Option<Error> {
    if session.startsAt.None? then Some(AmbiguousTime)
    else if session.startsAt.value <= now then Some(AlreadyStarted)
    else None
  }

  function CheckMakeupTarget(r: Request, course: Uuid, target: Uuid, session: Session, now: nat): Option<Error> {
    if session.course != course then Some(OtherCourse)
    else if target == r.session then Some(OwnSession)
    else RequireNotStarted(session, now)
  }

  // ------------------------------------------------------------------- seats

  function ActiveIn(enrolments: Enrolments, course: Uuid): set<Uuid> {
    set e | e in enrolments && enrolments[e].active && enrolments[e].course == course
  }

  predicate Active(enrolments: Enrolments, e: Uuid) {
    e in enrolments && enrolments[e].active
  }

  /** Approved leaves that free a seat of `session`. */
  function OnLeave(enrolments: Enrolments, requests: Requests, session: Uuid): set<Uuid> {
    set r | r in requests && requests[r].status == Approved && requests[r].session == session
            && Active(enrolments, requests[r].enrolment)
  }

  /** Makeups that take a seat of `session`. */
  function MadeUp(enrolments: Enrolments, requests: Requests, session: Uuid): set<Uuid> {
    set r | r in requests && requests[r].makeup == Some(session) && Active(enrolments, requests[r].enrolment)
  }

  /** `SessionSeats::remaining`. */
  function Remaining(db: Db, session: Uuid): int
    requires session in db.sessions && db.sessions[session].course in db.capacity
  {
    db.capacity[db.sessions[session].course] - |ActiveIn(db.enrolments, db.sessions[session].course)|
    + |OnLeave(db.enrolments, db.requests, session)| - |MadeUp(db.enrolments, db.requests, session)|
  }

  // ------------------------------------------------------------- consistency

  predicate Live(r: Request) {
    r.status.Pending? || r.status.Approved?
  }

  /** What the foreign keys, the unique index and the writers keep true of a request. */
  predicate RequestOk(db: Db, r: Request) {
    && r.enrolment in db.enrolments && r.session in db.sessions
    && db.enrolments[r.enrolment].course == db.sessions[r.session].course
    && (r.makeup.Some? ==> r.status.Approved? && MovesTo(db, r, r.makeup.value))
  }

  /** A makeup stays in the course and is not the session the leave was taken from. */
  predicate MovesTo(db: Db, r: Request, target: Uuid) {
    target in db.sessions && target != r.session
    && r.session in db.sessions && db.sessions[target].course == db.sessions[r.session].course
  }

  /** The partial unique index: one live request per enrolment and session. */
  ghost predicate UniqueLive(requests: Requests) {
    forall a, b :: a in requests && b in requests && a != b && Live(requests[a]) && Live(requests[b])
                   && requests[a].enrolment == requests[b].enrolment
                   ==> requests[a].session != requests[b].session
  }

  ghost predicate Consistent(db: Db) {
    && (forall s :: s in db.sessions ==> db.sessions[s].course in db.capacity)
    && (forall r :: r in db.requests ==> RequestOk(db, db.requests[r]))
    && UniqueLive(db.requests)
  }

  // -------------------------------------------------------------- statements

  /** The conditional UPDATE shared by decisions and cancellations: pending rows among `ids` change status. */
  function Settled(requests: Requests, ids: set<Uuid>, status: Status): Requests {
    map r | r in requests ::
      if r in ids && requests[r].status.Pending? then requests[r].(status := status) else requests[r]
  }

  function Booked(requests: Requests, id: Uuid, target: Uuid): Requests
    requires id in requests
  {
    requests[id := requests[id].(makeup := Some(target))]
  }

  function Withdrawn(enrolments: Enrolments, ids: set<Uuid>): Enrolments {
    map e | e in enrolments :: if e in ids then enrolments[e].(active := false) else enrolments[e]
  }

  function RequestsOf(requests: Requests, enrolments: set<Uuid>): set<Uuid> {
    set r | r in requests && requests[r].enrolment in enrolments
  }

  // --------------------------------------------------- what statements do to seats

  /** Deciding or cancelling a pending request frees seats or leaves them, and moves no makeup. */
  lemma SettledSeats(enrolments: Enrolments, requests: Requests, ids: set<Uuid>, status: Status, session: Uuid)
    ensures OnLeave(enrolments, requests, session) <= OnLeave(enrolments, Settled(requests, ids, status), session)
    ensures MadeUp(enrolments, requests, session) == MadeUp(enrolments, Settled(requests, ids, status), session)
  {
  }

  /** A makeup takes one seat of its target, and none if its enrolment is gone. */
  lemma BookedSeats(enrolments: Enrolments, requests: Requests, id: Uuid, target: Uuid, session: Uuid)
    requires id in requests && requests[id].makeup.None?
    ensures OnLeave(enrolments, Booked(requests, id, target), session) == OnLeave(enrolments, requests, session)
    ensures |MadeUp(enrolments, Booked(requests, id, target), session)|
            == |MadeUp(enrolments, requests, session)|
               + if session == target && Active(enrolments, requests[id].enrolment) then 1 else 0
  {
    var after := MadeUp(enrolments, Booked(requests, id, target), session);
    if session == target && Active(enrolments, requests[id].enrolment) {
      assert after == MadeUp(enrolments, requests, session) + {id};
    } else {
      assert after == MadeUp(enrolments, requests, session);
    }
    assert OnLeave(enrolments, Booked(requests, id, target), session) == OnLeave(enrolments, requests, session);
  }

  /** Approved leaves of distinct enrolments are no more than the enrolments. */
  lemma {:induction false} LeavesInject(requests: Requests, leaves: set<Uuid>, owners: set<Uuid>)
    requires forall r :: r in leaves ==> r in requests && requests[r].enrolment in owners
    requires forall a, b :: a in leaves && b in leaves && a != b ==> requests[a].enrolment != requests[b].enrolment
    ensures |leaves| <= |owners|
  {
    if leaves != {} {
      var r :| r in leaves;
      LeavesInject(requests, leaves - {r}, owners - {requests[r].enrolment});
    }
  }

  /** Withdrawing enrolments never lowers a session's seats: each gives back a seat and frees at most one less leave. */
  lemma WithdrawnSeats(db: Db, ids: set<Uuid>, session: Uuid)
    requires Consistent(db) && session in db.sessions
    ensures Remaining(db.(enrolments := Withdrawn(db.enrolments, ids)), session) >= Remaining(db, session)
  {
    var course := db.sessions[session].course;
    var after := Withdrawn(db.enrolments, ids);
    var gone := ActiveIn(db.enrolments, course) * ids;
    assert ActiveIn(after, course) == ActiveIn(db.enrolments, course) - gone;
    var leaves := OnLeave(db.enrolments, db.requests, session);
    var lost := set r | r in leaves && db.requests[r].enrolment in ids;
    assert OnLeave(after, db.requests, session) == leaves - lost;
    assert MadeUp(after, db.requests, session) <= MadeUp(db.enrolments, db.requests, session);
    CardinalityOfSubset(MadeUp(after, db.requests, session), MadeUp(db.enrolments, db.requests, session));
    assert forall r :: r in lost ==> db.requests[r].enrolment in gone by {
      assert forall r :: r in lost ==> RequestOk(db, db.requests[r]);
    }
    LeavesInject(db.requests, lost, gone);
  }

  /** A new enrolment takes one seat of every session of its course. */
  lemma EnrolledSeats(db: Db, id: Uuid, e: Enrolment, session: Uuid)
    requires Consistent(db) && session in db.sessions && id !in db.enrolments && e.active
    ensures Remaining(db.(enrolments := db.enrolments[id := e]), session)
            == Remaining(db, session) - if e.course == db.sessions[session].course then 1 else 0
  {
    assert forall r :: r in db.requests ==> RequestOk(db, db.requests[r]);
    SeatTaken(db.enrolments, id, e, db.sessions[session].course);
    LeavesUnaffected(db.enrolments, db.requests, id, e, session);
  }

  lemma SeatTaken(enrolments: Enrolments, id: Uuid, e: Enrolment, course: Uuid)
    requires id !in enrolments && e.active
    ensures |ActiveIn(enrolments[id := e], course)|
            == |ActiveIn(enrolments, course)| + if e.course == course then 1 else 0
  {
    if e.course == course {
      assert ActiveIn(enrolments[id := e], course) == ActiveIn(enrolments, course) + {id};
    } else {
      assert ActiveIn(enrolments[id := e], course) == ActiveIn(enrolments, course);
    }
  }

  lemma LeavesUnaffected(enrolments: Enrolments, requests: Requests, id: Uuid, e: Enrolment, session: Uuid)
    requires id !in enrolments && forall r :: r in requests ==> requests[r].enrolment in enrolments
    ensures OnLeave(enrolments[id := e], requests, session) == OnLeave(enrolments, requests, session)
    ensures MadeUp(enrolments[id := e], requests, session) == MadeUp(enrolments, requests, session)
  {
  }

  /** Asking for leave changes no seat. */
  lemma RequestedSeats(enrolments: Enrolments, requests: Requests, id: Uuid, r: Request, session: Uuid)
    requires id !in requests && r.status.Pending? && r.makeup.None?
    ensures OnLeave(enrolments, requests[id := r], session) == OnLeave(enrolments, requests, session)
    ensures MadeUp(enrolments, requests[id := r], session) == MadeUp(enrolments, requests, session)
  {
  }

  /** Who comes to `session` by enrolment: the active ones of its course with no approved leave from it. */
  function Present(db: Db, session: Uuid): set<Uuid>
    requires session in db.sessions
  {
    set e | e in db.enrolments && db.enrolments[e].active && db.enrolments[e].course == db.sessions[session].course
            && forall r :: r in db.requests && db.requests[r].enrolment == e && db.requests[r].session == session ==>
                 !db.requests[r].status.Approved?
  }

  /** And who comes to make up for another session. */
  function Guests(db: Db, session: Uuid): set<Uuid> {
    set r | r in db.requests && db.requests[r].makeup == Some(session)
            && db.requests[r].enrolment in db.enrolments && db.enrolments[db.requests[r].enrolment].active
  }

  lemma {:induction false} LeavesMatch(requests: Requests, leaves: set<Uuid>, owners: set<Uuid>)
    requires forall r :: r in leaves ==> r in requests && requests[r].enrolment in owners
    requires forall a, b :: a in leaves && b in leaves && a != b ==> requests[a].enrolment != requests[b].enrolment
    requires forall e :: e in owners ==> exists r :: r in leaves && requests[r].enrolment == e
    ensures |leaves| == |owners|
  {
    if leaves != {} {
      var r :| r in leaves;
      LeavesMatch(requests, leaves - {r}, owners - {requests[r].enrolment});
    }
  }

  /** The enrolments whose approved leave frees a seat of `session`. */
  function Absent(db: Db, session: Uuid): set<Uuid> {
    set r | r in OnLeave(db.enrolments, db.requests, session) :: db.requests[r].enrolment
  }

  lemma AbsentAreActive(db: Db, session: Uuid)
    requires Consistent(db) && session in db.sessions
    ensures Absent(db, session) <= ActiveIn(db.enrolments, db.sessions[session].course)
  {
    forall r | r in OnLeave(db.enrolments, db.requests, session)
      ensures db.requests[r].enrolment in ActiveIn(db.enrolments, db.sessions[session].course)
    {
      assert RequestOk(db, db.requests[r]);
    }
  }

  lemma PresentAreTheRest(db: Db, session: Uuid)
    requires Consistent(db) && session in db.sessions
    ensures Present(db, session) == ActiveIn(db.enrolments, db.sessions[session].course) - Absent(db, session)
  {
    forall e | e in ActiveIn(db.enrolments, db.sessions[session].course)
      ensures e in Present(db, session) <==> e !in Absent(db, session)
    {
      if r :| r in db.requests && db.requests[r].enrolment == e && db.requests[r].session == session
              && db.requests[r].status.Approved? {
        assert r in OnLeave(db.enrolments, db.requests, session);
      }
    }
  }

  lemma OneLeaveEach(db: Db, session: Uuid)
    requires Consistent(db)
    ensures |OnLeave(db.enrolments, db.requests, session)| == |Absent(db, session)|
  {
    LeavesMatch(db.requests, OnLeave(db.enrolments, db.requests, session), Absent(db, session));
  }

  /** The seat formula counts heads: what is left is the capacity less everybody who comes. */
  lemma RemainingCountsHeads(db: Db, session: Uuid)
    requires Consistent(db) && session in db.sessions
    ensures Remaining(db, session)
            == db.capacity[db.sessions[session].course] - |Present(db, session)| - |Guests(db, session)|
  {
    AbsentAreActive(db, session);
    PresentAreTheRest(db, session);
    OneLeaveEach(db, session);
    assert Guests(db, session) == MadeUp(db.enrolments, db.requests, session);
  }

  // ------------------------------------------------------- statements keep consistency

  lemma SettledKeepsConsistent(db: Db, ids: set<Uuid>, status: Status)
    requires Consistent(db)
    ensures Consistent(db.(requests := Settled(db.requests, ids, status)))
  {
    var t := db.(requests := Settled(db.requests, ids, status));
    forall r | r in t.requests ensures RequestOk(t, t.requests[r]) {
      assert RequestOk(db, db.requests[r]);
    }
  }

  lemma BookedKeepsConsistent(db: Db, id: Uuid, target: Uuid)
    requires Consistent(db) && id in db.requests && db.requests[id].status.Approved?
             && MovesTo(db, db.requests[id], target)
    ensures Consistent(db.(requests := Booked(db.requests, id, target)))
  {
    var t := db.(requests := Booked(db.requests, id, target));
    forall r | r in t.requests ensures RequestOk(t, t.requests[r]) {
      assert RequestOk(db, db.requests[r]);
    }
  }

  lemma WithdrawnKeepsConsistent(db: Db, ids: set<Uuid>)
    requires Consistent(db)
    ensures Consistent(db.(enrolments := Withdrawn(db.enrolments, ids)))
  {
    var t := db.(enrolments := Withdrawn(db.enrolments, ids));
    forall r | r in t.requests ensures RequestOk(t, t.requests[r]) {
      assert RequestOk(db, db.requests[r]);
    }
  }

  /** The unique index admits the row. */
  ghost predicate Admits(requests: Requests, r: Request) {
    forall a :: a in requests && Live(requests[a]) && requests[a].enrolment == r.enrolment ==>
        requests[a].session != r.session
  }

  lemma RequestedKeepsConsistent(db: Db, id: Uuid, r: Request)
    requires Consistent(db) && id !in db.requests && RequestOk(db, r) && Admits(db.requests, r)
    ensures Consistent(db.(requests := db.requests[id := r]))
  {
    var t := db.(requests := db.requests[id := r]);
    forall q | q in t.requests ensures RequestOk(t, t.requests[q]) {
      assert q != id ==> RequestOk(db, db.requests[q]);
    }
  }

  // ------------------------------------------------------- one request served alone

  function Owner(db: Db, request: Uuid): Option<Uuid> {
    if request in db.requests && db.requests[request].enrolment in db.enrolments
    then Some(db.enrolments[db.requests[request].enrolment].user)
    else None
  }

  /** The enrolment a request belongs to. */
  function EnrolmentOf(db: Db, request: Uuid): Enrolment
    requires Consistent(db) && request in db.requests
  {
    assert RequestOk(db, db.requests[request]);
    db.enrolments[db.requests[request].enrolment]
  }

  lemma SettledOne(requests: Requests, id: Uuid, status: Status)
    requires id in requests && requests[id].status.Pending?
    ensures Settled(requests, {id}, status) == requests[id := requests[id].(status := status)]
  {
  }

  /** `require_course_coach`: an admin, or the coach the course names. */
  predicate CoachesIt(admin: bool, coach: Option<Uuid>, courseCoach: Option<Uuid>) {
    admin || (coach.Some? && coach == courseCoach)
  }

  /** The first reason a decision is refused; `coaches` is `courses.coach_id`, `coach` the caller's own profile. */
  function DecideRefusal(db: Db, coaches: map<Uuid, Uuid>, admin: bool, coach: Option<Uuid>, id: Uuid,
      text: string): Option<Error>
    requires Consistent(db)
  {
    if ParseDecision(text).None? then Some(BadStatus)
    else if id !in db.requests then Some(LeaveNotFound)
    else
      assert RequestOk(db, db.requests[id]);
      var e := db.enrolments[db.requests[id].enrolment];
      var courseCoach := if e.course in coaches then Some(coaches[e.course]) else None;
      if !CoachesIt(admin, coach, courseCoach) then Some(NotCoach)
      else CheckDecidable(db.requests[id].status, e.active, ParseDecision(text).value)
  }

  /** Nobody but an admin or the course's own coach decides anything. */
  lemma OnlyTheCoachDecides(db: Db, coaches: map<Uuid, Uuid>, coach: Option<Uuid>, id: Uuid, text: string)
    requires Consistent(db) && DecideRefusal(db, coaches, false, coach, id, text).None?
    ensures id in db.requests && db.requests[id].enrolment in db.enrolments
    ensures var course := db.enrolments[db.requests[id].enrolment].course;
            course in coaches && coach == Some(coaches[course])
  {
    assert RequestOk(db, db.requests[id]);
  }

  /** The first reason `book_makeup` gives for refusing, in its order of precedence. */
  function MakeupRefusal(db: Db, now: nat, user: Uuid, id: Uuid, target: Uuid): Option<Error>
    requires Consistent(db)
  {
    if id !in db.requests then Some(LeaveNotFound) else
    var r := db.requests[id];
    assert RequestOk(db, r);
    var e := db.enrolments[r.enrolment];
    if e.user != user then Some(NotOwner)
    else if CheckMakeupSource(r, e.active).Some? then CheckMakeupSource(r, e.active)
    else if target !in db.sessions then Some(SessionNotFound)
    else if CheckMakeupTarget(r, e.course, target, db.sessions[target], now).Some? then
      CheckMakeupTarget(r, e.course, target, db.sessions[target], now)
    else if Remaining(db, target) <= 0 then Some(SessionFull)
    else None
  }

  /**
   * Served alone, an approval frees exactly one seat, of the leave's own session; a rejection or
   * a cancellation frees none.
   */
  lemma DecisionMovesSeats(db: Db, id: Uuid, decision: Status, session: Uuid)
    requires Consistent(db) && id in db.requests && session in db.sessions && decision != Pending
    requires CheckDecidable(db.requests[id].status, Active(db.enrolments, db.requests[id].enrolment), decision).None?
    ensures Remaining(db.(requests := Settled(db.requests, {id}, decision)), session)
            == Remaining(db, session) + if decision == Approved && db.requests[id].session == session then 1 else 0
  {
    var after := Settled(db.requests, {id}, decision);
    SettledSeats(db.enrolments, db.requests, {id}, decision, session);
    if decision == Approved && db.requests[id].session == session {
      assert OnLeave(db.enrolments, after, session) == OnLeave(db.enrolments, db.requests, session) + {id};
    } else {
      assert OnLeave(db.enrolments, after, session) == OnLeave(db.enrolments, db.requests, session);
    }
  }

  lemma SeatsAfterDecision(db: Db, id: Uuid, decision: Status)
    requires Consistent(db) && id in db.requests && decision != Pending
    requires CheckDecidable(db.requests[id].status, Active(db.enrolments, db.requests[id].enrolment), decision).None?
    ensures forall s :: s in db.sessions ==>
              Remaining(db.(requests := Settled(db.requests, {id}, decision)), s)
              == Remaining(db, s) + if decision == Approved && db.requests[id].session == s then 1 else 0
  {
    forall s | s in db.sessions
      ensures Remaining(db.(requests := Settled(db.requests, {id}, decision)), s)
              == Remaining(db, s) + if decision == Approved && db.requests[id].session == s then 1 else 0
    {
      DecisionMovesSeats(db, id, decision, s);
    }
  }

  /** A makeup served alone takes exactly one seat, of a session that had one, and no other session notices. */
  lemma MakeupTakesOneSeat(db: Db, now: nat, user: Uuid, id: Uuid, target: Uuid, session: Uuid)
    requires Consistent(db) && MakeupRefusal(db, now, user, id, target).None? && session in db.sessions
    ensures Remaining(db, target) > 0 && session in db.sessions
    ensures Remaining(db.(requests := Booked(db.requests, id, target)), session)
            == Remaining(db, session) - if session == target then 1 else 0
    ensures MakeupRefusal(db.(requests := Booked(db.requests, id, target)), now, user, id, session)
            == Some(AlreadyBooked)
  {
    BookedSeats(db.enrolments, db.requests, id, target, session);
    BookedKeepsConsistent(db, id, target);
  }

  /** A pending or approved request of the enrolment for the session. */
  predicate AsksAlready(requests: Requests, enrolment: Uuid, session: Uuid) {
    exists a :: a in requests && requests[a].enrolment == enrolment && requests[a].session == session
                && (requests[a].status == Pending || requests[a].status == Approved)
  }

  /** The tables as the leave and enrolment services change them. */
  class LeaveDesk {
    var capacity: map<Uuid, nat>
    var sessions: map<Uuid, Session>
    var enrolments: Enrolments
    var requests: Requests
    var coaches: map<Uuid, Uuid>

    ghost function Contents(): Db
      reads this
    {
      Db(capacity, sessions, enrolments, requests)
    }

    /** The course names the caller's own coach profile. */
    predicate Coaches(coach: Option<Uuid>, course: Uuid)
      reads this
    {
      coach.Some? && course in coaches && coaches[course] == coach.value
    }

    method CreateRequest(now: nat, user: Uuid, session: Uuid, id: Uuid) returns (refusal: Option<Error>)
      requires Consistent(Contents()) && id !in requests
      modifies `requests
      ensures Consistent(Contents())
      ensures session !in sessions <==> refusal == Some(SessionNotFound)
      ensures session in sessions ==>
                (refusal == Some(NotEnrolled) <==>
                   forall e :: e in enrolments ==>
                     !(enrolments[e].active && enrolments[e].user == user
                       && enrolments[e].course == sessions[session].course))
      ensures refusal.Some? ==> requests == old(requests)
      ensures session in sessions && refusal != Some(NotEnrolled) ==>
                && (refusal == Some(AmbiguousTime) <==> sessions[session].startsAt.None?)
                && (refusal == Some(AlreadyStarted) <==>
                      sessions[session].startsAt.Some? && sessions[session].startsAt.value <= now)
      ensures refusal.None? || refusal == Some(Duplicate) ==>
                exists e :: && e in enrolments && enrolments[e].active && enrolments[e].user == user
                            && enrolments[e].course == sessions[session].course
                            && (refusal.None? <==> !AsksAlready(old(requests), e, session))
                            && (refusal.None? ==> requests == old(requests)[id := Request(e, session, Pending, None)])
      ensures refusal.None? || refusal in {Some(SessionNotFound), Some(NotEnrolled), Some(AmbiguousTime),
                                           Some(AlreadyStarted), Some(Duplicate)}
    {
      if session !in sessions {
        return Some(SessionNotFound);
      }
      var mine := set e | e in ActiveIn(enrolments, sessions[session].course) && enrolments[e].user == user;
      if mine == {} {
        assert forall e :: e in ActiveIn(enrolments, sessions[session].course) && enrolments[e].user == user ==>
            e in mine;
        return Some(NotEnrolled);
      }
      var enrolment :| enrolment in mine;
      assert enrolments[enrolment].active && enrolments[enrolment].user == user;
      refusal := RequireNotStarted(sessions[session], now);
      if refusal.Some? {
        return;
      }
      if exists a :: a in requests && Live(requests[a]) && requests[a].enrolment == enrolment
          && requests[a].session == session {
        return Some(Duplicate);
      }
      RequestedKeepsConsistent(Contents(), id, Request(enrolment, session, Pending, None));
      requests := requests[id := Request(enrolment, session, Pending, None)];
    }

    method CancelRequest(user: Uuid, id: Uuid) returns (refusal: Option<Error>)
      requires Consistent(Contents())
      modifies `requests
      ensures Consistent(Contents())
      ensures refusal == (if id !in old(requests) then Some(LeaveNotFound)
                          else if EnrolmentOf(old(Contents()), id).user != user then Some(NotOwner)
                          else if !old(requests)[id].status.Pending? then Some(NotPending)
                          else None)
      ensures requests
              == if refusal.None? then old(requests)[id := old(requests)[id].(status := Cancelled)] else old(requests)
    {
      if id !in requests {
        return Some(LeaveNotFound);
      }
      assert RequestOk(Contents(), requests[id]);
      if enrolments[requests[id].enrolment].user != user {
        return Some(NotOwner);
      }
      if !requests[id].status.Pending? {
        return Some(NotPending);
      }
      SettledKeepsConsistent(Contents(), {id}, Cancelled);
      SettledOne(requests, id, Cancelled);
      requests := Settled(requests, {id}, Cancelled);
      return None;
    }

    /** The attendance row an approval projects is the business of module `Attendance`. */
    method Decide(admin: bool, coach: Option<Uuid>, id: Uuid, text: string) returns (refusal: Option<Error>)
      requires Consistent(Contents())
      modifies `requests
      ensures Consistent(Contents())
      ensures refusal == DecideRefusal(old(Contents()), coaches, admin, coach, id, text)
      ensures refusal == (if text != "approved" && text != "rejected" then Some(BadStatus)
                          else if id !in old(requests) then Some(LeaveNotFound)
                          else if !admin && !Coaches(coach, EnrolmentOf(old(Contents()), id).course) then Some(NotCoach)
                          else if old(requests)[id].status != Pending then Some(NotPending)
                          else if text == "approved" && !EnrolmentOf(old(Contents()), id).active
                          then Some(EnrolmentCancelled)
                          else None)
      ensures refusal.Some? ==> requests == old(requests)
      ensures refusal.None? ==>
                requests == old(requests)[id := old(requests)[id].(
                              status := if text == "approved" then Approved else Rejected)]
      // An approval gives back one seat, of the leave's own session; a rejection none.
      ensures forall s :: s in sessions ==>
                Remaining(Contents(), s)
                == old(Remaining(Contents(), s))
                   + if refusal.None? && text == "approved" && old(requests)[id].session == s then 1 else 0
    {
      var decision := ParseDecision(text);
      if decision.None? {
        return Some(BadStatus);
      }
      if id !in requests {
        return Some(LeaveNotFound);
      }
      assert RequestOk(Contents(), requests[id]);
      var enrolment := enrolments[requests[id].enrolment];
      if !admin {
        if coach.None? || enrolment.course !in coaches || coaches[enrolment.course] != coach.value {
          return Some(NotCoach);
        }
      }
      refusal := CheckDecidable(requests[id].status, enrolment.active, decision.value);
      if refusal.None? {
        SettledOne(requests, id, decision.value);
        SeatsAfterDecision(Contents(), id, decision.value);
        SettledKeepsConsistent(Contents(), {id}, decision.value);
        requests := Settled(requests, {id}, decision.value);
      }
    }

    method BookMakeup(now: nat, user: Uuid, id: Uuid, target: Uuid) returns (refusal: Option<Error>)
      requires Consistent(Contents())
      modifies `requests
      ensures Consistent(Contents())
      ensures refusal == MakeupRefusal(old(Contents()), now, user, id, target)
      ensures refusal == (if id !in old(requests) then Some(LeaveNotFound)
                          else if EnrolmentOf(old(Contents()), id).user != user then Some(NotOwner)
                          else if old(requests)[id].status != Approved then Some(NotApproved)
                          else if old(requests)[id].makeup.Some? then Some(AlreadyBooked)
                          else if !EnrolmentOf(old(Contents()), id).active then Some(EnrolmentCancelled)
                          else if target !in sessions then Some(SessionNotFound)
                          else if sessions[target].course != EnrolmentOf(old(Contents()), id).course
                          then Some(OtherCourse)
                          else if target == old(requests)[id].session then Some(OwnSession)
                          else if sessions[target].startsAt.None? then Some(AmbiguousTime)
                          else if sessions[target].startsAt.value <= now then Some(AlreadyStarted)
                          else if capacity[sessions[target].course]
                                  <= |Present(old(Contents()), target)| + |Guests(old(Contents()), target)|
                          then Some(SessionFull)
                          else None)
      ensures requests == if refusal.Some? then old(requests)
                          else old(requests)[id := old(requests)[id].(makeup := Some(target))]
    {
      if id !in requests {
        return Some(LeaveNotFound);
      }
      var leave := requests[id];
      assert RequestOk(Contents(), leave);
      var enrolment := enrolments[leave.enrolment];
      if enrolment.user != user {
        return Some(NotOwner);
      }
      refusal := CheckMakeupSource(leave, enrolment.active);
      if refusal.Some? {
        return;
      }
      if target !in sessions {
        return Some(SessionNotFound);
      }
      refusal := CheckMakeupTarget(leave, enrolment.course, target, sessions[target], now);
      if refusal.Some? {
        return;
      }
      RemainingCountsHeads(Contents(), target);
      var room := Remaining(Db(capacity, sessions, enrolments, requests), target) > 0;
      if !room {
        return Some(SessionFull);
      }
      BookedKeepsConsistent(Contents(), id, target);
      requests := Booked(requests, id, target);
    }

    method CancelEnrolment(user: Uuid, admin: bool, id: Uuid) returns (refusal: Option<Error>)
      requires Consistent(Contents())
      modifies `enrolments, `requests
      ensures Consistent(Contents())
      ensures refusal == (if id !in old(enrolments) then Some(EnrolmentNotFound)
                          else if old(enrolments)[id].user != user && !admin then Some(NotOwner)
                          else if !old(enrolments)[id].active then Some(EnrolmentAlreadyCancelled)
                          else None)
      ensures refusal.Some? ==> Contents() == old(Contents())
      ensures refusal.None? ==>
                && enrolments == old(enrolments)[id := old(enrolments)[id].(active := false)]
                && requests.Keys == old(requests).Keys
                && forall r :: r in old(requests) ==>
                     requests[r] == if old(requests)[r].enrolment == id && old(requests)[r].status == Pending
                                    then old(requests)[r].(status := Cancelled) else old(requests)[r]
      ensures forall s :: s in sessions ==> Remaining(Contents(), s) >= old(Remaining(Contents(), s))
    {
      if id !in enrolments {
        return Some(EnrolmentNotFound);
      }
      if enrolments[id].user != user && !admin {
        return Some(NotOwner);
      }
      if !enrolments[id].active {
        return Some(EnrolmentAlreadyCancelled);
      }
      WithdrawalSeats(Contents(), {id}, RequestsOf(requests, {id}));
      enrolments := Withdrawn(enrolments, {id});
      requests := Settled(requests, RequestsOf(requests, {id}), Cancelled);
      return None;
    }
  }

  /** Withdrawing enrolments and cancelling pending requests together. */
  lemma WithdrawalSeats(db: Db, ids: set<Uuid>, settled: set<Uuid>)
    requires Consistent(db)
    ensures var t := db.(enrolments := Withdrawn(db.enrolments, ids),
            requests := Settled(db.requests, settled, Cancelled));
            Consistent(t) && forall s :: s in db.sessions ==> Remaining(t, s) >= Remaining(db, s)
  {
    var mid := db.(enrolments := Withdrawn(db.enrolments, ids));
    var t := mid.(requests := Settled(db.requests, settled, Cancelled));
    WithdrawnKeepsConsistent(db, ids);
    SettledKeepsConsistent(mid, settled, Cancelled);
    forall s | s in db.sessions ensures Remaining(t, s) >= Remaining(db, s) {
      WithdrawnSeats(db, ids, s);
      SettledSeats(mid.enrolments, mid.requests, settled, Cancelled, s);
      CardinalityOfSubset(OnLeave(mid.enrolments, mid.requests, s), OnLeave(t.enrolments, t.requests, s));
    }
  }
}
