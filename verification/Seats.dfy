/**
 * Seat conservation: makeups booked statement by statement (lock the request, lock the session,
 * count, write and commit) against decisions, cancellations, enrolments and capacity edits.
 */
module Seats {
  import opened Common
  import opened Leave

  type TxId = nat

  /** How far a makeup transaction has come. */
  datatype Phase = HoldsRequest | HoldsSession | RoomFound

  datatype Makeup = Makeup(request: Uuid, target: Uuid, phase: Phase)

  /** A decision whose unlocked read has passed the rules and whose UPDATE is still to come. */
  datatype Decision = Decision(request: Uuid, verdict: Status)

  datatype State = State(db: Db, makeups: map<TxId, Makeup>, decisions: map<TxId, Decision>)

  datatype Action =
    | LockRequest(x: TxId, user: Uuid, request: Uuid, target: Uuid)
    | LockSession(x: TxId, now: nat)
    | FindRoom(x: TxId)
    | CommitMakeup(x: TxId)
    | AbortMakeup(x: TxId)
    | ReadDecision(x: TxId, request: Uuid, verdict: Status)
    | Decide(x: TxId)
    | CancelRequest(id: Uuid)
    // `missed`: pending requests committed after the cancellation's UPDATE took its snapshot.
    | CancelEnrolments(ids: set<Uuid>, missed: set<Uuid>)
    | CreateRequest(id: Uuid, enrolment: Uuid, session: Uuid)
    | Enrol(id: Uuid, user: Uuid, course: Uuid)
    | SetCapacity(course: Uuid, max: nat)
    | AddSession(id: Uuid, added: Session)

  predicate HasSession(m: Makeup) {
    !m.phase.HoldsRequest?
  }

  predicate RequestLocked(s: State, id: Uuid) {
    exists x :: x in s.makeups && s.makeups[x].request == id
  }

  predicate SessionLocked(s: State, id: Uuid) {
    exists x :: x in s.makeups && HasSession(s.makeups[x]) && s.makeups[x].target == id
  }

  predicate InPhase(s: State, x: TxId, phase: Phase) {
    x in s.makeups && s.makeups[x].phase == phase
  }

  /** The guard of `set_makeup_session_tx`. */
  predicate Bookable(requests: Requests, id: Uuid) {
    id in requests && requests[id].status == Approved && requests[id].makeup == None
  }

  ghost predicate Enabled(s: State, a: Action) {
    match a
    case LockRequest(x, user, id, _) =>
      && x !in s.makeups && !RequestLocked(s, id) && Owner(s.db, id) == Some(user)
      && CheckMakeupSource(s.db.requests[id], Active(s.db.enrolments, s.db.requests[id].enrolment)).None?
    case LockSession(x, now) =>
      && InPhase(s, x, HoldsRequest) && s.makeups[x].target in s.db.sessions && !SessionLocked(s, s.makeups[x].target)
      && Owner(s.db, s.makeups[x].request).Some?
      && (var r := s.db.requests[s.makeups[x].request];
          CheckMakeupTarget(r, s.db.enrolments[r.enrolment].course, s.makeups[x].target,
                            s.db.sessions[s.makeups[x].target], now).None?)
    case FindRoom(x) =>
      && InPhase(s, x, HoldsSession) && s.makeups[x].target in s.db.sessions
      && s.db.sessions[s.makeups[x].target].course in s.db.capacity && Remaining(s.db, s.makeups[x].target) > 0
    case CommitMakeup(x) => InPhase(s, x, RoomFound) && Bookable(s.db.requests, s.makeups[x].request)
    case AbortMakeup(x) => x in s.makeups
    case ReadDecision(x, id, verdict) =>
      && x !in s.decisions && id in s.db.requests && (verdict == Approved || verdict == Rejected)
      && CheckDecidable(s.db.requests[id].status, Active(s.db.enrolments, s.db.requests[id].enrolment), verdict).None?
    case Decide(x) => x in s.decisions
    case CancelRequest(id) => true
    case CancelEnrolments(_, _) => true
    // The enrolment was active when it was looked up, without a lock.
    case CreateRequest(id, e, session) =>
      && id !in s.db.requests && RequestOk(s.db, Request(e, session, Pending, None))
      && Admits(s.db.requests, Request(e, session, Pending, None))
    case Enrol(id, _, _) => id !in s.db.enrolments
    case SetCapacity(_, _) => true
    case AddSession(id, session) => id !in s.db.sessions && session.course in s.db.capacity
  }

  function Do(s: State, a: Action): State
    requires Enabled(s, a)
  {
    match a
    case LockRequest(x, _, id, target) => s.(makeups := s.makeups[x := Makeup(id, target, HoldsRequest)])
    case LockSession(x, _) => s.(makeups := s.makeups[x := s.makeups[x].(phase := HoldsSession)])
    case FindRoom(x) => s.(makeups := s.makeups[x := s.makeups[x].(phase := RoomFound)])
    case CommitMakeup(x) =>
      s.(db := s.db.(requests := Booked(s.db.requests, s.makeups[x].request, s.makeups[x].target)),
          makeups := s.makeups - {x})
    case AbortMakeup(x) => s.(makeups := s.makeups - {x})
    case ReadDecision(x, id, verdict) => s.(decisions := s.decisions[x := Decision(id, verdict)])
    case Decide(x) =>
      s.(db := s.db.(requests := Settled(s.db.requests, {s.decisions[x].request}, s.decisions[x].verdict)),
         decisions := s.decisions - {x})
    case CancelRequest(id) => s.(db := s.db.(requests := Settled(s.db.requests, {id}, Cancelled)))
    case CancelEnrolments(ids, missed) =>
      s.(db := s.db.(enrolments := Withdrawn(s.db.enrolments, ids),
                     requests := Settled(s.db.requests, RequestsOf(s.db.requests, ids) - missed, Cancelled)))
    case CreateRequest(id, e, session) =>
      s.(db := s.db.(requests := s.db.requests[id := Request(e, session, Pending, None)]))
    case Enrol(id, user, course) => s.(db := s.db.(enrolments := s.db.enrolments[id := Enrolment(user, course, true)]))
    case SetCapacity(course, max) => s.(db := s.db.(capacity := s.db.capacity[course := max]))
    case AddSession(id, session) => s.(db := s.db.(sessions := s.db.sessions[id := session]))
  }

  // --------------------------------------------------------------- invariant

  /** A makeup under way holds an approved request without a makeup, and a session it may move to. */
  predicate MakeupOk(db: Db, m: Makeup) {
    && Bookable(db.requests, m.request)
    && (HasSession(m) ==> MovesTo(db, db.requests[m.request], m.target))
  }

  ghost predicate LocksOk(makeups: map<TxId, Makeup>) {
    forall x, y :: x in makeups && y in makeups && x != y ==>
      && makeups[x].request != makeups[y].request
      && (HasSession(makeups[x]) && HasSession(makeups[y]) ==> makeups[x].target != makeups[y].target)
  }

  ghost predicate Safe(s: State) {
    && Consistent(s.db)
    && LocksOk(s.makeups)
    && forall x :: x in s.makeups ==> MakeupOk(s.db, s.makeups[x])
  }

  /** Requests only gain rows, an approved request stays as it is, and sessions stay as they are. */
  predicate ApprovedStay(before: Db, after: Db) {
    && (forall r :: r in before.requests ==>
          r in after.requests && (before.requests[r].status.Approved? ==> after.requests[r] == before.requests[r]))
    && (forall s :: s in before.sessions ==> s in after.sessions && after.sessions[s] == before.sessions[s])
  }

  lemma MakeupsStayOk(s: State, t: State)
    requires Safe(s) && Consistent(t.db) && t.makeups == s.makeups
    requires ApprovedStay(s.db, t.db)
    ensures Safe(t)
  {
    forall x | x in t.makeups ensures MakeupOk(t.db, t.makeups[x]) {
      assert MakeupOk(s.db, s.makeups[x]);
    }
  }

  lemma CommitKeepsSafe(s: State, x: TxId)
    requires Safe(s) && Enabled(s, CommitMakeup(x))
    ensures Safe(Do(s, CommitMakeup(x)))
  {
    var t := Do(s, CommitMakeup(x));
    assert MakeupOk(s.db, s.makeups[x]);
    BookedKeepsConsistent(s.db, s.makeups[x].request, s.makeups[x].target);
    forall y | y in t.makeups ensures MakeupOk(t.db, t.makeups[y]) {
      assert MakeupOk(s.db, s.makeups[y]);
    }
  }

  lemma CapacityKeepsConsistent(db: Db, course: Uuid, max: nat)
    requires Consistent(db)
    ensures Consistent(db.(capacity := db.capacity[course := max]))
  {
    var t := db.(capacity := db.capacity[course := max]);
    forall r | r in t.requests ensures RequestOk(t, t.requests[r]) {
      assert RequestOk(db, db.requests[r]);
    }
  }

  lemma EnrolKeepsConsistent(db: Db, id: Uuid, e: Enrolment)
    requires Consistent(db) && id !in db.enrolments
    ensures Consistent(db.(enrolments := db.enrolments[id := e]))
  {
    var t := db.(enrolments := db.enrolments[id := e]);
    forall r | r in t.requests ensures RequestOk(t, t.requests[r]) {
      assert RequestOk(db, db.requests[r]);
    }
  }

  lemma SessionKeepsConsistent(db: Db, id: Uuid, session: Session)
    requires Consistent(db) && id !in db.sessions && session.course in db.capacity
    ensures Consistent(db.(sessions := db.sessions[id := session]))
  {
    var t := db.(sessions := db.sessions[id := session]);
    forall r | r in t.requests ensures RequestOk(t, t.requests[r]) {
      assert RequestOk(db, db.requests[r]);
    }
  }

  /** Steps that change tables but no lock. */
  predicate Writes(a: Action) {
    a.Decide? || a.CancelRequest? || a.CancelEnrolments? || a.CreateRequest? || a.Enrol? || a.SetCapacity?
        || a.AddSession?
  }

  lemma WriteKeepsConsistent(s: State, a: Action)
    requires Consistent(s.db) && Enabled(s, a) && Writes(a)
    ensures Consistent(Do(s, a).db)
  {
    match a
    case Decide(x) => SettledKeepsConsistent(s.db, {s.decisions[x].request}, s.decisions[x].verdict);
    case CancelRequest(id) => SettledKeepsConsistent(s.db, {id}, Cancelled);
    case CancelEnrolments(ids, missed) => WithdrawalSeats(s.db, ids, RequestsOf(s.db.requests, ids) - missed);
    case CreateRequest(id, e, session) => RequestedKeepsConsistent(s.db, id, Request(e, session, Pending, None));
    case Enrol(id, user, course) => EnrolKeepsConsistent(s.db, id, Enrolment(user, course, true));
    case SetCapacity(course, max) => CapacityKeepsConsistent(s.db, course, max);
    case AddSession(id, session) => SessionKeepsConsistent(s.db, id, session);
  }

  lemma WriteKeepsApproved(s: State, a: Action)
    requires Enabled(s, a) && Writes(a)
    ensures ApprovedStay(s.db, Do(s, a).db) && Do(s, a).makeups == s.makeups
  {
  }

  lemma LockKeepsMakeupOk(s: State, a: Action, x: TxId)
    requires Safe(s) && Enabled(s, a) && !Writes(a) && !a.CommitMakeup? && x in Do(s, a).makeups
    ensures MakeupOk(Do(s, a).db, Do(s, a).makeups[x])
  {
    assert x in s.makeups ==> MakeupOk(s.db, s.makeups[x]);
  }

  lemma LockKeepsLocks(s: State, a: Action)
    requires LocksOk(s.makeups) && Enabled(s, a) && !Writes(a) && !a.CommitMakeup?
    ensures LocksOk(Do(s, a).makeups)
  {
  }

  lemma LockKeepsSafe(s: State, a: Action)
    requires Safe(s) && Enabled(s, a) && !Writes(a) && !a.CommitMakeup?
    ensures Safe(Do(s, a))
  {
    LockKeepsLocks(s, a);
    forall x | x in Do(s, a).makeups ensures MakeupOk(Do(s, a).db, Do(s, a).makeups[x]) {
      LockKeepsMakeupOk(s, a, x);
    }
  }

  lemma SafeStep(s: State, a: Action)
    requires Safe(s) && Enabled(s, a)
    ensures Safe(Do(s, a))
  {
    if a.CommitMakeup? {
      CommitKeepsSafe(s, a.x);
    } else if Writes(a) {
      WriteKeepsConsistent(s, a);
      WriteKeepsApproved(s, a);
      MakeupsStayOk(s, Do(s, a));
    } else {
      LockKeepsSafe(s, a);
    }
  }

  /** The fallback of `set_makeup_session_tx`, which finds no row to update, is never taken. */
  lemma SetMakeupNeverMisses(s: State, x: TxId)
    requires Safe(s) && InPhase(s, x, RoomFound)
    ensures Enabled(s, CommitMakeup(x))
  {
    assert MakeupOk(s.db, s.makeups[x]);
  }

  // ------------------------------------------------------------------- slack

  predicate Reserved(s: State, session: Uuid) {
    exists x :: InPhase(s, x, RoomFound) && x in s.makeups && s.makeups[x].target == session
  }

  /** Seats left once every counted but uncommitted makeup has taken its own. */
  function Slack(s: State, session: Uuid): int
    requires session in s.db.sessions && s.db.sessions[session].course in s.db.capacity
  {
    Remaining(s.db, session) - if Reserved(s, session) then 1 else 0
  }

  /** Seats a new enrolment or a capacity cut takes from `session` without asking it. */
  function Taken(s: State, a: Action, session: Uuid): nat
    requires session in s.db.sessions && s.db.sessions[session].course in s.db.capacity
  {
    var course := s.db.sessions[session].course;
    match a
    case Enrol(_, _, c) => if c == course then 1 else 0
    case SetCapacity(c, max) => if c == course && max < s.db.capacity[course] then s.db.capacity[course] - max else 0
    case _ => 0
  }

  lemma ReservedStays(s: State, t: State, session: Uuid)
    requires t.makeups == s.makeups
    ensures Reserved(t, session) <==> Reserved(s, session)
  {
    if Reserved(s, session) {
      var x :| InPhase(s, x, RoomFound) && x in s.makeups && s.makeups[x].target == session;
      assert InPhase(t, x, RoomFound);
    }
    if Reserved(t, session) {
      var x :| InPhase(t, x, RoomFound) && x in t.makeups && t.makeups[x].target == session;
      assert InPhase(s, x, RoomFound);
    }
  }

  lemma WriteSlack(s: State, a: Action, session: Uuid)
    requires Safe(s) && Enabled(s, a) && Writes(a) && session in s.db.sessions && Consistent(Do(s, a).db)
    ensures session in Do(s, a).db.sessions && Slack(Do(s, a), session) >= Slack(s, session) - Taken(s, a, session)
  {
    ReservedStays(s, Do(s, a), session);
    WriteRemaining(s, a, session);
  }

  lemma WriteRemaining(s: State, a: Action, session: Uuid)
    requires Consistent(s.db) && Enabled(s, a) && Writes(a) && session in s.db.sessions && Consistent(Do(s, a).db)
    ensures session in Do(s, a).db.sessions
    ensures Remaining(Do(s, a).db, session) >= Remaining(s.db, session) - Taken(s, a, session)
  {
    match a
    case Decide(x) => SettledRemaining(s.db, {s.decisions[x].request}, s.decisions[x].verdict, session);
    case CancelRequest(id) => SettledRemaining(s.db, {id}, Cancelled, session);
    case CancelEnrolments(ids, missed) => WithdrawalSeats(s.db, ids, RequestsOf(s.db.requests, ids) - missed);
    case CreateRequest(id, e, session') =>
      RequestedSeats(s.db.enrolments, s.db.requests, id, Request(e, session', Pending, None), session);
    case Enrol(id, user, course) => EnrolledSeats(s.db, id, Enrolment(user, course, true), session);
    case SetCapacity(_, _) =>
    case AddSession(_, _) =>
  }

  lemma SettledRemaining(db: Db, ids: set<Uuid>, status: Status, session: Uuid)
    requires session in db.sessions && db.sessions[session].course in db.capacity
    ensures Remaining(db.(requests := Settled(db.requests, ids, status)), session) >= Remaining(db, session)
  {
    SettledSeats(db.enrolments, db.requests, ids, status, session);
    CardinalityOfSubset(OnLeave(db.enrolments, db.requests, session),
                        OnLeave(db.enrolments, Settled(db.requests, ids, status), session));
  }

  /** Locking the request or the session, or giving up, reserves nothing. */
  lemma OthersReserve(s: State, t: State, x: TxId, session: Uuid)
    requires forall y :: y != x ==>
               (y in s.makeups <==> y in t.makeups) && (y in s.makeups ==> s.makeups[y] == t.makeups[y])
    requires x in t.makeups && t.makeups[x].phase.RoomFound? ==>
               x in s.makeups && s.makeups[x].phase.RoomFound? && s.makeups[x] == t.makeups[x]
    ensures Reserved(t, session) ==> Reserved(s, session)
  {
    if Reserved(t, session) {
      var y :| InPhase(t, y, RoomFound) && y in t.makeups && t.makeups[y].target == session;
      assert InPhase(s, y, RoomFound);
    }
  }

  /** The session lock keeps a second makeup from counting the same seat. */
  lemma FindRoomSlack(s: State, x: TxId, session: Uuid)
    requires Safe(s) && Enabled(s, FindRoom(x)) && session in s.db.sessions
    ensures Slack(Do(s, FindRoom(x)), session) >= Min(Slack(s, session), 0)
  {
    var t := Do(s, FindRoom(x));
    if Reserved(t, session) && s.makeups[x].target != session {
      var y :| InPhase(t, y, RoomFound) && y in t.makeups && t.makeups[y].target == session;
      assert InPhase(s, y, RoomFound);
    }
  }

  lemma CommitSlack(s: State, x: TxId, session: Uuid)
    requires Safe(s) && Enabled(s, CommitMakeup(x)) && session in s.db.sessions
    ensures Slack(Do(s, CommitMakeup(x)), session) >= Slack(s, session)
  {
    var t := Do(s, CommitMakeup(x));
    var m := s.makeups[x];
    BookedSeats(s.db.enrolments, s.db.requests, m.request, m.target, session);
    OthersReserve(s, t, x, session);
    if session == m.target {
      assert InPhase(s, x, RoomFound);
      assert Reserved(s, session);
      if Reserved(t, session) {
        var y :| InPhase(t, y, RoomFound) && y in t.makeups && t.makeups[y].target == session;
        assert y != x && HasSession(s.makeups[y]) && HasSession(m);
        assert false;
      }
    }
  }

  lemma LockSlack(s: State, a: Action, session: Uuid)
    requires Safe(s) && Enabled(s, a) && session in s.db.sessions
    requires a.LockRequest? || a.LockSession? || a.AbortMakeup? || a.ReadDecision?
    ensures Do(s, a).db == s.db && Slack(Do(s, a), session) >= Slack(s, session)
  {
    if a.ReadDecision? {
      ReservedStays(s, Do(s, a), session);
    } else {
      OthersReserve(s, Do(s, a), a.x, session);
    }
  }

  lemma SlackStep(s: State, a: Action, session: Uuid)
    requires Safe(s) && Enabled(s, a) && session in s.db.sessions
    ensures Safe(Do(s, a)) && session in Do(s, a).db.sessions
    ensures Slack(Do(s, a), session) >= Min(Slack(s, session), 0) - Taken(s, a, session)
  {
    SafeStep(s, a);
    if Writes(a) {
      WriteSlack(s, a, session);
    } else if a.FindRoom? {
      FindRoomSlack(s, a.x, session);
    } else if a.CommitMakeup? {
      CommitSlack(s, a.x, session);
    } else {
      LockSlack(s, a, session);
    }
  }

  // -------------------------------------------------------------------- runs

  ghost predicate Run(s: State, acts: seq<Action>)
    decreases |acts|
  {
    acts == [] || (Enabled(s, acts[0]) && Run(Do(s, acts[0]), acts[1..]))
  }

  ghost function After(s: State, acts: seq<Action>): State
    requires Run(s, acts)
    decreases |acts|
  {
    if acts == [] then s else After(Do(s, acts[0]), acts[1..])
  }

  /** All the seats enrolments and capacity cuts take from `session` along a run. */
  ghost function TakenAlong(s: State, acts: seq<Action>, session: Uuid): nat
    requires Safe(s) && Run(s, acts) && session in s.db.sessions
    decreases |acts|
  {
    if acts == [] then 0
    else
      SlackStep(s, acts[0], session);
      Taken(s, acts[0], session) + TakenAlong(Do(s, acts[0]), acts[1..], session)
  }

  /**
   * Seat conservation: nothing but new enrolments and capacity cuts ever oversells a session, and
   * those by no more than the seats they take.
   */
  lemma {:induction false} SeatsAreConserved(s: State, acts: seq<Action>, session: Uuid)
    requires Safe(s) && Run(s, acts) && session in s.db.sessions
    ensures Safe(After(s, acts)) && session in After(s, acts).db.sessions
    ensures Slack(After(s, acts), session) >= Min(Slack(s, session), 0) - TakenAlong(s, acts, session)
    decreases |acts|
  {
    if acts != [] {
      SlackStep(s, acts[0], session);
      SeatsAreConserved(Do(s, acts[0]), acts[1..], session);
    }
  }

  /** Without enrolments or cuts in its course, a session that has never been oversold never is. */
  lemma NeverOversold(s: State, acts: seq<Action>, session: Uuid)
    requires Safe(s) && Run(s, acts) && session in s.db.sessions
    requires Slack(s, session) >= 0 && TakenAlong(s, acts, session) == 0
    ensures session in After(s, acts).db.sessions
            && After(s, acts).db.sessions[session].course in After(s, acts).db.capacity
    ensures Remaining(After(s, acts).db, session) >= 0
    ensures Reserved(After(s, acts), session) ==> Remaining(After(s, acts).db, session) >= 1
  {
    SeatsAreConserved(s, acts, session);
  }

  /**
   * The exact gap. Apart from enrolments and cuts, one step oversells a session: committing a
   * makeup into it, for an enrolment still active, when the seat it counted has since been taken.
   */
  lemma OnlyALateCommitOversells(s: State, a: Action, session: Uuid)
    requires Safe(s) && Enabled(s, a) && session in s.db.sessions && Taken(s, a, session) == 0
    requires Remaining(s.db, session) >= 0
    ensures Safe(Do(s, a)) && session in Do(s, a).db.sessions
    ensures Remaining(Do(s, a).db, session) < 0 <==>
            && a.CommitMakeup? && s.makeups[a.x].target == session && Remaining(s.db, session) == 0
            && Active(s.db.enrolments, s.db.requests[s.makeups[a.x].request].enrolment)
  {
    SafeStep(s, a);
    if Writes(a) {
      WriteRemaining(s, a, session);
    } else if a.CommitMakeup? {
      BookedSeats(s.db.enrolments, s.db.requests, s.makeups[a.x].request, s.makeups[a.x].target, session);
    }
  }

  lemma {:induction false} RunAppend(s: State, acts: seq<Action>, a: Action)
    requires Run(s, acts) && Enabled(After(s, acts), a)
    ensures Run(s, acts + [a]) && After(s, acts + [a]) == Do(After(s, acts), a)
    decreases |acts|
  {
    if acts == [] {
      assert acts + [a] == [a] && Run(Do(s, a), []);
    } else {
      RunAppend(Do(s, acts[0]), acts[1..], a);
      assert (acts + [a])[1..] == acts[1..] + [a];
    }
  }

  function CountingRun(x: TxId, now: nat, user: Uuid, id: Uuid, target: Uuid): seq<Action> {
    [LockRequest(x, user, id, target)] + [LockSession(x, now)] + [FindRoom(x)]
  }

  lemma CountAlone(s: State, x: TxId, now: nat, user: Uuid, id: Uuid, target: Uuid)
    requires Safe(s) && s.makeups == map[] && MakeupRefusal(s.db, now, user, id, target).None?
    ensures Run(s, CountingRun(x, now, user, id, target))
    ensures After(s, CountingRun(x, now, user, id, target)) == s.(makeups := map[x := Makeup(id, target, RoomFound)])
  {
    var a := [LockRequest(x, user, id, target)];
    assert [] + a == a;
    RunAppend(s, [], a[0]);
    assert After(s, a) == s.(makeups := map[x := Makeup(id, target, HoldsRequest)]);
    RunAppend(s, a, LockSession(x, now));
    assert After(s, a + [LockSession(x, now)]) == s.(makeups := map[x := Makeup(id, target, HoldsSession)]);
    RunAppend(s, a + [LockSession(x, now)], FindRoom(x));
  }

  /** `book_makeup` served alone is a run of its statements. */
  lemma MakeupIsARun(s: State, x: TxId, now: nat, user: Uuid, id: Uuid, target: Uuid)
    requires Safe(s) && s.makeups == map[] && MakeupRefusal(s.db, now, user, id, target).None?
    ensures Run(s, CountingRun(x, now, user, id, target) + [CommitMakeup(x)])
    ensures After(s, CountingRun(x, now, user, id, target) + [CommitMakeup(x)])
            == s.(db := s.db.(requests := Booked(s.db.requests, id, target)))
  {
    CountAlone(s, x, now, user, id, target);
    RunAppend(s, CountingRun(x, now, user, id, target), CommitMakeup(x));
  }

  /** Deciding on a pending request is a run, with nobody else deciding. */
  lemma DecisionIsARun(s: State, x: TxId, id: Uuid, verdict: Status)
    requires s.decisions == map[] && Enabled(s, ReadDecision(x, id, verdict))
    ensures Run(s, [ReadDecision(x, id, verdict)] + [Decide(x)])
    ensures After(s, [ReadDecision(x, id, verdict)] + [Decide(x)])
            == s.(db := s.db.(requests := s.db.requests[id := s.db.requests[id].(status := verdict)]))
  {
    assert [] + [ReadDecision(x, id, verdict)] == [ReadDecision(x, id, verdict)];
    RunAppend(s, [], ReadDecision(x, id, verdict));
    RunAppend(s, [ReadDecision(x, id, verdict)], Decide(x));
    SettledOne(s.db.requests, id, verdict);
  }

  function Deciding(x: TxId, id: Uuid, e: Uuid, session: Uuid, verdict: Status): seq<Action> {
    [CreateRequest(id, e, session)] + ([ReadDecision(x, id, verdict)] + [Decide(x)])
  }

  /** Taking leave and deciding on it, one after the other, is a run: the new request ends up as decided. */
  lemma LeaveIsARun(s: State, x: TxId, id: Uuid, e: Uuid, session: Uuid, verdict: Status)
    requires Safe(s) && s.decisions == map[] && Enabled(s, CreateRequest(id, e, session)) && Active(s.db.enrolments, e)
    requires verdict == Approved || verdict == Rejected
    ensures Run(s, Deciding(x, id, e, session, verdict))
    ensures After(s, Deciding(x, id, e, session, verdict))
            == s.(db := s.db.(requests := s.db.requests[id := Request(e, session, verdict, None)]))
  {
    var create := CreateRequest(id, e, session);
    assert [] + [create] == [create];
    RunAppend(s, [], create);
    DecisionIsARun(Do(s, create), x, id, verdict);
    RunConcat(s, [create], [ReadDecision(x, id, verdict)] + [Decide(x)]);
  }

  /** A request withdrawn before anybody decided. */
  lemma WithdrawalIsARun(s: State, id: Uuid, e: Uuid, session: Uuid)
    requires Safe(s) && Enabled(s, CreateRequest(id, e, session))
    ensures var acts := [CreateRequest(id, e, session)] + [CancelRequest(id)];
            && Run(s, acts)
            && After(s, acts) == s.(db := s.db.(requests := s.db.requests[id := Request(e, session, Cancelled, None)]))
  {
    var create := CreateRequest(id, e, session);
    assert [] + [create] == [create];
    RunAppend(s, [], create);
    RunAppend(s, [create], CancelRequest(id));
    SettledOne(Do(s, create).db.requests, id, Cancelled);
  }

  /** One that is lost with its enrolment. */
  lemma EnrolmentTakesItsRequest(s: State, id: Uuid, e: Uuid, session: Uuid)
    requires Safe(s) && Enabled(s, CreateRequest(id, e, session))
    ensures var acts := [CreateRequest(id, e, session)] + [CancelEnrolments({e}, {})];
            && Run(s, acts)
            && id in After(s, acts).db.requests && After(s, acts).db.requests[id].status == Cancelled
            && forall other :: Active(After(s, acts).db.enrolments, other) <==>
                 other != e && Active(s.db.enrolments, other)
  {
    var create := CreateRequest(id, e, session);
    assert [] + [create] == [create];
    RunAppend(s, [], create);
    RunAppend(s, [create], CancelEnrolments({e}, {}));
  }

  lemma {:induction false} RunConcat(s: State, a: seq<Action>, b: seq<Action>)
    requires Run(s, a) && Run(After(s, a), b)
    ensures Run(s, a + b) && After(s, a + b) == After(After(s, a), b)
    decreases |a|
  {
    if a == [] {
      assert a + b == b;
    } else {
      RunConcat(Do(s, a[0]), a[1..], b);
      assert (a + b)[1..] == a[1..] + b;
    }
  }

  /** An approved request more gives its own session one seat back. */
  lemma ApprovedSeats(s: State, x: TxId, id: Uuid, e: Uuid, session: Uuid, other: Uuid)
    requires Safe(s) && s.decisions == map[] && Enabled(s, CreateRequest(id, e, session)) && Active(s.db.enrolments, e)
    requires other in s.db.sessions
    ensures var t := s.db.(requests := s.db.requests[id := Request(e, session, Approved, None)]);
            && Consistent(t) && Remaining(t, other) == Remaining(s.db, other) + if other == session then 1 else 0
  {
    var request := Request(e, session, Pending, None);
    var asked := s.db.(requests := s.db.requests[id := request]);
    RequestedKeepsConsistent(s.db, id, request);
    assert OnLeave(asked.enrolments, asked.requests, other) == OnLeave(s.db.enrolments, s.db.requests, other);
    assert MadeUp(asked.enrolments, asked.requests, other) == MadeUp(s.db.enrolments, s.db.requests, other);
    SettledOne(asked.requests, id, Approved);
    SettledKeepsConsistent(asked, {id}, Approved);
    DecisionMovesSeats(asked, id, Approved, other);
    assert asked.requests[id := request.(status := Approved)]
        == s.db.requests[id := Request(e, session, Approved, None)];
  }

  /**
   * A leave approved and made up for moves one seat: its own session gains one, the session of the
   * makeup gives one up, and no other notices.
   */
  lemma MadeUpLeaveMovesASeat(s: State, x: TxId, now: nat, id: Uuid, e: Uuid, session: Uuid, target: Uuid, other: Uuid)
    requires Safe(s) && s.decisions == map[] && s.makeups == map[] && Enabled(s, CreateRequest(id, e, session))
    requires Active(s.db.enrolments, e) && other in s.db.sessions
    requires var t := s.db.(requests := s.db.requests[id := Request(e, session, Approved, None)]);
             Consistent(t) && MakeupRefusal(t, now, s.db.enrolments[e].user, id, target).None?
    ensures var acts := Deciding(x, id, e, session, Approved)
                        + (CountingRun(x, now, s.db.enrolments[e].user, id, target) + [CommitMakeup(x)]);
            && Run(s, acts)
            && other in After(s, acts).db.sessions && Consistent(After(s, acts).db)
            && Remaining(After(s, acts).db, other)
               == Remaining(s.db, other) + (if other == session then 1 else 0) - (if other == target then 1 else 0)
  {
    var user := s.db.enrolments[e].user;
    LeaveIsARun(s, x, id, e, session, Approved);
    ApprovedSeats(s, x, id, e, session, other);
    var t := After(s, Deciding(x, id, e, session, Approved));
    MakeupIsARun(t, x, now, user, id, target);
    MakeupTakesOneSeat(t.db, now, user, id, target, other);
    BookedKeepsConsistent(t.db, id, target);
    RunConcat(s, Deciding(x, id, e, session, Approved), CountingRun(x, now, user, id, target) + [CommitMakeup(x)]);
  }

  /** One course of two places: enrolment 0 is on approved leave from session 1 and asks for session 2. */
  function GapDb(): Db {
    Db(map[0 := 2], map[1 := Session(0, Some(10)), 2 := Session(0, Some(20))],
       map[0 := Enrolment(7, 0, true)], map[0 := Request(0, 1, Approved, None)])
  }

  predicate SeatsLeft(s: State, session: Uuid, n: int) {
    session in s.db.sessions && s.db.sessions[session].course in s.db.capacity && Remaining(s.db, session) == n
  }

  lemma GapDbSeats()
    ensures Consistent(GapDb()) && Remaining(GapDb(), 2) == 1
  {
    var db := GapDb();
    assert RequestOk(db, db.requests[0]);
    assert ActiveIn(db.enrolments, 0) == {0};
    assert OnLeave(db.enrolments, db.requests, 2) == {} && MadeUp(db.enrolments, db.requests, 2) == {};
  }

  /** With the makeup counted, an enrolment takes the last seat and the makeup one more. */
  lemma GapCloses()
    ensures var s := State(GapDb(), map[1 := Makeup(0, 2, RoomFound)], map[]);
            && Enabled(s, Enrol(1, 8, 0)) && SeatsLeft(Do(s, Enrol(1, 8, 0)), 2, 0)
            && Enabled(Do(s, Enrol(1, 8, 0)), CommitMakeup(1))
            && SeatsLeft(Do(Do(s, Enrol(1, 8, 0)), CommitMakeup(1)), 2, -1)
  {
    var s := State(GapDb(), map[1 := Makeup(0, 2, RoomFound)], map[]);
    GapDbSeats();
    EnrolledSeats(s.db, 1, Enrolment(8, 0, true), 2);
    var t := Do(s, Enrol(1, 8, 0));
    BookedSeats(t.db.enrolments, t.db.requests, 0, 2, 2);
  }

  /** The gap is real: a makeup finds the last seat, an enrolment commits, then the makeup does. */
  lemma ConservationNeedsQuietEnrolment()
    ensures var s := State(GapDb(), map[], map[]);
            var enrolled := CountingRun(1, 0, 7, 0, 2) + [Enrol(1, 8, 0)];
            && Safe(s) && SeatsLeft(s, 2, 1)
            && Run(s, enrolled) && SeatsLeft(After(s, enrolled), 2, 0)
            && Run(s, enrolled + [CommitMakeup(1)]) && SeatsLeft(After(s, enrolled + [CommitMakeup(1)]), 2, -1)
  {
    var s := State(GapDb(), map[], map[]);
    GapDbSeats();
    GapCloses();
    CountAlone(s, 1, 0, 7, 0, 2);
    RunAppend(s, CountingRun(1, 0, 7, 0, 2), Enrol(1, 8, 0));
    RunAppend(s, CountingRun(1, 0, 7, 0, 2) + [Enrol(1, 8, 0)], CommitMakeup(1));
  }
}
