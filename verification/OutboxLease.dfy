/**
 * Any number of dispatchers drain the outbox at once, crash, time out and lose acknowledgements.
 * Each database statement or transaction of `drain_once` is one atomic action.
 */
module OutboxLease {
  import opened Common
  import opened Events
  import opened Outbox

  type DrainId = nat
  type Partition = nat
  type Log = map<Partition, seq<Envelope>>

  /** One run of `drain_once` between its claim and its bookkeeping. */
  datatype Drain = Drain(
    claimedAt: nat,
    batch: seq<ClaimedRow>,
    deadline: Option<nat>,    // of the batch, once publishing has begun
    next: nat,                // the row being published
    sending: bool,            // its `publish` has been handed to the producer
    cutOff: bool,             // the deadline ended the batch
    outcome: Outcome)

  datatype State = State(
    now: nat,
    rows: Table,
    drains: map<DrainId, Drain>,
    started: set<DrainId>,                    // every drain there ever was
    sent: map<(DrainId, Uuid), Envelope>,     // handed to the producer, maybe still to arrive
    delivered: set<(DrainId, Uuid)>,          // arrived at the broker at least once
    log: Log)

  datatype Action =
    | Tick(dt: nat)
    | InsertEvent(id: Uuid, payload: Envelope)
    | Claim(d: DrainId, locked: set<Uuid>, batch: seq<ClaimedRow>)
    | Open(d: DrainId)
    | Send(d: DrainId)
    | Deliver(d: DrainId, id: Uuid, partition: Partition)
    | Acknowledge(d: DrainId)
    | Refuse(d: DrainId, reason: string)
    | CutOff(d: DrainId)
    | Bookkeep(d: DrainId)
    | Die(d: DrainId)

  /** Drain `d` is in its publish loop. */
  predicate Busy(s: State, d: DrainId) {
    d in s.drains && s.drains[d].deadline.Some? && !s.drains[d].cutOff && s.drains[d].next < |s.drains[d].batch|
  }

  /** Drain `d` has left its publish loop. */
  predicate Done(s: State, d: DrainId) {
    d in s.drains && s.drains[d].deadline.Some? && !Busy(s, d)
  }

  ghost predicate Enabled(s: State, a: Action) {
    match a
    case Tick(_) => true
    // Row ids and event ids are fresh version-7 UUIDs.
    case InsertEvent(id, payload) =>
      id !in s.rows && forall r :: r in s.rows ==> s.rows[r].payload.eventId != payload.eventId
    case Claim(d, locked, batch) =>
      d !in s.started && Picked(s.rows, s.now, locked, Ids(batch)) && Claimed(s.rows, Ids(batch), batch)
    case Open(d) => d in s.drains && s.drains[d].deadline.None?
    case Send(d) => Busy(s, d) && !s.drains[d].sending
    // The broker may receive a send late, after its drain is gone, and more than once.
    case Deliver(d, id, _) => (d, id) in s.sent
    case Acknowledge(d) =>
      Busy(s, d) && s.drains[d].sending && (d, s.drains[d].batch[s.drains[d].next].id) in s.delivered
    // An error reply says nothing about whether the record arrived. A stalled drain may see any answer late.
    case Refuse(d, _) => Busy(s, d)
    case CutOff(d) => Busy(s, d) && s.drains[d].deadline.value <= s.now
    case Bookkeep(d) => Done(s, d)
    case Die(d) => d in s.drains
  }

  /** The current row leaves drain `d`'s publish loop with `result`. */
  function Leave(s: State, d: DrainId, result: Result): State
    requires Busy(s, d)
  {
    var drain := s.drains[d];
    s.(drains := s.drains[d := drain.(
      next := drain.next + 1,
      sending := false,
      cutOff := result.Deadline?,
      outcome := Note(drain.outcome, drain.batch[drain.next], result))])
  }

  function Appended(log: Log, partition: Partition, e: Envelope): Log {
    log[partition := (if partition in log then log[partition] else []) + [e]]
  }

  function Do(s: State, a: Action): State
    requires Enabled(s, a)
  {
    match a
    case Tick(dt) => s.(now := s.now + dt)
    case InsertEvent(id, payload) => s.(rows := s.rows[id := Row(payload, s.now, None, 0, None, s.now)])
    case Claim(d, _, batch) =>
      s.(rows := Leased(s.rows, Ids(batch), s.now),
         drains := s.drains[d := Drain(s.now, batch, None, 0, false, false, Outcome([], []))],
         started := s.started + {d})
    case Open(d) => s.(drains := s.drains[d := s.drains[d].(deadline := Some(s.now + PUBLISH_BUDGET))])
    case Send(d) =>
      var row := s.drains[d].batch[s.drains[d].next];
      s.(drains := s.drains[d := s.drains[d].(sending := true)],
         sent := s.sent[(d, row.id) := row.payload])
    case Deliver(d, id, partition) =>
      s.(log := Appended(s.log, partition, s.sent[(d, id)]), delivered := s.delivered + {(d, id)})
    case Acknowledge(d) => Leave(s, d, Ok)
    case Refuse(d, reason) => Leave(s, d, Err(reason))
    case CutOff(d) => Leave(s, d, Deadline)
    case Bookkeep(d) =>
      var after := Bookkept(s.rows, s.drains[d].outcome, s.now);
      s.(rows := if after.Some? then after.value else s.rows, drains := s.drains - {d})
    case Die(d) => s.(drains := s.drains - {d})
  }

  ghost predicate Init(s: State) {
    s.rows == map[] && s.drains == map[] && s.started == {} && s.sent == map[] && s.delivered == {}
    && s.log == map[]
  }

  // ------------------------------------------- what holds without any timing

  predicate OnLog(log: Log, e: Envelope) {
    exists p :: p in log && e in log[p]
  }

  ghost predicate FromOutbox(rows: Table, e: Envelope) {
    exists id :: id in rows && rows[id].payload == e
  }

  /** The lists account for rows already left behind, each at most once, failures with their claimed count. */
  ghost predicate OutcomeOk(drain: Drain) {
    && drain.next <= |drain.batch|
    && DistinctIds(drain.batch)
    && (forall id :: id in drain.outcome.published ==> Left(drain, id))
    && (forall k :: 0 <= k < |drain.outcome.failed| ==>
          CountedFrom(drain, drain.outcome.failed[k]) && drain.outcome.failed[k].id !in drain.outcome.published)
    && DistinctFailures(drain.outcome.failed)
  }

  ghost predicate Left(drain: Drain, id: Uuid)
    requires drain.next <= |drain.batch|
  {
    exists i :: 0 <= i < drain.next && drain.batch[i].id == id
  }

  /** A failure carries the count its row was claimed with. */
  ghost predicate CountedFrom(drain: Drain, f: Failure)
    requires drain.next <= |drain.batch|
  {
    exists i :: 0 <= i < drain.next && drain.batch[i].id == f.id && drain.batch[i].attempts == f.attemptsBefore
  }

  /** A drain's batch describes rows of the table, and what it calls published has arrived. */
  ghost predicate DrainOk(s: State, d: DrainId)
    requires d in s.drains
  {
    var drain := s.drains[d];
    && d in s.started
    && drain.claimedAt <= s.now
    && OutcomeOk(drain)
    && (forall r :: r in drain.batch ==> r.id in s.rows && r.payload == s.rows[r.id].payload)
    && (forall id :: id in drain.outcome.published ==> (d, id) in s.delivered)
  }

  ghost predicate RowOk(s: State, id: Uuid)
    requires id in s.rows
  {
    && (s.rows[id].publishedAt.Some? ==> OnLog(s.log, s.rows[id].payload))
    && s.rows[id].nextAttemptAt <= s.now + MAX_RETRY_DELAY
  }

  ghost predicate SentOk(s: State) {
    && s.delivered <= s.sent.Keys
    && (forall d, id :: (d, id) in s.sent ==>
          d in s.started && id in s.rows && s.sent[(d, id)] == s.rows[id].payload)
    && (forall d, id :: (d, id) in s.delivered ==> OnLog(s.log, s.sent[(d, id)]))
  }

  ghost predicate EventIdsDistinct(rows: Table) {
    forall a, b :: a in rows && b in rows && rows[a].payload.eventId == rows[b].payload.eventId ==> a == b
  }

  ghost predicate Safe(s: State) {
    && (forall d :: d in s.drains ==> DrainOk(s, d))
    && (forall id :: id in s.rows ==> RowOk(s, id))
    && SentOk(s)
    && EventIdsDistinct(s.rows)
    && (forall p, e :: p in s.log && e in s.log[p] ==> FromOutbox(s.rows, e))
  }

  /** Between two states no row disappears or changes its payload, and the log only grows. */
  ghost predicate Extends(s: State, t: State) {
    && s.now <= t.now
    && s.started <= t.started
    && s.delivered <= t.delivered
    && (forall id :: id in s.rows ==> id in t.rows && t.rows[id].payload == s.rows[id].payload)
    && (forall id :: id in s.rows && s.rows[id].publishedAt.Some? ==> t.rows[id].publishedAt.Some?)
    && (forall p :: p in s.log ==> p in t.log && s.log[p] <= t.log[p])
  }

  /** What bookkeeping leaves of one row. */
  lemma BookkeptRow(s: State, d: DrainId, id: Uuid)
    requires Safe(s) && Done(s, d) && id in s.rows
    ensures var t := Do(s, Bookkeep(d));
            && t.rows.Keys == s.rows.Keys
            && t.rows[id].payload == s.rows[id].payload
            && (s.rows[id].publishedAt.Some? ==> t.rows[id].publishedAt.Some?)
            && (t.rows[id].publishedAt.Some? ==>
                  s.rows[id].publishedAt.Some? || id in s.drains[d].outcome.published)
            && t.rows[id].nextAttemptAt <= s.now + MAX_RETRY_DELAY
            && (id !in Ids(s.drains[d].batch) ==> t.rows[id] == s.rows[id])
  {
    var drain := s.drains[d];
    var outcome := drain.outcome;
    var marked := MarkPublished(s.rows, outcome.published, s.now);
    assert RowOk(s, id) && DrainOk(s, d);
    if Bookkept(s.rows, outcome, s.now).Some? {
      MarkAllFailedFrame(marked, outcome.failed, s.now, id);
      if k :| 0 <= k < |outcome.failed| && outcome.failed[k].id == id {
        MarkAllFailedAt(marked, outcome.failed, s.now, k);
        RetryDelayIsCappedPower(Min(outcome.failed[k].attemptsBefore, I32_MAX - 1) + 1);
        var i :| 0 <= i < drain.next && drain.batch[i].id == id;
        assert drain.batch[i] in drain.batch;
      }
    }
  }

  lemma StepExtends(s: State, a: Action)
    requires Safe(s) && Enabled(s, a)
    ensures Extends(s, Do(s, a))
  {
    match a {
      case Bookkeep(d) =>
        forall id | id in s.rows
          ensures id in Do(s, a).rows && Do(s, a).rows[id].payload == s.rows[id].payload
          ensures s.rows[id].publishedAt.Some? ==> Do(s, a).rows[id].publishedAt.Some?
        {
          BookkeptRow(s, d, id);
        }
      case _ =>
    }
  }

  lemma OnLogGrows(log: Log, grown: Log, e: Envelope)
    requires forall p :: p in log ==> p in grown && log[p] <= grown[p]
    requires OnLog(log, e)
    ensures OnLog(grown, e)
  {
    var p :| p in log && e in log[p];
    assert e in grown[p];
  }

  /** The row a drain leaves is none of those it left before, so it is accounted for once. */
  lemma LeaveKeepsOutcomeOk(s: State, d: DrainId, result: Result)
    requires Busy(s, d) && OutcomeOk(s.drains[d])
    ensures OutcomeOk(Leave(s, d, result).drains[d])
  {
    var drain := s.drains[d];
    var after := Leave(s, d, result).drains[d];
    var row := drain.batch[drain.next];
    assert !Left(drain, row.id);
    assert after.batch[drain.next] == row;
    forall id | id in after.outcome.published ensures Left(after, id) {
      assert id == row.id || Left(drain, id);
    }
    forall k | 0 <= k < |after.outcome.failed|
      ensures CountedFrom(after, after.outcome.failed[k]) && after.outcome.failed[k].id !in after.outcome.published
    {
      if k < |drain.outcome.failed| {
        assert CountedFrom(drain, drain.outcome.failed[k]);
      }
    }
    forall i, j | 0 <= i < j < |after.outcome.failed|
      ensures after.outcome.failed[i].id != after.outcome.failed[j].id
    {
      assert CountedFrom(drain, drain.outcome.failed[i]);
    }
  }

  lemma DrainsStayOk(s: State, a: Action, d: DrainId)
    requires Safe(s) && Enabled(s, a) && d in Do(s, a).drains
    ensures DrainOk(Do(s, a), d)
  {
    StepExtends(s, a);
    if d in s.drains {
      assert DrainOk(s, d);
      OutcomeStaysOk(s, a, d);
      OldDrainStaysOk(s, a, d);
    } else {
      NewDrainIsOk(s, a, d);
    }
  }

  lemma NewDrainIsOk(s: State, a: Action, d: DrainId)
    requires Enabled(s, a) && d !in s.drains && d in Do(s, a).drains
    ensures DrainOk(Do(s, a), d)
  {
    assert a.Claim? && a.d == d;
  }

  lemma OldDrainStaysOk(s: State, a: Action, d: DrainId)
    requires Enabled(s, a) && d in s.drains && d in Do(s, a).drains && DrainOk(s, d)
    requires Extends(s, Do(s, a)) && OutcomeOk(Do(s, a).drains[d])
    ensures DrainOk(Do(s, a), d)
  {
    var before, after := s.drains[d], Do(s, a).drains[d];
    assert after.claimedAt == before.claimedAt && after.batch == before.batch;
    assert forall id :: id in after.outcome.published ==> id in before.outcome.published || (d, id) in s.delivered;
  }

  lemma OutcomeStaysOk(s: State, a: Action, d: DrainId)
    requires Enabled(s, a) && d in s.drains && d in s.started && d in Do(s, a).drains && OutcomeOk(s.drains[d])
    ensures OutcomeOk(Do(s, a).drains[d])
  {
    var drain, after := s.drains[d], Do(s, a).drains[d];
    match a {
      case Acknowledge(e) => if e == d { LeaveKeepsOutcomeOk(s, d, Ok); }
      case Refuse(e, reason) => if e == d { LeaveKeepsOutcomeOk(s, d, Err(reason)); }
      case CutOff(e) => if e == d { LeaveKeepsOutcomeOk(s, d, Deadline); }
      case _ =>
        assert after == drain.(sending := after.sending, deadline := after.deadline);
        forall id | id in after.outcome.published ensures Left(after, id) {
          assert Left(drain, id);
        }
        forall k | 0 <= k < |after.outcome.failed| ensures CountedFrom(after, after.outcome.failed[k]) {
          assert CountedFrom(drain, drain.outcome.failed[k]);
        }
    }
  }

  /** Apart from bookkeeping, an action at most leases an existing row. */
  lemma RowFrame(s: State, a: Action, id: Uuid)
    requires Enabled(s, a) && !a.Bookkeep? && id in s.rows
    ensures id in Do(s, a).rows
    ensures Do(s, a).rows[id] == s.rows[id]
            || (a.Claim? && id in Ids(a.batch) && Do(s, a).rows[id] == s.rows[id].(nextAttemptAt := s.now + LEASE))
  {
  }

  lemma RowsStayOk(s: State, a: Action, id: Uuid)
    requires Safe(s) && Enabled(s, a) && id in Do(s, a).rows
    ensures RowOk(Do(s, a), id)
  {
    var t := Do(s, a);
    StepExtends(s, a);
    if id !in s.rows {
      if a.Bookkeep? {
        KeysStay(s, a.d);
      }
      assert a.InsertEvent? && t.rows[id] == Row(a.payload, s.now, None, 0, None, s.now);
    } else {
      assert RowOk(s, id);
      if a.Bookkeep? {
        BookkeptRow(s, a.d, id);
        if id in s.drains[a.d].outcome.published {
          assert DrainOk(s, a.d);
          assert (a.d, id) in s.sent && OnLog(s.log, s.sent[(a.d, id)]);
        }
        assert t.now == s.now && t.log == s.log;
      } else {
        RowFrame(s, a, id);
        if s.rows[id].publishedAt.Some? {
          OnLogGrows(s.log, t.log, s.rows[id].payload);
        }
      }
    }
  }

  lemma KeysStay(s: State, d: DrainId)
    requires Safe(s) && Done(s, d)
    ensures Do(s, Bookkeep(d)).rows.Keys == s.rows.Keys
  {
    var outcome := s.drains[d].outcome;
    if Bookkept(s.rows, outcome, s.now).Some? {
      MarkAllFailedFrame(MarkPublished(s.rows, outcome.published, s.now), outcome.failed, s.now, 0);
    }
  }

  lemma DeliveredStaysOnLog(s: State, a: Action, d: DrainId, id: Uuid)
    requires Safe(s) && Enabled(s, a) && (d, id) in Do(s, a).delivered
    ensures (d, id) in Do(s, a).sent && OnLog(Do(s, a).log, Do(s, a).sent[(d, id)])
  {
    var t := Do(s, a);
    if (d, id) in s.delivered {
      assert (d, id) in s.sent;
      StepExtends(s, a);
      OnLogGrows(s.log, t.log, s.sent[(d, id)]);
    } else {
      var e := s.sent[(d, id)];
      var whole := t.log[a.partition];
      assert whole[|whole| - 1] == e;
    }
  }

  lemma SentStaysOk(s: State, a: Action)
    requires Safe(s) && Enabled(s, a)
    ensures SentOk(Do(s, a))
  {
    var t := Do(s, a);
    StepExtends(s, a);
    forall d, id | (d, id) in t.delivered
      ensures (d, id) in t.sent && OnLog(t.log, t.sent[(d, id)])
    {
      DeliveredStaysOnLog(s, a, d, id);
    }
    if a.Send? {
      assert DrainOk(s, a.d);
    }
  }

  lemma SafeStep(s: State, a: Action)
    requires Safe(s) && Enabled(s, a)
    ensures Safe(Do(s, a))
  {
    var t := Do(s, a);
    StepExtends(s, a);
    forall d | d in t.drains ensures DrainOk(t, d) {
      DrainsStayOk(s, a, d);
    }
    forall id | id in t.rows ensures RowOk(t, id) {
      RowsStayOk(s, a, id);
    }
    SentStaysOk(s, a);
    if a.Bookkeep? {
      KeysStay(s, a.d);
    }
    forall p, e | p in t.log && e in t.log[p] ensures FromOutbox(t.rows, e) {
      LogComesFromOutbox(s, a, p, e);
    }
  }

  lemma LogComesFromOutbox(s: State, a: Action, p: Partition, e: Envelope)
    requires Safe(s) && Enabled(s, a)
    requires p in Do(s, a).log && e in Do(s, a).log[p]
    ensures FromOutbox(Do(s, a).rows, e)
  {
    StepExtends(s, a);
    if p in s.log && e in s.log[p] {
      assert FromOutbox(s.rows, e);
      var id :| id in s.rows && s.rows[id].payload == e;
      assert Do(s, a).rows[id].payload == e;
    } else {
      assert a.Deliver? && e == s.sent[(a.d, a.id)];
      assert (a.d, a.id) in s.sent;
      assert s.rows[a.id].payload == e;
    }
  }

  // --------------------------------------------------------------------- runs

  /** `acts` can be taken one after the other from `s`. */
  ghost predicate Run(s: State, acts: seq<Action>)
    decreases |acts|
  {
    acts == [] || (Enabled(s, acts[0]) && Run(Do(s, acts[0]), acts[1..]))
  }

  ghost function After(s: State, acts: seq<Action>): State
    requires Run(s, acts)
    decreases |acts|
  {
    if acts == [] then s else After(Do(s, acts[0]), acts[1..])
  }

  lemma {:induction false} ExtendsIsTransitive(s: State, t: State, u: State)
    requires Extends(s, t) && Extends(t, u)
    ensures Extends(s, u)
  {
    forall p | p in s.log ensures p in u.log && s.log[p] <= u.log[p] {
      assert s.log[p] <= t.log[p] && t.log[p] <= u.log[p];
    }
  }

  /**
   * Whatever dispatchers, broker and clock do: the log holds only committed outbox payloads, a
   * published mark implies the record arrived, no mark, payload or record is ever lost again,
   * and no row is ever more than an hour away from being due.
   */
  lemma {:induction false} OutboxIsSafe(s: State, acts: seq<Action>)
    requires Safe(s) && Run(s, acts)
    ensures Safe(After(s, acts)) && Extends(s, After(s, acts))
    decreases |acts|
  {
    if acts != [] {
      var t := Do(s, acts[0]);
      SafeStep(s, acts[0]);
      StepExtends(s, acts[0]);
      OutboxIsSafe(t, acts[1..]);
      ExtendsIsTransitive(s, t, After(t, acts[1..]));
    }
  }

  // -------------------------------------------------------- leases and timing

  /** Drain `d` still has rows in its hands when their lease is up. */
  predicate Overdue(s: State, d: DrainId) {
    d in s.drains && s.drains[d].batch != [] && s.now >= s.drains[d].claimedAt + LEASE
  }

  /** Every drain still running is younger than the lease it took. */
  ghost predicate Timely(s: State) {
    forall d :: d in s.drains ==> !Overdue(s, d)
  }

  ghost predicate TimelyRun(s: State, acts: seq<Action>)
    requires Run(s, acts)
    decreases |acts|
  {
    Timely(s) && (acts != [] ==> TimelyRun(Do(s, acts[0]), acts[1..]))
  }

  /** A row in a drain's hands: still leased to it, unpublished, counted as when it was claimed. */
  ghost predicate Held(s: State, d: DrainId, r: ClaimedRow)
    requires d in s.drains
  {
    && r.id in s.rows
    && s.rows[r.id].publishedAt.None?
    && s.rows[r.id].nextAttemptAt == s.drains[d].claimedAt + LEASE
    && s.rows[r.id].attempts == r.attempts
  }

  ghost predicate Exclusive(s: State) {
    && (forall d, r :: d in s.drains && r in s.drains[d].batch ==> Held(s, d, r))
    && (forall d, e :: d in s.drains && e in s.drains && d != e ==>
          Ids(s.drains[d].batch) !! Ids(s.drains[e].batch))
  }

  lemma HeldAfter(s: State, a: Action, d: DrainId, r: ClaimedRow)
    requires Safe(s) && Exclusive(s) && Timely(s) && Enabled(s, a)
    requires d in Do(s, a).drains && r in Do(s, a).drains[d].batch
    ensures Held(Do(s, a), d, r)
  {
    if d in s.drains {
      assert Held(s, d, r) && DrainOk(s, d);
      if a.Bookkeep? {
        assert r.id in Ids(s.drains[d].batch) && r.id !in Ids(s.drains[a.d].batch);
        BookkeptRow(s, a.d, r.id);
      } else {
        RowFrame(s, a, r.id);
      }
    }
  }

  lemma ExclusiveStep(s: State, a: Action)
    requires Safe(s) && Exclusive(s) && Timely(s) && Enabled(s, a)
    ensures Exclusive(Do(s, a))
  {
    var t := Do(s, a);
    forall d, r | d in t.drains && r in t.drains[d].batch ensures Held(t, d, r) {
      HeldAfter(s, a, d, r);
    }
    if a.Claim? {
      forall e | e in s.drains ensures Ids(s.drains[e].batch) !! Ids(a.batch) {
        forall id | id in Ids(s.drains[e].batch) ensures id !in Ids(a.batch) {
          var r :| r in s.drains[e].batch && r.id == id;
          assert Held(s, e, r) && !Due(s.rows[id], s.now);
        }
      }
    }
  }

  /**
   * Lease exclusion: as long as every drain finishes or dies before its lease is up, no row is
   * ever in two drains' hands at once, and none is touched while it is in one.
   */
  lemma {:induction false} LeaseExclusion(s: State, acts: seq<Action>)
    requires Safe(s) && Exclusive(s) && Run(s, acts) && TimelyRun(s, acts)
    ensures Safe(After(s, acts)) && Exclusive(After(s, acts)) && Timely(After(s, acts))
    decreases |acts|
  {
    if acts != [] {
      SafeStep(s, acts[0]);
      ExclusiveStep(s, acts[0]);
      LeaseExclusion(Do(s, acts[0]), acts[1..]);
    }
  }

  /**
   * Hence the count SQL adds up is the count the backoff was computed from: in a timely run, a
   * bookkeeping that commits leaves every failed row one attempt further and due again after
   * exactly `min(2^attempts s, 1 h)`, and every published row marked.
   */
  lemma BackoffAgreesWithAttempts(s0: State, acts: seq<Action>, d: DrainId, k: nat)
    requires Init(s0) && Run(s0, acts) && TimelyRun(s0, acts)
    requires CommitsFailure(After(s0, acts), d, k)
    ensures CountedOnce(After(s0, acts), d, k)
  {
    LeaseExclusion(s0, acts);
    FailureIsCountedOnce(After(s0, acts), d, k);
  }

  /** Drain `d` is done publishing, its bookkeeping commits, and its list has a `k`-th failure. */
  ghost predicate CommitsFailure(s: State, d: DrainId, k: nat) {
    && Done(s, d) && k < |s.drains[d].outcome.failed|
    && Bookkept(s.rows, s.drains[d].outcome, s.now).Some?
  }

  ghost predicate CountedOnce(s: State, d: DrainId, k: nat)
    requires CommitsFailure(s, d, k)
  {
    var f := s.drains[d].outcome.failed[k];
    var t := Do(s, Bookkeep(d));
    && f.id in t.rows
    && t.rows[f.id].attempts == f.attemptsBefore + 1
    && t.rows[f.id].publishedAt.None?
    && t.rows[f.id].lastError == Some(f.reason)
    && t.rows[f.id].nextAttemptAt == s.now + Min(Pow2(t.rows[f.id].attempts), 3600) * SECOND
  }

  lemma FailureWasHeld(s: State, d: DrainId, k: nat)
    requires Safe(s) && Exclusive(s) && CommitsFailure(s, d, k)
    ensures var f := s.drains[d].outcome.failed[k];
            f.id in s.rows && s.rows[f.id].attempts == f.attemptsBefore && s.rows[f.id].publishedAt.None?
  {
    var drain := s.drains[d];
    var f := drain.outcome.failed[k];
    assert DrainOk(s, d) && CountedFrom(drain, f);
    var i :| 0 <= i < drain.next && drain.batch[i].id == f.id && drain.batch[i].attempts == f.attemptsBefore;
    assert drain.batch[i] in drain.batch && Held(s, d, drain.batch[i]);
  }

  lemma FailureIsCountedOnce(s: State, d: DrainId, k: nat)
    requires Safe(s) && Exclusive(s) && CommitsFailure(s, d, k)
    ensures CountedOnce(s, d, k)
  {
    var outcome := s.drains[d].outcome;
    var f := outcome.failed[k];
    var marked := MarkPublished(s.rows, outcome.published, s.now);
    FailureWasHeld(s, d, k);
    assert DrainOk(s, d) && OutcomeOk(s.drains[d]);
    MarkAllFailedAt(marked, outcome.failed, s.now, k);
    MarkAllFailedRollsBack(marked, outcome.failed, s.now);
    RetryDelayIsCappedPower(f.attemptsBefore + 1);
  }

  /** A committed bookkeeping stamps what was acknowledged and leaves alone what was never reached. */
  lemma BookkeepingMarksPublished(s: State, d: DrainId, id: Uuid)
    requires Safe(s) && Done(s, d) && id in s.rows
    requires Bookkept(s.rows, s.drains[d].outcome, s.now).Some?
    ensures id in Do(s, Bookkeep(d)).rows
    ensures id in s.drains[d].outcome.published ==>
              Do(s, Bookkeep(d)).rows[id] == s.rows[id].(publishedAt := Some(s.now))
    ensures !Left(s.drains[d], id) ==> Do(s, Bookkeep(d)).rows[id] == s.rows[id]
  {
    var drain := s.drains[d];
    assert DrainOk(s, d);
    forall k | 0 <= k < |drain.outcome.failed| && (id in drain.outcome.published || !Left(drain, id))
      ensures drain.outcome.failed[k].id != id
    {
      assert CountedFrom(drain, drain.outcome.failed[k]);
    }
    MarkAllFailedFrame(MarkPublished(s.rows, drain.outcome.published, s.now), drain.outcome.failed, s.now, id);
  }

  // ------------------------------------------------ timeliness from the budget

  /**
   * Every drain starts publishing within `handoff` of its claim, is not publishing after its batch
   * deadline, and is through with its bookkeeping within `books` of it.
   */
  ghost predicate Punctual(s: State, handoff: nat, books: nat) {
    forall d :: d in s.drains ==>
      match s.drains[d].deadline
      case None => s.now <= s.drains[d].claimedAt + handoff
      case Some(t) => s.now <= t + if Busy(s, d) then 0 else books
  }

  ghost predicate PunctualRun(s: State, acts: seq<Action>, handoff: nat, books: nat)
    requires Run(s, acts)
    decreases |acts|
  {
    Punctual(s, handoff, books) && (acts != [] ==> PunctualRun(Do(s, acts[0]), acts[1..], handoff, books))
  }

  ghost predicate DeadlinesOk(s: State, handoff: nat) {
    forall d :: d in s.drains && s.drains[d].deadline.Some? ==>
      s.drains[d].deadline.value <= s.drains[d].claimedAt + handoff + PUBLISH_BUDGET
  }

  lemma DeadlinesStayOk(s: State, a: Action, handoff: nat, books: nat)
    requires Enabled(s, a) && Punctual(s, handoff, books) && DeadlinesOk(s, handoff)
    ensures DeadlinesOk(Do(s, a), handoff)
  {
  }

  lemma {:induction false} PunctualIsTimely(s: State, acts: seq<Action>, handoff: nat, books: nat)
    requires Run(s, acts) && PunctualRun(s, acts, handoff, books) && DeadlinesOk(s, handoff)
    requires handoff + PUBLISH_BUDGET + books < LEASE
    ensures TimelyRun(s, acts)
    decreases |acts|
  {
    if acts != [] {
      DeadlinesStayOk(s, acts[0], handoff, books);
      PunctualIsTimely(Do(s, acts[0]), acts[1..], handoff, books);
    }
  }

  /**
   * The 15 s budget is what keeps the lease: if handing the batch over and keeping its books take
   * less than the remaining 45 s, no row is ever in two drains' hands at once.
   */
  lemma BudgetKeepsTheLease(s0: State, acts: seq<Action>, handoff: nat, books: nat)
    requires Init(s0) && Run(s0, acts) && PunctualRun(s0, acts, handoff, books)
    requires handoff + books < 45 * SECOND
    ensures TimelyRun(s0, acts) && Exclusive(After(s0, acts))
  {
    PunctualIsTimely(s0, acts, handoff, books);
    LeaseExclusion(s0, acts);
  }

  // ---------------------------------------------------- the bound is sharp

  /** Another drain claims just row `r` out of an overdue drain's hands. */
  function Takeover(s: State, e: DrainId, r: ClaimedRow): Action
    requires r.id in s.rows
  {
    Claim(e, s.rows.Keys - {r.id}, [AsClaimed(s.rows, r.id)])
  }

  lemma TakeoverIsEnabled(s: State, d: DrainId, e: DrainId, r: ClaimedRow)
    requires Exclusive(s) && Overdue(s, d) && r in s.drains[d].batch && e !in s.started
    ensures Held(s, d, r) && Enabled(s, Takeover(s, e, r))
  {
    assert Held(s, d, r);
    var claimed := AsClaimed(s.rows, r.id);
    assert [claimed][0] == claimed;
    assert Ids([claimed]) == {r.id};
  }

  /** In any state so far exclusive, exclusion can be lost at the next step exactly if some drain is overdue. */
  lemma ExclusionFailsIffOverdue(s: State)
    requires Safe(s) && Exclusive(s)
    ensures (exists a :: Enabled(s, a) && !Exclusive(Do(s, a))) <==> exists d :: Overdue(s, d)
  {
    if d :| Overdue(s, d) {
      var e := Unused(s.started);
      var r := s.drains[d].batch[0];
      TakeoverIsEnabled(s, d, e, r);
      var t := Do(s, Takeover(s, e, r));
      assert DrainOk(s, d) && d in t.drains && r in t.drains[d].batch;
      assert t.rows[r.id].nextAttemptAt == s.now + LEASE && !Held(t, d, r);
    } else {
      forall a | Enabled(s, a) ensures Exclusive(Do(s, a)) {
        ExclusiveStep(s, a);
      }
    }
  }

  lemma {:induction false} RunConcat(s: State, a: seq<Action>, b: seq<Action>)
    requires Run(s, a) && Run(After(s, a), b)
    ensures Run(s, a + b) && After(s, a + b) == After(After(s, a), b)
    decreases |a|
  {
    if a == [] {
      assert a + b == b;
    } else {
      RunConcat(Do(s, a[0]), a[1..], b);
      assert (a + b)[1..] == a[1..] + b;
    }
  }

  lemma RunOneMore(s: State, a: Action, acts: seq<Action>)
    requires Enabled(s, a) && Run(Do(s, a), acts)
    ensures Run(s, [a] + acts) && After(s, [a] + acts) == After(Do(s, a), acts)
  {
    assert ([a] + acts)[1..] == acts;
  }

  lemma RunOfTwo(s: State, a: Action, b: Action)
    requires Enabled(s, a) && Enabled(Do(s, a), b)
    ensures Run(s, [a] + ([b] + [])) && After(s, [a] + ([b] + [])) == Do(Do(s, a), b)
  {
    RunOneMore(Do(s, a), b, []);
    RunOneMore(s, a, [b] + []);
  }

  lemma RunOfThree(s: State, a: Action, b: Action, c: Action)
    requires Enabled(s, a) && Enabled(Do(s, a), b) && Enabled(Do(Do(s, a), b), c)
    ensures Run(s, [a] + ([b] + ([c] + []))) && After(s, [a] + ([b] + ([c] + []))) == Do(Do(Do(s, a), b), c)
  {
    RunOfTwo(Do(s, a), b, c);
    RunOneMore(s, a, [b] + ([c] + []));
  }

  /** What bookkeeping makes of a row that failed and was not published, whoever else holds it. */
  lemma FailureIsBooked(s: State, d: DrainId, k: nat)
    requires CommitsFailure(s, d, k) && OutcomeOk(s.drains[d])
    requires s.drains[d].outcome.failed[k].id in s.rows
    ensures var f := s.drains[d].outcome.failed[k];
            f.id in Do(s, Bookkeep(d)).rows
            && Do(s, Bookkeep(d)).rows[f.id] == Failed(s.rows[f.id], f, s.now)
  {
    var outcome := s.drains[d].outcome;
    MarkAllFailedAt(MarkPublished(s.rows, outcome.published, s.now), outcome.failed, s.now, k);
  }

  /** No counter among the drain's failures is at the maximum, so its bookkeeping commits. */
  lemma BookkeepingCommits(rows: Table, outcome: Outcome, now: nat)
    requires DistinctFailures(outcome.failed)
    requires forall f :: f in outcome.failed && f.id in rows ==> rows[f.id].attempts < I32_MAX
    ensures Bookkept(rows, outcome, now).Some?
  {
    MarkAllFailedRollsBack(MarkPublished(rows, outcome.published, now), outcome.failed, now);
  }

  /** An overdue drain is at its batch deadline, and no counter it will book is near its maximum. */
  ghost predicate Stalled(s: State, d: DrainId, e: DrainId) {
    && Safe(s) && Exclusive(s) && Busy(s, d) && s.drains[d].deadline.value <= s.now && Overdue(s, d) && e !in s.started
    && s.drains[d].batch[s.drains[d].next].attempts + 1 < I32_MAX
    && forall f :: f in s.drains[d].outcome.failed ==> f.attemptsBefore < I32_MAX
  }

  lemma FailuresAreHeld(s: State, d: DrainId, f: Failure)
    requires Safe(s) && Exclusive(s) && d in s.drains && f in s.drains[d].outcome.failed
    ensures f.id in s.rows && s.rows[f.id].attempts == f.attemptsBefore
  {
    assert DrainOk(s, d) && CountedFrom(s.drains[d], f);
    var i :| 0 <= i < s.drains[d].next && s.drains[d].batch[i].id == f.id
        && s.drains[d].batch[i].attempts == f.attemptsBefore;
    assert Held(s, d, s.drains[d].batch[i]);
  }

  /** What the takeover and the cut-off leave: the same counters, and the row as the drain's last failure. */
  lemma CutOffState(s: State, d: DrainId, e: DrainId) returns (t: State)
    requires Stalled(s, d, e)
    ensures var r := s.drains[d].batch[s.drains[d].next];
            && Held(s, d, r) && Enabled(s, Takeover(s, e, r)) && Enabled(Do(s, Takeover(s, e, r)), CutOff(d)) && d != e
            && t == Do(Do(s, Takeover(s, e, r)), CutOff(d))
            && Done(t, d) && OutcomeOk(t.drains[d]) && t.now == s.now
            && t.drains[d].outcome.failed == s.drains[d].outcome.failed + [Failure(r.id, r.attempts, BUDGET_EXCEEDED)]
            && t.rows == Leased(s.rows, {r.id}, s.now)
            && e in t.drains
            && t.drains[e] == Drain(s.now, [AsClaimed(s.rows, r.id)], None, 0, false, false, Outcome([], []))
  {
    var r := s.drains[d].batch[s.drains[d].next];
    assert DrainOk(s, d);
    TakeoverIsEnabled(s, d, e, r);
    var s1 := Do(s, Takeover(s, e, r));
    assert Ids([AsClaimed(s.rows, r.id)]) == {r.id} by {
      assert [AsClaimed(s.rows, r.id)][0].id == r.id;
    }
    LeaveKeepsOutcomeOk(s1, d, Deadline);
    t := Do(s1, CutOff(d));
  }

  lemma CutOffCommits(s: State, d: DrainId, r: ClaimedRow, t: State)
    requires Safe(s) && Exclusive(s) && d in s.drains && r.id in s.rows && s.rows[r.id].attempts == r.attempts < I32_MAX
    requires forall f :: f in s.drains[d].outcome.failed ==> f.attemptsBefore < I32_MAX
    requires Done(t, d) && OutcomeOk(t.drains[d]) && t.rows == Leased(s.rows, {r.id}, s.now)
    requires t.drains[d].outcome.failed == s.drains[d].outcome.failed + [Failure(r.id, r.attempts, BUDGET_EXCEEDED)]
    ensures CommitsFailure(t, d, |s.drains[d].outcome.failed|)
  {
    forall f | f in t.drains[d].outcome.failed ensures f.id in s.rows && s.rows[f.id].attempts < I32_MAX {
      if f in s.drains[d].outcome.failed {
        FailuresAreHeld(s, d, f);
      }
    }
    BookkeepingCommits(t.rows, t.drains[d].outcome, t.now);
  }

  lemma LastFailureIsBooked(t: State, d: DrainId, e: DrainId, r: ClaimedRow, n: nat)
    requires CommitsFailure(t, d, n) && OutcomeOk(t.drains[d]) && e in t.drains && e != d
    requires t.drains[d].outcome.failed[n] == Failure(r.id, r.attempts, BUDGET_EXCEEDED)
    requires r.id in t.rows && t.rows[r.id].attempts == r.attempts
    ensures var u := Do(t, Bookkeep(d));
            && u.now == t.now && e in u.drains && u.drains[e] == t.drains[e]
            && r.id in u.rows && u.rows[r.id].attempts == r.attempts + 1
  {
    FailureIsBooked(t, d, n);
  }

  /** The overdue drain loses its row, is cut off, and keeps its books. */
  lemma FirstBooking(s: State, d: DrainId, e: DrainId) returns (t: State)
    requires Stalled(s, d, e)
    ensures var r := s.drains[d].batch[s.drains[d].next];
            var acts := [Takeover(s, e, r)] + ([CutOff(d)] + ([Bookkeep(d)] + []));
            && r.id in s.rows && Run(s, acts) && t == After(s, acts)
            && t.now == s.now && e in t.drains
            && t.drains[e] == Drain(s.now, [AsClaimed(s.rows, r.id)], None, 0, false, false, Outcome([], []))
            && r.id in t.rows && t.rows[r.id].attempts == r.attempts + 1 && s.rows[r.id].attempts == r.attempts
  {
    var r := s.drains[d].batch[s.drains[d].next];
    var s2 := CutOffState(s, d, e);
    CutOffCommits(s, d, r, s2);
    LastFailureIsBooked(s2, d, e, r, |s.drains[d].outcome.failed|);
    t := Do(s2, Bookkeep(d));
    RunOfThree(s, Takeover(s, e, r), CutOff(d), Bookkeep(d));
  }

  /** A drain whose only row is refused at once. */
  lemma SecondBooking(s: State, e: DrainId, r: ClaimedRow)
    requires e in s.drains && s.drains[e] == Drain(s.drains[e].claimedAt, [r], None, 0, false, false, Outcome([], []))
    requires r.id in s.rows && s.rows[r.id].attempts < I32_MAX
    ensures var acts := [Open(e)] + ([Refuse(e, "")] + ([Bookkeep(e)] + []));
            && Run(s, acts) && After(s, acts).now == s.now && r.id in After(s, acts).rows
            && After(s, acts).rows[r.id] == Failed(s.rows[r.id], Failure(r.id, r.attempts, ""), s.now)
  {
    var s1 := Do(s, Open(e));
    var s2 := Do(s1, Refuse(e, ""));
    OnlyFailure(s2, e, r);
    RunOfThree(s, Open(e), Refuse(e, ""), Bookkeep(e));
  }

  lemma OnlyFailure(s: State, e: DrainId, r: ClaimedRow)
    requires Done(s, e) && s.drains[e].outcome == Outcome([], [Failure(r.id, r.attempts, "")])
    requires r.id in s.rows && s.rows[r.id].attempts < I32_MAX
    ensures r.id in Do(s, Bookkeep(e)).rows && Do(s, Bookkeep(e)).now == s.now
    ensures Do(s, Bookkeep(e)).rows[r.id] == Failed(s.rows[r.id], Failure(r.id, r.attempts, ""), s.now)
  {
    var outcome := s.drains[e].outcome;
    BookkeepingCommits(s.rows, outcome, s.now);
    MarkAllFailedAt(MarkPublished(s.rows, outcome.published, s.now), outcome.failed, s.now, 0);
  }

  /**
   * The lease must be undercut, not just met. From any state with an overdue drain at its batch
   * deadline, the row it is publishing can be counted twice with the backoff of one attempt.
   */
  lemma LeaseBoundaryIsSharp(s: State, d: DrainId, e: DrainId)
    requires Stalled(s, d, e)
    ensures var r := s.drains[d].batch[s.drains[d].next];
            && r.id in s.rows
            && var acts := [Takeover(s, e, r)] + ([CutOff(d)] + ([Bookkeep(d)] + []))
                           + ([Open(e)] + ([Refuse(e, "")] + ([Bookkeep(e)] + [])));
               && Run(s, acts) && After(s, acts).now == s.now && r.id in After(s, acts).rows
               && After(s, acts).rows[r.id].attempts == r.attempts + 2
               && After(s, acts).rows[r.id].nextAttemptAt == s.now + RetryDelay(r.attempts + 1)
  {
    var r := s.drains[d].batch[s.drains[d].next];
    var t := FirstBooking(s, d, e);
    SecondBooking(t, e, AsClaimed(s.rows, r.id));
    RunConcat(s, [Takeover(s, e, r)] + ([CutOff(d)] + ([Bookkeep(d)] + [])),
              [Open(e)] + ([Refuse(e, "")] + ([Bookkeep(e)] + [])));
  }

  // ------------------------------------------- the publish loop as a run

  /** One row of the loop: it is resolved after `wait`. */
  function RowActions(d: DrainId, row: ClaimedRow, result: Result, wait: nat): seq<Action> {
    match result
    case Ok => [Send(d)] + ([Deliver(d, row.id, 0)] + ([Tick(wait)] + ([Acknowledge(d)] + [])))
    case Err(reason) => [Tick(wait)] + ([Refuse(d, reason)] + [])
    case Deadline => [Send(d)] + ([Tick(wait)] + ([CutOff(d)] + []))
  }

  /** How long row `i` takes. */
  function Wait(env: seq<Attempt>, start: nat, deadline: nat, i: nat): nat
    requires i < |env|
  {
    ResolvedAt(env[i], Elapsed(env, start, deadline, i), deadline) - Elapsed(env, start, deadline, i)
  }

  function LoopActions(d: DrainId, rows: seq<ClaimedRow>, env: seq<Attempt>, start: nat, deadline: nat,
      n: nat): seq<Action>
    requires n <= |env| == |rows|
  {
    if n == 0 then []
    else LoopActions(d, rows, env, start, deadline, n - 1)
         + RowActions(d, rows[n - 1], ResultOf(env, start, deadline, n - 1), Wait(env, start, deadline, n - 1))
  }

  lemma RowIsARun(s: State, d: DrainId, result: Result, wait: nat)
    requires Busy(s, d) && !s.drains[d].sending
    requires result.Deadline? ==> s.drains[d].deadline.value <= s.now + wait
    ensures var row := s.drains[d].batch[s.drains[d].next];
            && Run(s, RowActions(d, row, result, wait))
            && After(s, RowActions(d, row, result, wait)).now == s.now + wait
            && d in After(s, RowActions(d, row, result, wait)).drains
            && After(s, RowActions(d, row, result, wait)).drains[d] == Leave(s, d, result).drains[d]
  {
    match result
    case Ok => AckIsARun(s, d, wait);
    case Err(reason) => RefusalIsARun(s, d, reason, wait);
    case Deadline => CutOffIsARun(s, d, wait);
  }

  lemma RefusalIsARun(s: State, d: DrainId, reason: string, wait: nat)
    requires Busy(s, d) && !s.drains[d].sending
    ensures var acts := RowActions(d, s.drains[d].batch[s.drains[d].next], Err(reason), wait);
            && Run(s, acts) && After(s, acts).now == s.now + wait
            && d in After(s, acts).drains && After(s, acts).drains[d] == Leave(s, d, Err(reason)).drains[d]
  {
    RunOfTwo(s, Tick(wait), Refuse(d, reason));
  }

  lemma CutOffIsARun(s: State, d: DrainId, wait: nat)
    requires Busy(s, d) && !s.drains[d].sending && s.drains[d].deadline.value <= s.now + wait
    ensures var acts := RowActions(d, s.drains[d].batch[s.drains[d].next], Deadline, wait);
            && Run(s, acts) && After(s, acts).now == s.now + wait
            && d in After(s, acts).drains && After(s, acts).drains[d] == Leave(s, d, Deadline).drains[d]
  {
    RunOfThree(s, Send(d), Tick(wait), CutOff(d));
  }

  lemma AckIsARun(s: State, d: DrainId, wait: nat)
    requires Busy(s, d) && !s.drains[d].sending
    ensures var acts := RowActions(d, s.drains[d].batch[s.drains[d].next], Ok, wait);
            && Run(s, acts) && After(s, acts).now == s.now + wait
            && d in After(s, acts).drains && After(s, acts).drains[d] == Leave(s, d, Ok).drains[d]
  {
    var row := s.drains[d].batch[s.drains[d].next];
    var s1 := Do(s, Send(d));
    RunOfThree(s1, Deliver(d, row.id, 0), Tick(wait), Acknowledge(d));
    RunOneMore(s, Send(d), [Deliver(d, row.id, 0)] + ([Tick(wait)] + ([Acknowledge(d)] + [])));
  }

  /**
   * What `PublishBatch` computes is what a drain of this machine accumulates, and it takes the time
   * it says: for every batch and every behaviour of the producer, the loop's outcome after `n`
   * tried rows is reached by a run that ends at the loop's own time, never past the deadline.
   */
  lemma {:induction false} PublishLoopIsARun(s: State, d: DrainId, env: seq<Attempt>, n: nat)
    requires d in s.drains && s.drains[d].deadline == Some(s.now + PUBLISH_BUDGET)
    requires s.drains[d].next == 0 && !s.drains[d].sending && !s.drains[d].cutOff
             && s.drains[d].outcome == Outcome([], [])
    requires n <= |env| == |s.drains[d].batch| && Tried(env, s.now, s.now + PUBLISH_BUDGET, n)
    ensures var deadline := s.now + PUBLISH_BUDGET;
            var acts := LoopActions(d, s.drains[d].batch, env, s.now, deadline, n);
            && Run(s, acts)
            && After(s, acts).now == Elapsed(env, s.now, deadline, n) <= deadline
            && d in After(s, acts).drains
            && After(s, acts).drains[d] == s.drains[d].(
                 next := n,
                 cutOff := n > 0 && ResultOf(env, s.now, deadline, n - 1).Deadline?,
                 outcome := OutcomeOf(s.drains[d].batch, env, s.now, deadline, n))
  {
    var start, deadline := s.now, s.now + PUBLISH_BUDGET;
    ElapsedWithinDeadline(env, start, deadline, n);
    if n > 0 {
      var rows := s.drains[d].batch;
      PublishLoopIsARun(s, d, env, n - 1);
      var acts := LoopActions(d, rows, env, start, deadline, n - 1);
      var t := After(s, acts);
      var result := ResultOf(env, start, deadline, n - 1);
      var wait := Wait(env, start, deadline, n - 1);
      assert n > 1 ==> !ResultOf(env, start, deadline, n - 2).Deadline?;
      RowIsARun(t, d, result, wait);
      RunConcat(s, acts, RowActions(d, rows[n - 1], result, wait));
    }
  }

  // ----------------------------------------------------- nothing gets stuck

  /** A new drain that waits out any lease or backoff, claims just row `id`, and hands it to the producer. */
  function Sending(s: State, d: DrainId, id: Uuid): seq<Action>
    requires id in s.rows
  {
    [Tick(MAX_RETRY_DELAY)] + ([Claim(d, s.rows.Keys - {id}, [AsClaimed(s.rows, id)])] + ([Open(d)] + ([Send(d)] + [])))
  }

  /** Drain `d` waits for the answer to its only row. */
  predicate Awaiting(s: State, d: DrainId, row: ClaimedRow) {
    && d in s.drains && s.drains[d].batch == [row] && s.drains[d].next == 0 && s.drains[d].sending
    && s.drains[d].deadline.Some? && !s.drains[d].cutOff && s.drains[d].outcome == Outcome([], [])
    && (d, row.id) in s.sent && s.sent[(d, row.id)] == row.payload
    && row.id in s.rows && s.rows[row.id].payload == row.payload
  }

  lemma SendingRuns(s: State, d: DrainId, id: Uuid)
    requires Safe(s) && id in s.rows && s.rows[id].publishedAt.None? && d !in s.started
    ensures Run(s, Sending(s, d, id)) && Awaiting(After(s, Sending(s, d, id)), d, AsClaimed(s.rows, id))
    ensures After(s, Sending(s, d, id)).log == s.log
  {
    var s1 := Do(s, Tick(MAX_RETRY_DELAY));
    assert RowOk(s, id);
    var row := AsClaimed(s1.rows, id);
    var claim := Claim(d, s1.rows.Keys - {id}, [row]);
    ClaimWhenDue(s1, d, id);
    var s2 := Do(s1, claim);
    RunOfThree(s1, claim, Open(d), Send(d));
    RunOneMore(s, Tick(MAX_RETRY_DELAY), [claim] + ([Open(d)] + ([Send(d)] + [])));
  }

  /** A new drain can claim a due row that everybody else has skipped. */
  lemma ClaimWhenDue(s: State, d: DrainId, id: Uuid)
    requires id in s.rows && Due(s.rows[id], s.now) && d !in s.started
    ensures var claim := Claim(d, s.rows.Keys - {id}, [AsClaimed(s.rows, id)]);
            && Enabled(s, claim) && Do(s, claim).now == s.now && Do(s, claim).log == s.log
            && id in Do(s, claim).rows && Do(s, claim).rows[id].payload == s.rows[id].payload
            && d in Do(s, claim).drains
            && Do(s, claim).drains[d] == Drain(s.now, [AsClaimed(s.rows, id)], None, 0, false, false, Outcome([], []))
  {
    assert Ids([AsClaimed(s.rows, id)]) == {id} by {
      assert [AsClaimed(s.rows, id)][0].id == id;
    }
  }

  /** Once the record has arrived it can be acknowledged and booked as published. */
  lemma BookingRuns(s: State, d: DrainId, row: ClaimedRow)
    requires Awaiting(s, d, row) && (d, row.id) in s.delivered
    ensures Run(s, [Acknowledge(d)] + ([Bookkeep(d)] + []))
    ensures var t := After(s, [Acknowledge(d)] + ([Bookkeep(d)] + []));
            t.rows == s.rows[row.id := s.rows[row.id].(publishedAt := Some(s.now))] && t.log == s.log
  {
    var s1 := Do(s, Acknowledge(d));
    assert row.id in [row.id] && s1.drains[d].outcome == Outcome([row.id], []);
    assert Do(s1, Bookkeep(d)).rows == s.rows[row.id := s.rows[row.id].(publishedAt := Some(s.now))];
    RunOfTwo(s, Acknowledge(d), Bookkeep(d));
  }

  /**
   * No event gets stuck in the outbox: from every reachable state, whoever holds its row and however
   * often it has failed, some run publishes it on whatever partition -- once a retry delay has
   * passed, a new drain may claim it.
   */
  lemma EveryEventCanGoOut(s: State, id: Uuid, p: Partition) returns (acts: seq<Action>)
    requires Safe(s) && id in s.rows && s.rows[id].publishedAt.None?
    ensures Run(s, acts)
    ensures id in After(s, acts).rows && After(s, acts).rows[id].publishedAt.Some?
    ensures After(s, acts).log == Appended(s.log, p, s.rows[id].payload)
  {
    var d := Unused(s.started);
    var row := AsClaimed(s.rows, id);
    SendingRuns(s, d, id);
    var t := After(s, Sending(s, d, id));
    var u := Do(t, Deliver(d, id, p));
    BookingRuns(u, d, row);
    RunOneMore(t, Deliver(d, id, p), [Acknowledge(d)] + ([Bookkeep(d)] + []));
    acts := Sending(s, d, id) + ([Deliver(d, id, p)] + ([Acknowledge(d)] + ([Bookkeep(d)] + [])));
    RunConcat(s, Sending(s, d, id), [Deliver(d, id, p)] + ([Acknowledge(d)] + ([Bookkeep(d)] + [])));
  }

  /** An event committed with its business transaction can, too. */
  lemma NewEventCanGoOut(s: State, id: Uuid, payload: Envelope, p: Partition) returns (acts: seq<Action>)
    requires Safe(s) && id !in s.rows
    requires forall r :: r in s.rows ==> s.rows[r].payload.eventId != payload.eventId
    ensures Run(s, [InsertEvent(id, payload)] + acts)
    ensures After(s, [InsertEvent(id, payload)] + acts).log == Appended(s.log, p, payload)
  {
    SafeStep(s, InsertEvent(id, payload));
    acts := EveryEventCanGoOut(Do(s, InsertEvent(id, payload)), id, p);
    RunOneMore(s, InsertEvent(id, payload), acts);
  }
}
