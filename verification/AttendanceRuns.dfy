/**
 * Approved leave always wins: bulk markings and approvals statement by statement, with the row
 * locks their writes hold until commit. A statement that had to wait sees the tables as they are
 * when it resumes.
 */
module AttendanceRuns {
  import opened Common
  import Leave
  import opened Attendance

  type TxId = nat

  datatype Phase = Begun | ValidRead(valid: set<Uuid>) | Planned(approved: set<Uuid>)

  /** `pending`: rows written and locked, not committed. */
  datatype Tx =
    | Marking(session: Uuid, course: Uuid, entries: seq<Entry>, phase: Phase, next: nat, pending: Rows)
    | Approving(request: Uuid, pending: Rows)

  datatype State = State(rows: Rows, requests: Leave.Requests, enrolments: Leave.Enrolments, txs: map<TxId, Tx>)

  datatype Action =
    | BeginMark(x: TxId, session: Uuid, course: Uuid, entries: seq<Entry>)
    | SkipReads(x: TxId)
    | ReadValid(x: TxId)
    | ReadApproved(x: TxId)
    | Upsert(x: TxId)
    | CommitMark(x: TxId)
    | BeginApprove(x: TxId, request: Uuid)
    | Project(x: TxId)
    | CommitApprove(x: TxId)
    | Abort(x: TxId)
    | Settle(ids: set<Uuid>, status: Leave.Status)
    | CreateRequest(id: Uuid, r: Leave.Request)
    | ChangeEnrolments(enrolments: Leave.Enrolments)

  function KeyOf(r: Leave.Request): Key {
    Key(r.session, r.enrolment)
  }

  predicate IsMarking(s: State, x: TxId) {
    x in s.txs && s.txs[x].Marking?
  }

  predicate IsApproving(s: State, x: TxId) {
    x in s.txs && s.txs[x].Approving? && s.txs[x].request in s.requests
  }

  predicate RowLocked(s: State, x: TxId, k: Key) {
    exists y :: y in s.txs && y != x && k in s.txs[y].pending
  }

  predicate RequestLocked(s: State, id: Uuid) {
    exists y :: y in s.txs && s.txs[y].Approving? && s.txs[y].request == id
  }

  /** The upsert of `x` that is due, once its row is free. */
  predicate Due(s: State, x: TxId) {
    IsMarking(s, x) && s.txs[x].phase.Planned? && s.txs[x].next < |s.txs[x].entries|
    && !RowLocked(s, x, DueKey(s.txs[x]))
  }

  function DueKey(tx: Tx): Key
    requires tx.Marking? && tx.next < |tx.entries|
  {
    Key(tx.session, tx.entries[tx.next].enrolment)
  }

  /** Zero rows: the batch fails. */
  predicate Blocked(s: State, x: TxId)
    requires Due(s, x)
  {
    var tx := s.txs[x];
    !Allowed(s.rows + tx.pending, s.requests, DueKey(tx), tx.entries[tx.next].status)
  }

  ghost predicate Enabled(s: State, a: Action) {
    match a
    case BeginMark(x, _, _, _) => x !in s.txs
    case SkipReads(x) => IsMarking(s, x) && s.txs[x].phase.Begun? && s.txs[x].entries == []
    case ReadValid(x) => IsMarking(s, x) && s.txs[x].phase.Begun? && s.txs[x].entries != []
    case ReadApproved(x) =>
      && IsMarking(s, x) && s.txs[x].phase.ValidRead?
      && Plan(s.txs[x].entries, s.txs[x].phase.valid, SeenApproved(s, s.txs[x])).None?
    case Upsert(x) => Due(s, x) && !Blocked(s, x)
    case CommitMark(x) => IsMarking(s, x) && s.txs[x].phase.Planned? && s.txs[x].next == |s.txs[x].entries|
    case BeginApprove(x, id) =>
      x !in s.txs && id in s.requests && s.requests[id].status.Pending? && !RequestLocked(s, id)
    case Project(x) => IsApproving(s, x) && !RowLocked(s, x, KeyOf(s.requests[s.txs[x].request]))
    case CommitApprove(x) => IsApproving(s, x) && KeyOf(s.requests[s.txs[x].request]) in s.txs[x].pending
    case Abort(x) => x in s.txs
    case Settle(ids, status) =>
      (status.Rejected? || status.Cancelled?) && forall id :: id in ids ==> !RequestLocked(s, id)
    case CreateRequest(id, r) => id !in s.requests && r.status.Pending?
    case ChangeEnrolments(_) => true
  }

  function SeenApproved(s: State, tx: Tx): set<Uuid>
    requires tx.Marking?
  {
    ApprovedAmong(s.requests, tx.session, Requested(tx.entries))
  }

  function Do(s: State, a: Action): State
    requires Enabled(s, a)
  {
    match a
    case BeginMark(x, session, course, entries) =>
      s.(txs := s.txs[x := Marking(session, course, entries, Begun, 0, map[])])
    case SkipReads(x) => s.(txs := s.txs[x := s.txs[x].(phase := Planned({}))])
    case ReadValid(x) =>
      var valid := ValidAmong(s.enrolments, s.txs[x].course, Requested(s.txs[x].entries));
      s.(txs := s.txs[x := s.txs[x].(phase := ValidRead(valid))])
    case ReadApproved(x) => s.(txs := s.txs[x := s.txs[x].(phase := Planned(SeenApproved(s, s.txs[x])))])
    case Upsert(x) =>
      var tx := s.txs[x];
      s.(txs := s.txs[x := tx.(pending := tx.pending[DueKey(tx) := tx.entries[tx.next].status], next := tx.next + 1)])
    case CommitMark(x) => s.(rows := s.rows + s.txs[x].pending, txs := s.txs - {x})
    case BeginApprove(x, id) => s.(txs := s.txs[x := Approving(id, map[])])
    case Project(x) => s.(txs := s.txs[x := s.txs[x].(pending := map[KeyOf(s.requests[s.txs[x].request]) := OnLeave])])
    case CommitApprove(x) =>
      s.(rows := s.rows + s.txs[x].pending, requests := Leave.Settled(s.requests, {s.txs[x].request}, Leave.Approved),
         txs := s.txs - {x})
    case Abort(x) => s.(txs := s.txs - {x})
    case Settle(ids, status) => s.(requests := Leave.Settled(s.requests, ids, status))
    case CreateRequest(id, r) => s.(requests := s.requests[id := r])
    case ChangeEnrolments(enrolments) => s.(enrolments := enrolments)
  }

  // --------------------------------------------------------------- invariant

  /** Every approved leave shows as `leave`. */
  ghost predicate LeaveWins(rows: Rows, requests: Leave.Requests) {
    forall k :: Approved(requests, k) ==> k in rows && rows[k] == OnLeave
  }

  /** Nothing about to be committed would overwrite an approved leave. */
  ghost predicate Harmless(pending: Rows, requests: Leave.Requests) {
    forall k :: k in pending && pending[k] != OnLeave ==> !Approved(requests, k)
  }

  ghost predicate PlanHeld(tx: Tx)
    requires tx.Marking? && tx.phase.Planned?
  {
    forall i :: 0 <= i < |tx.entries| && tx.entries[i].status != OnLeave ==>
        tx.entries[i].enrolment !in tx.phase.approved
  }

  ghost predicate MarkOk(tx: Tx)
    requires tx.Marking?
  {
    && tx.next <= |tx.entries| && tx.pending == Marks(tx.session, tx.entries[..tx.next])
    && (tx.phase.Planned? ==> PlanHeld(tx))
    && (!tx.phase.Planned? ==> tx.next == 0)
  }

  ghost predicate ApproveOk(tx: Tx, requests: Leave.Requests)
    requires tx.Approving?
  {
    && tx.request in requests && requests[tx.request].status.Pending?
    && (tx.pending == map[] || tx.pending == map[KeyOf(requests[tx.request]) := OnLeave])
  }

  ghost predicate TxOk(tx: Tx, requests: Leave.Requests) {
    && Harmless(tx.pending, requests)
    && (tx.Marking? ==> MarkOk(tx))
    && (tx.Approving? ==> ApproveOk(tx, requests))
  }

  ghost predicate LocksOk(txs: map<TxId, Tx>) {
    && (forall x, y :: x in txs && y in txs && x != y ==> txs[x].pending.Keys !! txs[y].pending.Keys)
    && (forall x, y :: x in txs && y in txs && x != y && txs[x].Approving? && txs[y].Approving? ==>
          txs[x].request != txs[y].request)
  }

  ghost predicate Safe(s: State) {
    && LeaveWins(s.rows, s.requests)
    && LocksOk(s.txs)
    && forall x :: x in s.txs ==> TxOk(s.txs[x], s.requests)
  }

  // --- what changes of the leave table mean

  /** Approval is terminal: no update of pending rows takes one away, and only an approving one adds any. */
  lemma SettledApproves(requests: Leave.Requests, ids: set<Uuid>, status: Leave.Status, k: Key)
    ensures Approved(requests, k) ==> Approved(Leave.Settled(requests, ids, status), k)
    ensures !status.Approved? && Approved(Leave.Settled(requests, ids, status), k) ==> Approved(requests, k)
  {
    var after := Leave.Settled(requests, ids, status);
    if Approved(requests, k) {
      var r :| r in requests && Grants(requests[r], k);
      assert Grants(after[r], k);
    }
    if !status.Approved? && Approved(after, k) {
      var r :| r in after && Grants(after[r], k);
      assert Grants(requests[r], k);
    }
  }

  lemma ApprovalAdds(requests: Leave.Requests, id: Uuid, k: Key)
    requires id in requests && requests[id].status.Pending?
    ensures Approved(Leave.Settled(requests, {id}, Leave.Approved), k)
            <==> Approved(requests, k) || k == KeyOf(requests[id])
  {
    var after := Leave.Settled(requests, {id}, Leave.Approved);
    SettledApproves(requests, {id}, Leave.Approved, k);
    assert Grants(after[id], KeyOf(requests[id]));
    if Approved(after, k) && k != KeyOf(requests[id]) {
      var r :| r in after && Grants(after[r], k);
      assert Grants(requests[r], k);
    }
  }

  lemma CreationApprovesNothing(requests: Leave.Requests, id: Uuid, r: Leave.Request, k: Key)
    requires id !in requests && r.status.Pending?
    ensures Approved(requests[id := r], k) <==> Approved(requests, k)
  {
    var after := requests[id := r];
    if Approved(requests, k) {
      var q :| q in requests && Grants(requests[q], k);
      assert Grants(after[q], k);
    }
    if Approved(after, k) {
      var q :| q in after && Grants(after[q], k);
      assert Grants(requests[q], k);
    }
  }

  /** The leave table changes, but not what is approved nor the requests being decided. */
  lemma LeaveTableKeepsSafe(s: State, requests: Leave.Requests)
    requires Safe(s)
    requires forall k :: Approved(requests, k) <==> Approved(s.requests, k)
    requires forall x :: x in s.txs && s.txs[x].Approving? ==>
               s.txs[x].request in requests && s.txs[x].request in s.requests
               && requests[s.txs[x].request] == s.requests[s.txs[x].request]
    ensures Safe(s.(requests := requests))
  {
    forall x | x in s.txs ensures TxOk(s.txs[x], requests) {
      assert TxOk(s.txs[x], s.requests);
    }
  }

  // --- commits

  lemma CommitMarkKeepsSafe(s: State, x: TxId)
    requires Safe(s) && Enabled(s, CommitMark(x))
    ensures Safe(Do(s, CommitMark(x)))
  {
    assert TxOk(s.txs[x], s.requests);
  }

  /** The approval owns the row it projected, so nobody else's pending rows lie behind it. */
  lemma CommitApproveKeepsSafe(s: State, x: TxId)
    requires Safe(s) && Enabled(s, CommitApprove(x))
    ensures Safe(Do(s, CommitApprove(x)))
  {
    var t := Do(s, CommitApprove(x));
    var key := KeyOf(s.requests[s.txs[x].request]);
    assert TxOk(s.txs[x], s.requests);
    forall k ensures Approved(t.requests, k) <==> Approved(s.requests, k) || k == key {
      ApprovalAdds(s.requests, s.txs[x].request, k);
    }
    assert LeaveWins(t.rows, t.requests);
    forall y | y in t.txs ensures TxOk(t.txs[y], t.requests) {
      ApprovalSparesTx(s, x, y);
    }
  }

  lemma ApprovalSparesTx(s: State, x: TxId, y: TxId)
    requires Safe(s) && Enabled(s, CommitApprove(x)) && y in s.txs && y != x
    ensures TxOk(s.txs[y], Leave.Settled(s.requests, {s.txs[x].request}, Leave.Approved))
  {
    var key := KeyOf(s.requests[s.txs[x].request]);
    assert TxOk(s.txs[x], s.requests) && TxOk(s.txs[y], s.requests);
    assert key !in s.txs[y].pending;
    forall k | k in s.txs[y].pending && s.txs[y].pending[k] != OnLeave
      ensures !Approved(Leave.Settled(s.requests, {s.txs[x].request}, Leave.Approved), k)
    {
      ApprovalAdds(s.requests, s.txs[x].request, k);
    }
  }

  // --- statements of one transaction

  /** One transaction moves on; the tables do not. */
  lemma TxKeepsSafe(s: State, x: TxId, tx: Tx)
    requires Safe(s) && TxOk(tx, s.requests)
    requires forall k :: k in tx.pending ==> (x in s.txs && k in s.txs[x].pending) || !RowLocked(s, x, k)
    requires tx.Approving? ==>
               (x in s.txs && s.txs[x].Approving? && s.txs[x].request == tx.request) || !RequestLocked(s, tx.request)
    ensures Safe(s.(txs := s.txs[x := tx]))
  {
    var txs := s.txs[x := tx];
    forall y | y in s.txs && y != x ensures s.txs[y].pending.Keys !! tx.pending.Keys {
      forall k | k in tx.pending ensures k !in s.txs[y].pending {
      }
    }
    assert LocksOk(txs);
  }

  lemma UpsertKeepsSafe(s: State, x: TxId)
    requires Safe(s) && Enabled(s, Upsert(x))
    ensures Safe(Do(s, Upsert(x)))
  {
    var tx := s.txs[x];
    assert TxOk(tx, s.requests);
    var after := tx.(pending := tx.pending[DueKey(tx) := tx.entries[tx.next].status], next := tx.next + 1);
    MarksStep(tx.session, tx.entries, tx.next);
    assert MarkOk(after);
    WriteIsHarmless(s, x);
    TxKeepsSafe(s, x, after);
  }

  lemma WriteIsHarmless(s: State, x: TxId)
    requires LeaveWins(s.rows, s.requests) && Enabled(s, Upsert(x)) && Harmless(s.txs[x].pending, s.requests)
    ensures Harmless(s.txs[x].pending[DueKey(s.txs[x]) := s.txs[x].entries[s.txs[x].next].status], s.requests)
  {
    var k := DueKey(s.txs[x]);
    if Approved(s.requests, k) {
      assert (s.rows + s.txs[x].pending)[k] == OnLeave;
    }
  }

  lemma ReadKeepsSafe(s: State, a: Action)
    requires Safe(s) && Enabled(s, a) && (a.SkipReads? || a.ReadValid? || a.ReadApproved?)
    ensures Safe(Do(s, a))
  {
    var tx := s.txs[a.x];
    assert TxOk(tx, s.requests);
    var after := Do(s, a).txs[a.x];
    assert MarkOk(after);
    TxKeepsSafe(s, a.x, after);
  }

  lemma ProjectKeepsSafe(s: State, x: TxId)
    requires Safe(s) && Enabled(s, Project(x))
    ensures Safe(Do(s, Project(x)))
  {
    assert TxOk(s.txs[x], s.requests);
    TxKeepsSafe(s, x, Do(s, Project(x)).txs[x]);
  }

  lemma SettleKeepsSafe(s: State, ids: set<Uuid>, status: Leave.Status)
    requires Safe(s) && Enabled(s, Settle(ids, status))
    ensures Safe(Do(s, Settle(ids, status)))
  {
    forall k ensures Approved(Leave.Settled(s.requests, ids, status), k) <==> Approved(s.requests, k) {
      SettledApproves(s.requests, ids, status, k);
    }
    forall x | x in s.txs && s.txs[x].Approving? ensures s.txs[x].request in s.requests && s.txs[x].request !in ids {
      assert TxOk(s.txs[x], s.requests) && RequestLocked(s, s.txs[x].request);
    }
    LeaveTableKeepsSafe(s, Leave.Settled(s.requests, ids, status));
  }

  lemma CreateKeepsSafe(s: State, id: Uuid, r: Leave.Request)
    requires Safe(s) && Enabled(s, CreateRequest(id, r))
    ensures Safe(Do(s, CreateRequest(id, r)))
  {
    forall k ensures Approved(s.requests[id := r], k) <==> Approved(s.requests, k) {
      CreationApprovesNothing(s.requests, id, r, k);
    }
    forall x | x in s.txs && s.txs[x].Approving? ensures s.txs[x].request in s.requests {
      assert TxOk(s.txs[x], s.requests);
    }
    LeaveTableKeepsSafe(s, s.requests[id := r]);
  }

  lemma SafeStep(s: State, a: Action)
    requires Safe(s) && Enabled(s, a)
    ensures Safe(Do(s, a))
  {
    match a
    case BeginMark(x, session, course, entries) =>
      TxKeepsSafe(s, x, Marking(session, course, entries, Begun, 0, map[]));
    case BeginApprove(x, id) => TxKeepsSafe(s, x, Approving(id, map[]));
    case SkipReads(_) => ReadKeepsSafe(s, a);
    case ReadValid(_) => ReadKeepsSafe(s, a);
    case ReadApproved(_) => ReadKeepsSafe(s, a);
    case Upsert(x) => UpsertKeepsSafe(s, x);
    case CommitMark(x) => CommitMarkKeepsSafe(s, x);
    case Project(x) => ProjectKeepsSafe(s, x);
    case CommitApprove(x) => CommitApproveKeepsSafe(s, x);
    case Abort(_) =>
    case Settle(ids, status) => SettleKeepsSafe(s, ids, status);
    case CreateRequest(id, r) => CreateKeepsSafe(s, id, r);
    case ChangeEnrolments(_) =>
  }

  // -------------------------------------------------------------------- runs

  ghost predicate Run(s: State, acts: seq<Action>)
    decreases |acts|
  {
    acts == [] || (Enabled(s, acts[0]) && Run(Do(s, acts[0]), acts[1..]))
  }

  ghost function After(s: State, acts: seq<Action>): State
    requires Run(s, acts)
    decreases |acts|
  {
    if acts == [] then s else After(Do(s, acts[0]), acts[1..])
  }

  /** In every reachable state, each approved leave's attendance row is `leave`. */
  lemma {:induction false} ApprovedLeaveWins(s: State, acts: seq<Action>)
    requires Safe(s) && Run(s, acts)
    ensures Safe(After(s, acts)) && LeaveWins(After(s, acts).rows, After(s, acts).requests)
    decreases |acts|
  {
    if acts != [] {
      SafeStep(s, acts[0]);
      ApprovedLeaveWins(Do(s, acts[0]), acts[1..]);
    }
  }

  lemma ApprovalStays(s: State, a: Action, k: Key)
    requires Safe(s) && Enabled(s, a) && Approved(s.requests, k)
    ensures Approved(Do(s, a).requests, k)
  {
    match a
    case CommitApprove(x) =>
      assert TxOk(s.txs[x], s.requests);
      ApprovalAdds(s.requests, s.txs[x].request, k);
    case Settle(ids, status) => SettledApproves(s.requests, ids, status, k);
    case CreateRequest(id, r) => CreationApprovesNothing(s.requests, id, r, k);
    case _ =>
  }

  /** From the moment an approval commits, its attendance row is `leave` for ever. */
  lemma {:induction false} ApprovalIsFinal(s: State, x: TxId, acts: seq<Action>)
    requires Safe(s) && Enabled(s, CommitApprove(x)) && Run(Do(s, CommitApprove(x)), acts)
    ensures var k := KeyOf(s.requests[s.txs[x].request]);
            var t := After(Do(s, CommitApprove(x)), acts);
            k in t.rows && t.rows[k] == OnLeave
  {
    assert TxOk(s.txs[x], s.requests);
    ApprovalAdds(s.requests, s.txs[x].request, KeyOf(s.requests[s.txs[x].request]));
    SafeStep(s, CommitApprove(x));
    ApprovedFromHere(Do(s, CommitApprove(x)), acts, KeyOf(s.requests[s.txs[x].request]));
  }

  lemma {:induction false} ApprovedFromHere(s: State, acts: seq<Action>, k: Key)
    requires Safe(s) && Run(s, acts) && Approved(s.requests, k)
    ensures k in After(s, acts).rows && After(s, acts).rows[k] == OnLeave
    decreases |acts|
  {
    if acts != [] {
      SafeStep(s, acts[0]);
      ApprovalStays(s, acts[0], k);
      ApprovedFromHere(Do(s, acts[0]), acts[1..], k);
    }
  }

  /**
   * A batch writes all of its entries or nothing: committed rows change only at a commit, a
   * marking's commit writes exactly its entries, and no commit turns an approved leave into anything else.
   */
  lemma BatchesAreAllOrNothing(s: State, a: Action)
    requires Safe(s) && Enabled(s, a)
    ensures a.CommitMark? ==> Do(s, a).rows == s.rows + Marks(s.txs[a.x].session, s.txs[a.x].entries)
    ensures a.CommitApprove? ==> Do(s, a).rows == s.rows[KeyOf(s.requests[s.txs[a.x].request]) := OnLeave]
    ensures !a.CommitMark? && !a.CommitApprove? ==> Do(s, a).rows == s.rows
    ensures forall k :: Approved(s.requests, k) ==> k in Do(s, a).rows && Do(s, a).rows[k] == OnLeave
  {
    if a.CommitMark? {
      MarkCommits(s, a.x);
    } else if a.CommitApprove? {
      ApprovalCommits(s, a.x);
    }
  }

  lemma MarkCommits(s: State, x: TxId)
    requires Safe(s) && Enabled(s, CommitMark(x))
    ensures Do(s, CommitMark(x)).rows == s.rows + Marks(s.txs[x].session, s.txs[x].entries)
    ensures forall k :: Approved(s.requests, k) ==>
            k in Do(s, CommitMark(x)).rows && Do(s, CommitMark(x)).rows[k] == OnLeave
  {
    assert TxOk(s.txs[x], s.requests);
    assert s.txs[x].entries[..s.txs[x].next] == s.txs[x].entries;
  }

  lemma ApprovalCommits(s: State, x: TxId)
    requires Safe(s) && Enabled(s, CommitApprove(x))
    ensures Do(s, CommitApprove(x)).rows == s.rows[KeyOf(s.requests[s.txs[x].request]) := OnLeave]
    ensures forall k :: Approved(s.requests, k) ==>
              k in Do(s, CommitApprove(x)).rows && Do(s, CommitApprove(x)).rows[k] == OnLeave
  {
    assert TxOk(s.txs[x], s.requests);
  }

  /** The write-point guard only ever fails a batch over a leave approved after the batch looked. */
  lemma GuardCatchesOnlyLateApprovals(s: State, x: TxId)
    requires Safe(s) && Due(s, x) && Blocked(s, x)
    ensures Approved(s.requests, DueKey(s.txs[x]))
    ensures s.txs[x].entries[s.txs[x].next].enrolment !in s.txs[x].phase.approved
  {
    assert TxOk(s.txs[x], s.requests);
  }

  /** A late approval of a member still to be marked otherwise always fails the batch. */
  lemma LateApprovalFailsTheBatch(s: State, x: TxId)
    requires Safe(s) && Due(s, x)
    requires Approved(s.requests, DueKey(s.txs[x])) && s.txs[x].entries[s.txs[x].next].status != OnLeave
    ensures Blocked(s, x)
  {
    assert TxOk(s.txs[x], s.requests);
    assert (s.rows + s.txs[x].pending)[DueKey(s.txs[x])] == OnLeave;
  }

  // ----------------------------------------------------------- served alone

  lemma {:induction false} Extend(s: State, acts: seq<Action>, a: Action)
    requires Run(s, acts) && Enabled(After(s, acts), a)
    ensures Run(s, acts + [a]) && After(s, acts + [a]) == Do(After(s, acts), a)
    decreases |acts|
  {
    if acts == [] {
      assert acts + [a] == [a] && Run(Do(s, a), []);
    } else {
      Extend(Do(s, acts[0]), acts[1..], a);
      assert (acts + [a])[1..] == acts[1..] + [a];
    }
  }

  /** The statements of a marking: its two reads, unless it is empty, then `n` of its upserts. */
  function Marked(x: TxId, session: Uuid, course: Uuid, entries: seq<Entry>, n: nat): seq<Action> {
    if n > 0 then Marked(x, session, course, entries, n - 1) + [Upsert(x)]
    else if entries == [] then [BeginMark(x, session, course, entries)] + [SkipReads(x)]
    else [BeginMark(x, session, course, entries)] + [ReadValid(x)] + [ReadApproved(x)]
  }

  /** What the plan says of a batch as the tables stand. */
  function Verdict(s: State, session: Uuid, course: Uuid, entries: seq<Entry>): Option<Error> {
    Plan(entries, ValidAmong(s.enrolments, course, Requested(entries)),
         ApprovedAmong(s.requests, session, Requested(entries)))
  }

  lemma ReadsRun(s: State, x: TxId, session: Uuid, course: Uuid, entries: seq<Entry>) returns (approved: set<Uuid>)
    requires s.txs == map[] && Verdict(s, session, course, entries).None?
    ensures Run(s, Marked(x, session, course, entries, 0))
    ensures After(s, Marked(x, session, course, entries, 0))
            == Midway(s, x, session, course, entries, approved, 0)
  {
    var begin := BeginMark(x, session, course, entries);
    assert [] + [begin] == [begin];
    Extend(s, [], begin);
    var s1 := After(s, [begin]);
    if entries == [] {
      Extend(s, [begin], SkipReads(x));
      approved := {};
    } else {
      Extend(s, [begin], ReadValid(x));
      Extend(s, [begin] + [ReadValid(x)], ReadApproved(x));
      approved := ApprovedAmong(s.requests, session, Requested(entries));
    }
  }

  /** The guard lets every row of a planned batch through while the leave table stays as it is. */
  lemma {:induction false} UpsertsRun(s: State, x: TxId, session: Uuid, course: Uuid, entries: seq<Entry>, n: nat)
      returns (approved: set<Uuid>)
    requires s.txs == map[] && Verdict(s, session, course, entries).None? && n <= |entries|
    ensures Run(s, Marked(x, session, course, entries, n))
    ensures After(s, Marked(x, session, course, entries, n)) == Midway(s, x, session, course, entries, approved, n)
  {
    if n == 0 {
      approved := ReadsRun(s, x, session, course, entries);
      assert entries[..0] == [];
    } else {
      approved := UpsertsRun(s, x, session, course, entries, n - 1);
      OneUpsert(s, x, session, course, entries, approved, n - 1);
      Extend(s, Marked(x, session, course, entries, n - 1), Upsert(x));
    }
  }

  /** A marking alone, `n` upserts in. */
  function Midway(
      s: State, x: TxId, session: Uuid, course: Uuid, entries: seq<Entry>, approved: set<Uuid>, n: nat): State
    requires n <= |entries|
  {
    s.(txs := map[x := Marking(session, course, entries, Planned(approved), n, Marks(session, entries[..n]))])
  }

  lemma OneUpsert(
      s: State, x: TxId, session: Uuid, course: Uuid, entries: seq<Entry>, approved: set<Uuid>, n: nat)
    requires Verdict(s, session, course, entries).None? && n < |entries|
    ensures Enabled(Midway(s, x, session, course, entries, approved, n), Upsert(x))
    ensures Do(Midway(s, x, session, course, entries, approved, n), Upsert(x))
            == Midway(s, x, session, course, entries, approved, n + 1)
  {
    MidwayIsFree(s, x, session, course, entries, approved, n);
    MarksStep(session, entries, n);
  }

  lemma MidwayIsFree(
      s: State, x: TxId, session: Uuid, course: Uuid, entries: seq<Entry>, approved: set<Uuid>, n: nat)
    requires Verdict(s, session, course, entries).None? && n < |entries|
    ensures Enabled(Midway(s, x, session, course, entries, approved, n), Upsert(x))
  {
    NothingBlocks(s, session, course, entries, n);
  }

  lemma NothingBlocks(s: State, session: Uuid, course: Uuid, entries: seq<Entry>, i: nat)
    requires Verdict(s, session, course, entries).None? && i < |entries|
    ensures Allowed(s.rows + Marks(session, entries[..i]), s.requests, Key(session, entries[i].enrolment),
                    entries[i].status)
  {
    var during := seq(|entries|, _ => s.requests);
    GuardBlocks(s.rows, session, entries, during, i);
    if BlockedAt(s.rows, session, entries, during, i) {
      PlanSuffices(s.rows, s.requests, s.enrolments, session, course, entries, during, i);
    }
  }

  /** A marking served alone is a run of its statements, and it writes its whole batch. */
  lemma MarkIsARun(s: State, x: TxId, session: Uuid, course: Uuid, entries: seq<Entry>)
    requires s.txs == map[] && Verdict(s, session, course, entries).None?
    ensures var acts := Marked(x, session, course, entries, |entries|) + [CommitMark(x)];
            Run(s, acts) && After(s, acts) == s.(rows := s.rows + Marks(session, entries))
  {
    var approved := UpsertsRun(s, x, session, course, entries, |entries|);
    assert entries[..|entries|] == entries;
    Extend(s, Marked(x, session, course, entries, |entries|), CommitMark(x));
  }

  /** So is an approval: it writes its row and settles its request. */
  lemma ApproveIsARun(s: State, x: TxId, id: Uuid)
    requires s.txs == map[] && id in s.requests && s.requests[id].status.Pending?
    ensures var acts := [BeginApprove(x, id)] + [Project(x)] + [CommitApprove(x)];
            && Run(s, acts)
            && After(s, acts).requests == s.requests[id := s.requests[id].(status := Leave.Approved)]
            && After(s, acts).rows == s.rows[KeyOf(s.requests[id]) := OnLeave]
  {
    assert [] + [BeginApprove(x, id)] == [BeginApprove(x, id)];
    Extend(s, [], BeginApprove(x, id));
    Extend(s, [BeginApprove(x, id)], Project(x));
    Extend(s, [BeginApprove(x, id)] + [Project(x)], CommitApprove(x));
    Leave.SettledOne(s.requests, id, Leave.Approved);
  }
}
