/** Marking attendance: a batch parsed, planned and written row by row, and the projection of approved leave. */
module Attendance {
  import opened Common
  import Leave

  datatype Status = Present | Absent | OnLeave

  datatype Key = Key(session: Uuid, enrolment: Uuid)

  datatype Entry = Entry(enrolment: Uuid, status: Status)

  datatype Record = Record(enrolment: Uuid, text: string)

  type Rows = map<Key, Status>

  datatype Error = InvalidStatus(text: string) | NotMembers | ApprovedLeaveOverwrite

  datatype Parsed = Entries(entries: seq<Entry>) | Rejected(text: string)

  // ------------------------------------------------------------ parse and plan

  function StatusOf(text: string): Option<Status> {
    if text == "present" then Some(Present)
    else if text == "absent" then Some(Absent)
    else if text == "leave" then Some(OnLeave)
    else None
  }

  /** The three texts a status may have. */
  predicate Names(text: string) {
    text == "present" || text == "absent" || text == "leave"
  }

  /** Every record parsed, or the first that cannot be. */
  method Parse(records: seq<Record>) returns (parsed: Parsed)
    ensures parsed.Entries? <==> forall i :: 0 <= i < |records| ==> Names(records[i].text)
    ensures parsed.Entries? ==>
              && |parsed.entries| == |records|
              && forall i :: 0 <= i < |records| ==>
                   && parsed.entries[i].enrolment == records[i].enrolment
                   && (parsed.entries[i].status == Present <==> records[i].text == "present")
                   && (parsed.entries[i].status == Absent <==> records[i].text == "absent")
                   && (parsed.entries[i].status == OnLeave <==> records[i].text == "leave")
    ensures parsed.Rejected? ==>
              exists i :: 0 <= i < |records| && records[i].text == parsed.text && !Names(parsed.text)
                          && forall j :: 0 <= j < i ==> Names(records[j].text)
  {
    var entries: seq<Entry> := [];
    for i := 0 to |records|
      invariant |entries| == i
      invariant forall j :: 0 <= j < i ==>
                  && entries[j].enrolment == records[j].enrolment
                  && Some(entries[j].status) == StatusOf(records[j].text)
    {
      var status := StatusOf(records[i].text);
      if status.None? {
        return Rejected(records[i].text);
      }
      entries := entries + [Entry(records[i].enrolment, status.value)];
    }
    return Entries(entries);
  }

  function Requested(entries: seq<Entry>): set<Uuid> {
    set i | 0 <= i < |entries| :: entries[i].enrolment
  }

  function Plan(entries: seq<Entry>, valid: set<Uuid>, approved: set<Uuid>): Option<Error> {
    if Requested(entries) != valid then Some(NotMembers)
    else if exists i :: 0 <= i < |entries| && entries[i].status != OnLeave && entries[i].enrolment in approved then
      Some(ApprovedLeaveOverwrite)
    else None
  }

  // -------------------------------------------------------------- statements

  function ValidAmong(enrolments: Leave.Enrolments, course: Uuid, ids: set<Uuid>): set<Uuid> {
    set e | e in ids && e in enrolments && enrolments[e].active && enrolments[e].course == course
  }

  predicate Grants(r: Leave.Request, k: Key) {
    r.status.Approved? && r.session == k.session && r.enrolment == k.enrolment
  }

  predicate Approved(requests: Leave.Requests, k: Key) {
    exists r :: r in requests && Grants(requests[r], k)
  }

  function ApprovedAmong(requests: Leave.Requests, session: Uuid, ids: set<Uuid>): set<Uuid> {
    set e | e in ids && Approved(requests, Key(session, e))
  }

  /** The write-point guard of the upsert: one row is written iff this holds. */
  predicate Allowed(rows: Rows, requests: Leave.Requests, k: Key, status: Status) {
    k !in rows || status == OnLeave || rows[k] != OnLeave || !Approved(requests, k)
  }

  /** What a batch writes; a member marked twice keeps the later mark. */
  function Marks(session: Uuid, entries: seq<Entry>): Rows {
    if entries == [] then map[]
    else
      var last := entries[|entries| - 1];
      Marks(session, entries[..|entries| - 1])[Key(session, last.enrolment) := last.status]
  }

  lemma MarksStep(session: Uuid, entries: seq<Entry>, i: nat)
    requires i < |entries|
    ensures Marks(session, entries[..i + 1])
            == Marks(session, entries[..i])[Key(session, entries[i].enrolment) := entries[i].status]
  {
    assert entries[..i + 1][..i] == entries[..i];
  }

  /** Entry `i` is the last word on its member. */
  predicate LastWord(entries: seq<Entry>, i: nat) {
    i < |entries| && forall j :: i < j < |entries| ==> entries[j].enrolment != entries[i].enrolment
  }

  lemma RequestedStep(entries: seq<Entry>)
    requires entries != []
    ensures Requested(entries) == Requested(entries[..|entries| - 1]) + {entries[|entries| - 1].enrolment}
  {
    var n := |entries| - 1;
    forall e | e in Requested(entries[..n]) ensures e in Requested(entries) {
      var i :| 0 <= i < n && entries[..n][i].enrolment == e;
      assert entries[i].enrolment == e;
    }
    forall e | e in Requested(entries) && e != entries[n].enrolment ensures e in Requested(entries[..n]) {
      var i :| 0 <= i <= n && entries[i].enrolment == e;
      assert entries[..n][i].enrolment == e;
    }
  }

  /** Exactly the batch's members are marked. */
  lemma {:induction false} MarksCoverTheBatch(session: Uuid, entries: seq<Entry>, k: Key)
    ensures k in Marks(session, entries) <==> k.session == session && k.enrolment in Requested(entries)
  {
    if entries != [] {
      MarksCoverTheBatch(session, entries[..|entries| - 1], k);
      RequestedStep(entries);
    }
  }

  /** Each member is marked as the last entry about them says. */
  lemma {:induction false} MarksAreLastWords(session: Uuid, entries: seq<Entry>, i: nat)
    requires LastWord(entries, i)
    ensures Key(session, entries[i].enrolment) in Marks(session, entries)
    ensures Marks(session, entries)[Key(session, entries[i].enrolment)] == entries[i].status
  {
    var n := |entries| - 1;
    if i < n {
      assert LastWord(entries[..n], i);
      MarksAreLastWords(session, entries[..n], i);
    }
  }

  // ------------------------------------------------------------ the write path

  /** Upsert `i` of a batch finds a leave row of that member, approved by then, and would overwrite it. */
  predicate BlockedAt(rows: Rows, session: Uuid, entries: seq<Entry>, during: seq<Leave.Requests>, i: nat)
    requires |during| == |entries|
  {
    && i < |entries| && entries[i].status != OnLeave
    && (var written := rows + Marks(session, entries[..i]); var k := Key(session, entries[i].enrolment);
        k in written && written[k] == OnLeave)
    && exists r :: r in during[i] && during[i][r].status == Leave.Approved && during[i][r].session == session
                   && during[i][r].enrolment == entries[i].enrolment
  }

  /** That is when the guard of the upsert writes no row. */
  lemma GuardBlocks(rows: Rows, session: Uuid, entries: seq<Entry>, during: seq<Leave.Requests>, i: nat)
    requires |during| == |entries| && i < |entries|
    ensures BlockedAt(rows, session, entries, during, i) <==>
            !Allowed(rows + Marks(session, entries[..i]), during[i], Key(session, entries[i].enrolment),
                     entries[i].status)
  {
    var k := Key(session, entries[i].enrolment);
    if r :| r in during[i] && Grants(during[i][r], k) {
      assert during[i][r].status == Leave.Approved && during[i][r].enrolment == entries[i].enrolment;
    }
    if r :| r in during[i] && during[i][r].status == Leave.Approved && during[i][r].session == session
            && during[i][r].enrolment == entries[i].enrolment {
      assert Grants(during[i][r], k);
    }
  }

  /** The valid set is the whole batch iff every member of it is active in the course. */
  lemma MembersAreValid(enrolments: Leave.Enrolments, course: Uuid, entries: seq<Entry>)
    ensures Requested(entries) == ValidAmong(enrolments, course, Requested(entries)) <==>
            forall i :: 0 <= i < |entries| ==>
              && entries[i].enrolment in enrolments && enrolments[entries[i].enrolment].active
              && enrolments[entries[i].enrolment].course == course
  {
    assert forall i :: 0 <= i < |entries| ==> entries[i].enrolment in Requested(entries);
  }

  lemma NoneOverwrites(requests: Leave.Requests, session: Uuid, entries: seq<Entry>)
    requires forall i :: 0 <= i < |entries| && entries[i].status != OnLeave ==>
               entries[i].enrolment !in ApprovedAmong(requests, session, Requested(entries))
    ensures forall i, r :: 0 <= i < |entries| && r in requests && requests[r].status == Leave.Approved
                           && requests[r].session == session && requests[r].enrolment == entries[i].enrolment ==>
              entries[i].status == OnLeave
  {
    forall i, r | 0 <= i < |entries| && r in requests && requests[r].status == Leave.Approved
                  && requests[r].session == session && requests[r].enrolment == entries[i].enrolment
      ensures entries[i].status == OnLeave
    {
      assert Grants(requests[r], Key(session, entries[i].enrolment));
      assert entries[i].enrolment in Requested(entries);
    }
  }

  class AttendanceBook {
    var rows: Rows
    var requests: Leave.Requests
    var enrolments: Leave.Enrolments

    function Verdict(session: Uuid, course: Uuid, entries: seq<Entry>): Option<Error>
      reads this
    {
      Plan(entries, ValidAmong(enrolments, course, Requested(entries)),
          ApprovedAmong(requests, session, Requested(entries)))
    }

    predicate Member(enrolment: Uuid, course: Uuid)
      reads this
    {
      enrolment in enrolments && enrolments[enrolment].active && enrolments[enrolment].course == course
    }

    /**
     * `mark_tx` and its caller's commit or roll-back. `during[i]` is the leave table upsert `i` sees:
     * other transactions may commit between the reads and each write.
     */
    method Mark(session: Uuid, course: Uuid, entries: seq<Entry>, during: seq<Leave.Requests>)
        returns (refusal: Option<Error>)
      requires |during| == |entries|
      modifies `rows
      ensures Verdict(session, course, entries).Some? ==> refusal == Verdict(session, course, entries)
      ensures Verdict(session, course, entries).None? ==>
                refusal == if exists i: nat :: BlockedAt(old(rows), session, entries, during, i)
                           then Some(ApprovedLeaveOverwrite) else None
      ensures rows == if refusal.None? then old(rows) + Marks(session, entries) else old(rows)
      // Nobody is marked who is not active in the course, and that is the first thing asked.
      ensures refusal == Some(NotMembers) <==>
                exists i :: 0 <= i < |entries| && !Member(entries[i].enrolment, course)
      // Nor anybody but as on leave whose leave from the session stands approved at the read.
      ensures refusal.None? ==>
                forall i, r :: 0 <= i < |entries| && r in requests && requests[r].status == Leave.Approved
                               && requests[r].session == session && requests[r].enrolment == entries[i].enrolment ==>
                  entries[i].status == OnLeave
      ensures refusal.None? || refusal == Some(NotMembers) || refusal == Some(ApprovedLeaveOverwrite)
    {
      var valid, approved := {}, {};
      if entries != [] {
        valid := ValidAmong(enrolments, course, Requested(entries));
        approved := ApprovedAmong(requests, session, Requested(entries));
      }
      var plan := Plan(entries, valid, approved);
      MembersAreValid(enrolments, course, entries);
      if plan.Some? {
        return plan;
      }
      NoneOverwrites(requests, session, entries);
      var written := rows;
      var i := 0;
      while i < |entries|
        invariant 0 <= i <= |entries|
        invariant rows == old(rows) && written == rows + Marks(session, entries[..i])
        invariant forall j :: 0 <= j < i ==> !BlockedAt(rows, session, entries, during, j)
      {
        var k := Key(session, entries[i].enrolment);
        GuardBlocks(rows, session, entries, during, i);
        if !Allowed(written, during[i], k, entries[i].status) {
          assert BlockedAt(rows, session, entries, during, i);
          return Some(ApprovedLeaveOverwrite);
        }
        MarksStep(session, entries, i);
        written := written[k := entries[i].status];
        i := i + 1;
      }
      assert entries[..i] == entries;
      rows := written;
      return None;
    }

    /** `project_approved_leave_tx`: writing `leave` always passes the guard. */
    method ProjectApprovedLeave(session: Uuid, enrolment: Uuid)
      modifies `rows
      ensures Allowed(old(rows), requests, Key(session, enrolment), OnLeave)
      ensures rows == old(rows) + Marks(session, [Entry(enrolment, OnLeave)])
    {
      rows := rows[Key(session, enrolment) := OnLeave];
    }
  }

  /** If no leave is approved meanwhile, a batch the plan admits is never blocked at the write point. */
  lemma PlanSuffices(rows: Rows, requests: Leave.Requests, enrolments: Leave.Enrolments, session: Uuid, course: Uuid,
                     entries: seq<Entry>, during: seq<Leave.Requests>, i: nat)
    requires |during| == |entries|
    requires Plan(entries, ValidAmong(enrolments, course, Requested(entries)),
                  ApprovedAmong(requests, session, Requested(entries))).None?
    requires BlockedAt(rows, session, entries, during, i)
    ensures !Approved(requests, Key(session, entries[i].enrolment))
            && Approved(during[i], Key(session, entries[i].enrolment))
  {
    assert entries[i].enrolment in Requested(entries);
    GuardBlocks(rows, session, entries, during, i);
  }
}
