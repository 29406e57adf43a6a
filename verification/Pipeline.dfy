/**
 * Outbox, broker and audit sink together: the two at-least-once halves compose to an effect that
 * happens exactly once.
 */
module Pipeline {
  import opened Common
  import opened Events
  import opened Consumer
  import Outbox
  import O = OutboxLease
  import C = ConsumerOffsets
  import ConsumerRuns

  datatype State = State(outbox: O.State, sink: C.State)

  datatype Action =
    | Dispatch(a: O.Action, idText: string)     // `idText` spells the event id of a delivered record
    | Consume(b: C.Action)
    | Foreign(p: C.Partition, payload: Payload) // a record some other producer wrote to the topics

  /** `payload` is what the producer put on the wire for `e`. */
  predicate IsWire(payload: Payload, e: Envelope) {
    && payload.Text? && C.HasOwnId(payload.body)
    && payload.body == Wire(e, payload.body.eventId.value.text)
  }

  /** The one audit row an event calls for. */
  function AuditRowOf(e: Envelope): AuditRow
  {
    WireDecodes(e, "", 0, "", 0);
    Decode(Wire(e, ""), 0).row
  }

  predicate IsEventId(rows: Outbox.Table, id: Uuid) {
    exists r :: r in rows && rows[r].payload.eventId == id
  }

  ghost predicate Carried(log: map<C.Partition, seq<Payload>>, id: Uuid) {
    exists p, payload :: p in log && payload in log[p] && C.Carries(payload, id)
  }

  ghost predicate Enabled(s: State, act: Action) {
    match act
    case Dispatch(a, idText) =>
      && O.Enabled(s.outbox, a)
      // Event ids are fresh: nobody has used them for anything.
      && (a.InsertEvent? ==> !Carried(s.sink.log, a.payload.eventId) && a.payload.eventId !in s.sink.minted)
      && (a.Deliver? ==>
            C.Enabled(s.sink, C.Append(a.partition, Text(Wire(s.outbox.sent[(a.d, a.id)], idText)))))
    case Consume(b) =>
      && !b.Append?
      && C.Enabled(s.sink, b)
      && forall id :: IsEventId(s.outbox.rows, id) ==> !C.MintOf(b, id)
    case Foreign(p, payload) =>
      && C.Enabled(s.sink, C.Append(p, payload))
      && forall id :: IsEventId(s.outbox.rows, id) ==> !C.Carries(payload, id)
  }

  function Do(s: State, act: Action): State
    requires Enabled(s, act)
  {
    match act
    case Dispatch(a, idText) =>
      State(O.Do(s.outbox, a),
            if a.Deliver? then
              C.Do(s.sink, C.Append(a.partition, Text(Wire(s.outbox.sent[(a.d, a.id)], idText))))
            else s.sink)
    case Consume(b) => s.(sink := C.Do(s.sink, b))
    case Foreign(p, payload) => s.(sink := C.Do(s.sink, C.Append(p, payload)))
  }

  ghost predicate Init(s: State) {
    O.Init(s.outbox) && C.Init(s.sink)
  }

  // --------------------------------------------------------------- invariant

  /** A record that carries the event id of an outbox row is that row's envelope. */
  ghost predicate RecordsAgree(s: State) {
    forall p, payload, r ::
      p in s.sink.log && payload in s.sink.log[p] && r in s.outbox.rows
      && C.Carries(payload, s.outbox.rows[r].payload.eventId)
      ==> IsWire(payload, s.outbox.rows[r].payload)
  }

  ghost predicate OnTopics(log: map<C.Partition, seq<Payload>>, e: Envelope) {
    exists p, payload :: p in log && payload in log[p] && IsWire(payload, e)
  }

  ghost predicate Linked(s: State) {
    && RecordsAgree(s)
    && (forall e :: O.OnLog(s.outbox.log, e) ==> OnTopics(s.sink.log, e))
    && (forall id :: id in s.sink.minted ==> !IsEventId(s.outbox.rows, id))
  }

  ghost predicate Safe(s: State) {
    O.Safe(s.outbox) && C.Safe(s.sink) && Linked(s)
  }

  lemma SinkMoves(s: State, act: Action)
    requires Safe(s) && Enabled(s, act)
    ensures C.Safe(Do(s, act).sink) && C.Grows(s.sink, Do(s, act).sink)
  {
    match act {
      case Dispatch(a, idText) =>
        if a.Deliver? {
          var append := C.Append(a.partition, Text(Wire(s.outbox.sent[(a.d, a.id)], idText)));
          C.SafeStep(s.sink, append);
          C.GrowsStep(s.sink, append);
        }
      case Consume(b) =>
        C.SafeStep(s.sink, b);
        C.GrowsStep(s.sink, b);
      case Foreign(p, payload) =>
        C.SafeStep(s.sink, C.Append(p, payload));
        C.GrowsStep(s.sink, C.Append(p, payload));
    }
  }

  /** The record an action appends, if it appends one. */
  function NewRecord(s: State, act: Action): Option<Payload>
    requires Enabled(s, act)
  {
    match act
    case Dispatch(a, idText) =>
      if a.Deliver? then Some(Text(Wire(s.outbox.sent[(a.d, a.id)], idText))) else None
    case Consume(_) => None
    case Foreign(_, payload) => Some(payload)
  }

  lemma LogGainsNewRecord(s: State, act: Action, p: C.Partition, payload: Payload)
    requires Enabled(s, act) && p in Do(s, act).sink.log && payload in Do(s, act).sink.log[p]
    ensures (p in s.sink.log && payload in s.sink.log[p]) || NewRecord(s, act) == Some(payload)
  {
    if act.Consume? {
      C.LogChangesByAppend(s.sink, act.b);
    }
  }

  /** A row of the new table is an old row, or the one just inserted. */
  lemma RowIsOldOrNew(s: State, act: Action, r: Uuid)
    requires Safe(s) && Enabled(s, act) && r in Do(s, act).outbox.rows
    ensures (r in s.outbox.rows && Do(s, act).outbox.rows[r].payload == s.outbox.rows[r].payload)
            || (act.Dispatch? && act.a.InsertEvent? && act.a.id == r && Do(s, act).sink == s.sink
                && Do(s, act).outbox.rows[r].payload == act.a.payload)
  {
    if act.Dispatch? {
      O.StepExtends(s.outbox, act.a);
      if act.a.Bookkeep? {
        O.KeysStay(s.outbox, act.a.d);
      }
    }
  }

  lemma RecordsStayAgreed(s: State, act: Action, p: C.Partition, payload: Payload, r: Uuid)
    requires Safe(s) && Enabled(s, act)
    requires p in Do(s, act).sink.log && payload in Do(s, act).sink.log[p] && r in Do(s, act).outbox.rows
    requires C.Carries(payload, Do(s, act).outbox.rows[r].payload.eventId)
    ensures IsWire(payload, Do(s, act).outbox.rows[r].payload)
  {
    RowIsOldOrNew(s, act, r);
    LogGainsNewRecord(s, act, p, payload);
    if r in s.outbox.rows {
      var e := s.outbox.rows[r].payload;
      assert IsEventId(s.outbox.rows, e.eventId);
      if !(p in s.sink.log && payload in s.sink.log[p]) {
        assert act.Dispatch? && act.a.Deliver?;
        assert (act.a.d, act.a.id) in s.outbox.sent;
        assert s.outbox.rows[act.a.id].payload.eventId == e.eventId;
        assert act.a.id == r;
      }
    }
  }

  lemma TopicsStayLinked(s: State, act: Action, e: Envelope)
    requires Safe(s) && Enabled(s, act) && O.OnLog(Do(s, act).outbox.log, e)
    ensures OnTopics(Do(s, act).sink.log, e)
  {
    var t := Do(s, act);
    SinkMoves(s, act);
    if O.OnLog(s.outbox.log, e) {
      var p, payload :| p in s.sink.log && payload in s.sink.log[p] && IsWire(payload, e);
      assert payload in C.Records(t.sink.log, p);
    } else {
      assert act.Dispatch? && act.a.Deliver? && e == s.outbox.sent[(act.a.d, act.a.id)];
      var record := Text(Wire(e, act.idText));
      var whole := C.Records(t.sink.log, act.a.partition);
      assert whole[|whole| - 1] == record && IsWire(record, e);
    }
  }

  lemma MintsStayApart(s: State, act: Action, id: Uuid)
    requires Safe(s) && Enabled(s, act) && id in Do(s, act).sink.minted
    ensures !IsEventId(Do(s, act).outbox.rows, id)
  {
    MintIsFresh(s, act, id);
    forall r | r in Do(s, act).outbox.rows ensures Do(s, act).outbox.rows[r].payload.eventId != id {
      RowIsOldOrNew(s, act, r);
    }
  }

  lemma MintIsFresh(s: State, act: Action, id: Uuid)
    requires Safe(s) && Enabled(s, act) && id in Do(s, act).sink.minted
    ensures !IsEventId(s.outbox.rows, id)
    ensures act.Dispatch? ==> id in s.sink.minted
  {
    match act {
      case Dispatch(a, idText) =>
        if a.Deliver? {
          C.MintedByHandlers(s.sink, C.Append(a.partition, Text(Wire(s.outbox.sent[(a.d, a.id)], idText))), id);
        }
      case Consume(b) => C.MintedByHandlers(s.sink, b, id);
      case Foreign(p, payload) => C.MintedByHandlers(s.sink, C.Append(p, payload), id);
    }
  }

  lemma SafeStep(s: State, act: Action)
    requires Safe(s) && Enabled(s, act)
    ensures Safe(Do(s, act))
  {
    var t := Do(s, act);
    if act.Dispatch? {
      O.SafeStep(s.outbox, act.a);
    }
    SinkMoves(s, act);
    forall p, payload, r | p in t.sink.log && payload in t.sink.log[p] && r in t.outbox.rows
                           && C.Carries(payload, t.outbox.rows[r].payload.eventId)
      ensures IsWire(payload, t.outbox.rows[r].payload)
    {
      RecordsStayAgreed(s, act, p, payload, r);
    }
    forall e | O.OnLog(t.outbox.log, e) ensures OnTopics(t.sink.log, e) {
      TopicsStayLinked(s, act, e);
    }
    forall id | id in t.sink.minted ensures !IsEventId(t.outbox.rows, id) {
      MintsStayApart(s, act, id);
    }
  }

  // -------------------------------------------------------------------- runs

  ghost predicate Run(s: State, acts: seq<Action>)
    decreases |acts|
  {
    acts == [] || (Enabled(s, acts[0]) && Run(Do(s, acts[0]), acts[1..]))
  }

  ghost function After(s: State, acts: seq<Action>): State
    requires Run(s, acts)
    decreases |acts|
  {
    if acts == [] then s else After(Do(s, acts[0]), acts[1..])
  }

  lemma {:induction false} PipelineIsSafe(s: State, acts: seq<Action>)
    requires Safe(s) && Run(s, acts)
    ensures Safe(After(s, acts))
    decreases |acts|
  {
    if acts != [] {
      SafeStep(s, acts[0]);
      PipelineIsSafe(Do(s, acts[0]), acts[1..]);
    }
  }

  // ---------------------------------------------------------- what it adds up to

  /** How often an event has been recorded. */
  function TimesRecorded(audit: seq<AuditRow>, id: Uuid): nat {
    if audit == [] then 0
    else TimesRecorded(audit[..|audit| - 1], id) + if audit[|audit| - 1].id == id then 1 else 0
  }

  lemma {:induction false} UniqueMeansAtMostOnce(audit: seq<AuditRow>, id: Uuid)
    requires UniqueIds(audit)
    ensures TimesRecorded(audit, id) == if HasId(audit, id) then 1 else 0
  {
    if audit != [] {
      var n := |audit| - 1;
      UniqueMeansAtMostOnce(audit[..n], id);
      if HasId(audit[..n], id) {
        var k :| 0 <= k < n && audit[..n][k].id == id;
        assert audit[k].id == id && audit[n].id != id;
      } else {
        assert forall k :: 0 <= k < n ==> audit[k] == audit[..n][k];
      }
    }
  }

  lemma RowOfEvent(payload: Payload, row: AuditRow, e: Envelope)
    requires C.DecodesTo(payload, row) && IsWire(payload, e)
    ensures row == AuditRowOf(e)
  {
    WireDecodes(e, payload.body.eventId.value.text, row.id, "", 0);
  }

  /**
   * Provenance: the audit row under an outbox event's id is exactly that event's row, and every
   * other audit row decodes from a record that no outbox row's payload accounts for.
   */
  lemma AuditRowsComeFromTheOutbox(s0: State, acts: seq<Action>, row: AuditRow)
    requires Init(s0) && Run(s0, acts) && row in After(s0, acts).sink.audit
    ensures var s := After(s0, acts);
            && (forall r :: r in s.outbox.rows && s.outbox.rows[r].payload.eventId == row.id ==>
                  row == AuditRowOf(s.outbox.rows[r].payload))
            && ((exists r :: r in s.outbox.rows && row == AuditRowOf(s.outbox.rows[r].payload))
                || FromElsewhere(s, row))
  {
    PipelineIsSafe(s0, acts);
    Provenance(After(s0, acts), row);
  }

  ghost predicate FromElsewhere(s: State, row: AuditRow) {
    exists p, payload ::
      p in s.sink.log && payload in s.sink.log[p] && C.DecodesTo(payload, row)
      && forall r :: r in s.outbox.rows ==> !IsWire(payload, s.outbox.rows[r].payload)
  }

  lemma Provenance(s: State, row: AuditRow)
    requires Safe(s) && row in s.sink.audit
    ensures forall r :: r in s.outbox.rows && s.outbox.rows[r].payload.eventId == row.id ==>
                          row == AuditRowOf(s.outbox.rows[r].payload)
    ensures (exists r :: r in s.outbox.rows && row == AuditRowOf(s.outbox.rows[r].payload)) || FromElsewhere(s, row)
  {
    assert C.FromRecord(s.sink.log, s.sink.minted, row);
    var p, payload :|
      p in s.sink.log && payload in s.sink.log[p] && C.DecodesTo(payload, row)
      && (C.Carries(payload, row.id) || row.id in s.sink.minted);
    forall r | r in s.outbox.rows && s.outbox.rows[r].payload.eventId == row.id
      ensures row == AuditRowOf(s.outbox.rows[r].payload)
    {
      assert IsEventId(s.outbox.rows, row.id);
      RowOfEvent(payload, row, s.outbox.rows[r].payload);
    }
    if r :| r in s.outbox.rows && IsWire(payload, s.outbox.rows[r].payload) {
      RowOfEvent(payload, row, s.outbox.rows[r].payload);
    }
  }

  /** The record at `(p, o)` carries the payload of outbox row `r`. */
  ghost predicate RecordOf(s: State, p: C.Partition, o: nat, r: Uuid) {
    && r in s.outbox.rows
    && o < |C.Records(s.sink.log, p)|
    && IsWire(C.Records(s.sink.log, p)[o], s.outbox.rows[r].payload)
  }

  /**
   * The exactly-once effect: once an event's record lies below a committed offset, then however
   * often it was published, delivered, retried and redelivered, the audit log holds its row exactly
   * once with the event's own content -- unless the sink last gave the record up after five
   * transient database failures, and even then at most once. It is never dropped for any other reason.
   */
  lemma ExactlyOnceEffect(s0: State, acts: seq<Action>, p: C.Partition, o: nat, r: Uuid)
    requires Init(s0) && Run(s0, acts)
    requires RecordOf(After(s0, acts), p, o, r) && o < C.At(After(s0, acts).sink.committed, p)
    ensures var s := After(s0, acts);
            var e := s.outbox.rows[r].payload;
            && (p, o) in s.sink.fates
            && (if s.sink.fates[(p, o)] == C.GaveUp(5) then TimesRecorded(s.sink.audit, e.eventId) <= 1
                else TimesRecorded(s.sink.audit, e.eventId) == 1)
            && (HasId(s.sink.audit, e.eventId) ==> AuditRowOf(e) in s.sink.audit)
  {
    PipelineIsSafe(s0, acts);
    var s := After(s0, acts);
    var e := s.outbox.rows[r].payload;
    var payload := C.Records(s.sink.log, p)[o];
    assert C.Resolves(s.sink, p, C.At(s.sink.committed, p));
    assert C.FateOk(s.sink, p, o);
    WireDecodes(e, payload.body.eventId.value.text, 0, payload.body.eventId.value.text, e.eventId);
    UniqueMeansAtMostOnce(s.sink.audit, e.eventId);
    if HasId(s.sink.audit, e.eventId) {
      var k :| 0 <= k < |s.sink.audit| && s.sink.audit[k].id == e.eventId;
      Provenance(s, s.sink.audit[k]);
    }
  }

  /**
   * Nothing is lost on the way: every committed event is either unpublished and due within the
   * hour, or marked published and then on a topic.
   */
  lemma CommittedEventsAreNotLost(s0: State, acts: seq<Action>, r: Uuid)
    requires Init(s0) && Run(s0, acts) && r in After(s0, acts).outbox.rows
    ensures var s := After(s0, acts);
            if s.outbox.rows[r].publishedAt.None?
            then s.outbox.rows[r].nextAttemptAt <= s.outbox.now + Outbox.MAX_RETRY_DELAY
            else exists p, o :: RecordOf(s, p, o, r)
  {
    PipelineIsSafe(s0, acts);
    var s := After(s0, acts);
    assert O.RowOk(s.outbox, r);
    if s.outbox.rows[r].publishedAt.Some? {
      assert OnTopics(s.sink.log, s.outbox.rows[r].payload);
      var p, payload :| p in s.sink.log && payload in s.sink.log[p] && IsWire(payload, s.outbox.rows[r].payload);
      var o :| 0 <= o < |s.sink.log[p]| && s.sink.log[p][o] == payload;
      assert RecordOf(s, p, o, r);
    }
  }

  /** A row once inserted keeps its payload, and once published stays published, over any run. */
  lemma {:induction false} PublishedStaysPublished(s: State, acts: seq<Action>, r: Uuid)
    requires Safe(s) && Run(s, acts) && r in s.outbox.rows
    ensures r in After(s, acts).outbox.rows
    ensures After(s, acts).outbox.rows[r].payload == s.outbox.rows[r].payload
    ensures s.outbox.rows[r].publishedAt.Some? ==> After(s, acts).outbox.rows[r].publishedAt.Some?
    decreases |acts|
  {
    if acts != [] {
      SafeStep(s, acts[0]);
      if acts[0].Dispatch? {
        O.StepExtends(s.outbox, acts[0].a);
      }
      PublishedStaysPublished(Do(s, acts[0]), acts[1..], r);
    }
  }

  // ------------------------------------------------------- nothing gets stuck

  lemma {:induction false} RunConcat(s: State, a: seq<Action>, b: seq<Action>)
    requires Run(s, a) && Run(After(s, a), b)
    ensures Run(s, a + b) && After(s, a + b) == After(After(s, a), b)
    decreases |a|
  {
    if a == [] {
      assert a + b == b;
    } else {
      RunConcat(Do(s, a[0]), a[1..], b);
      assert (a + b)[1..] == a[1..] + b;
    }
  }

  /** Steps of the outbox that neither insert nor deliver are steps of the whole, and the sink does not notice. */
  lemma {:induction false} DispatchRuns(s: State, acts: seq<O.Action>) returns (lifted: seq<Action>)
    requires O.Run(s.outbox, acts) && forall a :: a in acts ==> !a.InsertEvent? && !a.Deliver?
    ensures Run(s, lifted) && After(s, lifted) == State(O.After(s.outbox, acts), s.sink)
    decreases |acts|
  {
    if acts == [] {
      return [];
    }
    var act := Dispatch(acts[0], "");
    assert acts[0] in acts && forall a :: a in acts[1..] ==> a in acts;
    assert Enabled(s, act) && Do(s, act) == State(O.Do(s.outbox, acts[0]), s.sink);
    var rest := DispatchRuns(Do(s, act), acts[1..]);
    lifted := [act] + rest;
    assert lifted[1..] == rest;
  }

  /** Steps of the sink are steps of the whole if they make up no event's id. */
  lemma {:induction false} ConsumeRuns(s: State, acts: seq<C.Action>) returns (lifted: seq<Action>)
    requires C.Run(s.sink, acts)
    requires forall b :: b in acts ==> !b.Append? && forall id :: IsEventId(s.outbox.rows, id) ==> !C.MintOf(b, id)
    ensures Run(s, lifted) && After(s, lifted) == State(s.outbox, C.After(s.sink, acts))
    decreases |acts|
  {
    if acts == [] {
      return [];
    }
    var act := Consume(acts[0]);
    assert acts[0] in acts && forall b :: b in acts[1..] ==> b in acts;
    var rest := ConsumeRuns(Do(s, act), acts[1..]);
    lifted := [act] + rest;
    assert lifted[1..] == rest;
  }

  /** A delivery puts the event's record at the end of the partition's log. */
  lemma DeliveryRuns(s: State, d: O.DrainId, r: Uuid, p: C.Partition)
    requires Safe(s) && (d, r) in s.outbox.sent
    ensures Enabled(s, Dispatch(O.Deliver(d, r, p), ""))
    ensures var t := Do(s, Dispatch(O.Deliver(d, r, p), ""));
            && t.outbox == O.Do(s.outbox, O.Deliver(d, r, p))
            && t.sink == s.sink.(log := s.sink.log[p := C.Records(s.sink.log, p)
                                                        + [Text(Wire(s.outbox.sent[(d, r)], ""))]])
  {
    var e := s.outbox.sent[(d, r)];
    assert r in s.outbox.rows && s.outbox.rows[r].payload == e;
    assert IsEventId(s.outbox.rows, e.eventId);
  }

  /** The committed offset is no further than the log. */
  lemma CommittedIsOnLog(s: C.State, p: C.Partition)
    requires C.Safe(s)
    ensures C.At(s.committed, p) <= |C.Records(s.log, p)|
  {
    var n := C.At(s.committed, p);
    if n > 0 {
      assert C.FateOk(s, p, n - 1);
    }
  }

  /**
   * No event gets stuck anywhere: from every reachable state, whatever drains, members and faults
   * there have been, some run publishes an unpublished event on whatever partition and records it
   * in the audit log.
   */
  lemma EveryEventCanBeRecorded(s: State, r: Uuid, p: C.Partition) returns (acts: seq<Action>)
    requires Safe(s) && r in s.outbox.rows && s.outbox.rows[r].publishedAt.None?
    ensures Run(s, acts)
    ensures r in After(s, acts).outbox.rows && After(s, acts).outbox.rows[r].publishedAt.Some?
    ensures HasId(After(s, acts).sink.audit, s.outbox.rows[r].payload.eventId)
  {
    var e := s.outbox.rows[r].payload;
    var published := PublishingRuns(s, r, p);
    var t := After(s, published);
    CommittedIsOnLog(s.sink, p);
    WireIsNamed(e);
    var eventIds := set q | q in t.outbox.rows :: t.outbox.rows[q].payload.eventId;
    var x := Unused(t.sink.members.Keys);
    var read := ConsumerRuns.NewcomerReadsThrough(t.sink, x, p, |C.Records(s.sink.log, p)|, e.eventId, eventIds);
    var lifted := ConsumeRuns(t, read);
    RunConcat(s, published, lifted);
    acts := published + lifted;
  }

  lemma WireIsNamed(e: Envelope)
    ensures ConsumerRuns.Names(Text(Wire(e, "")), e.eventId)
  {
    forall mint ensures Decode(Wire(e, ""), mint).Row? {
      WireDecodes(e, "", mint, "", mint);
    }
  }

  lemma PublishingRuns(s: State, r: Uuid, p: C.Partition) returns (acts: seq<Action>)
    requires Safe(s) && r in s.outbox.rows && s.outbox.rows[r].publishedAt.None?
    ensures Run(s, acts)
    ensures var t := After(s, acts);
            && r in t.outbox.rows && t.outbox.rows[r].publishedAt.Some?
            && t.sink == s.sink.(log := s.sink.log[p := C.Records(s.sink.log, p)
                                                        + [Text(Wire(s.outbox.rows[r].payload, ""))]])
  {
    var d := Unused(s.outbox.started);
    O.SendingRuns(s.outbox, d, r);
    var sent := DispatchRuns(s, O.Sending(s.outbox, d, r));
    PipelineIsSafe(s, sent);
    var t := After(s, sent);
    var deliver := Dispatch(O.Deliver(d, r, p), "");
    DeliveryRuns(t, d, r, p);
    var u := Do(t, deliver);
    O.BookingRuns(u.outbox, d, Outbox.AsClaimed(s.outbox.rows, r));
    var booked := DispatchRuns(u, [O.Acknowledge(d)] + ([O.Bookkeep(d)] + []));
    assert ([deliver] + booked)[1..] == booked;
    RunConcat(s, sent, [deliver] + booked);
    acts := sent + ([deliver] + booked);
  }
}
