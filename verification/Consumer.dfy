/** The audit sink's consumer loop: decoding, in-place retries with backoff, commit after handling. */
module Consumer {
  import opened Common
  import opened Events

  // ------------------------------------------------------- what one record says

  /** A record's text, parsed: not JSON at all, or a value `get` reads these members from. */
  datatype Body = NotJson | Event(eventId: Option<Json>, eventType: Option<Json>, data: Option<Data>)

  datatype Payload = Empty | NotUtf8 | Text(body: Body)

  /** A row of `audit_log`, without its insertion time. */
  datatype AuditRow = AuditRow(
    id: Uuid,
    userId: Option<Uuid>,
    action: string,
    resource: string,
    resourceId: Option<Uuid>,
    newValue: Data)

  datatype Decoded = Poisoned | Row(row: AuditRow)

  function UuidField(data: Option<Data>, field: string): Option<Uuid> {
    match data
    case Some(Object(fields)) =>
      if field in fields && fields[field].Str? then fields[field].uuid else None
    case _ => None
  }

  function TextField(data: Option<Data>, field: string, default: string): string {
    match data
    case Some(Object(fields)) =>
      if field in fields && fields[field].Str? then fields[field].text else default
    case _ => default
  }

  /** `event_row_id`: the envelope's own id when it parses, else the freshly minted one. */
  function EventRowId(body: Body, mint: Uuid): Uuid
    requires body.Event?
  {
    match body.eventId
    case Some(Str(_, Some(id))) => id
    case _ => mint
  }

  /** The decoding half of `handle_audit_event`. */
  function Decode(body: Body, mint: Uuid): Decoded {
    match body
    case NotJson => Poisoned
    case Event(_, eventType, data) =>
      match eventType
      case Some(Str(action, _)) =>
        var (resource, resourceId) := match SpecForEventType(action)
          case Some(spec) => (spec.resource, UuidField(data, spec.idField))
          case None => (TextField(data, "resource", "audit"), UuidField(data, "resource_id"));
        var newValue := match data case Some(d) => d case None => Object(map[]);
        Row(AuditRow(EventRowId(body, mint), UuidField(data, "user_id"), action, resource, resourceId, newValue))
      case _ => Poisoned
  }

  /** Member `name` of the event's data is a string that reads as the UUID `id`. */
  predicate Says(data: Option<Data>, name: string, id: Uuid) {
    && data.Some? && data.value.Object? && name in data.value.fields
    && data.value.fields[name].Str? && data.value.fields[name].uuid == Some(id)
  }

  /** Member `name` of the event's data is the string `text`. */
  predicate Spells(data: Option<Data>, name: string, text: string) {
    && data.Some? && data.value.Object? && name in data.value.fields
    && data.value.fields[name].Str? && data.value.fields[name].text == text
  }

  /** What a listed event is about, and the member that says which one. */
  predicate Listed(eventType: string, resource: string, idField: string) {
    || ((eventType == "order_created" || eventType == "order_status_changed")
        && resource == "order" && idField == "order_id")
    || ((eventType == "booking_created" || eventType == "booking_cancelled")
        && resource == "booking" && idField == "booking_id")
    || (eventType == "user_registered" && resource == "user" && idField == "user_id")
  }

  /** The table holds these five and no others. */
  lemma TableIsListed(eventType: string)
    ensures SpecForEventType(eventType).Some? ==>
              var spec := SpecForEventType(eventType).value; Listed(eventType, spec.resource, spec.idField)
    ensures forall resource, idField :: Listed(eventType, resource, idField) ==>
              SpecForEventType(eventType) == Some(EventSpec(eventType, resource, idField))
  {
    forall k: nat | k < |ALL_SPECS| && ALL_SPECS[k].eventType == eventType
      ensures SpecForEventType(eventType) == Some(ALL_SPECS[k])
    {
      SpecFound(k);
    }
    FoundIsListed(ALL_SPECS, eventType);
    assert ALL_SPECS[0].eventType == "order_created" && ALL_SPECS[1].eventType == "order_status_changed";
    assert ALL_SPECS[2].eventType == "booking_created" && ALL_SPECS[3].eventType == "booking_cancelled";
    assert ALL_SPECS[4].eventType == "user_registered";
  }

  lemma {:induction false} FoundIsListed(specs: seq<EventSpec>, eventType: string)
    ensures FindSpec(specs, eventType).Some? ==>
              FindSpec(specs, eventType).value in specs && FindSpec(specs, eventType).value.eventType == eventType
  {
    if specs != [] {
      FoundIsListed(specs[1..], eventType);
    }
  }

  /** An event without a type, and what is no JSON, is poison; nothing else is. */
  lemma PoisonIsUntyped(body: Body, mint: Uuid)
    ensures Decode(body, mint).Poisoned? <==> body.NotJson? || body.eventType.None? || !body.eventType.value.Str?
  {
  }

  /**
   * Whom and what an audit row is about, read off the event's own members: the user it names, and
   * for a listed type the table's resource with the id its own member names; for any other type
   * the resource it spells out, or "audit", with its `resource_id`.
   */
  lemma RowSaysWhatTheEventSays(body: Body, mint: Uuid, id: Uuid, text: string)
    requires Decode(body, mint).Row?
    ensures var row := Decode(body, mint).row; var action := body.eventType.value.text;
            && row.action == action
            && (row.userId == Some(id) <==> Says(body.data, "user_id", id))
            && (forall resource, idField :: Listed(action, resource, idField) ==>
                  row.resource == resource && (row.resourceId == Some(id) <==> Says(body.data, idField, id)))
            && ((forall resource, idField :: !Listed(action, resource, idField)) ==>
                  && (row.resourceId == Some(id) <==> Says(body.data, "resource_id", id))
                  && (Spells(body.data, "resource", text) ==> row.resource == text)
                  && ((forall other :: !Spells(body.data, "resource", other)) ==> row.resource == "audit"))
            && (body.data.Some? ==> row.newValue == body.data.value)
            && (body.data.None? ==> row.newValue == Object(map[]))
  {
    var action := body.eventType.value.text;
    TableIsListed(action);
    if SpecForEventType(action).None? {
      TextIsSpelt(body.data, "resource", "audit");
    }
  }

  lemma TextIsSpelt(data: Option<Data>, name: string, default: string)
    ensures Spells(data, name, TextField(data, name, default))
            || (TextField(data, name, default) == default && forall text :: !Spells(data, name, text))
  {
  }

  /** The row's key: the event's own id if it reads as one, and otherwise the id made up for it. */
  lemma RowKey(body: Body, mint: Uuid)
    requires Decode(body, mint).Row?
    ensures Decode(body, mint).row.id ==
            if body.eventId.Some? && body.eventId.value.Str? && body.eventId.value.uuid.Some?
            then body.eventId.value.uuid.value else mint
  {
  }

  /** A decoded row determines itself: decoding again under its own id gives the same row. */
  lemma DecodeByRowId(body: Body, mint: Uuid)
    requires Decode(body, mint).Row?
    ensures Decode(body, Decode(body, mint).row.id) == Decode(body, mint)
  {
  }

  /** The producer's serialization of an envelope. */
  function Wire(e: Envelope, idText: string): Body {
    Event(Some(Str(idText, Some(e.eventId))), Some(Str(e.eventType, None)), Some(e.data))
  }

  /**
   * Producer and sink agree: an envelope decodes to one row, keyed by its event id whatever id is
   * minted and however the text spells it, and described through the producer's own table entry.
   */
  lemma WireDecodes(e: Envelope, idText: string, mint: Uuid, otherText: string, other: Uuid)
    ensures Decode(Wire(e, idText), mint) == Decode(Wire(e, otherText), other)
    ensures Decode(Wire(e, idText), mint).Row?
    ensures var row := Decode(Wire(e, idText), mint).row;
            && row.id == e.eventId
            && row.action == e.eventType
            && row.newValue == e.data
            && forall k :: 0 <= k < |ALL_SPECS| && ALL_SPECS[k].eventType == e.eventType ==>
                 row.resource == ALL_SPECS[k].resource
                 && row.resourceId == UuidField(Some(e.data), ALL_SPECS[k].idField)
  {
    forall k | 0 <= k < |ALL_SPECS| && ALL_SPECS[k].eventType == e.eventType
      ensures SpecForEventType(e.eventType) == Some(ALL_SPECS[k])
    {
      SpecFound(k);
    }
  }

  /** No event type is listed twice, so each entry is found under its own type. */
  lemma SpecFound(k: nat)
    requires k < |ALL_SPECS|
    ensures SpecForEventType(ALL_SPECS[k].eventType) == Some(ALL_SPECS[k])
  {
    var types := ["order_created", "order_status_changed", "booking_created", "booking_cancelled", "user_registered"];
    assert types[0][6] == 'c' && types[1][6] == 's';
    assert |types[2]| == 15 && |types[3]| == 17 && |types[4]| == 15;
    assert types[2][0] == 'b' && types[4][0] == 'u' && types[0][0] == 'o' && types[1][0] == 'o' && types[3][0] == 'b';
    FindSpecAt(ALL_SPECS, k);
  }

  lemma {:induction false} FindSpecAt(specs: seq<EventSpec>, k: nat)
    requires k < |specs|
    requires forall j :: 0 <= j < k ==> specs[j].eventType != specs[k].eventType
    ensures FindSpec(specs, specs[k].eventType) == Some(specs[k])
  {
    if k > 0 {
      FindSpecAt(specs[1..], k - 1);
    }
  }

  // ------------------------------------------------------------- the audit log

  predicate HasId(rows: seq<AuditRow>, id: Uuid) {
    exists k :: 0 <= k < |rows| && rows[k].id == id
  }

  /** `INSERT ... ON CONFLICT (id) DO NOTHING`. */
  function Insert(rows: seq<AuditRow>, row: AuditRow): seq<AuditRow> {
    if HasId(rows, row.id) then rows else rows + [row]
  }

  ghost predicate UniqueIds(rows: seq<AuditRow>) {
    forall i, j :: 0 <= i < j < |rows| ==> rows[i].id != rows[j].id
  }

  /** Inserting is idempotent: a second delivery changes nothing, in whatever order it comes. */
  lemma InsertIsIdempotent(rows: seq<AuditRow>, row: AuditRow, between: seq<AuditRow>)
    requires Insert(rows, row) <= between
    ensures Insert(between, row) == between
    ensures HasId(Insert(rows, row), row.id)
  {
    var once := Insert(rows, row);
    if !HasId(rows, row.id) {
      assert once[|rows|].id == row.id;
    }
    var k :| 0 <= k < |once| && once[k].id == row.id;
    assert between[k].id == row.id;
  }

  /** How a handler call ends; a database error is transient whether or not the row got in. */
  datatype HandlerResult = Done | Poison | Transient

  /** What the database does with the INSERT of one call. */
  datatype Database = Accepts | FailsAfterInsert | FailsBeforeInsert

  class AuditLog {
    var rows: seq<AuditRow>

    constructor ()
      ensures rows == []
    {
      rows := [];
    }

    method HandleAuditEvent(body: Body, mint: Uuid, db: Database) returns (result: HandlerResult)
      requires UniqueIds(rows)
      modifies this
      ensures UniqueIds(rows) && old(rows) <= rows
      ensures result.Poison? <==> Decode(body, mint).Poisoned?
      ensures result.Poison? <==> body.NotJson? || body.eventType.None? || !body.eventType.value.Str?
      ensures result.Poison? ==> rows == old(rows)
      ensures Decode(body, mint).Row? ==>
                && (result.Done? <==> db.Accepts?)
                && rows == if db.FailsBeforeInsert? then old(rows) else Insert(old(rows), Decode(body, mint).row)
      ensures result.Done? ==> HasId(rows, Decode(body, mint).row.id)
    {
      PoisonIsUntyped(body, mint);
      match Decode(body, mint) {
        case Poisoned => result := Poison;
        case Row(row) =>
          if db.FailsBeforeInsert? {
            return Transient;
          }
          InsertIsIdempotent(rows, row, Insert(rows, row));
          rows := Insert(rows, row);
          result := if db.Accepts? then Done else Transient;
      }
    }
  }

  // ---------------------------------------------------------------- the loop

  const MAX_ATTEMPTS: nat := 5

  /** What the environment does while one message is in the loop. */
  datatype Script = Script(
    stopBefore: bool,               // shutdown is seen before the message is taken
    outcomes: seq<HandlerResult>,   // of the handler calls, in order
    stops: seq<bool>,               // shutdown during the backoff after each call
    commitOk: bool)

  predicate Complete(script: Script) {
    |script.outcomes| == MAX_ATTEMPTS && |script.stops| == MAX_ATTEMPTS
  }

  datatype Message = Message(offset: nat, payload: Payload)

  datatype Resolution = Commit | Shutdown

  datatype Step =
    | Handled(offset: nat)
    | Slept(seconds: nat)
    | Interrupted(seconds: nat)     // a backoff that shutdown cut short
    | CommitTried(offset: nat, ok: bool)

  /** Call `k` is the last one: it did not fail transiently, or it was the fifth. */
  predicate Settles(script: Script, k: nat)
    requires Complete(script) && 1 <= k <= MAX_ATTEMPTS
  {
    !script.outcomes[k - 1].Transient? || k == MAX_ATTEMPTS
  }

  /** The loop ends with call `k`, settled or interrupted in the backoff that follows. */
  predicate Ends(script: Script, k: nat)
    requires Complete(script) && 1 <= k <= MAX_ATTEMPTS
  {
    Settles(script, k) || script.stops[k - 1]
  }

  /** The number of handler calls a message gets: up to the first that ends the loop. */
  function FirstEnd(script: Script, from: nat): (k: nat)
    requires Complete(script) && 1 <= from <= MAX_ATTEMPTS
    ensures from <= k <= MAX_ATTEMPTS && Ends(script, k)
    ensures forall j :: from <= j < k ==> !Ends(script, j)
    decreases MAX_ATTEMPTS - from
  {
    if Ends(script, from) then from else FirstEnd(script, from + 1)
  }

  function CallCount(msg: Message, script: Script): (k: nat)
    requires Complete(script)
    ensures k <= MAX_ATTEMPTS && (k == 0 <==> !msg.payload.Text?)
  {
    if msg.payload.Text? then FirstEnd(script, 1) else 0
  }

  /** `k` handler calls with the backoffs between them. */
  function Calls(offset: nat, k: nat): seq<Step> {
    if k == 0 then []
    else if k == 1 then [Handled(offset)]
    else Calls(offset, k - 1) + [Slept(Pow2(k - 2)), Handled(offset)]
  }

  /** Shutdown wins in the backoff after the last call. */
  predicate CutShort(msg: Message, script: Script)
    requires Complete(script)
  {
    var k := CallCount(msg, script);
    k > 0 && !Settles(script, k)
  }

  function Backoff(steps: seq<Step>): nat {
    if steps == [] then 0
    else Backoff(steps[..|steps| - 1])
         + match steps[|steps| - 1] case Slept(t) => t case _ => 0
  }

  lemma BackoffOfOneMore(steps: seq<Step>, last: Step)
    ensures Backoff(steps + [last]) == Backoff(steps) + match last case Slept(t) => t case _ => 0
  {
    assert (steps + [last])[..|steps|] == steps;
  }

  /** `k` calls wait `2^(k-1) - 1` seconds in all: 0, 1, 3, 7, 15. */
  lemma {:induction false} CallsBackOff(offset: nat, k: nat)
    requires k >= 1
    ensures Backoff(Calls(offset, k)) == Pow2(k - 1) - 1
  {
    if k == 1 {
      BackoffOfOneMore([], Handled(offset));
      assert [] + [Handled(offset)] == [Handled(offset)];
    } else {
      CallsBackOff(offset, k - 1);
      BackoffOfOneMore(Calls(offset, k - 1), Slept(Pow2(k - 2)));
      BackoffOfOneMore(Calls(offset, k - 1) + [Slept(Pow2(k - 2))], Handled(offset));
      assert Calls(offset, k) == Calls(offset, k - 1) + [Slept(Pow2(k - 2))] + [Handled(offset)];
    }
  }

  /**
   * Read off the script alone: shutdown is first seen in the backoff after call `k`, when all of the
   * calls so far have failed transiently and another one was due.
   */
  ghost predicate StoppedAfter(msg: Message, script: Script, k: nat)
    requires Complete(script)
  {
    && msg.payload.Text? && 1 <= k < 5
    && (forall j :: 0 <= j < k ==> script.outcomes[j].Transient?)
    && script.stops[k - 1] && forall j :: 0 <= j < k - 1 ==> !script.stops[j]
  }

  lemma {:induction false} StopIsTheEnd(msg: Message, script: Script, k: nat, from: nat)
    requires Complete(script) && StoppedAfter(msg, script, k) && 1 <= from <= k
    ensures FirstEnd(script, from) == k
    decreases k - from
  {
    if from < k {
      StopIsTheEnd(msg, script, k, from + 1);
    }
  }

  /** The loop is cut short exactly there. */
  lemma CutShortIsStopped(msg: Message, script: Script)
    requires Complete(script)
    ensures forall k :: StoppedAfter(msg, script, k) ==> CutShort(msg, script) && CallCount(msg, script) == k
    ensures CutShort(msg, script) ==> StoppedAfter(msg, script, CallCount(msg, script))
  {
    if CutShort(msg, script) {
      forall j | 0 <= j < CallCount(msg, script) - 1 ensures script.outcomes[j].Transient? && !script.stops[j] {
        assert !Ends(script, j + 1);
      }
    }
    forall k | StoppedAfter(msg, script, k) ensures CallCount(msg, script) == k {
      StopIsTheEnd(msg, script, k, 1);
    }
  }

  /** What is left of a message the shutdown cut short: its calls, the backoff that was broken off, and no commit. */
  predicate BrokenOff(steps: seq<Step>, offset: nat, k: nat) {
    && steps != [] && k > 0 && steps[|steps| - 1] == Interrupted(Pow2(k - 1))
    && CallsOf(steps, offset) == k
    && forall i :: 0 <= i < |steps| ==> !steps[i].CommitTried?
  }

  lemma CallsThenInterruption(offset: nat, k: nat)
    requires k > 0
    ensures BrokenOff(Calls(offset, k) + [Interrupted(Pow2(k - 1))], offset, k)
  {
    CallsOfCalls(offset, k, offset);
    NoCommitAmongCalls(offset, k);
    var steps := Calls(offset, k) + [Interrupted(Pow2(k - 1))];
    assert steps[..|steps| - 1] == Calls(offset, k);
  }

  method Resolve(msg: Message, script: Script) returns (resolution: Resolution, steps: seq<Step>)
    requires Complete(script)
    ensures resolution.Shutdown? <==> exists k :: StoppedAfter(msg, script, k)
    ensures forall k :: StoppedAfter(msg, script, k) ==> BrokenOff(steps, msg.offset, k)
    ensures resolution.Shutdown? <==> CutShort(msg, script)
    ensures var k := CallCount(msg, script);
            steps == Calls(msg.offset, k) + (if CutShort(msg, script) then [Interrupted(Pow2(k - 1))] else [])
  {
    CutShortIsStopped(msg, script);
    if CutShort(msg, script) {
      CallsThenInterruption(msg.offset, CallCount(msg, script));
    }
    steps := [];
    if !msg.payload.Text? {
      return Commit, steps;
    }
    var attempt := 1;
    while true
      invariant 1 <= attempt <= MAX_ATTEMPTS
      invariant CallCount(msg, script) == FirstEnd(script, attempt)
      invariant steps + [Handled(msg.offset)] == Calls(msg.offset, attempt)
      decreases MAX_ATTEMPTS - attempt
    {
      steps := steps + [Handled(msg.offset)];
      var result := script.outcomes[attempt - 1];
      if !result.Transient? || attempt >= MAX_ATTEMPTS {
        return Commit, steps;
      }
      if script.stops[attempt - 1] {
        return Shutdown, steps + [Interrupted(Pow2(attempt - 1))];
      }
      steps := steps + [Slept(Pow2(attempt - 1))];
      attempt := attempt + 1;
    }
  }

  /** One message that is taken and resolved: its calls, then exactly one commit attempt. */
  function Segment(msg: Message, script: Script): seq<Step>
    requires Complete(script)
  {
    Calls(msg.offset, CallCount(msg, script)) + [CommitTried(msg.offset, script.commitOk)]
  }

  function Segments(msgs: seq<Message>, scripts: seq<Script>, n: nat): seq<Step>
    requires n <= |msgs| == |scripts| && forall s :: s in scripts ==> Complete(s)
  {
    if n == 0 then [] else Segments(msgs, scripts, n - 1) + Segment(msgs[n - 1], scripts[n - 1])
  }

  /** Messages before the `n`-th go all the way through the loop. */
  ghost predicate PassThrough(msgs: seq<Message>, scripts: seq<Script>, n: nat)
    requires n <= |msgs| == |scripts| && forall s :: s in scripts ==> Complete(s)
  {
    forall i :: 0 <= i < n ==> !scripts[i].stopBefore && !CutShort(msgs[i], scripts[i])
  }

  /** The offsets whose commits a trace tries, in order. */
  function Committed(steps: seq<Step>): seq<nat> {
    if steps == [] then []
    else Committed(steps[..|steps| - 1])
         + match steps[|steps| - 1] case CommitTried(offset, _) => [offset] case _ => []
  }

  function Offsets(msgs: seq<Message>): seq<nat> {
    if msgs == [] then [] else Offsets(msgs[..|msgs| - 1]) + [msgs[|msgs| - 1].offset]
  }

  lemma {:induction false} CommittedConcat(a: seq<Step>, b: seq<Step>)
    ensures Committed(a + b) == Committed(a) + Committed(b)
    decreases |b|
  {
    if b == [] {
      assert a + b == a;
    } else {
      CommittedConcat(a, b[..|b| - 1]);
      assert (a + b)[..|a + b| - 1] == a + b[..|b| - 1];
    }
  }

  lemma {:induction false} NoneCommitted(steps: seq<Step>)
    requires forall i :: 0 <= i < |steps| ==> !steps[i].CommitTried?
    ensures Committed(steps) == []
  {
    if steps != [] {
      NoneCommitted(steps[..|steps| - 1]);
    }
  }

  lemma SegmentCommits(msg: Message, script: Script)
    requires Complete(script)
    ensures Committed(Segment(msg, script)) == [msg.offset]
  {
    var calls := Calls(msg.offset, CallCount(msg, script));
    NoCommitAmongCalls(msg.offset, CallCount(msg, script));
    NoneCommitted(calls);
    assert Segment(msg, script)[..|calls|] == calls;
  }

  lemma OffsetsStep(msgs: seq<Message>, n: nat)
    requires 0 < n <= |msgs|
    ensures Offsets(msgs[..n]) == Offsets(msgs[..n - 1]) + [msgs[n - 1].offset]
  {
    assert msgs[..n][..n - 1] == msgs[..n - 1];
  }

  lemma SegmentsStep(msgs: seq<Message>, scripts: seq<Script>, n: nat)
    requires 0 < n <= |msgs| == |scripts| && forall s :: s in scripts ==> Complete(s)
    ensures Committed(Segments(msgs, scripts, n)) == Committed(Segments(msgs, scripts, n - 1)) + [msgs[n - 1].offset]
  {
    assert scripts[n - 1] in scripts;
    SegmentCommits(msgs[n - 1], scripts[n - 1]);
    CommittedConcat(Segments(msgs, scripts, n - 1), Segment(msgs[n - 1], scripts[n - 1]));
  }

  lemma {:induction false} SegmentsCommit(msgs: seq<Message>, scripts: seq<Script>, n: nat)
    requires n <= |msgs| == |scripts| && forall s :: s in scripts ==> Complete(s)
    ensures Committed(Segments(msgs, scripts, n)) == Offsets(msgs[..n])
  {
    if n == 0 {
      assert msgs[..0] == [] && Segments(msgs, scripts, 0) == [];
    } else {
      SegmentsCommit(msgs, scripts, n - 1);
      SegmentsStep(msgs, scripts, n);
      OffsetsStep(msgs, n);
    }
  }

  /** `done` is the first message whose script stops the loop, before it is taken or in a backoff. */
  ghost predicate StopsFirstAt(msgs: seq<Message>, scripts: seq<Script>, done: nat)
    requires done <= |msgs| == |scripts| && forall s :: s in scripts ==> Complete(s)
  {
    && (forall i, k :: 0 <= i < done ==> !scripts[i].stopBefore && !StoppedAfter(msgs[i], scripts[i], k))
    && (done < |msgs| ==> scripts[done].stopBefore || exists k :: StoppedAfter(msgs[done], scripts[done], k))
  }

  lemma StopsFirst(msgs: seq<Message>, scripts: seq<Script>, done: nat)
    requires done <= |msgs| == |scripts| && forall s :: s in scripts ==> Complete(s)
    requires PassThrough(msgs, scripts, done)
    requires done < |msgs| ==> scripts[done].stopBefore || CutShort(msgs[done], scripts[done])
    ensures StopsFirstAt(msgs, scripts, done)
  {
    forall i, k | 0 <= i < done ensures !scripts[i].stopBefore && !StoppedAfter(msgs[i], scripts[i], k) {
      CutShortIsStopped(msgs[i], scripts[i]);
    }
    if done < |msgs| {
      CutShortIsStopped(msgs[done], scripts[done]);
    }
  }

  lemma TraceCommits(msgs: seq<Message>, scripts: seq<Script>, done: nat, tail: seq<Step>)
    requires done <= |msgs| == |scripts| && forall s :: s in scripts ==> Complete(s)
    requires forall i :: 0 <= i < |tail| ==> !tail[i].CommitTried?
    ensures Committed(Segments(msgs, scripts, done) + tail) == Offsets(msgs[..done])
  {
    SegmentsCommit(msgs, scripts, done);
    NoneCommitted(tail);
    CommittedConcat(Segments(msgs, scripts, done), tail);
  }

  /**
   * The consumer loop. Message by message and in order, its trace is each message's handler calls
   * followed by one commit attempt; a shutdown between messages ends it there, and a shutdown
   * during a backoff ends it with that message's calls and no commit.
   */
  method Run(msgs: seq<Message>, scripts: seq<Script>) returns (trace: seq<Step>, done: nat)
    requires |scripts| == |msgs| && forall s :: s in scripts ==> Complete(s)
    ensures done <= |msgs| && PassThrough(msgs, scripts, done)
    ensures done < |msgs| ==> scripts[done].stopBefore || CutShort(msgs[done], scripts[done])
    // It ends at the first message whose script stops it, with no commit for that one.
    ensures StopsFirstAt(msgs, scripts, done)
    ensures Committed(trace) == Offsets(msgs[..done])
    ensures trace == Segments(msgs, scripts, done)
                     + if done < |msgs| && !scripts[done].stopBefore
                       then Calls(msgs[done].offset, CallCount(msgs[done], scripts[done]))
                            + [Interrupted(Pow2(CallCount(msgs[done], scripts[done]) - 1))]
                       else []
  {
    trace := [];
    done := 0;
    while done < |msgs|
      invariant 0 <= done <= |msgs|
      invariant PassThrough(msgs, scripts, done)
      invariant trace == Segments(msgs, scripts, done)
    {
      if scripts[done].stopBefore {
        break;
      }
      var resolution, steps := Resolve(msgs[done], scripts[done]);
      if resolution.Shutdown? {
        trace := trace + steps;
        StopsFirst(msgs, scripts, done);
        TraceCommits(msgs, scripts, done, steps);
        return;
      }
      trace := trace + steps + [CommitTried(msgs[done].offset, scripts[done].commitOk)];
      done := done + 1;
    }
    StopsFirst(msgs, scripts, done);
    TraceCommits(msgs, scripts, done, []);
    assert trace == trace + [];
  }

  /** Handler calls for one offset in a trace. */
  function CallsOf(steps: seq<Step>, offset: nat): nat {
    if steps == [] then 0
    else CallsOf(steps[..|steps| - 1], offset) + if steps[|steps| - 1] == Handled(offset) then 1 else 0
  }

  lemma {:induction false} CallsOfCalls(offset: nat, k: nat, other: nat)
    ensures CallsOf(Calls(offset, k), other) == if other == offset then k else 0
  {
    if k == 1 {
      assert [Handled(offset)][..0] == [];
    } else if k > 1 {
      CallsOfCalls(offset, k - 1, other);
      var steps := Calls(offset, k);
      assert steps[..|steps| - 1][..|steps| - 2] == Calls(offset, k - 1);
    }
  }

  /**
   * The trace of one resolved message, counted: no call at all exactly when there is no text, one
   * to five otherwise, `2^(k-1) - 1` seconds of waiting, and the commit attempt is its last step.
   */
  lemma SegmentShape(msg: Message, script: Script)
    requires Complete(script) && !CutShort(msg, script)
    ensures Segment(msg, script) != []
    ensures CallsOf(Segment(msg, script), msg.offset) == CallCount(msg, script) <= 5
    ensures CallCount(msg, script) == 0 <==> !msg.payload.Text?
    ensures CallCount(msg, script) == 0 ==> Backoff(Segment(msg, script)) == 0
    ensures CallCount(msg, script) > 0 ==> Backoff(Segment(msg, script)) == Pow2(CallCount(msg, script) - 1) - 1
    ensures OneCommitAtTheEnd(Segment(msg, script), CommitTried(msg.offset, script.commitOk))
    ensures LastCallSettles(script, CallCount(msg, script))
  {
    var k := CallCount(msg, script);
    var calls := Calls(msg.offset, k);
    var last := CommitTried(msg.offset, script.commitOk);
    assert Segment(msg, script) == calls + [last];
    CallsOfCalls(msg.offset, k, msg.offset);
    assert (calls + [last])[..|calls|] == calls;
    BackoffOfOneMore(calls, last);
    if k > 0 {
      CallsBackOff(msg.offset, k);
    }
    NoCommitAmongCalls(msg.offset, k);
    CallsSettle(msg, script);
  }

  /** Exactly one commit attempt, and it comes last. */
  predicate OneCommitAtTheEnd(steps: seq<Step>, commit: Step) {
    && steps != [] && steps[|steps| - 1] == commit
    && forall i :: 0 <= i < |steps| - 1 ==> !steps[i].CommitTried?
  }

  /** All calls but the last failed transiently; the last did not, or was the fifth. */
  predicate LastCallSettles(script: Script, k: nat)
    requires Complete(script) && k <= MAX_ATTEMPTS
  {
    && (k > 0 ==> k == 5 || !script.outcomes[k - 1].Transient?)
    && forall j :: 0 <= j < k - 1 ==> script.outcomes[j].Transient?
  }

  lemma CallsSettle(msg: Message, script: Script)
    requires Complete(script) && !CutShort(msg, script)
    ensures LastCallSettles(script, CallCount(msg, script))
  {
    var k := CallCount(msg, script);
    forall j | 0 <= j && j + 1 < k ensures script.outcomes[j].Transient? {
      assert !Ends(script, j + 1);
    }
  }

  lemma {:induction false} NoCommitAmongCalls(offset: nat, k: nat)
    ensures forall i :: 0 <= i < |Calls(offset, k)| ==> !Calls(offset, k)[i].CommitTried?
  {
    if k > 1 {
      NoCommitAmongCalls(offset, k - 1);
    }
  }
}
