/**
 * Consumers against the broker and the database: processes of one group come and go and are handed
 * and lose partitions, asynchronous commits are refused or lost or land late, and database errors hide
 * their effect. How a rebalance divides the partitions is left open: it may hand any member any
 * partition at any time, also one that another still reads.
 */
module ConsumerOffsets {
  import opened Common
  import opened Events
  import opened Consumer

  type Partition = nat
  type MemberId = nat

  /** Why the loop was done with an offset. */
  datatype Fate =
    | Skipped                 // empty or undecodable payload
    | Dropped                 // the handler called it poison
    | GaveUp(attempts: nat)   // transient failures up to the cap
    | Recorded(id: Uuid)

  datatype Phase = Idle | Working(p: Partition, o: nat, attempt: nat) | Resolved(p: Partition, o: nat)

  /** One lifetime of a consumer process, kept after its end for the commits it still has under way. */
  datatype Member = Member(
    alive: bool,
    position: map<Partition, nat>,       // its partitions, and the next offset of each
    phase: Phase,
    queue: seq<(Partition, nat)>)        // asynchronous commits on their way to the broker

  datatype State = State(
    log: map<Partition, seq<Payload>>,
    committed: map<Partition, nat>,
    members: map<MemberId, Member>,
    audit: seq<AuditRow>,
    undecided: set<AuditRow>,               // inserts whose outcome nobody has learned yet
    minted: set<Uuid>,                      // ids made up for records without one
    fates: map<(Partition, nat), Fate>)     // history: the last verdict on each offset

  datatype Effect = Applied | Lost | Undecided

  datatype Action =
    | Append(p: Partition, payload: Payload)
    | Join(x: MemberId)
    | Assign(x: MemberId, p: Partition)     // a rebalance: the member reads on from the committed offset
    | Revoke(x: MemberId, p: Partition)     // a rebalance: it is handed nothing more of the partition
    | Exit(x: MemberId)
    | Pull(x: MemberId, p: Partition)
    | Skip(x: MemberId)
    | Drop(x: MemberId, mint: Uuid)
    | Record(x: MemberId, mint: Uuid)
    | Stumble(x: MemberId, mint: Uuid, effect: Effect)
    | CommitAccepted(x: MemberId)
    | CommitRefused(x: MemberId)
    | BrokerCommits(x: MemberId)
    | BrokerLosesCommit(x: MemberId)
    | LateInsert(row: AuditRow)

  /** Where a partition stands in an offset table; an absent entry is `earliest`. */
  function At(offsets: map<Partition, nat>, p: Partition): nat {
    if p in offsets then offsets[p] else 0
  }

  function Records(log: map<Partition, seq<Payload>>, p: Partition): seq<Payload> {
    if p in log then log[p] else []
  }

  predicate HasOwnId(body: Body) {
    body.Event? && body.eventId.Some? && body.eventId.value.Str? && body.eventId.value.uuid.Some?
  }

  predicate Alive(s: State, x: MemberId) {
    x in s.members && s.members[x].alive
  }

  predicate WorkingOn(s: State, x: MemberId) {
    Alive(s, x) && s.members[x].phase.Working? && s.members[x].phase.o < |Records(s.log, s.members[x].phase.p)|
  }

  function Offset(s: State, x: MemberId): (Partition, nat)
    requires x in s.members && !s.members[x].phase.Idle?
  {
    (s.members[x].phase.p, s.members[x].phase.o)
  }

  function Current(s: State, x: MemberId): Payload
    requires WorkingOn(s, x)
  {
    Records(s.log, Offset(s, x).0)[Offset(s, x).1]
  }

  /** A handler call on the current record decodes it, minting an unused id if it carries none. */
  ghost predicate Calls(s: State, x: MemberId, mint: Uuid) {
    && WorkingOn(s, x)
    && Current(s, x).Text?
    && (HasOwnId(Current(s, x).body) || (mint !in s.minted && !HasId(s.audit, mint)
                                         && forall p, payload :: p in s.log && payload in s.log[p] ==>
                                             !Carries(payload, mint)))
  }

  predicate Carries(payload: Payload, id: Uuid) {
    payload.Text? && HasOwnId(payload.body) && EventRowId(payload.body, 0) == id
  }

  ghost predicate Enabled(s: State, a: Action) {
    match a
    // An id minted by the sink never turns up later as an event id: both are fresh UUIDs.
    case Append(_, payload) => forall id :: id in s.minted ==> !Carries(payload, id)
    case Join(x) => x !in s.members
    case Assign(x, _) => Alive(s, x)
    case Revoke(x, _) => Alive(s, x)
    case Exit(x) => Alive(s, x)
    case Pull(x, p) =>
      && Alive(s, x) && s.members[x].phase.Idle?
      && p in s.members[x].position && s.members[x].position[p] < |Records(s.log, p)|
    case Skip(x) => WorkingOn(s, x) && !Current(s, x).Text?
    case Drop(x, mint) => Calls(s, x, mint) && Decode(Current(s, x).body, mint).Poisoned?
    case Record(x, mint) => Calls(s, x, mint) && Decode(Current(s, x).body, mint).Row?
    case Stumble(x, mint, _) => Calls(s, x, mint) && Decode(Current(s, x).body, mint).Row?
    case CommitAccepted(x) => Alive(s, x) && s.members[x].phase.Resolved?
    case CommitRefused(x) => Alive(s, x) && s.members[x].phase.Resolved?
    case BrokerCommits(x) => x in s.members && s.members[x].queue != []
    case BrokerLosesCommit(x) => x in s.members && s.members[x].queue != []
    case LateInsert(row) => row in s.undecided
  }

  function With(s: State, x: MemberId, m: Member): State {
    s.(members := s.members[x := m])
  }

  /** The loop settles the current record. */
  function Settle(s: State, x: MemberId, fate: Fate): State
    requires x in s.members && !s.members[x].phase.Idle?
  {
    var (p, o) := Offset(s, x);
    With(s, x, s.members[x].(phase := Resolved(p, o))).(fates := s.fates[(p, o) := fate])
  }

  function Minted(s: State, x: MemberId, mint: Uuid): State
    requires WorkingOn(s, x) && Current(s, x).Text?
  {
    if HasOwnId(Current(s, x).body) then s else s.(minted := s.minted + {mint})
  }

  /** The row a handler call works on. */
  function RowOf(s: State, x: MemberId, mint: Uuid): AuditRow
    requires WorkingOn(s, x) && Current(s, x).Text? && Decode(Current(s, x).body, mint).Row?
  {
    Decode(Current(s, x).body, mint).row
  }

  function Do(s: State, a: Action): State
    requires Enabled(s, a)
  {
    match a
    case Append(p, payload) => s.(log := s.log[p := Records(s.log, p) + [payload]])
    case Join(x) => With(s, x, Member(true, map[], Idle, []))
    case Assign(x, p) => With(s, x, s.members[x].(position := s.members[x].position[p := At(s.committed, p)]))
    case Revoke(x, p) => With(s, x, s.members[x].(position := s.members[x].position - {p}))
    case Exit(x) => With(s, x, Member(false, map[], Idle, s.members[x].queue))
    case Pull(x, p) =>
      var o := At(s.members[x].position, p);
      With(s, x, s.members[x].(position := s.members[x].position[p := o + 1], phase := Working(p, o, 1)))
    case Skip(x) => Settle(s, x, Skipped)
    case Drop(x, mint) => Settle(s, x, Dropped)
    case Record(x, mint) =>
      var row := RowOf(s, x, mint);
      Settle(Minted(s, x, mint).(audit := Insert(s.audit, row)), x, Recorded(row.id))
    case Stumble(x, mint, effect) =>
      var row := RowOf(s, x, mint);
      var attempt := s.members[x].phase.attempt;
      var t := Minted(s, x, mint).(
        audit := if effect.Applied? then Insert(s.audit, row) else s.audit,
        undecided := if effect.Undecided? then s.undecided + {row} else s.undecided);
      if attempt >= MAX_ATTEMPTS then Settle(t, x, GaveUp(attempt))
      else With(t, x, s.members[x].(phase := s.members[x].phase.(attempt := attempt + 1)))
    case CommitAccepted(x) =>
      With(s, x, s.members[x].(phase := Idle, queue := s.members[x].queue + [(Offset(s, x).0, Offset(s, x).1 + 1)]))
    case CommitRefused(x) => With(s, x, s.members[x].(phase := Idle))
    case BrokerCommits(x) =>
      With(s, x, s.members[x].(queue := s.members[x].queue[1..])).(
        committed := s.committed[s.members[x].queue[0].0 := s.members[x].queue[0].1])
    case BrokerLosesCommit(x) => With(s, x, s.members[x].(queue := s.members[x].queue[1..]))
    case LateInsert(row) => s.(audit := Insert(s.audit, row), undecided := s.undecided - {row})
  }

  ghost predicate Init(s: State) {
    s.log == map[] && s.committed == map[] && s.members == map[] && s.audit == [] && s.undecided == {}
    && s.minted == {} && s.fates == map[]
  }

  // --------------------------------------------------------------- invariants

  /** `row` is what some record on the log decodes to, under its own id or one minted for it. */
  ghost predicate FromRecord(log: map<Partition, seq<Payload>>, minted: set<Uuid>, row: AuditRow) {
    exists p, payload ::
      p in log && payload in log[p] && DecodesTo(payload, row) && (Carries(payload, row.id) || row.id in minted)
  }

  predicate DecodesTo(payload: Payload, row: AuditRow) {
    payload.Text? && Decode(payload.body, row.id) == Row(row)
  }

  /** The verdict on an offset is justified by its record and, if recorded, by the audit log. */
  ghost predicate FateOk(s: State, p: Partition, o: nat) {
    && o < |Records(s.log, p)|
    && (p, o) in s.fates
    && match s.fates[(p, o)]
       case Skipped => !Records(s.log, p)[o].Text?
       case Dropped => Records(s.log, p)[o].Text? && Decode(Records(s.log, p)[o].body, 0).Poisoned?
       case GaveUp(n) =>
         n == MAX_ATTEMPTS && Records(s.log, p)[o].Text? && Decode(Records(s.log, p)[o].body, 0).Row?
       case Recorded(id) =>
         && Records(s.log, p)[o].Text?
         && Decode(Records(s.log, p)[o].body, id).Row?
         && EventRowId(Records(s.log, p)[o].body, id) == id
         && HasId(s.audit, id)
  }

  ghost predicate Resolves(s: State, p: Partition, n: nat) {
    forall o :: 0 <= o < n ==> FateOk(s, p, o)
  }

  predicate InFlight(phase: Phase, p: Partition, o: nat) {
    !phase.Idle? && phase.p == p && phase.o == o
  }

  /** Whatever a member has been handed is resolved, save the one record in its hands. */
  ghost predicate PositionsOk(s: State, m: Member) {
    forall p, o :: 0 <= o < At(m.position, p) ==> FateOk(s, p, o) || InFlight(m.phase, p, o)
  }

  ghost predicate QueueOk(s: State, queue: seq<(Partition, nat)>) {
    forall k :: 0 <= k < |queue| ==> Resolves(s, queue[k].0, queue[k].1)
  }

  ghost predicate PhaseOk(s: State, phase: Phase) {
    match phase
    case Idle => true
    case Working(p, o, attempt) => 1 <= attempt <= MAX_ATTEMPTS && o < |Records(s.log, p)| && Resolves(s, p, o)
    case Resolved(p, o) => Resolves(s, p, o + 1)
  }

  ghost predicate MemberOk(s: State, m: Member) {
    PositionsOk(s, m) && QueueOk(s, m.queue) && PhaseOk(s, m.phase)
  }

  ghost predicate AuditOk(s: State) {
    && UniqueIds(s.audit)
    && (forall row :: row in s.audit ==> FromRecord(s.log, s.minted, row))
    && (forall row :: row in s.undecided ==> FromRecord(s.log, s.minted, row))
  }

  ghost predicate Safe(s: State) {
    && (forall p :: Resolves(s, p, At(s.committed, p)))
    && (forall x :: x in s.members ==> MemberOk(s, s.members[x]))
    && AuditOk(s)
  }

  /** Records and audit rows are only ever added. */
  ghost predicate Grows(s: State, t: State) {
    && (forall p :: Records(s.log, p) <= Records(t.log, p))
    && s.audit <= t.audit
  }

  lemma GrowsStep(s: State, a: Action)
    requires Enabled(s, a)
    ensures Grows(s, Do(s, a))
  {
  }

  lemma LogChangesByAppend(s: State, a: Action)
    requires Enabled(s, a) && !a.Append?
    ensures Do(s, a).log == s.log
  {
    match a
    case Stumble(x, mint, effect) => StumbleKeepsLog(s, x, mint, effect);
    case Record(x, mint) => RecordKeepsLog(s, x, mint);
    case _ =>
  }

  lemma StumbleKeepsLog(s: State, x: MemberId, mint: Uuid, effect: Effect)
    requires Enabled(s, Stumble(x, mint, effect))
    ensures Do(s, Stumble(x, mint, effect)).log == s.log
  {
  }

  lemma RecordKeepsLog(s: State, x: MemberId, mint: Uuid)
    requires Enabled(s, Record(x, mint))
    ensures Do(s, Record(x, mint)).log == s.log
  {
  }

  predicate MintOf(b: Action, id: Uuid) {
    match b
    case Drop(_, mint) => mint == id
    case Record(_, mint) => mint == id
    case Stumble(_, mint, _) => mint == id
    case _ => false
  }

  lemma MintedByHandlers(s: State, a: Action, id: Uuid)
    requires Enabled(s, a) && id in Do(s, a).minted
    ensures id in s.minted || MintOf(a, id)
  {
  }

  lemma HasIdGrows(rows: seq<AuditRow>, more: seq<AuditRow>, id: Uuid)
    requires rows <= more && HasId(rows, id)
    ensures HasId(more, id)
  {
    var k :| 0 <= k < |rows| && rows[k].id == id;
    assert more[k].id == id;
  }

  // --- verdicts

  lemma FateKept(s: State, t: State, p: Partition, o: nat)
    requires FateOk(s, p, o) && Grows(s, t)
    requires (p, o) in t.fates && t.fates[(p, o)] == s.fates[(p, o)]
    ensures FateOk(t, p, o)
  {
    assert Records(s.log, p) <= Records(t.log, p);
    if s.fates[(p, o)].Recorded? {
      HasIdGrows(s.audit, t.audit, s.fates[(p, o)].id);
    }
  }

  /** The action settles the record in the member's hands. */
  predicate Judges(s: State, a: Action) {
    a.Skip? || a.Drop? || a.Record? || (a.Stumble? && WorkingOn(s, a.x) && s.members[a.x].phase.attempt >= MAX_ATTEMPTS)
  }

  /** The verdict on the member's record is the only new one, and it is justified. */
  ghost predicate Justified(s: State, t: State, x: MemberId) {
    && WorkingOn(s, x)
    && Offset(s, x) in t.fates && t.fates == s.fates[Offset(s, x) := t.fates[Offset(s, x)]]
    && FateOk(t, Offset(s, x).0, Offset(s, x).1)
    && t.members == s.members[x := s.members[x].(phase := Resolved(Offset(s, x).0, Offset(s, x).1))]
  }

  lemma JudgedIsJustified(s: State, a: Action)
    requires Safe(s) && Enabled(s, a) && Judges(s, a)
    ensures Justified(s, Do(s, a), a.x)
  {
    match a
    case Record(x, mint) => RecordIsJustified(s, x, mint);
    case Stumble(x, mint, effect) => GivingUpIsJustified(s, x, mint, effect);
    case _ =>
  }

  lemma RecordIsJustified(s: State, x: MemberId, mint: Uuid)
    requires Safe(s) && Enabled(s, Record(x, mint))
    ensures Justified(s, Do(s, Record(x, mint)), x)
  {
    InsertIsIdempotent(s.audit, RowOf(s, x, mint), Insert(s.audit, RowOf(s, x, mint)));
  }

  lemma GivingUpIsJustified(s: State, x: MemberId, mint: Uuid, effect: Effect)
    requires Safe(s) && Enabled(s, Stumble(x, mint, effect)) && Judges(s, Stumble(x, mint, effect))
    ensures Justified(s, Do(s, Stumble(x, mint, effect)), x)
  {
    assert PhaseOk(s, s.members[x].phase);
  }

  lemma OthersJudgeNothing(s: State, a: Action)
    requires Enabled(s, a) && !Judges(s, a)
    ensures Do(s, a).fates == s.fates
  {
  }

  lemma FatesStayOk(s: State, a: Action, p: Partition, o: nat)
    requires Safe(s) && Enabled(s, a) && FateOk(s, p, o)
    ensures FateOk(Do(s, a), p, o)
  {
    GrowsStep(s, a);
    if Judges(s, a) {
      JudgedIsJustified(s, a);
      if Offset(s, a.x) != (p, o) {
        FateKept(s, Do(s, a), p, o);
      }
    } else {
      OthersJudgeNothing(s, a);
      FateKept(s, Do(s, a), p, o);
    }
  }

  lemma ResolvedStays(s: State, a: Action, p: Partition, n: nat)
    requires Safe(s) && Enabled(s, a) && Resolves(s, p, n)
    ensures Resolves(Do(s, a), p, n)
  {
    forall o | 0 <= o < n ensures FateOk(Do(s, a), p, o) {
      FatesStayOk(s, a, p, o);
    }
  }

  lemma CommittedStaysOk(s: State, a: Action, p: Partition)
    requires Safe(s) && Enabled(s, a)
    ensures Resolves(Do(s, a), p, At(Do(s, a).committed, p))
  {
    if a.BrokerCommits? && s.members[a.x].queue[0].0 == p {
      assert MemberOk(s, s.members[a.x]);
      ResolvedStays(s, a, p, s.members[a.x].queue[0].1);
    } else {
      assert At(Do(s, a).committed, p) == At(s.committed, p);
      ResolvedStays(s, a, p, At(s.committed, p));
    }
  }

  // --- members

  /** What a member was right about stays right whatever anybody does. */
  lemma MemberKept(s: State, a: Action, m: Member)
    requires Safe(s) && Enabled(s, a) && MemberOk(s, m)
    ensures MemberOk(Do(s, a), m)
  {
    PositionsKept(s, a, m);
    forall k | 0 <= k < |m.queue| ensures Resolves(Do(s, a), m.queue[k].0, m.queue[k].1) {
      ResolvedStays(s, a, m.queue[k].0, m.queue[k].1);
    }
    PhaseKept(s, a, m.phase);
  }

  lemma PositionsKept(s: State, a: Action, m: Member)
    requires Safe(s) && Enabled(s, a) && PositionsOk(s, m)
    ensures PositionsOk(Do(s, a), m)
  {
    forall p, o | 0 <= o < At(m.position, p) && !InFlight(m.phase, p, o) ensures FateOk(Do(s, a), p, o) {
      FatesStayOk(s, a, p, o);
    }
  }

  lemma PhaseKept(s: State, a: Action, phase: Phase)
    requires Safe(s) && Enabled(s, a) && PhaseOk(s, phase)
    ensures PhaseOk(Do(s, a), phase)
  {
    GrowsStep(s, a);
    match phase
    case Idle =>
    case Working(p, o, _) =>
      assert Records(s.log, p) <= Records(Do(s, a).log, p);
      ResolvedStays(s, a, p, o);
    case Resolved(p, o) => ResolvedStays(s, a, p, o + 1);
  }

  lemma SettledIsOk(t: State, m: Member)
    requires MemberOk(t, m) && m.phase.Working? && FateOk(t, m.phase.p, m.phase.o)
    ensures MemberOk(t, m.(phase := Resolved(m.phase.p, m.phase.o)))
  {
  }

  lemma HandedIsOk(t: State, m: Member, p: Partition)
    requires MemberOk(t, m) && m.phase.Idle? && At(m.position, p) < |Records(t.log, p)|
    ensures MemberOk(t, m.(position := m.position[p := At(m.position, p) + 1],
            phase := Working(p, At(m.position, p), 1)))
  {
  }

  lemma CommittedIsOk(t: State, m: Member)
    requires MemberOk(t, m) && m.phase.Resolved?
    ensures MemberOk(t, m.(phase := Idle))
    ensures MemberOk(t, m.(phase := Idle, queue := m.queue + [(m.phase.p, m.phase.o + 1)]))
  {
  }

  lemma ReassignedIsOk(t: State, m: Member, p: Partition, n: nat)
    requires MemberOk(t, m) && Resolves(t, p, n)
    ensures MemberOk(t, m.(position := m.position[p := n]))
  {
  }

  lemma ShorterIsOk(t: State, m: Member)
    requires MemberOk(t, m) && m.queue != []
    ensures MemberOk(t, m.(queue := m.queue[1..]))
  {
  }

  lemma JudgeStaysOk(s: State, a: Action)
    requires Safe(s) && Enabled(s, a) && Judges(s, a)
    ensures MemberOk(Do(s, a), Do(s, a).members[a.x])
  {
    MemberKept(s, a, s.members[a.x]);
    JudgedIsJustified(s, a);
    SettledIsOk(Do(s, a), s.members[a.x]);
  }

  lemma RetryStaysOk(s: State, x: MemberId, mint: Uuid, effect: Effect)
    requires Safe(s) && Enabled(s, Stumble(x, mint, effect)) && !Judges(s, Stumble(x, mint, effect))
    ensures MemberOk(Do(s, Stumble(x, mint, effect)), Do(s, Stumble(x, mint, effect)).members[x])
  {
    MemberKept(s, Stumble(x, mint, effect), s.members[x]);
    RetryIsOk(Do(s, Stumble(x, mint, effect)), s.members[x]);
  }

  /** The member an action moves. */
  lemma MoverStaysOk(s: State, a: Action)
    requires Safe(s) && Enabled(s, a) && !a.Append? && !a.LateInsert? && !a.Join?
    ensures MemberOk(Do(s, a), Do(s, a).members[a.x])
  {
    if Judges(s, a) {
      JudgeStaysOk(s, a);
    } else {
      var t := Do(s, a);
      var m := s.members[a.x];
      MemberKept(s, a, m);
      match a
      case Assign(_, p) =>
        CommittedStaysOk(s, a, p);
        ReassignedIsOk(t, m, p, At(s.committed, p));
      case Revoke(_, _) =>
      case Exit(_) =>
      case Pull(_, p) => HandedIsOk(t, m, p);
      case Stumble(x, mint, effect) => RetryStaysOk(s, x, mint, effect);
      case CommitAccepted(_) => CommittedIsOk(t, m);
      case CommitRefused(_) => CommittedIsOk(t, m);
      case BrokerCommits(_) => ShorterIsOk(t, m);
      case BrokerLosesCommit(_) => ShorterIsOk(t, m);
    }
  }

  lemma RetryIsOk(t: State, m: Member)
    requires MemberOk(t, m) && m.phase.Working? && m.phase.attempt < MAX_ATTEMPTS
    ensures MemberOk(t, m.(phase := m.phase.(attempt := m.phase.attempt + 1)))
  {
  }

  lemma MembersStayOk(s: State, a: Action, x: MemberId)
    requires Safe(s) && Enabled(s, a) && x in Do(s, a).members
    ensures MemberOk(Do(s, a), Do(s, a).members[x])
  {
    if a.Append? || a.LateInsert? || a.x != x {
      MemberKept(s, a, s.members[x]);
    } else if !a.Join? {
      MoverStaysOk(s, a);
    }
  }

  // --- the audit log

  lemma AuditStaysOk(s: State, a: Action)
    requires Safe(s) && Enabled(s, a)
    ensures AuditOk(Do(s, a))
  {
    var t := Do(s, a);
    forall row | row in t.audit || row in t.undecided ensures FromRecord(t.log, t.minted, row) {
      RowStaysExplained(s, a, row);
    }
  }

  lemma RowStaysExplained(s: State, a: Action, row: AuditRow)
    requires Safe(s) && Enabled(s, a) && (row in Do(s, a).audit || row in Do(s, a).undecided)
    ensures FromRecord(Do(s, a).log, Do(s, a).minted, row)
  {
    NewRowIsDecoded(s, a, row);
    if row in s.audit || row in s.undecided {
      FromRecordGrows(s, a, row);
    } else {
      LogChangesByAppend(s, a);
      assert Current(s, a.x) in Records(s.log, Offset(s, a.x).0);
    }
  }

  /** The current record of `x` decodes to `row`, under its own id or one minted by then. */
  ghost predicate DecodedHere(s: State, x: MemberId, minted: set<Uuid>, row: AuditRow) {
    && WorkingOn(s, x)
    && DecodesTo(Current(s, x), row) && (Carries(Current(s, x), row.id) || row.id in minted)
  }

  lemma RowIsDecodedHere(s: State, x: MemberId, mint: Uuid, minted: set<Uuid>)
    requires WorkingOn(s, x) && Current(s, x).Text? && Decode(Current(s, x).body, mint).Row?
    requires HasOwnId(Current(s, x).body) || mint in minted
    ensures DecodedHere(s, x, minted, RowOf(s, x, mint))
  {
    DecodeByRowId(Current(s, x).body, mint);
  }

  lemma RecordAdds(s: State, x: MemberId, mint: Uuid, row: AuditRow)
    requires Enabled(s, Record(x, mint)) && row in Do(s, Record(x, mint)).audit
    ensures row in s.audit || DecodedHere(s, x, Do(s, Record(x, mint)).minted, row)
  {
    RowIsDecodedHere(s, x, mint, Do(s, Record(x, mint)).minted);
  }

  lemma StumbleMints(s: State, x: MemberId, mint: Uuid, effect: Effect)
    requires Enabled(s, Stumble(x, mint, effect))
    ensures HasOwnId(Current(s, x).body) || mint in Do(s, Stumble(x, mint, effect)).minted
  {
  }

  lemma StumbleWrites(s: State, x: MemberId, mint: Uuid, effect: Effect)
    requires Enabled(s, Stumble(x, mint, effect))
    ensures var t := Do(s, Stumble(x, mint, effect)); var row := RowOf(s, x, mint);
            (t.audit == s.audit || t.audit == Insert(s.audit, row)) && t.undecided <= s.undecided + {row}
  {
  }

  lemma StumbleAdds(s: State, x: MemberId, mint: Uuid, effect: Effect, row: AuditRow)
    requires Enabled(s, Stumble(x, mint, effect))
    requires row in Do(s, Stumble(x, mint, effect)).audit || row in Do(s, Stumble(x, mint, effect)).undecided
    ensures row in s.audit || row in s.undecided || DecodedHere(s, x, Do(s, Stumble(x, mint, effect)).minted, row)
  {
    StumbleMints(s, x, mint, effect);
    StumbleWrites(s, x, mint, effect);
    RowIsDecodedHere(s, x, mint, Do(s, Stumble(x, mint, effect)).minted);
  }

  /** A row that was neither in the log nor under way is what the member's record decodes to. */
  lemma NewRowIsDecoded(s: State, a: Action, row: AuditRow)
    requires Enabled(s, a) && (row in Do(s, a).audit || row in Do(s, a).undecided)
    ensures row in s.audit || row in s.undecided
            || ((a.Record? || a.Stumble?) && DecodedHere(s, a.x, Do(s, a).minted, row))
  {
    match a {
      case Record(x, mint) => if row in Do(s, a).audit { RecordAdds(s, x, mint, row); }
      case Stumble(x, mint, effect) => StumbleAdds(s, x, mint, effect, row);
      case _ =>
    }
  }

  lemma FromRecordGrows(s: State, a: Action, row: AuditRow)
    requires Enabled(s, a) && FromRecord(s.log, s.minted, row)
    ensures FromRecord(Do(s, a).log, Do(s, a).minted, row)
  {
    var p, payload :|
      p in s.log && payload in s.log[p] && DecodesTo(payload, row) && (Carries(payload, row.id) || row.id in s.minted);
    assert payload in Do(s, a).log[p];
  }

  lemma SafeStep(s: State, a: Action)
    requires Safe(s) && Enabled(s, a)
    ensures Safe(Do(s, a))
  {
    forall p ensures Resolves(Do(s, a), p, At(Do(s, a).committed, p)) {
      CommittedStaysOk(s, a, p);
    }
    forall x | x in Do(s, a).members ensures MemberOk(Do(s, a), Do(s, a).members[x]) {
      MembersStayOk(s, a, x);
    }
    AuditStaysOk(s, a);
  }

  // --------------------------------------------------------------------- runs

  ghost predicate Run(s: State, acts: seq<Action>)
    decreases |acts|
  {
    acts == [] || (Enabled(s, acts[0]) && Run(Do(s, acts[0]), acts[1..]))
  }

  ghost function After(s: State, acts: seq<Action>): State
    requires Run(s, acts)
    decreases |acts|
  {
    if acts == [] then s else After(Do(s, acts[0]), acts[1..])
  }

  /**
   * Offset safety, over every interleaving of any number of members, rebalance, lost or late commit,
   * crash and restart: each offset below a partition's committed offset is in the audit log or was
   * dropped for a stated reason, audit rows stay, and no id has two.
   */
  lemma {:induction false} OffsetsAreSafe(s: State, acts: seq<Action>, p: Partition)
    requires Safe(s) && Run(s, acts)
    ensures Safe(After(s, acts))
    ensures Resolves(After(s, acts), p, At(After(s, acts).committed, p))
    ensures s.audit <= After(s, acts).audit && UniqueIds(After(s, acts).audit)
    decreases |acts|
  {
    if acts != [] {
      SafeStep(s, acts[0]);
      GrowsStep(s, acts[0]);
      OffsetsAreSafe(Do(s, acts[0]), acts[1..], p);
    }
  }

  /** Whatever a member that is handed a partition, for the first time or again, will not read has been resolved. */
  lemma RestartLosesNothing(s0: State, acts: seq<Action>, x: MemberId, p: Partition, o: nat)
    requires Init(s0) && Run(s0, acts) && Alive(After(s0, acts), x)
    requires o < |Records(After(s0, acts).log, p)|
    ensures var t := Do(After(s0, acts), Assign(x, p));
            p in t.members[x].position && (FateOk(t, p, o) || t.members[x].position[p] <= o)
  {
    OffsetsAreSafe(s0, acts, p);
    CommittedStaysOk(After(s0, acts), Assign(x, p), p);
  }
}
