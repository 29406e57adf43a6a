/**
 * The consumer loop and the machine of members and offsets agree: what the loop makes of one record,
 * by its script, is a run of the machine with as many handler calls and the same end.
 */
module ConsumerRuns {
  import opened Common
  import opened Events
  import Consumer
  import opened ConsumerOffsets
  import OffsetOrder

  /** One record in a member's hands: what the calls meet and the ids they make up if the record has none. */
  datatype Delivery = Delivery(
    x: MemberId,
    p: Partition,
    o: nat,
    payload: Consumer.Payload,
    script: Consumer.Script,
    effects: seq<Effect>,      // of each call that fails transiently
    mints: seq<Uuid>)

  function Msg(d: Delivery): Consumer.Message {
    Consumer.Message(d.o, d.payload)
  }

  /** Ids nobody has seen, all different. */
  ghost predicate Unseen(s: State, mints: seq<Uuid>) {
    && (forall i, j :: 0 <= i < j < |mints| ==> mints[i] != mints[j])
    && forall i :: 0 <= i < |mints| ==>
         && mints[i] !in s.minted && !Consumer.HasId(s.audit, mints[i])
         && forall p, payload :: p in s.log && payload in s.log[p] ==> !Carries(payload, mints[i])
  }

  /** Member `x` is about to be given record `o`; a call calls it poison iff it does not decode. */
  ghost predicate Ready(s: State, d: Delivery) {
    && Alive(s, d.x) && s.members[d.x].phase.Idle?
    && d.p in s.members[d.x].position && s.members[d.x].position[d.p] == d.o
    && d.o < |Records(s.log, d.p)| && Records(s.log, d.p)[d.o] == d.payload
    && Consumer.Complete(d.script) && |d.effects| == |d.mints| == Consumer.MAX_ATTEMPTS
    && Unseen(s, d.mints)
    && (d.payload.Text? ==> forall j :: 0 <= j < Consumer.MAX_ATTEMPTS ==>
          (d.script.outcomes[j].Poison? <==> Consumer.Decode(d.payload.body, d.mints[j]).Poisoned?))
  }

  /** Handler call `j`, counted from 1. */
  function Call(d: Delivery, j: nat): Action
    requires Consumer.Complete(d.script) && |d.effects| == |d.mints| == Consumer.MAX_ATTEMPTS
    requires 1 <= j <= Consumer.MAX_ATTEMPTS
  {
    match d.script.outcomes[j - 1]
    case Done => Record(d.x, d.mints[j - 1])
    case Poison => Drop(d.x, d.mints[j - 1])
    case Transient => Stumble(d.x, d.mints[j - 1], d.effects[j - 1])
  }

  /** The record is taken and `k` calls are made. */
  function Taken(d: Delivery, k: nat): seq<Action>
    requires Consumer.Complete(d.script) && |d.effects| == |d.mints| == Consumer.MAX_ATTEMPTS
    requires k <= Consumer.MAX_ATTEMPTS
  {
    if k == 0 then [Pull(d.x, d.p)] else Taken(d, k - 1) + [Call(d, k)]
  }

  /** What `k` calls leave in the audit log: each row once, from the calls that got it in. */
  function Written(audit: seq<Consumer.AuditRow>, d: Delivery, k: nat): seq<Consumer.AuditRow>
    requires Consumer.Complete(d.script) && |d.effects| == |d.mints| == Consumer.MAX_ATTEMPTS
    requires k <= Consumer.MAX_ATTEMPTS && d.payload.Text?
  {
    if k == 0 then audit
    else
      var decoded := Consumer.Decode(d.payload.body, d.mints[k - 1]);
      var outcome := d.script.outcomes[k - 1];
      if decoded.Row? && (outcome.Done? || (outcome.Transient? && d.effects[k - 1].Applied?))
      then Consumer.Insert(Written(audit, d, k - 1), decoded.row)
      else Written(audit, d, k - 1)
  }

  /** Why the loop is done with the record after `k` calls. */
  function Verdict(d: Delivery, k: nat): Fate
    requires Consumer.Complete(d.script) && |d.mints| == Consumer.MAX_ATTEMPTS && k <= Consumer.MAX_ATTEMPTS
    requires k > 0 ==> d.payload.Text?
    requires k > 0 && d.script.outcomes[k - 1].Done? ==> Consumer.Decode(d.payload.body, d.mints[k - 1]).Row?
  {
    if k == 0 then Skipped
    else match d.script.outcomes[k - 1]
      case Done => Recorded(Consumer.Decode(d.payload.body, d.mints[k - 1]).row.id)
      case Poison => Dropped
      case Transient => GaveUp(k)
  }

  // -------------------------------------------------------------- in the loop

  /** `k` transient failures into the loop. */
  ghost predicate Within(s: State, t: State, d: Delivery, k: nat)
    requires Ready(s, d) && d.payload.Text? && k <= Consumer.MAX_ATTEMPTS
  {
    && t.log == s.log && t.committed == s.committed && t.fates == s.fates
    && t.members == s.members[d.x := Busy(s, d, Working(d.p, d.o, k + 1))]
    && t.audit == Written(s.audit, d, k)
    && StillUnseen(s, t, d, k)
  }

  function Busy(s: State, d: Delivery, phase: Phase): Member
    requires d.x in s.members
  {
    s.members[d.x].(position := s.members[d.x].position[d.p := d.o + 1], phase := phase)
  }

  /** For a record without an id of its own, the ids of the calls to come are still unseen. */
  ghost predicate StillUnseen(s: State, t: State, d: Delivery, k: nat) {
    d.payload.Text? && !HasOwnId(d.payload.body) ==>
      forall j :: k <= j < |d.mints| ==> d.mints[j] !in t.minted && !Consumer.HasId(t.audit, d.mints[j])
  }

  lemma InsertAddsOnly(rows: seq<Consumer.AuditRow>, row: Consumer.AuditRow, id: Uuid)
    requires id != row.id
    ensures Consumer.HasId(Consumer.Insert(rows, row), id) <==> Consumer.HasId(rows, id)
  {
    var after := Consumer.Insert(rows, row);
    if k :| 0 <= k < |rows| && rows[k].id == id {
      assert after[k].id == id;
    }
  }

  /** The next call can be made. */
  lemma NextCall(s: State, t: State, d: Delivery, k: nat)
    requires Ready(s, d) && d.payload.Text? && k < Consumer.MAX_ATTEMPTS && Within(s, t, d, k)
    ensures Calls(t, d.x, d.mints[k]) && Current(t, d.x) == d.payload && Enabled(t, Call(d, k + 1))
  {
  }

  lemma StumbleStays(s: State, t: State, d: Delivery, k: nat)
    requires Ready(s, d) && d.payload.Text? && k + 1 < Consumer.MAX_ATTEMPTS && Within(s, t, d, k)
    requires d.script.outcomes[k].Transient?
    ensures Enabled(t, Call(d, k + 1)) && Within(s, Do(t, Call(d, k + 1)), d, k + 1)
  {
    NextCall(s, t, d, k);
    var u := Do(t, Call(d, k + 1));
    var row := RowOf(t, d.x, d.mints[k]);
    if !HasOwnId(d.payload.body) {
      Consumer.RowKey(d.payload.body, d.mints[k]);
      forall j | k + 1 <= j < |d.mints| ensures d.mints[j] !in u.minted && !Consumer.HasId(u.audit, d.mints[j]) {
        InsertAddsOnly(t.audit, row, d.mints[j]);
      }
    }
  }

  /** Call `k` has settled the record. */
  ghost predicate IsSettled(s: State, t: State, d: Delivery, k: nat)
    requires Ready(s, d) && d.payload.Text? && 1 <= k <= Consumer.MAX_ATTEMPTS
  {
    && t.log == s.log && t.committed == s.committed && t.audit == Written(s.audit, d, k)
    && t.members == s.members[d.x := Busy(s, d, Resolved(d.p, d.o))]
    && t.fates == s.fates[(d.p, d.o) := Verdict(d, k)]
  }

  lemma DoneSettles(s: State, t: State, d: Delivery, k: nat)
    requires Ready(s, d) && d.payload.Text? && 1 <= k <= Consumer.MAX_ATTEMPTS && Within(s, t, d, k - 1)
    requires d.script.outcomes[k - 1].Done?
    ensures Enabled(t, Call(d, k)) && IsSettled(s, Do(t, Call(d, k)), d, k)
  {
    NextCall(s, t, d, k - 1);
    assert Do(t, Call(d, k)).members == s.members[d.x := Busy(s, d, Resolved(d.p, d.o))];
  }

  lemma PoisonSettles(s: State, t: State, d: Delivery, k: nat)
    requires Ready(s, d) && d.payload.Text? && 1 <= k <= Consumer.MAX_ATTEMPTS && Within(s, t, d, k - 1)
    requires d.script.outcomes[k - 1].Poison?
    ensures Enabled(t, Call(d, k)) && IsSettled(s, Do(t, Call(d, k)), d, k)
  {
    NextCall(s, t, d, k - 1);
    assert Do(t, Call(d, k)).members == s.members[d.x := Busy(s, d, Resolved(d.p, d.o))];
  }

  lemma FifthSettles(s: State, t: State, d: Delivery)
    requires Ready(s, d) && d.payload.Text? && Within(s, t, d, 4)
    requires d.script.outcomes[4].Transient?
    ensures Enabled(t, Call(d, 5)) && IsSettled(s, Do(t, Call(d, 5)), d, 5)
  {
    NextCall(s, t, d, 4);
    assert Do(t, Call(d, 5)).members == s.members[d.x := Busy(s, d, Resolved(d.p, d.o))];
  }

  // -------------------------------------------------------------------- runs

  lemma {:induction false} CallsRun(s: State, d: Delivery, k: nat)
    requires Ready(s, d) && d.payload.Text? && k < Consumer.MAX_ATTEMPTS
    requires forall j :: 0 <= j < k ==> d.script.outcomes[j].Transient?
    ensures Run(s, Taken(d, k)) && Within(s, After(s, Taken(d, k)), d, k)
  {
    if k == 0 {
      assert [] + [Pull(d.x, d.p)] == [Pull(d.x, d.p)];
      OffsetOrder.Extend(s, [], Pull(d.x, d.p));
    } else {
      CallsRun(s, d, k - 1);
      StumbleStays(s, After(s, Taken(d, k - 1)), d, k - 1);
      OffsetOrder.Extend(s, Taken(d, k - 1), Call(d, k));
    }
  }

  lemma SettlingRun(s: State, d: Delivery, k: nat)
    requires Ready(s, d) && d.payload.Text? && 1 <= k <= Consumer.MAX_ATTEMPTS && Consumer.Settles(d.script, k)
    requires forall j :: 0 <= j < k - 1 ==> d.script.outcomes[j].Transient?
    ensures Run(s, Taken(d, k)) && IsSettled(s, After(s, Taken(d, k)), d, k)
  {
    CallsRun(s, d, k - 1);
    var t := After(s, Taken(d, k - 1));
    match d.script.outcomes[k - 1] {
      case Done => DoneSettles(s, t, d, k);
      case Poison => PoisonSettles(s, t, d, k);
      case Transient => FifthSettles(s, t, d);
    }
    OffsetOrder.Extend(s, Taken(d, k - 1), Call(d, k));
  }

  /** The loop's steps with one record, by its script: the calls, and its commit unless the shutdown cuts in. */
  function Loop(d: Delivery): seq<Action>
    requires Consumer.Complete(d.script) && |d.effects| == |d.mints| == Consumer.MAX_ATTEMPTS
  {
    Taken(d, Consumer.CallCount(Msg(d), d.script))
    + (if d.payload.Text? then [] else [Skip(d.x)])
    + [if Consumer.CutShort(Msg(d), d.script) then Exit(d.x)
       else if d.script.commitOk then CommitAccepted(d.x) else CommitRefused(d.x)]
  }

  /**
   * What the loop makes of a record is a run of the machine: as many calls as the loop makes, the
   * audit log they leave, and then either the record settled with its commit on the way if that was
   * accepted, or, cut short by a shutdown, the member gone with neither verdict nor commit.
   */
  lemma LoopIsARun(s: State, d: Delivery)
    requires Ready(s, d)
    ensures Run(s, Loop(d))
    ensures var t := After(s, Loop(d)); var k := Consumer.CallCount(Msg(d), d.script);
            && t.log == s.log && t.committed == s.committed
            && t.audit == (if d.payload.Text? then Written(s.audit, d, k) else s.audit)
            && if Consumer.CutShort(Msg(d), d.script)
               then && t.fates == s.fates
                    && t.members == s.members[d.x := Member(false, map[], Idle, s.members[d.x].queue)]
               else && t.fates == s.fates[(d.p, d.o) := Verdict(d, k)]
                    && t.members == s.members[d.x := Busy(s, d, Idle).(queue := Queued(s, d))]
  {
    if !d.payload.Text? {
      EmptyRuns(s, d);
    } else if Consumer.CutShort(Msg(d), d.script) {
      ShutdownRuns(s, d);
    } else {
      CommitRuns(s, d);
    }
  }

  function Queued(s: State, d: Delivery): seq<(Partition, nat)>
    requires d.x in s.members
  {
    s.members[d.x].queue + if d.script.commitOk then [(d.p, d.o + 1)] else []
  }

  lemma EmptyRuns(s: State, d: Delivery)
    requires Ready(s, d) && !d.payload.Text?
    ensures Run(s, Loop(d))
    ensures var t := After(s, Loop(d));
            && t.log == s.log && t.committed == s.committed && t.audit == s.audit
            && t.fates == s.fates[(d.p, d.o) := Skipped]
            && t.members == s.members[d.x := Busy(s, d, Idle).(queue := Queued(s, d))]
  {
    assert [] + [Pull(d.x, d.p)] == [Pull(d.x, d.p)];
    OffsetOrder.Extend(s, [], Pull(d.x, d.p));
    OffsetOrder.Extend(s, [Pull(d.x, d.p)], Skip(d.x));
    var t := After(s, [Pull(d.x, d.p)] + [Skip(d.x)]);
    assert t.members == s.members[d.x := Busy(s, d, Resolved(d.p, d.o))];
    CommitEnds(s, t, d);
    OffsetOrder.Extend(s, [Pull(d.x, d.p)] + [Skip(d.x)], CommitOf(d));
  }

  function CommitOf(d: Delivery): Action {
    if d.script.commitOk then CommitAccepted(d.x) else CommitRefused(d.x)
  }

  lemma CommitEnds(s: State, t: State, d: Delivery)
    requires Ready(s, d) && t.members == s.members[d.x := Busy(s, d, Resolved(d.p, d.o))]
    ensures Enabled(t, CommitOf(d))
    ensures Do(t, CommitOf(d)) == t.(members := s.members[d.x := Busy(s, d, Idle).(queue := Queued(s, d))])
  {
    assert s.members[d.x].queue + [] == s.members[d.x].queue;
    assert Do(t, CommitOf(d)).members == s.members[d.x := Busy(s, d, Idle).(queue := Queued(s, d))];
  }

  /** Calls before the last have all failed transiently. */
  lemma EarlierCallsFail(d: Delivery)
    requires Consumer.Complete(d.script) && d.payload.Text?
    ensures forall j :: 0 <= j < Consumer.CallCount(Msg(d), d.script) - 1 ==> d.script.outcomes[j].Transient?
  {
    forall j | 0 <= j < Consumer.CallCount(Msg(d), d.script) - 1 ensures d.script.outcomes[j].Transient? {
      assert !Consumer.Ends(d.script, j + 1);
    }
  }

  lemma ShutdownRuns(s: State, d: Delivery)
    requires Ready(s, d) && d.payload.Text? && Consumer.CutShort(Msg(d), d.script)
    ensures Run(s, Loop(d))
    ensures var t := After(s, Loop(d)); var k := Consumer.CallCount(Msg(d), d.script);
            && t.log == s.log && t.committed == s.committed && t.fates == s.fates && t.audit == Written(s.audit, d, k)
            && t.members == s.members[d.x := Member(false, map[], Idle, s.members[d.x].queue)]
  {
    var k := Consumer.CallCount(Msg(d), d.script);
    EarlierCallsFail(d);
    CallsRun(s, d, k);
    assert Taken(d, k) + [] == Taken(d, k);
    OffsetOrder.Extend(s, Taken(d, k), Exit(d.x));
  }

  lemma CommitRuns(s: State, d: Delivery)
    requires Ready(s, d) && d.payload.Text? && !Consumer.CutShort(Msg(d), d.script)
    ensures Run(s, Loop(d))
    ensures var t := After(s, Loop(d)); var k := Consumer.CallCount(Msg(d), d.script);
            && t.log == s.log && t.committed == s.committed && t.audit == Written(s.audit, d, k)
            && t.fates == s.fates[(d.p, d.o) := Verdict(d, k)]
            && t.members == s.members[d.x := Busy(s, d, Idle).(queue := Queued(s, d))]
  {
    var k := Consumer.CallCount(Msg(d), d.script);
    EarlierCallsFail(d);
    SettlingRun(s, d, k);
    assert Taken(d, k) + [] == Taken(d, k);
    CommitEnds(s, After(s, Taken(d, k)), d);
    OffsetOrder.Extend(s, Taken(d, k), CommitOf(d));
  }

  /** A new process starts to read a partition at its committed offset, whoever read it before. */
  lemma NewcomerReads(s: State, x: MemberId, p: Partition)
    requires x !in s.members
    ensures Run(s, [Join(x)] + [Assign(x, p)])
    ensures var t := After(s, [Join(x)] + [Assign(x, p)]);
            t == s.(members := s.members[x := Member(true, map[p := At(s.committed, p)], Idle, [])])
  {
    assert [] + [Join(x)] == [Join(x)];
    OffsetOrder.Extend(s, [], Join(x));
    OffsetOrder.Extend(s, [Join(x)], Assign(x, p));
    assert After(s, [Join(x)] + [Assign(x, p)]).members
        == s.members[x := Member(true, map[p := At(s.committed, p)], Idle, [])];
  }

  function Without(position: map<Partition, nat>, p: Partition): map<Partition, nat> {
    map q | q in position && q != p :: position[q]
  }

  /** A rebalance from `x` to `y`: `x` keeps its record and its other partitions, `y` starts at the committed offset. */
  lemma HandedOver(s: State, x: MemberId, y: MemberId, p: Partition)
    requires Alive(s, x) && Alive(s, y) && x != y
    ensures Run(s, [Revoke(x, p)] + [Assign(y, p)])
    ensures var t := After(s, [Revoke(x, p)] + [Assign(y, p)]);
            t == s.(members := s.members[x := s.members[x].(position := Without(s.members[x].position, p))][
              y := s.members[y].(position := s.members[y].position[p := At(s.committed, p)])])
  {
    assert [] + [Revoke(x, p)] == [Revoke(x, p)];
    OffsetOrder.Extend(s, [], Revoke(x, p));
    assert Without(s.members[x].position, p) == s.members[x].position - {p};
    OffsetOrder.Extend(s, [Revoke(x, p)], Assign(y, p));
  }

  // ------------------------------------------------------------ reading on

  /** Steps of consumers, none of which makes up an id in `avoid`. */
  ghost predicate Avoids(acts: seq<Action>, avoid: set<Uuid>) {
    forall b :: b in acts ==> !b.Append? && forall id :: id in avoid ==> !MintOf(b, id)
  }

  ghost predicate Reading(s: State, x: MemberId, p: Partition, o: nat) {
    Alive(s, x) && s.members[x].phase.Idle? && p in s.members[x].position && s.members[x].position[p] == o
  }

  /** The record names an event by its own id. */
  ghost predicate Names(payload: Consumer.Payload, id: Uuid) {
    Carries(payload, id) && forall mint :: Consumer.Decode(payload.body, mint).Row?
  }

  /** Whatever the next record is, the member can settle it; if it names an event, the event is recorded. */
  lemma ReadsOne(s: State, x: MemberId, p: Partition, o: nat, avoid: set<Uuid>) returns (acts: seq<Action>)
    requires Reading(s, x, p, o) && o < |Records(s.log, p)|
    ensures Run(s, acts) && Avoids(acts, avoid) && Reading(After(s, acts), x, p, o + 1)
    ensures After(s, acts).log == s.log
    ensures forall id :: Names(Records(s.log, p)[o], id) ==> Consumer.HasId(After(s, acts).audit, id)
  {
    var t := Do(s, Pull(x, p));
    var settle := SettlesAny(t, x, avoid);
    assert [] + [Pull(x, p)] == [Pull(x, p)];
    OffsetOrder.Extend(s, [], Pull(x, p));
    OffsetOrder.Extend(s, [Pull(x, p)], settle);
    OffsetOrder.Extend(s, [Pull(x, p)] + [settle], CommitAccepted(x));
    acts := [Pull(x, p)] + [settle] + [CommitAccepted(x)];
  }

  lemma SettlesAny(s: State, x: MemberId, avoid: set<Uuid>) returns (a: Action)
    requires WorkingOn(s, x)
    ensures Enabled(s, a) && Avoids([a], avoid)
    ensures var t := Do(s, a); var m := s.members[x];
            && t.log == s.log && t.members == s.members[x := m.(phase := Resolved(m.phase.p, m.phase.o))]
            && forall id :: Names(Current(s, x), id) ==> Consumer.HasId(t.audit, id)
  {
    a := Skip(x);
    if Current(s, x).Text? {
      var mint := OffsetOrder.FreshMint(s, avoid);
      a := if Consumer.Decode(Current(s, x).body, mint).Row? then Record(x, mint) else Drop(x, mint);
    }
    if id :| Names(Current(s, x), id) {
      NamedIsRecorded(s, x, a, id);
    }
  }

  lemma NamedIsRecorded(s: State, x: MemberId, a: Action, id: Uuid)
    requires Enabled(s, a) && (a.Skip? || a.Drop? || a.Record?) && a.x == x && Names(Current(s, x), id)
    ensures Consumer.HasId(Do(s, a).audit, id) && forall other :: Names(Current(s, x), other) ==> other == id
  {
    Consumer.RowKey(Current(s, x).body, 0);
    var row := RowOf(s, x, a.mint);
    Consumer.InsertIsIdempotent(s.audit, row, Consumer.Insert(s.audit, row));
  }

  lemma {:induction false} ReadsUpTo(s: State, x: MemberId, p: Partition, o: nat, n: nat, avoid: set<Uuid>)
      returns (acts: seq<Action>)
    requires Reading(s, x, p, o) && o <= n <= |Records(s.log, p)|
    ensures Run(s, acts) && Avoids(acts, avoid) && Reading(After(s, acts), x, p, n)
    ensures After(s, acts).log == s.log
    decreases n - o
  {
    if o == n {
      return [];
    }
    var one := ReadsOne(s, x, p, o, avoid);
    var rest := ReadsUpTo(After(s, one), x, p, o + 1, n, avoid);
    Joined(s, one, rest);
    acts := one + rest;
  }

  lemma {:induction false} Joined(s: State, a: seq<Action>, b: seq<Action>)
    requires Run(s, a) && Run(After(s, a), b)
    ensures Run(s, a + b) && After(s, a + b) == After(After(s, a), b)
    decreases |a|
  {
    if a == [] {
      assert a + b == b;
    } else {
      Joined(Do(s, a[0]), a[1..], b);
      assert (a + b)[1..] == a[1..] + b;
    }
  }

  /** A new process can read on from the committed offset through record `n`, and record the event that one names. */
  lemma NewcomerReadsThrough(s: State, x: MemberId, p: Partition, n: nat, id: Uuid, avoid: set<Uuid>)
      returns (acts: seq<Action>)
    requires x !in s.members && At(s.committed, p) <= n < |Records(s.log, p)| && Names(Records(s.log, p)[n], id)
    ensures Run(s, acts) && Avoids(acts, avoid) && Consumer.HasId(After(s, acts).audit, id)
  {
    NewcomerReads(s, x, p);
    var join := [Join(x)] + [Assign(x, p)];
    var t := After(s, join);
    var skipped := ReadsUpTo(t, x, p, At(s.committed, p), n, avoid);
    var last := ReadsOne(After(t, skipped), x, p, n, avoid);
    Joined(t, skipped, last);
    Joined(s, join, skipped + last);
    acts := join + (skipped + last);
  }
}
