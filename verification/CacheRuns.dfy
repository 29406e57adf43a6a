/**
 * One cached answer under concurrent `resolve` calls: the GET, the database read and the SET EX of
 * each call interleave with commits and flushes. The machine is the same for the active flag and
 * for the role list; the ttl and the encoding differ.
 */
module CacheRuns {
  import opened Common
  import Access

  type CallId = nat

  /** A commit that changes the user's access, and when. */
  datatype Commit = Commit(at: nat, truth: Access.Truth)

  /** What a call read: the commit it saw and when. */
  datatype Reading = Reading(version: nat, readAt: nat)

  /** Which of the user's two entries. */
  datatype Part = Flag | Roles

  datatype Value = Active(active: bool) | Names(names: seq<string>)

  function ValueOf(part: Part, truth: Access.Truth): Value {
    if part.Flag? then Active(truth.active) else Names(truth.roles)
  }

  function Encode(v: Value): string {
    match v
    case Active(active) => Access.EncodeFlag(active)
    case Names(names) => Access.EncodeRoles(names)
  }

  /** What a GET makes of the stored text; `None` is a miss. */
  function Decode(part: Part, text: string): Option<Value> {
    match part
    case Flag => (match Access.DecodeFlag(text) case Some(active) => Some(Active(active)) case None => None)
    case Roles => (match Access.DecodeRoles(text) case Some(names) => Some(Names(names)) case None => None)
  }

  /** Served from the cache, the value is itself or a miss. */
  predicate Intact(part: Part, truth: Access.Truth) {
    var v := ValueOf(part, truth);
    Decode(part, Encode(v)) == None || Decode(part, Encode(v)) == Some(v)
  }

  /** The flag always is; a role list iff no name has a newline and it is not the sentinel alone. */
  lemma IntactExactly(part: Part, truth: Access.Truth)
    ensures Intact(part, truth) <==>
            part.Flag? || (Access.Clean(truth.roles) && truth.roles != [Access.EMPTY_ROLES_SENTINEL])
  {
    Access.FlagRoundTrip(truth.active);
    Access.RolesRoundTrip(truth.roles);
    if part.Roles? && truth.roles != [] && !Access.Clean(truth.roles) {
      Access.UncleanIsNotAMiss(truth.roles);
    }
  }

  /** The stored text, for the record what it was made from, and its first instant of absence. */
  datatype Cell = Empty | Holds(text: string, reading: Reading, expiresAt: nat)

  /** What a call was told, and the reading behind it. */
  datatype Answer = Answer(said: Value, reading: Reading, at: nat)

  datatype State = State(now: nat, log: seq<Commit>, cell: Cell, fills: map<CallId, Reading>, answers: seq<Answer>)

  /** `delay` bounds how long a call takes from its database read to its SET EX and answer. */
  datatype Timing = Timing(part: Part, delay: nat)

  function Ttl(t: Timing): nat {
    if t.part.Flag? then Access.ACTIVE_TTL else Access.ROLE_TTL
  }

  /** What the database said to a reading. */
  function ReadValue(log: seq<Commit>, t: Timing, r: Reading): Value
    requires r.version < |log|
  {
    ValueOf(t.part, log[r.version].truth)
  }

  /** `works` says whether the cache command succeeds; a GET that fails is a `Read`. */
  datatype Action =
    | Tick(elapsed: nat)
    | Write(truth: Access.Truth)
    | Hit
    | Read(x: CallId)
    | Fill(x: CallId, works: bool)
    | Drop(x: CallId)
    | Flush(works: bool)

  ghost predicate Enabled(s: State, t: Timing, a: Action) {
    match a
    case Tick(elapsed) => forall x :: x in s.fills ==> s.now + elapsed <= s.fills[x].readAt + t.delay
    case Write(_) => true
    case Hit => s.cell.Holds? && s.now < s.cell.expiresAt && Decode(t.part, s.cell.text).Some?
    case Read(x) => x !in s.fills && s.log != []
    case Fill(x, _) => x in s.fills && s.fills[x].version < |s.log|
    case Drop(x) => x in s.fills
    case Flush(_) => true
  }

  function Do(s: State, t: Timing, a: Action): State
    requires Enabled(s, t, a)
  {
    match a
    case Tick(elapsed) => s.(now := s.now + elapsed)
    case Write(truth) => s.(log := s.log + [Commit(s.now, truth)])
    case Hit => s.(answers := s.answers + [Answer(Decode(t.part, s.cell.text).value, s.cell.reading, s.now)])
    case Read(x) => s.(fills := s.fills[x := Reading(|s.log| - 1, s.now)])
    case Fill(x, works) =>
      var v := ReadValue(s.log, t, s.fills[x]);
      s.(cell := if works then Holds(Encode(v), s.fills[x], s.now + Ttl(t)) else s.cell,
         answers := s.answers + [Answer(v, s.fills[x], s.now)], fills := s.fills - {x})
    case Drop(x) => s.(fills := s.fills - {x})
    case Flush(works) => s.(cell := if works then Empty else s.cell)
  }

  // --------------------------------------------------------------- invariant

  /** The reading saw the value that was committed at its instant. */
  predicate Truthful(log: seq<Commit>, r: Reading) {
    && r.version < |log| && log[r.version].at <= r.readAt
    && (r.version + 1 < |log| ==> r.readAt <= log[r.version + 1].at)
  }

  ghost predicate LogOk(log: seq<Commit>, now: nat) {
    && (forall i :: 0 <= i < |log| ==> log[i].at <= now)
    && (forall i, j :: 0 <= i < j < |log| ==> log[i].at <= log[j].at)
  }

  ghost predicate AnswersOk(s: State, t: Timing) {
    forall i :: 0 <= i < |s.answers| ==>
      && Truthful(s.log, s.answers[i].reading)
      && s.answers[i].reading.readAt <= s.answers[i].at <= s.now
      && s.answers[i].at <= s.answers[i].reading.readAt + t.delay + Ttl(t)
      && SaidOk(s.log, t, s.answers[i])
  }

  /** The database's own word, or what the cache makes of it. */
  predicate SaidOk(log: seq<Commit>, t: Timing, a: Answer)
    requires a.reading.version < |log|
  {
    var v := ReadValue(log, t, a.reading);
    a.said == v || Decode(t.part, Encode(v)) == Some(a.said)
  }

  ghost predicate Safe(s: State, t: Timing) {
    && LogOk(s.log, s.now)
    && AnswersOk(s, t)
    && (forall x :: x in s.fills ==>
          Truthful(s.log, s.fills[x]) && s.fills[x].readAt <= s.now <= s.fills[x].readAt + t.delay)
    && (s.cell.Holds? ==>
          Truthful(s.log, s.cell.reading) && s.cell.reading.readAt <= s.now
          && s.cell.expiresAt <= s.cell.reading.readAt + t.delay + Ttl(t)
          && s.cell.text == Encode(ReadValue(s.log, t, s.cell.reading)))
  }

  lemma TruthfulStays(log: seq<Commit>, now: nat, truth: Access.Truth, r: Reading)
    requires Truthful(log, r) && r.readAt <= now
    ensures Truthful(log + [Commit(now, truth)], r)
  {
  }

  lemma WriteKeepsSafe(s: State, t: Timing, truth: Access.Truth)
    requires Safe(s, t)
    ensures Safe(Do(s, t, Write(truth)), t)
  {
    var log := s.log + [Commit(s.now, truth)];
    forall r | Truthful(s.log, r) && r.readAt <= s.now ensures Truthful(log, r) {
      TruthfulStays(s.log, s.now, truth, r);
    }
    assert LogOk(log, s.now);
  }

  lemma SafeStep(s: State, t: Timing, a: Action)
    requires Safe(s, t) && Enabled(s, t, a)
    ensures Safe(Do(s, t, a), t)
  {
    if a.Write? {
      WriteKeepsSafe(s, t, a.truth);
    }
  }

  ghost predicate Run(s: State, t: Timing, acts: seq<Action>)
    decreases |acts|
  {
    acts == [] || (Enabled(s, t, acts[0]) && Run(Do(s, t, acts[0]), t, acts[1..]))
  }

  ghost function After(s: State, t: Timing, acts: seq<Action>): State
    requires Run(s, t, acts)
    decreases |acts|
  {
    if acts == [] then s else After(Do(s, t, acts[0]), t, acts[1..])
  }

  /** Every answer rests on a reading no more than the entry's ttl plus the fill delay older than itself. */
  lemma {:induction false} AnswersAreFresh(s: State, t: Timing, acts: seq<Action>)
    requires Safe(s, t) && Run(s, t, acts)
    ensures Safe(After(s, t, acts), t)
    ensures forall i :: 0 <= i < |After(s, t, acts).answers| ==>
              var a := After(s, t, acts).answers[i];
              Truthful(After(s, t, acts).log, a.reading)
                  && a.reading.readAt <= a.at <= a.reading.readAt + Ttl(t) + t.delay
    decreases |acts|
  {
    if acts != [] {
      SafeStep(s, t, acts[0]);
      AnswersAreFresh(Do(s, t, acts[0]), t, acts[1..]);
    }
  }

  /** `said` is what the database held at some instant between `from` and `to`. */
  ghost predicate HeldWithin(log: seq<Commit>, t: Timing, said: Value, from: int, to: nat) {
    exists r: Reading :: Truthful(log, r) && ReadValue(log, t, r) == said && from <= r.readAt <= to
  }

  /**
   * Bounded staleness: an active flag served was true of the database at most 60 s plus the fill
   * delay before; a role list, 900 s, if the list read survives the cache's encoding.
   */
  lemma AccessIsFresh(s: State, t: Timing, acts: seq<Action>, i: nat)
    requires Safe(s, t) && Run(s, t, acts) && i < |After(s, t, acts).answers|
    ensures var end := After(s, t, acts); var a := end.answers[i];
            && a.reading.version < |end.log|
            && var read := end.log[a.reading.version].truth;
               (t.part.Flag? || (Access.Clean(read.roles) && read.roles != [Access.EMPTY_ROLES_SENTINEL]) ==>
                  HeldWithin(end.log, t, a.said, a.at - (if t.part.Flag? then 60000 else 900000) - t.delay, a.at))
  {
    AnswersAreFresh(s, t, acts);
    var end := After(s, t, acts);
    var a := end.answers[i];
    assert Truthful(end.log, a.reading) && SaidOk(end.log, t, a);
    IntactExactly(t.part, end.log[a.reading.version].truth);
  }

  /**
   * The condition is exact: any other list, once it fills the cache, is served to the next caller as a
   * different one.
   */
  lemma OtherListsAreServedMangled(s: State, t: Timing, x: CallId)
    requires Safe(s, t) && x in s.fills && !Intact(t.part, s.log[s.fills[x].version].truth)
    ensures var acts := [Fill(x, true), Hit];
            && Run(s, t, acts) && |After(s, t, acts).answers| == |s.answers| + 2
            && After(s, t, acts).answers[|s.answers| + 1].reading == s.fills[x]
            && After(s, t, acts).answers[|s.answers| + 1].said != ReadValue(s.log, t, s.fills[x])
  {
    var acts := [Fill(x, true), Hit];
    assert acts[1..] == [Hit];
    var s1 := Do(s, t, Fill(x, true));
    assert Run(s1, t, [Hit]) && After(s1, t, [Hit]) == Do(s1, t, Hit);
  }

  // ------------------------------------------------------------------ flushes

  /** Everything that could still be served saw commit `version` or a later one. */
  ghost predicate Since(s: State, version: nat, answered: nat) {
    && version < |s.log| && answered <= |s.answers|
    && (s.cell.Holds? ==> s.cell.reading.version >= version)
    && (forall x :: x in s.fills ==> s.fills[x].version >= version)
    && forall i :: answered <= i < |s.answers| ==> s.answers[i].reading.version >= version
  }

  lemma SinceStep(s: State, t: Timing, a: Action, version: nat, answered: nat)
    requires Enabled(s, t, a) && Since(s, version, answered)
    ensures Since(Do(s, t, a), version, answered)
  {
  }

  lemma {:induction false} SinceStays(s: State, t: Timing, acts: seq<Action>, version: nat, answered: nat)
    requires Run(s, t, acts) && Since(s, version, answered)
    ensures Since(After(s, t, acts), version, answered)
    decreases |acts|
  {
    if acts != [] {
      SinceStep(s, t, acts[0], version, answered);
      SinceStays(Do(s, t, acts[0]), t, acts[1..], version, answered);
    }
  }

  /** A call that read before commit `version` has its SET EX still to come. */
  predicate Straggles(s: State, version: nat) {
    exists x :: x in s.fills && s.fills[x].version < version
  }

  /** A flush after commit `version` that no straggler outlives: every later answer is post-commit. */
  lemma FlushIsFinal(s: State, t: Timing, acts: seq<Action>, version: nat)
    requires version < |s.log| && !Straggles(s, version)
    requires Run(s, t, [Flush(true)] + acts)
    ensures Since(After(s, t, [Flush(true)] + acts), version, |s.answers|)
  {
    var all := [Flush(true)] + acts;
    assert all[1..] == acts;
    SinceStays(Do(s, t, all[0]), t, acts, version, |s.answers|);
  }

  /** The condition is exact: one straggler is enough for a later caller to be served the old value. */
  lemma AStragglerUndoesTheFlush(s: State, t: Timing, version: nat, x: CallId)
    requires x in s.fills && s.fills[x].version < version < |s.log|
    // The one list that always misses, of one empty name, fills nothing.
    requires Decode(t.part, Encode(ReadValue(s.log, t, s.fills[x]))).Some?
    ensures var acts := [Flush(true), Fill(x, true), Hit];
            && Run(s, t, acts) && |After(s, t, acts).answers| == |s.answers| + 2
            && After(s, t, acts).answers[|s.answers| + 1].reading.version < version
  {
    var acts := [Flush(true), Fill(x, true), Hit];
    assert acts[1..] == [Fill(x, true), Hit] && [Fill(x, true), Hit][1..] == [Hit];
    var s1 := Do(s, t, Flush(true));
    var s2 := Do(s1, t, Fill(x, true));
    assert Run(s2, t, [Hit]) && After(s2, t, [Hit]) == Do(s2, t, Hit);
    assert Run(s1, t, [Fill(x, true), Hit]) && After(s1, t, [Fill(x, true), Hit]) == Do(s2, t, Hit);
  }

  lemma OldReadingsAreOld(log: seq<Commit>, r: Reading, version: nat)
    requires forall i, j :: 0 <= i < j < |log| ==> log[i].at <= log[j].at
    requires Truthful(log, r) && version < |log|
    ensures r.version < version ==> r.readAt <= log[version].at
  {
    if r.version + 1 < version {
      assert log[r.version + 1].at <= log[version].at;
    }
  }

  /** Even so, once ttl and delay have passed since a commit, no answer predates it. */
  lemma StaleAnswersDieOut(s: State, t: Timing, acts: seq<Action>, version: nat, i: nat)
    requires Safe(s, t) && Run(s, t, acts) && version < |After(s, t, acts).log| && i < |After(s, t, acts).answers|
    requires After(s, t, acts).answers[i].at > After(s, t, acts).log[version].at + Ttl(t) + t.delay
    ensures After(s, t, acts).answers[i].reading.version >= version
  {
    AnswersAreFresh(s, t, acts);
    OldReadingsAreOld(After(s, t, acts).log, After(s, t, acts).answers[i].reading, version);
  }

  // ----------------------------------------------------- one resolve served alone

  /** The cell as the store's entry. */
  function EntryOf(cell: Cell): Option<Access.Entry> {
    match cell
    case Empty => None
    case Holds(text, _, expiresAt) => Some(Access.Entry(text, expiresAt))
  }

  /** What one half of `resolve` makes of its entry. */
  function Served(part: Part, entry: Option<Access.Entry>, now: nat): Option<Value> {
    match part
    case Flag =>
      var flag := Access.CachedFlag(Access.Cached(entry, None), now);
      if flag.Some? then Some(Active(flag.value)) else None
    case Roles =>
      var names := Access.CachedRoles(Access.Cached(None, entry), now);
      if names.Some? then Some(Names(names.value)) else None
  }

  /**
   * Each half of a `resolve` served alone is a run: a hit exactly when the entry is there, unexpired
   * and readable, and otherwise a read and a fill, with the same answer and the same entry afterwards.
   */
  lemma ResolveIsARun(s: State, t: Timing, x: CallId, getsWork: bool, setsWork: bool)
    requires s.log != [] && x !in s.fills
    ensures var truth := s.log[|s.log| - 1].truth;
            var served := if getsWork then Served(t.part, EntryOf(s.cell), s.now) else None;
            var acts := if served.Some? then [Hit] + [] else [Read(x)] + ([Fill(x, setsWork)] + []);
            var v := if served.Some? then served.value else ValueOf(t.part, truth);
            && Run(s, t, acts) && |After(s, t, acts).answers| == |s.answers| + 1
            && After(s, t, acts).answers[|s.answers|].said == v
            && EntryOf(After(s, t, acts).cell)
               == (if served.Some? || !setsWork then EntryOf(s.cell) else Some(Access.Entry(Encode(v), s.now + Ttl(t))))
            && After(s, t, acts).fills == s.fills && After(s, t, acts).log == s.log
    ensures getsWork ==> (Served(t.part, EntryOf(s.cell), s.now).Some? <==> Enabled(s, t, Hit))
  {
    if getsWork && Served(t.part, EntryOf(s.cell), s.now).Some? {
      OneMore(s, t, Hit, []);
    } else {
      var s1 := Do(s, t, Read(x));
      OneMore(s1, t, Fill(x, setsWork), []);
      OneMore(s, t, Read(x), [Fill(x, setsWork)] + []);
      assert Do(s1, t, Fill(x, setsWork)).fills == s.fills;
    }
  }

  lemma OneMore(s: State, t: Timing, a: Action, acts: seq<Action>)
    requires Enabled(s, t, a) && Run(Do(s, t, a), t, acts)
    ensures Run(s, t, [a] + acts) && After(s, t, [a] + acts) == After(Do(s, t, a), t, acts)
  {
    assert ([a] + acts)[1..] == acts;
  }
}
