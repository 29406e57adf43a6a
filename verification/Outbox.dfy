/** The transactional outbox: claiming due rows, publishing a batch under a deadline, and bookkeeping. */
module Outbox {
  import opened Common
  import opened Events

  const BATCH_SIZE: nat := 100
  const LEASE: nat := 60 * SECOND
  const PUBLISH_BUDGET: nat := 15 * SECOND
  const MAX_RETRY_DELAY: nat := 60 * 60 * SECOND
  const I32_MAX: nat := 0x7fff_ffff
  const U64_MAX: nat := 0xffff_ffff_ffff_ffff

  datatype Row = Row(
    payload: Envelope,
    createdAt: nat,
    publishedAt: Option<nat>,
    attempts: nat,
    lastError: Option<string>,
    nextAttemptAt: nat)

  type Table = map<Uuid, Row>

  datatype ClaimedRow = ClaimedRow(id: Uuid, payload: Envelope, attempts: nat, createdAt: nat)

  datatype Failure = Failure(id: Uuid, attemptsBefore: nat, reason: string)

  datatype Outcome = Outcome(published: seq<Uuid>, failed: seq<Failure>)

  // ---------------------------------------------------------------- backoff

  /** `1u64.checked_shl(n)`: overflows from 64 on. */
  function CheckedShl(n: nat): Option<nat> {
    if n < 64 then Some(Pow2(n)) else None
  }

  function RetryDelay(attempts: nat): nat {
    var secs := match CheckedShl(attempts) case Some(p) => p case None => U64_MAX;
    if secs * SECOND <= MAX_RETRY_DELAY then secs * SECOND else MAX_RETRY_DELAY
  }

  /** The overflow fallback never shows: the delay is `min(2^attempts s, 1 h)` for every count. */
  lemma RetryDelayIsCappedPower(attempts: nat)
    ensures RetryDelay(attempts) == Min(Pow2(attempts), 3600) * SECOND
    ensures SECOND <= RetryDelay(attempts) <= MAX_RETRY_DELAY
  {
    if attempts >= 12 {
      assert Pow2(12) == 4096 by {
        assert Pow2(4) == 16;
        assert Pow2(8) == 256;
      }
      Pow2Monotone(12, attempts);
    }
  }

  // ------------------------------------------------------------------ claim

  predicate Due(row: Row, now: nat) {
    row.publishedAt.None? && row.nextAttemptAt <= now
  }

  /**
   * What `SELECT id ... ORDER BY next_attempt_at LIMIT 100 FOR UPDATE SKIP LOCKED` may return:
   * due rows nobody has locked, never more than the batch size, and a row is left behind only
   * by a full batch whose rows have all been due at least as long.
   */
  ghost predicate Picked(rows: Table, now: nat, locked: set<Uuid>, ids: set<Uuid>) {
    && |ids| <= BATCH_SIZE
    && (forall id :: id in ids ==> id in rows && Due(rows[id], now) && id !in locked)
    && (forall b :: b in rows && Due(rows[b], now) && b !in locked && b !in ids ==>
          |ids| == BATCH_SIZE && forall a :: a in ids ==> rows[a].nextAttemptAt <= rows[b].nextAttemptAt)
  }

  function Leased(rows: Table, ids: set<Uuid>, now: nat): Table {
    map id | id in rows :: if id in ids then rows[id].(nextAttemptAt := now + LEASE) else rows[id]
  }

  function Ids(batch: seq<ClaimedRow>): set<Uuid> {
    set r | r in batch :: r.id
  }

  ghost predicate DistinctIds(batch: seq<ClaimedRow>) {
    forall i, j :: 0 <= i < j < |batch| ==> batch[i].id != batch[j].id
  }

  predicate OldestFirst(batch: seq<ClaimedRow>) {
    forall i, j :: 0 <= i < j < |batch| ==> batch[i].createdAt <= batch[j].createdAt
  }

  function AsClaimed(rows: Table, id: Uuid): ClaimedRow
    requires id in rows
  {
    ClaimedRow(id, rows[id].payload, rows[id].attempts, rows[id].createdAt)
  }

  /** A batch a claim hands out: each picked row once, as it stood, oldest `created_at` first. */
  ghost predicate Claimed(rows: Table, ids: set<Uuid>, batch: seq<ClaimedRow>) {
    && Ids(batch) == ids
    && DistinctIds(batch)
    && OldestFirst(batch)
    && forall r :: r in batch ==> r.id in rows && r == AsClaimed(rows, r.id)
  }

  /** What has been fetched so far: `ids`, each once, as they stand. */
  ghost predicate Fetched(rows: Table, ids: set<Uuid>, batch: seq<ClaimedRow>) {
    && Ids(batch) == ids
    && DistinctIds(batch)
    && |batch| == |ids|
    && forall r :: r in batch ==> r.id in rows && r == AsClaimed(rows, r.id)
  }

  lemma FetchOne(rows: Table, ids: set<Uuid>, batch: seq<ClaimedRow>, id: Uuid)
    requires Fetched(rows, ids, batch) && id in rows && id !in ids
    ensures Fetched(rows, ids + {id}, batch + [AsClaimed(rows, id)])
  {
    var row := AsClaimed(rows, id);
    forall k | 0 <= k < |batch| ensures batch[k].id != id {
      assert batch[k] in batch;
    }
    assert Ids(batch + [row]) == Ids(batch) + {id} by {
      assert forall r :: r in batch + [row] <==> r in batch || r == row;
    }
  }

  /** `rows.sort_by_key(|row| row.created_at)`. */
  function SortByCreatedAt(batch: seq<ClaimedRow>): seq<ClaimedRow> {
    SortByKey((r: ClaimedRow) => r.createdAt, batch)
  }

  lemma SortKeepsFetched(rows: Table, ids: set<Uuid>, batch: seq<ClaimedRow>)
    requires Fetched(rows, ids, batch)
    ensures Claimed(rows, ids, SortByCreatedAt(batch))
    ensures |SortByCreatedAt(batch)| == |ids|
  {
    var key := (r: ClaimedRow) => r.createdAt;
    var sorted := SortByKey(key, batch);
    SortByKeySorts(key, batch);
    assert sorted == SortByCreatedAt(batch);
    DistinctIsMultiset(batch, sorted);
    assert |multiset(sorted)| == |sorted| && |multiset(batch)| == |batch|;
    forall i, j | 0 <= i < j < |sorted| ensures sorted[i].createdAt <= sorted[j].createdAt {
      assert key(sorted[i]) <= key(sorted[j]);
    }
  }

  /** `RETURNING ...`, fetched row by row in whatever order, then sorted. */
  method Return(rows: Table, picked: set<Uuid>) returns (batch: seq<ClaimedRow>)
    requires picked <= rows.Keys
    ensures Claimed(rows, picked, batch)
    ensures |batch| == |picked|
  {
    var fetched: seq<ClaimedRow>, todo := [], picked;
    ghost var done: set<Uuid> := {};
    while todo != {}
      invariant done !! todo && done + todo == picked
      invariant Fetched(rows, done, fetched)
      decreases todo
    {
      var id :| id in todo;
      FetchOne(rows, done, fetched, id);
      fetched := fetched + [AsClaimed(rows, id)];
      todo, done := todo - {id}, done + {id};
    }
    assert done == picked;
    SortKeepsFetched(rows, picked, fetched);
    batch := SortByCreatedAt(fetched);
  }

  lemma DistinctIsMultiset(a: seq<ClaimedRow>, b: seq<ClaimedRow>)
    requires multiset(a) == multiset(b)
    requires DistinctIds(a)
    ensures DistinctIds(b)
    ensures Ids(a) == Ids(b)
    ensures forall r :: r in b <==> r in a
  {
    forall r ensures r in b <==> r in a {
      assert r in a <==> r in multiset(a);
      assert r in b <==> r in multiset(b);
    }
    forall i, j | 0 <= i < j < |b| ensures b[i].id != b[j].id {
      if b[i] == b[j] {
        var x := b[i];
        assert b == b[..i] + [b[i]] + b[i + 1..j] + [b[j]] + b[j + 1..];
        assert multiset(b)[x] >= 2;
        AtMostOnce(a, x);
      } else {
        assert b[i] in a && b[j] in a;
      }
    }
  }

  lemma {:induction false} AtMostOnce(a: seq<ClaimedRow>, x: ClaimedRow)
    requires DistinctIds(a)
    ensures multiset(a)[x] <= 1
  {
    if a != [] {
      assert a == [a[0]] + a[1..];
      AtMostOnce(a[1..], x);
      if a[0] == x {
        assert x !in a[1..];
      }
    }
  }

  // ---------------------------------------------------------------- publish

  /** How the producer answers one `publish` call, `after` being how long it takes. */
  datatype Answer =
    | Acked(after: nat)
    | Refused(after: nat, reason: string)
    | Silent

  /** What befalls one row of the batch. */
  datatype Attempt = Unserializable(reason: string) | Sent(answer: Answer)

  /** How one row leaves the loop. */
  datatype Result = Ok | Err(reason: string) | Deadline

  const BUDGET_EXCEEDED := "publish exceeded the 15s batch budget"

  /** `timeout_at(deadline, publish)`: an answer that is there when the deadline is, wins. */
  function Resolve(attempt: Attempt, now: nat, deadline: nat): Result {
    match attempt
    case Unserializable(reason) => Err("payload re-serialize error: " + reason)
    case Sent(Acked(after)) => if after == 0 || now + after <= deadline then Ok else Deadline
    case Sent(Refused(after, reason)) =>
      if after == 0 || now + after <= deadline then Err("kafka: " + reason) else Deadline
    case Sent(Silent) => Deadline
  }

  /** When `Resolve` has its result. */
  function ResolvedAt(attempt: Attempt, now: nat, deadline: nat): nat {
    if Resolve(attempt, now, deadline).Deadline? then (if now <= deadline then deadline else now)
    else match attempt
      case Unserializable(_) => now
      case Sent(Acked(after)) => now + after
      case Sent(Refused(after, _)) => now + after
      case Sent(Silent) => now
  }

  /** Account for one row's result. */
  function Note(outcome: Outcome, row: ClaimedRow, result: Result): Outcome {
    match result
    case Ok => outcome.(published := outcome.published + [row.id])
    case Err(reason) => outcome.(failed := outcome.failed + [Failure(row.id, row.attempts, reason)])
    case Deadline => outcome.(failed := outcome.failed + [Failure(row.id, row.attempts, BUDGET_EXCEEDED)])
  }

  /** The result of the first `n` rows that are tried, and the time it is known. */
  function Elapsed(env: seq<Attempt>, start: nat, deadline: nat, n: nat): nat
    requires n <= |env|
  {
    if n == 0 then start
    else var t := Elapsed(env, start, deadline, n - 1); ResolvedAt(env[n - 1], t, deadline)
  }

  function ResultOf(env: seq<Attempt>, start: nat, deadline: nat, i: nat): Result
    requires i < |env|
  {
    Resolve(env[i], Elapsed(env, start, deadline, i), deadline)
  }

  /** The first `n` rows are tried: nothing among those before the last of them met the deadline. */
  ghost predicate Tried(env: seq<Attempt>, start: nat, deadline: nat, n: nat)
    requires n <= |env|
  {
    forall j :: 0 <= j < n - 1 ==> !ResultOf(env, start, deadline, j).Deadline?
  }

  /** The loop's accumulator after `n` rows. */
  function OutcomeOf(rows: seq<ClaimedRow>, env: seq<Attempt>, start: nat, deadline: nat, n: nat): Outcome
    requires n <= |env| == |rows|
  {
    if n == 0 then Outcome([], [])
    else Note(OutcomeOf(rows, env, start, deadline, n - 1), rows[n - 1], ResultOf(env, start, deadline, n - 1))
  }

  ghost predicate FailedAs(failed: seq<Failure>, row: ClaimedRow) {
    exists k :: 0 <= k < |failed| && failed[k].id == row.id && failed[k].attemptsBefore == row.attempts
  }

  /**
   * Every tried row is in exactly the list its result says, carrying the attempt count it was
   * claimed with; a row that was not tried is in neither list.
   */
  lemma {:induction false} OutcomeAccountsForTriedRows(
      rows: seq<ClaimedRow>, env: seq<Attempt>, start: nat, deadline: nat, n: nat, i: nat)
    requires n <= |env| == |rows| && i < |rows|
    requires DistinctIds(rows)
    ensures var o := OutcomeOf(rows, env, start, deadline, n);
            && (rows[i].id in o.published <==> i < n && ResultOf(env, start, deadline, i).Ok?)
            && (FailedAs(o.failed, rows[i]) <==> i < n && !ResultOf(env, start, deadline, i).Ok?)
            && |o.published| + |o.failed| == n
  {
    if n > 0 {
      OutcomeAccountsForTriedRows(rows, env, start, deadline, n - 1, i);
      var before := OutcomeOf(rows, env, start, deadline, n - 1);
      var result := ResultOf(env, start, deadline, n - 1);
      var after := Note(before, rows[n - 1], result);
      if !result.Ok? {
        assert after.failed[|before.failed|].id == rows[n - 1].id;
        assert forall k :: 0 <= k < |before.failed| ==> after.failed[k] == before.failed[k];
      }
    }
  }

  /** A batch started with its whole budget ahead never runs past the deadline. */
  lemma {:induction false} ElapsedWithinDeadline(env: seq<Attempt>, start: nat, deadline: nat, n: nat)
    requires n <= |env| && start <= deadline
    ensures start <= Elapsed(env, start, deadline, n) <= deadline
    ensures n > 0 && ResultOf(env, start, deadline, n - 1).Deadline? ==>
              Elapsed(env, start, deadline, n) == deadline
  {
    if n > 0 {
      ElapsedWithinDeadline(env, start, deadline, n - 1);
    }
  }

  // --- what the loop does, read off the producer's answers

  /** How long a row takes; a silent broker never answers. */
  function Took(attempt: Attempt): Option<nat> {
    match attempt
    case Unserializable(_) => Some(0)
    case Sent(Acked(after)) => Some(after)
    case Sent(Refused(after, _)) => Some(after)
    case Sent(Silent) => None
  }

  /** What the first `n` rows take together, if all of them are answered. */
  function Spent(env: seq<Attempt>, n: nat): Option<nat>
    requires n <= |env|
  {
    if n == 0 then Some(0)
    else if Spent(env, n - 1).None? || Took(env[n - 1]).None? then None
    else Some(Spent(env, n - 1).value + Took(env[n - 1]).value)
  }

  /** The first `n` rows are answered within 15 seconds. */
  predicate InTime(env: seq<Attempt>, n: nat)
    requires n <= |env|
  {
    Spent(env, n).Some? && Spent(env, n).value <= 15000
  }

  /** Those of the first `n` rows the broker acknowledged. */
  function AckedIds(rows: seq<ClaimedRow>, env: seq<Attempt>, n: nat): seq<Uuid>
    requires n <= |env| == |rows|
  {
    if n == 0 then []
    else AckedIds(rows, env, n - 1)
         + if env[n - 1].Sent? && env[n - 1].answer.Acked? then [rows[n - 1].id] else []
  }

  /** Those it refused, or that could not be sent, and why. */
  function Refusals(rows: seq<ClaimedRow>, env: seq<Attempt>, n: nat): seq<Failure>
    requires n <= |env| == |rows|
  {
    if n == 0 then []
    else Refusals(rows, env, n - 1)
         + match env[n - 1]
           case Unserializable(reason) =>
             [Failure(rows[n - 1].id, rows[n - 1].attempts, "payload re-serialize error: " + reason)]
           case Sent(Refused(_, reason)) => [Failure(rows[n - 1].id, rows[n - 1].attempts, "kafka: " + reason)]
           case _ => []
  }

  lemma {:induction false} InTimeBefore(env: seq<Attempt>, n: nat)
    requires 0 < n <= |env| && InTime(env, n)
    ensures InTime(env, n - 1)
  {
  }

  /** As long as the answers come in time the loop just collects them. */
  lemma {:induction false} LoopCollects(rows: seq<ClaimedRow>, env: seq<Attempt>, start: nat, deadline: nat, n: nat)
    requires n <= |env| == |rows| && InTime(env, n) && deadline == start + PUBLISH_BUDGET
    ensures Elapsed(env, start, deadline, n) == start + Spent(env, n).value
    ensures OutcomeOf(rows, env, start, deadline, n) == Outcome(AckedIds(rows, env, n), Refusals(rows, env, n))
    ensures n > 0 ==> !ResultOf(env, start, deadline, n - 1).Deadline?
  {
    if n > 0 {
      InTimeBefore(env, n);
      LoopCollects(rows, env, start, deadline, n - 1);
    }
  }

  /** And the first that does not come in time is cut off. */
  lemma CutOffWhenLate(rows: seq<ClaimedRow>, env: seq<Attempt>, start: nat, deadline: nat, n: nat)
    requires n < |env| == |rows| && InTime(env, n) && deadline == start + PUBLISH_BUDGET
    ensures ResultOf(env, start, deadline, n).Deadline? <==> !InTime(env, n + 1)
  {
    LoopCollects(rows, env, start, deadline, n);
  }

  /**
   * What a batch comes to: the rows tried are those answered within 15 seconds in all and, if there is
   * one, the first that is not; the acknowledged ones are published, the refused ones failed with
   * the broker's reason, and the late one failed for being late.
   */
  ghost predicate BatchResult(rows: seq<ClaimedRow>, env: seq<Attempt>, tried: nat, outcome: Outcome)
    requires tried <= |env| == |rows|
  {
    if InTime(env, tried) then
      && tried == |rows|
      && outcome == Outcome(AckedIds(rows, env, tried), Refusals(rows, env, tried))
    else
      && tried > 0 && InTime(env, tried - 1)
      && outcome.published == AckedIds(rows, env, tried - 1)
      && outcome.failed == Refusals(rows, env, tried - 1)
                           + [Failure(rows[tried - 1].id, rows[tried - 1].attempts,
                                      "publish exceeded the 15s batch budget")]
  }

  lemma LoopResult(rows: seq<ClaimedRow>, env: seq<Attempt>, start: nat, deadline: nat, tried: nat)
    requires tried <= |env| == |rows| && deadline == start + PUBLISH_BUDGET && Tried(env, start, deadline, tried)
    requires tried < |rows| ==> tried > 0 && ResultOf(env, start, deadline, tried - 1).Deadline?
    ensures BatchResult(rows, env, tried, OutcomeOf(rows, env, start, deadline, tried))
  {
    if tried > 0 {
      TriedInTime(rows, env, start, deadline, tried - 1);
      CutOffWhenLate(rows, env, start, deadline, tried - 1);
      LoopCollects(rows, env, start, deadline, if InTime(env, tried) then tried else tried - 1);
    }
  }

  lemma {:induction false} TriedInTime(rows: seq<ClaimedRow>, env: seq<Attempt>, start: nat, deadline: nat, n: nat)
    requires n <= |env| == |rows| && deadline == start + PUBLISH_BUDGET
    requires forall j :: 0 <= j < n ==> !ResultOf(env, start, deadline, j).Deadline?
    ensures InTime(env, n)
  {
    if n > 0 {
      TriedInTime(rows, env, start, deadline, n - 1);
      CutOffWhenLate(rows, env, start, deadline, n - 1);
    }
  }

  method PublishBatch(rows: seq<ClaimedRow>, env: seq<Attempt>, start: nat)
    returns (outcome: Outcome, tried: nat, end: nat)
    requires |env| == |rows|
    ensures tried <= |rows| && Tried(env, start, start + PUBLISH_BUDGET, tried)
    // The loop stops early exactly at the first row the deadline cuts off.
    ensures tried < |rows| ==> tried > 0 && ResultOf(env, start, start + PUBLISH_BUDGET, tried - 1).Deadline?
    ensures outcome == OutcomeOf(rows, env, start, start + PUBLISH_BUDGET, tried)
    ensures BatchResult(rows, env, tried, outcome)
    ensures start <= end <= start + PUBLISH_BUDGET
    ensures tried < |rows| ==> end == start + PUBLISH_BUDGET
  {
    var deadline := start + PUBLISH_BUDGET;
    outcome := Outcome([], []);
    tried := 0;
    end := start;
    while tried < |rows|
      invariant 0 <= tried <= |rows|
      invariant end == Elapsed(env, start, deadline, tried) && start <= end <= deadline
      invariant forall j :: 0 <= j < tried ==> !ResultOf(env, start, deadline, j).Deadline?
      invariant outcome == OutcomeOf(rows, env, start, deadline, tried)
    {
      ElapsedWithinDeadline(env, start, deadline, tried + 1);
      var result := Resolve(env[tried], end, deadline);
      end := ResolvedAt(env[tried], end, deadline);
      outcome := Note(outcome, rows[tried], result);
      tried := tried + 1;
      if result.Deadline? {
        break;
      }
    }
    LoopResult(rows, env, start, deadline, tried);
  }

  // ------------------------------------------------------------ bookkeeping

  function MarkPublished(rows: Table, published: seq<Uuid>, now: nat): Table {
    map id | id in rows :: if id in published then rows[id].(publishedAt := Some(now)) else rows[id]
  }

  /** One failure's UPDATE; `attempts + 1` is an INT and overflows past its maximum. */
  function MarkFailed(rows: Table, f: Failure, now: nat): Option<Table> {
    if f.id !in rows then Some(rows)
    else if rows[f.id].attempts >= I32_MAX then None
    else
      var counted := if f.attemptsBefore >= I32_MAX then I32_MAX else f.attemptsBefore + 1;
      Some(rows[f.id := rows[f.id].(
        attempts := rows[f.id].attempts + 1,
        lastError := Some(f.reason),
        nextAttemptAt := now + RetryDelay(counted))])
  }

  /** The failures' UPDATEs in order, all or nothing. */
  function MarkAllFailed(rows: Table, failed: seq<Failure>, now: nat): Option<Table> {
    if failed == [] then Some(rows)
    else match MarkAllFailed(rows, failed[..|failed| - 1], now)
      case None => None
      case Some(t) => MarkFailed(t, failed[|failed| - 1], now)
  }

  /** The bookkeeping transaction; `None` is a rollback. */
  function Bookkept(rows: Table, outcome: Outcome, now: nat): Option<Table> {
    MarkAllFailed(MarkPublished(rows, outcome.published, now), outcome.failed, now)
  }

  ghost predicate DistinctFailures(failed: seq<Failure>) {
    forall i, j :: 0 <= i < j < |failed| ==> failed[i].id != failed[j].id
  }

  /** What the failures' UPDATEs do to the row of failure `f`. */
  function Failed(row: Row, f: Failure, now: nat): Row {
    row.(attempts := row.attempts + 1,
         lastError := Some(f.reason),
         nextAttemptAt := now + RetryDelay(Min(f.attemptsBefore, I32_MAX - 1) + 1))
  }

  /** A committed transaction keeps every row and leaves alone the rows that did not fail. */
  lemma {:induction false} MarkAllFailedFrame(rows: Table, failed: seq<Failure>, now: nat, id: Uuid)
    requires MarkAllFailed(rows, failed, now).Some?
    ensures MarkAllFailed(rows, failed, now).value.Keys == rows.Keys
    ensures id in rows && (forall k :: 0 <= k < |failed| ==> failed[k].id != id) ==>
              MarkAllFailed(rows, failed, now).value[id] == rows[id]
  {
    if failed != [] {
      MarkAllFailedFrame(rows, failed[..|failed| - 1], now, id);
    }
  }

  /** The transaction rolls back iff some failed row's counter is at the INT maximum. */
  lemma {:induction false} MarkAllFailedRollsBack(rows: Table, failed: seq<Failure>, now: nat)
    requires DistinctFailures(failed)
    ensures MarkAllFailed(rows, failed, now).None? <==>
            exists k :: 0 <= k < |failed| && failed[k].id in rows && rows[failed[k].id].attempts >= I32_MAX
  {
    if failed != [] {
      var n := |failed| - 1;
      MarkAllFailedRollsBack(rows, failed[..n], now);
      if MarkAllFailed(rows, failed[..n], now).Some? {
        MarkAllFailedFrame(rows, failed[..n], now, failed[n].id);
      } else {
        var k :| 0 <= k < n && failed[..n][k].id in rows && rows[failed[..n][k].id].attempts >= I32_MAX;
        assert failed[k] == failed[..n][k];
      }
    }
  }

  /** Each failed row is counted once and backs off from the moment of bookkeeping. */
  lemma {:induction false} MarkAllFailedAt(rows: Table, failed: seq<Failure>, now: nat, k: nat)
    requires DistinctFailures(failed) && k < |failed| && failed[k].id in rows
    requires MarkAllFailed(rows, failed, now).Some?
    ensures failed[k].id in MarkAllFailed(rows, failed, now).value
    ensures MarkAllFailed(rows, failed, now).value[failed[k].id] == Failed(rows[failed[k].id], failed[k], now)
  {
    var n := |failed| - 1;
    MarkAllFailedFrame(rows, failed[..n], now, failed[k].id);
    if k < n {
      MarkAllFailedAt(rows, failed[..n], now, k);
      assert failed[k].id != failed[n].id;
    }
  }

  /** One row before and after the bookkeeping, told by the outcome's own lists. */
  ghost predicate RowBooked(before: Row, after: Row, id: Uuid, outcome: Outcome, now: nat) {
    && after.payload == before.payload && after.createdAt == before.createdAt
    && after.publishedAt == (if id in outcome.published then Some(now) else before.publishedAt)
    && (forall f :: f in outcome.failed && f.id == id ==>
          && after.attempts == before.attempts + 1 && after.lastError == Some(f.reason)
          && after.nextAttemptAt == now + Min(Pow2(Min(f.attemptsBefore + 1, I32_MAX)), 3600) * 1000)
    && ((forall f :: f in outcome.failed ==> f.id != id) ==>
          && after.attempts == before.attempts && after.lastError == before.lastError
          && after.nextAttemptAt == before.nextAttemptAt)
  }

  ghost predicate Booked(before: Table, outcome: Outcome, now: nat, after: Table) {
    after.Keys == before.Keys && forall id :: id in before ==> RowBooked(before[id], after[id], id, outcome, now)
  }

  lemma RowIsBooked(rows: Table, outcome: Outcome, now: nat, id: Uuid)
    requires DistinctFailures(outcome.failed) && Bookkept(rows, outcome, now).Some? && id in rows
    ensures id in Bookkept(rows, outcome, now).value
    ensures RowBooked(rows[id], Bookkept(rows, outcome, now).value[id], id, outcome, now)
  {
    var base := MarkPublished(rows, outcome.published, now);
    MarkAllFailedFrame(base, outcome.failed, now, id);
    if k :| 0 <= k < |outcome.failed| && outcome.failed[k].id == id {
      MarkAllFailedAt(base, outcome.failed, now, k);
      RetryDelayIsCappedPower(Min(outcome.failed[k].attemptsBefore, I32_MAX - 1) + 1);
      assert forall f :: f in outcome.failed && f.id == id ==> f == outcome.failed[k];
    }
  }

  lemma BookkeepingBooks(rows: Table, outcome: Outcome, now: nat)
    requires DistinctFailures(outcome.failed) && Bookkept(rows, outcome, now).Some?
    ensures Booked(rows, outcome, now, Bookkept(rows, outcome, now).value)
  {
    MarkAllFailedFrame(MarkPublished(rows, outcome.published, now), outcome.failed, now, 0);
    forall id | id in rows
      ensures RowBooked(rows[id], Bookkept(rows, outcome, now).value[id], id, outcome, now)
    {
      RowIsBooked(rows, outcome, now, id);
    }
  }

  lemma CommitsUnlessFull(rows: Table, outcome: Outcome, now: nat)
    requires DistinctFailures(outcome.failed)
    ensures Bookkept(rows, outcome, now).Some? <==>
            forall f :: f in outcome.failed && f.id in rows ==> rows[f.id].attempts < I32_MAX
  {
    MarkAllFailedRollsBack(MarkPublished(rows, outcome.published, now), outcome.failed, now);
  }

  /** The `events_outbox` table. */
  class EventsOutbox {
    var rows: Table

    constructor ()
      ensures rows == map[]
    {
      rows := map[];
    }

    /** Insert in the caller's transaction: due at once, never attempted. */
    method InsertEvent(id: Uuid, payload: Envelope, now: nat)
      requires id !in rows
      modifies this
      ensures rows == old(rows)[id := Row(payload, now, None, 0, None, now)]
      ensures Due(rows[id], now)
    {
      rows := rows[id := Row(payload, now, None, 0, None, now)];
    }

    /** Claim the rows the SELECT picked: lease them and return them oldest first. */
    method Claim(picked: set<Uuid>, ghost locked: set<Uuid>, now: nat) returns (batch: seq<ClaimedRow>)
      requires Picked(rows, now, locked, picked)
      modifies this
      ensures rows == Leased(old(rows), picked, now)
      ensures rows.Keys == old(rows).Keys
      ensures forall id :: id in rows ==>
                rows[id] == if id in picked then old(rows)[id].(nextAttemptAt := now + 60000) else old(rows)[id]
      ensures Claimed(old(rows), picked, batch)
      ensures forall r :: r in batch ==>
                && r.id in old(rows) && r.payload == old(rows)[r.id].payload
                && r.attempts == old(rows)[r.id].attempts && r.createdAt == old(rows)[r.id].createdAt
      ensures |batch| <= BATCH_SIZE
    {
      batch := Return(rows, picked);
      rows := Leased(rows, picked, now);
    }

    /**
     * The bookkeeping transaction. Committed, it stamps the published rows, counts each failure once with
     * its reason and backs the row off from now on, and changes nothing else.
     */
    method Bookkeep(outcome: Outcome, now: nat) returns (committed: bool)
      modifies this
      ensures committed <==> Bookkept(old(rows), outcome, now).Some?
      ensures rows == if committed then Bookkept(old(rows), outcome, now).value else old(rows)
      ensures DistinctFailures(outcome.failed) ==>
                (committed <==>
                 forall f :: f in outcome.failed && f.id in old(rows) ==> old(rows)[f.id].attempts < I32_MAX)
      ensures committed && DistinctFailures(outcome.failed) ==> Booked(old(rows), outcome, now, rows)
    {
      if DistinctFailures(outcome.failed) {
        CommitsUnlessFull(rows, outcome, now);
      }
      var tx := MarkPublished(rows, outcome.published, now);
      ghost var base := tx;
      var i := 0;
      while i < |outcome.failed|
        invariant 0 <= i <= |outcome.failed|
        invariant rows == old(rows)
        invariant MarkAllFailed(base, outcome.failed[..i], now) == Some(tx)
      {
        assert outcome.failed[..i + 1][..i] == outcome.failed[..i];
        match MarkFailed(tx, outcome.failed[i], now) {
          case None =>
            RollbackIsFinal(base, outcome.failed, i + 1, now);
            return false;
          case Some(t) => tx := t;
        }
        i := i + 1;
      }
      assert outcome.failed[..i] == outcome.failed;
      if DistinctFailures(outcome.failed) {
        BookkeepingBooks(rows, outcome, now);
      }
      rows := tx;
      committed := true;
    }
  }

  /** A transaction that failed part-way stays failed. */
  lemma {:induction false} RollbackIsFinal(rows: Table, failed: seq<Failure>, n: nat, now: nat)
    requires n <= |failed|
    requires MarkAllFailed(rows, failed[..n], now).None?
    ensures MarkAllFailed(rows, failed, now).None?
    decreases |failed|
  {
    if n == |failed| {
      assert failed[..n] == failed;
    } else {
      assert failed[..|failed| - 1][..n] == failed[..n];
      RollbackIsFinal(rows, failed[..|failed| - 1], n, now);
    }
  }
}
