/** Buying course places: a batch under course locks, and capacity over every interleaving of batches. */
module Enrolments {
  import opened Common
  import CourseLocks

  datatype Enrolment = Enrolment(user: Uuid, course: Uuid, order: Uuid, active: bool)

  type Table = map<Uuid, Enrolment>

  /** The `active_enrolments` view of one course: who holds a seat. */
  function ActiveIn(rows: Table, course: Uuid): set<Uuid> {
    set e | e in rows && rows[e].active && rows[e].course == course
  }

  predicate ExistsActive(rows: Table, user: Uuid, course: Uuid) {
    exists e :: e in rows && rows[e].active && rows[e].user == user && rows[e].course == course
  }

  /** `CourseSeats::is_full`. */
  predicate IsFull(courses: map<Uuid, nat>, rows: Table, course: Uuid)
    requires course in courses
  {
    |ActiveIn(rows, course)| >= courses[course]
  }

  /** The partial unique index: nobody is active twice in a course. */
  ghost predicate UniqueActive(rows: Table) {
    forall a, b ::
      a in rows && b in rows && a != b && rows[a].active && rows[b].active && rows[a].user == rows[b].user
      ==> rows[a].course != rows[b].course
  }

  lemma ActiveAfterInsert(rows: Table, id: Uuid, e: Enrolment, course: Uuid)
    requires id !in rows
    ensures ActiveIn(rows[id := e], course)
            == if e.active && e.course == course then ActiveIn(rows, course) + {id} else ActiveIn(rows, course)
    ensures |ActiveIn(rows[id := e], course)|
            == |ActiveIn(rows, course)| + if e.active && e.course == course then 1 else 0
  {
    assert ActiveIn(rows[id := e], course)
           == if e.active && e.course == course then ActiveIn(rows, course) + {id} else ActiveIn(rows, course);
  }

  // ------------------------------------------------------------- one purchase

  datatype Error =
    | Internal(course: Uuid) | NotFound(course: Uuid) | CourseIsFull(course: Uuid) | AlreadyEnrolled(course: Uuid)

  datatype Result = Enrolled(rows: Table) | Failed(error: Error)

  /** Why the buyer may not enrol in `course` as things stand, if so. */
  function Refusal(courses: map<Uuid, nat>, rows: Table, user: Uuid, course: Uuid): Option<Error> {
    if course !in courses then Some(NotFound(course))
    else if IsFull(courses, rows, course) then Some(CourseIsFull(course))
    else if ExistsActive(rows, user, course) then Some(AlreadyEnrolled(course))
    else None
  }

  /** Who holds a seat of the course. */
  function Seated(rows: Table, course: Uuid): set<Uuid> {
    set e | e in rows && rows[e].course == course && rows[e].active
  }

  method EnrolOne(courses: map<Uuid, nat>, rows: Table, user: Uuid, course: Uuid, order: Uuid, id: Uuid)
    returns (result: Result)
    requires id !in rows
    ensures Refusal(courses, rows, user, course).Some? ==>
              result == Failed(Refusal(courses, rows, user, course).value)
    ensures Refusal(courses, rows, user, course).None? ==>
              result == Enrolled(rows[id := Enrolment(user, course, order, true)])
    ensures result == if course !in courses then Failed(NotFound(course))
                      else if courses[course] <= |Seated(rows, course)| then Failed(CourseIsFull(course))
                      else if exists e :: e in Seated(rows, course) && rows[e].user == user
                      then Failed(AlreadyEnrolled(course))
                      else Enrolled(rows[id := Enrolment(user, course, order, true)])
  {
    assert Seated(rows, course) == ActiveIn(rows, course);
    if course !in courses {
      return Failed(NotFound(course));
    }
    if IsFull(courses, rows, course) {
      return Failed(CourseIsFull(course));
    }
    if ExistsActive(rows, user, course) {
      return Failed(AlreadyEnrolled(course));
    }
    result := Enrolled(rows[id := Enrolment(user, course, order, true)]);
  }

  ghost predicate FreshIds(rows: Table, ids: seq<Uuid>) {
    && (forall i :: 0 <= i < |ids| ==> ids[i] !in rows)
    && (forall i, j :: 0 <= i < j < |ids| ==> ids[i] != ids[j])
  }

  /** `rows` with one active enrolment per listed course added. */
  function Added(rows: Table, user: Uuid, order: Uuid, courses: seq<Uuid>, ids: seq<Uuid>): Table
    requires |courses| == |ids|
  {
    if courses == [] then rows
    else Added(rows, user, order, courses[..|courses| - 1], ids[..|ids| - 1])[
           ids[|ids| - 1] := Enrolment(user, courses[|courses| - 1], order, true)]
  }

  lemma {:induction false} AddedKeys(rows: Table, user: Uuid, order: Uuid, courses: seq<Uuid>, ids: seq<Uuid>, e: Uuid)
    requires |courses| == |ids|
    ensures e in Added(rows, user, order, courses, ids) <==> e in rows || e in ids
    ensures e in rows && e !in ids ==> Added(rows, user, order, courses, ids)[e] == rows[e]
  {
    if courses != [] {
      AddedKeys(rows, user, order, courses[..|courses| - 1], ids[..|ids| - 1], e);
      assert ids == ids[..|ids| - 1] + [ids[|ids| - 1]];
    }
  }

  /** Enrolling in other courses neither fills a course nor enrols the buyer in it. */
  lemma {:induction false} AddedElsewhere(rows: Table, user: Uuid, order: Uuid, courses: seq<Uuid>, ids: seq<Uuid>,
      course: Uuid)
    requires |courses| == |ids| && FreshIds(rows, ids) && course !in courses
    ensures ActiveIn(Added(rows, user, order, courses, ids), course) == ActiveIn(rows, course)
    ensures ExistsActive(Added(rows, user, order, courses, ids), user, course) <==> ExistsActive(rows, user, course)
  {
    if courses != [] {
      var n := |courses| - 1;
      AddedElsewhere(rows, user, order, courses[..n], ids[..n], course);
      AddedKeys(rows, user, order, courses[..n], ids[..n], ids[n]);
      var before := Added(rows, user, order, courses[..n], ids[..n]);
      var e := Enrolment(user, courses[n], order, true);
      assert ids[n] !in before;
      ActiveAfterInsert(before, ids[n], e, course);
      assert forall x :: x in before ==> before[ids[n] := e][x] == before[x];
    }
  }

  /** Course `k` of the ordered batch is the first the buyer is refused, judged on the rows before the batch. */
  ghost predicate FirstRefused(courses: map<Uuid, nat>, rows: Table, user: Uuid, ordered: seq<Uuid>, k: nat) {
    && k < |ordered| && Refusal(courses, rows, user, ordered[k]).Some?
    && forall j :: 0 <= j < k ==> Refusal(courses, rows, user, ordered[j]).None?
  }

  /** The loop over the courses in lock order. */
  method EnrolInOrder(courses: map<Uuid, nat>, rows: Table, user: Uuid, ordered: seq<Uuid>, order: Uuid, ids: seq<Uuid>)
    returns (result: Result)
    requires CourseLocks.Ascending(ordered)
    requires |ids| == |ordered| && FreshIds(rows, ids)
    ensures result.Enrolled? <==> forall k :: 0 <= k < |ordered| ==> Refusal(courses, rows, user, ordered[k]).None?
    ensures result.Enrolled? ==> result.rows == Added(rows, user, order, ordered, ids)
    ensures result.Failed? ==>
              exists k: nat :: FirstRefused(courses, rows, user, ordered, k)
                               && Some(result.error) == Refusal(courses, rows, user, ordered[k])
  {
    var view := rows;
    var k := 0;
    while k < |ordered|
      invariant 0 <= k <= |ordered|
      invariant view == Added(rows, user, order, ordered[..k], ids[..k])
      invariant forall j :: 0 <= j < k ==> Refusal(courses, rows, user, ordered[j]).None?
    {
      RefusalUnaffected(courses, rows, user, order, ordered[..k], ids[..k], ordered[k]);
      AddedKeys(rows, user, order, ordered[..k], ids[..k], ids[k]);
      var step := EnrolOne(courses, view, user, ordered[k], order, ids[k]);
      if step.Failed? {
        assert FirstRefused(courses, rows, user, ordered, k);
        return step;
      }
      view := step.rows;
      assert ordered[..k + 1][..k] == ordered[..k] && ids[..k + 1][..k] == ids[..k];
      k := k + 1;
    }
    assert ordered[..k] == ordered && ids[..k] == ids;
    result := Enrolled(view);
  }

  lemma RefusalUnaffected(courses: map<Uuid, nat>, rows: Table, user: Uuid, order: Uuid, done: seq<Uuid>,
      ids: seq<Uuid>, course: Uuid)
    requires |done| == |ids| && FreshIds(rows, ids) && course !in done
    ensures Refusal(courses, Added(rows, user, order, done, ids), user, course) == Refusal(courses, rows, user, course)
  {
    AddedElsewhere(rows, user, order, done, ids, course);
  }

  /**
   * `enrol_batch_from_purchase_tx`: all the courses or none. A course outside the witness is an
   * internal error before anything is written; otherwise the batch succeeds iff the buyer is
   * refused nowhere, and a refusal names the smallest refused course id.
   */
  method EnrolBatch(courses: map<Uuid, nat>, rows: Table, locks: seq<Uuid>, user: Uuid, requested: seq<Uuid>,
                    order: Uuid, ids: seq<Uuid>) returns (result: Result, ghost ordered: seq<Uuid>)
    requires CourseLocks.Ascending(locks)
    requires |ids| == |requested| && FreshIds(rows, ids)
    // The cart never holds a course twice (partial unique index `uniq_cart_items_course`).
    requires forall i, j :: 0 <= i < j < |requested| ==> requested[i] != requested[j]
    ensures (result.Failed? && result.error.Internal?) <==> exists c :: c in requested && c !in locks
    ensures CourseLocks.Ascending(ordered) && multiset(ordered) == multiset(requested) && |ordered| == |ids|
    ensures result.Enrolled? <==>
              forall c :: c in requested ==> c in locks && Refusal(courses, rows, user, c).None?
    ensures result.Enrolled? ==> result.rows == Added(rows, user, order, ordered, ids)
    ensures result.Failed? && !result.error.Internal? ==>
              exists k: nat :: FirstRefused(courses, rows, user, ordered, k)
                               && Some(result.error) == Refusal(courses, rows, user, ordered[k])
  {
    ordered := SortByKey((c: Uuid) => c, requested);
    SortByKeySorts((c: Uuid) => c, requested);
    StrictlySorted(requested, ordered);
    assert |multiset(ordered)| == |ordered| && |multiset(requested)| == |requested|;
    var sorted := CourseLocks.InLockOrder(locks, requested, (c: Uuid) => c);
    if sorted.NotCovered? {
      return Failed(Internal(sorted.course)), ordered;
    }
    ordered := sorted.items;
    StrictlySorted(requested, ordered);
    assert |multiset(ordered)| == |ordered|;
    assert forall c :: c in requested <==> c in ordered by {
      assert forall c :: (c in requested <==> c in multiset(requested)) && (c in ordered <==> c in multiset(ordered));
    }
    result := EnrolInOrder(courses, rows, user, sorted.items, order, ids);
  }

  lemma StrictlySorted(requested: seq<Uuid>, ordered: seq<Uuid>)
    requires forall i, j :: 0 <= i < j < |requested| ==> requested[i] != requested[j]
    requires multiset(ordered) == multiset(requested)
    requires SortedByKey((c: Uuid) => c, ordered)
    ensures CourseLocks.Ascending(ordered)
  {
    forall i, j | 0 <= i < j < |ordered| ensures ordered[i] < ordered[j] {
      var key := (c: Uuid) => c;
      assert key(ordered[i]) <= key(ordered[j]);
      if ordered[i] == ordered[j] {
        TwiceIn(ordered, i, j);
        NoRepeats(requested, ordered[i]);
      }
    }
  }

  lemma TwiceIn(s: seq<Uuid>, i: nat, j: nat)
    requires i < j < |s| && s[i] == s[j]
    ensures multiset(s)[s[i]] >= 2
  {
    assert s == s[..i] + [s[i]] + s[i + 1..j] + [s[j]] + s[j + 1..];
  }

  lemma {:induction false} NoRepeats(requested: seq<Uuid>, x: Uuid)
    requires forall i, j :: 0 <= i < j < |requested| ==> requested[i] != requested[j]
    ensures multiset(requested)[x] <= 1
  {
    if requested != [] {
      assert requested == [requested[0]] + requested[1..];
      NoRepeats(requested[1..], x);
    }
  }
}
