/**
 * Which way committed offsets go: what each member may still commit for a partition, and when that
 * can take the partition's committed offset back.
 */
module OffsetOrder {
  import opened Common
  import Consumer
  import opened ConsumerOffsets

  /** The member has a record of `p` in its hands. */
  predicate InHand(m: Member, p: Partition) {
    m.alive && !m.phase.Idle? && m.phase.p == p
  }

  predicate Reads(m: Member, p: Partition) {
    m.alive && p in m.position
  }

  /** The member may yet have `n` committed for `p`, without being handed the partition again. */
  predicate Owes(m: Member, p: Partition, n: nat) {
    || (p, n) in m.queue
    || (InHand(m, p) && n == m.phase.o + 1)
    || (Reads(m, p) && m.position[p] < n)
  }

  ghost predicate Ascending(queue: seq<(Partition, nat)>, p: Partition) {
    forall j, k :: 0 <= j < k < |queue| && queue[j].0 == p && queue[k].0 == p ==> queue[j].1 <= queue[k].1
  }

  /** What the member owes for `p` it owes in ascending order. */
  ghost predicate InOrder(m: Member, p: Partition) {
    && Ascending(m.queue, p)
    && (InHand(m, p) ==> forall n :: (p, n) in m.queue ==> n <= m.phase.o + 1)
    && (Reads(m, p) ==> (forall n :: (p, n) in m.queue ==> n <= m.position[p] + 1)
                        && (InHand(m, p) ==> m.phase.o <= m.position[p]))
  }

  /** Two members never owe different offsets of `p`; so at most one of them reads it. */
  ghost predicate Agree(s: State, p: Partition) {
    forall x, y, a, b ::
      x in s.members && y in s.members && x != y && Owes(s.members[x], p, a) && Owes(s.members[y], p, b) ==> a == b
  }

  ghost predicate NoneBehind(s: State, p: Partition) {
    forall x, n :: x in s.members && Owes(s.members[x], p, n) ==> At(s.committed, p) <= n
  }

  ghost predicate Orderly(s: State, p: Partition) {
    && NoneBehind(s, p)
    && (forall x :: x in s.members ==> InOrder(s.members[x], p))
    && Agree(s, p)
  }

  predicate Hands(a: Action, p: Partition) {
    a.Assign? && a.p == p
  }

  // ----------------------------------------------------------- order is kept

  /** A member after a step of its own owes no more than before, in the same order. */
  ghost predicate Eases(m: Member, after: Member, p: Partition) {
    && (forall n :: Owes(after, p, n) ==> Owes(m, p, n))
    && (InOrder(m, p) ==> InOrder(after, p))
  }

  lemma PullEases(s: State, x: MemberId, q: Partition, p: Partition)
    requires Enabled(s, Pull(x, q))
    ensures Eases(s.members[x], Do(s, Pull(x, q)).members[x], p)
  {
  }

  /** The same record in its hands, whatever became of it. */
  predicate SameRecord(m: Member, after: Member) {
    && !m.phase.Idle? && !after.phase.Idle? && after == m.(phase := after.phase)
    && after.phase.p == m.phase.p && after.phase.o == m.phase.o
  }

  lemma StumbleKeepsRecord(s: State, x: MemberId, mint: Uuid, effect: Effect)
    requires Enabled(s, Stumble(x, mint, effect))
    ensures SameRecord(s.members[x], Do(s, Stumble(x, mint, effect)).members[x])
  {
  }

  lemma RecordKeepsRecord(s: State, x: MemberId, mint: Uuid)
    requires Enabled(s, Record(x, mint))
    ensures SameRecord(s.members[x], Do(s, Record(x, mint)).members[x])
  {
  }

  lemma HandlerEases(s: State, a: Action, p: Partition)
    requires Enabled(s, a) && (a.Skip? || a.Drop? || a.Record? || a.Stumble?)
    ensures Eases(s.members[a.x], Do(s, a).members[a.x], p)
  {
    match a {
      case Record(x, mint) => RecordKeepsRecord(s, x, mint);
      case Stumble(x, mint, effect) => StumbleKeepsRecord(s, x, mint, effect);
      case _ =>
    }
    SameRecordEases(s.members[a.x], Do(s, a).members[a.x], p);
  }

  lemma SameRecordEases(m: Member, after: Member, p: Partition)
    requires SameRecord(m, after)
    ensures Eases(m, after, p)
  {
  }

  lemma CommitEases(m: Member, p: Partition)
    requires m.alive && !m.phase.Idle?
    ensures Eases(m, m.(phase := Idle), p)
    ensures Eases(m, m.(phase := Idle, queue := m.queue + [(m.phase.p, m.phase.o + 1)]), p)
  {
    var after := m.(phase := Idle, queue := m.queue + [(m.phase.p, m.phase.o + 1)]);
    forall n | (p, n) in after.queue ensures (p, n) in m.queue || (m.phase.p == p && n == m.phase.o + 1) {
    }
  }

  lemma ShorterEases(m: Member, p: Partition)
    requires m.queue != []
    ensures Eases(m, m.(queue := m.queue[1..]), p)
  {
    forall e | e in m.queue[1..] ensures e in m.queue {
    }
  }

  lemma LeavingEases(s: State, a: Action, p: Partition)
    requires Enabled(s, a) && (a.Exit? || a.Revoke? || (a.Assign? && a.p != p))
    ensures Eases(s.members[a.x], Do(s, a).members[a.x], p)
  {
  }

  lemma MoverEases(s: State, a: Action, p: Partition)
    requires Enabled(s, a) && !a.Append? && !a.LateInsert? && !a.Join? && !Hands(a, p)
    ensures Eases(s.members[a.x], Do(s, a).members[a.x], p)
  {
    match a
    case Assign(_, _) => LeavingEases(s, a, p);
    case Revoke(_, _) => LeavingEases(s, a, p);
    case Exit(_) => LeavingEases(s, a, p);
    case Pull(x, q) => PullEases(s, x, q, p);
    case CommitAccepted(x) => CommitEases(s.members[x], p);
    case CommitRefused(x) => CommitEases(s.members[x], p);
    case BrokerCommits(x) => ShorterEases(s.members[x], p);
    case BrokerLosesCommit(x) => ShorterEases(s.members[x], p);
    case _ => HandlerEases(s, a, p);
  }

  lemma BystandersStay(s: State, a: Action, x: MemberId)
    requires Enabled(s, a) && (a.Append? || a.LateInsert? || a.x != x)
    ensures x in Do(s, a).members <==> x in s.members
    ensures x in s.members ==> Do(s, a).members[x] == s.members[x]
  {
  }

  /** Whoever is there after the step owes nothing it did not owe before. */
  lemma AllEase(s: State, a: Action, p: Partition, x: MemberId)
    requires Enabled(s, a) && !Hands(a, p) && x in Do(s, a).members
    ensures x in s.members ==> Eases(s.members[x], Do(s, a).members[x], p)
    ensures x !in s.members ==> InOrder(Do(s, a).members[x], p) && forall n :: !Owes(Do(s, a).members[x], p, n)
  {
    if a.Append? || a.LateInsert? || a.x != x {
      BystandersStay(s, a, x);
    } else if !a.Join? {
      MoverEases(s, a, p);
    }
  }

  /** What the broker takes is the least of all that is owed. */
  lemma TheHeadIsLeast(s: State, x: MemberId, p: Partition, y: MemberId, n: nat)
    requires Orderly(s, p) && Enabled(s, BrokerCommits(x)) && s.members[x].queue[0].0 == p
    requires y in s.members && Owes(s.members[y], p, n)
    ensures At(s.committed, p) <= s.members[x].queue[0].1 <= n
  {
    var m := s.members[x];
    assert m.queue[0] == (p, m.queue[0].1) && Owes(m, p, m.queue[0].1) && InOrder(m, p);
    if x == y && (p, n) in m.queue {
      var k :| 0 <= k < |m.queue| && m.queue[k] == (p, n);
      assert m.queue[0].0 == m.queue[k].0;
    }
  }

  lemma CommittedMoves(s: State, a: Action, p: Partition)
    requires Orderly(s, p) && Enabled(s, a)
    ensures At(s.committed, p) <= At(Do(s, a).committed, p)
    ensures forall y, n :: y in s.members && Owes(s.members[y], p, n) ==> At(Do(s, a).committed, p) <= n
  {
    if a.BrokerCommits? && s.members[a.x].queue[0].0 == p {
      var m := s.members[a.x];
      assert m.queue[0] == (p, m.queue[0].1) && Owes(m, p, m.queue[0].1);
      forall y, n | y in s.members && Owes(s.members[y], p, n) ensures m.queue[0].1 <= n {
        TheHeadIsLeast(s, a.x, p, y, n);
      }
    } else {
      assert At(Do(s, a).committed, p) == At(s.committed, p);
    }
  }

  lemma OrderlyStep(s: State, a: Action, p: Partition)
    requires Orderly(s, p) && Enabled(s, a) && !Hands(a, p)
    ensures Orderly(Do(s, a), p)
  {
    var t := Do(s, a);
    CommittedMoves(s, a, p);
    forall x | x in t.members
      ensures InOrder(t.members[x], p)
      ensures forall n :: Owes(t.members[x], p, n) ==> x in s.members && Owes(s.members[x], p, n)
    {
      AllEase(s, a, p, x);
    }
  }

  // ---------------------------------------------------------------- rebalances

  /** The commit `x` may still be waiting for is at most one past the committed offset, and nobody else has any. */
  ghost predicate Calm(s: State, x: MemberId, p: Partition)
    requires x in s.members
  {
    var m := s.members[x];
    && (InHand(m, p) ==> m.phase.o <= At(s.committed, p))
    && (forall n :: (p, n) in m.queue ==> n <= At(s.committed, p) + 1)
    && forall y, n :: y in s.members && y != x ==> !Owes(s.members[y], p, n)
  }

  lemma CalmIsOrderly(s: State, x: MemberId, p: Partition)
    requires Orderly(s, p) && Alive(s, x) && Calm(s, x, p)
    ensures Orderly(Do(s, Assign(x, p)), p)
  {
    var t := Do(s, Assign(x, p));
    var m := t.members[x];
    assert InOrder(s.members[x], p) && m == s.members[x].(position := m.position);
    forall n | Owes(m, p, n) ensures At(s.committed, p) <= n {
      assert (p, n) in m.queue || (InHand(m, p) && n == m.phase.o + 1) ==> Owes(s.members[x], p, n);
    }
    assert forall y :: y in s.members && y != x ==> t.members[y] == s.members[y];
  }

  lemma OrderlyIsCalm(s: State, x: MemberId, p: Partition)
    requires Alive(s, x) && Orderly(Do(s, Assign(x, p)), p)
    ensures Calm(s, x, p)
  {
    var t := Do(s, Assign(x, p));
    var c := At(s.committed, p);
    var m := t.members[x];
    assert InOrder(m, p) && m.position[p] == c && m == s.members[x].(position := m.position);
    assert Owes(m, p, c + 1) && Owes(m, p, c + 2);
    forall y, n | y in s.members && y != x ensures !Owes(s.members[y], p, n) {
      assert t.members[y] == s.members[y];
    }
  }

  // -------------------------------------------------------------------- runs

  /** The committed offset of `p` is taken back somewhere along `acts`. */
  ghost predicate Lowers(s: State, acts: seq<Action>, p: Partition)
    requires Run(s, acts)
    decreases |acts|
  {
    acts != []
    && (At(Do(s, acts[0]).committed, p) < At(s.committed, p) || Lowers(Do(s, acts[0]), acts[1..], p))
  }

  /** No rebalance along `acts` hands out `p`. */
  predicate Quiet(acts: seq<Action>, p: Partition) {
    forall a :: a in acts ==> !Hands(a, p)
  }

  /** Whatever happens until `p` is handed out again, its committed offset goes forward. */
  ghost predicate Forward(s: State, p: Partition) {
    forall acts :: Run(s, acts) && Quiet(acts, p) ==> !Lowers(s, acts, p)
  }

  /** Whenever a rebalance hands out `p`, it is calm. */
  ghost predicate CalmRun(s: State, acts: seq<Action>, p: Partition)
    requires Run(s, acts)
    decreases |acts|
  {
    acts != [] ==> (Hands(acts[0], p) ==> Calm(s, acts[0].x, p)) && CalmRun(Do(s, acts[0]), acts[1..], p)
  }

  /**
   * As long as a partition is handed out only when nothing of it is under way beyond the next
   * offset, and nothing at all with anybody else, its committed offset never goes back: whatever is
   * lost, refused or late, and whatever other members do with other partitions.
   */
  lemma {:induction false} CommittedNeverGoesBack(s: State, acts: seq<Action>, p: Partition)
    requires Orderly(s, p) && Run(s, acts) && CalmRun(s, acts, p)
    ensures Orderly(After(s, acts), p) && !Lowers(s, acts, p)
    ensures At(s.committed, p) <= At(After(s, acts).committed, p)
    decreases |acts|
  {
    if acts != [] {
      CommittedMoves(s, acts[0], p);
      if Hands(acts[0], p) {
        CalmIsOrderly(s, acts[0].x, p);
      } else {
        OrderlyStep(s, acts[0], p);
      }
      CommittedNeverGoesBack(Do(s, acts[0]), acts[1..], p);
    }
  }

  lemma {:induction false} QuietIsCalm(s: State, acts: seq<Action>, p: Partition)
    requires Run(s, acts) && Quiet(acts, p)
    ensures CalmRun(s, acts, p)
    decreases |acts|
  {
    if acts != [] {
      assert acts[0] in acts && forall a :: a in acts[1..] ==> a in acts;
      QuietIsCalm(Do(s, acts[0]), acts[1..], p);
    }
  }

  // ------------------------------------------------------ disorder shows itself

  ghost predicate Leads(s: State, acts: seq<Action>, t: State, p: Partition) {
    Run(s, acts) && Quiet(acts, p) && After(s, acts) == t
  }

  ghost predicate Reaches(s: State, t: State, p: Partition) {
    exists acts :: Leads(s, acts, t, p)
  }

  lemma Stay(s: State, p: Partition)
    ensures Reaches(s, s, p)
  {
    assert Leads(s, [], s, p);
  }

  lemma {:induction false} Extend(s: State, acts: seq<Action>, a: Action)
    requires Run(s, acts) && Enabled(After(s, acts), a)
    ensures Run(s, acts + [a]) && After(s, acts + [a]) == Do(After(s, acts), a)
    decreases |acts|
  {
    if acts == [] {
      assert acts + [a] == [a] && Run(Do(s, a), []);
    } else {
      Extend(Do(s, acts[0]), acts[1..], a);
      assert (acts + [a])[1..] == acts[1..] + [a];
    }
  }

  lemma Move(s: State, t: State, a: Action, p: Partition)
    requires Reaches(s, t, p) && Enabled(t, a) && !Hands(a, p)
    ensures Reaches(s, Do(t, a), p)
  {
    var acts :| Leads(s, acts, t, p);
    Extend(s, acts, a);
    assert Leads(s, acts + [a], Do(t, a), p);
  }

  lemma SafeThere(s: State, t: State, p: Partition)
    requires Safe(s) && Reaches(s, t, p)
    ensures Safe(t)
  {
    var acts :| Leads(s, acts, t, p);
    OffsetsAreSafe(s, acts, p);
  }

  lemma {:induction false} LoweredSomewhere(s: State, acts: seq<Action>, p: Partition)
    requires Run(s, acts) && At(After(s, acts).committed, p) < At(s.committed, p)
    ensures Lowers(s, acts, p)
    decreases |acts|
  {
    if acts != [] && At(s.committed, p) <= At(Do(s, acts[0]).committed, p) {
      LoweredSomewhere(Do(s, acts[0]), acts[1..], p);
    }
  }

  lemma OneMore(s: State, a: Action, acts: seq<Action>, p: Partition)
    requires Enabled(s, a) && Run(Do(s, a), acts)
    ensures Run(s, [a] + acts) && (Lowers(Do(s, a), acts, p) ==> Lowers(s, [a] + acts, p))
  {
    assert ([a] + acts)[1..] == acts;
  }

  lemma NotForwardBefore(s: State, a: Action, p: Partition)
    requires Enabled(s, a) && !Hands(a, p) && !Forward(Do(s, a), p)
    ensures !Forward(s, p)
  {
    var acts :| Run(Do(s, a), acts) && Quiet(acts, p) && Lowers(Do(s, a), acts, p);
    OneMore(s, a, acts, p);
    assert Quiet([a] + acts, p);
  }

  lemma {:induction false} NotForwardEarlier(s: State, acts: seq<Action>, p: Partition)
    requires Run(s, acts) && Quiet(acts, p) && !Forward(After(s, acts), p)
    ensures !Forward(s, p)
    decreases |acts|
  {
    if acts != [] {
      assert acts[0] in acts && forall a :: a in acts[1..] ==> a in acts;
      NotForwardEarlier(Do(s, acts[0]), acts[1..], p);
      NotForwardBefore(s, acts[0], p);
    }
  }

  lemma BackAgain(s: State, t: State, u: State, p: Partition)
    requires Reaches(s, t, p) && Reaches(t, u, p) && At(u.committed, p) < At(t.committed, p)
    ensures !Forward(s, p)
  {
    var a :| Leads(s, a, t, p);
    var b :| Leads(t, b, u, p);
    LoweredSomewhere(t, b, p);
    NotForwardEarlier(s, a, p);
  }

  function CarriedBy(payload: Consumer.Payload): set<Uuid> {
    if payload.Text? && HasOwnId(payload.body) then {Consumer.EventRowId(payload.body, 0)} else {}
  }

  /** A UUID a handler can make up, and none of those in `avoid`. */
  lemma FreshMint(s: State, avoid: set<Uuid>) returns (mint: Uuid)
    ensures mint !in s.minted && mint !in avoid && !Consumer.HasId(s.audit, mint)
    ensures forall p, payload :: p in s.log && payload in s.log[p] ==> !Carries(payload, mint)
  {
    var recorded := set k | 0 <= k < |s.audit| :: s.audit[k].id;
    var carried := set p, payload, id | p in s.log && payload in s.log[p] && id in CarriedBy(payload) :: id;
    mint := Unused(s.minted + recorded + carried + avoid);
    assert forall k :: 0 <= k < |s.audit| ==> s.audit[k].id in recorded;
    forall p, payload | p in s.log && payload in s.log[p] ensures !Carries(payload, mint) {
      assert CarriedBy(payload) <= carried;
    }
  }

  /** Only member `x` has moved on, to `m`. */
  predicate Moved(s: State, t: State, x: MemberId, m: Member) {
    t.members == s.members[x := m]
  }

  /** The record in a member's hands can always be settled. */
  lemma SettleIt(s0: State, s: State, x: MemberId, p: Partition) returns (t: State)
    requires Safe(s0) && Reaches(s0, s, p) && Alive(s, x) && !s.members[x].phase.Idle?
    ensures Reaches(s0, t, p) && t.committed == s.committed && t.log == s.log
    ensures Moved(s, t, x, s.members[x].(phase := Resolved(s.members[x].phase.p, s.members[x].phase.o)))
  {
    SafeThere(s0, s, p);
    assert MemberOk(s, s.members[x]);
    if s.members[x].phase.Resolved? {
      assert s.members == s.members[x := s.members[x]];
      return s;
    }
    var a := Skip(x);
    if Current(s, x).Text? {
      var mint := FreshMint(s, {});
      a := if Consumer.Decode(Current(s, x).body, mint).Row? then Record(x, mint) else Drop(x, mint);
    }
    Move(s0, s, a, p);
    t := Do(s, a);
  }

  /** ... and its commit refused. */
  lemma FreeHands(s0: State, s: State, x: MemberId, p: Partition) returns (t: State)
    requires Safe(s0) && Reaches(s0, s, p) && Alive(s, x)
    ensures Reaches(s0, t, p) && t.committed == s.committed && t.log == s.log
    ensures Moved(s, t, x, s.members[x].(phase := Idle))
  {
    if s.members[x].phase.Idle? {
      assert s.members == s.members[x := s.members[x]];
      return s;
    }
    t := SettleIt(s0, s, x, p);
    Move(s0, t, CommitRefused(x), p);
    t := Do(t, CommitRefused(x));
  }

  /** The first `k` commits under way get lost. */
  lemma Drain(s0: State, s: State, x: MemberId, k: nat, p: Partition) returns (t: State)
    requires Reaches(s0, s, p) && x in s.members && k <= |s.members[x].queue|
    ensures Reaches(s0, t, p) && t.committed == s.committed && t.log == s.log
    ensures Moved(s, t, x, s.members[x].(queue := s.members[x].queue[k..]))
    decreases k
  {
    if k == 0 {
      assert s.members[x].queue[0..] == s.members[x].queue && s.members == s.members[x := s.members[x]];
      return s;
    }
    var u := Do(s, BrokerLosesCommit(x));
    Move(s0, s, BrokerLosesCommit(x), p);
    t := Drain(s0, u, x, k - 1, p);
    assert s.members[x].queue[1..][k - 1..] == s.members[x].queue[k..];
  }

  lemma LandQueued(s0: State, s: State, x: MemberId, k: nat, p: Partition) returns (t: State)
    requires Reaches(s0, s, p) && x in s.members && k < |s.members[x].queue| && s.members[x].queue[k].0 == p
    ensures Reaches(s0, t, p) && At(t.committed, p) == s.members[x].queue[k].1
    ensures Moved(s, t, x, s.members[x].(queue := s.members[x].queue[k + 1..]))
  {
    var u := Drain(s0, s, x, k, p);
    assert u.members[x].queue[1..] == s.members[x].queue[k + 1..];
    Move(s0, u, BrokerCommits(x), p);
    t := Do(u, BrokerCommits(x));
  }

  lemma LandInHand(s0: State, s: State, x: MemberId, p: Partition) returns (t: State)
    requires Safe(s0) && Reaches(s0, s, p) && x in s.members && InHand(s.members[x], p)
    ensures Reaches(s0, t, p) && At(t.committed, p) == s.members[x].phase.o + 1
    ensures Moved(s, t, x, s.members[x].(phase := Idle, queue := []))
  {
    var m := s.members[x];
    var u := SettleIt(s0, s, x, p);
    Move(s0, u, CommitAccepted(x), p);
    var v := Do(u, CommitAccepted(x));
    t := LandQueued(s0, v, x, |m.queue|, p);
    assert v.members[x].queue[|m.queue| + 1..] == [];
  }

  lemma Lengthen(s0: State, s: State, p: Partition, n: nat) returns (t: State)
    requires Reaches(s0, s, p)
    ensures Reaches(s0, t, p) && t == s.(log := t.log) && n < |Records(t.log, p)|
    decreases n + 1 - |Records(s.log, p)|
  {
    if n < |Records(s.log, p)| {
      return s;
    }
    Move(s0, s, Append(p, Consumer.Empty), p);
    t := Lengthen(s0, Do(s, Append(p, Consumer.Empty)), p, n);
  }

  /** A member that reads `p` can have its next offset committed. */
  lemma LandNext(s0: State, s: State, x: MemberId, p: Partition) returns (t: State)
    requires Safe(s0) && Reaches(s0, s, p) && x in s.members && Reads(s.members[x], p)
    ensures var m := s.members[x]; var n := m.position[p] + 1;
            && Reaches(s0, t, p) && At(t.committed, p) == n
            && Moved(s, t, x, m.(position := m.position[p := n], phase := Idle, queue := []))
  {
    var u := FreeHands(s0, s, x, p);
    var v := Lengthen(s0, u, p, s.members[x].position[p]);
    Move(s0, v, Pull(x, p), p);
    t := LandInHand(s0, Do(v, Pull(x, p)), x, p);
  }

  lemma LandBeyond(s0: State, s: State, x: MemberId, p: Partition, n: nat) returns (t: State)
    requires Safe(s0) && Reaches(s0, s, p) && x in s.members && Reads(s.members[x], p)
    ensures Reaches(s0, t, p) && At(t.committed, p) > n
    ensures x in t.members && Moved(s, t, x, t.members[x])
    decreases n - s.members[x].position[p]
  {
    t := LandNext(s0, s, x, p);
    if s.members[x].position[p] < n {
      t := LandBeyond(s0, t, x, p, n);
    }
  }

  /** Whatever is owed can come, or something smaller. */
  lemma LandAtMost(s: State, x: MemberId, p: Partition, n: nat) returns (t: State)
    requires Safe(s) && x in s.members && Owes(s.members[x], p, n)
    ensures Reaches(s, t, p) && At(t.committed, p) <= n
  {
    var m := s.members[x];
    Stay(s, p);
    if (p, n) in m.queue {
      var k :| 0 <= k < |m.queue| && m.queue[k] == (p, n);
      t := LandQueued(s, s, x, k, p);
    } else if InHand(m, p) && n == m.phase.o + 1 {
      t := LandInHand(s, s, x, p);
    } else {
      t := LandNext(s, s, x, p);
    }
  }

  /** ... or, for a member that reads on, something larger than any bound below it. */
  lemma LandOver(s: State, x: MemberId, p: Partition, a: nat, b: nat) returns (t: State)
    requires Safe(s) && x in s.members && Owes(s.members[x], p, a) && b < a
    ensures Reaches(s, t, p) && At(t.committed, p) > b
    ensures x in t.members && Moved(s, t, x, t.members[x])
  {
    var m := s.members[x];
    Stay(s, p);
    if (p, a) in m.queue {
      var k :| 0 <= k < |m.queue| && m.queue[k] == (p, a);
      t := LandQueued(s, s, x, k, p);
    } else if InHand(m, p) && a == m.phase.o + 1 {
      t := LandInHand(s, s, x, p);
    } else {
      t := LandBeyond(s, s, x, p, b);
    }
  }

  /** A larger offset comes first, a smaller one is still owed. */
  lemma SmallerIsLate(s: State, t: State, x: MemberId, p: Partition, n: nat)
    requires Safe(s) && Reaches(s, t, p) && x in t.members && Owes(t.members[x], p, n) && n < At(t.committed, p)
    ensures !Forward(s, p)
  {
    SafeThere(s, t, p);
    var u := LandAtMost(t, x, p, n);
    BackAgain(s, t, u, p);
  }

  lemma QueuedTooLarge(s: State, x: MemberId, p: Partition, k: nat, n: nat)
    requires Safe(s) && x in s.members && k < |s.members[x].queue| && s.members[x].queue[k].0 == p
    requires n < s.members[x].queue[k].1
    requires Owes(s.members[x].(queue := s.members[x].queue[k + 1..]), p, n)
    ensures !Forward(s, p)
  {
    Stay(s, p);
    var t := LandQueued(s, s, x, k, p);
    SmallerIsLate(s, t, x, p, n);
  }

  lemma OwnDisorder(s: State, x: MemberId, p: Partition)
    requires Safe(s) && x in s.members && !InOrder(s.members[x], p)
    ensures !Forward(s, p)
  {
    var m := s.members[x];
    if !Ascending(m.queue, p) {
      var j, k :| 0 <= j < k < |m.queue| && m.queue[j].0 == p && m.queue[k].0 == p && m.queue[j].1 > m.queue[k].1;
      assert m.queue[j + 1..][k - j - 1] == m.queue[k] == (p, m.queue[k].1);
      QueuedTooLarge(s, x, p, j, m.queue[k].1);
    } else if n :| InHand(m, p) && (p, n) in m.queue && n > m.phase.o + 1 {
      var k :| 0 <= k < |m.queue| && m.queue[k] == (p, n);
      QueuedTooLarge(s, x, p, k, m.phase.o + 1);
    } else if n :| Reads(m, p) && (p, n) in m.queue && n > m.position[p] + 1 {
      var k :| 0 <= k < |m.queue| && m.queue[k] == (p, n);
      QueuedTooLarge(s, x, p, k, m.position[p] + 1);
    } else {
      Stay(s, p);
      var t := LandInHand(s, s, x, p);
      SmallerIsLate(s, t, x, p, m.position[p] + 1);
    }
  }

  lemma MutualDisorder(s: State, p: Partition, x: MemberId, y: MemberId, a: nat, b: nat)
    requires Safe(s) && x in s.members && y in s.members && x != y && b < a
    requires Owes(s.members[x], p, a) && Owes(s.members[y], p, b)
    ensures !Forward(s, p)
  {
    var t := LandOver(s, x, p, a, b);
    SmallerIsLate(s, t, y, p, b);
  }

  lemma DisorderShows(s: State, p: Partition)
    requires Safe(s) && !Orderly(s, p)
    ensures !Forward(s, p)
  {
    if !NoneBehind(s, p) {
      var x, n: nat :| x in s.members && Owes(s.members[x], p, n) && n < At(s.committed, p);
      Stay(s, p);
      SmallerIsLate(s, s, x, p, n);
    } else if x :| x in s.members && !InOrder(s.members[x], p) {
      OwnDisorder(s, x, p);
    } else {
      var x, y, a, b :|
        x in s.members && y in s.members && x != y && Owes(s.members[x], p, a) && Owes(s.members[y], p, b) && a != b;
      if b < a {
        MutualDisorder(s, p, x, y, a, b);
      } else {
        MutualDisorder(s, p, y, x, b, a);
      }
    }
  }

  /**
   * Until a partition is handed out again its committed offset only goes forward, exactly if all that is
   * owed is in order.
   */
  lemma ForwardIffOrderly(s: State, p: Partition)
    requires Safe(s)
    ensures Forward(s, p) <==> Orderly(s, p)
  {
    if Orderly(s, p) {
      forall acts | Run(s, acts) && Quiet(acts, p) ensures !Lowers(s, acts, p) {
        QuietIsCalm(s, acts, p);
        CommittedNeverGoesBack(s, acts, p);
      }
    } else {
      DisorderShows(s, p);
    }
  }

  /**
   * When a rebalance is harmless, exactly: after handing `p` to `x` some run takes the committed
   * offset back iff something of `p` was under way with `x` beyond the next offset, or with
   * anybody else at all.
   */
  lemma RebalanceIsHarmlessIffCalm(s: State, x: MemberId, p: Partition)
    requires Safe(s) && Orderly(s, p) && Alive(s, x)
    ensures Forward(Do(s, Assign(x, p)), p) <==> Calm(s, x, p)
  {
    SafeStep(s, Assign(x, p));
    ForwardIffOrderly(Do(s, Assign(x, p)), p);
    if Calm(s, x, p) {
      CalmIsOrderly(s, x, p);
    } else if Orderly(Do(s, Assign(x, p)), p) {
      OrderlyIsCalm(s, x, p);
    }
  }

  /** Hence a rebalance in the middle of a record is harmful whenever earlier commits are still missing. */
  lemma RebalanceSetsCommittedBack(s: State, x: MemberId, p: Partition)
    requires Safe(s) && Orderly(s, p) && Enabled(s, Pull(x, p)) && At(s.committed, p) < s.members[x].position[p]
    ensures var t := Do(s, Pull(x, p)); Alive(t, x) && !Forward(Do(t, Assign(x, p)), p)
  {
    SafeStep(s, Pull(x, p));
    OrderlyStep(s, Pull(x, p), p);
    var t := Do(s, Pull(x, p));
    assert InHand(t.members[x], p) && t.members[x].phase.o > At(t.committed, p);
    RebalanceIsHarmlessIffCalm(t, x, p);
  }
}
