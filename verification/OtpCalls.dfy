/**
 * One-time codes store call by store call: the calls of overlapping requests interleave, a request
 * may be abandoned between any two of its calls, and time passes in between.
 */
module OtpCalls {
  import opened Common
  import opened Ephemeral
  import opened Otp

  type RequestId = nat

  /** An open request, by the store call it makes next. */
  datatype Request =
    | Issuing(user: string, phone: string, code: string)   // send: SET EX of the code
    | Resetting(user: string)                              // send: DEL of the attempt counter
    | Reading(user: string, phone: string, code: string)   // check: GET of the code, its attempt counted
    | Barring(user: string)                                // check: DEL of the code, one attempt too many
    | Proved(user: string)                                 // accepted: consume's DEL of the code
    | Spent(user: string)                                  // consume's DEL of the attempt counter

  datatype State = State(now: nat, items: Items, open: map<RequestId, Request>)

  datatype Action =
    | Tick(elapsed: nat)
    | BumpRate(x: RequestId, user: string, phone: string, code: string)
    | SetCode(x: RequestId)
    | ResetCount(x: RequestId)
    | Attempt(x: RequestId, user: string, phone: string, code: string)
    | Read(x: RequestId)
    | BarCode(x: RequestId)
    | DropCode(x: RequestId)
    | DropCount(x: RequestId)
    | Abandon(x: RequestId)

  ghost predicate Enabled(s: State, a: Action) {
    match a
    case Tick(_) => true
    case BumpRate(x, _, _, _) => x !in s.open
    case SetCode(x) => x in s.open && s.open[x].Issuing?
    case ResetCount(x) => x in s.open && s.open[x].Resetting?
    case Attempt(x, _, _, _) => x !in s.open
    case Read(x) => x in s.open && s.open[x].Reading?
    case BarCode(x) => x in s.open && s.open[x].Barring?
    case DropCode(x) => x in s.open && s.open[x].Proved?
    case DropCount(x) => x in s.open && s.open[x].Spent?
    case Abandon(x) => x in s.open
  }

  /** The GET finds a code to compare the guess with. */
  predicate Finds(s: State, user: string) {
    Live(s.items, OtpKey(user), s.now) && s.items[OtpKey(user)].value.Payload?
  }

  predicate Matches(s: State, r: Request)
    requires r.Reading? && Finds(s, r.user)
  {
    s.items[OtpKey(r.user)].value == Payload(r.phone, r.code)
  }

  function Do(s: State, a: Action): State
    requires Enabled(s, a)
  {
    match a
    case Tick(elapsed) => s.(now := s.now + elapsed)
    case BumpRate(x, user, phone, code) =>
      var items := Incremented(s.items, RateKey(user), RATE_LIMIT_TTL, s.now);
      var count := CountAt(items, RateKey(user));
      if count.Some? && count.value <= REQUESTS_PER_HOUR
      then s.(items := items, open := s.open[x := Issuing(user, phone, code)])
      else s.(items := items)
    case SetCode(x) =>
      var r := s.open[x];
      s.(items := s.items[OtpKey(r.user) := Item(Payload(r.phone, r.code), s.now + OTP_TTL)],
         open := s.open[x := Resetting(r.user)])
    case ResetCount(x) => s.(items := s.items - {AttemptsKey(s.open[x].user)}, open := s.open - {x})
    case Attempt(x, user, phone, code) =>
      var items := Incremented(s.items, AttemptsKey(user), OTP_TTL, s.now);
      match CountAt(items, AttemptsKey(user)) {
        case None => s.(items := items)
        case Some(attempts) =>
          s.(items := items,
             open := s.open[x := if attempts > MAX_ATTEMPTS then Barring(user) else Reading(user, phone, code)])
      }
    case Read(x) =>
      var r := s.open[x];
      s.(open := if Finds(s, r.user) && Matches(s, r) then s.open[x := Proved(r.user)] else s.open - {x})
    case BarCode(x) => s.(items := s.items - {OtpKey(s.open[x].user)}, open := s.open - {x})
    case DropCode(x) =>
      s.(items := s.items - {OtpKey(s.open[x].user)}, open := s.open[x := Spent(s.open[x].user)])
    case DropCount(x) => s.(items := s.items - {AttemptsKey(s.open[x].user)}, open := s.open - {x})
    case Abandon(x) => s.(open := s.open - {x})
  }

  // ------------------------------------------------------------- one user's code

  predicate Issues(s: State, a: Action, user: string)
    requires Enabled(s, a)
  {
    a.SetCode? && s.open[a.x].user == user
  }

  /** One guess is compared with a stored code of `user`. */
  predicate Compares(s: State, a: Action, user: string)
    requires Enabled(s, a)
  {
    a.Read? && s.open[a.x].user == user && Finds(s, user)
  }

  /** The user's keys hold what their owners put there, and no code outlives its ttl. */
  predicate UserOk(s: State, user: string) {
    && (OtpKey(user) in s.items ==>
          s.items[OtpKey(user)].value.Payload? && s.items[OtpKey(user)].expiresAt <= s.now + OTP_TTL)
    && (AttemptsKey(user) in s.items ==> s.items[AttemptsKey(user)].value.Count?)
  }

  /** Checks whose attempt is counted and whose GET is still to come. */
  function Pending(s: State, user: string): set<RequestId> {
    set x | x in s.open && s.open[x].Reading? && s.open[x].user == user
  }

  /** Deletions of the attempt counter still to come. */
  function Outstanding(s: State, user: string): set<RequestId> {
    set x | x in s.open && (s.open[x].Resetting? || s.open[x].Spent?) && s.open[x].user == user
  }

  /** How many more checks the counter lets through while the present code lives, if nobody deletes it. */
  function Allowance(s: State, user: string): nat
    requires UserOk(s, user)
  {
    if !Finds(s, user) then 0
    else if !Live(s.items, AttemptsKey(user), s.now) then MAX_ATTEMPTS
    else
      var counter := s.items[AttemptsKey(user)];
      (if counter.value.n < MAX_ATTEMPTS then MAX_ATTEMPTS - counter.value.n else 0)
      + (if counter.expiresAt < s.items[OtpKey(user)].expiresAt then MAX_ATTEMPTS else 0)
  }

  /** The most comparisons the present code can still meet. */
  function Worst(s: State, user: string): nat
    requires UserOk(s, user)
  {
    if !Finds(s, user) then 0
    else Allowance(s, user) + MAX_ATTEMPTS * |Outstanding(s, user)| + |Pending(s, user)|
  }

  // ------------------------------------------------------------------ one step

  /** Whose keys an action touches; a tick touches none. */
  function UserOf(s: State, a: Action): Option<string>
    requires Enabled(s, a)
  {
    if a.Tick? then None
    else if a.BumpRate? || a.Attempt? then Some(a.user)
    else Some(s.open[a.x].user)
  }

  predicate SameUser(s: State, t: State, user: string) {
    && (OtpKey(user) in s.items <==> OtpKey(user) in t.items)
    && (OtpKey(user) in s.items ==> s.items[OtpKey(user)] == t.items[OtpKey(user)])
    && (AttemptsKey(user) in s.items <==> AttemptsKey(user) in t.items)
    && (AttemptsKey(user) in s.items ==> s.items[AttemptsKey(user)] == t.items[AttemptsKey(user)])
    && Pending(s, user) == Pending(t, user) && Outstanding(s, user) == Outstanding(t, user)
  }

  /** Other users' requests leave a user's keys and requests alone. */
  lemma OthersStayAway(s: State, a: Action, user: string)
    requires Enabled(s, a) && UserOf(s, a).Some? && UserOf(s, a) != Some(user)
    ensures SameUser(s, Do(s, a), user) && Do(s, a).now == s.now
  {
    KeysStayAway(s, a, user);
    RequestsStayAway(s, a, user);
  }

  lemma KeysStayAway(s: State, a: Action, user: string)
    requires Enabled(s, a) && UserOf(s, a).Some? && UserOf(s, a) != Some(user)
    ensures forall key :: key == OtpKey(user) || key == AttemptsKey(user) ==>
              && (key in s.items <==> key in Do(s, a).items)
              && (key in s.items ==> s.items[key] == Do(s, a).items[key])
  {
    KeysApart(user, UserOf(s, a).value);
    KeysApart(UserOf(s, a).value, user);
  }

  lemma RequestsStayAway(s: State, a: Action, user: string)
    requires Enabled(s, a) && UserOf(s, a).Some? && UserOf(s, a) != Some(user)
    ensures Pending(s, user) == Pending(Do(s, a), user) && Outstanding(s, user) == Outstanding(Do(s, a), user)
  {
    assert forall x :: x in s.open && x != a.x ==> x in Do(s, a).open && Do(s, a).open[x] == s.open[x];
    assert forall x :: x in Do(s, a).open && x != a.x ==> x in s.open;
  }

  lemma RateStaysAway(s: State, a: Action)
    requires Enabled(s, a) && a.BumpRate?
    ensures SameUser(s, Do(s, a), a.user) && Do(s, a).now == s.now
  {
    KeysApart(a.user, a.user);
  }

  lemma UserStaysOk(s: State, a: Action, user: string)
    requires Enabled(s, a) && UserOk(s, user)
    ensures UserOk(Do(s, a), user)
  {
    KeysApart(user, user);
    if a.BumpRate? && a.user == user {
      RateStaysAway(s, a);
    } else if !a.Tick? && UserOf(s, a) != Some(user) {
      OthersStayAway(s, a, user);
    }
  }

  lemma TickStep(s: State, elapsed: nat, user: string)
    requires UserOk(s, user)
    ensures Worst(Do(s, Tick(elapsed)), user) <= Worst(s, user)
  {
    var t := Do(s, Tick(elapsed));
    assert Pending(t, user) == Pending(s, user) && Outstanding(t, user) == Outstanding(s, user);
  }

  /** A counted attempt waits for its GET unless it is barred; it changes nothing else the user has open. */
  lemma CountOpens(s: State, a: Action)
    requires Enabled(s, a) && a.Attempt?
    ensures var t := Do(s, a);
            && Outstanding(t, a.user) == Outstanding(s, a.user)
            && (if a.x in t.open && t.open[a.x].Reading?
                then a.x !in Pending(s, a.user) && Pending(t, a.user) == Pending(s, a.user) + {a.x}
                else Pending(t, a.user) == Pending(s, a.user))
  {
    var t := Do(s, a);
    assert forall y :: y in s.open ==> y != a.x && y in t.open && t.open[y] == s.open[y];
    assert forall y :: y in t.open && y != a.x ==> y in s.open;
  }

  lemma CountStep(s: State, a: Action)
    requires Enabled(s, a) && a.Attempt? && UserOk(s, a.user)
    ensures UserOk(Do(s, a), a.user) && Worst(Do(s, a), a.user) <= Worst(s, a.user)
  {
    KeysApart(a.user, a.user);
    CountOpens(s, a);
  }

  lemma ReadStep(s: State, x: RequestId)
    requires Enabled(s, Read(x)) && UserOk(s, s.open[x].user)
    ensures var user := s.open[x].user; var t := Do(s, Read(x));
            && UserOk(t, user)
            && (Finds(s, user) ==> Worst(t, user) + 1 == Worst(s, user))
            && Worst(t, user) <= Worst(s, user)
  {
    var user := s.open[x].user;
    var t := Do(s, Read(x));
    assert Outstanding(t, user) == Outstanding(s, user);
    assert Pending(t, user) == Pending(s, user) - {x};
  }

  lemma DeletionStep(s: State, a: Action)
    requires Enabled(s, a) && (a.ResetCount? || a.DropCount?) && UserOk(s, s.open[a.x].user)
    ensures var user := s.open[a.x].user; var t := Do(s, a);
            && UserOk(t, user)
            && Worst(t, user) <= Worst(s, user)
            && (Finds(s, user) ==> Worst(t, user) + Allowance(s, user) == Worst(s, user))
  {
    var user := s.open[a.x].user;
    var t := Do(s, a);
    KeysApart(user, user);
    assert Outstanding(t, user) == Outstanding(s, user) - {a.x};
    assert Pending(t, user) == Pending(s, user);
  }

  lemma AbandonStep(s: State, x: RequestId)
    requires Enabled(s, Abandon(x)) && UserOk(s, s.open[x].user)
    ensures UserOk(Do(s, Abandon(x)), s.open[x].user)
    ensures Worst(Do(s, Abandon(x)), s.open[x].user) <= Worst(s, s.open[x].user)
  {
    var user := s.open[x].user;
    var t := Do(s, Abandon(x));
    CardinalityOfSubset(Outstanding(t, user), Outstanding(s, user));
    CardinalityOfSubset(Pending(t, user), Pending(s, user));
  }

  /** Every comparison uses up one of those the worst case allowed for, and no step adds any. */
  lemma WorstStep(s: State, a: Action, user: string)
    requires Enabled(s, a) && UserOk(s, user) && !Issues(s, a, user)
    ensures UserOk(Do(s, a), user)
    ensures Worst(Do(s, a), user) + (if Compares(s, a, user) then 1 else 0) <= Worst(s, user)
  {
    UserStaysOk(s, a, user);
    if a.Tick? {
      TickStep(s, a.elapsed, user);
    } else if UserOf(s, a) != Some(user) {
      OthersStayAway(s, a, user);
    } else {
      match a
      case BumpRate(_, _, _, _) => RateStaysAway(s, a);
      case Attempt(_, _, _, _) => CountStep(s, a);
      case Read(x) => ReadStep(s, x);
      case ResetCount(_) => DeletionStep(s, a);
      case DropCount(_) => DeletionStep(s, a);
      case Abandon(x) => AbandonStep(s, x);
      case BarCode(_) =>
      case DropCode(_) =>
    }
  }

  // -------------------------------------------------------------------- runs

  ghost predicate Run(s: State, acts: seq<Action>)
    decreases |acts|
  {
    acts == [] || (Enabled(s, acts[0]) && Run(Do(s, acts[0]), acts[1..]))
  }

  ghost function After(s: State, acts: seq<Action>): State
    requires Run(s, acts)
    decreases |acts|
  {
    if acts == [] then s else After(Do(s, acts[0]), acts[1..])
  }

  /** No further code is set for `user`. */
  ghost predicate NoneIssued(s: State, acts: seq<Action>, user: string)
    requires Run(s, acts)
    decreases |acts|
  {
    acts != [] ==> !Issues(s, acts[0], user) && NoneIssued(Do(s, acts[0]), acts[1..], user)
  }

  ghost function Comparisons(s: State, acts: seq<Action>, user: string): nat
    requires Run(s, acts)
    decreases |acts|
  {
    if acts == [] then 0
    else (if Compares(s, acts[0], user) then 1 else 0) + Comparisons(Do(s, acts[0]), acts[1..], user)
  }

  /** However the calls interleave, the code stored in `s` meets at most `Worst` comparisons from there on. */
  lemma {:induction false} ComparisonsAreBounded(s: State, acts: seq<Action>, user: string)
    requires Run(s, acts) && UserOk(s, user) && NoneIssued(s, acts, user)
    ensures UserOk(After(s, acts), user)
    ensures Comparisons(s, acts, user) + Worst(After(s, acts), user) <= Worst(s, user)
    decreases |acts|
  {
    if acts != [] {
      WorstStep(s, acts[0], user);
      ComparisonsAreBounded(Do(s, acts[0]), acts[1..], user);
    }
  }

  // ------------------------------------------------------- the bound is reached

  /** `acts` is a run without a new code that makes exactly `n` comparisons. */
  ghost predicate Makes(s: State, acts: seq<Action>, user: string, n: nat) {
    Run(s, acts) && NoneIssued(s, acts, user) && Comparisons(s, acts, user) == n
  }

  lemma Prepend(s: State, a: Action, acts: seq<Action>, user: string, n: nat)
    requires Enabled(s, a) && !Issues(s, a, user) && Makes(Do(s, a), acts, user, n)
    ensures Makes(s, [a] + acts, user, n + if Compares(s, a, user) then 1 else 0)
  {
    assert ([a] + acts)[1..] == acts;
  }

  /** The counter lets one more check through right now. */
  predicate Open(s: State, user: string) {
    Finds(s, user)
    && (!Live(s.items, AttemptsKey(user), s.now)
        || (s.items[AttemptsKey(user)].value.Count? && s.items[AttemptsKey(user)].value.n < MAX_ATTEMPTS))
  }

  /** One check counted and read at once: one comparison, and the worst case is one smaller. */
  lemma GuessNow(s: State, user: string, x: RequestId)
    requires UserOk(s, user) && Open(s, user) && x !in s.open
    ensures var a := Attempt(x, user, "", ""); var t := Do(s, a);
            && Enabled(t, Read(x)) && t.open[x].user == user && UserOk(t, user) && UserOk(Do(t, Read(x)), user)
            && Compares(t, Read(x), user) && Worst(Do(t, Read(x)), user) + 1 == Worst(s, user)
  {
    var a := Attempt(x, user, "", "");
    var t := Do(s, a);
    KeysApart(user, user);
    CountStep(s, a);
    assert Pending(t, user) == Pending(s, user) + {x};
    assert Outstanding(t, user) == Outstanding(s, user);
    assert Worst(t, user) == Worst(s, user);
    ReadStep(t, x);
  }

  /** Without checks under way, one more comparison can be brought about if the worst case allows for any. */
  lemma NextOpening(s: State, user: string) returns (acts: seq<Action>)
    requires UserOk(s, user) && Worst(s, user) > 0 && Pending(s, user) == {}
    ensures Makes(s, acts, user, 0) && UserOk(After(s, acts), user)
    ensures Open(After(s, acts), user) && Worst(After(s, acts), user) == Worst(s, user)
  {
    if Open(s, user) {
      return [];
    }
    var counter := s.items[AttemptsKey(user)];
    var a: Action;
    if counter.expiresAt < s.items[OtpKey(user)].expiresAt {
      a := Tick(counter.expiresAt - s.now);
      var t := Do(s, a);
      assert Pending(t, user) == Pending(s, user) && Outstanding(t, user) == Outstanding(s, user);
    } else {
      assert Allowance(s, user) == 0;
      var y :| y in Outstanding(s, user);
      a := if s.open[y].Resetting? then ResetCount(y) else DropCount(y);
      KeysApart(user, user);
      DeletionStep(s, a);
    }
    assert Open(Do(s, a), user);
    acts := [a];
    assert acts[1..] == [] && Makes(Do(s, a), [], user, 0) && After(Do(s, a), []) == Do(s, a);
    UserStaysOk(s, a, user);
  }

  lemma {:induction false} MakesConcat(s: State, a: seq<Action>, b: seq<Action>, user: string, m: nat, n: nat)
    requires Makes(s, a, user, m) && Makes(After(s, a), b, user, n)
    ensures Makes(s, a + b, user, m + n)
    decreases |a|
  {
    if a == [] {
      assert a + b == b;
    } else {
      var m' := Comparisons(Do(s, a[0]), a[1..], user);
      MakesConcat(Do(s, a[0]), a[1..], b, user, m', n);
      assert a + b == [a[0]] + (a[1..] + b);
      Prepend(s, a[0], a[1..] + b, user, m' + n);
    }
  }

  /** The worst case happens: some run of calls makes exactly that many comparisons. */
  lemma {:induction false} WorstIsReached(s: State, user: string) returns (acts: seq<Action>)
    requires UserOk(s, user)
    ensures Makes(s, acts, user, Worst(s, user))
    decreases Worst(s, user)
  {
    if Worst(s, user) == 0 {
      acts := [];
    } else if x :| x in Pending(s, user) {
      ReadStep(s, x);
      var rest := WorstIsReached(Do(s, Read(x)), user);
      Prepend(s, Read(x), rest, user, Worst(s, user) - 1);
      acts := [Read(x)] + rest;
    } else {
      var first := NextOpening(s, user);
      var t := After(s, first);
      var x := Unused(t.open.Keys);
      GuessNow(t, user, x);
      var counted := Do(t, Attempt(x, user, "", ""));
      var rest := WorstIsReached(Do(counted, Read(x)), user);
      Prepend(counted, Read(x), rest, user, Worst(s, user) - 1);
      Prepend(t, Attempt(x, user, "", ""), [Read(x)] + rest, user, Worst(s, user));
      acts := first + ([Attempt(x, user, "", "")] + ([Read(x)] + rest));
      MakesConcat(s, first, [Attempt(x, user, "", "")] + ([Read(x)] + rest), user, 0, Worst(s, user));
    }
  }

  /** Every continuation compares the present code with at most five guesses. */
  ghost predicate FiveAtMost(s: State, user: string) {
    forall acts :: Run(s, acts) && NoneIssued(s, acts, user) ==> Comparisons(s, acts, user) <= MAX_ATTEMPTS
  }

  /** When five guesses are all a code can meet, exactly. */
  lemma FiveIffWorst(s: State, user: string)
    requires UserOk(s, user)
    ensures FiveAtMost(s, user) <==> Worst(s, user) <= MAX_ATTEMPTS
  {
    if Worst(s, user) <= MAX_ATTEMPTS {
      forall acts | Run(s, acts) && NoneIssued(s, acts, user) ensures Comparisons(s, acts, user) <= MAX_ATTEMPTS {
        ComparisonsAreBounded(s, acts, user);
      }
    } else {
      var acts := WorstIsReached(s, user);
      assert Makes(s, acts, user, Worst(s, user));
    }
  }

  // ---------------------------------------------------- what a send starts with

  /** The SET EX itself: the new code can meet five more for each deletion outstanding, its own included. */
  lemma WorstAtSet(s: State, x: RequestId)
    requires Enabled(s, SetCode(x)) && UserOk(s, s.open[x].user)
    ensures var user := s.open[x].user; var t := Do(s, SetCode(x));
            && UserOk(t, user) && Finds(t, user) && x in t.open && t.open[x] == Resetting(user)
            && Outstanding(t, user) == Outstanding(s, user) + {x} && Pending(t, user) == Pending(s, user)
            && Worst(t, user) == Allowance(t, user) + 5 * (|Outstanding(s, user)| + 1) + |Pending(s, user)|
  {
    var user := s.open[x].user;
    var t := Do(s, SetCode(x));
    KeysApart(user, user);
    assert Outstanding(t, user) == Outstanding(s, user) + {x};
    assert Pending(t, user) == Pending(s, user);
  }

  /** The counter's deletion while the code lives: five, and five for each deletion and one for each read to come. */
  lemma WorstAtReset(s: State, x: RequestId)
    requires Enabled(s, ResetCount(x)) && UserOk(s, s.open[x].user) && Finds(s, s.open[x].user)
    ensures var user := s.open[x].user; var t := Do(s, ResetCount(x));
            && UserOk(t, user)
            && Worst(t, user) == 5 + 5 * |Outstanding(t, user)| + |Pending(t, user)|
            && Outstanding(t, user) == Outstanding(s, user) - {x} && Pending(t, user) == Pending(s, user)
  {
    var user := s.open[x].user;
    var t := Do(s, ResetCount(x));
    KeysApart(user, user);
    assert Outstanding(t, user) == Outstanding(s, user) - {x};
    assert Pending(t, user) == Pending(s, user);
  }

  /** From the send's own deletion on, five guesses are all exactly if nothing from before is still to come. */
  lemma FiveOnceReset(s: State, x: RequestId)
    requires Enabled(s, ResetCount(x)) && UserOk(s, s.open[x].user) && Finds(s, s.open[x].user)
    ensures var user := s.open[x].user; var t := Do(s, ResetCount(x));
            FiveAtMost(t, user) <==> Outstanding(t, user) == {} && Pending(t, user) == {}
  {
    WorstAtReset(s, x);
    FiveIffWorst(Do(s, ResetCount(x)), s.open[x].user);
  }

  /** None of the user's checks is counted along `acts`. */
  predicate NoneCounted(acts: seq<Action>, user: string) {
    forall a :: a in acts ==> !(a.Attempt? && a.user == user)
  }

  /** A run in which request `x` deletes the counter before any of the user's checks is counted. */
  ghost predicate Prompt(t: State, before: seq<Action>, rest: seq<Action>, user: string, x: RequestId) {
    && Run(t, before) && NoneIssued(t, before, user) && NoneCounted(before, user)
    && x in After(t, before).open && After(t, before).open[x] == Resetting(user)
    && Run(Do(After(t, before), ResetCount(x)), rest) && NoneIssued(Do(After(t, before), ResetCount(x)), rest, user)
  }

  ghost function PromptComparisons(t: State, before: seq<Action>, rest: seq<Action>, user: string, x: RequestId): nat
    requires Prompt(t, before, rest, user, x)
  {
    Comparisons(t, before, user) + Comparisons(Do(After(t, before), ResetCount(x)), rest, user)
  }

  /** Nothing left over from before the code was set can reach it. */
  predicate Clean(t: State, user: string, x: RequestId) {
    UserOk(t, user) && Pending(t, user) == {} && (Finds(t, user) ==> Outstanding(t, user) <= {x})
  }

  lemma CleanStep(t: State, a: Action, user: string, x: RequestId)
    requires Enabled(t, a) && Clean(t, user, x) && !Issues(t, a, user) && !(a.Attempt? && a.user == user)
    ensures Clean(Do(t, a), user, x) && !Compares(t, a, user)
  {
    UserStaysOk(t, a, user);
    if a.Read? {
      ReaderIsPending(t, a.x);
    }
    if a.Tick? {
      assert Pending(Do(t, a), user) == Pending(t, user) && Outstanding(Do(t, a), user) == Outstanding(t, user);
    } else if UserOf(t, a) != Some(user) {
      OthersStayAway(t, a, user);
    } else {
      OwnCleanStep(t, a, x);
    }
  }

  lemma ReaderIsPending(t: State, x: RequestId)
    requires Enabled(t, Read(x))
    ensures x in Pending(t, t.open[x].user)
  {
  }

  lemma OwnCleanStep(t: State, a: Action, x: RequestId)
    requires Enabled(t, a) && !a.Tick? && !a.Attempt? && !a.SetCode? && !a.Read?
    requires Clean(t, UserOf(t, a).value, x)
    ensures Pending(Do(t, a), UserOf(t, a).value) == {}
    ensures Finds(Do(t, a), UserOf(t, a).value) ==> Outstanding(Do(t, a), UserOf(t, a).value) <= {x}
  {
    var user := UserOf(t, a).value;
    KeysApart(user, user);
    if a.BumpRate? {
      RateStaysAway(t, a);
    } else {
      assert Pending(Do(t, a), user) <= Pending(t, user);
      assert a.DropCode? || Outstanding(Do(t, a), user) <= Outstanding(t, user);
    }
  }

  lemma {:induction false} CleanRun(t: State, acts: seq<Action>, user: string, x: RequestId)
    requires Run(t, acts) && Clean(t, user, x) && NoneIssued(t, acts, user) && NoneCounted(acts, user)
    ensures Clean(After(t, acts), user, x) && Comparisons(t, acts, user) == 0
    decreases |acts|
  {
    if acts != [] {
      CleanStep(t, acts[0], user, x);
      CleanRun(Do(t, acts[0]), acts[1..], user, x);
    }
  }

  /**
   * The five-guess bound for calls that interleave: a code whose send deletes the counter before
   * the first check is counted meets at most five guesses in every run, exactly if, when it was
   * set, no other deletion of the counter was outstanding and no check was between its two calls.
   */
  lemma FiveWhenPrompt(s: State, x: RequestId)
    requires Enabled(s, SetCode(x)) && UserOk(s, s.open[x].user)
    ensures var user := s.open[x].user; var t := Do(s, SetCode(x));
            (forall before, rest :: Prompt(t, before, rest, user, x) ==>
               PromptComparisons(t, before, rest, user, x) <= MAX_ATTEMPTS)
            <==> Outstanding(s, user) == {} && Pending(s, user) == {}
  {
    var user := s.open[x].user;
    var t := Do(s, SetCode(x));
    WorstAtSet(s, x);
    if Outstanding(s, user) == {} && Pending(s, user) == {} {
      forall before, rest | Prompt(t, before, rest, user, x)
        ensures PromptComparisons(t, before, rest, user, x) <= MAX_ATTEMPTS
      {
        PromptIsFive(t, before, rest, user, x);
      }
    } else {
      var rest := LeftoversCount(s, x);
      assert Prompt(t, [], rest, user, x) && PromptComparisons(t, [], rest, user, x) > MAX_ATTEMPTS;
    }
  }

  lemma PromptIsFive(t: State, before: seq<Action>, rest: seq<Action>, user: string, x: RequestId)
    requires Prompt(t, before, rest, user, x) && Clean(t, user, x)
    ensures PromptComparisons(t, before, rest, user, x) <= MAX_ATTEMPTS
  {
    CleanRun(t, before, user, x);
    var u := After(t, before);
    if Finds(u, user) {
      WorstAtReset(u, x);
    } else {
      UserStaysOk(u, ResetCount(x), user);
      KeysApart(user, user);
    }
    ComparisonsAreBounded(Do(u, ResetCount(x)), rest, user);
  }

  lemma LeftoversCount(s: State, x: RequestId) returns (rest: seq<Action>)
    requires Enabled(s, SetCode(x)) && UserOk(s, s.open[x].user)
    requires Outstanding(s, s.open[x].user) != {} || Pending(s, s.open[x].user) != {}
    ensures var user := s.open[x].user; var t := Do(s, SetCode(x));
            Prompt(t, [], rest, user, x) && PromptComparisons(t, [], rest, user, x) > MAX_ATTEMPTS
  {
    var user := s.open[x].user;
    var t := Do(s, SetCode(x));
    WorstAtSet(s, x);
    WorstAtReset(t, x);
    assert x !in Outstanding(s, user);
    assert Outstanding(t, user) - {x} == Outstanding(s, user);
    rest := WorstIsReached(Do(t, ResetCount(x)), user);
    assert After(t, []) == t;
  }

  // ------------------------------------------------ calls made without interruption

  lemma {:induction false} Extend(s: State, acts: seq<Action>, a: Action)
    requires Run(s, acts) && Enabled(After(s, acts), a)
    ensures Run(s, acts + [a]) && After(s, acts + [a]) == Do(After(s, acts), a)
    decreases |acts|
  {
    if acts == [] {
      assert acts + [a] == [a] && Run(Do(s, a), []);
    } else {
      Extend(Do(s, acts[0]), acts[1..], a);
      assert (acts + [a])[1..] == acts[1..] + [a];
    }
  }

  function Sending(x: RequestId, user: string, phone: string, code: string): seq<Action> {
    [BumpRate(x, user, phone, code)] + [SetCode(x)] + [ResetCount(x)]
  }

  lemma RunOfThree(s: State, a: Action, b: Action, c: Action)
    requires Enabled(s, a) && Enabled(Do(s, a), b) && Enabled(Do(Do(s, a), b), c)
    ensures Run(s, [a] + [b] + [c]) && After(s, [a] + [b] + [c]) == Do(Do(Do(s, a), b), c)
  {
    assert [] + [a] == [a] && After(s, []) == s;
    Extend(s, [], a);
    Extend(s, [a], b);
    Extend(s, [a] + [b], c);
  }

  lemma BumpStep(s: State, x: RequestId, user: string, phone: string, code: string)
    requires x !in s.open && SendTx(s.items, user, phone, code, s.now).1 == Sent
    ensures Do(s, BumpRate(x, user, phone, code))
            == s.(items := Incremented(s.items, RateKey(user), RATE_LIMIT_TTL, s.now),
                  open := s.open[x := Issuing(user, phone, code)])
  {
  }

  lemma SendSteps(s: State, x: RequestId, user: string, phone: string, code: string)
    requires x !in s.open && SendTx(s.items, user, phone, code, s.now).1 == Sent
    ensures var s1 := Do(s, BumpRate(x, user, phone, code));
            && Enabled(s1, SetCode(x)) && Enabled(Do(s1, SetCode(x)), ResetCount(x))
            && Do(Do(s1, SetCode(x)), ResetCount(x)) == s.(items := SendTx(s.items, user, phone, code, s.now).0)
  {
    BumpStep(s, x, user, phone, code);
    var s2 := Do(Do(s, BumpRate(x, user, phone, code)), SetCode(x));
    assert s2.open == s.open[x := Resetting(user)];
    assert Do(s2, ResetCount(x)).open == s.open;
  }

  /** A send that is not interrupted is one step of module `Otp`. */
  lemma SendIsARun(s: State, x: RequestId, user: string, phone: string, code: string)
    requires x !in s.open && SendTx(s.items, user, phone, code, s.now).1 == Sent
    ensures Run(s, Sending(x, user, phone, code))
    ensures After(s, Sending(x, user, phone, code)) == s.(items := SendTx(s.items, user, phone, code, s.now).0)
  {
    SendSteps(s, x, user, phone, code);
    RunOfThree(s, BumpRate(x, user, phone, code), SetCode(x), ResetCount(x));
  }

  /** A check that is not interrupted: the same store, the same verdict, the same comparison. */
  lemma CheckIsARun(s: State, x: RequestId, user: string, phone: string, code: string)
    requires x !in s.open && UserOk(s, user)
    ensures var a := Attempt(x, user, phone, code); var t := Do(s, a);
            var next := if x in t.open && t.open[x].Barring? then BarCode(x) else Read(x);
            && Enabled(t, next)
            && Do(t, next).items == CheckTx(s.items, user, phone, code, s.now).0
            && (Compares(t, next, user) <==> Otp.Compares(s.items, user, s.now))
            && Do(t, next).open == (if CheckTx(s.items, user, phone, code, s.now).1 == Accepted
                                    then s.open[x := Proved(user)] else s.open)
  {
    KeysApart(user, user);
  }

  // ---------------------------------------------------- how the bound is missed

  function Idle(now: nat): State {
    State(now, map[], map[])
  }

  /** `acts` leads from the empty store to `t`. */
  ghost predicate Reaches(now: nat, acts: seq<Action>, t: State) {
    Run(Idle(now), acts) && After(Idle(now), acts) == t
  }

  lemma Onward(now: nat, acts: seq<Action>, t: State, a: Action)
    requires Reaches(now, acts, t) && Enabled(t, a)
    ensures Reaches(now, acts + [a], Do(t, a))
  {
    Extend(Idle(now), acts, a);
  }

  function CodeItem(phone: string, code: string, now: nat): Item {
    Item(Payload(phone, code), now + OTP_TTL)
  }

  /** Exactly `n` comparisons with `user`'s present code can follow `t`. */
  ghost predicate CanMake(t: State, user: string, n: nat) {
    exists acts :: Makes(t, acts, user, n)
  }

  lemma WorstCanBeMade(t: State, user: string)
    requires UserOk(t, user)
    ensures CanMake(t, user, Worst(t, user))
  {
    var acts := WorstIsReached(t, user);
  }

  /** `send_otp` alone: five guesses between its SET EX and its DEL, five after. */
  lemma LateResetDoublesGuesses(now: nat, user: string, phone: string, code: string)
    ensures var acts := [BumpRate(0, user, phone, code)] + [SetCode(0)];
            Run(Idle(now), acts) && CanMake(After(Idle(now), acts), user, 10)
  {
    KeysApart(user, user);
    var bump := BumpRate(0, user, phone, code);
    assert [] + [bump] == [bump];
    Onward(now, [], Idle(now), bump);
    var s1 := Do(Idle(now), bump);
    Onward(now, [bump], s1, SetCode(0));
    assert Outstanding(s1, user) == {} && Pending(s1, user) == {};
    WorstAtSet(s1, 0);
    WorstCanBeMade(Do(s1, SetCode(0)), user);
  }

  /** A send served without interruption makes its own deletion no leftover: only those of others remain. */
  lemma SendLeaves(s: State, user: string, phone: string, code: string) returns (t: State)
    requires UserOk(s, user) && 0 !in s.open
    requires SendTx(s.items, user, phone, code, s.now).1 == Sent
    ensures var s1 := Do(s, BumpRate(0, user, phone, code));
            && Enabled(s1, SetCode(0)) && Enabled(Do(s1, SetCode(0)), ResetCount(0))
            && t == Do(Do(s1, SetCode(0)), ResetCount(0))
    ensures UserOk(t, user) && Worst(t, user) == 5 + 5 * |Outstanding(s, user)| + |Pending(s, user)|
  {
    var bump := BumpRate(0, user, phone, code);
    BumpStep(s, 0, user, phone, code);
    UserStaysOk(s, bump, user);
    RateStaysAway(s, bump);
    var s1 := Do(s, bump);
    WorstAtSet(s1, 0);
    var s2 := Do(s1, SetCode(0));
    WorstAtReset(s2, 0);
    t := Do(s2, ResetCount(0));
    assert Outstanding(s2, user) - {0} == Outstanding(s, user);
  }

  /** A send served without interruption while requests of the same user are open. */
  lemma SendFrom(now: nat, acts: seq<Action>, s: State, user: string, phone: string, code: string) returns (t: State)
    requires Reaches(now, acts, s) && UserOk(s, user) && 0 !in s.open
    requires SendTx(s.items, user, phone, code, s.now).1 == Sent
    ensures Reaches(now, acts + [BumpRate(0, user, phone, code)] + [SetCode(0)] + [ResetCount(0)], t) && UserOk(t, user)
    ensures CanMake(t, user, 5 + 5 * |Outstanding(s, user)| + |Pending(s, user)|)
  {
    var bump := BumpRate(0, user, phone, code);
    t := SendLeaves(s, user, phone, code);
    Onward(now, acts, s, bump);
    Onward(now, acts + [bump], Do(s, bump), SetCode(0));
    Onward(now, acts + [bump] + [SetCode(0)], Do(Do(s, bump), SetCode(0)), ResetCount(0));
    WorstCanBeMade(t, user);
  }

  /** `check` alone: counted before the code was sent, it reads the new code on top of five fresh guesses. */
  lemma EarlyCountAddsAGuess(now: nat, user: string, phone: string, code: string)
    ensures var acts := [Attempt(1, user, phone, code)]
                        + [BumpRate(0, user, phone, code)] + [SetCode(0)] + [ResetCount(0)];
            Run(Idle(now), acts) && CanMake(After(Idle(now), acts), user, 6)
  {
    KeysApart(user, user);
    var first := Attempt(1, user, phone, code);
    assert [] + [first] == [first];
    Onward(now, [], Idle(now), first);
    var s1 := Do(Idle(now), first);
    assert Outstanding(s1, user) == {} && Pending(s1, user) == {1};
    var t := SendFrom(now, [first], s1, user, phone, code);
  }

  /** A send abandoned between its SET EX and its DEL: the old counter expires first, and a second one starts. */
  lemma AbandonedSendAddsGuesses(now: nat, user: string, phone: string, code: string)
    ensures var acts := [Attempt(1, user, phone, code)] + [Read(1)] + [Tick(SECOND)]
                        + [BumpRate(0, user, phone, code)] + [SetCode(0)] + [Abandon(0)];
            Run(Idle(now), acts) && CanMake(After(Idle(now), acts), user, 9)
  {
    KeysApart(user, user);
    var first := Attempt(1, user, phone, code);
    var bump := BumpRate(0, user, phone, code);
    assert [] + [first] == [first];
    Onward(now, [], Idle(now), first);
    var s1 := Do(Idle(now), first);
    Onward(now, [first], s1, Read(1));
    var s2 := Do(s1, Read(1));
    Onward(now, [first] + [Read(1)], s2, Tick(SECOND));
    var s3 := Do(s2, Tick(SECOND));
    Onward(now, [first] + [Read(1)] + [Tick(SECOND)], s3, bump);
    var s4 := Do(s3, bump);
    Onward(now, [first] + [Read(1)] + [Tick(SECOND)] + [bump], s4, SetCode(0));
    var s5 := Do(s4, SetCode(0));
    Onward(now, [first] + [Read(1)] + [Tick(SECOND)] + [bump] + [SetCode(0)], s5, Abandon(0));
    var s6 := Do(s5, Abandon(0));
    assert s6.open == map[];
    assert Outstanding(s6, user) == {} && Pending(s6, user) == {};
    WorstCanBeMade(s6, user);
  }

  /** A right guess, from its counting to the deletion of the code: `consume` still owes the counter's. */
  lemma HalfConsume(s: State, user: string, phone: string, code: string) returns (t: State)
    requires s.open == map[] && UserOk(s, user) && AttemptsKey(user) !in s.items
    requires Live(s.items, OtpKey(user), s.now) && s.items[OtpKey(user)].value == Payload(phone, code)
    ensures var s1 := Do(s, Attempt(1, user, phone, code));
            && Enabled(s1, Read(1)) && Enabled(Do(s1, Read(1)), DropCode(1))
            && t == Do(Do(s1, Read(1)), DropCode(1))
    ensures t.now == s.now && t.open == map[1 := Spent(user)] && UserOk(t, user)
    ensures CountAt(t.items, RateKey(user)) == CountAt(s.items, RateKey(user))
  {
    KeysApart(user, user);
    t := Do(Do(Do(s, Attempt(1, user, phone, code)), Read(1)), DropCode(1));
  }

  lemma SentItems(now: nat, user: string, phone: string, code: string)
    ensures var (items, sent) := SendTx(map[], user, phone, code, now);
            && sent == Sent && UserOk(State(now, items, map[]), user) && AttemptsKey(user) !in items
            && OtpKey(user) in items && items[OtpKey(user)] == CodeItem(phone, code, now)
            && CountAt(items, RateKey(user)) == Some(1)
  {
    KeysApart(user, user);
  }

  /** A code is sent, guessed right and deleted; the deletion of its counter is still to come. */
  lemma HalfConsumed(now: nat, user: string, phone: string, code: string) returns (t: State)
    ensures Reaches(now, Sending(0, user, phone, code) + [Attempt(1, user, phone, code)] + [Read(1)] + [DropCode(1)], t)
    ensures t.now == now && t.open == map[1 := Spent(user)] && UserOk(t, user)
    ensures CountAt(t.items, RateKey(user)) == Some(1)
  {
    var send := Sending(0, user, phone, code);
    SentItems(now, user, phone, code);
    SendIsARun(Idle(now), 0, user, phone, code);
    var s := After(Idle(now), send);
    t := HalfConsume(s, user, phone, code);
    var guess := Attempt(1, user, phone, code);
    Onward(now, send, s, guess);
    Onward(now, send + [guess], Do(s, guess), Read(1));
    Onward(now, send + [guess] + [Read(1)], Do(Do(s, guess), Read(1)), DropCode(1));
  }

  /** `consume` alone: its second deletion comes after the next code was sent and guessed at five times. */
  lemma LateConsumeDoublesGuesses(now: nat, user: string, phone: string, code: string)
    ensures var acts := Sending(0, user, phone, code) + [Attempt(1, user, phone, code)] + [Read(1)] + [DropCode(1)]
                        + [BumpRate(0, user, phone, code)] + [SetCode(0)] + [ResetCount(0)];
            Run(Idle(now), acts) && CanMake(After(Idle(now), acts), user, 10)
  {
    var s := HalfConsumed(now, user, phone, code);
    assert Outstanding(s, user) == {1} && Pending(s, user) == {};
    var t := SendFrom(now, Sending(0, user, phone, code) + [Attempt(1, user, phone, code)] + [Read(1)] + [DropCode(1)],
                      s, user, phone, code);
  }
}
