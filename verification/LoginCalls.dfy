/**
 * Sign-in attempts store call by store call: the lockout check and the failure count are separate,
 * so attempts at one account overlap in between.
 */
module LoginCalls {
  import opened Common
  import opened Ephemeral
  import opened FixedWindow
  import opened RateLimit

  type LoginId = nat

  /** `open`: attempts past the lockout check, by account; their password is compared and not yet accounted for. */
  datatype State = State(now: nat, items: Items, open: map<LoginId, string>)

  datatype Action =
    | Tick(elapsed: nat)
    | Look(x: LoginId, email: string, fault: Fault)   // the lockout check
    | Fail(x: LoginId, fault: Fault)                  // a wrong password is counted
    | Succeed(x: LoginId, fault: Fault)               // a right one clears the count
    | Leave(x: LoginId)                               // refused without counting, or given up

  predicate Enabled(s: State, a: Action) {
    match a
    case Tick(_) => true
    case Look(x, _, _) => x !in s.open
    case Fail(x, _) => x in s.open
    case Succeed(x, _) => x in s.open
    case Leave(x) => x in s.open
  }

  /** The check lets the attempt through; unanswered, it lets everything through. */
  predicate Passes(s: State, email: string, fault: Fault) {
    !(fault.Healthy? && Locked(s.items, email, s.now))
  }

  function Do(s: State, a: Action): State
    requires Enabled(s, a)
  {
    match a
    case Tick(elapsed) => s.(now := s.now + elapsed)
    case Look(x, email, fault) => if Passes(s, email, fault) then s.(open := s.open[x := email]) else s
    case Fail(x, fault) =>
      s.(items := Served(s.items, EventOf(LoginFailed(s.open[x], s.now, fault))), open := s.open - {x})
    case Succeed(x, fault) =>
      s.(items := Served(s.items, EventOf(LoginCleared(s.open[x], s.now, fault))), open := s.open - {x})
    case Leave(x) => s.(open := s.open - {x})
  }

  /** Failed attempts on the account's counter. */
  function Failures(s: State, email: string): nat {
    if Live(s.items, LoginFailKey(email), s.now) && s.items[LoginFailKey(email)].value.Count?
    then s.items[LoginFailKey(email)].value.n else 0
  }

  /** The account's key holds nothing but its counter. */
  predicate CounterOnly(s: State, email: string) {
    LoginFailKey(email) in s.items ==> s.items[LoginFailKey(email)].value.Count?
  }

  /** Attempts at the account between their check and their count. */
  function Pending(s: State, email: string): set<LoginId> {
    set x | x in s.open && s.open[x] == email
  }

  /** One more password is compared for the account. */
  predicate Tries(s: State, a: Action, email: string) {
    a.Look? && a.email == email && Passes(s, email, a.fault)
  }

  /** An attempt at the account that its counter does not hold back, or does not hear of. */
  predicate Uncounted(s: State, a: Action, email: string)
    requires Enabled(s, a)
  {
    match a
    case Tick(_) => false
    case Look(_, e, fault) => e == email && !fault.Healthy?
    case Fail(x, fault) => s.open[x] == email && fault.Down?
    case Succeed(x, _) => s.open[x] == email
    case Leave(x) => s.open[x] == email
  }

  /** How many passwords can still be compared, `k` at once, while the counter is neither cleared nor expired. */
  function Worst(s: State, email: string, k: nat): nat
    requires |Pending(s, email)| <= k
  {
    if Failures(s, email) >= LOGIN_MAX_ATTEMPTS then 0
    else LOGIN_MAX_ATTEMPTS - 1 - Failures(s, email) + k - |Pending(s, email)|
  }

  // ------------------------------------------------------------------ one step

  /** Whose attempt an action is; a tick is nobody's. */
  function AccountOf(s: State, a: Action): Option<string>
    requires Enabled(s, a)
  {
    match a
    case Tick(_) => None
    case Look(_, email, _) => Some(email)
    case Fail(x, _) => Some(s.open[x])
    case Succeed(x, _) => Some(s.open[x])
    case Leave(x) => Some(s.open[x])
  }

  lemma OthersStayAway(s: State, a: Action, email: string)
    requires Enabled(s, a) && AccountOf(s, a) != Some(email) && !a.Tick?
    ensures Failures(Do(s, a), email) == Failures(s, email) && Pending(Do(s, a), email) == Pending(s, email)
    ensures CounterOnly(s, email) ==> CounterOnly(Do(s, a), email)
  {
    match a {
      case Fail(x, fault) => KeysApart(LoginFailed(s.open[x], s.now, fault), email);
      case Succeed(x, fault) => KeysApart(LoginCleared(s.open[x], s.now, fault), email);
      case _ =>
    }
    assert forall x :: x in s.open && x != a.x ==> x in Do(s, a).open && Do(s, a).open[x] == s.open[x];
    assert forall x :: x in Do(s, a).open && x != a.x ==> x in s.open;
  }

  /** What an own step does to the count and to the attempts under way. */
  lemma OwnStep(s: State, a: Action)
    requires Enabled(s, a) && !a.Tick? && CounterOnly(s, AccountOf(s, a).value)
    ensures var email := AccountOf(s, a).value; var t := Do(s, a);
            && CounterOnly(t, email)
            && Pending(t, email) == (if a.Look? then Pending(s, email) + (if Tries(s, a, email) then {a.x} else {})
                                     else Pending(s, email) - {a.x})
            && (!a.Succeed? ==>
                  Failures(t, email) == Failures(s, email) + if a.Fail? && !a.fault.Down? then 1 else 0)
  {
  }

  lemma StepIsBounded(s: State, a: Action, email: string, k: nat)
    requires Enabled(s, a) && CounterOnly(s, email) && Failures(s, email) <= Failures(Do(s, a), email)
    requires |Pending(s, email)| <= k && |Pending(Do(s, a), email)| <= k
    ensures CounterOnly(Do(s, a), email)
    ensures Worst(Do(s, a), email, k) + (if Tries(s, a, email) then 1 else 0)
            <= Worst(s, email, k) + (if Uncounted(s, a, email) then 1 else 0)
  {
    if a.Tick? {
      assert Pending(Do(s, a), email) == Pending(s, email);
    } else if AccountOf(s, a) != Some(email) {
      OthersStayAway(s, a, email);
    } else {
      OwnStep(s, a);
    }
  }

  // -------------------------------------------------------------------- runs

  ghost predicate Run(s: State, acts: seq<Action>)
    decreases |acts|
  {
    acts == [] || (Enabled(s, acts[0]) && Run(Do(s, acts[0]), acts[1..]))
  }

  /** Along the run the account's count never falls, and no more than `k` of its attempts are under way at once. */
  ghost predicate OneLife(s: State, acts: seq<Action>, email: string, k: nat)
    requires Run(s, acts)
    decreases |acts|
  {
    && |Pending(s, email)| <= k
    && (acts != [] ==>
          && Failures(s, email) <= Failures(Do(s, acts[0]), email)
          && OneLife(Do(s, acts[0]), acts[1..], email, k))
  }

  ghost function Tried(s: State, acts: seq<Action>, email: string): nat
    requires Run(s, acts)
    decreases |acts|
  {
    if acts == [] then 0
    else (if Tries(s, acts[0], email) then 1 else 0) + Tried(Do(s, acts[0]), acts[1..], email)
  }

  ghost function Escaped(s: State, acts: seq<Action>, email: string): nat
    requires Run(s, acts)
    decreases |acts|
  {
    if acts == [] then 0
    else (if Uncounted(s, acts[0], email) then 1 else 0) + Escaped(Do(s, acts[0]), acts[1..], email)
  }

  /**
   * The lockout's bound: while an account's counter is neither cleared nor expired, and no more than
   * `k` attempts are between their check and their count at once, at most `9 - failures + k` more
   * passwords are compared than are under way already, plus one for each attempt that escapes the
   * count. One at a time that is ten.
   */
  lemma {:induction false} TriesAreBounded(s: State, acts: seq<Action>, email: string, k: nat)
    requires CounterOnly(s, email) && Run(s, acts) && OneLife(s, acts, email, k)
    ensures Tried(s, acts, email) <= Worst(s, email, k) + Escaped(s, acts, email)
    decreases |acts|
  {
    if acts != [] {
      StepIsBounded(s, acts[0], email, k);
      TriesAreBounded(Do(s, acts[0]), acts[1..], email, k);
    }
  }

  // --------------------------------------------------------- the bound is reached

  /** `acts` is such a run with `n` passwords compared and none escaping the count. */
  ghost predicate Makes(s: State, acts: seq<Action>, email: string, k: nat, n: nat) {
    Run(s, acts) && OneLife(s, acts, email, k) && Tried(s, acts, email) == n && Escaped(s, acts, email) == 0
  }

  lemma Prepend(s: State, a: Action, acts: seq<Action>, email: string, k: nat, n: nat)
    requires Enabled(s, a) && |Pending(s, email)| <= k && Failures(s, email) <= Failures(Do(s, a), email)
    requires !Uncounted(s, a, email) && Makes(Do(s, a), acts, email, k, n)
    ensures Makes(s, [a] + acts, email, k, n + if Tries(s, a, email) then 1 else 0)
  {
    assert ([a] + acts)[1..] == acts;
  }

  lemma LookNow(s: State, x: LoginId, email: string, k: nat)
    requires CounterOnly(s, email) && Failures(s, email) < LOGIN_MAX_ATTEMPTS && x !in s.open && |Pending(s, email)| < k
    ensures var a := Look(x, email, Healthy); var t := Do(s, a);
            && Tries(s, a, email) && CounterOnly(t, email) && Failures(t, email) == Failures(s, email)
            && |Pending(t, email)| == |Pending(s, email)| + 1
            && Worst(t, email, k) + 1 == Worst(s, email, k)
  {
    OwnStep(s, Look(x, email, Healthy));
    assert x !in Pending(s, email);
  }

  lemma FailNow(s: State, x: LoginId, email: string, k: nat)
    requires x in Pending(s, email) && CounterOnly(s, email) && |Pending(s, email)| <= k
    requires Failures(s, email) < LOGIN_MAX_ATTEMPTS - 1
    ensures var t := Do(s, Fail(x, Healthy));
            && CounterOnly(t, email) && Failures(t, email) == Failures(s, email) + 1
            && |Pending(t, email)| == |Pending(s, email)| - 1
            && Worst(t, email, k) == Worst(s, email, k)
  {
    OwnStep(s, Fail(x, Healthy));
  }

  /** Every overlap of at least one attempt reaches its bound, from every state. */
  lemma {:induction false} WorstIsReached(s: State, email: string, k: nat) returns (acts: seq<Action>)
    requires CounterOnly(s, email) && |Pending(s, email)| <= k && k > 0
    ensures Makes(s, acts, email, k, Worst(s, email, k))
    decreases LOGIN_MAX_ATTEMPTS - Failures(s, email), k - |Pending(s, email)|
  {
    if Worst(s, email, k) == 0 {
      return [];
    }
    if x :| x in Pending(s, email) && Failures(s, email) < LOGIN_MAX_ATTEMPTS - 1 {
      FailNow(s, x, email, k);
      var rest := WorstIsReached(Do(s, Fail(x, Healthy)), email, k);
      Prepend(s, Fail(x, Healthy), rest, email, k, Worst(s, email, k));
      acts := [Fail(x, Healthy)] + rest;
    } else {
      var x := Unused(s.open.Keys);
      assert Pending(s, email) == {} || Failures(s, email) == LOGIN_MAX_ATTEMPTS - 1;
      LookNow(s, x, email, k);
      var rest := WorstIsReached(Do(s, Look(x, email, Healthy)), email, k);
      Prepend(s, Look(x, email, Healthy), rest, email, k, Worst(s, email, k) - 1);
      acts := [Look(x, email, Healthy)] + rest;
    }
  }

  /** Ten passwords per life of the counter, exactly if attempts at the account come one at a time. */
  lemma TenIffOneAtATime(s: State, email: string, k: nat)
    requires LoginFailKey(email) !in s.items && Pending(s, email) == {} && k > 0
    ensures (forall acts :: Run(s, acts) && OneLife(s, acts, email, k) ==>
               Tried(s, acts, email) <= LOGIN_MAX_ATTEMPTS + Escaped(s, acts, email))
            <==> k == 1
  {
    if k == 1 {
      forall acts | Run(s, acts) && OneLife(s, acts, email, k)
        ensures Tried(s, acts, email) <= LOGIN_MAX_ATTEMPTS + Escaped(s, acts, email)
      {
        TriesAreBounded(s, acts, email, k);
      }
    } else {
      var acts := WorstIsReached(s, email, k);
      assert Tried(s, acts, email) == 9 + k;
    }
  }

  /** A lockout holds an attempt back until its deadline and not beyond. */
  lemma LockoutEndsAtItsDeadline(s: State, x: LoginId, email: string, wait: nat)
    requires x !in s.open && Locked(s.items, email, s.now)
    ensures Run(s, [Tick(wait)] + [Look(x, email, Healthy)])
    ensures x in Do(Do(s, Tick(wait)), Look(x, email, Healthy)).open <==>
            s.items["login_fail:" + email].expiresAt <= s.now + wait
  {
    RunOfTwo(s, Tick(wait), Look(x, email, Healthy));
  }

  /** A right password that is heard of starts the account's count afresh: the next attempt is let through. */
  lemma SuccessStartsAfresh(s: State, x: LoginId, y: LoginId)
    requires x in s.open && y !in s.open
    ensures Run(s, [Succeed(x, Healthy)] + [Look(y, s.open[x], Healthy)])
    ensures var t := Do(Do(s, Succeed(x, Healthy)), Look(y, s.open[x], Healthy));
            Failures(t, s.open[x]) == 0 && y in t.open && x !in t.open
  {
    RunOfTwo(s, Succeed(x, Healthy), Look(y, s.open[x], Healthy));
  }

  lemma RunOfTwo(s: State, a: Action, b: Action)
    requires Enabled(s, a) && Enabled(Do(s, a), b)
    ensures Run(s, [a] + [b])
  {
    assert ([a] + [b])[1..] == [b] && [b][1..] == [];
  }
}
