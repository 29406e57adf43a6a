/** The request limits: per-address buckets that fail closed, per-account counters that fail open. */
module RateLimit {
  import opened Common
  import opened Ephemeral
  import opened FixedWindow

  const WINDOW: nat := 60 * SECOND
  const GLOBAL_MAX: nat := 300
  const AUTH_MAX: nat := 10
  const FORGOT_WINDOW: nat := 3600 * SECOND
  const FORGOT_MAX: nat := 3
  const LOCKOUT_TTL: nat := 900 * SECOND
  const LOGIN_MAX_ATTEMPTS: nat := 10

  function GlobalKey(identity: string): string {
    "rate_limit:global:" + identity
  }

  function AuthKey(identity: string): string {
    "rate_limit:auth:" + identity
  }

  function ForgotKey(email: string): string {
    "forgot_rate:" + email
  }

  function LoginFailKey(email: string): string {
    "login_fail:" + email
  }

  datatype Verdict = Passed | TooMany | ServerError

  /** The answer a bump of `key` gave, as the store holds it now. */
  function Told(items: Items, key: string, fault: Fault): Option<nat> {
    if fault.Healthy? && HoldsCounter(items, key) then Some(items[key].value.n) else None
  }

  function Closed(answer: Option<nat>, max: nat): Verdict {
    if answer.None? then ServerError else if answer.value > max then TooMany else Passed
  }

  /** One store call that may fail on its way there or back. */
  method Bumped(store: EphemeralStore, key: string, ttl: nat, now: nat, fault: Fault) returns (answer: Option<nat>)
    modifies store
    ensures store.items == Served(old(store.items), Bump(key, ttl, now, fault))
    ensures answer == Told(store.items, key, fault)
  {
    if fault.Down? {
      return None;
    }
    answer := store.IncrWithTtl(key, ttl, now);
    if fault.AnswerLost? {
      return None;
    }
  }

  /**
   * The bucket's counter after one call at `now`: one more in a live counter, with its deadline, or the
   * first of a new one for `ttl`; a call that never arrives changes nothing, and no call touches another key.
   */
  ghost predicate BumpedBucket(before: Items, after: Items, bucket: string, ttl: nat, now: nat, fault: Fault) {
    && (forall key :: key != bucket || fault.Down? ==>
          (key in before <==> key in after) && (key in before ==> after[key] == before[key]))
    && (!fault.Down? ==>
          && bucket in after
          && (bucket !in before || before[bucket].expiresAt <= now ==> after[bucket] == Item(Count(1), now + ttl))
          && (bucket in before && now < before[bucket].expiresAt && before[bucket].value.Count? ==>
                after[bucket] == Item(Count(before[bucket].value.n + 1), before[bucket].expiresAt)))
  }

  method RateLimitMiddleware(store: EphemeralStore, identity: string, now: nat, fault: Fault) returns (verdict: Verdict)
    modifies store
    ensures store.items == Served(old(store.items), EventOf(Global(identity, now, fault)))
    ensures BumpedBucket(old(store.items), store.items, "rate_limit:global:" + identity, 60000, now, fault)
    ensures verdict == Closed(Told(store.items, "rate_limit:global:" + identity, fault), 300)
  {
    var count := Bumped(store, GlobalKey(identity), WINDOW, now, fault);
    if count.None? {
      return ServerError;
    }
    if count.value > GLOBAL_MAX {
      return TooMany;
    }
    return Passed;
  }

  method StrictRateLimit(store: EphemeralStore, identity: string, now: nat, fault: Fault) returns (verdict: Verdict)
    modifies store
    ensures store.items == Served(old(store.items), EventOf(Auth(identity, now, fault)))
    ensures BumpedBucket(old(store.items), store.items, "rate_limit:auth:" + identity, 60000, now, fault)
    ensures verdict == Closed(Told(store.items, "rate_limit:auth:" + identity, fault), 10)
  {
    var count := Bumped(store, AuthKey(identity), WINDOW, now, fault);
    if count.None? {
      return ServerError;
    }
    if count.value > AUTH_MAX {
      return TooMany;
    }
    return Passed;
  }

  method ForgotAllowed(store: EphemeralStore, email: string, now: nat, fault: Fault) returns (allowed: bool)
    modifies store
    ensures store.items == Served(old(store.items), EventOf(Forgot(email, now, fault)))
    ensures BumpedBucket(old(store.items), store.items, "forgot_rate:" + email, 3600000, now, fault)
    ensures allowed <==> Closed(Told(store.items, "forgot_rate:" + email, fault), 3) != TooMany
  {
    var count := Bumped(store, ForgotKey(email), FORGOT_WINDOW, now, fault);
    allowed := (if count.Some? then count.value else 0) <= FORGOT_MAX;
  }

  method LoginLockedOut(store: EphemeralStore, email: string, now: nat, fault: Fault) returns (locked: bool)
    ensures locked <==> fault.Healthy? && Locked(store.items, email, now)
    ensures locked <==>
              && fault.Healthy? && ("login_fail:" + email) in store.items
              && now < store.items["login_fail:" + email].expiresAt
              && store.items["login_fail:" + email].value.Count? && store.items["login_fail:" + email].value.n >= 10
  {
    if !fault.Healthy? {
      return false;
    }
    var value := store.Get(LoginFailKey(email), now);
    locked := value.Some? && value.value.Count? && value.value.n >= LOGIN_MAX_ATTEMPTS;
  }

  predicate Locked(items: Items, email: string, now: nat) {
    Live(items, LoginFailKey(email), now) && items[LoginFailKey(email)].value.Count?
    && items[LoginFailKey(email)].value.n >= LOGIN_MAX_ATTEMPTS
  }

  method RecordLoginFailure(store: EphemeralStore, email: string, now: nat, fault: Fault)
    modifies store
    ensures store.items == Served(old(store.items), EventOf(LoginFailed(email, now, fault)))
    ensures BumpedBucket(old(store.items), store.items, "login_fail:" + email, 900000, now, fault)
  {
    var _ := Bumped(store, LoginFailKey(email), LOCKOUT_TTL, now, fault);
  }

  method ClearLoginFailures(store: EphemeralStore, email: string, now: nat, fault: Fault)
    modifies store
    ensures store.items == Served(old(store.items), EventOf(LoginCleared(email, now, fault)))
    ensures !fault.Down? ==> forall at :: !Locked(store.items, email, at)
    ensures !fault.Down? ==> ("login_fail:" + email) !in store.items
    ensures forall key :: key in old(store.items) && (fault.Down? || key != "login_fail:" + email) ==>
              key in store.items && store.items[key] == old(store.items)[key]
  {
    if !fault.Down? {
      store.Del(LoginFailKey(email));
    }
  }

  // ----------------------------------------------------------------- traffic

  /** What the limits do to the store. */
  datatype Call =
    | Global(identity: string, at: nat, fault: Fault)
    | Auth(identity: string, at: nat, fault: Fault)
    | Forgot(email: string, at: nat, fault: Fault)
    | LoginFailed(email: string, at: nat, fault: Fault)
    | LoginCleared(email: string, at: nat, fault: Fault)

  function EventOf(c: Call): Event {
    match c
    case Global(identity, at, fault) => Bump(GlobalKey(identity), WINDOW, at, fault)
    case Auth(identity, at, fault) => Bump(AuthKey(identity), WINDOW, at, fault)
    case Forgot(email, at, fault) => Bump(ForgotKey(email), FORGOT_WINDOW, at, fault)
    case LoginFailed(email, at, fault) => Bump(LoginFailKey(email), LOCKOUT_TTL, at, fault)
    // A deletion that never arrives does what a bump that never arrives does.
    case LoginCleared(email, at, Down) => Bump(LoginFailKey(email), LOCKOUT_TTL, at, Down)
    case LoginCleared(email, _, _) => Other(LoginFailKey(email), None)
  }

  function Events(calls: seq<Call>): (events: seq<Event>)
    ensures |events| == |calls| && forall i :: 0 <= i < |calls| ==> events[i] == EventOf(calls[i])
  {
    if calls == [] then [] else Events(calls[..|calls| - 1]) + [EventOf(calls[|calls| - 1])]
  }

  ghost predicate InOrder(calls: seq<Call>) {
    forall i, j :: 0 <= i < j < |calls| ==> calls[i].at <= calls[j].at
  }

  /** No call touches another bucket's key. */
  lemma KeysApart(c: Call, name: string)
    ensures EventOf(c).key == GlobalKey(name) <==> c.Global? && c.identity == name
    ensures EventOf(c).key == AuthKey(name) <==> c.Auth? && c.identity == name
    ensures EventOf(c).key == ForgotKey(name) <==> c.Forgot? && c.email == name
    ensures EventOf(c).key == LoginFailKey(name) <==> (c.LoginFailed? || c.LoginCleared?) && c.email == name
  {
    var key := EventOf(c).key;
    assert GlobalKey(name)[0] == 'r' && GlobalKey(name)[11] == 'g' && GlobalKey(name)[18..] == name;
    assert AuthKey(name)[0] == 'r' && AuthKey(name)[11] == 'a' && AuthKey(name)[16..] == name;
    assert ForgotKey(name)[0] == 'f' && ForgotKey(name)[12..] == name;
    assert LoginFailKey(name)[0] == 'l' && LoginFailKey(name)[11..] == name;
    match c
    case Global(identity, _, _) => assert key[0] == 'r' && key[11] == 'g' && key[18..] == identity;
    case Auth(identity, _, _) => assert key[0] == 'r' && key[11] == 'a' && key[16..] == identity;
    case Forgot(email, _, _) => assert key[0] == 'f' && key[12..] == email;
    case LoginFailed(email, _, _) => assert key[0] == 'l' && key[11..] == email;
    case LoginCleared(email, _, _) => assert key[0] == 'l' && key[11..] == email;
  }

  lemma EventTime(c: Call)
    ensures EventOf(c).Bump? ==> EventOf(c).at == c.at
  {
  }

  /** Calls in order make a bucket's events in order, if all that touch its key are bumps of its ttl. */
  lemma BucketIsCounted(calls: seq<Call>, key: string, ttl: nat)
    requires InOrder(calls)
    requires forall c :: c in calls && EventOf(c).key == key ==> EventOf(c).Bump? && EventOf(c).ttl == ttl
    ensures Counted(Events(calls), key, ttl)
  {
    var events := Events(calls);
    forall i | 0 <= i < |events| && events[i].key == key ensures events[i].Bump? && events[i].ttl == ttl {
      assert calls[i] in calls;
    }
    forall i, j | 0 <= i < j < |events| && events[i].Bump? && events[j].Bump? ensures events[i].at <= events[j].at {
      EventTime(calls[i]);
      EventTime(calls[j]);
    }
  }

  lemma TrafficIsCounted(calls: seq<Call>, name: string)
    requires InOrder(calls)
    ensures Counted(Events(calls), GlobalKey(name), WINDOW)
    ensures Counted(Events(calls), AuthKey(name), WINDOW)
    ensures Counted(Events(calls), ForgotKey(name), FORGOT_WINDOW)
  {
    forall c | c in calls
      ensures EventOf(c).key == GlobalKey(name) ==> c.Global?
      ensures EventOf(c).key == AuthKey(name) ==> c.Auth?
      ensures EventOf(c).key == ForgotKey(name) ==> c.Forgot?
    {
      KeysApart(c, name);
    }
    BucketIsCounted(calls, GlobalKey(name), WINDOW);
    BucketIsCounted(calls, AuthKey(name), WINDOW);
    BucketIsCounted(calls, ForgotKey(name), FORGOT_WINDOW);
  }

  /** The middlewares' verdicts are what `Admitted` counts, and `forgot_allowed`'s what `AdmittedOpen` does. */
  lemma VerdictsAreAdmissions(items: Items, events: seq<Event>, max: nat, i: nat)
    requires i < |events| && events[i].Bump?
    ensures var told := Told(Store(items, events[..i + 1]), events[i].key, events[i].fault);
            && (Closed(told, max).Passed?
                <==> i in Admitted(items, events, events[i].key, max, events[i].at, events[i].at))
            && (Closed(told, max) != TooMany
                <==> i in AdmittedOpen(items, events, events[i].key, max, events[i].at, events[i].at))
  {
  }

  /**
   * Over any traffic and any failures, no address gets more than 600 requests into any minute, nor 20 to
   * the auth routes.
   */
  lemma AddressBound(calls: seq<Call>, identity: string, from: nat)
    requires InOrder(calls)
    ensures |Admitted(map[], Events(calls), GlobalKey(identity), GLOBAL_MAX, from, from + WINDOW)| <= 600
    ensures |Admitted(map[], Events(calls), AuthKey(identity), AUTH_MAX, from, from + WINDOW)| <= 20
  {
    TrafficIsCounted(calls, identity);
    WindowBound(map[], Events(calls), GlobalKey(identity), WINDOW, GLOBAL_MAX, from, from + WINDOW);
    WindowBound(map[], Events(calls), AuthKey(identity), WINDOW, AUTH_MAX, from, from + WINDOW);
  }

  /** An account triggers at most 6 reset mails in any hour, and one more for each unanswered store call. */
  lemma ResetMailBound(calls: seq<Call>, email: string, from: nat)
    requires InOrder(calls)
    ensures |AdmittedOpen(map[], Events(calls), ForgotKey(email), FORGOT_MAX, from, from + FORGOT_WINDOW)|
            <= 6 + |Unanswered(map[], Events(calls), ForgotKey(email), from, from + FORGOT_WINDOW)|
  {
    TrafficIsCounted(calls, email);
    OpenWindowBound(map[], Events(calls), ForgotKey(email), FORGOT_WINDOW, FORGOT_MAX, from, from + FORGOT_WINDOW);
  }

  lemma LockoutStep(items: Items, c: Call, email: string, now: nat)
    requires Locked(items, email, now) && c.at <= now && !(c.LoginCleared? && c.email == email && !c.fault.Down?)
    ensures Locked(Served(items, EventOf(c)), email, now)
    ensures Served(items, EventOf(c))[LoginFailKey(email)].expiresAt == items[LoginFailKey(email)].expiresAt
  {
    KeysApart(c, email);
  }

  /** A lockout stands until its counter expires, unless a successful login clears it. */
  lemma {:induction false} LockoutStands(items: Items, calls: seq<Call>, email: string, now: nat)
    requires Locked(items, email, now) && forall c :: c in calls ==> c.at <= now
    requires forall c :: c in calls ==> !(c.LoginCleared? && c.email == email && !c.fault.Down?)
    ensures Locked(Store(items, Events(calls)), email, now)
    ensures Store(items, Events(calls))[LoginFailKey(email)].expiresAt == items[LoginFailKey(email)].expiresAt
  {
    if calls != [] {
      var n := |calls| - 1;
      LockoutStands(items, calls[..n], email, now);
      assert calls[n] in calls;
      LockoutStep(Store(items, Events(calls[..n])), calls[n], email, now);
      assert Events(calls)[..n] == Events(calls[..n]);
    }
  }
}
