/** One-time codes: sending, checking and consuming, each a sequence of store calls served as one step. */
module Otp {
  import opened Common
  import opened Ephemeral
  import opened FixedWindow

  const REQUESTS_PER_HOUR: nat := 3
  const MAX_ATTEMPTS: nat := 5
  const OTP_TTL: nat := 300 * SECOND
  const RATE_LIMIT_TTL: nat := 3600 * SECOND

  function RateKey(user: string): string {
    "otp_rate:" + user
  }

  function OtpKey(user: string): string {
    "otp:" + user
  }

  function AttemptsKey(user: string): string {
    "otp_attempts:" + user
  }

  lemma KeysApart(a: string, b: string)
    ensures OtpKey(a) == OtpKey(b) <==> a == b
    ensures AttemptsKey(a) == AttemptsKey(b) <==> a == b
    ensures OtpKey(a) != AttemptsKey(b) && OtpKey(a) != RateKey(b) && AttemptsKey(a) != RateKey(b)
  {
    assert OtpKey(a)[3] == ':' && OtpKey(a)[4..] == a && OtpKey(b)[4..] == b;
    assert AttemptsKey(a)[3] == '_' && AttemptsKey(a)[4] == 'a' && AttemptsKey(a)[13..] == a
        && AttemptsKey(b)[13..] == b;
    assert AttemptsKey(b)[3] == '_' && RateKey(b)[3] == '_' && RateKey(b)[4] == 'r';
  }

  /** `StoreError`: the key holds no counter, or the payload is not one. */
  datatype Outcome = Sent | TooManyRequests | TooManyAttempts | Expired | Invalid | Accepted | StoreError

  function CountAt(items: Items, key: string): Option<nat> {
    if key in items && items[key].value.Count? then Some(items[key].value.n) else None
  }

  function SendTx(items: Items, user: string, phone: string, code: string, now: nat): (Items, Outcome) {
    var bumped := Incremented(items, RateKey(user), RATE_LIMIT_TTL, now);
    match CountAt(bumped, RateKey(user))
    case None => (bumped, StoreError)
    case Some(count) =>
      if count > REQUESTS_PER_HOUR then (bumped, TooManyRequests)
      else (bumped[OtpKey(user) := Item(Payload(phone, code), now + OTP_TTL)] - {AttemptsKey(user)}, Sent)
  }

  /** Whether a check gets as far as comparing the guess with a stored code. */
  predicate Compares(items: Items, user: string, now: nat) {
    var bumped := Incremented(items, AttemptsKey(user), OTP_TTL, now);
    var attempts := CountAt(bumped, AttemptsKey(user));
    && attempts.Some? && attempts.value <= MAX_ATTEMPTS
    && Live(bumped, OtpKey(user), now) && bumped[OtpKey(user)].value.Payload?
  }

  function CheckTx(items: Items, user: string, phone: string, code: string, now: nat): (Items, Outcome) {
    var bumped := Incremented(items, AttemptsKey(user), OTP_TTL, now);
    match CountAt(bumped, AttemptsKey(user))
    case None => (bumped, StoreError)
    case Some(attempts) =>
      if attempts > MAX_ATTEMPTS then (bumped - {OtpKey(user)}, TooManyAttempts)
      else if !Live(bumped, OtpKey(user), now) then (bumped, Expired)
      else match bumped[OtpKey(user)].value
        case Payload(storedPhone, storedCode) =>
          (bumped, if storedPhone == phone && storedCode == code then Accepted else Invalid)
        case _ => (bumped, StoreError)
  }

  function ConsumeTx(items: Items, user: string): Items {
    items - {OtpKey(user)} - {AttemptsKey(user)}
  }

  /** A live counter's count; nothing live counts as nothing. */
  function Tally(items: Items, key: string, now: nat): nat {
    if key in items && now < items[key].expiresAt && items[key].value.Count? then items[key].value.n else 0
  }

  /** Something live under the key that is no counter. */
  predicate Clogged(items: Items, key: string, now: nat) {
    key in items && now < items[key].expiresAt && !items[key].value.Count?
  }

  /** The key's counter has counted one more. */
  predicate CountedOnce(before: Items, after: Items, key: string, ttl: nat, now: nat) {
    && key in after
    && after[key] == if key in before && now < before[key].expiresAt
                     then Item(Count(Tally(before, key, now) + 1), before[key].expiresAt)
                     else Item(Count(1), now + ttl)
  }

  method SendOtp(store: EphemeralStore, user: string, phone: string, code: string, now: nat) returns (outcome: Outcome)
    modifies store
    ensures (store.items, outcome) == SendTx(old(store.items), user, phone, code, now)
    ensures outcome == if Clogged(old(store.items), RateKey(user), now) then StoreError
                       else if Tally(old(store.items), RateKey(user), now) >= 3 then TooManyRequests
                       else Sent
    ensures outcome != StoreError ==> CountedOnce(old(store.items), store.items, RateKey(user), 3600000, now)
    ensures outcome == Sent ==>
              && OtpKey(user) in store.items && store.items[OtpKey(user)] == Item(Payload(phone, code), now + 300000)
              && AttemptsKey(user) !in store.items
    ensures forall key :: key != RateKey(user)
                          && (outcome != Sent || (key != OtpKey(user) && key != AttemptsKey(user))) ==>
              && (key in store.items <==> key in old(store.items))
              && (key in store.items ==> store.items[key] == old(store.items)[key])
  {
    KeysApart(user, user);
    var count := store.IncrWithTtl(RateKey(user), RATE_LIMIT_TTL, now);
    if count.None? {
      return StoreError;
    }
    if count.value > REQUESTS_PER_HOUR {
      return TooManyRequests;
    }
    store.SetEx(OtpKey(user), Payload(phone, code), OTP_TTL, now);
    store.Del(AttemptsKey(user));
    return Sent;
  }

  method Check(store: EphemeralStore, user: string, phone: string, code: string, now: nat) returns (outcome: Outcome)
    modifies store
    ensures (store.items, outcome) == CheckTx(old(store.items), user, phone, code, now)
    ensures outcome == if Clogged(old(store.items), AttemptsKey(user), now) then StoreError
                       else if Tally(old(store.items), AttemptsKey(user), now) >= 5 then TooManyAttempts
                       else if OtpKey(user) !in old(store.items) || old(store.items)[OtpKey(user)].expiresAt <= now
                       then Expired
                       else if !old(store.items)[OtpKey(user)].value.Payload? then StoreError
                       else if old(store.items)[OtpKey(user)].value == Payload(phone, code) then Accepted
                       else Invalid
    ensures !Clogged(old(store.items), AttemptsKey(user), now) ==>
              CountedOnce(old(store.items), store.items, AttemptsKey(user), 300000, now)
    ensures outcome == TooManyAttempts ==> OtpKey(user) !in store.items
    ensures forall key :: key != AttemptsKey(user) && (outcome != TooManyAttempts || key != OtpKey(user)) ==>
              && (key in store.items <==> key in old(store.items))
              && (key in store.items ==> store.items[key] == old(store.items)[key])
  {
    KeysApart(user, user);
    var attempts := store.IncrWithTtl(AttemptsKey(user), OTP_TTL, now);
    if attempts.None? {
      return StoreError;
    }
    if attempts.value > MAX_ATTEMPTS {
      store.Del(OtpKey(user));
      return TooManyAttempts;
    }
    var stored := store.Get(OtpKey(user), now);
    if stored.None? {
      return Expired;
    }
    match stored.value {
      case Payload(storedPhone, storedCode) =>
        if storedPhone != phone {
          return Invalid;
        }
        if storedCode != code {
          return Invalid;
        }
        return Accepted;
      case _ => return StoreError;
    }
  }

  method Consume(store: EphemeralStore, user: string)
    modifies store
    ensures OtpKey(user) !in store.items && AttemptsKey(user) !in store.items
    ensures forall key :: key in old(store.items) && key != OtpKey(user) && key != AttemptsKey(user) ==>
              key in store.items && store.items[key] == old(store.items)[key]
    ensures store.items == ConsumeTx(old(store.items), user)
  {
    store.Del(OtpKey(user));
    store.Del(AttemptsKey(user));
  }

  // -------------------------------------------------------------------- runs

  datatype Op =
    | Send(user: string, phone: string, code: string, at: nat)
    | Guess(user: string, phone: string, code: string, at: nat)
    | Use(user: string, at: nat)

  function Do(items: Items, op: Op): Items {
    match op
    case Send(user, phone, code, at) => SendTx(items, user, phone, code, at).0
    case Guess(user, phone, code, at) => CheckTx(items, user, phone, code, at).0
    case Use(user, _) => ConsumeTx(items, user)
  }

  predicate Issues(items: Items, op: Op, user: string) {
    op.Send? && op.user == user && SendTx(items, op.user, op.phone, op.code, op.at).1 == Sent
  }

  /** No new code is issued to `user` along the way. */
  predicate NoneIssued(items: Items, ops: seq<Op>, user: string)
    decreases |ops|
  {
    ops == [] || (!Issues(items, ops[0], user) && NoneIssued(Do(items, ops[0]), ops[1..], user))
  }

  /** How many guesses are compared with a stored code of `user`. */
  function Comparisons(items: Items, ops: seq<Op>, user: string): nat
    decreases |ops|
  {
    if ops == [] then 0
    else
      (if ops[0].Guess? && ops[0].user == user && Compares(items, user, ops[0].at) then 1 else 0)
      + Comparisons(Do(items, ops[0]), ops[1..], user)
  }

  ghost predicate Clocked(ops: seq<Op>, from: nat) {
    && (forall i :: 0 <= i < |ops| ==> from <= ops[i].at)
    && forall i, j :: 0 <= i < j < |ops| ==> ops[i].at <= ops[j].at
  }

  /**
   * `used` comparisons have been made with the code that dies at `deadline`: the code is gone, or
   * the counter that counted them lives at least as long.
   */
  ghost predicate Guarded(items: Items, user: string, used: nat, deadline: nat, now: nat) {
    && used <= MAX_ATTEMPTS
    && (|| now >= deadline
        || OtpKey(user) !in items
        || (&& items[OtpKey(user)].expiresAt == deadline
            && ((used == 0 && AttemptsKey(user) !in items)
                || (AttemptsKey(user) in items && items[AttemptsKey(user)].value.Count?
                    && items[AttemptsKey(user)].value.n >= used && items[AttemptsKey(user)].expiresAt >= deadline))))
  }

  lemma GuardedGuess(items: Items, op: Op, used: nat, deadline: nat, now: nat)
    requires op.Guess? && Guarded(items, op.user, used, deadline, now) && now <= op.at && deadline <= now + OTP_TTL
    ensures Guarded(Do(items, op), op.user, used + if Compares(items, op.user, op.at) && op.at < deadline then 1 else 0,
                    deadline, op.at)
    ensures Compares(items, op.user, op.at) && now < deadline ==> op.at < deadline
  {
    KeysApart(op.user, op.user);
  }

  lemma GuardedOther(items: Items, op: Op, user: string, used: nat, deadline: nat, now: nat)
    requires Guarded(items, user, used, deadline, now) && now <= op.at
    requires !(op.Guess? && op.user == user) && !Issues(items, op, user)
    ensures Guarded(Do(items, op), user, used, deadline, op.at)
  {
    KeysApart(user, op.user);
    KeysApart(op.user, user);
    KeysApart(op.user, op.user);
  }

  /** The code cannot come back once its time is over, or once it has been deleted. */
  predicate Over(items: Items, user: string, deadline: nat) {
    OtpKey(user) in items ==> items[OtpKey(user)].expiresAt <= deadline
  }

  lemma OverStays(items: Items, op: Op, user: string, deadline: nat)
    requires Over(items, user, deadline) && !Issues(items, op, user)
    ensures Over(Do(items, op), user, deadline)
    ensures op.Guess? && op.user == user && Compares(items, user, op.at) ==> op.at < deadline
  {
    KeysApart(user, op.user);
    KeysApart(op.user, user);
    KeysApart(op.user, op.user);
  }

  lemma {:induction false} GuardedRun(items: Items, ops: seq<Op>, user: string, used: nat, deadline: nat, now: nat)
    requires Guarded(items, user, used, deadline, now) && Over(items, user, deadline)
    requires Clocked(ops, now) && deadline <= now + OTP_TTL && NoneIssued(items, ops, user)
    ensures used + Comparisons(items, ops, user) <= MAX_ATTEMPTS
    decreases |ops|
  {
    if ops != [] {
      var op := ops[0];
      OverStays(items, op, user, deadline);
      if op.Guess? && op.user == user {
        GuardedGuess(items, op, used, deadline, now);
        var more := if Compares(items, user, op.at) then 1 else 0;
        GuardedRun(Do(items, op), ops[1..], user, used + more, deadline, op.at);
      } else {
        GuardedOther(items, op, user, used, deadline, now);
        GuardedRun(Do(items, op), ops[1..], user, used, deadline, op.at);
      }
    }
  }

  /**
   * With requests served one at a time, a code is compared with at most five guesses, whatever
   * happens until the next is sent. Module `OtpCalls` says what becomes of this when calls interleave.
   */
  lemma GuessBound(items: Items, send: Op, ops: seq<Op>, user: string)
    requires Issues(items, send, user) && Clocked(ops, send.at) && NoneIssued(Do(items, send), ops, user)
    ensures Comparisons(Do(items, send), ops, user) <= 5
  {
    KeysApart(user, user);
    GuardedRun(Do(items, send), ops, user, 0, send.at + OTP_TTL, send.at);
  }

  function After(items: Items, ops: seq<Op>): Items
    decreases |ops|
  {
    if ops == [] then items else After(Do(items, ops[0]), ops[1..])
  }

  /** What the user's key may hold after `send`: that code, with that deadline. */
  predicate HoldsOnly(items: Items, send: Op)
    requires send.Send?
  {
    OtpKey(send.user) in items ==> items[OtpKey(send.user)] == Item(Payload(send.phone, send.code), send.at + OTP_TTL)
  }

  lemma {:induction false} CodeStays(items: Items, send: Op, ops: seq<Op>)
    requires send.Send? && HoldsOnly(items, send) && NoneIssued(items, ops, send.user)
    ensures HoldsOnly(After(items, ops), send)
    decreases |ops|
  {
    if ops != [] {
      KeysApart(send.user, ops[0].user);
      KeysApart(ops[0].user, send.user);
      KeysApart(ops[0].user, ops[0].user);
      CodeStays(Do(items, ops[0]), send, ops[1..]);
    }
  }

  /** A guess is only ever accepted for the code last sent, the phone it was sent to, and in time. */
  lemma OnlyTheSentCodeIsAccepted(items: Items, send: Op, ops: seq<Op>, phone: string, code: string, now: nat)
    requires Issues(items, send, send.user) && NoneIssued(Do(items, send), ops, send.user)
    requires CheckTx(After(Do(items, send), ops), send.user, phone, code, now).1 == Accepted
    ensures phone == send.phone && code == send.code && now < send.at + 300000
  {
    KeysApart(send.user, send.user);
    CodeStays(Do(items, send), send, ops);
  }

  /** How often `user` guesses along the way. */
  function GuessesBy(ops: seq<Op>, user: string): nat {
    if ops == [] then 0 else (if ops[0].Guess? && ops[0].user == user then 1 else 0) + GuessesBy(ops[1..], user)
  }

  /** Nobody uses the code up. */
  predicate NotUsedUp(ops: seq<Op>, user: string) {
    forall op :: op in ops ==> !(op.Use? && op.user == user)
  }

  /** The code of `send` stands, and at most `made` guesses have been counted since. */
  predicate Stands(items: Items, send: Op, made: nat)
    requires send.Send?
  {
    && OtpKey(send.user) in items
    && items[OtpKey(send.user)] == Item(Payload(send.phone, send.code), send.at + OTP_TTL)
    && (AttemptsKey(send.user) in items ==>
          items[AttemptsKey(send.user)].value.Count? && items[AttemptsKey(send.user)].value.n <= made)
  }

  lemma StandsStep(items: Items, send: Op, op: Op, made: nat)
    requires send.Send? && Stands(items, send, made) && !Issues(items, op, send.user)
    requires !(op.Use? && op.user == send.user)
    requires op.Guess? && op.user == send.user ==> made < 5
    ensures Stands(Do(items, op), send, made + if op.Guess? && op.user == send.user then 1 else 0)
  {
    KeysApart(send.user, op.user);
    KeysApart(op.user, send.user);
    KeysApart(op.user, op.user);
  }

  lemma {:induction false} StandsAlong(items: Items, send: Op, ops: seq<Op>, made: nat)
    requires send.Send? && Stands(items, send, made) && NoneIssued(items, ops, send.user)
    requires NotUsedUp(ops, send.user) && made + GuessesBy(ops, send.user) <= 5
    ensures Stands(After(items, ops), send, made + GuessesBy(ops, send.user))
    decreases |ops|
  {
    if ops != [] {
      assert ops[0] in ops && forall op :: op in ops[1..] ==> op in ops;
      StandsStep(items, send, ops[0], made);
      StandsAlong(Do(items, ops[0]), send, ops[1..], made + if ops[0].Guess? && ops[0].user == send.user then 1 else 0);
    }
  }

  /**
   * And the sent code is accepted: with the right phone, within 300 s, unless it was used, replaced or
   * guessed at five times before, whatever else anybody did.
   */
  lemma TheSentCodeIsAccepted(items: Items, send: Op, ops: seq<Op>, now: nat)
    requires Issues(items, send, send.user) && NoneIssued(Do(items, send), ops, send.user)
    requires NotUsedUp(ops, send.user) && GuessesBy(ops, send.user) < 5 && now < send.at + 300000
    ensures CheckTx(After(Do(items, send), ops), send.user, send.phone, send.code, now).1 == Accepted
  {
    KeysApart(send.user, send.user);
    StandsAlong(Do(items, send), send, ops, 0);
  }

  function Guesses(user: string, phone: string, code: string, at: nat, n: nat): seq<Op> {
    if n == 0 then [] else [Guess(user, phone, code, at)] + Guesses(user, phone, code, at, n - 1)
  }

  /** A live code and what its counter, if it is there, has counted so far. */
  predicate CountsSoFar(items: Items, user: string, at: nat, so: nat) {
    && Live(items, OtpKey(user), at) && items[OtpKey(user)].value.Payload?
    && (if so == 0 then AttemptsKey(user) !in items
        else Live(items, AttemptsKey(user), at) && items[AttemptsKey(user)].value == Count(so))
  }

  lemma {:induction false} GuessesCompare(user: string, phone: string, code: string, at: nat, items: Items, so: nat,
      n: nat)
    requires CountsSoFar(items, user, at, so) && so + n <= MAX_ATTEMPTS
    ensures Comparisons(items, Guesses(user, phone, code, at, n), user) == n
    ensures CountsSoFar(After(items, Guesses(user, phone, code, at, n)), user, at, so + n)
    decreases n
  {
    if n > 0 {
      KeysApart(user, user);
      var op := Guess(user, phone, code, at);
      assert CountsSoFar(Do(items, op), user, at, so + 1);
      GuessesCompare(user, phone, code, at, Do(items, op), so + 1, n - 1);
      assert Guesses(user, phone, code, at, n)[1..] == Guesses(user, phone, code, at, n - 1);
    }
  }

  /** Five is not too many: after every send five guesses are compared if they come one by one. */
  lemma GuessBoundIsTight(items: Items, send: Op, phone: string, code: string)
    requires Issues(items, send, send.user)
    ensures Comparisons(Do(items, send), Guesses(send.user, phone, code, send.at, 5), send.user) == 5
  {
    KeysApart(send.user, send.user);
    GuessesCompare(send.user, phone, code, send.at, Do(items, send), 0, 5);
  }

  lemma {:induction false} NoCodeNoComparison(items: Items, ops: seq<Op>, user: string)
    requires OtpKey(user) !in items && NoneIssued(items, ops, user)
    ensures Comparisons(items, ops, user) == 0
    decreases |ops|
  {
    if ops != [] {
      KeysApart(user, ops[0].user);
      KeysApart(ops[0].user, user);
      KeysApart(ops[0].user, ops[0].user);
      NoCodeNoComparison(Do(items, ops[0]), ops[1..], user);
    }
  }

  /** A code that was used, or guessed at too often, is never compared again, not even once its counter has expired. */
  lemma SpentCodesAreNotCompared(items: Items, op: Op, ops: seq<Op>)
    requires op.Use? || (op.Guess? && CheckTx(items, op.user, op.phone, op.code, op.at).1 == TooManyAttempts)
    requires NoneIssued(Do(items, op), ops, op.user)
    ensures Comparisons(Do(items, op), ops, op.user) == 0
  {
    NoCodeNoComparison(Do(items, op), ops, op.user);
  }

  // ------------------------------------------------------------- codes sent

  /** The store calls of one step, in order. */
  function Calls(items: Items, op: Op): seq<Event> {
    match op
    case Send(user, phone, code, at) =>
      [Bump(RateKey(user), RATE_LIMIT_TTL, at, Healthy)]
      + (if SendTx(items, user, phone, code, at).1 == Sent
         then [Other(OtpKey(user), Some(Item(Payload(phone, code), at + OTP_TTL)))] + [Other(AttemptsKey(user), None)]
         else [])
    case Guess(user, phone, code, at) =>
      [Bump(AttemptsKey(user), OTP_TTL, at, Healthy)]
      + (if CheckTx(items, user, phone, code, at).1 == TooManyAttempts then [Other(OtpKey(user), None)] else [])
    case Use(user, _) => [Other(OtpKey(user), None)] + [Other(AttemptsKey(user), None)]
  }

  lemma StoreOneMore(items: Items, events: seq<Event>, e: Event)
    ensures Store(items, events + [e]) == Served(Store(items, events), e)
  {
    assert (events + [e])[..|events|] == events;
  }

  lemma StoreFew(items: Items, a: Event, b: Event, c: Event)
    ensures Store(items, [a]) == Served(items, a)
    ensures Store(items, [a] + [b]) == Served(Served(items, a), b)
    ensures Store(items, [a] + ([b] + [c])) == Served(Served(Served(items, a), b), c)
  {
    assert [] + [a] == [a] && [a] + ([b] + [c]) == [a] + [b] + [c];
    StoreOneMore(items, [], a);
    StoreOneMore(items, [a], b);
    StoreOneMore(items, [a] + [b], c);
  }

  lemma SendCalls(items: Items, op: Op)
    requires op.Send?
    ensures Store(items, Calls(items, op)) == Do(items, op)
  {
    var bump := Bump(RateKey(op.user), RATE_LIMIT_TTL, op.at, Healthy);
    var put := Other(OtpKey(op.user), Some(Item(Payload(op.phone, op.code), op.at + OTP_TTL)));
    var del := Other(AttemptsKey(op.user), None);
    StoreFew(items, bump, put, del);
    assert [bump] + [] == [bump];
  }

  lemma GuessCalls(items: Items, op: Op)
    requires op.Guess?
    ensures Store(items, Calls(items, op)) == Do(items, op)
  {
    var bump := Bump(AttemptsKey(op.user), OTP_TTL, op.at, Healthy);
    var del := Other(OtpKey(op.user), None);
    StoreFew(items, bump, del, del);
    assert [bump] + [] == [bump];
  }

  /** The step is its store calls. */
  lemma CallsMakeTheStep(items: Items, op: Op)
    ensures Store(items, Calls(items, op)) == Do(items, op)
  {
    match op
    case Send(_, _, _, _) => SendCalls(items, op);
    case Guess(_, _, _, _) => GuessCalls(items, op);
    case Use(user, _) =>
      StoreFew(items, Other(OtpKey(user), None), Other(AttemptsKey(user), None), Other(AttemptsKey(user), None));
  }

  /** The store calls of a run. */
  function CallsAlong(items: Items, ops: seq<Op>): seq<Event> {
    if ops == [] then []
    else
      var before := CallsAlong(items, ops[..|ops| - 1]);
      before + Calls(Store(items, before), ops[|ops| - 1])
  }

  /** Codes sent to `user` in a stretch of time. */
  function SentBetween(items: Items, ops: seq<Op>, user: string, from: nat, to: nat): nat {
    if ops == [] then 0
    else
      var last := ops[|ops| - 1];
      SentBetween(items, ops[..|ops| - 1], user, from, to)
      + if Issues(Store(items, CallsAlong(items, ops[..|ops| - 1])), last, user) && from <= last.at <= to then 1 else 0
  }

  /** A code is sent only when its bump was told at most three. */
  lemma {:induction false} SentAreAdmitted(items: Items, ops: seq<Op>, user: string, from: nat, to: nat)
    ensures SentBetween(items, ops, user, from, to)
            <= |Admitted(items, CallsAlong(items, ops), RateKey(user), REQUESTS_PER_HOUR, from, to)|
  {
    if ops != [] {
      var init, last := ops[..|ops| - 1], ops[|ops| - 1];
      SentAreAdmitted(items, init, user, from, to);
      OneMoreSent(items, CallsAlong(items, init), last, user, from, to);
    }
  }

  lemma OneMoreSent(items: Items, before: seq<Event>, last: Op, user: string, from: nat, to: nat)
    ensures |Admitted(items, before, RateKey(user), REQUESTS_PER_HOUR, from, to)|
            + (if Issues(Store(items, before), last, user) && from <= last.at <= to then 1 else 0)
            <= |Admitted(items, before + Calls(Store(items, before), last), RateKey(user), REQUESTS_PER_HOUR, from, to)|
  {
    var calls := Calls(Store(items, before), last);
    var some := Admitted(items, before, RateKey(user), REQUESTS_PER_HOUR, from, to);
    var all := Admitted(items, before + calls, RateKey(user), REQUESTS_PER_HOUR, from, to);
    AdmittedGrows(items, before, calls, user, from, to);
    if Issues(Store(items, before), last, user) && from <= last.at <= to {
      LastIsAdmitted(items, before, last, from, to);
      assert |before| !in some;
      CardinalityOfSubset(some + {|before|}, all);
    } else {
      CardinalityOfSubset(some, all);
    }
  }

  lemma AdmittedGrows(items: Items, before: seq<Event>, more: seq<Event>, user: string, from: nat, to: nat)
    ensures Admitted(items, before, RateKey(user), REQUESTS_PER_HOUR, from, to)
            <= Admitted(items, before + more, RateKey(user), REQUESTS_PER_HOUR, from, to)
  {
    forall i | i in Admitted(items, before, RateKey(user), REQUESTS_PER_HOUR, from, to)
      ensures i in Admitted(items, before + more, RateKey(user), REQUESTS_PER_HOUR, from, to)
    {
      assert (before + more)[..i + 1] == before[..i + 1];
    }
  }

  lemma LastIsAdmitted(items: Items, before: seq<Event>, op: Op, from: nat, to: nat)
    requires Issues(Store(items, before), op, op.user) && from <= op.at <= to
    ensures |before| in Admitted(items, before + Calls(Store(items, before), op), RateKey(op.user),
                                 REQUESTS_PER_HOUR, from, to)
  {
    var bump := Bump(RateKey(op.user), RATE_LIMIT_TTL, op.at, Healthy);
    var events := before + Calls(Store(items, before), op);
    assert events[..|before| + 1] == before + [bump];
    StoreOneMore(items, before, bump);
  }

  /** Bumps of `key` with `ttl`, none after `until`, and nothing else done to it. */
  ghost predicate BumpsUntil(events: seq<Event>, key: string, ttl: nat, until: nat) {
    && FixedWindow.Counted(events, key, ttl)
    && forall i :: 0 <= i < |events| && events[i].key == key ==> events[i].Bump? && events[i].at <= until
  }

  lemma BumpsAppend(before: seq<Event>, more: seq<Event>, key: string, ttl: nat, until: nat, at: nat)
    requires BumpsUntil(before, key, ttl, until) && until <= at && more != []
    requires forall i :: 0 < i < |more| ==> more[i].key != key
    requires more[0].key == key ==> more[0].Bump? && more[0].ttl == ttl && more[0].at == at
    ensures BumpsUntil(before + more, key, ttl, at)
  {
  }

  /** Nothing but sends, in the order of their times, touches a user's request count. */
  lemma {:induction false} SendsAreCounted(items: Items, ops: seq<Op>, user: string)
    requires Clocked(ops, 0)
    ensures BumpsUntil(CallsAlong(items, ops), RateKey(user), RATE_LIMIT_TTL,
                       if ops == [] then 0 else ops[|ops| - 1].at)
  {
    if ops != [] {
      var init, last := ops[..|ops| - 1], ops[|ops| - 1];
      SendsAreCounted(items, init, user);
      var before := CallsAlong(items, init);
      CallsOnRateKey(Store(items, before), last, user);
      BumpsAppend(before, Calls(Store(items, before), last), RateKey(user), RATE_LIMIT_TTL,
                  if init == [] then 0 else init[|init| - 1].at, last.at);
    }
  }

  lemma CallsOnRateKey(items: Items, op: Op, user: string)
    ensures forall i :: 0 < i < |Calls(items, op)| ==> Calls(items, op)[i].key != RateKey(user)
    ensures Calls(items, op)[0].key == RateKey(user) ==>
              Calls(items, op)[0].Bump? && Calls(items, op)[0].ttl == RATE_LIMIT_TTL && Calls(items, op)[0].at == op.at
  {
    KeysApart(op.user, user);
  }

  /** No user is sent more than six codes in any closed hour, nor more than five in a half-open one. */
  lemma SendBound(ops: seq<Op>, user: string, from: nat)
    requires Clocked(ops, 0)
    ensures SentBetween(map[], ops, user, from, from + RATE_LIMIT_TTL) <= 6
    ensures SentBetween(map[], ops, user, from, from + RATE_LIMIT_TTL - 1) <= 5
  {
    SendsAreCounted(map[], ops, user);
    SentAreAdmitted(map[], ops, user, from, from + RATE_LIMIT_TTL);
    SentAreAdmitted(map[], ops, user, from, from + RATE_LIMIT_TTL - 1);
    var events := CallsAlong(map[], ops);
    WindowBound(map[], events, RateKey(user), RATE_LIMIT_TTL, REQUESTS_PER_HOUR, from, from + RATE_LIMIT_TTL);
    WindowBound(map[], events, RateKey(user), RATE_LIMIT_TTL, REQUESTS_PER_HOUR, from, from + RATE_LIMIT_TTL - 1);
  }
}
