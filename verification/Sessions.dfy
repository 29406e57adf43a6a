/**
 * The refresh-token lifecycle: issue, rotate, log out, end all, purge. Every function is one
 * transaction; a token stands for its own SHA-256 hash, which is injective.
 */
module Sessions {
  import opened Common

  /** A signed refresh token: its unique id, its subject and its `exp` claim in whole seconds. */
  datatype Token = Token(jti: nat, sub: Uuid, exp: nat)

  datatype Row = Row(userId: Uuid, expiresAt: nat, revoked: bool)

  type Rows = map<Token, Row>

  /** `users.is_active`, `refresh_tokens`, and how long the configuration lets a refresh token live. */
  datatype Db = Db(lifetime: nat, active: map<Uuid, bool>, rows: Rows)

  datatype Response = Unauthorized | Issued(token: Token) | Done

  const LEEWAY: nat := 5

  /** The token `encode_refresh_token` signs at `at`: the expiry loses its fraction of a second. */
  function Signed(jti: nat, user: Uuid, at: nat, lifetime: nat): Token {
    Token(jti, user, (at + lifetime) / SECOND)
  }

  /** The validator's reading of `exp`, in whole seconds and with leeway. */
  predicate Unexpired(token: Token, now: nat) {
    token.exp + LEEWAY >= now / SECOND
  }

  // ------------------------------------------------------------- statements

  function Saved(rows: Rows, token: Token, user: Uuid, expiresAt: nat): Rows {
    rows[token := Row(user, expiresAt, false)]
  }

  function Revoked(rows: Rows, token: Token): Rows {
    if token in rows then rows[token := rows[token].(revoked := true)] else rows
  }

  function WithoutUser(rows: Rows, user: Uuid): Rows {
    map t | t in rows && rows[t].userId != user :: rows[t]
  }

  function Purged(rows: Rows, now: nat): Rows {
    map t | t in rows && !(rows[t].expiresAt < now) :: rows[t]
  }

  // ----------------------------------------------------------- transactions

  function StartTx(db: Db, user: Uuid, token: Token, now: nat): (Db, Response)
    requires user in db.active
  {
    if !db.active[user] then (db, Unauthorized)
    else (db.(rows := Saved(db.rows, token, user, now + db.lifetime)), Issued(token))
  }

  /** `valid` says whether the presented token's signature and claims verify. */
  function RotateTx(db: Db, token: Token, valid: bool, next: Token, now: nat): (Db, Response) {
    if !valid || token.sub !in db.active || token !in db.rows || db.rows[token].userId != token.sub then
      (db, Unauthorized)
    else if db.rows[token].revoked then
      (db.(rows := WithoutUser(db.rows, token.sub)), Unauthorized)
    else if db.rows[token].expiresAt < now then
      (db, Unauthorized)
    else if !db.active[token.sub] then
      (db.(rows := WithoutUser(Revoked(db.rows, token), token.sub)), Unauthorized)
    else
      StartTx(db.(rows := Revoked(db.rows, token)), token.sub, next, now)
  }

  function EndTx(db: Db, token: Token, valid: bool): (Db, Response) {
    if !valid then (db, Done) else (db.(rows := Revoked(db.rows, token)), Done)
  }

  function DeactivateTx(db: Db, user: Uuid): Db {
    db.(active := if user in db.active then db.active[user := false] else db.active, rows := WithoutUser(db.rows, user))
  }

  function ReactivateTx(db: Db, user: Uuid): Db {
    db.(active := if user in db.active then db.active[user := true] else db.active)
  }

  /** The store as the functions of `auth::session` change it, statement by statement. */
  class SessionStore {
    const lifetime: nat
    var active: map<Uuid, bool>
    var rows: Rows

    constructor (lifetime: nat)
      ensures Contents() == Db(lifetime, map[], map[])
    {
      this.lifetime, active, rows := lifetime, map[], map[];
    }

    ghost function Contents(): Db
      reads this
    {
      Db(lifetime, active, rows)
    }

    method Start(user: Uuid, token: Token, now: nat) returns (response: Response)
      requires user in active
      modifies `rows
      ensures response == if active[user] then Issued(token) else Unauthorized
      ensures rows.Keys == old(rows).Keys + if active[user] then {token} else {}
      ensures active[user] ==> rows[token] == Row(user, now + lifetime, false)
      ensures forall t :: t in old(rows) && t != token ==> rows[t] == old(rows)[t]
      ensures (Contents(), response) == StartTx(old(Contents()), user, token, now)
    {
      if !active[user] {
        return Unauthorized;
      }
      rows := Saved(rows, token, user, now + lifetime);
      return Issued(token);
    }

    method Rotate(token: Token, valid: bool, next: Token, now: nat) returns (response: Response)
      modifies `rows
      ensures (Contents(), response) == RotateTx(old(Contents()), token, valid, next, now)
    {
      if !valid || token.sub !in active || token !in rows {
        return Unauthorized;
      }
      var stored := rows[token];
      if stored.userId != token.sub {
        return Unauthorized;
      }
      if stored.revoked {
        EndAll(stored.userId);
        assert rows == WithoutUser(old(rows), token.sub);
        return Unauthorized;
      }
      if stored.expiresAt < now {
        return Unauthorized;
      }
      rows := Revoked(rows, token);
      if !active[token.sub] {
        EndAll(token.sub);
        assert rows == WithoutUser(Revoked(old(rows), token), token.sub);
        return Unauthorized;
      }
      response := Start(token.sub, next, now);
    }

    method End(token: Token, valid: bool) returns (response: Response)
      modifies `rows
      ensures response == Done && rows.Keys == old(rows).Keys
      ensures valid && token in rows ==> rows[token].revoked
      ensures forall t :: t in rows && !(valid && t == token) ==> rows[t] == old(rows)[t]
      ensures (Contents(), response) == EndTx(old(Contents()), token, valid)
    {
      if valid {
        rows := Revoked(rows, token);
      }
      return Done;
    }

    method EndAll(user: Uuid)
      modifies `rows
      ensures forall t :: t in rows ==> t in old(rows) && rows[t] == old(rows)[t] && rows[t].userId != user
      ensures forall t :: t in old(rows) && old(rows)[t].userId != user ==> t in rows
    {
      rows := WithoutUser(rows, user);
    }

    method PurgeExpired(now: nat) returns (count: nat)
      modifies `rows
      ensures forall t :: t in rows <==> t in old(rows) && now <= old(rows)[t].expiresAt
      ensures forall t :: t in rows ==> rows[t] == old(rows)[t]
      ensures rows == Purged(old(rows), now)
      ensures count == |old(rows)| - |rows|
    {
      var kept := Purged(rows, now);
      CardinalityOfSubset(kept.Keys, rows.Keys);
      count := |rows.Keys| - |kept.Keys|;
      rows := kept;
    }

    method Deactivate(user: Uuid)
      modifies this
      ensures active.Keys == old(active).Keys && (user in active ==> !active[user])
      ensures forall u :: u in active && u != user ==> active[u] == old(active)[u]
      ensures forall t :: t in rows ==> t in old(rows) && rows[t] == old(rows)[t] && rows[t].userId != user
      ensures forall t :: t in old(rows) && old(rows)[t].userId != user ==> t in rows
      ensures Contents() == DeactivateTx(old(Contents()), user)
    {
      if user in active {
        active := active[user := false];
      }
      EndAll(user);
      assert rows == WithoutUser(old(rows), user);
    }
  }

  // ------------------------------------------------------------ the machine

  datatype State = State(
    now: nat,
    db: Db,
    issued: set<Token>,       // every token ever handed out
    exchanged: set<Token>,    // successfully rotated away
    loggedOut: set<Token>,    // presented to `end` while stored
    wiped: set<Token>,        // removed by an `end_all`
    starts: map<Uuid, nat>)   // non-rotation starts since the user's last `end_all`

  datatype Action =
    | Tick(dt: nat)
    | CreateUser(user: Uuid)
    | Start(user: Uuid, jti: nat, signedAt: nat)
    | Rotate(token: Token, jti: nat, signedAt: nat)
    | End(token: Token)
    | ResetPassword(user: Uuid)
    | Deactivate(user: Uuid)
    | Reactivate(user: Uuid)
    | Purge

  ghost predicate FreshJti(s: State, jti: nat) {
    forall t :: t in s.issued ==> t.jti != jti
  }

  ghost predicate Enabled(s: State, a: Action) {
    match a
    case CreateUser(user) => user !in s.db.active
    case Start(user, jti, signedAt) => user in s.db.active && FreshJti(s, jti) && signedAt <= s.now
    case Rotate(_, jti, signedAt) => FreshJti(s, jti) && signedAt <= s.now
    case _ => true
  }

  /** Only tokens this service signed pass the validator, until their `exp` plus leeway. */
  predicate Valid(s: State, token: Token) {
    token in s.issued && Unexpired(token, s.now)
  }

  function StartsOf(s: State, user: Uuid): nat {
    if user in s.starts then s.starts[user] else 0
  }

  function UserTokens(rows: Rows, user: Uuid): set<Token> {
    set t | t in rows && rows[t].userId == user
  }

  /** All of the user's rows go. */
  function Wiped(s: State, db: Db, user: Uuid): State {
    s.(db := db, wiped := s.wiped + UserTokens(s.db.rows, user), starts := s.starts[user := 0])
  }

  function Respond(s: State, a: Action): Response
    requires Enabled(s, a)
  {
    match a
    case Start(user, jti, signedAt) => StartTx(s.db, user, Signed(jti, user, signedAt, s.db.lifetime), s.now).1
    case Rotate(token, jti, signedAt) =>
      RotateTx(s.db, token, Valid(s, token), Signed(jti, token.sub, signedAt, s.db.lifetime), s.now).1
    case End(token) => EndTx(s.db, token, Valid(s, token)).1
    case _ => Done
  }

  /** Presenting `token` to `rotate` wipes its user's family. */
  predicate WipesFamily(s: State, token: Token) {
    && Valid(s, token) && token.sub in s.db.active && token in s.db.rows && s.db.rows[token].userId == token.sub
    && (s.db.rows[token].revoked || (s.now <= s.db.rows[token].expiresAt && !s.db.active[token.sub]))
  }

  function Do(s: State, a: Action): State
    requires Enabled(s, a)
  {
    match a
    case Tick(dt) => s.(now := s.now + dt)
    case CreateUser(user) => s.(db := s.db.(active := s.db.active[user := true]))
    case Start(user, jti, signedAt) =>
      var (db, response) := StartTx(s.db, user, Signed(jti, user, signedAt, s.db.lifetime), s.now);
      if response.Issued? then
        s.(db := db, issued := s.issued + {response.token}, starts := s.starts[user := StartsOf(s, user) + 1])
      else s.(db := db)
    case Rotate(token, jti, signedAt) =>
      var next := Signed(jti, token.sub, signedAt, s.db.lifetime);
      var (db, response) := RotateTx(s.db, token, Valid(s, token), next, s.now);
      if response.Issued? then
        s.(db := db, issued := s.issued + {response.token}, exchanged := s.exchanged + {token})
      else if WipesFamily(s, token) then Wiped(s, db, token.sub)
      else s.(db := db)
    case End(token) =>
      s.(db := EndTx(s.db, token, Valid(s, token)).0,
         loggedOut := if Valid(s, token) && token in s.db.rows then s.loggedOut + {token} else s.loggedOut)
    case ResetPassword(user) => Wiped(s, s.db.(rows := WithoutUser(s.db.rows, user)), user)
    case Deactivate(user) => Wiped(s, DeactivateTx(s.db, user), user)
    case Reactivate(user) => s.(db := ReactivateTx(s.db, user))
    case Purge => s.(db := s.db.(rows := Purged(s.db.rows, s.now)))
  }

  ghost predicate Init(s: State) {
    s.db == Db(s.db.lifetime, map[], map[]) && s.issued == {} && s.exchanged == {} && s.loggedOut == {} && s.wiped == {}
    && s.starts == map[]
  }

  // -------------------------------------------------------------- invariant

  /** A stored row belongs to the token's subject and outlives the token's own expiry. */
  ghost predicate RowOk(s: State, t: Token)
    requires t in s.db.rows
  {
    && t in s.issued
    && s.db.rows[t].userId == t.sub
    && t.sub in s.db.active
    && t.exp * SECOND <= s.db.rows[t].expiresAt
  }

  function Live(rows: Rows, user: Uuid): set<Token> {
    set t | t in rows && rows[t].userId == user && !rows[t].revoked
  }

  ghost predicate Safe(s: State) {
    && (forall t :: t in s.db.rows ==> RowOk(s, t))
    // Used tokens that are still stored are revoked; wiped tokens are gone for good.
    && (forall t :: t in s.db.rows && (t in s.exchanged || t in s.loggedOut) ==> s.db.rows[t].revoked)
    && s.wiped !! s.db.rows.Keys
    && s.wiped <= s.issued && s.exchanged <= s.issued && s.loggedOut <= s.issued
    // Every token ever issued is stored, wiped, or past its expiry.
    && (forall t :: t in s.issued ==> t in s.db.rows || t in s.wiped || t.exp * SECOND < s.now)
  }

  /** A user's unrevoked rows never outnumber the sessions started since the last `end_all`. */
  ghost predicate Bounded(s: State, user: Uuid) {
    |Live(s.db.rows, user)| <= StartsOf(s, user)
  }

  lemma SignedExpiry(jti: nat, user: Uuid, at: nat, lifetime: nat, now: nat)
    requires at <= now
    ensures Signed(jti, user, at, lifetime).exp * SECOND <= now + lifetime
  {
  }

  lemma StartKeepsSafe(s: State, user: Uuid, jti: nat, signedAt: nat)
    requires Safe(s) && Enabled(s, Start(user, jti, signedAt))
    ensures Safe(Do(s, Start(user, jti, signedAt)))
  {
    SignedExpiry(jti, user, signedAt, s.db.lifetime, s.now);
  }

  lemma RotateKeepsSafe(s: State, token: Token, jti: nat, signedAt: nat)
    requires Safe(s) && Enabled(s, Rotate(token, jti, signedAt))
    ensures Safe(Do(s, Rotate(token, jti, signedAt)))
  {
    SignedExpiry(jti, token.sub, signedAt, s.db.lifetime, s.now);
    RotateOutcome(s, token, jti, signedAt);
  }

  lemma EndKeepsSafe(s: State, token: Token)
    requires Safe(s) && Enabled(s, End(token))
    ensures Safe(Do(s, End(token)))
  {
  }

  lemma PurgeKeepsSafe(s: State)
    requires Safe(s)
    ensures Safe(Do(s, Purge))
  {
    assert forall t :: t in s.db.rows ==> RowOk(s, t);
  }

  lemma SafeStep(s: State, a: Action)
    requires Safe(s) && Enabled(s, a)
    ensures Safe(Do(s, a))
  {
    match a {
      case Start(user, jti, signedAt) => StartKeepsSafe(s, user, jti, signedAt);
      case Rotate(token, jti, signedAt) => RotateKeepsSafe(s, token, jti, signedAt);
      case End(token) => EndKeepsSafe(s, token);
      case Purge => PurgeKeepsSafe(s);
      case _ =>
    }
  }

  /** The three ways a rotation can go, as far as the stored rows are concerned. */
  lemma RotateOutcome(s: State, token: Token, jti: nat, signedAt: nat)
    requires Enabled(s, Rotate(token, jti, signedAt))
    ensures var a := Rotate(token, jti, signedAt);
            var t := Do(s, a);
            && t.now == s.now && t.db.active == s.db.active && t.db.lifetime == s.db.lifetime
            && (Respond(s, a).Issued? <==>
                && Valid(s, token) && token in s.db.rows && !s.db.rows[token].revoked
                && s.db.rows[token].userId == token.sub && token.sub in s.db.active && s.db.active[token.sub]
                && s.now <= s.db.rows[token].expiresAt)
            && if Respond(s, a).Issued? then
                 && Respond(s, a).token == Signed(jti, token.sub, signedAt, s.db.lifetime)
                 && t.db.rows == Saved(Revoked(s.db.rows, token), Respond(s, a).token, token.sub, s.now + s.db.lifetime)
                 && t.starts == s.starts
                 && t.issued == s.issued + {Respond(s, a).token}
               else
                 && Respond(s, a).Unauthorized?
                 && t.issued == s.issued
                 && if WipesFamily(s, token) then
                      t.db.rows == WithoutUser(s.db.rows, token.sub) && t.starts == s.starts[token.sub := 0]
                    else t.db.rows == s.db.rows && t.starts == s.starts
  {
    if token in s.db.rows && s.db.rows[token].userId == token.sub {
      assert WithoutUser(Revoked(s.db.rows, token), token.sub) == WithoutUser(s.db.rows, token.sub);
    }
  }

  lemma LiveAfterSave(rows: Rows, token: Token, user: Uuid, expiresAt: nat, other: Uuid)
    requires token !in rows
    ensures Live(Saved(rows, token, user, expiresAt), other)
            == if user == other then Live(rows, other) + {token} else Live(rows, other)
    ensures |Live(Saved(rows, token, user, expiresAt), other)| == |Live(rows, other)| + if user == other then 1 else 0
  {
    assert Live(Saved(rows, token, user, expiresAt), other)
           == if user == other then Live(rows, other) + {token} else Live(rows, other);
  }

  lemma LiveAfterRevoke(rows: Rows, token: Token, other: Uuid)
    ensures Live(Revoked(rows, token), other) == Live(rows, other) - {token}
  {
  }

  lemma SwapKeepsLiveCount(rows: Rows, token: Token, next: Token, expiresAt: nat, other: Uuid)
    requires token in rows && rows[token].userId == token.sub && !rows[token].revoked && next !in rows
    ensures |Live(Saved(Revoked(rows, token), next, token.sub, expiresAt), other)| == |Live(rows, other)|
  {
    LiveAfterRevoke(rows, token, other);
    LiveAfterSave(Revoked(rows, token), next, token.sub, expiresAt, other);
    assert token in Live(rows, other) <==> token.sub == other;
  }

  lemma BoundedByStart(s: State, user: Uuid, jti: nat, signedAt: nat, other: Uuid)
    requires Safe(s) && Enabled(s, Start(user, jti, signedAt)) && Bounded(s, other)
    ensures Bounded(Do(s, Start(user, jti, signedAt)), other)
  {
    StartOutcome(s, user, jti, signedAt);
    if s.db.active[user] {
      LiveAfterSave(s.db.rows, Signed(jti, user, signedAt, s.db.lifetime), user, s.now + s.db.lifetime, other);
    }
  }

  lemma StartOutcome(s: State, user: Uuid, jti: nat, signedAt: nat)
    requires Safe(s) && Enabled(s, Start(user, jti, signedAt))
    ensures var t := Do(s, Start(user, jti, signedAt));
            var next := Signed(jti, user, signedAt, s.db.lifetime);
            && next !in s.db.rows
            && t.db.rows == (if s.db.active[user] then Saved(s.db.rows, next, user, s.now + s.db.lifetime)
                else s.db.rows)
            && t.starts == if s.db.active[user] then s.starts[user := StartsOf(s, user) + 1] else s.starts
  {
    var next := Signed(jti, user, signedAt, s.db.lifetime);
    assert next in s.db.rows ==> RowOk(s, next);
  }

  /** A rotation that succeeds retires one live row and adds one. */
  lemma BoundedByRotate(s: State, token: Token, jti: nat, signedAt: nat, other: Uuid)
    requires Safe(s) && Enabled(s, Rotate(token, jti, signedAt)) && Bounded(s, other)
    ensures Bounded(Do(s, Rotate(token, jti, signedAt)), other)
  {
    var a := Rotate(token, jti, signedAt);
    RotateOutcome(s, token, jti, signedAt);
    if Respond(s, a).Issued? {
      var next := Respond(s, a).token;
      assert next !in s.db.rows by {
        assert next in s.db.rows ==> RowOk(s, next);
      }
      SwapKeepsLiveCount(s.db.rows, token, next, s.now + s.db.lifetime, other);
    } else if WipesFamily(s, token) {
      assert Live(WithoutUser(s.db.rows, token.sub), other)
             == if other == token.sub then {} else Live(s.db.rows, other);
    }
  }

  lemma BoundedStep(s: State, a: Action, user: Uuid)
    requires Safe(s) && Enabled(s, a) && Bounded(s, user)
    ensures Bounded(Do(s, a), user)
  {
    match a {
      case Start(u, jti, signedAt) => BoundedByStart(s, u, jti, signedAt, user);
      case Rotate(token, jti, signedAt) => BoundedByRotate(s, token, jti, signedAt, user);
      case _ =>
        var before, after := Live(s.db.rows, user), Live(Do(s, a).db.rows, user);
        CardinalityOfSubset(after, before);
        assert StartsOf(Do(s, a), user) == StartsOf(s, user) || after == {};
    }
  }

  // --------------------------------------------------------------------- runs

  ghost predicate Run(s: State, acts: seq<Action>)
    decreases |acts|
  {
    acts == [] || (Enabled(s, acts[0]) && Run(Do(s, acts[0]), acts[1..]))
  }

  ghost function After(s: State, acts: seq<Action>): State
    requires Run(s, acts)
    decreases |acts|
  {
    if acts == [] then s else After(Do(s, acts[0]), acts[1..])
  }

  lemma {:induction false} RunIsSafe(s: State, acts: seq<Action>)
    requires Safe(s) && Run(s, acts)
    ensures Safe(After(s, acts))
    decreases |acts|
  {
    if acts != [] {
      SafeStep(s, acts[0]);
      RunIsSafe(Do(s, acts[0]), acts[1..]);
    }
  }

  /** How many times `token` is exchanged for a new one. */
  ghost function Exchanges(s: State, acts: seq<Action>, token: Token): nat
    requires Run(s, acts)
    decreases |acts|
  {
    if acts == [] then 0
    else (if acts[0].Rotate? && acts[0].token == token && Respond(s, acts[0]).Issued? then 1 else 0)
         + Exchanges(Do(s, acts[0]), acts[1..], token)
  }

  /** Rotation is single use: over any run each refresh token is exchanged at most once. */
  lemma {:induction false} RotationIsSingleUse(s: State, acts: seq<Action>, token: Token)
    requires Safe(s) && Run(s, acts)
    ensures Exchanges(s, acts, token) <= if token in s.exchanged then 0 else 1
    decreases |acts|
  {
    if acts != [] {
      SafeStep(s, acts[0]);
      RotationIsSingleUse(Do(s, acts[0]), acts[1..], token);
    }
  }

  /**
   * In every reachable state an exchanged token that is still stored is revoked, and a user has
   * at most as many unrevoked rows as sessions were started since the last `end_all`.
   */
  lemma {:induction false} LiveRowsAreBounded(s: State, acts: seq<Action>, user: Uuid, token: Token)
    requires Safe(s) && Bounded(s, user) && Run(s, acts)
    ensures var t := After(s, acts);
            && Bounded(t, user)
            && (token in t.exchanged && token in t.db.rows ==> t.db.rows[token].revoked)
    decreases |acts|
  {
    if acts != [] {
      SafeStep(s, acts[0]);
      BoundedStep(s, acts[0], user);
      LiveRowsAreBounded(Do(s, acts[0]), acts[1..], user, token);
    }
  }

  // ---------------------------------------------------------- reuse detection

  /**
   * Presenting a rotated-out or logged-out token before its expiry is refused and deletes all the
   * user's rows, and nobody else's -- unless an earlier `end_all` already removed it.
   */
  lemma ReuseWipesTheFamily(s0: State, acts: seq<Action>, token: Token, jti: nat, signedAt: nat)
    requires Init(s0) && Run(s0, acts)
    requires var s := After(s0, acts);
             && Enabled(s, Rotate(token, jti, signedAt))
             && (token in s.exchanged || token in s.loggedOut) && token !in s.wiped
             && s.now <= token.exp * SECOND
    ensures var s := After(s0, acts);
            var t := Do(s, Rotate(token, jti, signedAt));
            && Respond(s, Rotate(token, jti, signedAt)).Unauthorized?
            && UserTokens(t.db.rows, token.sub) == {}
            && (forall r :: r in s.db.rows && s.db.rows[r].userId != token.sub ==>
                  r in t.db.rows && t.db.rows[r] == s.db.rows[r])
            && token in t.wiped
  {
    RunIsSafe(s0, acts);
    var s := After(s0, acts);
    assert token in s.db.rows && RowOk(s, token);
  }

  /** A token removed by an `end_all` is plainly refused ever after, and touches no session, new or old. */
  lemma {:induction false} WipedTokensAreInert(s: State, acts: seq<Action>, token: Token, jti: nat, signedAt: nat)
    requires Safe(s) && Run(s, acts) && token in s.wiped
    requires Enabled(After(s, acts), Rotate(token, jti, signedAt))
    ensures var t := After(s, acts);
            && Respond(t, Rotate(token, jti, signedAt)).Unauthorized?
            && Do(t, Rotate(token, jti, signedAt)).db == t.db
            && Do(t, End(token)).db == t.db
    decreases |acts|
  {
    if acts != [] {
      SafeStep(s, acts[0]);
      WipedTokensAreInert(Do(s, acts[0]), acts[1..], token, jti, signedAt);
    }
  }

  /** A deactivated account cannot exchange any token, and trying ends its sessions. */
  lemma InactiveCannotRotate(s: State, token: Token, jti: nat, signedAt: nat)
    requires Safe(s) && Enabled(s, Rotate(token, jti, signedAt))
    requires token.sub in s.db.active && !s.db.active[token.sub]
    ensures Respond(s, Rotate(token, jti, signedAt)).Unauthorized?
    ensures token in s.db.rows && Valid(s, token) && s.now <= s.db.rows[token].expiresAt ==>
              UserTokens(Do(s, Rotate(token, jti, signedAt)).db.rows, token.sub) == {}
  {
    if token in s.db.rows {
      assert RowOk(s, token);
    }
  }

  // ---------------------------------------------------- how long a token lasts

  /** `token` was handed out for a token signed at `signedAt`. */
  ghost predicate HandsOut(s: State, a: Action, token: Token, signedAt: nat) {
    && Enabled(s, a) && (a.Start? || a.Rotate?) && a.signedAt == signedAt
    && Respond(s, a) == Issued(token)
  }

  /**
   * How long the validator takes a token, to the second: at least for the configured lifetime and the
   * leeway of five seconds from its signing, and never a whole second more.
   */
  lemma TokenWindow(s: State, a: Action, token: Token, signedAt: nat, t: State)
    requires HandsOut(s, a, token, signedAt) && Do(s, a).issued <= t.issued
    ensures t.now <= signedAt + s.db.lifetime + 5000 ==> Valid(t, token)
    ensures t.now >= signedAt + s.db.lifetime + 6000 ==> !Valid(t, token)
  {
    var until := signedAt + s.db.lifetime;
    assert token.exp == until / 1000;
    assert until / 1000 * 1000 <= until < until / 1000 * 1000 + 1000;
  }

  /** The token can be exchanged up to `until`, as far as the tables go. */
  ghost predicate Usable(s: State, token: Token, until: nat) {
    && token in s.issued && token in s.db.rows && token.sub in s.db.active && s.db.active[token.sub]
    && s.db.rows[token].userId == token.sub && !s.db.rows[token].revoked && until <= s.db.rows[token].expiresAt
  }

  lemma HandedOutIsUsable(s: State, a: Action, token: Token, signedAt: nat)
    requires Safe(s) && HandsOut(s, a, token, signedAt)
    ensures Usable(Do(s, a), token, signedAt + s.db.lifetime)
  {
    if a.Rotate? {
      RotateOutcome(s, a.token, a.jti, a.signedAt);
    }
  }

  /** Nobody presents the token to `rotate` or `end`. */
  predicate Unpresented(acts: seq<Action>, token: Token) {
    forall a :: a in acts ==> !(a.Rotate? && a.token == token) && !(a.End? && a.token == token)
  }

  lemma UsableStep(s: State, a: Action, token: Token, until: nat)
    requires Safe(s) && Enabled(s, a) && Usable(s, token, until) && Unpresented([a], token)
    requires s.now <= until && token !in Do(s, a).wiped
    ensures Usable(Do(s, a), token, until)
    ensures Do(s, a).db.lifetime == s.db.lifetime && s.now <= Do(s, a).now && s.issued <= Do(s, a).issued
  {
    assert a in [a];
    if a.Rotate? {
      RotateUsable(s, a, token, until);
    }
  }

  lemma RotateUsable(s: State, a: Action, token: Token, until: nat)
    requires Safe(s) && Enabled(s, a) && a.Rotate? && a.token != token && Usable(s, token, until)
    requires token !in Do(s, a).wiped
    ensures Usable(Do(s, a), token, until)
  {
    RotateOutcome(s, a.token, a.jti, a.signedAt);
    if Respond(s, a).Issued? {
      assert FreshJti(s, a.jti);
    }
  }

  lemma {:induction false} WipedStays(s: State, acts: seq<Action>, token: Token)
    requires Run(s, acts) && token in s.wiped
    ensures token in After(s, acts).wiped
    decreases |acts|
  {
    if acts != [] {
      WipedStays(Do(s, acts[0]), acts[1..], token);
    }
  }

  lemma {:induction false} ClockGoesOn(s: State, acts: seq<Action>)
    requires Run(s, acts)
    ensures s.now <= After(s, acts).now && s.issued <= After(s, acts).issued
    decreases |acts|
  {
    if acts != [] {
      ClockGoesOn(Do(s, acts[0]), acts[1..]);
    }
  }

  lemma {:induction false} UsableAlong(s: State, acts: seq<Action>, token: Token, until: nat)
    requires Safe(s) && Run(s, acts) && Usable(s, token, until) && Unpresented(acts, token)
    requires After(s, acts).now <= until && token !in After(s, acts).wiped
    ensures Usable(After(s, acts), token, until)
    decreases |acts|
  {
    if acts != [] {
      var t := Do(s, acts[0]);
      assert acts[0] in acts && forall a :: a in acts[1..] ==> a in acts;
      assert Unpresented([acts[0]], token);
      ClockGoesOn(s, acts);
      if token in t.wiped {
        WipedStays(t, acts[1..], token);
      }
      SafeStep(s, acts[0]);
      UsableStep(s, acts[0], token, until);
      UsableAlong(t, acts[1..], token, until);
    }
  }

  /**
   * A session lasts: a token that was handed out, and has neither been presented since nor removed by
   * an `end_all`, is exchanged for a new one at any time within the configured lifetime of its signing,
   * whatever else happened in between.
   */
  lemma SessionsLast(s: State, a: Action, acts: seq<Action>, token: Token, signedAt: nat, jti: nat, at: nat)
    requires Safe(s) && HandsOut(s, a, token, signedAt)
    requires Run(Do(s, a), acts) && Unpresented(acts, token) && token !in After(Do(s, a), acts).wiped
    requires After(Do(s, a), acts).now <= signedAt + s.db.lifetime
    requires Enabled(After(Do(s, a), acts), Rotate(token, jti, at))
    ensures Respond(After(Do(s, a), acts), Rotate(token, jti, at)).Issued?
  {
    var t := After(Do(s, a), acts);
    SafeStep(s, a);
    HandedOutIsUsable(s, a, token, signedAt);
    UsableAlong(Do(s, a), acts, token, signedAt + s.db.lifetime);
    ClockGoesOn(Do(s, a), acts);
    TokenWindow(s, a, token, signedAt, t);
    RotateOutcome(t, token, jti, at);
  }

  /** And it ends: six seconds after the lifetime no presenting of the token is heard. */
  lemma SessionsEnd(s: State, a: Action, token: Token, signedAt: nat, t: State, jti: nat, at: nat)
    requires HandsOut(s, a, token, signedAt) && Do(s, a).issued <= t.issued
    requires t.now >= signedAt + s.db.lifetime + 6000 && Enabled(t, Rotate(token, jti, at))
    ensures Respond(t, Rotate(token, jti, at)).Unauthorized?
    ensures Do(t, Rotate(token, jti, at)).db == t.db && Do(t, End(token)).db == t.db
  {
    TokenWindow(s, a, token, signedAt, t);
  }
}
